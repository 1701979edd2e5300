/** The career create and edit forms: the name, two positive whole numbers
    and an optional start date, validated client-side before the request. */
module CareerForms {
  import opened JsText
  import opened Paging
  import opened Storage
  import opened Validation

  /** The four inputs as typed. */
  datatype CareerFields = CareerFields(
    name: string, costoMensual: string, duracionMeses: string, inicioCursado: string)

  /** The messages the two forms can show. */
  datatype CareerError =
    | NameRequired | NameTooLong
    | CostNotNumber | CostNotPositive
    | DurationNotNumber | DurationNotPositive
    | StartDateFormat

  function Text(e: CareerError): string {
    match e
    case NameRequired => "El nombre de la carrera es obligatorio"
    case NameTooLong => "El nombre no puede superar los 50 caracteres"
    case CostNotNumber => "El costo mensual debe ser un número"
    case CostNotPositive => "El costo mensual debe ser mayor a 0"
    case DurationNotNumber => "La duración en meses debe ser un número"
    case DurationNotPositive => "La duración en meses debe ser mayor a 0"
    case StartDateFormat => "La fecha de inicio debe tener formato YYYY-MM-DD"
  }

  const NameMaxLength := 50

  /** A number input that parseInt reads as a whole number above zero. */
  predicate PositiveNumber(text: string) {
    ParseInt(text).Num? && ParseInt(text).n > 0
  }

  /** The name chain: required after trim, then at most 50 characters once
      trimmed. */
  function NameCheck(name: string): (r: Option<CareerError>)
    ensures r.None? <==> !IsBlank(name) && |Trim(name)| <= NameMaxLength
    ensures IsBlank(name) ==> r == Some(NameRequired)
    ensures !IsBlank(name) && |Trim(name)| > NameMaxLength ==> r == Some(NameTooLong)
  {
    if IsBlank(name) then Some(NameRequired)
    else if |Trim(name)| > NameMaxLength then Some(NameTooLong)
    else None
  }

  /** A number chain: NaN, then not above zero. */
  function PositiveCheck(text: string, notNumber: CareerError, notPositive: CareerError): (r: Option<CareerError>)
    ensures r.None? <==> PositiveNumber(text)
    ensures ParseInt(text).NaN? ==> r == Some(notNumber)
    ensures ParseInt(text).Num? && ParseInt(text).n <= 0 ==> r == Some(notPositive)
  {
    match ParseInt(text)
    case NaN => Some(notNumber)
    case Num(n) => if n <= 0 then Some(notPositive) else None
  }

  /** The start date is optional; when given it must match YYYY-MM-DD. */
  function StartDateCheck(inicio: string): (r: Option<CareerError>)
    ensures r.None? <==> inicio == "" || MatchesIsoDate(inicio)
    ensures r.Some? ==> r.value == StartDateFormat
  {
    if inicio != "" && !MatchesIsoDate(inicio) then Some(StartDateFormat) else None
  }

  /** The checks in the order validate() runs them (the same in both
      forms). */
  function CareerChecks(f: CareerFields): seq<Option<CareerError>> {
    [ NameCheck(f.name),
      PositiveCheck(f.costoMensual, CostNotNumber, CostNotPositive),
      PositiveCheck(f.duracionMeses, DurationNotNumber, DurationNotPositive),
      StartDateCheck(f.inicioCursado) ]
  }

  /** validate(): the messages in check order. Nothing is reported exactly
      for acceptable fields, and at most one message per field. */
  function ValidateCareer(f: CareerFields): (r: seq<CareerError>)
    ensures r == [] <==> CareerAcceptable(f)
    ensures |r| <= 4
  {
    CareerChecksAccept(f);
    Failed(CareerChecks(f))
  }

  /** What the forms accept, stated independently of the message chain. */
  predicate CareerAcceptable(f: CareerFields) {
    && !IsBlank(f.name) && |Trim(f.name)| <= NameMaxLength
    && PositiveNumber(f.costoMensual) && PositiveNumber(f.duracionMeses)
    && (f.inicioCursado == "" || MatchesIsoDate(f.inicioCursado))
  }

  lemma CareerChecksAccept(f: CareerFields)
    ensures Failed(CareerChecks(f)) == [] <==> CareerAcceptable(f)
  {
    var checks := CareerChecks(f);
    FailedEmpty(checks);
    AllPassFour(checks);
  }

  /** Body of POST /careers and PUT /careers/{id}. */
  datatype CareerPayload = CareerPayload(
    name: string, costoMensual: int, duracionMeses: int, inicioCursado: Option<string>)

  /** The payload of accepted fields: the name as typed (untrimmed), the
      numbers as parseInt reads them, the date only when one was typed. */
  function Payload(f: CareerFields): (r: CareerPayload)
    requires CareerAcceptable(f)
    ensures r.name == f.name && !IsBlank(r.name)
    ensures r.costoMensual > 0 && Num(r.costoMensual) == ParseInt(f.costoMensual)
    ensures r.duracionMeses > 0 && Num(r.duracionMeses) == ParseInt(f.duracionMeses)
    ensures r.inicioCursado.Some? <==> f.inicioCursado != ""
    ensures r.inicioCursado.Some? ==> r.inicioCursado.value == f.inicioCursado && MatchesIsoDate(f.inicioCursado)
  {
    CareerPayload(f.name, ParseInt(f.costoMensual).n, ParseInt(f.duracionMeses).n,
      if f.inicioCursado != "" then Some(f.inicioCursado) else None)
  }

  /** A career as GET /careers/{id} returns it. */
  datatype CareerData = CareerData(id: int, name: string, costoMensual: int, duracionMeses: int)

  /** The edit form's fields after a load: the numbers as String(n), the
      date as the already converted YYYY-MM-DD text or "" when none. */
  function FieldsFromCareer(c: CareerData, isoStart: string): CareerFields {
    CareerFields(c.name, IntToString(c.costoMensual), IntToString(c.duracionMeses), isoStart)
  }

  /** The loaded career fills the form so that it reads back as itself: the
      name and the converted date as they are, and the numbers written as
      text that parseInt reads back as the loaded ones. */
  lemma LoadedNumbersReparse(c: CareerData, isoStart: string)
    ensures FieldsFromCareer(c, isoStart).name == c.name
    ensures FieldsFromCareer(c, isoStart).inicioCursado == isoStart
    ensures ParseInt(FieldsFromCareer(c, isoStart).costoMensual) == Num(c.costoMensual)
    ensures ParseInt(FieldsFromCareer(c, isoStart).duracionMeses) == Num(c.duracionMeses)
  {
    ParseIntRoundTrip(c.costoMensual);
    ParseIntRoundTrip(c.duracionMeses);
  }

  /** Saving a loaded career without touching the form sends back the same
      name and numbers, whenever the stored career is itself acceptable. */
  lemma LoadedCareerResubmits(c: CareerData, isoStart: string)
    requires !IsBlank(c.name) && |Trim(c.name)| <= NameMaxLength
    requires c.costoMensual > 0 && c.duracionMeses > 0
    requires isoStart == "" || MatchesIsoDate(isoStart)
    ensures CareerAcceptable(FieldsFromCareer(c, isoStart))
    ensures ValidateCareer(FieldsFromCareer(c, isoStart)) == []
    ensures var p := Payload(FieldsFromCareer(c, isoStart));
      p.name == c.name && p.costoMensual == c.costoMensual && p.duracionMeses == c.duracionMeses
  {
    LoadedNumbersReparse(c, isoStart);
  }

  class CareerCreateForm {
    var fields: CareerFields
    var errors: seq<string>

    constructor ()
      ensures fields == CareerFields("", "", "", "") && errors == []
    {
      fields := CareerFields("", "", "", "");
      errors := [];
    }

    /** validate(): replaces the messages and reports whether there are
        none. */
    method Validate() returns (ok: bool)
      modifies this`errors
      ensures errors == Shown(ValidateCareer(fields), Text)
      ensures ok <==> CareerAcceptable(fields)
    {
      errors := Shown(ValidateCareer(fields), Text);
      ok := errors == [];
    }

    /** handleSubmit: only accepted fields are posted; a refusal or a
        failure leaves one message; success alerts and goes to the list. */
    method Submit(reply: Reply) returns (sent: Option<CareerPayload>, navigate: Option<string>, alert: Option<string>)
      modifies this`errors
      ensures sent.Some? <==> CareerAcceptable(fields)
      ensures sent.None? ==> errors == Shown(ValidateCareer(fields), Text) && navigate.None?
      ensures sent.Some? ==> CareerAcceptable(fields) && sent.value == Payload(fields)
      ensures sent.Some? ==> errors == PostErrors(reply, "No se pudo crear la carrera", "Error creando la carrera")
      ensures sent.Some? ==> (navigate.Some? <==> reply.Accepted?)
      ensures navigate.Some? ==> navigate.value == "/admin/careers"
      ensures alert == (if navigate.Some? then Some("Carrera creada correctamente") else None)
    {
      sent, navigate, alert := None, None, None;
      var ok := Validate();
      if !ok {
        return;
      }
      sent := Some(Payload(fields));
      errors := PostErrors(reply, "No se pudo crear la carrera", "Error creando la carrera");
      if reply.Accepted? {
        navigate, alert := Some("/admin/careers"), Some("Carrera creada correctamente");
      }
    }
  }

  class CareerEditForm {
    const idParam: Option<string>
    var career: Option<CareerData>
    var loading: bool
    var fields: CareerFields
    var errors: seq<string>

    constructor (idParam: Option<string>)
      ensures this.idParam == idParam && career.None? && loading && errors == []
      ensures fields == CareerFields("", "", "", "")
    {
      this.idParam := idParam;
      career := None;
      loading := true;
      fields := CareerFields("", "", "", "");
      errors := [];
    }

    /** loadCareer, which runs only with an id: an OK reply fills the form
        (the start date only when the record has a valid one); any reply
        ends the loading state. Without an id nothing runs and the form
        stays in its loading state. */
    method ApplyLoaded(record: Option<CareerData>, isoStart: Option<string>)
      modifies this
      ensures !Present(idParam) ==> career == old(career) && loading == old(loading) && fields == old(fields)
      ensures Present(idParam) ==> !loading
      ensures Present(idParam) && record.Some? ==>
        && career == record
        && fields == FieldsFromCareer(record.value, if isoStart.Some? then isoStart.value else old(fields.inicioCursado))
      ensures Present(idParam) && record.None? ==> career == old(career) && fields == old(fields)
      ensures errors == old(errors)
    {
      if !Present(idParam) {
        return;
      }
      if record.Some? {
        career := record;
        var start := if isoStart.Some? then isoStart.value else fields.inicioCursado;
        fields := FieldsFromCareer(record.value, start);
      }
      loading := false;
    }

    method Validate() returns (ok: bool)
      modifies this`errors
      ensures errors == Shown(ValidateCareer(fields), Text)
      ensures ok <==> CareerAcceptable(fields)
    {
      errors := Shown(ValidateCareer(fields), Text);
      ok := errors == [];
    }

    /** handleSubmit, reachable only once the form is rendered (loading
        over and a career loaded): nothing at all without an id; otherwise
        as in the create form, with PUT /careers/{id}. */
    method Submit(reply: Reply) returns (sent: Option<CareerPayload>, navigate: Option<string>, alert: Option<string>)
      requires !loading && career.Some?
      modifies this`errors
      ensures !Present(idParam) ==> sent.None? && navigate.None? && alert.None? && errors == old(errors)
      ensures sent.Some? <==> Present(idParam) && CareerAcceptable(fields)
      ensures Present(idParam) && sent.None? ==> errors == Shown(ValidateCareer(fields), Text) && navigate.None?
      ensures sent.Some? ==> CareerAcceptable(fields) && sent.value == Payload(fields)
      ensures sent.Some? ==> errors == PostErrors(reply, "No se pudo actualizar la carrera", "Error actualizando la carrera")
      ensures sent.Some? ==> (navigate.Some? <==> reply.Accepted?)
      ensures navigate.Some? ==> navigate.value == "/admin/careers"
      ensures alert == (if navigate.Some? then Some("Carrera actualizada correctamente") else None)
    {
      sent, navigate, alert := None, None, None;
      if !Present(idParam) {
        return;
      }
      var ok := Validate();
      if !ok {
        return;
      }
      sent := Some(Payload(fields));
      errors := PostErrors(reply, "No se pudo actualizar la carrera", "Error actualizando la carrera");
      if reply.Accepted? {
        navigate, alert := Some("/admin/careers"), Some("Carrera actualizada correctamente");
      }
    }

    /** handleViewHistory: the price history of this career, using the id
        exactly as it appears in the route. */
    method ViewHistory() returns (navigate: Option<string>)
      ensures navigate.Some? <==> Present(idParam)
      ensures navigate.Some? ==> navigate.value == "/admin/careers/" + idParam.value + "/prices"
    {
      navigate := if Present(idParam) then Some("/admin/careers/" + idParam.value + "/prices") else None;
    }
  }
}
