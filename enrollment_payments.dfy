/** What the two "payments of one enrollment" views share: the payment row,
    the request body of /payments/by-enrollment, the include_anulados choice
    and the cancel edit. */
module EnrollmentPayments {
  import opened JsText
  import opened Paging

  /** A payment of an enrollment; amounts are kept as integers. */
  datatype PaymentItem = PaymentItem(
    id: int, numeroCuota: int, fechaPago: Option<string>, monto: int, adelantado: bool, anulado: bool)

  /** Body of POST /payments/by-enrollment. */
  datatype ByEnrollmentQuery = ByEnrollmentQuery(
    enrollmentId: int, page: int, pageSize: int, includeAnulados: bool)

  /** Guarded; the error is never cleared by a new load; the main spinner
      is used for page 1 or a reset. */
  const ByEnrollmentPolicy := Policy(true, ClearNever, FirstPageOrReset, "Error al obtener pagos", false)

  /** `includeOverride ?? includeAnulados`: an explicit value wins over the
      view's flag. */
  function IncludeFlag(includeOverride: Option<bool>, current: bool): (r: bool)
    ensures includeOverride.Some? ==> r == includeOverride.value
    ensures includeOverride.None? ==> r == current
  {
    if includeOverride.Some? then includeOverride.value else current
  }

  /** prev.map(p => p.id === id ? { ...p, anulado: true } : p): same length,
      same order, every row keeps all of its fields but `anulado`, which
      becomes true exactly on the rows with that id. */
  function MarkCancelled(items: seq<PaymentItem>, id: int): (r: seq<PaymentItem>)
    ensures |r| == |items|
    ensures forall i :: 0 <= i < |r| ==>
      r[i].(anulado := items[i].anulado) == items[i]
      && (r[i].anulado <==> items[i].anulado || items[i].id == id)
  {
    if items == [] then []
    else
      var head := if items[0].id == id then items[0].(anulado := true) else items[0];
      [head] + MarkCancelled(items[1..], id)
  }

  /** Cancelling twice is cancelling once. */
  lemma MarkCancelledIdempotent(items: seq<PaymentItem>, id: int)
    ensures MarkCancelled(MarkCancelled(items, id), id) == MarkCancelled(items, id)
  {
    var once := MarkCancelled(items, id);
    var twice := MarkCancelled(once, id);
    forall i | 0 <= i < |once|
      ensures twice[i] == once[i]
    {
      assert twice[i].(anulado := once[i].anulado) == once[i];
    }
  }

  /** A row whose id differs is left exactly as it was. */
  lemma MarkCancelledOthers(items: seq<PaymentItem>, id: int, i: int)
    requires 0 <= i < |items| && items[i].id != id
    ensures MarkCancelled(items, id)[i] == items[i]
  {
    var r := MarkCancelled(items, id);
    assert r[i].(anulado := items[i].anulado) == items[i];
  }
}

/** Admin page of one enrollment's payments (/admin/users/:userId/
    enrollments/:enrollmentId/payments). */
module UserPayments {
  import opened JsText
  import opened Paging
  import opened Routes
  import opened EnrollmentPayments
  import PaymentList

  /** Body of POST /payments. `fechaPago` is the raw date input; its
      conversion to an ISO timestamp is not modelled. */
  datatype CreatePaymentBody = CreatePaymentBody(
    enrollmentId: int, numeroCuota: int, fechaPago: Option<string>, adelantado: bool)

  /** The cuota check of handleCreatePayment: `parseInt(input, 10)` must be
      a number greater than 0 (NaN, 0 and negatives are rejected). */
  function CuotaNumber(input: string): (r: Option<int>)
    ensures r.Some? <==> ParseInt(input).Num? && ParseInt(input).n > 0
    ensures r.Some? ==> r.value == ParseInt(input).n && r.value >= 1
  {
    var n := ParseInt(input);
    if Truthy(n) && n.n > 0 then Some(n.n) else None
  }

  /** Every positive cuota typed in decimal is accepted as itself. */
  lemma CuotaNumberOfDecimal(n: int)
    requires n > 0
    ensures CuotaNumber(IntToString(n)) == Some(n)
  {
    ParseIntRoundTrip(n);
  }

  /** Empty text, non-numeric text and "0" are rejected. */
  lemma CuotaNumberRejects()
    ensures CuotaNumber("") == None
    ensures CuotaNumber("abc") == None
    ensures CuotaNumber("0") == None
  {
    ParseIntWithoutDigits("");
    ParseIntWithoutDigits("abc");
    ParseIntOfDigits("0");
  }

  /** The date is sent only when the input is not blank; adelantado is
      always false. */
  function CreateBody(enrollmentId: int, cuota: int, fechaInput: string): (r: CreatePaymentBody)
    ensures r.enrollmentId == enrollmentId && r.numeroCuota == cuota && !r.adelantado
    ensures r.fechaPago.Some? <==> !IsBlank(fechaInput)
    ensures r.fechaPago.Some? ==> r.fechaPago.value == fechaInput
  {
    CreatePaymentBody(enrollmentId, cuota, if IsBlank(fechaInput) then None else Some(fechaInput), false)
  }

  /** handleBack: where the back button goes. */
  function BackRoute(from: Option<string>, userIdNum: JsNum): (r: Navigation)
    ensures from == Some("global-payments") ==> r == GoTo("/admin/payments")
    ensures from == Some("user-enrollments") && Truthy(userIdNum) ==>
      r == GoTo(UserEnrollmentsPath(userIdNum.n))
    ensures from != Some("global-payments") && !(from == Some("user-enrollments") && Truthy(userIdNum)) ==>
      r == GoBack
  {
    if from == Some("global-payments") then GoTo("/admin/payments")
    else if from == Some("user-enrollments") && Truthy(userIdNum) then GoTo(UserEnrollmentsPath(userIdNum.n))
    else GoBack
  }

  /** Coming from a user's enrollments to one of their payments pages, the
      back button returns to that same user's enrollments. */
  lemma BackReturnsToEnrollments(uid: int)
    requires uid != 0
    ensures BackRoute(Some("user-enrollments"), RouteId(Some(IntToString(uid)))) == GoTo(UserEnrollmentsPath(uid))
  {
    RouteIdOfId(uid);
  }

  /** The loaded user of the header. */
  datatype HeaderUser = HeaderUser(username: string, firstName: Option<string>, lastName: Option<string>)

  /** formatHeaderAlumno: "" before the user is loaded, otherwise as in the
      global payments list. */
  function HeaderAlumno(user: Option<HeaderUser>): (r: string)
    ensures user.None? ==> r == ""
    ensures user.Some? ==> r == PaymentList.FormatAlumno(user.value.firstName, user.value.lastName, user.value.username)
  {
    if user.None? then "" else PaymentList.FormatAlumno(user.value.firstName, user.value.lastName, user.value.username)
  }

  class UserPaymentsView {
    const list: Paginator<PaymentItem>
    const userIdNum: JsNum
    const enrollmentIdNum: JsNum
    const from: Option<string>
    var includeAnulados: bool
    var numeroCuota: string
    var fechaPago: string

    ghost predicate Valid()
      reads this, list
    {
      list.Valid() && list.policy == ByEnrollmentPolicy
    }

    /** The route parameters are parsed once; cancelled payments are shown
        by default. */
    constructor (userParam: Option<string>, enrollmentParam: Option<string>, from: Option<string>)
      ensures Valid() && fresh(list)
      ensures userIdNum == RouteId(userParam) && enrollmentIdNum == RouteId(enrollmentParam)
      ensures this.from == from && includeAnulados && numeroCuota == "" && fechaPago == ""
      ensures list.items == [] && list.page == 1 && list.hasMore && !list.inFlight
      ensures list.outstanding == 0
    {
      list := new Paginator(ByEnrollmentPolicy);
      userIdNum := RouteId(userParam);
      enrollmentIdNum := RouteId(enrollmentParam);
      this.from := from;
      includeAnulados, numeroCuota, fechaPago := true, "", "";
    }

    /** loadPayments(pageToLoad, reset, includeOverride) up to the fetch:
        nothing without an enrollment id, then the usual guards. */
    method Load(req: LoadRequest, includeOverride: Option<bool>) returns (query: Option<ByEnrollmentQuery>)
      requires Valid()
      modifies list
      ensures Valid()
      ensures query.Some? <==>
        Truthy(enrollmentIdNum) && MayIssue(ByEnrollmentPolicy, old(list.inFlight), old(list.hasMore), req)
      ensures query.Some? ==>
        query.value == ByEnrollmentQuery(enrollmentIdNum.n, req.page, PageSize, IncludeFlag(includeOverride, includeAnulados))
      ensures query.None? ==> unchanged(list)
      ensures query.Some? ==>
        && list.items == old(list.items) && list.page == old(list.page)
        && list.hasMore == old(list.hasMore) && list.error == old(list.error)
        && list.inFlight && list.outstanding == old(list.outstanding) + 1
    {
      if !Truthy(enrollmentIdNum) {
        return None;
      }
      var issued := list.BeginLoad(req);
      query := if issued
        then Some(ByEnrollmentQuery(enrollmentIdNum.n, req.page, PageSize, IncludeFlag(includeOverride, includeAnulados)))
        else None;
    }

    /** The mount effect: reset the cursor and load page 1 with reset. */
    method Mount() returns (query: Option<ByEnrollmentQuery>)
      requires Valid()
      modifies list
      ensures Valid() && list.page == 1 && list.hasMore
      ensures query.Some? <==> Truthy(enrollmentIdNum) && !old(list.inFlight)
      ensures query.Some? ==> query.value == ByEnrollmentQuery(enrollmentIdNum.n, 1, PageSize, includeAnulados)
      ensures list.items == old(list.items)
      ensures query.Some? ==>
        list.inFlight && list.error == old(list.error) && list.outstanding == old(list.outstanding) + 1
      ensures query.None? ==>
        list.inFlight == old(list.inFlight) && list.error == old(list.error) && list.outstanding == old(list.outstanding)
    {
      list.ResetCursor();
      query := Load(LoadRequest(1, true), None);
    }

    /** handleScroll */
    method Scroll(g: Scroll) returns (query: Option<ByEnrollmentQuery>)
      requires Valid()
      modifies list
      ensures Valid()
      ensures query.Some? <==> Truthy(enrollmentIdNum) && ScrollFires(g, old(list.hasMore), old(list.inFlight))
      ensures query.Some? ==>
        query.value == ByEnrollmentQuery(enrollmentIdNum.n, old(list.page) + 1, PageSize, includeAnulados)
      ensures query.None? ==> unchanged(list)
      ensures query.Some? ==>
        && list.items == old(list.items) && list.page == old(list.page)
        && list.hasMore == old(list.hasMore) && list.error == old(list.error)
        && list.inFlight && list.outstanding == old(list.outstanding) + 1
    {
      if ScrollFires(g, list.hasMore, list.inFlight) {
        ScrollPassesGuards(list.policy, g, list.hasMore, list.inFlight, list.page);
        query := Load(LoadRequest(list.page + 1, false), None);
      } else {
        query := None;
      }
    }

    /** handleToggleAnulados: flip the flag and reload page 1 with reset,
        sending the new value explicitly. */
    method ToggleAnulados() returns (query: Option<ByEnrollmentQuery>)
      requires Valid()
      modifies this, list
      ensures Valid()
      ensures includeAnulados == !old(includeAnulados)
      ensures numeroCuota == old(numeroCuota) && fechaPago == old(fechaPago)
      ensures list.page == 1 && list.hasMore && list.items == old(list.items)
      ensures query.Some? <==> Truthy(enrollmentIdNum) && !old(list.inFlight)
      ensures query.Some? ==> query.value == ByEnrollmentQuery(enrollmentIdNum.n, 1, PageSize, includeAnulados)
      ensures list.items == old(list.items)
      ensures query.Some? ==>
        list.inFlight && list.error == old(list.error) && list.outstanding == old(list.outstanding) + 1
      ensures query.None? ==>
        list.inFlight == old(list.inFlight) && list.error == old(list.error) && list.outstanding == old(list.outstanding)
    {
      var nuevoValor := !includeAnulados;
      includeAnulados := nuevoValor;
      list.ResetCursor();
      query := Load(LoadRequest(1, true), Some(nuevoValor));
    }

    /** handleCancelPayment: after confirmation and an OK reply the payment
        with that id is marked cancelled in place; otherwise nothing
        changes. */
    method CancelPayment(id: int, confirmed: bool, reply: Reply) returns (alert: Option<string>)
      requires Valid()
      modifies list
      ensures Valid()
      ensures confirmed && reply.Accepted? ==> list.items == MarkCancelled(old(list.items), id)
      ensures confirmed && reply.Accepted? ==>
        && list.page == old(list.page) && list.hasMore == old(list.hasMore)
        && list.error == old(list.error) && list.inFlight == old(list.inFlight)
        && list.outstanding == old(list.outstanding)
        && list.initialLoading == old(list.initialLoading) && list.loadingMore == old(list.loadingMore)
      ensures !(confirmed && reply.Accepted?) ==> unchanged(list)
      ensures !confirmed <==> alert.None?
      ensures confirmed && reply.Accepted? ==> alert == Some("Pago anulado correctamente")
      ensures confirmed && reply.Refused? ==> alert == Some(RefusalText(reply.detail, "No se pudo anular el pago"))
      ensures confirmed && reply.Threw? ==> alert == Some("Error anulando el pago")
    {
      if !confirmed {
        return None;
      }
      match reply
      case Accepted =>
        list.SetItems(MarkCancelled(list.items, id));
        alert := Some("Pago anulado correctamente");
      case Refused(detail) =>
        alert := Some(RefusalText(detail, "No se pudo anular el pago"));
      case Threw =>
        alert := Some("Error anulando el pago");
    }

    /** handleCreatePayment. Returns the body it posts (None when a check
        stops it first), the alert shown and the reload it issues. `reply`
        is what the server answers when a body is posted. */
    method CreatePayment(reply: Reply)
      returns (sent: Option<CreatePaymentBody>, alert: Option<string>, reload: Option<ByEnrollmentQuery>)
      requires Valid()
      modifies this, list
      ensures Valid() && includeAnulados == old(includeAnulados)
      ensures !Truthy(enrollmentIdNum) ==> sent.None? && alert.None? && unchanged(this) && unchanged(list)
      ensures Truthy(enrollmentIdNum) && CuotaNumber(old(numeroCuota)).None? ==>
        && sent.None? && alert == Some("Ingresá un número de cuota válido (>= 1)")
        && unchanged(this) && unchanged(list)
      ensures sent.Some? <==> Truthy(enrollmentIdNum) && CuotaNumber(old(numeroCuota)).Some?
      ensures sent.Some? ==>
        sent.value == CreateBody(enrollmentIdNum.n, CuotaNumber(old(numeroCuota)).value, old(fechaPago))
      ensures sent.Some? && reply.Accepted? ==>
        && numeroCuota == "" && fechaPago == "" && list.page == 1 && list.hasMore
        && alert == Some("Pago registrado correctamente")
        && (reload.Some? <==> !old(list.inFlight))
        && (reload.Some? ==> reload.value == ByEnrollmentQuery(enrollmentIdNum.n, 1, PageSize, includeAnulados))
        && list.items == old(list.items) && list.error == old(list.error)
        && (reload.Some? ==> list.inFlight && list.outstanding == old(list.outstanding) + 1)
        && (reload.None? ==> list.inFlight == old(list.inFlight) && list.outstanding == old(list.outstanding))
      ensures sent.Some? && !reply.Accepted? ==> reload.None? && unchanged(this) && unchanged(list)
      ensures sent.Some? && reply.Refused? ==> alert == Some(RefusalText(reply.detail, "No se pudo crear el pago"))
      ensures sent.Some? && reply.Threw? ==> alert == Some("Error registrando pago")
    {
      sent, alert, reload := None, None, None;
      if !Truthy(enrollmentIdNum) {
        return;
      }
      var cuota := CuotaNumber(numeroCuota);
      if cuota.None? {
        alert := Some("Ingresá un número de cuota válido (>= 1)");
        return;
      }
      sent := Some(CreateBody(enrollmentIdNum.n, cuota.value, fechaPago));
      match reply
      case Accepted =>
        numeroCuota, fechaPago := "", "";
        list.ResetCursor();
        reload := Load(LoadRequest(1, true), None);
        alert := Some("Pago registrado correctamente");
      case Refused(detail) =>
        alert := Some(RefusalText(detail, "No se pudo crear el pago"));
      case Threw =>
        alert := Some("Error registrando pago");
    }
  }
}

/** The student's own payments of one enrollment; the enrollment id comes
    from the navigation state. */
module AlumnoPayments {
  import opened JsText
  import opened Paging
  import opened EnrollmentPayments

  /** `if (!enrollmentId)`: the id is missing or 0. */
  predicate HasEnrollment(enrollmentId: Option<int>) {
    enrollmentId.Some? && enrollmentId.value != 0
  }

  class AlumnoPaymentsView {
    const list: Paginator<PaymentItem>
    const enrollmentId: Option<int>
    var includeAnulados: bool

    ghost predicate Valid()
      reads this, list
    {
      list.Valid() && list.policy == ByEnrollmentPolicy
    }

    /** Cancelled payments are hidden by default. */
    constructor (enrollmentId: Option<int>)
      ensures Valid() && fresh(list)
      ensures this.enrollmentId == enrollmentId && !includeAnulados
      ensures list.items == [] && list.page == 1 && list.hasMore && !list.inFlight
      ensures list.outstanding == 0
    {
      list := new Paginator(ByEnrollmentPolicy);
      this.enrollmentId := enrollmentId;
      includeAnulados := false;
    }

    /** loadPayments up to the fetch. */
    method Load(req: LoadRequest, includeOverride: Option<bool>) returns (query: Option<ByEnrollmentQuery>)
      requires Valid()
      modifies list
      ensures Valid()
      ensures query.Some? <==>
        HasEnrollment(enrollmentId) && MayIssue(ByEnrollmentPolicy, old(list.inFlight), old(list.hasMore), req)
      ensures query.Some? ==>
        query.value == ByEnrollmentQuery(enrollmentId.value, req.page, PageSize, IncludeFlag(includeOverride, includeAnulados))
      ensures query.None? ==> unchanged(list)
      ensures query.Some? ==>
        && list.items == old(list.items) && list.page == old(list.page)
        && list.hasMore == old(list.hasMore) && list.error == old(list.error)
        && list.inFlight && list.outstanding == old(list.outstanding) + 1
    {
      if !HasEnrollment(enrollmentId) {
        return None;
      }
      var issued := list.BeginLoad(req);
      query := if issued
        then Some(ByEnrollmentQuery(enrollmentId.value, req.page, PageSize, IncludeFlag(includeOverride, includeAnulados)))
        else None;
    }

    /** The mount effect: without an enrollment it returns before touching
        anything; otherwise it resets the cursor and loads page 1. */
    method Mount() returns (query: Option<ByEnrollmentQuery>)
      requires Valid()
      modifies list
      ensures Valid()
      ensures !HasEnrollment(enrollmentId) ==> query.None? && unchanged(list)
      ensures HasEnrollment(enrollmentId) ==> list.page == 1 && list.hasMore
      ensures query.Some? <==> HasEnrollment(enrollmentId) && !old(list.inFlight)
      ensures query.Some? ==> query.value == ByEnrollmentQuery(enrollmentId.value, 1, PageSize, includeAnulados)
      ensures list.items == old(list.items)
      ensures query.Some? ==>
        list.inFlight && list.error == old(list.error) && list.outstanding == old(list.outstanding) + 1
      ensures query.None? ==>
        list.inFlight == old(list.inFlight) && list.error == old(list.error) && list.outstanding == old(list.outstanding)
    {
      if !HasEnrollment(enrollmentId) {
        return None;
      }
      list.ResetCursor();
      query := Load(LoadRequest(1, true), None);
    }

    /** handleScroll */
    method Scroll(g: Scroll) returns (query: Option<ByEnrollmentQuery>)
      requires Valid()
      modifies list
      ensures Valid()
      ensures query.Some? <==> HasEnrollment(enrollmentId) && ScrollFires(g, old(list.hasMore), old(list.inFlight))
      ensures query.Some? ==>
        query.value == ByEnrollmentQuery(enrollmentId.value, old(list.page) + 1, PageSize, includeAnulados)
      ensures query.None? ==> unchanged(list)
      ensures query.Some? ==>
        && list.items == old(list.items) && list.page == old(list.page)
        && list.hasMore == old(list.hasMore) && list.error == old(list.error)
        && list.inFlight && list.outstanding == old(list.outstanding) + 1
    {
      if ScrollFires(g, list.hasMore, list.inFlight) {
        ScrollPassesGuards(list.policy, g, list.hasMore, list.inFlight, list.page);
        query := Load(LoadRequest(list.page + 1, false), None);
      } else {
        query := None;
      }
    }

    /** handleToggleAnulados */
    method ToggleAnulados() returns (query: Option<ByEnrollmentQuery>)
      requires Valid()
      modifies this, list
      ensures Valid()
      ensures includeAnulados == !old(includeAnulados)
      ensures list.page == 1 && list.hasMore && list.items == old(list.items)
      ensures query.Some? <==> HasEnrollment(enrollmentId) && !old(list.inFlight)
      ensures query.Some? ==> query.value == ByEnrollmentQuery(enrollmentId.value, 1, PageSize, includeAnulados)
      ensures list.items == old(list.items)
      ensures query.Some? ==>
        list.inFlight && list.error == old(list.error) && list.outstanding == old(list.outstanding) + 1
      ensures query.None? ==>
        list.inFlight == old(list.inFlight) && list.error == old(list.error) && list.outstanding == old(list.outstanding)
    {
      var nuevoValor := !includeAnulados;
      includeAnulados := nuevoValor;
      list.ResetCursor();
      query := Load(LoadRequest(1, true), Some(nuevoValor));
    }
  }
}
