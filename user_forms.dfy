/** The student create and edit forms: an ordered chain of field checks
    that yields the list of messages shown, and a submit that posts only
    when that list is empty. */
module UserForms {
  import opened JsText
  import opened Paging
  import opened Storage
  import opened Validation

  /** The text fields shared by both forms. */
  datatype UserFields = UserFields(
    username: string, firstName: string, lastName: string,
    dni: string, email: string, userType: string)

  const AdminRole := "admin"
  const AlumnoRole := "alumno"

  /** The messages the two forms can show, one per way a field fails. */
  datatype UserError =
    | UsernameRequired | FirstNameRequired | LastNameRequired
    | DniRequired | DniNotNumeric | DniLength
    | EmailRequired | EmailFormat
    | PasswordRequired | PasswordShort
    | RoleInvalid

  /** The text shown for each message. */
  function Text(e: UserError): string {
    match e
    case UsernameRequired => "El usuario es obligatorio"
    case FirstNameRequired => "El nombre es obligatorio"
    case LastNameRequired => "El apellido es obligatorio"
    case DniRequired => "El DNI es obligatorio"
    case DniNotNumeric => "El DNI debe ser numérico"
    case DniLength => "El DNI debe tener entre 7 y 9 dígitos"
    case EmailRequired => "El email es obligatorio"
    case EmailFormat => "El email no tiene un formato válido"
    case PasswordRequired => "La contraseña es obligatoria"
    case PasswordShort => "La contraseña debe tener al menos 6 caracteres"
    case RoleInvalid => "El rol debe ser 'admin' o 'alumno'"
  }

  // ---------------------------------------------------------------------
  // The checks, each failing with at most one message
  // ---------------------------------------------------------------------

  /** `if (!value.trim())`: the trimmed text is empty exactly when the text
      is all white space. */
  function Required(value: string, e: UserError): (r: Option<UserError>)
    ensures r.None? <==> !IsBlank(value)
    ensures r.Some? ==> r.value == e
  {
    if IsBlank(value) then Some(e) else None
  }

  /** The DNI chain: required, then ^\d+$ on the trimmed text, then a
      trimmed length of 7 to 9. */
  function DniCheck(dni: string): (r: Option<UserError>)
    ensures r.None? <==> IsNumeric(Trim(dni)) && 7 <= |Trim(dni)| <= 9
    ensures IsBlank(dni) ==> r == Some(DniRequired)
    ensures !IsBlank(dni) && !IsNumeric(Trim(dni)) ==> r == Some(DniNotNumeric)
    ensures IsNumeric(Trim(dni)) && !(7 <= |Trim(dni)| <= 9) ==> r == Some(DniLength)
  {
    var t := Trim(dni);
    if t == "" then Some(DniRequired)
    else if !IsNumeric(t) then Some(DniNotNumeric)
    else if |t| < 7 || |t| > 9 then Some(DniLength)
    else None
  }

  /** The e-mail chain: required after trim, then the whole untrimmed text
      must match ^\S+@\S+\.\S+$. */
  function EmailCheck(email: string): (r: Option<UserError>)
    ensures r.None? <==> MatchesEmail(email)
    ensures IsBlank(email) ==> r == Some(EmailRequired)
    ensures !IsBlank(email) && !MatchesEmail(email) ==> r == Some(EmailFormat)
  {
    if IsBlank(email) then Some(EmailRequired)
    else if !MatchesEmail(email) then Some(EmailFormat)
    else None
  }

  /** The password chain (create form only): required after trim, then at
      least 6 characters counted on the untrimmed text. */
  function PasswordCheck(password: string): (r: Option<UserError>)
    ensures r.None? <==> !IsBlank(password) && |password| >= 6
    ensures IsBlank(password) ==> r == Some(PasswordRequired)
    ensures !IsBlank(password) && |password| < 6 ==> r == Some(PasswordShort)
  {
    if IsBlank(password) then Some(PasswordRequired)
    else if |password| < 6 then Some(PasswordShort)
    else None
  }

  function RoleCheck(userType: string): (r: Option<UserError>)
    ensures r.None? <==> userType == AdminRole || userType == AlumnoRole
    ensures r.Some? ==> r.value == RoleInvalid
  {
    if userType == AdminRole || userType == AlumnoRole then None else Some(RoleInvalid)
  }

  // ---------------------------------------------------------------------
  // What the forms accept, stated independently of the message chains
  // ---------------------------------------------------------------------

  predicate FieldsAcceptable(f: UserFields) {
    && !IsBlank(f.username) && !IsBlank(f.firstName) && !IsBlank(f.lastName)
    && AllDigits(Trim(f.dni)) && 7 <= |Trim(f.dni)| <= 9
    && MatchesEmail(f.email)
    && (f.userType == AdminRole || f.userType == AlumnoRole)
  }

  predicate PasswordAcceptable(password: string) {
    !IsBlank(password) && |password| >= 6
  }

  /** The edit form's checks in the order validate() runs them. */
  function EditChecks(f: UserFields): seq<Option<UserError>> {
    [ Required(f.username, UsernameRequired),
      Required(f.firstName, FirstNameRequired),
      Required(f.lastName, LastNameRequired),
      DniCheck(f.dni),
      EmailCheck(f.email),
      RoleCheck(f.userType) ]
  }

  /** The create form's checks: the edit form's, with the password chain
      between the e-mail and the role. */
  function CreateChecks(f: UserFields, password: string): seq<Option<UserError>> {
    EditChecks(f)[..5] + [PasswordCheck(password)] + EditChecks(f)[5..]
  }

  /** validate() of the edit form: the messages in check order. Nothing is
      reported exactly for acceptable fields, and at most one message per
      field. */
  function ValidateUserEdit(f: UserFields): (r: seq<UserError>)
    ensures r == [] <==> FieldsAcceptable(f)
    ensures |r| <= 6
  {
    EditChecksAccept(f);
    Failed(EditChecks(f))
  }

  /** validate() of the create form. Nothing is reported exactly for
      acceptable fields and an acceptable password, and at most one message
      per field. */
  function ValidateUserCreate(f: UserFields, password: string): (r: seq<UserError>)
    ensures r == [] <==> FieldsAcceptable(f) && PasswordAcceptable(password)
    ensures |r| <= 7
  {
    CreateChecksAccept(f, password);
    Failed(CreateChecks(f, password))
  }

  lemma EditChecksAccept(f: UserFields)
    ensures Failed(EditChecks(f)) == [] <==> FieldsAcceptable(f)
  {
    var c := EditChecks(f);
    FailedEmpty(c);
    AllPassSix(c);
    assert c[3].None? <==> AllDigits(Trim(f.dni)) && 7 <= |Trim(f.dni)| <= 9;
  }

  lemma CreateChecksAccept(f: UserFields, password: string)
    ensures Failed(CreateChecks(f, password)) == [] <==> FieldsAcceptable(f) && PasswordAcceptable(password)
  {
    var edit := EditChecks(f);
    var pass := [PasswordCheck(password)];
    FailedInsert(edit, 5, PasswordCheck(password));
    FailedSplit(edit, 5);
    EditChecksAccept(f);
    assert pass[1..] == [];
    assert Failed(pass) == [] <==> PasswordAcceptable(password);
  }

  /** With an acceptable password the two forms report the same messages. */
  lemma CreateMatchesEditWithGoodPassword(f: UserFields, password: string)
    requires PasswordAcceptable(password)
    ensures ValidateUserCreate(f, password) == ValidateUserEdit(f)
  {
    var edit, pass := EditChecks(f), [PasswordCheck(password)];
    FailedInsert(edit, 5, pass[0]);
    FailedSplit(edit, 5);
    assert pass[1..] == [] && pass[0].None?;
    var before := Failed(edit[..5]);
    assert Failed(pass) == [];
    assert before + [] == before;
  }

  /** The checks run in field order: a blank username is always the first
      message, whatever else is wrong. */
  lemma CreateReportsUsernameFirst(f: UserFields, password: string)
    requires IsBlank(f.username)
    ensures ValidateUserCreate(f, password) != []
    ensures ValidateUserCreate(f, password)[0] == UsernameRequired
  {
    var checks := CreateChecks(f, password);
    assert checks[0] == Some(UsernameRequired);
  }

  /** Body of POST /users: the texts as typed, untrimmed. */
  datatype CreateUserBody = CreateUserBody(fields: UserFields, password: string)

  class UserCreateForm {
    var fields: UserFields
    var password: string
    var errors: seq<string>

    constructor ()
      ensures fields == UserFields("", "", "", "", "", AlumnoRole) && password == "" && errors == []
    {
      fields := UserFields("", "", "", "", "", AlumnoRole);
      password := "";
      errors := [];
    }

    /** handleSubmit: validation replaces the messages; only an empty list
        posts. A refused or failed post leaves a single message; an
        accepted one navigates to the student list. */
    method Submit(reply: Reply) returns (sent: Option<CreateUserBody>, navigate: Option<string>, alert: Option<string>)
      modifies this`errors
      ensures sent.Some? <==> ValidateUserCreate(fields, password) == []
      ensures sent.None? ==> errors == Shown(ValidateUserCreate(fields, password), Text) && navigate.None?
      ensures sent.Some? ==> sent.value == CreateUserBody(fields, password)
      ensures sent.Some? ==> errors == PostErrors(reply, "No se pudo crear el usuario", "Error creando usuario")
      ensures sent.Some? ==> (navigate.Some? <==> reply.Accepted?)
      ensures navigate.Some? ==> navigate.value == "/admin/users"
      ensures alert == (if navigate.Some? then Some("Usuario creado correctamente") else None)
    {
      var failed := ValidateUserCreate(fields, password);
      errors := Shown(failed, Text);
      navigate, alert := None, None;
      if failed != [] {
        return None, None, None;
      }
      sent := Some(CreateUserBody(fields, password));
      errors := PostErrors(reply, "No se pudo crear el usuario", "Error creando usuario");
      if reply.Accepted? {
        navigate, alert := Some("/admin/users"), Some("Usuario creado correctamente");
      }
    }
  }

  /** The record GET /users/{id} returns; absent fields are None. */
  datatype LoadedUser = LoadedUser(
    username: string, firstName: Option<string>, lastName: Option<string>,
    dni: Option<string>, email: Option<string>, userType: Option<string>)

  /** The form fields filled from a loaded record: absent texts become "",
      an absent or empty type becomes "alumno". */
  function FieldsFromLoaded(u: LoadedUser): (r: UserFields)
    ensures r.username == u.username
    ensures r.firstName == OrEmpty(u.firstName) && r.lastName == OrEmpty(u.lastName)
    ensures r.dni == OrEmpty(u.dni) && r.email == OrEmpty(u.email)
    ensures OrEmpty(u.userType) == "" ==> r.userType == AlumnoRole
    ensures OrEmpty(u.userType) != "" ==> r.userType == u.userType.value
  {
    UserFields(u.username, OrEmpty(u.firstName), OrEmpty(u.lastName), OrEmpty(u.dni), OrEmpty(u.email),
      if OrEmpty(u.userType) == "" then AlumnoRole else u.userType.value)
  }

  /** A loaded record passes the role check exactly when its type is
      missing, empty, "admin" or "alumno". */
  lemma LoadedRoleAccepted(u: LoadedUser)
    ensures RoleCheck(FieldsFromLoaded(u).userType).None? <==>
      OrEmpty(u.userType) in {"", AdminRole, AlumnoRole}
  {
  }

  class UserEditForm {
    const idParam: Option<string>
    var loaded: bool
    var loading: bool
    var fields: UserFields
    var errors: seq<string>

    constructor (idParam: Option<string>)
      ensures this.idParam == idParam && !loaded && loading && errors == []
      ensures fields == UserFields("", "", "", "", "", AlumnoRole)
    {
      this.idParam := idParam;
      loaded, loading := false, true;
      fields := UserFields("", "", "", "", "", AlumnoRole);
      errors := [];
    }

    /** loadUser, which runs only with an id: an OK reply fills the fields,
        and every reply ends the loading state. Without an id nothing runs
        and the page stays on its loading text. */
    method ApplyLoaded(record: Option<LoadedUser>)
      modifies this
      ensures !Present(idParam) ==> loaded == old(loaded) && loading == old(loading) && fields == old(fields)
      ensures Present(idParam) ==> !loading
      ensures Present(idParam) && record.Some? ==> loaded && fields == FieldsFromLoaded(record.value)
      ensures Present(idParam) && record.None? ==> loaded == old(loaded) && fields == old(fields)
      ensures errors == old(errors)
    {
      if !Present(idParam) {
        return;
      }
      if record.Some? {
        loaded := true;
        fields := FieldsFromLoaded(record.value);
      }
      loading := false;
    }

    /** validate(): replaces the messages and reports whether there are
        none. */
    method Validate() returns (ok: bool)
      modifies this`errors
      ensures errors == Shown(ValidateUserEdit(fields), Text) && (ok <==> errors == [])
    {
      errors := Shown(ValidateUserEdit(fields), Text);
      ok := errors == [];
    }

    /** handleSubmit, reachable only once the form is rendered (loading
        over and a user loaded): nothing at all without an id; otherwise as
        in the create form, posting the fields to PUT /users/{id}. */
    method Submit(reply: Reply) returns (sent: Option<UserFields>, navigate: Option<string>, alert: Option<string>)
      requires !loading && loaded
      modifies this`errors
      ensures !Present(idParam) ==> sent.None? && navigate.None? && errors == old(errors)
      ensures sent.Some? <==> Present(idParam) && ValidateUserEdit(fields) == []
      ensures Present(idParam) && sent.None? ==> errors == Shown(ValidateUserEdit(fields), Text) && navigate.None?
      ensures sent.Some? ==> sent.value == fields
      ensures sent.Some? ==> errors == PostErrors(reply, "No se pudo actualizar el usuario", "Error actualizando el usuario")
      ensures sent.Some? ==> (navigate.Some? <==> reply.Accepted?)
      ensures navigate.Some? ==> navigate.value == "/admin/users"
      ensures alert == (if navigate.Some? then Some("Usuario actualizado correctamente") else None)
    {
      sent, navigate, alert := None, None, None;
      if !Present(idParam) {
        return;
      }
      var ok := Validate();
      if !ok {
        return;
      }
      sent := Some(fields);
      errors := PostErrors(reply, "No se pudo actualizar el usuario", "Error actualizando el usuario");
      if reply.Accepted? {
        navigate, alert := Some("/admin/users"), Some("Usuario actualizado correctamente");
      }
    }
  }
}
