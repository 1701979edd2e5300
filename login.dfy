/** The login form: reading the server's reply, which may put the token and
    the user under several names, and opening the session in the browser
    store. */
module Login {
  import opened JsText
  import opened Storage
  import opened Routes
  import opened Navbar

  /** A user slot that holds something: a user object, or a falsy scalar
      ("", 0, false) that `??` still selects. */
  datatype UserValue = FalsyValue | UserObject(user: UserRecord)

  /** The parsed reply body; an absent or null field is None. */
  datatype LoginBody = LoginBody(
    success: Option<bool>, message: string,
    dataToken: Option<string>, dataAccessToken: Option<string>,
    token: Option<string>, accessToken: Option<string>,
    dataUsuario: Option<UserValue>, dataUser: Option<UserValue>,
    usuario: Option<UserValue>, user: Option<UserValue>)

  /** How the request ended: no response, a body that is not JSON, or a
      JSON body with the response's status. */
  datatype LoginReply = NetworkError | NotJson | Json(ok: bool, status: int, body: LoginBody)

  /** `a ?? b ?? ...`: the first value that is neither null nor undefined. */
  function FirstDefined<T>(xs: seq<Option<T>>): (r: Option<T>)
    ensures r.None? <==> forall i :: 0 <= i < |xs| ==> xs[i].None?
    ensures r.Some? ==> exists i :: 0 <= i < |xs| && xs[i] == r && forall j :: 0 <= j < i ==> xs[j].None?
  {
    if xs == [] then None
    else if xs[0].Some? then xs[0]
    else
      var r := FirstDefined(xs[1..]);
      assert forall i :: 0 < i < |xs| ==> xs[i] == xs[1..][i - 1];
      r
  }

  lemma FirstDefinedCons<T>(x: Option<T>, xs: seq<Option<T>>)
    ensures FirstDefined([x] + xs) == if x.Some? then x else FirstDefined(xs)
  {
    assert ([x] + xs)[1..] == xs;
  }

  /** A chain of four `??`: the first present value, else the last slot. */
  lemma FirstOfFour<T>(a: Option<T>, b: Option<T>, c: Option<T>, d: Option<T>)
    ensures FirstDefined([a, b, c, d]) ==
      if a.Some? then a else if b.Some? then b else if c.Some? then c else d
  {
    FirstDefinedCons(d, []);
    assert [d] + [] == [d];
    FirstDefinedCons(c, [d]);
    FirstDefinedCons(b, [c, d]);
    FirstDefinedCons(a, [b, c, d]);
    assert [c] + [d] == [c, d] && [b] + [c, d] == [b, c, d] && [a] + [b, c, d] == [a, b, c, d];
  }

  /** `data.token ?? data.access_token ?? token ?? access_token`: the
      first slot that holds a value, even an empty one. */
  function PickToken(b: LoginBody): (r: Option<string>)
    ensures r.None? <==> b.dataToken.None? && b.dataAccessToken.None? && b.token.None? && b.accessToken.None?
    ensures b.dataToken.Some? ==> r == b.dataToken
    ensures b.dataToken.None? && b.dataAccessToken.Some? ==> r == b.dataAccessToken
    ensures b.dataToken.None? && b.dataAccessToken.None? && b.token.Some? ==> r == b.token
    ensures b.dataToken.None? && b.dataAccessToken.None? && b.token.None? ==> r == b.accessToken
  {
    FirstOfFour(b.dataToken, b.dataAccessToken, b.token, b.accessToken);
    FirstDefined([b.dataToken, b.dataAccessToken, b.token, b.accessToken])
  }

  /** `data.usuario ?? data.user ?? usuario ?? user`, the same way. */
  function PickUser(b: LoginBody): (r: Option<UserValue>)
    ensures r.None? <==> b.dataUsuario.None? && b.dataUser.None? && b.usuario.None? && b.user.None?
    ensures b.dataUsuario.Some? ==> r == b.dataUsuario
    ensures b.dataUsuario.None? && b.dataUser.Some? ==> r == b.dataUser
    ensures b.dataUsuario.None? && b.dataUser.None? && b.usuario.Some? ==> r == b.usuario
    ensures b.dataUsuario.None? && b.dataUser.None? && b.usuario.None? ==> r == b.user
  {
    FirstOfFour(b.dataUsuario, b.dataUser, b.usuario, b.user);
    FirstDefined([b.dataUsuario, b.dataUser, b.usuario, b.user])
  }

  /** An empty token under `data` hides a real one at the top level: `??`
      stops at the empty string, which then fails the truthiness check. */
  lemma EmptyTokenShadows(b: LoginBody)
    requires b.dataToken == Some("")
    ensures PickToken(b) == Some("")
  {
    var xs := [b.dataToken, b.dataAccessToken, b.token, b.accessToken];
    assert xs[0] == Some("");
  }

  datatype LoginResult = Rejected(error: string) | Accepted(token: string, user: UserRecord, userType: string)

  /** The session a reply opens, or the error it shows, in the order the
      form checks them. */
  function Outcome(reply: LoginReply): (r: LoginResult)
    ensures r.Accepted? <==>
      && reply.Json? && reply.ok && reply.body.success != Some(false)
      && Present(PickToken(reply.body))
      && PickUser(reply.body).Some? && PickUser(reply.body).value.UserObject?
      && Present(PickUser(reply.body).value.user.userType)
    ensures r.Accepted? ==>
      && Some(r.token) == PickToken(reply.body) && r.token != ""
      && Some(UserObject(r.user)) == PickUser(reply.body)
      && r.user.userType == Some(r.userType) && r.userType != ""
    ensures reply.Json? && !reply.ok ==>
      r == Rejected(if reply.body.message != "" then reply.body.message else "Error HTTP " + IntToString(reply.status))
  {
    match reply
    case NetworkError => Rejected("Error conectando con el servidor")
    case NotJson => Rejected("Respuesta inválida del servidor")
    case Json(ok, status, body) =>
      if !ok then
        Rejected(if body.message != "" then body.message else "Error HTTP " + IntToString(status))
      else if body.success == Some(false) then
        Rejected(if body.message != "" then body.message else "Credenciales incorrectas")
      else
        var token := PickToken(body);
        var usuario := PickUser(body);
        if !Present(token) || usuario.None? || usuario.value.FalsyValue? then
          Rejected("Respuesta inválida del servidor (falta token o usuario)")
        else if !Present(usuario.value.user.userType) then
          Rejected("Respuesta inválida: el usuario no tiene rol (type)")
        else
          Accepted(token.value, usuario.value.user, usuario.value.user.userType.value)
  }

  /** `String(usuario.id)`: an absent id is written as "undefined". */
  function UserIdText(id: Option<int>): (r: string)
    ensures id.None? ==> r == "undefined"
    ensures id.Some? ==> ParseInt(r) == Num(id.value)
  {
    if id.Some? then
      ParseIntRoundTrip(id.value);
      IntToString(id.value)
    else "undefined"
  }

  /** The store after the four writes of an accepted login. */
  function SessionStore(store: Store, token: string, user: UserRecord, userType: string): (r: Store)
    ensures r.Keys == store.Keys + SessionKeys
    ensures forall k :: k in store && k !in SessionKeys ==> r[k] == store[k]
  {
    store[TokenKey := token][UserKey := Encode(user)][UserIdKey := UserIdText(user.id)][UserTypeKey := userType]
  }

  /** The page an accepted login opens. */
  function LoginTarget(userType: string): (r: string)
    ensures r == "/admin" <==> userType == "admin"
  {
    if userType == "admin" then "/admin"
    else
      assert |"/alumno"| != |"/admin"|;
      "/alumno"
  }

  class LoginView {
    var error: Option<string>
    var loading: bool

    constructor ()
      ensures error.None? && !loading
    {
      error := None;
      loading := false;
    }

    /** handleSubmit: a rejected reply shows its error and stores nothing;
        an accepted one writes the four keys, in order, and navigates by
        role. The spinner is off at the end either way. */
    method Submit(storage: LocalStorage, reply: LoginReply) returns (navigate: Option<string>)
      modifies this, storage
      ensures !loading
      ensures Outcome(reply).Rejected? ==>
        error == Some(Outcome(reply).error) && storage.entries == old(storage.entries) && navigate.None?
      ensures Outcome(reply).Accepted? ==>
        var o := Outcome(reply);
        && error.None?
        && storage.entries == SessionStore(old(storage.entries), o.token, o.user, o.userType)
        && navigate == Some(LoginTarget(o.userType))
    {
      error, loading := None, true;
      navigate := None;
      if reply.NetworkError? {
        error, loading := Some("Error conectando con el servidor"), false;
        return;
      }
      if reply.NotJson? {
        error, loading := Some("Respuesta inválida del servidor"), false;
        return;
      }
      var body := reply.body;
      if !reply.ok {
        error := Some(if body.message != "" then body.message else "Error HTTP " + IntToString(reply.status));
        loading := false;
        return;
      }
      if body.success == Some(false) {
        error := Some(if body.message != "" then body.message else "Credenciales incorrectas");
        loading := false;
        return;
      }
      var token := PickToken(body);
      var usuario := PickUser(body);
      if !Present(token) || usuario.None? || usuario.value.FalsyValue? {
        error, loading := Some("Respuesta inválida del servidor (falta token o usuario)"), false;
        return;
      }
      var user := usuario.value.user;
      if !Present(user.userType) {
        error, loading := Some("Respuesta inválida: el usuario no tiene rol (type)"), false;
        return;
      }
      storage.SetItem(TokenKey, token.value);
      storage.SetItem(UserKey, Encode(user));
      storage.SetItem(UserIdKey, UserIdText(user.id));
      storage.SetItem(UserTypeKey, user.userType.value);
      navigate := Some(LoginTarget(user.userType.value));
      loading := false;
    }
  }

  /** An accepted login opens a session the rest of the application sees:
      the protected pages render, the stored record reads back as the
      user, and the navigation bar's home page is the page the login
      opened, whatever the role text. */
  lemma LoginOpensSession(store: Store, reply: LoginReply)
    requires Outcome(reply).Accepted?
    ensures var o := Outcome(reply);
      var s := SessionStore(store, o.token, o.user, o.userType);
      && ProtectedRoute(s) == Outlet
      && ParseStoredUser(s) == Some(o.user)
      && BasePath(ResolveRole(s)) == LoginTarget(o.userType)
  {
    var o := Outcome(reply);
    var s1 := store[TokenKey := o.token][UserKey := Encode(o.user)];
    ParseStoredUserAfterWrite(store[TokenKey := o.token], o.user);
    var s := SessionStore(store, o.token, o.user, o.userType);
    assert GetItem(s, UserKey) == GetItem(s1, UserKey);
    assert ParseStoredUser(s) == ParseStoredUser(s1);
    assert GetItem(s, TokenKey) == Some(o.token);
    assert GetItem(s, UserTypeKey) == Some(o.userType);
  }

  /** The login page's guard sends every session to /admin: after an
      "alumno" login, the login route redirects to the administration home
      although the login itself opened /alumno. */
  lemma AlumnoSessionRedirectedToAdmin(store: Store, reply: LoginReply)
    requires Outcome(reply).Accepted? && Outcome(reply).userType == "alumno"
    ensures var o := Outcome(reply);
      var s := SessionStore(store, o.token, o.user, o.userType);
      && PublicRoute(s) == Redirect("/admin")
      && LoginTarget(o.userType) == "/alumno"
      && ResolveRole(s) == Alumno
  {
    var o := Outcome(reply);
    var s := SessionStore(store, o.token, o.user, o.userType);
    assert GetItem(s, TokenKey) == Some(o.token);
    assert GetItem(s, UserTypeKey) == Some("alumno");
  }
}
