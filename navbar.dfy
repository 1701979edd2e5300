/** The side navigation bar: who is logged in (role, name, initials) as
    read from the browser store on every render, the menu for that role,
    and the logout and profile actions. */
module Navbar {
  import opened JsText
  import opened Storage
  import opened Routes

  datatype Role = Admin | Alumno

  /** `t === "admin" || t === "alumno"` read as a role. */
  function RoleOf(t: Option<string>): (r: Option<Role>)
    ensures r == Some(Admin) <==> t == Some("admin")
    ensures r == Some(Alumno) <==> t == Some("alumno")
  {
    if t == Some("admin") then Some(Admin)
    else if t == Some("alumno") then Some(Alumno)
    else None
  }

  /** The `type` of the stored user record, when the record parses. */
  function StoredUserType(store: Store): Option<string> {
    match ParseStoredUser(store)
    case None => None
    case Some(u) => u.userType
  }

  /** The role: a valid "user_type" key wins; otherwise a valid `type` in
      the stored record; otherwise "alumno" (also for malformed text, which
      is caught). */
  function ResolveRole(store: Store): (r: Role)
    ensures RoleOf(GetItem(store, UserTypeKey)).Some? ==> r == RoleOf(GetItem(store, UserTypeKey)).value
    ensures RoleOf(GetItem(store, UserTypeKey)).None? && RoleOf(StoredUserType(store)).Some? ==>
      r == RoleOf(StoredUserType(store)).value
    ensures RoleOf(GetItem(store, UserTypeKey)).None? && RoleOf(StoredUserType(store)).None? ==> r == Alumno
  {
    match RoleOf(GetItem(store, UserTypeKey))
    case Some(role) => role
    case None =>
      match RoleOf(StoredUserType(store))
      case Some(role) => role
      case None => Alumno
  }

  /** Least privilege: the admin menu needs an explicit "admin", either in
      the "user_type" key or, when that key holds no valid role, in the
      stored record. */
  lemma AdminNeedsExplicitClaim(store: Store)
    ensures ResolveRole(store) == Admin <==>
      GetItem(store, UserTypeKey) == Some("admin")
      || (RoleOf(GetItem(store, UserTypeKey)).None? && StoredUserType(store) == Some("admin"))
  {
  }

  /** The role depends only on the "user_type" and "user" keys. */
  lemma ResolveRoleReadsTwoKeys(a: Store, b: Store)
    requires GetItem(a, UserTypeKey) == GetItem(b, UserTypeKey)
    requires GetItem(a, UserKey) == GetItem(b, UserKey)
    ensures ResolveRole(a) == ResolveRole(b)
  {
    assert ParseStoredUser(a) == ParseStoredUser(b);
  }

  /** `isAdmin ? "/admin" : "/alumno"` */
  function BasePath(role: Role): (r: string)
    ensures r == "/admin" <==> role.Admin?
    ensures r == "/alumno" <==> role.Alumno?
  {
    if role.Admin? then "/admin" else "/alumno"
  }

  /** The name shown: first and last name, else the username, else
      "Usuario" (also when there is no parsable record). */
  function UserName(store: Store): (r: string)
    ensures r != ""
    ensures ParseStoredUser(store).None? ==> r == "Usuario"
    ensures ParseStoredUser(store).Some? ==>
      var u := ParseStoredUser(store).value;
      var shown := DisplayName(OrEmpty(u.firstName), OrEmpty(u.lastName), OrEmpty(u.username));
      (shown != "" ==> r == shown) && (shown == "" ==> r == "Usuario")
  {
    match ParseStoredUser(store)
    case None => "Usuario"
    case Some(u) =>
      var shown := DisplayName(OrEmpty(u.firstName), OrEmpty(u.lastName), OrEmpty(u.username));
      if shown != "" then shown else "Usuario"
  }

  /** The avatar initials: at most two, upper-cased word starts of the name. */
  function UserInitials(store: Store): (r: string)
    ensures |r| <= 2
    ensures r == ToUpper(Take(WordStarts(UserName(store), true), 2))
  {
    InitialsAreWordStarts(UserName(store));
    Initials(UserName(store))
  }

  /** Without a parsable record the avatar reads "U", the only word start
      of "Usuario". */
  lemma DefaultInitials(store: Store)
    requires ParseStoredUser(store).None?
    ensures UserInitials(store) == "U"
  {
    assert UserName(store) == "Usuario";
    var w := WordStarts("Usuario", true);
    assert w == ['U'] + WordStarts("suario", false);
    assert WordStarts("suario", false) == "" by {
      assert forall k :: 0 <= k <= |"suario"| ==> WordStarts("suario"[k..], false) == "" by {
        forall k | 0 <= k <= |"suario"| ensures WordStarts("suario"[k..], false) == "" {
          NoSpaceNoWordStart("suario"[k..]);
        }
      }
      assert "suario"[0..] == "suario";
    }
    assert Take(w, 2) == "U";
    assert ToUpper("U") == [UpperChar('U')] + ToUpper("");
  }

  /** Inside a word that has no space, no further word starts. */
  lemma {:induction false} NoSpaceNoWordStart(s: string)
    requires forall i :: 0 <= i < |s| ==> s[i] != ' '
    ensures WordStarts(s, false) == ""
  {
    if s != [] {
      NoSpaceNoWordStart(s[1..]);
    }
  }

  datatype MenuItem = MenuItem(to: string, caption: string)

  /** The menu of the role; its first entry is the home page of the role. */
  function Menu(role: Role): (r: seq<MenuItem>)
    ensures r != [] && r[0] == MenuItem(BasePath(role), "Inicio")
    ensures role == Admin ==> |r| == 5
    ensures role == Alumno ==> |r| == 4
    ensures forall i :: 0 <= i < |r| ==> StartsWith(r[i].to, BasePath(role))
  {
    var base := BasePath(role);
    if role == Admin then
      [ MenuItem(base, "Inicio"),
        MenuItem("/admin/careers", "Carreras"),
        MenuItem("/admin/payments", "Pagos"),
        MenuItem("/admin/news", "Noticias"),
        MenuItem("/admin/users", "Usuarios") ]
    else
      [ MenuItem(base, "Inicio"),
        MenuItem("/alumno/careers", "Mis carreras"),
        MenuItem("/alumno/payments", "Mis pagos"),
        MenuItem("/alumno/news", "Noticias") ]
  }

  /** An alumno session never sees an administration entry. */
  lemma AlumnoMenuHasNoAdminEntry(store: Store)
    requires ResolveRole(store) == Alumno
    ensures forall i :: 0 <= i < |Menu(ResolveRole(store))| ==> !StartsWith(Menu(ResolveRole(store))[i].to, "/admin")
  {
    var m := Menu(Alumno);
    forall i | 0 <= i < |m| ensures !StartsWith(m[i].to, "/admin") {
      assert StartsWith(m[i].to, "/alumno");
      assert m[i].to[1] == 'a' && m[i].to[2] == 'l';
    }
  }

  /** handleGoToProfile */
  function ProfilePath(role: Role): (r: string)
    ensures r == BasePath(role) + "/profile"
  {
    if role == Admin then "/admin/profile" else "/alumno/profile"
  }

  /** handleLogout: removes the four session keys, one after the other,
      and goes to the login page. */
  method Logout(storage: LocalStorage) returns (navigate: string)
    modifies storage
    ensures storage.entries == old(storage.entries) - SessionKeys
    ensures navigate == "/login"
  {
    storage.RemoveItem(TokenKey);
    storage.RemoveItem(UserKey);
    storage.RemoveItem(UserIdKey);
    storage.RemoveItem(UserTypeKey);
    navigate := "/login";
  }

  /** After a logout the session is gone: the protected pages redirect to
      the login, the bar shows a default alumno, and a second logout
      changes nothing. */
  lemma AfterLogout(store: Store)
    ensures ProtectedRoute(store - SessionKeys) == Redirect("/login")
    ensures PublicRoute(store - SessionKeys) == Outlet
    ensures ResolveRole(store - SessionKeys) == Alumno
    ensures UserName(store - SessionKeys) == "Usuario"
    ensures (store - SessionKeys) - SessionKeys == store - SessionKeys
  {
    var s := store - SessionKeys;
    assert TokenKey !in s && UserKey !in s && UserTypeKey !in s;
  }
}
