/** Route guards, navigation targets and the numeric route parameters the
    views read. */
module Routes {
  import opened JsText
  import opened Storage

  /** What a guard renders: the nested routes, or a redirect that replaces
      the current history entry. */
  datatype GuardResult = Outlet | Redirect(to: string)

  /** A navigation a handler performs. */
  datatype Navigation = GoTo(path: string) | GoBack

  /** Has a session: the "token" key is present and not the empty string
      (the guards test the value for truthiness). */
  predicate HasToken(store: Store) {
    Present(GetItem(store, TokenKey))
  }

  /** ProtectedRoute: without a token, redirect to /login; otherwise render
      the protected pages. */
  function ProtectedRoute(store: Store): (r: GuardResult)
    ensures r == Outlet <==> HasToken(store)
    ensures r != Outlet ==> r == Redirect("/login")
  {
    if HasToken(store) then Outlet else Redirect("/login")
  }

  /** PublicRoute: with a token, redirect to /admin whatever the stored
      role; otherwise render the public page (the login form). */
  function PublicRoute(store: Store): (r: GuardResult)
    ensures r == Outlet <==> !HasToken(store)
    ensures r != Outlet ==> r == Redirect("/admin")
  {
    if HasToken(store) then Redirect("/admin") else Outlet
  }

  /** Every store is admitted by exactly one of the two guards. */
  lemma GuardsPartition(store: Store)
    ensures (ProtectedRoute(store) == Outlet) != (PublicRoute(store) == Outlet)
  {
  }

  /** Both guards read the "token" key only: stores that agree on it get
      the same decisions, whatever their role and user keys hold. */
  lemma GuardsReadOnlyToken(a: Store, b: Store)
    requires GetItem(a, TokenKey) == GetItem(b, TokenKey)
    ensures ProtectedRoute(a) == ProtectedRoute(b)
    ensures PublicRoute(a) == PublicRoute(b)
  {
  }

  /** `param ? parseInt(param, 10) : 0` for a route parameter. */
  function RouteId(param: Option<string>): (r: JsNum)
    ensures !Present(param) ==> r == Num(0)
    ensures Present(param) ==> r == ParseInt(param.value)
  {
    if Present(param) then ParseInt(param.value) else Num(0)
  }

  /** A parameter written from a non-zero id reads back as that id. */
  lemma RouteIdOfId(id: int)
    requires id != 0
    ensures RouteId(Some(IntToString(id))) == Num(id)
    ensures Truthy(RouteId(Some(IntToString(id))))
  {
    ParseIntRoundTrip(id);
  }

  /** /admin/users/{uid}/enrollments */
  function UserEnrollmentsPath(uid: int): string {
    "/admin/users/" + IntToString(uid) + "/enrollments"
  }

  /** /admin/users/{uid}/enrollments/{eid}/payments */
  function EnrollmentPaymentsPath(uid: int, eid: int): string {
    UserEnrollmentsPath(uid) + "/" + IntToString(eid) + "/payments"
  }

  /** The payments page of an enrollment lies under the enrollments page of
      its user. */
  lemma PaymentsUnderEnrollments(uid: int, eid: int)
    ensures StartsWith(EnrollmentPaymentsPath(uid, eid), UserEnrollmentsPath(uid))
  {
    assert EnrollmentPaymentsPath(uid, eid)[..|UserEnrollmentsPath(uid)|] == UserEnrollmentsPath(uid);
  }
}
