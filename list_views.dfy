/** The three searchable administration lists: students, careers and
    payments. Each view owns a Paginator (its items, page, hasMore,
    loadingRef and error) plus the search text it sends with every load. */
module UsersList {
  import opened JsText
  import opened Paging

  /** A row of /users/paginated. */
  datatype UserItem = UserItem(
    id: int, username: string, firstName: Option<string>, lastName: Option<string>,
    dni: Option<string>, email: Option<string>, userType: string)

  /** Guarded, clears the error on every load, initial spinner only for a
      reset of page 1. */
  const UsersPolicy := Policy(true, ClearAlways, FirstPageAndReset, "Error al obtener alumnos", false)

  function UserId(u: UserItem): int { u.id }

  class UsersListView {
    const list: Paginator<UserItem>
    var search: string

    ghost predicate Valid()
      reads this, list
    {
      list.Valid() && list.policy == UsersPolicy
    }

    constructor ()
      ensures Valid() && fresh(list) && search == ""
      ensures list.items == [] && list.page == 1 && list.hasMore && !list.inFlight
      ensures list.outstanding == 0
    {
      list := new Paginator(UsersPolicy);
      search := "";
    }

    /** loadUsers up to the fetch: the body it posts, or None when the
        in-flight or the exhaustion guard drops the call. */
    method Load(req: LoadRequest) returns (query: Option<SearchQuery>)
      requires Valid()
      modifies list
      ensures Valid()
      ensures query.Some? <==> MayIssue(UsersPolicy, old(list.inFlight), old(list.hasMore), req)
      ensures query.Some? ==> query.value == SearchQuery(req.page, PageSize, SearchParam(search))
      ensures query.None? ==> unchanged(list)
      ensures query.Some? ==>
        && list.items == old(list.items) && list.page == old(list.page)
        && list.hasMore == old(list.hasMore)
        && list.inFlight && list.error == None && list.outstanding == old(list.outstanding) + 1
    {
      var issued := list.BeginLoad(req);
      query := if issued then Some(SearchQuery(req.page, PageSize, SearchParam(search))) else None;
    }

    /** handleScroll: page+1 is requested only near the bottom, with more
        pages and nothing in flight. */
    method Scroll(g: Scroll) returns (query: Option<SearchQuery>)
      requires Valid()
      modifies list
      ensures Valid()
      ensures query.Some? <==> ScrollFires(g, old(list.hasMore), old(list.inFlight))
      ensures query.Some? ==> query.value == SearchQuery(old(list.page) + 1, PageSize, SearchParam(search))
      ensures query.None? ==> unchanged(list)
      ensures query.Some? ==>
        && list.items == old(list.items) && list.page == old(list.page)
        && list.hasMore == old(list.hasMore)
        && list.inFlight && list.error == None && list.outstanding == old(list.outstanding) + 1
    {
      if ScrollFires(g, list.hasMore, list.inFlight) {
        ScrollPassesGuards(list.policy, g, list.hasMore, list.inFlight, list.page);
        query := Load(LoadRequest(list.page + 1, false));
      } else {
        query := None;
      }
    }

    /** Two scroll events in a row, the second before the first response:
        loadingRef drops the second, so page+1 is requested only once. */
    method ScrollTwice(g1: Scroll, g2: Scroll) returns (first: Option<SearchQuery>, second: Option<SearchQuery>)
      requires Valid()
      modifies list
      ensures Valid()
      ensures first.Some? ==> second.None? && list.outstanding == old(list.outstanding) + 1
      ensures first.Some? ==> list.page == old(list.page) && list.items == old(list.items)
    {
      first := Scroll(g1);
      second := Scroll(g2);
    }

    /** handleSearchSubmit: the cursor goes back to page 1 with more pages,
        then page 1 is reloaded with reset; only a load in flight drops it. */
    method SubmitSearch() returns (query: Option<SearchQuery>)
      requires Valid()
      modifies list
      ensures Valid()
      ensures list.page == 1 && list.hasMore && list.items == old(list.items)
      ensures query.Some? <==> !old(list.inFlight)
      ensures query.Some? ==> query.value == SearchQuery(1, PageSize, SearchParam(search))
      ensures list.inFlight
      ensures query.Some? ==> list.error == None && list.outstanding == old(list.outstanding) + 1
      ensures query.None? ==> list.error == old(list.error) && list.outstanding == old(list.outstanding)
    {
      list.ResetCursor();
      query := Load(LoadRequest(1, true));
    }

    /** handleDelete: after confirmation and an OK reply, exactly the rows
        with that id are removed; otherwise the list is untouched. */
    method Delete(id: int, confirmed: bool, reply: Reply) returns (alert: Option<string>)
      requires Valid()
      modifies list
      ensures Valid()
      ensures confirmed && reply.Accepted? ==> list.items == RemoveId(old(list.items), UserId, id)
      ensures confirmed && reply.Accepted? ==>
        && list.page == old(list.page) && list.hasMore == old(list.hasMore)
        && list.error == old(list.error) && list.inFlight == old(list.inFlight)
        && list.outstanding == old(list.outstanding)
        && list.initialLoading == old(list.initialLoading) && list.loadingMore == old(list.loadingMore)
      ensures !(confirmed && reply.Accepted?) ==> unchanged(list)
      ensures alert.Some? <==> confirmed && !reply.Accepted?
      ensures confirmed && reply.Refused? ==> alert == Some("No se pudo eliminar el alumno")
      ensures confirmed && reply.Threw? ==> alert == Some("Error eliminando el alumno")
    {
      alert := None;
      if !confirmed {
        return;
      }
      match reply
      case Accepted =>
        list.SetItems(RemoveId(list.items, UserId, id));
      case Refused(_) =>
        alert := Some("No se pudo eliminar el alumno");
      case Threw =>
        alert := Some("Error eliminando el alumno");
    }
  }
}

module CareerList {
  import opened JsText
  import opened Paging

  /** A row of /careers/paginated; money amounts are kept as integers. */
  datatype CareerItem = CareerItem(
    id: int, name: string, costoMensual: int, duracionMeses: int, inicioCursado: Option<string>)

  const CareersPolicy := Policy(true, ClearAlways, FirstPageAndReset, "Error al obtener carreras", false)

  function CareerId(c: CareerItem): int { c.id }

  class CareerListView {
    const list: Paginator<CareerItem>
    var search: string

    ghost predicate Valid()
      reads this, list
    {
      list.Valid() && list.policy == CareersPolicy
    }

    constructor ()
      ensures Valid() && fresh(list) && search == ""
      ensures list.items == [] && list.page == 1 && list.hasMore && !list.inFlight
      ensures list.outstanding == 0
    {
      list := new Paginator(CareersPolicy);
      search := "";
    }

    /** loadCareers up to the fetch. */
    method Load(req: LoadRequest) returns (query: Option<SearchQuery>)
      requires Valid()
      modifies list
      ensures Valid()
      ensures query.Some? <==> MayIssue(CareersPolicy, old(list.inFlight), old(list.hasMore), req)
      ensures query.Some? ==> query.value == SearchQuery(req.page, PageSize, SearchParam(search))
      ensures query.None? ==> unchanged(list)
      ensures query.Some? ==>
        && list.items == old(list.items) && list.page == old(list.page)
        && list.hasMore == old(list.hasMore)
        && list.inFlight && list.error == None && list.outstanding == old(list.outstanding) + 1
    {
      var issued := list.BeginLoad(req);
      query := if issued then Some(SearchQuery(req.page, PageSize, SearchParam(search))) else None;
    }

    /** handleScroll */
    method Scroll(g: Scroll) returns (query: Option<SearchQuery>)
      requires Valid()
      modifies list
      ensures Valid()
      ensures query.Some? <==> ScrollFires(g, old(list.hasMore), old(list.inFlight))
      ensures query.Some? ==> query.value == SearchQuery(old(list.page) + 1, PageSize, SearchParam(search))
      ensures query.None? ==> unchanged(list)
      ensures query.Some? ==>
        && list.items == old(list.items) && list.page == old(list.page)
        && list.hasMore == old(list.hasMore)
        && list.inFlight && list.error == None && list.outstanding == old(list.outstanding) + 1
    {
      if ScrollFires(g, list.hasMore, list.inFlight) {
        ScrollPassesGuards(list.policy, g, list.hasMore, list.inFlight, list.page);
        query := Load(LoadRequest(list.page + 1, false));
      } else {
        query := None;
      }
    }

    /** handleSearchSubmit */
    method SubmitSearch() returns (query: Option<SearchQuery>)
      requires Valid()
      modifies list
      ensures Valid()
      ensures list.page == 1 && list.hasMore && list.items == old(list.items)
      ensures query.Some? <==> !old(list.inFlight)
      ensures query.Some? ==> query.value == SearchQuery(1, PageSize, SearchParam(search))
      ensures list.inFlight
      ensures query.Some? ==> list.error == None && list.outstanding == old(list.outstanding) + 1
      ensures query.None? ==> list.error == old(list.error) && list.outstanding == old(list.outstanding)
    {
      list.ResetCursor();
      query := Load(LoadRequest(1, true));
    }

    /** handleDelete */
    method Delete(id: int, confirmed: bool, reply: Reply) returns (alert: Option<string>)
      requires Valid()
      modifies list
      ensures Valid()
      ensures confirmed && reply.Accepted? ==> list.items == RemoveId(old(list.items), CareerId, id)
      ensures confirmed && reply.Accepted? ==>
        && list.page == old(list.page) && list.hasMore == old(list.hasMore)
        && list.error == old(list.error) && list.inFlight == old(list.inFlight)
        && list.outstanding == old(list.outstanding)
        && list.initialLoading == old(list.initialLoading) && list.loadingMore == old(list.loadingMore)
      ensures !(confirmed && reply.Accepted?) ==> unchanged(list)
      ensures alert.Some? <==> confirmed && !reply.Accepted?
      ensures confirmed && reply.Refused? ==> alert == Some("No se pudo eliminar la carrera")
      ensures confirmed && reply.Threw? ==> alert == Some("Error eliminando la carrera")
    {
      alert := None;
      if !confirmed {
        return;
      }
      match reply
      case Accepted =>
        list.SetItems(RemoveId(list.items, CareerId, id));
      case Refused(_) =>
        alert := Some("No se pudo eliminar la carrera");
      case Threw =>
        alert := Some("Error eliminando la carrera");
    }
  }
}

module PaymentList {
  import opened JsText
  import opened Paging

  /** A row of /payments/paginated. */
  datatype PaymentRow = PaymentRow(
    id: int, numeroCuota: int, monto: int, adelantado: bool, anulado: bool,
    enrollmentId: int, userId: int, username: string,
    firstName: Option<string>, lastName: Option<string>, careerId: int, careerName: string)

  const PaymentsPolicy := Policy(true, ClearAlways, FirstPageAndReset, "Error al obtener pagos", false)

  /** formatAlumno: "first last (username)" when a name part is present,
      otherwise the bare username. */
  function FormatAlumno(firstName: Option<string>, lastName: Option<string>, username: string): (r: string)
    ensures OrEmpty(firstName) == "" && OrEmpty(lastName) == "" ==> r == username
    ensures OrEmpty(firstName) != "" || OrEmpty(lastName) != "" ==>
      var names := JoinNames(OrEmpty(firstName), OrEmpty(lastName));
      |names| < |r| && r[..|names|] == names && r[|names|..] == " (" + username + ")"
  {
    var names := JoinNames(OrEmpty(firstName), OrEmpty(lastName));
    if names != "" then
      var suffix := " (" + username + ")";
      assert (names + suffix)[..|names|] == names && (names + suffix)[|names|..] == suffix;
      names + suffix
    else username
  }

  /** formatEstado */
  function FormatEstado(p: PaymentRow): (r: string)
    ensures r == "Anulado" <==> p.anulado
    ensures r == "Activo" <==> !p.anulado
  {
    if p.anulado then "Anulado" else "Activo"
  }

  class PaymentListView {
    const list: Paginator<PaymentRow>
    var search: string

    ghost predicate Valid()
      reads this, list
    {
      list.Valid() && list.policy == PaymentsPolicy
    }

    constructor ()
      ensures Valid() && fresh(list) && search == ""
      ensures list.items == [] && list.page == 1 && list.hasMore && !list.inFlight
      ensures list.outstanding == 0
    {
      list := new Paginator(PaymentsPolicy);
      search := "";
    }

    /** loadPayments up to the fetch. */
    method Load(req: LoadRequest) returns (query: Option<SearchQuery>)
      requires Valid()
      modifies list
      ensures Valid()
      ensures query.Some? <==> MayIssue(PaymentsPolicy, old(list.inFlight), old(list.hasMore), req)
      ensures query.Some? ==> query.value == SearchQuery(req.page, PageSize, SearchParam(search))
      ensures query.None? ==> unchanged(list)
      ensures query.Some? ==>
        && list.items == old(list.items) && list.page == old(list.page)
        && list.hasMore == old(list.hasMore)
        && list.inFlight && list.error == None && list.outstanding == old(list.outstanding) + 1
    {
      var issued := list.BeginLoad(req);
      query := if issued then Some(SearchQuery(req.page, PageSize, SearchParam(search))) else None;
    }

    /** handleScroll */
    method Scroll(g: Scroll) returns (query: Option<SearchQuery>)
      requires Valid()
      modifies list
      ensures Valid()
      ensures query.Some? <==> ScrollFires(g, old(list.hasMore), old(list.inFlight))
      ensures query.Some? ==> query.value == SearchQuery(old(list.page) + 1, PageSize, SearchParam(search))
      ensures query.None? ==> unchanged(list)
      ensures query.Some? ==>
        && list.items == old(list.items) && list.page == old(list.page)
        && list.hasMore == old(list.hasMore)
        && list.inFlight && list.error == None && list.outstanding == old(list.outstanding) + 1
    {
      if ScrollFires(g, list.hasMore, list.inFlight) {
        ScrollPassesGuards(list.policy, g, list.hasMore, list.inFlight, list.page);
        query := Load(LoadRequest(list.page + 1, false));
      } else {
        query := None;
      }
    }

    /** handleSearchSubmit */
    method SubmitSearch() returns (query: Option<SearchQuery>)
      requires Valid()
      modifies list
      ensures Valid()
      ensures list.page == 1 && list.hasMore && list.items == old(list.items)
      ensures query.Some? <==> !old(list.inFlight)
      ensures query.Some? ==> query.value == SearchQuery(1, PageSize, SearchParam(search))
      ensures list.inFlight
      ensures query.Some? ==> list.error == None && list.outstanding == old(list.outstanding) + 1
      ensures query.None? ==> list.error == old(list.error) && list.outstanding == old(list.outstanding)
    {
      list.ResetCursor();
      query := Load(LoadRequest(1, true));
    }
  }
}
