/** The two price-history pages of a career: the infinite-scroll history
    (guarded, keeps the career name from the first response) and the
    "Cargar más" page (no in-flight flag; the button is the only gate). */
module PricesHistory {
  import opened JsText
  import opened Paging
  import opened Routes

  /** A price change of a career; amounts are kept as integers. */
  datatype PriceItem = PriceItem(id: int, monto: int, fechaDesde: Option<string>, createdAt: Option<string>)

  /** Body of POST /careers/prices/paginated. */
  datatype PricesQuery = PricesQuery(careerId: int, page: int, pageSize: int)

  const HistoryPolicy := Policy(true, ClearAlways, FirstPageAndReset, "Error al obtener historial de precios", true)

  class PricesHistoryView {
    const list: Paginator<PriceItem>
    var careerIdNum: JsNum

    ghost predicate Valid()
      reads this, list
    {
      list.Valid() && list.policy == HistoryPolicy
    }

    constructor (idParam: Option<string>)
      ensures Valid() && fresh(list) && careerIdNum == RouteId(idParam)
      ensures list.items == [] && list.page == 1 && list.hasMore && !list.inFlight
      ensures list.title == "" && list.outstanding == 0
    {
      list := new Paginator(HistoryPolicy);
      careerIdNum := RouteId(idParam);
    }

    /** loadPrices up to the fetch: nothing for a career id of 0 or NaN,
        then the in-flight and exhaustion guards; an issued load clears the
        error. */
    method Load(req: LoadRequest) returns (query: Option<PricesQuery>)
      requires Valid()
      modifies list
      ensures Valid()
      ensures query.Some? <==>
        Truthy(careerIdNum) && MayIssue(HistoryPolicy, old(list.inFlight), old(list.hasMore), req)
      ensures query.Some? ==> query.value == PricesQuery(careerIdNum.n, req.page, PageSize)
      ensures query.None? ==> unchanged(list)
      ensures query.Some? ==>
        && list.items == old(list.items) && list.page == old(list.page)
        && list.hasMore == old(list.hasMore) && list.title == old(list.title)
        && list.inFlight && list.error == None && list.outstanding == old(list.outstanding) + 1
    {
      if !Truthy(careerIdNum) {
        return None;
      }
      var issued := list.BeginLoad(req);
      query := if issued then Some(PricesQuery(careerIdNum.n, req.page, PageSize)) else None;
    }

    /** handleScroll */
    method Scroll(g: Scroll) returns (query: Option<PricesQuery>)
      requires Valid()
      modifies list
      ensures Valid()
      ensures query.Some? <==> Truthy(careerIdNum) && ScrollFires(g, old(list.hasMore), old(list.inFlight))
      ensures query.Some? ==> query.value == PricesQuery(careerIdNum.n, old(list.page) + 1, PageSize)
      ensures query.None? ==> unchanged(list)
      ensures query.Some? ==>
        && list.items == old(list.items) && list.page == old(list.page)
        && list.hasMore == old(list.hasMore) && list.title == old(list.title)
        && list.inFlight && list.error == None && list.outstanding == old(list.outstanding) + 1
    {
      if ScrollFires(g, list.hasMore, list.inFlight) {
        ScrollPassesGuards(list.policy, g, list.hasMore, list.inFlight, list.page);
        query := Load(LoadRequest(list.page + 1, false));
      } else {
        query := None;
      }
    }

    /** The effect on the `id` parameter: take the new id, reset the cursor
        and reload page 1 with reset. The items and the career name stay
        until a response replaces them. */
    method ChangeRoute(idParam: Option<string>) returns (query: Option<PricesQuery>)
      requires Valid()
      modifies this, list
      ensures Valid() && careerIdNum == RouteId(idParam)
      ensures list.page == 1 && list.hasMore
      ensures list.items == old(list.items) && list.title == old(list.title)
      ensures query.Some? <==> Truthy(careerIdNum) && !old(list.inFlight)
      ensures query.Some? ==> query.value == PricesQuery(careerIdNum.n, 1, PageSize)
      ensures query.Some? ==> list.inFlight && list.error == None && list.outstanding == old(list.outstanding) + 1
      ensures query.None? ==>
        list.inFlight == old(list.inFlight) && list.error == old(list.error) && list.outstanding == old(list.outstanding)
    {
      careerIdNum := RouteId(idParam);
      list.ResetCursor();
      query := Load(LoadRequest(1, true));
    }
  }

  /** The name after a run of responses carrying these names. */
  function KeptTitle(current: string, offered: seq<string>): string
    decreases |offered|
  {
    if offered == [] then current else KeptTitle(NextTitle(true, current, offered[0]), offered[1..])
  }

  /** Once the name is set, no later response changes it, whatever name it
      carries. */
  lemma {:induction false} KeptTitleStable(current: string, offered: seq<string>)
    requires current != ""
    ensures KeptTitle(current, offered) == current
  {
    if offered != [] {
      KeptTitleStable(current, offered[1..]);
    }
  }
}

module CareerPrices {
  import opened JsText
  import opened Paging
  import opened Routes
  import opened PricesHistory

  /** No in-flight flag; page 1 uses the main spinner and clears the
      error; only page 1 replaces the list. */
  const PricesPolicy := Policy(false, ClearOnFirstPage, FirstPageOrReset, "Error al obtener historial de precios", false)

  /** `hasMore && prices.length > 0`: when the button is offered. */
  predicate LoadMoreOffered(hasMore: bool, prices: seq<PriceItem>) {
    hasMore && |prices| > 0
  }

  class CareerPricesView {
    const list: Paginator<PriceItem>
    var careerId: JsNum

    ghost predicate Valid()
      reads this, list
    {
      list.Valid() && list.policy == PricesPolicy
    }

    constructor (idParam: Option<string>)
      ensures Valid() && fresh(list) && careerId == RouteId(idParam)
      ensures list.items == [] && list.page == 1 && list.hasMore && list.outstanding == 0
    {
      list := new Paginator(PricesPolicy);
      careerId := RouteId(idParam);
    }

    /** loadPrices(pageToLoad) up to the fetch: nothing for a career id of 0
        or NaN, nothing past the last page except page 1. There is no
        in-flight guard, so a load may start while another is outstanding. */
    method Load(pageToLoad: int) returns (query: Option<PricesQuery>)
      requires Valid()
      modifies list
      ensures Valid()
      ensures query.Some? <==> Truthy(careerId) && !Exhausted(old(list.hasMore), LoadRequest(pageToLoad, false))
      ensures query.Some? ==> query.value == PricesQuery(careerId.n, pageToLoad, PageSize)
      ensures query.None? ==> unchanged(list)
      ensures query.Some? ==>
        && list.items == old(list.items) && list.page == old(list.page)
        && list.hasMore == old(list.hasMore) && !list.inFlight
        && list.outstanding == old(list.outstanding) + 1
        && (pageToLoad == 1 ==> list.error == None && list.initialLoading)
        && (pageToLoad != 1 ==> list.error == old(list.error) && list.loadingMore)
    {
      if !Truthy(careerId) {
        return None;
      }
      var issued := list.BeginLoad(LoadRequest(pageToLoad, false));
      query := if issued then Some(PricesQuery(careerId.n, pageToLoad, PageSize)) else None;
    }

    /** The mount effect loads page 1 (the career header is loaded beside
        it). */
    method Mount() returns (query: Option<PricesQuery>)
      requires Valid()
      modifies list
      ensures Valid()
      ensures query.Some? <==> Truthy(careerId)
      ensures query.Some? ==>
        && query.value == PricesQuery(careerId.n, 1, PageSize)
        && list.items == old(list.items) && list.page == old(list.page)
        && list.hasMore == old(list.hasMore)
        && list.error == None && list.initialLoading
        && list.outstanding == old(list.outstanding) + 1
      ensures query.None? ==> unchanged(list)
    {
      query := Load(1);
    }

    /** The same effect when the `id` parameter changes: page 1 of the new
        career is requested even if a load for the old one is still
        outstanding, since nothing guards against it. */
    method ChangeRoute(idParam: Option<string>) returns (query: Option<PricesQuery>)
      requires Valid()
      modifies this, list
      ensures Valid() && careerId == RouteId(idParam)
      ensures query.Some? <==> Truthy(careerId)
      ensures query.Some? ==>
        && query.value == PricesQuery(careerId.n, 1, PageSize)
        && list.items == old(list.items) && list.page == old(list.page)
        && list.hasMore == old(list.hasMore)
        && list.error == None && list.initialLoading
        && list.outstanding == old(list.outstanding) + 1
      ensures query.None? ==> unchanged(list)
    {
      careerId := RouteId(idParam);
      query := Load(1);
    }

    /** A click on "Cargar más": the button exists only when more pages
        exist, the list is non-empty and the page-1 spinner is off, and it
        is disabled while loadingMore; a click that gets through asks for
        page+1 and turns loadingMore on. */
    method ClickLoadMore() returns (query: Option<PricesQuery>)
      requires Valid()
      modifies list
      ensures Valid()
      ensures query.Some? <==>
        Truthy(careerId) && LoadMoreOffered(old(list.hasMore), old(list.items))
        && !old(list.initialLoading) && !old(list.loadingMore)
      ensures query.Some? ==>
        && query.value == PricesQuery(careerId.n, old(list.page) + 1, PageSize)
        && list.items == old(list.items) && list.page == old(list.page)
        && list.hasMore == old(list.hasMore)
        && list.outstanding == old(list.outstanding) + 1
        && (old(list.page) != 0 ==> list.error == old(list.error) && list.loadingMore)
        && (old(list.page) == 0 ==> list.error == None && list.initialLoading)
      ensures query.None? ==> unchanged(list)
    {
      if LoadMoreOffered(list.hasMore, list.items) && !list.initialLoading && !list.loadingMore {
        query := Load(list.page + 1);
      } else {
        query := None;
      }
    }

    /** A click on "Cargar más" followed by the response to the load it
        issued: a delivered later page is appended after the prices already
        shown, and the "load more" spinner goes off. */
    method ClickThenReceive(resp: PageResponse<PriceItem>) returns (query: Option<PricesQuery>)
      requires Valid()
      modifies list
      ensures Valid()
      ensures query.Some? ==> list.outstanding == old(list.outstanding) && !list.loadingMore
      ensures query.Some? && old(list.page) != 0 && Delivered(resp).Some? ==>
        list.items == old(list.items) + Delivered(resp).value.items
      ensures query.Some? && Delivered(resp).None? ==>
        list.items == old(list.items) && list.error == Some(FailureText(resp, PricesPolicy.fallback))
      ensures query.None? ==> unchanged(list)
    {
      var next := list.page + 1;
      query := ClickLoadMore();
      if query.Some? {
        list.Complete(LoadRequest(next, false), resp);
      }
    }

    /** The mount's page-1 load turns the main spinner on, which hides the
        button: a click before its response issues nothing. */
    method MountThenClick() returns (load: Option<PricesQuery>, click: Option<PricesQuery>)
      requires Valid()
      modifies list
      ensures Valid()
      ensures load.Some? ==> click.None? && list.outstanding == old(list.outstanding) + 1
    {
      load := Mount();
      click := ClickLoadMore();
    }
  }
}
