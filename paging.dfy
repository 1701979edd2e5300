/** The infinite-scroll list controller that every list view repeats:
    an accumulated item sequence, the server's page cursor, a "has more"
    flag, a synchronous in-flight flag (the view's loadingRef) and an error
    text. A load is split at its only suspension point, the fetch: BeginLoad
    runs the guards and issues the request, Complete applies the response.
    The per-view differences are the fields of a Policy. */
module Paging {
  import opened JsText

  /** Which loading indicator an issued load turns on. */
  datatype SpinnerRule =
    | FirstPageAndReset  // `pageToLoad === 1 && reset` selects the initial spinner
    | FirstPageOrReset   // `pageToLoad === 1 || reset` selects it

  /** What an issued load does with the previous error text. */
  datatype ErrorReset = ClearAlways | ClearNever | ClearOnFirstPage

  datatype Policy = Policy(
    guarded: bool,          // loads are dropped while loadingRef is set
    errorReset: ErrorReset,
    spinner: SpinnerRule,
    fallback: string,       // error text when a failed body carries no message
    keepsTitle: bool)       // the first non-empty title of a response is kept

  /** loadX(pageToLoad, reset) */
  datatype LoadRequest = LoadRequest(page: int, reset: bool)

  /** `data` of a paginated response: items, page, has_next and, for the
      price history, career_name ("" when absent). */
  datatype PageData<T> = PageData(items: seq<T>, page: int, hasNext: bool, title: string)

  /** What a load can come back with. */
  datatype PageResponse<T> =
    | Thrown(message: string)   // fetch or res.json() rejected with this message
    | HttpError(status: int)    // a status outside 200-299
    | Body(success: bool, message: string, data: Option<PageData<T>>)

  /** The page a response delivers: only a body with a truthy `success` and
      a `data` object. */
  function Delivered<T>(resp: PageResponse<T>): (r: Option<PageData<T>>)
    ensures r.Some? <==> resp.Body? && resp.success && resp.data.Some?
  {
    if resp.Body? && resp.success && resp.data.Some? then resp.data else None
  }

  /** The error text of a failed load: `Error HTTP: <status>`, the thrown
      message, or the body's message with the view's fallback. */
  function FailureText<T>(resp: PageResponse<T>, fallback: string): (r: string)
    requires Delivered(resp).None?
    ensures resp.Thrown? ==> r == resp.message
    ensures resp.HttpError? ==> r == "Error HTTP: " + IntToString(resp.status)
    ensures resp.Body? && resp.message != "" ==> r == resp.message
    ensures resp.Body? && resp.message == "" ==> r == fallback
  {
    match resp
    case Thrown(m) => m
    case HttpError(status) => "Error HTTP: " + IntToString(status)
    case Body(_, m, _) => if m != "" then m else fallback
  }

  /** `!hasMore && !reset && pageToLoad !== 1`: the list is exhausted and
      the request neither restarts it nor asks for page 1. */
  predicate Exhausted(hasMore: bool, req: LoadRequest) {
    !hasMore && !req.reset && req.page != 1
  }

  predicate MayIssue(policy: Policy, inFlight: bool, hasMore: bool, req: LoadRequest) {
    !(policy.guarded && inFlight) && !Exhausted(hasMore, req)
  }

  predicate InitialSpinner(rule: SpinnerRule, req: LoadRequest) {
    match rule
    case FirstPageAndReset => req.page == 1 && req.reset
    case FirstPageOrReset => req.page == 1 || req.reset
  }

  function ErrorAtStart(rule: ErrorReset, req: LoadRequest, error: Option<string>): Option<string> {
    match rule
    case ClearAlways => None
    case ClearNever => error
    case ClearOnFirstPage => if req.page == 1 then None else error
  }

  /** Page 1 or a reset replaces the list; any other page is appended after
      what is already there, in order. */
  function Merged<T>(items: seq<T>, req: LoadRequest, newItems: seq<T>): (r: seq<T>)
    ensures req.page == 1 || req.reset ==> r == newItems
    ensures !(req.page == 1 || req.reset) ==>
      |r| == |items| + |newItems| && r[..|items|] == items && r[|items|..] == newItems
  {
    if req.page == 1 || req.reset then newItems else items + newItems
  }

  /** The title kept after a delivered page: set only while still empty, and
      only to a non-empty value. */
  function NextTitle(keepsTitle: bool, current: string, offered: string): (r: string)
    ensures current != "" || !keepsTitle ==> r == current
    ensures r != current ==> current == "" && r == offered && offered != ""
  {
    if keepsTitle && current == "" && offered != "" then offered else current
  }

  /** Scroll geometry of the list container. */
  datatype Scroll = Scroll(scrollTop: int, clientHeight: int, scrollHeight: int)

  /** `scrollTop + clientHeight >= scrollHeight - 100` */
  predicate NearBottom(g: Scroll) {
    g.scrollTop + g.clientHeight >= g.scrollHeight - 100
  }

  predicate ScrollFires(g: Scroll, hasMore: bool, inFlight: bool) {
    NearBottom(g) && hasMore && !inFlight
  }

  /** A view's fetch budget: every paginated request asks for 20 items. */
  const PageSize := 20

  /** Body of the searchable list requests: `{ page, page_size, search }`. */
  datatype SearchQuery = SearchQuery(page: int, pageSize: int, search: Option<string>)

  /** `search || null`: an empty search is sent as null. */
  function SearchParam(search: string): (r: Option<string>)
    ensures r.None? <==> search == ""
    ensures r.Some? ==> r.value == search
  {
    if search == "" then None else Some(search)
  }

  /** The reply to a delete, cancel or create request: OK, a non-OK status
      (with the body's `detail`, "" when absent), or a rejected fetch. */
  datatype Reply = Accepted | Refused(detail: string) | Threw

  /** The message shown after a non-OK reply: the body's `detail` when it
      has one, else the view's own fallback. */
  function RefusalText(detail: string, fallback: string): (r: string)
    ensures detail != "" ==> r == detail
    ensures detail == "" ==> r == fallback
  {
    if detail != "" then detail else fallback
  }

  /** The messages a form shows after posting: none when accepted, the
      server's detail or the form's fallback when refused, the form's own
      text when the request failed. */
  function PostErrors(reply: Reply, fallback: string, failure: string): (r: seq<string>)
    ensures reply.Accepted? ==> r == []
    ensures reply.Refused? ==> r == [RefusalText(reply.detail, fallback)]
    ensures reply.Threw? ==> r == [failure]
  {
    match reply
    case Accepted => []
    case Refused(detail) => [RefusalText(detail, fallback)]
    case Threw => [failure]
  }

  /** A scroll that fires always passes the load guards. */
  lemma ScrollPassesGuards(policy: Policy, g: Scroll, hasMore: bool, inFlight: bool, page: int)
    requires ScrollFires(g, hasMore, inFlight)
    ensures MayIssue(policy, inFlight, hasMore, LoadRequest(page + 1, false))
  {
  }

  // ---------------------------------------------------------------------
  // In-place list edits
  // ---------------------------------------------------------------------

  /** prev.filter(x => x.id !== id) */
  function RemoveId<T(!new)>(items: seq<T>, idOf: T -> int, id: int): (r: seq<T>)
    ensures |r| <= |items|
    ensures forall x :: x in r <==> x in items && idOf(x) != id
  {
    if items == [] then []
    else (if idOf(items[0]) != id then [items[0]] else []) + RemoveId(items[1..], idOf, id)
  }

  /** Deleting distributes over the pages of a list: the survivors keep their
      relative order. */
  lemma {:induction false} RemoveIdConcat<T(!new)>(a: seq<T>, b: seq<T>, idOf: T -> int, id: int)
    ensures RemoveId(a + b, idOf, id) == RemoveId(a, idOf, id) + RemoveId(b, idOf, id)
  {
    if a == [] {
      assert a + b == b;
    } else {
      var head := if idOf(a[0]) != id then [a[0]] else [];
      assert (a + b)[0] == a[0] && (a + b)[1..] == a[1..] + b;
      RemoveIdConcat(a[1..], b, idOf, id);
      calc {
        RemoveId(a + b, idOf, id);
        head + RemoveId(a[1..] + b, idOf, id);
        head + (RemoveId(a[1..], idOf, id) + RemoveId(b, idOf, id));
        (head + RemoveId(a[1..], idOf, id)) + RemoveId(b, idOf, id);
      }
    }
  }

  /** A list without that id is left exactly as it was. */
  lemma {:induction false} RemoveIdAbsent<T(!new)>(items: seq<T>, idOf: T -> int, id: int)
    requires forall i :: 0 <= i < |items| ==> idOf(items[i]) != id
    ensures RemoveId(items, idOf, id) == items
  {
    if items != [] {
      RemoveIdAbsent(items[1..], idOf, id);
    }
  }

  /** Deleting twice is deleting once. */
  lemma {:induction false} RemoveIdIdempotent<T(!new)>(items: seq<T>, idOf: T -> int, id: int)
    ensures RemoveId(RemoveId(items, idOf, id), idOf, id) == RemoveId(items, idOf, id)
  {
    var r := RemoveId(items, idOf, id);
    forall i | 0 <= i < |r| ensures idOf(r[i]) != id {
      assert r[i] in r;
    }
    RemoveIdAbsent(r, idOf, id);
  }

  // ---------------------------------------------------------------------
  // A run of scroll loads
  // ---------------------------------------------------------------------

  function Flatten<T>(pages: seq<seq<T>>): seq<T> {
    if pages == [] then [] else pages[0] + Flatten(pages[1..])
  }

  function TotalSize<T>(pages: seq<seq<T>>): nat {
    if pages == [] then 0 else |pages[0]| + TotalSize(pages[1..])
  }

  /** The list after successful loads of pages next, next+1, ... delivering
      `pages` in that order. */
  function LoadPages<T>(items: seq<T>, pages: seq<seq<T>>, next: int): seq<T>
    decreases |pages|
  {
    if pages == [] then items
    else LoadPages(Merged(items, LoadRequest(next, false), pages[0]), pages[1..], next + 1)
  }

  lemma {:induction false} LoadPagesAppend<T>(items: seq<T>, pages: seq<seq<T>>, next: int)
    requires next >= 2
    ensures LoadPages(items, pages, next) == items + Flatten(pages)
    decreases |pages|
  {
    if pages != [] {
      LoadPagesAppend(items + pages[0], pages[1..], next + 1);
      assert items + pages[0] + Flatten(pages[1..]) == items + Flatten(pages);
    }
  }

  lemma {:induction false} FlattenSize<T>(pages: seq<seq<T>>)
    ensures |Flatten(pages)| == TotalSize(pages)
  {
    if pages != [] {
      FlattenSize(pages[1..]);
    }
  }

  /** Loading pages 1..N in order leaves exactly their items, in request
      order, whatever the list held before; its length is the sum of the
      page sizes. */
  lemma LoadPagesFromFirst<T>(items: seq<T>, pages: seq<seq<T>>)
    requires pages != []
    ensures LoadPages(items, pages, 1) == Flatten(pages)
    ensures |LoadPages(items, pages, 1)| == TotalSize(pages)
  {
    LoadPagesAppend(pages[0], pages[1..], 2);
    FlattenSize(pages);
  }

  // ---------------------------------------------------------------------
  // The controller
  // ---------------------------------------------------------------------

  class Paginator<T> {
    const policy: Policy
    var items: seq<T>
    var page: int
    var hasMore: bool
    var inFlight: bool
    var error: Option<string>
    var initialLoading: bool
    var loadingMore: bool
    var title: string
    /** Requests issued and not yet completed. */
    ghost var outstanding: nat

    /** A guarded controller has at most one request outstanding, and its
        flag says whether there is one; an unguarded one never sets it. */
    ghost predicate Valid()
      reads this
    {
      if policy.guarded then outstanding <= 1 && (inFlight <==> outstanding == 1)
      else !inFlight
    }

    constructor (policy: Policy)
      ensures this.policy == policy && Valid()
      ensures items == [] && page == 1 && hasMore && !inFlight && error == None
      ensures initialLoading && !loadingMore && title == "" && outstanding == 0
    {
      this.policy := policy;
      items, page, hasMore, inFlight, error := [], 1, true, false, None;
      initialLoading, loadingMore, title := true, false, "";
      outstanding := 0;
    }

    /** The guards of loadX and, when they pass, the state changes made
        before the fetch. A dropped load changes nothing. */
    method BeginLoad(req: LoadRequest) returns (issued: bool)
      requires Valid()
      modifies this
      ensures Valid()
      ensures issued == MayIssue(policy, old(inFlight), old(hasMore), req)
      ensures !issued ==> unchanged(this)
      ensures issued ==>
        && items == old(items) && page == old(page) && hasMore == old(hasMore)
        && title == old(title)
        && inFlight == policy.guarded && outstanding == old(outstanding) + 1
        && error == ErrorAtStart(policy.errorReset, req, old(error))
      ensures issued && InitialSpinner(policy.spinner, req) ==>
        initialLoading && loadingMore == old(loadingMore)
      ensures issued && !InitialSpinner(policy.spinner, req) ==>
        loadingMore && initialLoading == old(initialLoading)
    {
      if policy.guarded && inFlight {
        return false;
      }
      if Exhausted(hasMore, req) {
        return false;
      }
      issued := true;
      inFlight := policy.guarded;
      outstanding := outstanding + 1;
      error := ErrorAtStart(policy.errorReset, req, error);
      if InitialSpinner(policy.spinner, req) {
        initialLoading := true;
      } else {
        loadingMore := true;
      }
    }

    /** The response handling of loadX and its `finally`: a delivered page
        replaces or extends the list and takes page and has_next from the
        server; a failure only sets the error. The flags are always cleared. */
    method Complete(req: LoadRequest, resp: PageResponse<T>)
      requires Valid() && outstanding > 0
      modifies this
      ensures Valid() && outstanding == old(outstanding) - 1
      ensures !inFlight && !initialLoading && !loadingMore
      ensures Delivered(resp).Some? ==>
        && items == Merged(old(items), req, Delivered(resp).value.items)
        && page == Delivered(resp).value.page
        && hasMore == Delivered(resp).value.hasNext
        && title == NextTitle(policy.keepsTitle, old(title), Delivered(resp).value.title)
        && error == old(error)
      ensures Delivered(resp).None? ==>
        && items == old(items) && page == old(page) && hasMore == old(hasMore)
        && title == old(title)
        && error == Some(FailureText(resp, policy.fallback))
    {
      var delivered := Delivered(resp);
      if delivered.Some? {
        var data := delivered.value;
        title := NextTitle(policy.keepsTitle, title, data.title);
        items := Merged(items, req, data.items);
        page := data.page;
        hasMore := data.hasNext;
      } else {
        error := Some(FailureText(resp, policy.fallback));
      }
      inFlight := false;
      outstanding := outstanding - 1;
      initialLoading := false;
      loadingMore := false;
    }

    /** setPage(1); setHasMore(true) before a reload. */
    method ResetCursor()
      requires Valid()
      modifies this
      ensures Valid()
      ensures page == 1 && hasMore
      ensures items == old(items) && inFlight == old(inFlight) && error == old(error)
      ensures title == old(title) && outstanding == old(outstanding)
      ensures initialLoading == old(initialLoading) && loadingMore == old(loadingMore)
    {
      page, hasMore := 1, true;
    }

    /** setItems(prev => f(prev)) for the in-place edits of a view. */
    method SetItems(newItems: seq<T>)
      requires Valid()
      modifies this
      ensures Valid() && items == newItems
      ensures page == old(page) && hasMore == old(hasMore) && inFlight == old(inFlight)
      ensures error == old(error) && title == old(title) && outstanding == old(outstanding)
      ensures initialLoading == old(initialLoading) && loadingMore == old(loadingMore)
    {
      items := newItems;
    }
  }
}
