/** The administration news list: at most one item expanded at a time, and
    deletion after confirmation. */
module NewsList {
  import opened JsText
  import opened Paging

  datatype NewsItem = NewsItem(id: int, title: string, content: string, imageUrl: Option<string>, createdAt: string)

  function NewsId(n: NewsItem): int { n.id }

  /** The result of DELETE /news/{id}: OK, another status, or a rejected
      request, which nothing catches. */
  datatype DeleteReply = Deleted | NotDeleted | Rejected

  /** handleEdit: the path of the route news/:id/edit under /admin, with
      the id written in decimal as its :id segment. */
  function EditPath(id: int): (r: string)
    ensures StartsWith(r, "/admin/news/") && |r| > 17
    ensures r[|r| - 5..] == "/edit"
    ensures r[12..|r| - 5] == IntToString(id)
  {
    var r := "/admin/news/" + IntToString(id) + "/edit";
    assert r[12..|r| - 5] == IntToString(id);
    r
  }

  /** The :id segment of an edit path reads back as the id it was built
      from, so different news items get different edit pages. */
  lemma EditPathRoundTrip(id: int)
    ensures var p := EditPath(id); ParseInt(p[12..|p| - 5]) == Num(id)
  {
    ParseIntRoundTrip(id);
  }

  lemma EditPathInjective(a: int, b: int)
    requires EditPath(a) == EditPath(b)
    ensures a == b
  {
    EditPathRoundTrip(a);
    EditPathRoundTrip(b);
  }

  class NewsListView {
    var items: seq<NewsItem>
    var expandedId: Option<int>

    constructor ()
      ensures items == [] && expandedId.None?
    {
      items := [];
      expandedId := None;
    }

    /** loadNews: an OK reply replaces the list with its items; any other
        reply leaves it as it is (empty on the first load). */
    method ApplyLoad(reply: Option<seq<NewsItem>>)
      modifies this`items
      ensures reply.Some? ==> items == reply.value
      ensures reply.None? ==> items == old(items)
    {
      if reply.Some? {
        items := reply.value;
      }
    }

    /** toggleExpand: the expanded item collapses; any other one becomes the
        only expanded item. */
    method ToggleExpand(id: int)
      modifies this`expandedId
      ensures old(expandedId) == Some(id) ==> expandedId.None?
      ensures old(expandedId) != Some(id) ==> expandedId == Some(id)
    {
      expandedId := if expandedId == Some(id) then None else Some(id);
    }

    /** handleDelete: nothing without confirmation; a refused delete alerts
        and changes nothing; a rejected request changes nothing either; an
        OK delete removes exactly the items with that id, keeps the order of
        the others, and collapses the expansion when it was on that id. */
    method Delete(id: int, confirmed: bool, reply: DeleteReply) returns (alert: Option<string>)
      modifies this
      ensures !(confirmed && reply.Deleted?) ==> items == old(items) && expandedId == old(expandedId)
      ensures alert.Some? <==> confirmed && reply.NotDeleted?
      ensures alert.Some? ==> alert.value == "No se pudo eliminar la noticia"
      ensures confirmed && reply.Deleted? ==>
        && items == RemoveId(old(items), NewsId, id)
        && (old(expandedId) == Some(id) ==> expandedId.None?)
        && (old(expandedId) != Some(id) ==> expandedId == old(expandedId))
    {
      alert := None;
      if !confirmed {
        return;
      }
      match reply
      case Rejected =>
      case NotDeleted =>
        alert := Some("No se pudo eliminar la noticia");
      case Deleted =>
        items := RemoveId(items, NewsId, id);
        if expandedId == Some(id) {
          expandedId := None;
        }
    }
  }
}
