/**
 * The state of the bulk-fetch page and its event handlers: choosing feeds,
 * choosing a date range, submitting the search and loading further pages.
 * The reply of the bulk-fetch endpoint is a parameter of the handlers that
 * send a request (`None` when the request fails); rendering is left out
 * except for the two expressions that decide the "Load More" control.
 */
module BulkFetchUi {
  import opened Errors

  datatype FeedView = FeedView(id: string, title: string)
  datatype ArticleView = ArticleView(id: string, title: string)
  datatype FeedCount = FeedCount(feedId: string, feedTitle: string, articleCount: int)
  datatype BulkFetchReply = BulkFetchReply(articles: seq<ArticleView>, totalCount: int, feedSummaries: seq<FeedCount>)
  datatype BulkFetchRequest = BulkFetchRequest(
    feedIds: seq<string>,
    startDate: Option<string>,
    endDate: Option<string>,
    limit: int,
    offset: int)

  datatype DateField = StartDate | EndDate

  const NothingSelected := "Please select at least one feed"
  const FetchFailed := "Failed to fetch articles"
  const LoadMoreFailed := "Failed to load more articles"
  const LoadFeedsFailed := "Failed to load feeds"
  const InitialLimit := 50

  // ------------------------------------------------------------- selection

  /** `ids.filter(x => x !== id)` */
  function Without(ids: seq<string>, id: string): (r: seq<string>)
    ensures forall x :: x in r <==> x in ids && x != id
    ensures |r| <= |ids|
    decreases |ids|
  {
    if ids == [] then []
    else
      assert forall x :: x in ids ==> x == ids[0] || x in ids[1..];
      (if ids[0] == id then [] else [ids[0]]) + Without(ids[1..], id)
  }

  /** Filtering a concatenation filters each part. */
  lemma {:induction false} WithoutAppend(a: seq<string>, b: seq<string>, id: string)
    ensures Without(a + b, id) == Without(a, id) + Without(b, id)
    decreases |a|
  {
    if a == [] {
      assert a + b == b;
    } else {
      assert (a + b)[1..] == a[1..] + b;
      WithoutAppend(a[1..], b, id);
    }
  }

  /** Filtering out an id that does not occur keeps the list as it is. */
  lemma {:induction false} WithoutAbsent(ids: seq<string>, id: string)
    requires id !in ids
    ensures Without(ids, id) == ids
    decreases |ids|
  {
    if ids != [] {
      WithoutAbsent(ids[1..], id);
    }
  }

  /** The selection after a click on the checkbox of `id`. */
  function Toggled(ids: seq<string>, id: string): seq<string> {
    if id in ids then Without(ids, id) else ids + [id]
  }

  /**
   * A click selects an unselected feed, at the end of the selection, and
   * deselects a selected one wherever it occurs; no other feed changes.
   */
  lemma ToggledSpec(ids: seq<string>, id: string)
    ensures id in Toggled(ids, id) <==> id !in ids
    ensures forall x :: x != id ==> (x in Toggled(ids, id) <==> x in ids)
    ensures id !in ids ==> Toggled(ids, id) == ids + [id]
    ensures id in ids ==> |Toggled(ids, id)| < |ids|
  {
    if id in ids {
      WithoutShorter(ids, id);
    }
  }

  lemma {:induction false} WithoutShorter(ids: seq<string>, id: string)
    requires id in ids
    ensures |Without(ids, id)| < |ids|
    decreases |ids|
  {
    if ids[0] != id {
      WithoutShorter(ids[1..], id);
    }
  }

  /** Two clicks on an unselected feed give back the selection as it was. */
  lemma ToggleTwice(ids: seq<string>, id: string)
    requires id !in ids
    ensures Toggled(Toggled(ids, id), id) == ids
  {
    WithoutAppend(ids, [id], id);
    WithoutAbsent(ids, id);
  }

  predicate Distinct(ids: seq<string>) {
    forall i, j :: 0 <= i < j < |ids| ==> ids[i] != ids[j]
  }

  lemma {:induction false} WithoutDistinct(ids: seq<string>, id: string)
    requires Distinct(ids)
    ensures Distinct(Without(ids, id))
    decreases |ids|
  {
    if ids != [] {
      WithoutDistinct(ids[1..], id);
      var rest := Without(ids[1..], id);
      if ids[0] != id {
        var r := [ids[0]] + rest;
        forall j | 0 < j < |r| ensures r[0] != r[j] {
          assert r[j] in ids[1..];
        }
      }
    }
  }

  /** Clicking never selects a feed twice. */
  lemma ToggleKeepsDistinct(ids: seq<string>, id: string)
    requires Distinct(ids)
    ensures Distinct(Toggled(ids, id))
  {
    if id in ids {
      WithoutDistinct(ids, id);
    }
  }

  /** `feeds.map(feed => feed.id)` */
  function Ids(feeds: seq<FeedView>): seq<string> {
    seq(|feeds|, i requires 0 <= i < |feeds| => feeds[i].id)
  }

  // --------------------------------------------------------------- request

  /** `s || undefined`: the empty string is sent as an absent field. */
  function OrUndefined(s: string): (r: Option<string>)
    ensures r.None? <==> s == ""
    ensures DateText(r) == s
  {
    if s == "" then None else Some(s)
  }

  /** The text of a date field that is absent or present. */
  function DateText(o: Option<string>): string {
    if o.Some? then o.value else ""
  }

  /** The request for the current form, starting at `offset`. */
  function RequestFor(ids: seq<string>, start: string, end: string, limit: int, offset: int): BulkFetchRequest {
    BulkFetchRequest(ids, OrUndefined(start), OrUndefined(end), limit, offset)
  }

  /** The form can be recovered from the request it sends. */
  lemma RequestForInjective(ids1: seq<string>, s1: string, e1: string, l1: int, o1: int,
                            ids2: seq<string>, s2: string, e2: string, l2: int, o2: int)
    requires RequestFor(ids1, s1, e1, l1, o1) == RequestFor(ids2, s2, e2, l2, o2)
    ensures ids1 == ids2 && s1 == s2 && e1 == e2 && l1 == l2 && o1 == o2
  {
    assert DateText(OrUndefined(s1)) == DateText(OrUndefined(s2));
    assert DateText(OrUndefined(e1)) == DateText(OrUndefined(e2));
  }

  // ------------------------------------------------------------- load more

  /** The results after a further page: its articles after the ones shown. */
  function Merged(shown: BulkFetchReply, next: BulkFetchReply): BulkFetchReply {
    next.(articles := shown.articles + next.articles)
  }

  /** `results.totalCount - results.articles.length` */
  function Remaining(r: BulkFetchReply): int {
    r.totalCount - |r.articles|
  }

  /** `results.articles.length < results.totalCount` */
  function ShowLoadMore(r: BulkFetchReply): (show: bool)
    ensures show <==> Remaining(r) > 0
  {
    |r.articles| < r.totalCount
  }

  /**
   * While the total stays the same, a further page keeps every article shown,
   * in order, and lowers the remaining count by the size of the page.
   */
  lemma MergedSpec(shown: BulkFetchReply, next: BulkFetchReply)
    requires next.totalCount == shown.totalCount
    ensures Merged(shown, next).articles[..|shown.articles|] == shown.articles
    ensures Remaining(Merged(shown, next)) == Remaining(shown) - |next.articles|
    ensures next.articles == [] ==> Merged(shown, next) == shown.(feedSummaries := next.feedSummaries)
  {
    var m := Merged(shown, next);
    assert m.articles[..|shown.articles|] == shown.articles;
    if next.articles == [] {
      assert m.articles == shown.articles;
    }
  }

  // ----------------------------------------------------------------- state

  class BulkFetchPage {
    var feeds: seq<FeedView>
    var selectedFeedIds: seq<string>
    var startDate: string
    var endDate: string
    var loading: bool
    var results: Option<BulkFetchReply>
    var error: Option<string>
    var limit: int
    var offset: int

    constructor ()
      ensures feeds == [] && selectedFeedIds == [] && startDate == "" && endDate == ""
      ensures !loading && results == None && error == None
      ensures limit == InitialLimit && offset == 0
    {
      feeds, selectedFeedIds, startDate, endDate := [], [], "", "";
      loading, results, error := false, None, None;
      limit, offset := InitialLimit, 0;
    }

    /** The feed list arrives, or the error is shown. */
    method LoadFeeds(reply: Option<seq<FeedView>>)
      modifies this`feeds, this`error
      ensures reply.Some? ==> feeds == reply.value && error == old(error)
      ensures reply.None? ==> feeds == old(feeds) && error == Some(LoadFeedsFailed)
    {
      if reply.Some? {
        feeds := reply.value;
      } else {
        error := Some(LoadFeedsFailed);
      }
    }

    method ToggleFeed(id: string)
      modifies this`selectedFeedIds
      ensures selectedFeedIds == Toggled(old(selectedFeedIds), id)
    {
      selectedFeedIds := if id in selectedFeedIds then Without(selectedFeedIds, id) else selectedFeedIds + [id];
    }

    /** Selects every listed feed, in list order. */
    method SelectAll()
      modifies this`selectedFeedIds
      ensures |selectedFeedIds| == |feeds|
      ensures forall i :: 0 <= i < |feeds| ==> selectedFeedIds[i] == feeds[i].id
    {
      selectedFeedIds := Ids(feeds);
    }

    method SelectNone()
      modifies this`selectedFeedIds
      ensures selectedFeedIds == []
    {
      selectedFeedIds := [];
    }

    /** Edits one end of the date range; the other keeps its value. */
    method ChangeDate(field: DateField, value: string)
      modifies this`startDate, this`endDate
      ensures field == StartDate ==> startDate == value && endDate == old(endDate)
      ensures field == EndDate ==> endDate == value && startDate == old(startDate)
    {
      match field
      case StartDate => startDate := value;
      case EndDate => endDate := value;
    }

    /**
     * Submits the form. With nothing selected it shows an error and sends
     * nothing. Otherwise it sends the form, from the current offset, and
     * shows the reply, or the error when the request fails.
     */
    method Submit(reply: Option<BulkFetchReply>) returns (sent: Option<BulkFetchRequest>)
      modifies this`loading, this`error, this`results
      ensures old(selectedFeedIds) == [] ==>
        && sent == None && error == Some(NothingSelected)
        && loading == old(loading) && results == old(results)
      ensures old(selectedFeedIds) != [] ==>
        && sent == Some(RequestFor(selectedFeedIds, startDate, endDate, limit, offset))
        && !loading
        && (reply.Some? ==> results == reply && error == None)
        && (reply.None? ==> results == old(results) && error == Some(FetchFailed))
    {
      if |selectedFeedIds| == 0 {
        error := Some(NothingSelected);
        return None;
      }
      loading := true;
      error := None;
      sent := Some(RequestFor(selectedFeedIds, startDate, endDate, limit, offset));
      if reply.Some? {
        results := reply;
      } else {
        error := Some(FetchFailed);
      }
      loading := false;
    }

    /**
     * Loads the next page. Without results, or while a request is in flight,
     * it does nothing. Otherwise it asks for the page after the current one;
     * on success the new articles follow the ones shown and the offset moves
     * on by one page, and on failure only the error changes.
     */
    method LoadMore(reply: Option<BulkFetchReply>) returns (sent: Option<BulkFetchRequest>)
      modifies this`loading, this`error, this`results, this`offset
      ensures old(results) == None || old(loading) ==>
        && sent == None
        && loading == old(loading) && error == old(error) && results == old(results) && offset == old(offset)
      ensures old(results) != None && !old(loading) ==>
        && sent == Some(RequestFor(selectedFeedIds, startDate, endDate, limit, old(offset) + limit))
        && !loading
        && (reply.Some? ==>
              && results == Some(Merged(old(results).value, reply.value))
              && offset == old(offset) + limit && error == old(error))
        && (reply.None? ==>
              && results == old(results) && offset == old(offset) && error == Some(LoadMoreFailed))
    {
      if results.None? || loading {
        return None;
      }
      loading := true;
      sent := Some(RequestFor(selectedFeedIds, startDate, endDate, limit, offset + limit));
      if reply.Some? {
        results := Some(Merged(results.value, reply.value));
        offset := offset + limit;
      } else {
        error := Some(LoadMoreFailed);
      }
      loading := false;
    }
  }
}
