/**
 * The `/feeds` handlers: list, create, read, update, delete and refresh one
 * feed. Each handler is a method on the shared `Database`, proved against a
 * function that says what the handler does to the tables and what it answers.
 */
module FeedRoutes {
  import opened Errors
  import opened Ordering
  import opened Models
  import opened Store
  import opened Ingestion

  /** The tables after a handler and what it answers. */
  datatype Handled<T> = Handled(tables: Tables, result: Result<T>)

  /** The answer to a feed whose URL another feed already has. */
  function DuplicateUrl(): AppError {
    BadRequest("Feed with this URL already exists")
  }

  /** GET /feeds: every feed, ordered by title. */
  function ListFeeds(t: Tables): (r: seq<Feed>)
    ensures SortedBy(r, FeedTitleLe)
    ensures multiset(r) == multiset(t.feeds)
  {
    FeedsByTitleSpec(t.feeds);
    FeedsByTitle(t.feeds)
  }

  /** GET /feeds/:id */
  function GetFeed(t: Tables, id: Uuid): (r: Result<Feed>)
    ensures r.Ok? ==> r.value in t.feeds && r.value.id == id
    ensures r.Err? <==> forall f :: f in t.feeds ==> f.id != id
    ensures r.Err? ==> r.error == NotFoundFeed(id)
  {
    match FindFeed(t.feeds, id)
    case None => Err(NotFoundFeed(id))
    case Some(f) => Ok(f)
  }

  // ---------------------------------------------------------------- create

  /**
   * The row `INSERT INTO feeds (title, url)` creates: the column defaults
   * make it active, never fetched, and created and updated now.
   */
  function NewFeed(id: Uuid, title: string, url: string, now: Time): Feed {
    Feed(id, title, url, true, None, now, now)
  }

  /** POST /feeds */
  function Create(t: Tables, title: string, url: string, now: Time): Handled<Feed> {
    if FeedUrlTaken(t.feeds, url) then Handled(t, Err(DuplicateUrl()))
    else
      var feed := NewFeed(t.nextId, title, url, now);
      Handled(t.(feeds := t.feeds + [feed], nextId := t.nextId + 1), Ok(feed))
  }

  method CreateFeed(db: Database, title: string, url: string, now: Time) returns (r: Result<Feed>)
    modifies db
    ensures db.Snapshot() == Create(old(db.Snapshot()), title, url, now).tables
    ensures r == Create(old(db.Snapshot()), title, url, now).result
  {
    if FeedUrlTaken(db.feeds, url) {
      return Err(DuplicateUrl());
    }
    var id := db.FreshId();
    var feed := NewFeed(id, title, url, now);
    db.feeds := db.feeds + [feed];
    r := Ok(feed);
  }

  /**
   * Creating fails exactly when the URL is taken, and then changes nothing;
   * otherwise the new feed is active, unfetched, has a fresh id and is the
   * only row added.
   */
  lemma CreateSpec(t: Tables, title: string, url: string, now: Time)
    requires Consistent(t)
    ensures var h := Create(t, title, url, now);
      && (h.result.Err? <==> FeedUrlTaken(t.feeds, url))
      && (h.result.Err? ==> h.tables == t && h.result.error == DuplicateUrl())
      && (h.result.Ok? ==>
            && h.result.value.title == title && h.result.value.url == url
            && h.result.value.active && h.result.value.lastFetched == None
            && h.result.value.createdAt == now && h.result.value.updatedAt == now
            && (forall f :: f in t.feeds ==> f.id != h.result.value.id)
            && h.tables.feeds == t.feeds + [h.result.value]
            && h.tables.articles == t.articles && h.tables.summaries == t.summaries)
  {
  }

  /** A created feed can be read back by its id. */
  lemma CreateThenGet(t: Tables, title: string, url: string, now: Time)
    requires Consistent(t)
    requires Create(t, title, url, now).result.Ok?
    ensures var h := Create(t, title, url, now);
      GetFeed(h.tables, h.result.value.id) == Ok(h.result.value)
  {
    var h := Create(t, title, url, now);
    FindFeedAppend(t.feeds, h.result.value);
  }

  /** Looking up the id of a row appended after rows with other ids finds that row. */
  lemma {:induction false} FindFeedAppend(feeds: seq<Feed>, g: Feed)
    requires forall f :: f in feeds ==> f.id != g.id
    ensures FindFeed(feeds + [g], g.id) == Some(g)
    decreases |feeds|
  {
    if feeds == [] {
      assert feeds + [g] == [g];
    } else {
      assert (feeds + [g])[1..] == feeds[1..] + [g];
      FindFeedAppend(feeds[1..], g);
    }
  }

  /** Creating a second feed with the same URL fails. */
  lemma CreateTwice(t: Tables, title1: string, title2: string, url: string, now1: Time, now2: Time)
    ensures var t1 := Create(t, title1, url, now1).tables;
      Create(t1, title2, url, now2) == Handled(t1, Err(DuplicateUrl()))
  {
    var h := Create(t, title1, url, now1);
    if h.result.Ok? {
      assert h.result.value in h.tables.feeds;
    }
  }

  lemma CreateKeepsConsistent(t: Tables, title: string, url: string, now: Time)
    requires Consistent(t)
    ensures Consistent(Create(t, title, url, now).tables)
  {
    var h := Create(t, title, url, now);
    if h.result.Ok? {
      var fs := h.tables.feeds;
      forall i, j | 0 <= i < j < |fs| ensures fs[i].url != fs[j].url && fs[i].id != fs[j].id {
        if j == |fs| - 1 {
          assert fs[i] in t.feeds;
        }
      }
    }
  }

  // ---------------------------------------------------------------- update

  /** The body of PUT /feeds/:id: the fields to change, each optional. */
  datatype FeedChanges = FeedChanges(title: Option<string>, url: Option<string>)

  /** `SET title = COALESCE($1, title), url = COALESCE($2, url), updated_at = NOW()` */
  function Changed(f: Feed, c: FeedChanges, now: Time): Feed {
    f.(title := UnwrapOr(c.title, f.title), url := UnwrapOr(c.url, f.url), updatedAt := now)
  }

  /** `UPDATE feeds SET ... WHERE id = $3` */
  function UpdateRows(feeds: seq<Feed>, id: Uuid, c: FeedChanges, now: Time): seq<Feed> {
    seq(|feeds|, i requires 0 <= i < |feeds| => if feeds[i].id == id then Changed(feeds[i], c, now) else feeds[i])
  }

  /** `SELECT id FROM feeds WHERE url = $1 AND id != $2` returns a row. */
  predicate UrlTakenByOther(feeds: seq<Feed>, url: string, id: Uuid) {
    exists f :: f in feeds && f.url == url && f.id != id
  }

  /** PUT /feeds/:id */
  function Update(t: Tables, id: Uuid, c: FeedChanges, now: Time): Handled<Feed> {
    match FindFeed(t.feeds, id)
    case None => Handled(t, Err(NotFoundFeed(id)))
    case Some(f) =>
      if c.url.Some? && UrlTakenByOther(t.feeds, c.url.value, id) then Handled(t, Err(DuplicateUrl()))
      else Handled(t.(feeds := UpdateRows(t.feeds, id, c, now)), Ok(Changed(f, c, now)))
  }

  method UpdateFeed(db: Database, id: Uuid, c: FeedChanges, now: Time) returns (r: Result<Feed>)
    modifies db
    ensures db.Snapshot() == Update(old(db.Snapshot()), id, c, now).tables
    ensures r == Update(old(db.Snapshot()), id, c, now).result
  {
    var found := FindFeed(db.feeds, id);
    if found.None? {
      return Err(NotFoundFeed(id));
    }
    if c.url.Some? && UrlTakenByOther(db.feeds, c.url.value, id) {
      return Err(DuplicateUrl());
    }
    db.feeds := UpdateRows(db.feeds, id, c, now);
    r := Ok(Changed(found.value, c, now));
  }

  /**
   * Updating fails with NotFound for an unknown id and with BadRequest for a
   * URL another feed has, changing nothing; otherwise it changes exactly the
   * row with that id: a field left out keeps its value, `updated_at` becomes
   * now, and every other column and every other feed stays as it was.
   */
  lemma UpdateSpec(t: Tables, id: Uuid, c: FeedChanges, now: Time)
    ensures var h := Update(t, id, c, now);
      && (h.result.Err? ==> h.tables == t)
      && ((forall f :: f in t.feeds ==> f.id != id) <==> h.result == Err(NotFoundFeed(id)))
      && (h.result == Err(DuplicateUrl()) <==>
            FindFeed(t.feeds, id).Some? && c.url.Some? && UrlTakenByOther(t.feeds, c.url.value, id))
      && (h.result.Ok? ==>
            && h.tables.articles == t.articles && h.tables.summaries == t.summaries
            && h.tables.nextId == t.nextId
            && |h.tables.feeds| == |t.feeds|
            && forall i :: 0 <= i < |t.feeds| ==>
                 var before, after := t.feeds[i], h.tables.feeds[i];
                 if before.id != id then after == before
                 else
                   && after.title == (if c.title.Some? then c.title.value else before.title)
                   && after.url == (if c.url.Some? then c.url.value else before.url)
                   && after.updatedAt == now
                   && after.id == id && after.active == before.active
                   && after.lastFetched == before.lastFetched && after.createdAt == before.createdAt)
  {
    var h := Update(t, id, c, now);
    if FindFeed(t.feeds, id).Some? {
      assert FindFeed(t.feeds, id).value in t.feeds;
      assert h.result.Ok? || h.result == Err(DuplicateUrl());
    }
  }

  /** A feed may be given the URL it already has. */
  lemma UpdateOwnUrl(t: Tables, id: Uuid, title: Option<string>, now: Time)
    requires UniqueFeedUrls(t.feeds)
    requires FindFeed(t.feeds, id).Some?
    ensures Update(t, id, FeedChanges(title, Some(FindFeed(t.feeds, id).value.url)), now).result.Ok?
  {
    var f := FindFeed(t.feeds, id).value;
    assert f in t.feeds;
  }

  /** Reading the feed back after an update gives what the update answered. */
  lemma UpdateThenGet(t: Tables, id: Uuid, c: FeedChanges, now: Time)
    requires Update(t, id, c, now).result.Ok?
    ensures var h := Update(t, id, c, now);
      GetFeed(h.tables, id) == h.result
  {
    FindFeedUpdateRows(t.feeds, id, c, now);
  }

  /** The first row with the id, after the update, is the first row before it, changed. */
  lemma {:induction false} FindFeedUpdateRows(feeds: seq<Feed>, id: Uuid, c: FeedChanges, now: Time)
    requires FindFeed(feeds, id).Some?
    ensures FindFeed(UpdateRows(feeds, id, c, now), id) == Some(Changed(FindFeed(feeds, id).value, c, now))
    decreases |feeds|
  {
    var u := UpdateRows(feeds, id, c, now);
    if feeds[0].id != id {
      assert u[1..] == UpdateRows(feeds[1..], id, c, now);
      FindFeedUpdateRows(feeds[1..], id, c, now);
    }
  }

  lemma UpdateKeepsConsistent(t: Tables, id: Uuid, c: FeedChanges, now: Time)
    requires Consistent(t)
    ensures Consistent(Update(t, id, c, now).tables)
  {
    var h := Update(t, id, c, now);
    if h.result.Ok? {
      var fs := UpdateRows(t.feeds, id, c, now);
      assert h.tables == t.(feeds := fs);
      forall i, j | 0 <= i < j < |fs| ensures fs[i].url != fs[j].url && fs[i].id != fs[j].id {
        UpdatedRowsDiffer(t.feeds, id, c, now, i, j);
      }
      forall f | f in fs ensures f.id < t.nextId {
        var i :| 0 <= i < |fs| && fs[i] == f;
        assert t.feeds[i] in t.feeds;
      }
    }
  }

  /** Two rows of a table with unique ids and URLs still differ after an accepted update. */
  lemma UpdatedRowsDiffer(feeds: seq<Feed>, id: Uuid, c: FeedChanges, now: Time, i: nat, j: nat)
    requires UniqueFeedIds(feeds) && UniqueFeedUrls(feeds)
    requires !(c.url.Some? && UrlTakenByOther(feeds, c.url.value, id))
    requires i < j < |feeds|
    ensures UpdateRows(feeds, id, c, now)[i].url != UpdateRows(feeds, id, c, now)[j].url
    ensures UpdateRows(feeds, id, c, now)[i].id != UpdateRows(feeds, id, c, now)[j].id
  {
    if c.url.Some? {
      assert feeds[i] in feeds && feeds[j] in feeds;
    }
  }

  // ---------------------------------------------------------------- delete

  /** `DELETE FROM feeds WHERE id = $1` */
  function RemoveFeed(feeds: seq<Feed>, id: Uuid): (r: seq<Feed>)
    ensures forall f :: f in r <==> f in feeds && f.id != id
    ensures |r| <= |feeds|
    decreases |feeds|
  {
    if feeds == [] then []
    else if feeds[0].id == id then RemoveFeed(feeds[1..], id)
    else
      assert forall f :: f in feeds ==> f == feeds[0] || f in feeds[1..];
      [feeds[0]] + RemoveFeed(feeds[1..], id)
  }

  /** DELETE /feeds/:id answers `{"success": true}`, modelled as `Ok(true)`. */
  function Delete(t: Tables, id: Uuid): Handled<bool> {
    if FindFeed(t.feeds, id).None? then Handled(t, Err(NotFoundFeed(id)))
    else Handled(t.(feeds := RemoveFeed(t.feeds, id)), Ok(true))
  }

  method DeleteFeed(db: Database, id: Uuid) returns (r: Result<bool>)
    modifies db
    ensures db.Snapshot() == Delete(old(db.Snapshot()), id).tables
    ensures r == Delete(old(db.Snapshot()), id).result
  {
    if FindFeed(db.feeds, id).None? {
      return Err(NotFoundFeed(id));
    }
    db.feeds := RemoveFeed(db.feeds, id);
    r := Ok(true);
  }

  /** Rows that keep their relative order in a smaller table. */
  predicate Subsequence(r: seq<Feed>, s: seq<Feed>)
    decreases |s|
  {
    if r == [] then true
    else if s == [] then false
    else if r[0] == s[0] then Subsequence(r[1..], s[1..])
    else Subsequence(r, s[1..])
  }

  lemma {:induction false} RemoveFeedOrder(feeds: seq<Feed>, id: Uuid)
    ensures Subsequence(RemoveFeed(feeds, id), feeds)
    decreases |feeds|
  {
    if feeds != [] {
      RemoveFeedOrder(feeds[1..], id);
      if feeds[0].id != id {
        assert ([feeds[0]] + RemoveFeed(feeds[1..], id))[1..] == RemoveFeed(feeds[1..], id);
      }
    }
  }

  /**
   * Deleting an unknown feed fails with NotFound and changes nothing;
   * deleting a known one removes it, keeps every other feed in its order,
   * and leaves the other tables alone.
   */
  lemma DeleteSpec(t: Tables, id: Uuid)
    ensures var h := Delete(t, id);
      && (h.result.Err? <==> forall f :: f in t.feeds ==> f.id != id)
      && (h.result.Err? ==> h.tables == t && h.result.error == NotFoundFeed(id))
      && (h.result.Ok? ==>
            && GetFeed(h.tables, id).Err?
            && (forall f :: f in h.tables.feeds <==> f in t.feeds && f.id != id)
            && Subsequence(h.tables.feeds, t.feeds)
            && |h.tables.feeds| < |t.feeds|
            && h.tables.articles == t.articles && h.tables.summaries == t.summaries)
  {
    RemoveFeedOrder(t.feeds, id);
    if FindFeed(t.feeds, id).Some? {
      RemoveFeedShorter(t.feeds, id);
    }
  }

  lemma {:induction false} RemoveFeedShorter(feeds: seq<Feed>, id: Uuid)
    requires exists f :: f in feeds && f.id == id
    ensures |RemoveFeed(feeds, id)| < |feeds|
    decreases |feeds|
  {
    if feeds[0].id != id {
      assert exists f :: f in feeds[1..] && f.id == id;
      RemoveFeedShorter(feeds[1..], id);
    }
  }

  lemma {:induction false} RemoveFeedIndices(feeds: seq<Feed>, id: Uuid)
    requires UniqueFeedIds(feeds) && UniqueFeedUrls(feeds)
    ensures UniqueFeedIds(RemoveFeed(feeds, id)) && UniqueFeedUrls(RemoveFeed(feeds, id))
    decreases |feeds|
  {
    if feeds != [] {
      var rest := RemoveFeed(feeds[1..], id);
      RemoveFeedIndices(feeds[1..], id);
      if feeds[0].id != id {
        var r := [feeds[0]] + rest;
        forall i, j | 0 <= i < j < |r| ensures r[i].url != r[j].url && r[i].id != r[j].id {
          if i == 0 {
            HeadDiffers(feeds, r[j]);
          } else {
            assert r[i] == rest[i - 1] && r[j] == rest[j - 1];
          }
        }
      }
    }
  }

  /** In a table with unique ids and URLs, the first row shares neither with a later row. */
  lemma HeadDiffers(feeds: seq<Feed>, g: Feed)
    requires UniqueFeedIds(feeds) && UniqueFeedUrls(feeds)
    requires feeds != [] && g in feeds[1..]
    ensures g.url != feeds[0].url && g.id != feeds[0].id
  {
    var m :| 0 <= m < |feeds| - 1 && feeds[1..][m] == g;
    assert feeds[m + 1] == g;
  }

  lemma DeleteKeepsConsistent(t: Tables, id: Uuid)
    requires Consistent(t)
    ensures Consistent(Delete(t, id).tables)
  {
    RemoveFeedIndices(t.feeds, id);
  }

  // ---------------------------------------------------------------- refresh

  /** `{"success": true, "feed_id": ..., "articles_added": ...}` */
  datatype RefreshReply = RefreshReply(success: bool, feedId: string, articlesAdded: nat)

  /**
   * POST /feeds/:id/refresh: NotFound for an unknown id, otherwise whatever
   * refreshing the feed does, its count reported as `articles_added`.
   */
  function RefreshRoute(t: Tables, id: Uuid, net: string -> HttpOutcome, now: Time): Handled<RefreshReply> {
    if FindFeed(t.feeds, id).None? then Handled(t, Err(NotFoundFeed(id)))
    else
      var r := Refresh(t, id, net, now);
      match r.result
      case Err(e) => Handled(r.tables, Err(e))
      case Ok(count) => Handled(r.tables, Ok(RefreshReply(true, UuidText(id), count)))
  }

  method RefreshFeedRoute(db: Database, id: Uuid, net: string -> HttpOutcome, now: Time) returns (r: Result<RefreshReply>)
    modifies db
    ensures db.Snapshot() == RefreshRoute(old(db.Snapshot()), id, net, now).tables
    ensures r == RefreshRoute(old(db.Snapshot()), id, net, now).result
  {
    if FindFeed(db.feeds, id).None? {
      return Err(NotFoundFeed(id));
    }
    var count :- RefreshFeed(db, id, net, now);
    r := Ok(RefreshReply(true, UuidText(id), count));
  }

  /**
   * The handler's own existence check agrees with the fetcher's: the route
   * changes the tables exactly as refreshing the feed does, fails with the
   * same error, and reports the fetcher's count.
   */
  lemma RefreshRouteDelegates(t: Tables, id: Uuid, net: string -> HttpOutcome, now: Time)
    ensures var h := RefreshRoute(t, id, net, now);
      var r := Refresh(t, id, net, now);
      && h.tables == r.tables
      && (h.result.Ok? <==> r.result.Ok?)
      && (h.result.Err? ==> h.result.error == r.result.error)
      && (h.result.Ok? ==> h.result.value == RefreshReply(true, UuidText(id), r.result.value))
  {
    if FindFeed(t.feeds, id).None? {
      RefreshUnknownFeed(t, id, net, now);
    }
  }
}
