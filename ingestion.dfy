/**
 * Feed ingestion: turning parsed feed entries into articles, refreshing one
 * feed (fetch, deduplicate by URL, insert, stamp `last_fetched`), and
 * refreshing every active feed with each feed's failure kept to itself.
 *
 * The network fetch and the RSS/Atom parser are external: what they produce
 * for a URL is the oracle `net`, a function from URL to outcome.
 */
module Ingestion {
  import opened Errors
  import opened Decimal
  import opened Ordering
  import opened Models
  import opened Store

  // ---------------------------------------------------------------------------
  // Parsed entries and their normalisation
  // ---------------------------------------------------------------------------

  /** An entry's content element, whose body is itself optional. */
  datatype EntryContent = EntryContent(body: Option<string>)

  /** One entry as the feed parser delivers it; `links` holds the link hrefs in order. */
  datatype RawEntry = RawEntry(
    title: Option<string>,
    content: Option<EntryContent>,
    summary: Option<string>,
    published: Option<Time>,
    updated: Option<Time>,
    links: seq<string>)

  function OrElse<T>(o: Option<T>, alternative: Option<T>): Option<T> {
    match o
    case Some(_) => o
    case None => alternative
  }

  function UnwrapOr<T>(o: Option<T>, default: T): T {
    match o
    case Some(v) => v
    case None => default
  }

  /** `entry.content.and_then(|c| c.body)` */
  function ContentBody(e: RawEntry): Option<string> {
    match e.content
    case Some(c) => c.body
    case None => None
  }

  function FirstLink(links: seq<string>): Option<string> {
    if links == [] then None else Some(links[0])
  }

  /** The URL an entry is stored under: its first link, or "". */
  function EntryUrl(e: RawEntry): string {
    UnwrapOr(FirstLink(e.links), "")
  }

  /** The article for one entry; `id` is the fresh identifier, `now` the clock. */
  function NormalizeEntry(feed: Feed, e: RawEntry, id: Uuid, now: Time): (a: Article)
    ensures a.content ==
      if e.content.Some? && e.content.value.body.Some? then e.content.value.body.value
      else if e.summary.Some? then e.summary.value
      else ""
    ensures a.publishedAt ==
      if e.published.Some? then e.published.value
      else if e.updated.Some? then e.updated.value
      else now
    ensures a.url == if |e.links| > 0 then e.links[0] else ""
    ensures a.title == if e.title.Some? then e.title.value else "Untitled"
    ensures a.feedId == feed.id && a.id == id && a.createdAt == now && a.updatedAt == now
  {
    Article(
      id,
      UnwrapOr(e.title, "Untitled"),
      EntryUrl(e),
      feed.id,
      UnwrapOr(OrElse(ContentBody(e), e.summary), ""),
      UnwrapOr(OrElse(e.published, e.updated), now),
      now,
      now)
  }

  /**
   * One article per entry, in entry order, each owned by `feed`; the i-th
   * article takes the i-th fresh identifier from `firstId` on.
   */
  function RssToArticles(feed: Feed, entries: seq<RawEntry>, firstId: Uuid, now: Time): (r: seq<Article>)
    ensures |r| == |entries|
    ensures forall i :: 0 <= i < |r| ==> r[i].feedId == feed.id && r[i].url == EntryUrl(entries[i])
    ensures forall i, j :: 0 <= i < j < |r| ==> r[i].id != r[j].id
  {
    seq(|entries|, i requires 0 <= i < |entries| => NormalizeEntry(feed, entries[i], firstId + i, now))
  }

  /**
   * The i-th article is the i-th entry normalised, under the i-th fresh
   * identifier: title, link, content and date each take their fallbacks.
   */
  lemma RssToArticlesEntries(feed: Feed, entries: seq<RawEntry>, firstId: Uuid, now: Time)
    ensures forall i :: 0 <= i < |entries| ==>
      RssToArticles(feed, entries, firstId, now)[i] == NormalizeEntry(feed, entries[i], firstId + i, now)
  {
  }

  // ---------------------------------------------------------------------------
  // Fetching
  // ---------------------------------------------------------------------------

  /** What reading and parsing the response body gave. */
  datatype Body =
    | ReadFailure(reason: string)
    | Malformed(reason: string)
    | Entries(entries: seq<RawEntry>)

  /** What the HTTP request for a feed URL gave; `statusText` is how the status prints. */
  datatype HttpOutcome =
    | TransportFailure(reason: string)
    | Response(status: nat, statusText: string, body: Body)

  predicate IsSuccess(status: nat) {
    200 <= status <= 299
  }

  /** Fetch a feed and return its entries as articles. */
  function FetchFeed(feed: Feed, outcome: HttpOutcome, firstId: Uuid, now: Time): (r: Result<seq<Article>>)
    ensures r.Err? ==> r.error.FeedParsingError?
    ensures r.Ok? <==> outcome.Response? && IsSuccess(outcome.status) && outcome.body.Entries?
    ensures r.Ok? ==> r.value == RssToArticles(feed, outcome.body.entries, firstId, now)
    ensures outcome.Response? && !IsSuccess(outcome.status) ==>
      r == Err(FeedParsingError("Failed to fetch feed. Status: " + outcome.statusText))
  {
    match outcome
    case TransportFailure(reason) => Err(FeedParsingError("Failed to fetch feed: " + reason))
    case Response(status, statusText, body) =>
      if !IsSuccess(status) then Err(FeedParsingError("Failed to fetch feed. Status: " + statusText))
      else
        match body
        case ReadFailure(reason) => Err(FeedParsingError("Failed to read response: " + reason))
        case Malformed(reason) => Err(FeedParsingError("Failed to parse XML: " + reason))
        case Entries(entries) => Ok(RssToArticles(feed, entries, firstId, now))
  }

  // ---------------------------------------------------------------------------
  // Deduplicating insertion
  // ---------------------------------------------------------------------------

  /** One step of the insert loop: skip the article when its URL is already stored. */
  function InsertIfNew(stored: seq<Article>, a: Article): seq<Article> {
    if UrlStored(stored, a.url) then stored else stored + [a]
  }

  /** The articles table after the insert loop has run over `batch`. */
  function Ingest(stored: seq<Article>, batch: seq<Article>): (r: seq<Article>)
    ensures |stored| <= |r| <= |stored| + |batch|
    ensures r[..|stored|] == stored
    decreases |batch|
  {
    if batch == [] then stored
    else InsertIfNew(Ingest(stored, batch[..|batch| - 1]), batch[|batch| - 1])
  }

  lemma UrlStoredPrefix(s: seq<Article>, t: seq<Article>, url: string)
    requires |s| <= |t| && t[..|s|] == s
    requires UrlStored(s, url)
    ensures UrlStored(t, url)
  {
    var a :| a in s && a.url == url;
    var i :| 0 <= i < |s| && s[i] == a;
    assert t[i] == a;
  }

  /**
   * The articles the loop inserts are elements of the batch, none has a URL
   * that was stored before, and no two share a URL, so a URL that occurs
   * twice in the batch is inserted at most once.
   */
  predicate OnlyNew(stored: seq<Article>, batch: seq<Article>, r: seq<Article>) {
    && (forall k :: |stored| <= k < |r| ==> r[k] in batch && !UrlStored(stored, r[k].url))
    && (forall k, l :: |stored| <= k < l < |r| ==> r[k].url != r[l].url)
  }

  lemma {:induction false} IngestInsertsOnlyNew(stored: seq<Article>, batch: seq<Article>)
    ensures OnlyNew(stored, batch, Ingest(stored, batch))
    decreases |batch|
  {
    if batch != [] {
      var init := batch[..|batch| - 1];
      var a := batch[|batch| - 1];
      var p := Ingest(stored, init);
      var r := Ingest(stored, batch);
      assert r == InsertIfNew(p, a);
      IngestInsertsOnlyNew(stored, init);
      assert forall k :: |stored| <= k < |p| ==> p[k] in init && !UrlStored(stored, p[k].url);
      assert forall k, l :: |stored| <= k < l < |p| ==> p[k].url != p[l].url;
      assert forall x :: x in init ==> x in batch;
      assert a in batch;
      if !UrlStored(p, a.url) {
        assert r == p + [a];
        forall k | |stored| <= k < |r|
          ensures r[k] in batch && !UrlStored(stored, r[k].url)
        {
          if k < |p| {
            assert r[k] == p[k];
          } else {
            assert r[k] == a;
            if UrlStored(stored, a.url) {
              UrlStoredPrefix(stored, p, a.url);
              assert false;
            }
          }
        }
        forall k, l | |stored| <= k < l < |r|
          ensures r[k].url != r[l].url
        {
          if l < |p| {
            assert r[k] == p[k] && r[l] == p[l];
          } else {
            assert r[k] == p[k] && p[k] in p && r[l] == a;
          }
        }
      } else {
        assert r == p;
      }
    }
  }

  /** Every URL of the batch is stored afterwards; nothing but stored or batch articles is. */
  lemma {:induction false} IngestCovers(stored: seq<Article>, batch: seq<Article>)
    ensures forall a :: a in batch ==> UrlStored(Ingest(stored, batch), a.url)
    ensures forall a :: a in Ingest(stored, batch) ==> a in stored || a in batch
    decreases |batch|
  {
    if batch != [] {
      var init := batch[..|batch| - 1];
      var last := batch[|batch| - 1];
      var p := Ingest(stored, init);
      var r := Ingest(stored, batch);
      IngestCovers(stored, init);
      assert batch == init + [last];
      forall a | a in batch
        ensures UrlStored(r, a.url)
      {
        if a in init {
          UrlStoredPrefix(p, r, a.url);
        } else {
          assert a == last;
          if !UrlStored(p, a.url) {
            assert r[|p|] == a;
          }
        }
      }
    }
  }

  /** Stored URLs stay unique: the loop never inserts an article whose URL is already there. */
  lemma {:induction false} IngestKeepsUrlsUnique(stored: seq<Article>, batch: seq<Article>)
    requires UniqueArticleUrls(stored)
    ensures UniqueArticleUrls(Ingest(stored, batch))
    decreases |batch|
  {
    if batch != [] {
      var init := batch[..|batch| - 1];
      var a := batch[|batch| - 1];
      var p := Ingest(stored, init);
      IngestKeepsUrlsUnique(stored, init);
      if !UrlStored(p, a.url) {
        forall i | 0 <= i < |p|
          ensures p[i].url != a.url
        {
          assert p[i] in p;
        }
      }
    }
  }

  /** A batch whose URLs are all stored inserts nothing. */
  lemma {:induction false} IngestAllStored(stored: seq<Article>, batch: seq<Article>)
    requires forall a :: a in batch ==> UrlStored(stored, a.url)
    ensures Ingest(stored, batch) == stored
    decreases |batch|
  {
    if batch != [] {
      var init := batch[..|batch| - 1];
      assert forall a :: a in init ==> a in batch;
      IngestAllStored(stored, init);
      assert batch[|batch| - 1] in batch;
    }
  }

  // ---------------------------------------------------------------------------
  // Refreshing one feed
  // ---------------------------------------------------------------------------

  /** UPDATE feeds SET last_fetched = NOW() WHERE id = $1 */
  function StampFetched(feeds: seq<Feed>, id: Uuid, now: Time): (r: seq<Feed>)
    ensures |r| == |feeds|
    decreases |feeds|
  {
    if feeds == [] then []
    else [Stamp(feeds[0], id, now)] + StampFetched(feeds[1..], id, now)
  }

  function Stamp(f: Feed, id: Uuid, now: Time): Feed {
    if f.id == id then f.(lastFetched := Some(now)) else f
  }

  /** Stamping changes only `last_fetched`, and only of the feed with that id. */
  lemma {:induction false} StampFetchedSpec(feeds: seq<Feed>, id: Uuid, now: Time)
    ensures var r := StampFetched(feeds, id, now);
      && (forall i :: 0 <= i < |r| ==> r[i] == Stamp(feeds[i], id, now))
      && (forall x :: FindFeed(r, x) == if FindFeed(feeds, x).Some? then Some(Stamp(FindFeed(feeds, x).value, id, now)) else None)
    decreases |feeds|
  {
    if feeds != [] {
      StampFetchedSpec(feeds[1..], id, now);
    }
  }

  /** The new tables and the outcome of one refresh. */
  datatype Refreshed = Refreshed(tables: Tables, result: Result<nat>)

  function NotFoundFeed(id: Uuid): AppError {
    NotFound("Feed with ID " + UuidText(id) + " not found")
  }

  function InactiveFeed(f: Feed): AppError {
    BadRequest("Feed '" + f.title + "' is currently inactive")
  }

  /**
   * The checks and the fetch that precede the insert loop: the feed must
   * exist and be active, and the fetch must succeed. The result is the
   * normalised batch.
   */
  function Admit(t: Tables, feedId: Uuid, net: string -> HttpOutcome, now: Time): (r: Result<seq<Article>>)
    ensures r.Ok? ==> FindFeed(t.feeds, feedId).Some? && FindFeed(t.feeds, feedId).value.active
  {
    match FindFeed(t.feeds, feedId)
    case None => Err(NotFoundFeed(feedId))
    case Some(feed) =>
      if !feed.active then Err(InactiveFeed(feed))
      else FetchFeed(feed, net(feed.url), t.nextId, now)
  }

  /** The tables after the insert loop over `batch` and the timestamp update. */
  function Apply(t: Tables, feedId: Uuid, batch: seq<Article>, now: Time): Tables {
    t.(feeds := StampFetched(t.feeds, feedId, now),
       articles := Ingest(t.articles, batch),
       nextId := t.nextId + |batch|)
  }

  /** What refreshing feed `feedId` does to the tables and returns. */
  function Refresh(t: Tables, feedId: Uuid, net: string -> HttpOutcome, now: Time): Refreshed {
    match Admit(t, feedId, net, now)
    case Err(e) => Refreshed(t, Err(e))
    case Ok(batch) =>
      var t' := Apply(t, feedId, batch, now);
      Refreshed(t', Ok(|t'.articles| - |t.articles|))
  }

  /** The insert loop: save each article whose URL is not stored yet. */
  method SaveNewArticles(db: Database, articles: seq<Article>) returns (saved: nat)
    modifies db`articles
    ensures db.articles == Ingest(old(db.articles), articles)
    ensures saved == |db.articles| - |old(db.articles)|
  {
    saved := 0;
    var i := 0;
    while i < |articles|
      invariant 0 <= i <= |articles|
      invariant db.articles == Ingest(old(db.articles), articles[..i])
      invariant saved == |db.articles| - |old(db.articles)|
    {
      var article := articles[i];
      assert articles[..i + 1][..i] == articles[..i];
      if !UrlStored(db.articles, article.url) {
        db.articles := db.articles + [article];
        saved := saved + 1;
      }
      i := i + 1;
    }
    assert articles[..i] == articles;
  }

  /** Fetch and save all articles from a feed. */
  method RefreshFeed(db: Database, feedId: Uuid, net: string -> HttpOutcome, now: Time) returns (r: Result<nat>)
    modifies db
    ensures db.Snapshot() == Refresh(old(db.Snapshot()), feedId, net, now).tables
    ensures r == Refresh(old(db.Snapshot()), feedId, net, now).result
  {
    ghost var t := db.Snapshot();
    var found := FindFeed(db.feeds, feedId);
    if found.None? {
      assert Admit(t, feedId, net, now) == Err(NotFoundFeed(feedId));
      return Err(NotFoundFeed(feedId));
    }
    var feed := found.value;
    if !feed.active {
      assert Admit(t, feedId, net, now) == Err(InactiveFeed(feed));
      return Err(InactiveFeed(feed));
    }
    var fetched := FetchFeed(feed, net(feed.url), db.nextId, now);
    assert fetched == Admit(t, feedId, net, now);
    if fetched.Err? {
      return Err(fetched.error);
    }
    var articles := fetched.value;
    assert Refresh(t, feedId, net, now) == Refreshed(Apply(t, feedId, articles, now), Ok(|Ingest(t.articles, articles)| - |t.articles|));
    var saved := SaveAndStamp(db, feedId, articles, now);
    r := Ok(saved);
  }

  /**
   * Everything after a successful fetch: an empty batch only stamps the feed;
   * otherwise the insert loop runs and then the feed is stamped. The batch's
   * identifiers were all handed out, whether or not the rows were inserted.
   */
  method SaveAndStamp(db: Database, feedId: Uuid, articles: seq<Article>, now: Time) returns (saved: nat)
    modifies db
    ensures db.Snapshot() == Apply(old(db.Snapshot()), feedId, articles, now)
    ensures saved == |db.articles| - |old(db.articles)|
  {
    db.nextId := db.nextId + |articles|;
    if |articles| == 0 {
      db.feeds := StampFetched(db.feeds, feedId, now);
      return 0;
    }
    saved := SaveNewArticles(db, articles);
    db.feeds := StampFetched(db.feeds, feedId, now);
  }

  // ---------------------------------------------------------------------------
  // Properties of a single refresh
  // ---------------------------------------------------------------------------

  /** An unknown id fails with NotFound and changes nothing. */
  lemma RefreshUnknownFeed(t: Tables, feedId: Uuid, net: string -> HttpOutcome, now: Time)
    requires forall f :: f in t.feeds ==> f.id != feedId
    ensures Refresh(t, feedId, net, now) == Refreshed(t, Err(NotFoundFeed(feedId)))
  {
  }

  /**
   * An inactive feed fails with BadRequest and changes nothing, whatever the
   * network would answer: the decision is taken before any fetch.
   */
  lemma RefreshInactiveFeed(t: Tables, feedId: Uuid, net1: string -> HttpOutcome, net2: string -> HttpOutcome, now: Time)
    requires FindFeed(t.feeds, feedId).Some? && !FindFeed(t.feeds, feedId).value.active
    ensures Refresh(t, feedId, net1, now) == Refresh(t, feedId, net2, now)
    ensures Refresh(t, feedId, net1, now).tables == t
    ensures Refresh(t, feedId, net1, now).result.Err?
    ensures Refresh(t, feedId, net1, now).result.error.BadRequest?
  {
  }

  /**
   * A successful refresh returns the number of rows it inserted, stamps the
   * feed's `last_fetched` with `now` (also when nothing was fetched) and
   * leaves every other feed as it was.
   */
  lemma RefreshSuccess(t: Tables, feedId: Uuid, net: string -> HttpOutcome, now: Time)
    requires Refresh(t, feedId, net, now).result.Ok?
    ensures var t' := Refresh(t, feedId, net, now).tables;
      && Refresh(t, feedId, net, now).result.value == |t'.articles| - |t.articles|
      && t'.articles[..|t.articles|] == t.articles
      && |t'.feeds| == |t.feeds|
      && FindFeed(t'.feeds, feedId).Some?
      && FindFeed(t'.feeds, feedId).value.lastFetched == Some(now)
      && (forall i :: 0 <= i < |t.feeds| && t.feeds[i].id != feedId ==> t'.feeds[i] == t.feeds[i])
  {
    StampFetchedSpec(t.feeds, feedId, now);
  }

  /** A refresh that fetched no entries inserts nothing and still stamps the feed. */
  lemma RefreshEmptyFeed(t: Tables, feedId: Uuid, net: string -> HttpOutcome, now: Time)
    requires FindFeed(t.feeds, feedId).Some? && FindFeed(t.feeds, feedId).value.active
    requires var o := net(FindFeed(t.feeds, feedId).value.url);
      o.Response? && IsSuccess(o.status) && o.body == Entries([])
    ensures Refresh(t, feedId, net, now).result == Ok(0)
    ensures Refresh(t, feedId, net, now).tables.articles == t.articles
    ensures FindFeed(Refresh(t, feedId, net, now).tables.feeds, feedId).Some?
    ensures FindFeed(Refresh(t, feedId, net, now).tables.feeds, feedId).value.lastFetched == Some(now)
  {
    StampFetchedSpec(t.feeds, feedId, now);
  }

  /** Stamping keeps every feed's id, URL and active flag. */
  lemma StampKeepsKeys(feeds: seq<Feed>, id: Uuid, now: Time)
    ensures var r := StampFetched(feeds, id, now);
      forall i :: 0 <= i < |r| ==> r[i].id == feeds[i].id && r[i].url == feeds[i].url
  {
    StampFetchedSpec(feeds, id, now);
  }

  /** A refresh keeps the tables consistent; in particular article URLs stay unique. */
  lemma RefreshKeepsConsistent(t: Tables, feedId: Uuid, net: string -> HttpOutcome, now: Time)
    requires Consistent(t)
    ensures Consistent(Refresh(t, feedId, net, now).tables)
  {
    var admitted := Admit(t, feedId, net, now);
    if admitted.Ok? {
      var batch := admitted.value;
      IngestKeepsUrlsUnique(t.articles, batch);
      StampKeepsKeys(t.feeds, feedId, now);
      var fs := StampFetched(t.feeds, feedId, now);
      assert UniqueFeedIds(fs) && UniqueFeedUrls(fs);
      forall f | f in fs ensures f.id < t.nextId + |batch| {
        var i :| 0 <= i < |fs| && fs[i] == f;
        assert t.feeds[i] in t.feeds;
      }
      assert Refresh(t, feedId, net, now).tables == Apply(t, feedId, batch, now);
    }
  }

  /**
   * Refreshing a second time when the upstream feed returns the same entries
   * adds nothing: every URL was stored by the first run.
   */
  lemma RefreshTwiceAddsNothing(t: Tables, feedId: Uuid, net: string -> HttpOutcome, now1: Time, now2: Time)
    requires Refresh(t, feedId, net, now1).result.Ok?
    ensures var t1 := Refresh(t, feedId, net, now1).tables;
      && Refresh(t1, feedId, net, now2).result == Ok(0)
      && Refresh(t1, feedId, net, now2).tables.articles == t1.articles
  {
    var feed := FindFeed(t.feeds, feedId).value;
    var entries := net(feed.url).body.entries;
    var batch1 := Admit(t, feedId, net, now1).value;
    assert batch1 == RssToArticles(feed, entries, t.nextId, now1);
    var t1 := Apply(t, feedId, batch1, now1);
    assert t1 == Refresh(t, feedId, net, now1).tables;
    StampFetchedSpec(t.feeds, feedId, now1);
    var feed1 := FindFeed(t1.feeds, feedId).value;
    assert feed1 == Stamp(feed, feedId, now1);
    assert feed1.url == feed.url && feed1.active && feed1.id == feed.id;
    var batch2 := RssToArticles(feed1, entries, t1.nextId, now2);
    assert Admit(t1, feedId, net, now2) == Ok(batch2);
    IngestCovers(t.articles, batch1);
    forall a | a in batch2 ensures UrlStored(t1.articles, a.url) {
      var i :| 0 <= i < |batch2| && batch2[i] == a;
      assert batch1[i].url == EntryUrl(entries[i]) == a.url;
      assert batch1[i] in batch1;
    }
    IngestAllStored(t1.articles, batch2);
  }

  // ---------------------------------------------------------------------------
  // Refreshing every active feed
  // ---------------------------------------------------------------------------

  /** One entry of the per-feed result list. */
  datatype FeedRefreshResult = FeedRefreshResult(
    feedId: Uuid,
    feedTitle: string,
    articlesAdded: nat,
    success: bool,
    error: Option<string>)

  datatype RefreshAllSummary = RefreshAllSummary(
    success: bool,
    message: string,
    feedsProcessed: nat,
    totalArticlesAdded: nat,
    results: seq<FeedRefreshResult>)

  /** SELECT id, title FROM feeds WHERE active = true */
  function ActiveOnly(feeds: seq<Feed>): (r: seq<Feed>)
    ensures forall f :: f in r <==> f in feeds && f.active
    decreases |feeds|
  {
    if feeds == [] then []
    else if feeds[0].active then [feeds[0]] + ActiveOnly(feeds[1..])
    else ActiveOnly(feeds[1..])
  }

  /** ... ORDER BY title */
  function ActiveFeedsByTitle(feeds: seq<Feed>): seq<Feed> {
    SortBy(ActiveOnly(feeds), FeedTitleLe)
  }

  /** Exactly the active feeds, in title order. */
  lemma ActiveFeedsByTitleSpec(feeds: seq<Feed>)
    ensures SortedBy(ActiveFeedsByTitle(feeds), FeedTitleLe)
    ensures forall f :: f in ActiveFeedsByTitle(feeds) <==> f in feeds && f.active
    ensures multiset(ActiveFeedsByTitle(feeds)) == multiset(ActiveOnly(feeds))
  {
    FeedTitleLeTotal();
    SortBySorted(ActiveOnly(feeds), FeedTitleLe);
  }

  function ResultFor(f: Feed, r: Result<nat>): FeedRefreshResult {
    match r
    case Ok(count) => FeedRefreshResult(f.id, f.title, count, true, None)
    case Err(e) => FeedRefreshResult(f.id, f.title, 0, false, Some(Display(e)))
  }

  /** The tables and results after refreshing `feeds` one after the other. */
  datatype Batch = Batch(tables: Tables, results: seq<FeedRefreshResult>)

  function RefreshEach(t: Tables, feeds: seq<Feed>, net: string -> HttpOutcome, now: Time): Batch
    decreases |feeds|
  {
    if feeds == [] then Batch(t, [])
    else
      var before := RefreshEach(t, feeds[..|feeds| - 1], net, now);
      var f := feeds[|feeds| - 1];
      var step := Refresh(before.tables, f.id, net, now);
      Batch(step.tables, before.results + [ResultFor(f, step.result)])
  }

  /** The sum of `articles_added` over the results. */
  function TotalAdded(results: seq<FeedRefreshResult>): nat
    decreases |results|
  {
    if results == [] then 0
    else TotalAdded(results[..|results| - 1]) + results[|results| - 1].articlesAdded
  }

  /** The sum of `articles_added` over the successful results only. */
  function SuccessfulAdded(results: seq<FeedRefreshResult>): nat
    decreases |results|
  {
    if results == [] then 0
    else SuccessfulAdded(results[1..]) + (if results[0].success then results[0].articlesAdded else 0)
  }

  /** One iteration of the bulk loop: refresh the feed and report how it went. */
  method RefreshOne(db: Database, feed: Feed, net: string -> HttpOutcome, now: Time) returns (entry: FeedRefreshResult)
    modifies db
    ensures db.Snapshot() == Refresh(old(db.Snapshot()), feed.id, net, now).tables
    ensures entry == ResultFor(feed, Refresh(old(db.Snapshot()), feed.id, net, now).result)
  {
    var r := RefreshFeed(db, feed.id, net, now);
    match r {
      case Ok(count) =>
        entry := FeedRefreshResult(feed.id, feed.title, count, true, None);
      case Err(e) =>
        entry := FeedRefreshResult(feed.id, feed.title, 0, false, Some(Display(e)));
    }
  }

  /** The batch of one more feed is the batch so far followed by that feed's refresh. */
  lemma RefreshEachSnoc(t: Tables, feeds: seq<Feed>, i: nat, net: string -> HttpOutcome, now: Time)
    requires i < |feeds|
    ensures var before := RefreshEach(t, feeds[..i], net, now);
      var step := Refresh(before.tables, feeds[i].id, net, now);
      RefreshEach(t, feeds[..i + 1], net, now) == Batch(step.tables, before.results + [ResultFor(feeds[i], step.result)])
  {
    assert feeds[..i + 1][..i] == feeds[..i];
  }

  lemma TotalAddedSnoc(results: seq<FeedRefreshResult>, r: FeedRefreshResult)
    ensures TotalAdded(results + [r]) == TotalAdded(results) + r.articlesAdded
  {
    assert (results + [r])[..|results|] == results;
  }

  /** Refresh all active feeds, one at a time, in title order. */
  method RefreshAllActiveFeeds(db: Database, net: string -> HttpOutcome, now: Time) returns (s: RefreshAllSummary)
    modifies db
    ensures var b := RefreshEach(old(db.Snapshot()), ActiveFeedsByTitle(old(db.feeds)), net, now);
      db.Snapshot() == b.tables && s.results == b.results
    ensures s.success && s.feedsProcessed == |s.results| && s.totalArticlesAdded == TotalAdded(s.results)
    ensures ActiveFeedsByTitle(old(db.feeds)) == [] ==>
      s == RefreshAllSummary(true, "No active feeds found", 0, 0, [])
    ensures ActiveFeedsByTitle(old(db.feeds)) != [] ==>
      s.message == "Processed " + DecimalString(|s.results|) + " active feeds"
  {
    var active := ActiveFeedsByTitle(db.feeds);
    if |active| == 0 {
      return RefreshAllSummary(true, "No active feeds found", 0, 0, []);
    }
    ghost var t0 := db.Snapshot();
    var total: nat := 0;
    var results: seq<FeedRefreshResult> := [];
    for i := 0 to |active|
      invariant db.Snapshot() == RefreshEach(t0, active[..i], net, now).tables
      invariant results == RefreshEach(t0, active[..i], net, now).results
      invariant total == TotalAdded(results)
    {
      var feed := active[i];
      RefreshEachSnoc(t0, active, i, net, now);
      var entry := RefreshOne(db, feed, net, now);
      TotalAddedSnoc(results, entry);
      total := total + entry.articlesAdded;
      results := results + [entry];
    }
    assert active[..|active|] == active;
    s := RefreshAllSummary(true, "Processed " + DecimalString(|results|) + " active feeds", |results|, total, results);
  }

  // ---------------------------------------------------------------------------
  // Properties of the bulk refresh
  // ---------------------------------------------------------------------------

  /**
   * The entry reports the feed it was made for: its id and title, and either
   * success without an error or failure with no articles and an error text.
   */
  predicate Reports(r: FeedRefreshResult, f: Feed) {
    && r.feedId == f.id && r.feedTitle == f.title
    && (r.success ==> r.error.None?)
    && (!r.success ==> r.articlesAdded == 0 && r.error.Some?)
  }

  /**
   * One result per feed, in the order given, each reporting its feed; a
   * failing feed does not stop the feeds after it from being refreshed.
   */
  lemma RefreshEachResults(t: Tables, feeds: seq<Feed>, net: string -> HttpOutcome, now: Time)
    ensures var rs := RefreshEach(t, feeds, net, now).results;
      && |rs| == |feeds|
      && forall k :: 0 <= k < |rs| ==> Reports(rs[k], feeds[k])
  {
    RefreshEachLength(t, feeds, net, now);
    forall k | 0 <= k < |feeds| ensures Reports(RefreshEach(t, feeds, net, now).results[k], feeds[k]) {
      RefreshEachStep(t, feeds, net, now, k);
    }
  }

  /**
   * The result for the k-th feed is exactly what refreshing it gives in the
   * state the earlier feeds left behind, whatever became of them.
   */
  lemma {:induction false} RefreshEachStep(t: Tables, feeds: seq<Feed>, net: string -> HttpOutcome, now: Time, k: nat)
    requires k < |feeds|
    ensures |RefreshEach(t, feeds, net, now).results| == |feeds|
    ensures RefreshEach(t, feeds, net, now).results[k] ==
      ResultFor(feeds[k], Refresh(RefreshEach(t, feeds[..k], net, now).tables, feeds[k].id, net, now).result)
    decreases |feeds|
  {
    RefreshEachLength(t, feeds, net, now);
    RefreshEachLength(t, feeds[..|feeds| - 1], net, now);
    if k < |feeds| - 1 {
      RefreshEachStep(t, feeds[..|feeds| - 1], net, now, k);
      assert feeds[..|feeds| - 1][..k] == feeds[..k];
    } else {
      assert feeds[..k] == feeds[..|feeds| - 1];
    }
  }

  lemma {:induction false} RefreshEachLength(t: Tables, feeds: seq<Feed>, net: string -> HttpOutcome, now: Time)
    ensures |RefreshEach(t, feeds, net, now).results| == |feeds|
    decreases |feeds|
  {
    if feeds != [] {
      RefreshEachLength(t, feeds[..|feeds| - 1], net, now);
    }
  }

  /** A batch of refreshes keeps the tables consistent. */
  lemma {:induction false} RefreshEachKeepsConsistent(t: Tables, feeds: seq<Feed>, net: string -> HttpOutcome, now: Time)
    requires Consistent(t)
    ensures Consistent(RefreshEach(t, feeds, net, now).tables)
    decreases |feeds|
  {
    if feeds != [] {
      var before := RefreshEach(t, feeds[..|feeds| - 1], net, now);
      RefreshEachKeepsConsistent(t, feeds[..|feeds| - 1], net, now);
      RefreshKeepsConsistent(before.tables, feeds[|feeds| - 1].id, net, now);
    }
  }

  /** Failed feeds add nothing to the total: it is the sum over the successful ones. */
  lemma {:induction false} TotalAddedIsSuccessful(results: seq<FeedRefreshResult>)
    requires forall k :: 0 <= k < |results| && !results[k].success ==> results[k].articlesAdded == 0
    ensures TotalAdded(results) == SuccessfulAdded(results)
    decreases |results|
  {
    if results != [] {
      var init := results[..|results| - 1];
      TotalAddedIsSuccessful(init);
      SuccessfulAddedSnoc(init, results[|results| - 1]);
      assert init + [results[|results| - 1]] == results;
    }
  }

  lemma {:induction false} SuccessfulAddedSnoc(rs: seq<FeedRefreshResult>, r: FeedRefreshResult)
    ensures SuccessfulAdded(rs + [r]) == SuccessfulAdded(rs) + (if r.success then r.articlesAdded else 0)
    decreases |rs|
  {
    if rs != [] {
      assert (rs + [r])[1..] == rs[1..] + [r];
      SuccessfulAddedSnoc(rs[1..], r);
    }
  }

  /** The bulk refresh's summary, stated on the feeds it starts from. */
  lemma RefreshAllSummarySpec(t: Tables, net: string -> HttpOutcome, now: Time)
    ensures var feeds := ActiveFeedsByTitle(t.feeds);
      var rs := RefreshEach(t, feeds, net, now).results;
      && |rs| == |feeds|
      && (forall k :: 0 <= k < |rs| ==> rs[k].feedId == feeds[k].id)
      && TotalAdded(rs) == SuccessfulAdded(rs)
      && SortedBy(feeds, FeedTitleLe)
      && (forall f :: f in feeds <==> f in t.feeds && f.active)
  {
    var feeds := ActiveFeedsByTitle(t.feeds);
    ActiveFeedsByTitleSpec(t.feeds);
    RefreshEachResults(t, feeds, net, now);
    var rs := RefreshEach(t, feeds, net, now).results;
    forall k | 0 <= k < |rs| ensures rs[k].feedId == feeds[k].id && (!rs[k].success ==> rs[k].articlesAdded == 0) {
      assert Reports(rs[k], feeds[k]);
    }
    TotalAddedIsSuccessful(rs);
  }
}
