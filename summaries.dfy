/**
 * The summary routes: reading and creating the summary of one article, and
 * the aggregated summary over the recent articles of several feeds.
 *
 * The AI summarizer and the configuration loader are external: each is a
 * parameter whose answer is either produced text or a failure reason.
 */
module Summaries {
  import opened Errors
  import opened Ordering
  import opened Models
  import opened Store

  /** What an external call (configuration load, summarizer) answered. */
  datatype Reply = Produced(text: string) | Failed(reason: string)

  // ---------------------------------------------------------------------------
  // Reading the summary of an article
  // ---------------------------------------------------------------------------

  function ArticleNotFound(id: Uuid): AppError {
    NotFound("Article with ID " + UuidText(id) + " not found")
  }

  /** SELECT * FROM summaries WHERE article_id = $1 ORDER BY created_at DESC LIMIT 1 */
  function Latest(summaries: seq<Summary>, articleId: Uuid): (r: Option<Summary>)
    ensures r.Some? ==> r.value in summaries && r.value.articleId == articleId
    ensures r.Some? ==> forall s :: s in summaries && s.articleId == articleId ==> s.createdAt <= r.value.createdAt
    ensures r.None? <==> forall s :: s in summaries ==> s.articleId != articleId
    decreases |summaries|
  {
    if summaries == [] then None
    else
      var rest := Latest(summaries[1..], articleId);
      var s := summaries[0];
      assert forall x :: x in summaries ==> x == s || x in summaries[1..];
      if s.articleId != articleId then rest
      else if rest.Some? && rest.value.createdAt > s.createdAt then rest
      else Some(s)
  }

  /** GET /articles/:id/summary */
  function GetSummary(t: Tables, articleId: Uuid): (r: Result<Option<Summary>>)
    ensures r.Err? <==> FindArticle(t.articles, articleId).None?
    ensures r.Err? ==> r.error == ArticleNotFound(articleId)
  {
    if FindArticle(t.articles, articleId).None? then Err(ArticleNotFound(articleId))
    else Ok(Latest(t.summaries, articleId))
  }

  /** Some summary of the article is stored. */
  predicate HasSummary(summaries: seq<Summary>, articleId: Uuid) {
    exists s :: s in summaries && s.articleId == articleId
  }

  /** An existing article's summary is the newest one stored for it, or none when it has none. */
  lemma GetSummaryLatest(t: Tables, articleId: Uuid)
    requires FindArticle(t.articles, articleId).Some?
    ensures GetSummary(t, articleId).Ok?
    ensures GetSummary(t, articleId).value.None? <==> !HasSummary(t.summaries, articleId)
    ensures GetSummary(t, articleId).value.Some? ==>
      var s := GetSummary(t, articleId).value.value;
      && s in t.summaries && s.articleId == articleId
      && forall x :: x in t.summaries && x.articleId == articleId ==> x.createdAt <= s.createdAt
  {
  }

  // ---------------------------------------------------------------------------
  // Creating the summary of an article
  // ---------------------------------------------------------------------------

  function ConfigurationError(reason: string): AppError {
    InternalServerError("Configuration error: " + reason)
  }

  function SummaryExists(id: Uuid): AppError {
    BadRequest("Summary for article " + UuidText(id) + " already exists")
  }

  /** The new tables and the outcome of a create-summary request. */
  datatype Created = Created(tables: Tables, result: Result<Summary>)

  /**
   * POST /articles/:id/summary. `config` is the result of loading the
   * settings (its text is the model name); `summarize` maps an article's
   * title and content to the summarizer's answer; `now` is the database clock.
   */
  function CreateSummarySpec(t: Tables, articleId: Uuid, config: Reply, summarize: (string, string) -> Reply, now: Time): Created {
    match config
    case Failed(e) => Created(t, Err(ConfigurationError(e)))
    case Produced(model) =>
      match FindArticle(t.articles, articleId)
      case None => Created(t, Err(ArticleNotFound(articleId)))
      case Some(a) =>
        if HasSummary(t.summaries, articleId) then Created(t, Err(SummaryExists(articleId)))
        else
          match summarize(a.title, a.content)
          case Failed(e) => Created(t, Err(SummarizationError(e)))
          case Produced(text) =>
            var s := Summary(t.nextId, articleId, text, model, now, now);
            Created(t.(summaries := t.summaries + [s], nextId := t.nextId + 1), Ok(s))
  }

  method CreateSummary(db: Database, articleId: Uuid, config: Reply, summarize: (string, string) -> Reply, now: Time)
    returns (r: Result<Summary>)
    modifies db
    ensures db.Snapshot() == CreateSummarySpec(old(db.Snapshot()), articleId, config, summarize, now).tables
    ensures r == CreateSummarySpec(old(db.Snapshot()), articleId, config, summarize, now).result
  {
    if config.Failed? {
      return Err(ConfigurationError(config.reason));
    }
    var model := config.text;
    var found := FindArticle(db.articles, articleId);
    if found.None? {
      return Err(ArticleNotFound(articleId));
    }
    var article := found.value;
    var existing := FindSummaryOf(db.summaries, articleId);
    if existing {
      return Err(SummaryExists(articleId));
    }
    var generated := summarize(article.title, article.content);
    if generated.Failed? {
      return Err(SummarizationError(generated.reason));
    }
    var id := db.FreshId();
    var s := Summary(id, articleId, generated.text, model, now, now);
    db.summaries := db.summaries + [s];
    r := Ok(s);
  }

  /** SELECT id FROM summaries WHERE article_id = $1 returns a row. */
  method FindSummaryOf(summaries: seq<Summary>, articleId: Uuid) returns (found: bool)
    ensures found <==> HasSummary(summaries, articleId)
  {
    found := false;
    var i := 0;
    while i < |summaries|
      invariant 0 <= i <= |summaries|
      invariant found <==> exists k :: 0 <= k < i && summaries[k].articleId == articleId
    {
      if summaries[i].articleId == articleId {
        found := true;
      }
      i := i + 1;
    }
    if found {
      var k :| 0 <= k < i && summaries[k].articleId == articleId;
      assert summaries[k] in summaries;
    }
  }

  /** Every failure leaves the tables as they were. */
  lemma CreateSummaryFailureChangesNothing(t: Tables, articleId: Uuid, config: Reply, summarize: (string, string) -> Reply, now: Time)
    requires CreateSummarySpec(t, articleId, config, summarize, now).result.Err?
    ensures CreateSummarySpec(t, articleId, config, summarize, now).tables == t
  {
  }

  /**
   * The checks run in order: configuration, then the article, then an
   * existing summary, then the summarizer; each failure has its own kind.
   */
  lemma CreateSummaryErrors(t: Tables, articleId: Uuid, config: Reply, summarize: (string, string) -> Reply, now: Time)
    ensures var r := CreateSummarySpec(t, articleId, config, summarize, now).result;
      && (config.Failed? ==> r == Err(InternalServerError("Configuration error: " + config.reason)))
      && (config.Produced? && FindArticle(t.articles, articleId).None? ==> r == Err(ArticleNotFound(articleId)))
      && (config.Produced? && FindArticle(t.articles, articleId).Some? && HasSummary(t.summaries, articleId) ==>
            r.Err? && r.error.BadRequest?)
      && (config.Produced? && FindArticle(t.articles, articleId).Some? && !HasSummary(t.summaries, articleId) ==>
            var a := FindArticle(t.articles, articleId).value;
            summarize(a.title, a.content).Failed? ==> r == Err(SummarizationError(summarize(a.title, a.content).reason)))
  {
  }

  /** At most one summary per article. */
  predicate OnePerArticle(summaries: seq<Summary>) {
    forall i, j :: 0 <= i < j < |summaries| ==> summaries[i].articleId != summaries[j].articleId
  }

  /**
   * A success stores exactly one new summary, for that article, with the
   * configured model and the summarizer's text; the rule "one summary per
   * article" is kept.
   */
  lemma CreateSummarySuccess(t: Tables, articleId: Uuid, config: Reply, summarize: (string, string) -> Reply, now: Time)
    requires CreateSummarySpec(t, articleId, config, summarize, now).result.Ok?
    ensures var c := CreateSummarySpec(t, articleId, config, summarize, now);
      var s := c.result.value;
      var a := FindArticle(t.articles, articleId).value;
      && config.Produced? && FindArticle(t.articles, articleId).Some?
      && !HasSummary(t.summaries, articleId)
      && c.tables.summaries == t.summaries + [s]
      && c.tables.feeds == t.feeds && c.tables.articles == t.articles
      && s.articleId == articleId && s.model == config.text
      && summarize(a.title, a.content) == Produced(s.content)
      && (OnePerArticle(t.summaries) ==> OnePerArticle(c.tables.summaries))
  {
    var c := CreateSummarySpec(t, articleId, config, summarize, now);
    var s := c.result.value;
    if OnePerArticle(t.summaries) {
      forall i, j | 0 <= i < j < |c.tables.summaries|
        ensures c.tables.summaries[i].articleId != c.tables.summaries[j].articleId
      {
        if j == |t.summaries| {
          assert c.tables.summaries[i] == t.summaries[i] && t.summaries[i] in t.summaries;
        }
      }
    }
  }

  /** After a successful create, reading the article's summary gives the one just created. */
  lemma CreateThenGet(t: Tables, articleId: Uuid, config: Reply, summarize: (string, string) -> Reply, now: Time)
    requires CreateSummarySpec(t, articleId, config, summarize, now).result.Ok?
    ensures var c := CreateSummarySpec(t, articleId, config, summarize, now);
      GetSummary(c.tables, articleId) == Ok(Some(c.result.value))
  {
    var c := CreateSummarySpec(t, articleId, config, summarize, now);
    var s := c.result.value;
    var l := Latest(c.tables.summaries, articleId);
    assert s in c.tables.summaries;
    assert l.Some?;
  }

  // ---------------------------------------------------------------------------
  // Aggregated summary: validation
  // ---------------------------------------------------------------------------

  datatype FeedAggregationRequest = FeedAggregationRequest(feedIds: seq<Uuid>, hoursBack: Option<int>)

  datatype ArticleSummaryInfo = ArticleSummaryInfo(
    id: Uuid,
    title: string,
    url: string,
    publishedAt: Time,
    summary: Option<string>)

  datatype FeedSummaryInfo = FeedSummaryInfo(
    feedId: Uuid,
    feedTitle: string,
    articleCount: int,
    articles: seq<ArticleSummaryInfo>)

  datatype FeedAggregationResponse = FeedAggregationResponse(
    summary: string,
    feeds: seq<FeedSummaryInfo>,
    totalArticles: int,
    timeRangeHours: int)

  const DefaultHoursBack: int := 24
  const MaxHoursBack: int := 168

  const NoFeedIds := "At least one feed ID must be provided"
  const HoursOutOfRange := "Hours back must be between 1 and 168 (1 week)"
  const NoArticlesInRange := "No articles found in the specified time range for the selected feeds"

  function HoursBack(req: FeedAggregationRequest): (h: int)
    ensures req.hoursBack.None? ==> h == DefaultHoursBack
    ensures req.hoursBack.Some? ==> h == req.hoursBack.value
  {
    match req.hoursBack
    case None => DefaultHoursBack
    case Some(h) => h
  }

  /** The request checks; the result is the window length in hours. */
  function ValidateAggregation(req: FeedAggregationRequest): (r: Result<int>)
    ensures r.Ok? <==> req.feedIds != [] && 1 <= HoursBack(req) <= MaxHoursBack
    ensures r.Ok? ==> r.value == HoursBack(req)
    ensures req.feedIds == [] ==> r == Err(BadRequest(NoFeedIds))
    ensures req.feedIds != [] && !(1 <= HoursBack(req) <= MaxHoursBack) ==> r == Err(BadRequest(HoursOutOfRange))
  {
    var hours := HoursBack(req);
    if req.feedIds == [] then Err(BadRequest(NoFeedIds))
    else if hours <= 0 || hours > MaxHoursBack then Err(BadRequest(HoursOutOfRange))
    else Ok(hours)
  }

  /** The earliest publication time inside the window. */
  function Cutoff(now: Time, hours: int): Time {
    now - hours * SecondsPerHour
  }

  // ---------------------------------------------------------------------------
  // Aggregated summary: the rows of one feed
  // ---------------------------------------------------------------------------

  /** The article belongs to the feed and was published inside the window. */
  predicate InWindow(a: Article, feedId: Uuid, cutoff: Time) {
    a.feedId == feedId && a.publishedAt >= cutoff
  }

  /** The row carries the article's own columns. */
  predicate RowOf(x: ArticleSummaryInfo, a: Article) {
    x.id == a.id && x.title == a.title && x.url == a.url && x.publishedAt == a.publishedAt
  }

  /** The contents of the article's summaries, in table order. */
  function SummaryContents(summaries: seq<Summary>, articleId: Uuid): (r: seq<string>)
    ensures r == [] <==> !HasSummary(summaries, articleId)
    decreases |summaries|
  {
    if summaries == [] then []
    else
      assert forall x :: x in summaries ==> x == summaries[0] || x in summaries[1..];
      (if summaries[0].articleId == articleId then [summaries[0].content] else [])
        + SummaryContents(summaries[1..], articleId)
  }

  /**
   * The LEFT JOIN rows of one article: one per summary of it, or a single row
   * without a summary when it has none.
   */
  function ArticleRows(a: Article, summaries: seq<Summary>): (r: seq<ArticleSummaryInfo>)
    ensures |r| >= 1
    ensures forall x :: x in r ==> RowOf(x, a)
    ensures !HasSummary(summaries, a.id) ==> r == [ArticleSummaryInfo(a.id, a.title, a.url, a.publishedAt, None)]
    ensures HasSummary(summaries, a.id) ==> forall x :: x in r ==> x.summary.Some?
  {
    var contents := SummaryContents(summaries, a.id);
    if contents == [] then [ArticleSummaryInfo(a.id, a.title, a.url, a.publishedAt, None)]
    else seq(|contents|, i requires 0 <= i < |contents| => ArticleSummaryInfo(a.id, a.title, a.url, a.publishedAt, Some(contents[i])))
  }

  /** The rows of the join for the in-window articles of the feed, in table order. */
  function JoinRows(articles: seq<Article>, summaries: seq<Summary>, feedId: Uuid, cutoff: Time): seq<ArticleSummaryInfo>
    decreases |articles|
  {
    if articles == [] then []
    else
      (if InWindow(articles[0], feedId, cutoff) then ArticleRows(articles[0], summaries) else [])
        + JoinRows(articles[1..], summaries, feedId, cutoff)
  }

  /** The row comes from an in-window article of the feed. */
  predicate FromWindow(x: ArticleSummaryInfo, articles: seq<Article>, feedId: Uuid, cutoff: Time) {
    exists a :: a in articles && InWindow(a, feedId, cutoff) && RowOf(x, a)
  }

  /** Some row carries the article. */
  predicate HasRow(a: Article, rows: seq<ArticleSummaryInfo>) {
    exists x :: x in rows && RowOf(x, a)
  }

  /** Every row comes from an in-window article, and every in-window article has a row. */
  lemma {:induction false} JoinRowsSpec(articles: seq<Article>, summaries: seq<Summary>, feedId: Uuid, cutoff: Time)
    ensures var r := JoinRows(articles, summaries, feedId, cutoff);
      && (forall x :: x in r ==> FromWindow(x, articles, feedId, cutoff))
      && (forall a :: a in articles && InWindow(a, feedId, cutoff) ==> HasRow(a, r))
    decreases |articles|
  {
    if articles != [] {
      var a0 := articles[0];
      var head := if InWindow(a0, feedId, cutoff) then ArticleRows(a0, summaries) else [];
      var tail := JoinRows(articles[1..], summaries, feedId, cutoff);
      var r := JoinRows(articles, summaries, feedId, cutoff);
      assert r == head + tail;
      JoinRowsSpec(articles[1..], summaries, feedId, cutoff);
      forall x | x in r
        ensures FromWindow(x, articles, feedId, cutoff)
      {
        if x in head {
          assert a0 in articles && InWindow(a0, feedId, cutoff) && RowOf(x, a0);
        } else {
          assert FromWindow(x, articles[1..], feedId, cutoff);
          var a :| a in articles[1..] && InWindow(a, feedId, cutoff) && RowOf(x, a);
          assert a in articles;
        }
      }
      forall a | a in articles && InWindow(a, feedId, cutoff)
        ensures HasRow(a, r)
      {
        if a == a0 {
          assert head[0] in r && RowOf(head[0], a);
        } else {
          assert a in articles[1..];
          assert HasRow(a, tail);
          var x :| x in tail && RowOf(x, a);
          assert x in r;
        }
      }
    }
  }

  /** ORDER BY a.published_at DESC */
  predicate NewerRow(x: ArticleSummaryInfo, y: ArticleSummaryInfo) {
    x.publishedAt >= y.publishedAt
  }

  /** The feed's rows, newest first. */
  function WindowRows(t: Tables, feedId: Uuid, cutoff: Time): seq<ArticleSummaryInfo> {
    SortBy(JoinRows(t.articles, t.summaries, feedId, cutoff), NewerRow)
  }

  /**
   * The rows are newest first; each is an in-window article of the feed;
   * every in-window article of the feed is there; and there are none
   * exactly when the feed has no article in the window.
   */
  lemma WindowRowsSpec(t: Tables, feedId: Uuid, cutoff: Time)
    ensures SortedBy(WindowRows(t, feedId, cutoff), NewerRow)
    ensures forall x :: x in WindowRows(t, feedId, cutoff) ==> FromWindow(x, t.articles, feedId, cutoff)
    ensures forall a :: a in t.articles && InWindow(a, feedId, cutoff) ==> HasRow(a, WindowRows(t, feedId, cutoff))
    ensures WindowRows(t, feedId, cutoff) == [] <==> forall a :: a in t.articles ==> !InWindow(a, feedId, cutoff)
  {
    WindowRowsSorted(t, feedId, cutoff);
    WindowRowsMembers(t, feedId, cutoff);
    var r := WindowRows(t, feedId, cutoff);
    if r != [] {
      assert r[0] in r;
      assert FromWindow(r[0], t.articles, feedId, cutoff);
    }
  }

  lemma WindowRowsMembers(t: Tables, feedId: Uuid, cutoff: Time)
    ensures forall x :: x in WindowRows(t, feedId, cutoff) ==> FromWindow(x, t.articles, feedId, cutoff)
    ensures forall a :: a in t.articles && InWindow(a, feedId, cutoff) ==> HasRow(a, WindowRows(t, feedId, cutoff))
  {
    var j := JoinRows(t.articles, t.summaries, feedId, cutoff);
    var r := WindowRows(t, feedId, cutoff);
    SortByMembers(j, NewerRow);
    JoinRowsSpec(t.articles, t.summaries, feedId, cutoff);
    forall a | a in t.articles && InWindow(a, feedId, cutoff)
      ensures HasRow(a, r)
    {
      var x :| x in j && RowOf(x, a);
      assert x in r;
    }
  }

  lemma WindowRowsSorted(t: Tables, feedId: Uuid, cutoff: Time)
    ensures SortedBy(WindowRows(t, feedId, cutoff), NewerRow)
  {
    assert Total(NewerRow);
    SortBySorted(JoinRows(t.articles, t.summaries, feedId, cutoff), NewerRow);
  }

  // ---------------------------------------------------------------------------
  // Aggregated summary: the groups
  // ---------------------------------------------------------------------------

  /**
   * The group for one requested id: none for a missing or inactive feed, or
   * for a feed without articles in the window.
   */
  function GroupFor(t: Tables, feedId: Uuid, cutoff: Time): Option<FeedSummaryInfo> {
    match FindFeed(t.feeds, feedId)
    case None => None
    case Some(feed) =>
      if !feed.active then None
      else
        var rows := WindowRows(t, feedId, cutoff);
        if |rows| > 0 then Some(FeedSummaryInfo(feedId, feed.title, |rows|, rows)) else None
  }

  /** The groups emitted for the requested ids, in request order. */
  function Groups(t: Tables, ids: seq<Uuid>, cutoff: Time): seq<FeedSummaryInfo>
    decreases |ids|
  {
    if ids == [] then []
    else
      var g := GroupFor(t, ids[|ids| - 1], cutoff);
      Groups(t, ids[..|ids| - 1], cutoff) + (if g.Some? then [g.value] else [])
  }

  /** The sum of the groups' article counts. */
  function SumCounts(groups: seq<FeedSummaryInfo>): int
    decreases |groups|
  {
    if groups == [] then 0
    else SumCounts(groups[..|groups| - 1]) + groups[|groups| - 1].articleCount
  }

  /** The groups of a concatenation of requests are the concatenation of their groups. */
  lemma {:induction false} GroupsAppend(t: Tables, a: seq<Uuid>, b: seq<Uuid>, cutoff: Time)
    ensures Groups(t, a + b, cutoff) == Groups(t, a, cutoff) + Groups(t, b, cutoff)
    decreases |b|
  {
    if b == [] {
      assert a + b == a;
    } else {
      var b' := b[..|b| - 1];
      assert (a + b)[..|a + b| - 1] == a + b';
      assert (a + b)[|a + b| - 1] == b[|b| - 1];
      GroupsAppend(t, a, b', cutoff);
    }
  }

  /** Splitting the request anywhere splits its groups there. */
  lemma GroupsSplit(t: Tables, ids: seq<Uuid>, cutoff: Time)
    ensures forall k :: 0 <= k <= |ids| ==>
      Groups(t, ids, cutoff) == Groups(t, ids[..k], cutoff) + Groups(t, ids[k..], cutoff)
  {
    forall k | 0 <= k <= |ids|
      ensures Groups(t, ids, cutoff) == Groups(t, ids[..k], cutoff) + Groups(t, ids[k..], cutoff)
    {
      assert ids[..k] + ids[k..] == ids;
      GroupsAppend(t, ids[..k], ids[k..], cutoff);
    }
  }

  /** A group's fields for a feed whose group is emitted. */
  predicate WellFormedGroup(t: Tables, g: FeedSummaryInfo, cutoff: Time) {
    && FindFeed(t.feeds, g.feedId).Some?
    && FindFeed(t.feeds, g.feedId).value.active
    && g.feedTitle == FindFeed(t.feeds, g.feedId).value.title
    && g.articles == WindowRows(t, g.feedId, cutoff)
    && g.articleCount == |g.articles| > 0
  }

  /** The feed has a group: it exists, is active and has an article in the window. */
  predicate Emits(t: Tables, feedId: Uuid, cutoff: Time) {
    && FindFeed(t.feeds, feedId).Some?
    && FindFeed(t.feeds, feedId).value.active
    && exists a :: a in t.articles && InWindow(a, feedId, cutoff)
  }


  lemma GroupForSpec(t: Tables, feedId: Uuid, cutoff: Time)
    ensures GroupFor(t, feedId, cutoff).Some? <==> Emits(t, feedId, cutoff)
    ensures GroupFor(t, feedId, cutoff).Some? ==>
      GroupFor(t, feedId, cutoff).value.feedId == feedId && WellFormedGroup(t, GroupFor(t, feedId, cutoff).value, cutoff)
  {
    WindowRowsSpec(t, feedId, cutoff);
  }

  /**
   * Each emitted group belongs to a requested, existing, active feed with
   * articles in the window, and carries that feed's rows with their count;
   * each requested feed that qualifies has its group. The groups come in
   * request order: those of an earlier part of the request precede those of
   * a later part.
   */
  lemma {:induction false} GroupsSpec(t: Tables, ids: seq<Uuid>, cutoff: Time)
    ensures forall g :: g in Groups(t, ids, cutoff) ==> g.feedId in ids && WellFormedGroup(t, g, cutoff)
    ensures forall id :: id in ids && Emits(t, id, cutoff) ==> exists g :: g in Groups(t, ids, cutoff) && g.feedId == id
    ensures Groups(t, ids, cutoff) == [] <==> forall id :: id in ids ==> !Emits(t, id, cutoff)
    ensures forall k :: 0 <= k <= |ids| ==>
      Groups(t, ids, cutoff) == Groups(t, ids[..k], cutoff) + Groups(t, ids[k..], cutoff)
    decreases |ids|
  {
    GroupsSplit(t, ids, cutoff);
    if ids != [] {
      var init := ids[..|ids| - 1];
      var last := ids[|ids| - 1];
      GroupsSpec(t, init, cutoff);
      GroupForSpec(t, last, cutoff);
      assert forall id :: id in ids <==> id in init || id == last;
      var gs := Groups(t, ids, cutoff);
      var g := GroupFor(t, last, cutoff);
      assert gs == Groups(t, init, cutoff) + (if g.Some? then [g.value] else []);
      forall id | id in ids && Emits(t, id, cutoff)
        ensures exists x :: x in gs && x.feedId == id
      {
        if id in init {
          var x :| x in Groups(t, init, cutoff) && x.feedId == id;
          assert x in gs;
        } else {
          assert g.value in gs;
        }
      }
    }
  }

  /** The groups of one more requested id. */
  lemma GroupsStep(t: Tables, ids: seq<Uuid>, i: nat, cutoff: Time)
    requires i < |ids|
    ensures var g := GroupFor(t, ids[i], cutoff);
      Groups(t, ids[..i + 1], cutoff) == Groups(t, ids[..i], cutoff) + (if g.Some? then [g.value] else [])
  {
    assert ids[..i + 1][..i] == ids[..i];
  }

  lemma SumCountsSnoc(groups: seq<FeedSummaryInfo>, g: FeedSummaryInfo)
    ensures SumCounts(groups + [g]) == SumCounts(groups) + g.articleCount
  {
    assert (groups + [g])[..|groups|] == groups;
  }

  /** The running total kept by the loop is the sum of the emitted groups' counts. */
  method AggregateFeeds(db: Database, feedIds: seq<Uuid>, cutoff: Time) returns (groups: seq<FeedSummaryInfo>, total: int)
    ensures groups == Groups(db.Snapshot(), feedIds, cutoff)
    ensures total == SumCounts(groups)
  {
    ghost var t := db.Snapshot();
    groups := [];
    total := 0;
    for i := 0 to |feedIds|
      invariant groups == Groups(t, feedIds[..i], cutoff)
      invariant total == SumCounts(groups)
    {
      var feedId := feedIds[i];
      GroupsStep(t, feedIds, i, cutoff);
      ghost var g := GroupFor(t, feedId, cutoff);
      var info := FindFeed(db.feeds, feedId);
      if info.None? {
        assert g == None;
        continue;
      }
      if !info.value.active {
        assert g == None;
        continue;
      }
      var articles := WindowRows(db.Snapshot(), feedId, cutoff);
      var count := |articles|;
      total := total + count;
      if count > 0 {
        var group := FeedSummaryInfo(feedId, info.value.title, count, articles);
        assert g == Some(group);
        SumCountsSnoc(groups, group);
        groups := groups + [group];
      } else {
        assert g == None;
      }
    }
    assert feedIds[..|feedIds|] == feedIds;
  }

  /**
   * POST /feeds/aggregate-summary. `summarize` maps the groups and the hour
   * count to the summarizer's answer.
   */
  function AggregatedSummary(t: Tables, req: FeedAggregationRequest, now: Time,
                             summarize: (seq<FeedSummaryInfo>, int) -> Reply): (r: Result<FeedAggregationResponse>)
    ensures r.Err? ==> r.error.BadRequest? || r.error == NotFound(NoArticlesInRange) || r.error.SummarizationError?
    ensures r.Ok? ==> r.value.feeds != [] && 1 <= r.value.timeRangeHours <= MaxHoursBack
  {
    match ValidateAggregation(req)
    case Err(e) => Err(e)
    case Ok(hours) =>
      var groups := Groups(t, req.feedIds, Cutoff(now, hours));
      if groups == [] then Err(NotFound(NoArticlesInRange))
      else
        match summarize(groups, hours)
        case Failed(e) => Err(SummarizationError(e))
        case Produced(text) => Ok(FeedAggregationResponse(text, groups, SumCounts(groups), hours))
  }

  method CreateAggregatedSummary(db: Database, req: FeedAggregationRequest, now: Time,
                                 summarize: (seq<FeedSummaryInfo>, int) -> Reply)
    returns (r: Result<FeedAggregationResponse>)
    ensures r == AggregatedSummary(db.Snapshot(), req, now, summarize)
  {
    var hours := HoursBack(req);
    if |req.feedIds| == 0 {
      return Err(BadRequest(NoFeedIds));
    }
    if hours <= 0 || hours > MaxHoursBack {
      return Err(BadRequest(HoursOutOfRange));
    }
    var cutoff := Cutoff(now, hours);
    var groups, total := AggregateFeeds(db, req.feedIds, cutoff);
    if |groups| == 0 {
      return Err(NotFound(NoArticlesInRange));
    }
    var answer := summarize(groups, hours);
    if answer.Failed? {
      return Err(SummarizationError(answer.reason));
    }
    r := Ok(FeedAggregationResponse(answer.text, groups, total, hours));
  }

  /**
   * Validation comes first: no ids is rejected whatever the hours, and then
   * an hour count outside 1..168 is rejected; 1 and 168 themselves pass.
   */
  lemma AggregationValidation(t: Tables, req: FeedAggregationRequest, now: Time,
                              summarize: (seq<FeedSummaryInfo>, int) -> Reply)
    ensures req.feedIds == [] ==> AggregatedSummary(t, req, now, summarize) == Err(BadRequest(NoFeedIds))
    ensures req.feedIds != [] && (HoursBack(req) <= 0 || HoursBack(req) > 168) ==>
      AggregatedSummary(t, req, now, summarize) == Err(BadRequest(HoursOutOfRange))
    ensures req.feedIds != [] && (req.hoursBack == Some(1) || req.hoursBack == Some(168) || req.hoursBack.None?) ==>
      ValidateAggregation(req).Ok?
  {
  }

  /**
   * With nothing to summarise the answer is NotFound and the summarizer is
   * not consulted: any summarizer gives the same answer.
   */
  lemma AggregationNothingInRange(t: Tables, req: FeedAggregationRequest, now: Time,
                                  s1: (seq<FeedSummaryInfo>, int) -> Reply, s2: (seq<FeedSummaryInfo>, int) -> Reply)
    requires ValidateAggregation(req).Ok?
    requires forall id :: id in req.feedIds ==> !Emits(t, id, Cutoff(now, HoursBack(req)))
    ensures AggregatedSummary(t, req, now, s1) == Err(NotFound(NoArticlesInRange))
    ensures AggregatedSummary(t, req, now, s1) == AggregatedSummary(t, req, now, s2)
  {
    GroupsSpec(t, req.feedIds, Cutoff(now, HoursBack(req)));
  }

  /**
   * A successful answer reports the window it used, the groups of the
   * requested feeds in request order, and a total equal to the sum of the
   * groups' counts; every group is a qualifying feed's newest-first rows.
   */
  lemma AggregationSuccess(t: Tables, req: FeedAggregationRequest, now: Time,
                           summarize: (seq<FeedSummaryInfo>, int) -> Reply)
    requires AggregatedSummary(t, req, now, summarize).Ok?
    ensures var resp := AggregatedSummary(t, req, now, summarize).value;
      var cutoff := Cutoff(now, HoursBack(req));
      && resp.timeRangeHours == HoursBack(req)
      && 1 <= resp.timeRangeHours <= MaxHoursBack
      && resp.feeds == Groups(t, req.feedIds, cutoff)
      && resp.feeds != []
      && resp.totalArticles == SumCounts(resp.feeds)
      && summarize(resp.feeds, resp.timeRangeHours) == Produced(resp.summary)
      && (forall g :: g in resp.feeds ==>
            g.feedId in req.feedIds && WellFormedGroup(t, g, cutoff) && SortedBy(g.articles, NewerRow))
  {
    var cutoff := Cutoff(now, HoursBack(req));
    GroupsSpec(t, req.feedIds, cutoff);
    forall g | g in Groups(t, req.feedIds, cutoff) ensures SortedBy(g.articles, NewerRow) {
      WindowRowsSpec(t, g.feedId, cutoff);
    }
  }

  /** Every group counts at least one article, so the total is at least the number of groups. */
  lemma {:induction false} SumCountsBound(t: Tables, groups: seq<FeedSummaryInfo>, cutoff: Time)
    requires forall g :: g in groups ==> WellFormedGroup(t, g, cutoff)
    ensures SumCounts(groups) >= |groups|
    decreases |groups|
  {
    if groups != [] {
      var init := groups[..|groups| - 1];
      assert forall g :: g in init ==> g in groups;
      SumCountsBound(t, init, cutoff);
      assert groups[|groups| - 1] in groups;
    }
  }
}
