/**
 * The article routes: listing articles a page at a time, reading one
 * article, listing the articles of one feed, and the bulk fetch, which first
 * refreshes the requested feeds and then runs a filtered, paged query, a
 * count with the same filter, and a per-feed count.
 *
 * The bulk fetch assembles its SQL text and its bound values separately; the
 * builders below produce both, and `BulkFetchResult` states what the
 * database answers to them.
 */
module Articles {
  import opened Errors
  import opened Decimal
  import opened Ordering
  import opened SqlText
  import opened Models
  import opened Store
  import opened Ingestion

  // ---------------------------------------------------------------------------
  // Paging
  // ---------------------------------------------------------------------------

  const DefaultListLimit: int := 20
  const DefaultBulkLimit: int := 100

  /** What the database reports for a negative LIMIT or OFFSET. */
  const NegativePaging := "LIMIT and OFFSET must not be negative"

  /** The limit and offset of a request: absent values take the defaults. */
  function Paging(limit: Option<int>, offset: Option<int>, defaultLimit: int): (p: (int, int))
    ensures p.0 == (if limit.Some? then limit.value else defaultLimit)
    ensures p.1 == (if offset.Some? then offset.value else 0)
  {
    (UnwrapOr(limit, defaultLimit), UnwrapOr(offset, 0))
  }

  /** LIMIT `limit` OFFSET `offset` */
  function Page<T>(rows: seq<T>, limit: nat, offset: nat): (r: seq<T>)
    ensures |r| <= limit
    ensures IsWindow(r, rows, limit, offset)
  {
    if offset >= |rows| then [] else rows[offset..offset + Min(limit, |rows| - offset)]
  }

  /**
   * `r` is the LIMIT `limit` OFFSET `offset` window of `rows`: the rows from
   * position `offset` on, as many as the limit allows and the rows supply.
   */
  predicate IsWindow<T(==)>(r: seq<T>, rows: seq<T>, limit: int, offset: int) {
    && 0 <= offset
    && |r| == (if offset >= |rows| then 0 else Min(limit, |rows| - offset))
    && (forall i :: 0 <= i < |r| ==> r[i] == rows[offset + i])
  }

  function Min(a: int, b: int): int {
    if a <= b then a else b
  }

  /** A page of rows in order is in order. */
  lemma PageSorted<T>(rows: seq<T>, limit: nat, offset: nat, le: (T, T) -> bool)
    requires SortedBy(rows, le)
    ensures SortedBy(Page(rows, limit, offset), le)
  {
    var r := Page(rows, limit, offset);
    forall i | 0 < i < |r| ensures le(r[i - 1], r[i]) {
      assert r[i - 1] == rows[offset + i - 1] && r[i] == rows[offset + i];
    }
  }

  /** ORDER BY published_at DESC */
  function NewestFirst(articles: seq<Article>): seq<Article> {
    SortBy(articles, NewerOrSame)
  }

  lemma NewestFirstSpec(articles: seq<Article>)
    ensures SortedBy(NewestFirst(articles), NewerOrSame)
    ensures multiset(NewestFirst(articles)) == multiset(articles)
  {
    assert Total(NewerOrSame);
    SortBySorted(articles, NewerOrSame);
  }

  // ---------------------------------------------------------------------------
  // Listing and reading
  // ---------------------------------------------------------------------------

  datatype ArticleQuery = ArticleQuery(feedId: Option<Uuid>, limit: Option<int>, offset: Option<int>)

  /** WHERE feed_id = $1 */
  function OfFeed(articles: seq<Article>, feedId: Uuid): (r: seq<Article>)
    ensures forall a :: a in r <==> a in articles && a.feedId == feedId
    ensures |r| <= |articles|
    decreases |articles|
  {
    if articles == [] then []
    else (if articles[0].feedId == feedId then [articles[0]] else []) + OfFeed(articles[1..], feedId)
  }

  /** A newest-first page of `rows`, or the database's refusal of a negative limit or offset. */
  function PagedNewestFirst(rows: seq<Article>, limit: int, offset: int): Result<seq<Article>> {
    if limit < 0 || offset < 0 then Err(DatabaseError(NegativePaging))
    else Ok(Page(NewestFirst(rows), limit, offset))
  }

  /** The rows a listing reads: the feed's articles when a feed is named, otherwise all of them. */
  function ListedRows(t: Tables, feedId: Option<Uuid>): seq<Article> {
    if feedId.Some? then OfFeed(t.articles, feedId.value) else t.articles
  }

  /** GET /articles */
  function ListArticles(t: Tables, q: ArticleQuery): Result<seq<Article>> {
    var (limit, offset) := Paging(q.limit, q.offset, DefaultListLimit);
    PagedNewestFirst(ListedRows(t, q.feedId), limit, offset)
  }

  /**
   * A listed page holds at most `limit` stored articles (20 by default), of
   * the requested feed when one is given, newest first: exactly the rows
   * from position `offset` (0 by default) of the newest-first order, as many
   * as the limit allows and the rows supply.
   */
  lemma ListArticlesSpec(t: Tables, q: ArticleQuery)
    requires ListArticles(t, q).Ok?
    ensures var r := ListArticles(t, q).value;
      var offset := if q.offset.Some? then q.offset.value else 0;
      var limit := if q.limit.Some? then q.limit.value else 20;
      var rows := NewestFirst(ListedRows(t, q.feedId));
      && IsWindow(r, rows, limit, offset)
      && |r| <= limit
      && SortedBy(r, NewerOrSame)
      && (forall a :: a in r ==> a in t.articles)
      && (q.feedId.Some? ==> forall a :: a in r ==> a.feedId == q.feedId.value)
  {
    var (limit, offset) := Paging(q.limit, q.offset, DefaultListLimit);
    PagedNewestFirstSpec(ListedRows(t, q.feedId), limit, offset);
  }

  /** The page is the `offset`/`limit` window of the newest-first rows. */
  lemma PagedNewestFirstSpec(rows: seq<Article>, limit: int, offset: int)
    requires PagedNewestFirst(rows, limit, offset).Ok?
    ensures var r := PagedNewestFirst(rows, limit, offset).value;
      && IsWindow(r, NewestFirst(rows), limit, offset)
      && |r| <= limit
      && SortedBy(r, NewerOrSame)
      && (forall a :: a in r ==> a in rows)
  {
    NewestFirstSpec(rows);
    var sorted := NewestFirst(rows);
    assert |sorted| == |multiset(sorted)| == |rows|;
    PageSorted(sorted, limit, offset, NewerOrSame);
    var r := Page(sorted, limit, offset);
    forall a | a in r ensures a in rows {
      var i :| 0 <= i < |r| && r[i] == a;
      assert sorted[offset + i] in multiset(sorted);
    }
  }

  /** GET /articles/:id */
  function GetArticle(t: Tables, id: Uuid): (r: Result<Article>)
    ensures r.Ok? <==> exists a :: a in t.articles && a.id == id
    ensures r.Ok? ==> r.value in t.articles && r.value.id == id
    ensures r.Err? ==> r.error == NotFound("Article with ID " + UuidText(id) + " not found")
  {
    match FindArticle(t.articles, id)
    case None => Err(NotFound("Article with ID " + UuidText(id) + " not found"))
    case Some(a) => Ok(a)
  }

  /** GET /feeds/:feed_id/articles */
  function GetFeedArticles(t: Tables, feedId: Uuid, q: ArticleQuery): (r: Result<seq<Article>>)
    ensures FindFeed(t.feeds, feedId).None? ==> r == Err(NotFoundFeed(feedId))
  {
    if FindFeed(t.feeds, feedId).None? then Err(NotFoundFeed(feedId))
    else
      var (limit, offset) := Paging(q.limit, q.offset, DefaultListLimit);
      PagedNewestFirst(OfFeed(t.articles, feedId), limit, offset)
  }

  /**
   * An existing feed's page holds at most `limit` of its own articles,
   * newest first: the window from position `offset` of the feed's articles
   * in newest-first order.
   */
  lemma GetFeedArticlesSpec(t: Tables, feedId: Uuid, q: ArticleQuery)
    requires GetFeedArticles(t, feedId, q).Ok?
    ensures FindFeed(t.feeds, feedId).Some?
    ensures var r := GetFeedArticles(t, feedId, q).value;
      var offset := if q.offset.Some? then q.offset.value else 0;
      var limit := if q.limit.Some? then q.limit.value else 20;
      var rows := NewestFirst(OfFeed(t.articles, feedId));
      && IsWindow(r, rows, limit, offset)
      && |r| <= limit
      && SortedBy(r, NewerOrSame)
      && (forall a :: a in r ==> a in t.articles && a.feedId == feedId)
  {
    var (limit, offset) := Paging(q.limit, q.offset, DefaultListLimit);
    var rows := OfFeed(t.articles, feedId);
    assert GetFeedArticles(t, feedId, q) == PagedNewestFirst(rows, limit, offset);
    PagedNewestFirstSpec(rows, limit, offset);
  }

  // ---------------------------------------------------------------------------
  // Bulk fetch: the SQL text and the bound values
  // ---------------------------------------------------------------------------

  datatype BulkFetchRequest = BulkFetchRequest(
    feedIds: seq<Uuid>,
    startDate: Option<Time>,
    endDate: Option<Time>,
    limit: Option<int>,
    offset: Option<int>)

  /** A value bound to a parameter. */
  datatype BindValue = BindUuid(id: Uuid) | BindTime(time: Time) | BindInt(n: int)

  /** A statement's text with the values bound to its parameters, in order. */
  datatype Prepared = Prepared(sql: string, binds: seq<BindValue>)

  /** The values of the filter parameters: the feed ids, then the start date, then the end date. */
  function FilterBinds(req: BulkFetchRequest): (r: seq<BindValue>)
    ensures |r| == |req.feedIds| + (if req.startDate.Some? then 1 else 0) + (if req.endDate.Some? then 1 else 0)
  {
    seq(|req.feedIds|, i requires 0 <= i < |req.feedIds| => BindUuid(req.feedIds[i]))
      + (if req.startDate.Some? then [BindTime(req.startDate.value)] else [])
      + (if req.endDate.Some? then [BindTime(req.endDate.value)] else [])
  }

  /** The binding loops: each feed id in order, then each date that is present. */
  method BindFilters(req: BulkFetchRequest) returns (binds: seq<BindValue>)
    ensures binds == FilterBinds(req)
    ensures forall i :: 0 <= i < |req.feedIds| ==> binds[i] == BindUuid(req.feedIds[i])
    ensures req.startDate.Some? ==> binds[|req.feedIds|] == BindTime(req.startDate.value)
    ensures req.endDate.Some? ==> binds[|binds| - 1] == BindTime(req.endDate.value)
  {
    binds := [];
    for i := 0 to |req.feedIds|
      invariant binds == seq(i, k requires 0 <= k < i => BindUuid(req.feedIds[k]))
    {
      binds := binds + [BindUuid(req.feedIds[i])];
    }
    if req.startDate.Some? {
      binds := binds + [BindTime(req.startDate.value)];
    }
    if req.endDate.Some? {
      binds := binds + [BindTime(req.endDate.value)];
    }
  }

  // The fixed pieces of the statements' text.
  function SelectHead(): string { "SELECT * FROM articles" }
  function OrderLimit(): string { " ORDER BY published_at DESC LIMIT " }
  function OffsetWord(): string { " OFFSET " }
  function CountHead(): string { "SELECT COUNT(*) as total FROM articles" }
  function WherePrefix(): string { " WHERE " }
  function AndSeparator(): string { " AND " }

  // None of the fixed pieces holds a parameter.

  lemma SelectFragments()
    ensures NoDollar(SelectHead()) && NoDollar(OrderLimit()) && Starts(OrderLimit())
  {
  }

  lemma OffsetFragment()
    ensures NoDollar(OffsetWord()) && Starts(OffsetWord())
  {
  }

  lemma CountFragment()
    ensures NoDollar(CountHead())
  {
  }

  lemma WhereFragment()
    ensures NoDollar(WherePrefix())
  {
  }

  lemma AndFragment()
    ensures NoDollar(AndSeparator()) && Starts(AndSeparator())
  {
  }

  /** The statement for the page of articles, given its WHERE clause and the next parameter number. */
  function SelectText(whereClause: string, k: nat): string {
    SelectHead() + whereClause + OrderLimit() + Param(k) + OffsetWord() + Param(k + 1)
  }

  function CountText(whereClause: string): string {
    CountHead() + whereClause
  }

  lemma SelectTextPlaceholders(whereClause: string, k: nat)
    requires k >= 1 && Placeholders(whereClause) == Consecutive(1, k - 1) && Separable(whereClause)
    ensures Placeholders(SelectText(whereClause, k)) == Consecutive(1, k + 1)
  {
    SelectFragments();
    OffsetFragment();
    PlaceholdersPrefixed(SelectHead(), whereClause);
    PagingPlaceholders(SelectHead() + whereClause, OrderLimit(), OffsetWord(), k);
    ConsecutiveAppend(1, k - 1, 2);
  }

  /** `<head><order>$k<offset>$k+1`: the paging parameters follow those of the head. */
  lemma PagingPlaceholders(head: string, order: string, offset: string, k: nat)
    requires NoDollar(order) && Starts(order) && NoDollar(offset) && Starts(offset)
    ensures Placeholders(head + order + Param(k) + offset + Param(k + 1)) == Placeholders(head) + [k, k + 1]
  {
    PlaceholdersSuffixed(head, order);
    PlaceholdersParam(k);
    PlaceholdersAppend(head + order, Param(k));
    PlaceholdersSuffixed(head + order + Param(k), offset);
    PlaceholdersParam(k + 1);
    PlaceholdersAppend(head + order + Param(k) + offset, Param(k + 1));
  }

  lemma CountTextPlaceholders(whereClause: string)
    requires Separable(whereClause)
    ensures Placeholders(CountText(whereClause)) == Placeholders(whereClause)
  {
    CountFragment();
    PlaceholdersPrefixed(CountHead(), whereClause);
  }

  /** `" WHERE " + conditions.join(" AND ")`, or nothing without conditions. */
  function WhereClause(conditions: seq<string>): (w: string)
    ensures w == "" <==> conditions == []
  {
    if conditions == [] then "" else WherePrefix() + Join(conditions, AndSeparator())
  }

  /** Conditions joined with `AND` keep their parameters, in order. */
  lemma JoinedPlaceholders(conditions: seq<string>)
    requires conditions != [] && forall i :: 0 <= i < |conditions| ==> Starts(conditions[i])
    ensures Separable(Join(conditions, AndSeparator()))
    ensures Placeholders(Join(conditions, AndSeparator())) == AllPlaceholders(conditions)
  {
    AndFragment();
    PlaceholdersJoin(conditions, AndSeparator());
    JoinStarts(conditions, AndSeparator());
  }

  lemma WhereClausePlaceholders(conditions: seq<string>)
    requires forall i :: 0 <= i < |conditions| ==> Starts(conditions[i])
    ensures Separable(WhereClause(conditions))
    ensures Placeholders(WhereClause(conditions)) == AllPlaceholders(conditions)
  {
    if conditions != [] {
      JoinedPlaceholders(conditions);
      WherePrefixed(Join(conditions, AndSeparator()));
    }
  }

  lemma WherePrefixed(s: string)
    requires Separable(s)
    ensures Separable(WherePrefix() + s)
    ensures Placeholders(WherePrefix() + s) == Placeholders(s)
  {
    WhereFragment();
    PlaceholdersPrefixed(WherePrefix(), s);
  }

  /** `<column> IN ($from, ..., $from+n-1)` */
  function InList(column: string, from: nat, n: nat): string {
    column + " IN (" + ParamList(from, n) + ")"
  }

  lemma InListPlaceholders(column: string, from: nat, n: nat)
    requires Starts(column) && NoDollar(column) && n > 0
    ensures Starts(InList(column, from, n))
    ensures Placeholders(InList(column, from, n)) == Consecutive(from, n)
  {
    ParamListPlaceholders(from, n);
    var list := ParamList(from, n);
    assert Separable(list) by {
      var parts := seq(n, i requires 0 <= i < n => Param(from + i));
      assert parts[0] == Param(from);
      assert Starts(parts[0]);
      JoinStarts(parts, ", ");
    }
    PlaceholdersWrapped(column + " IN (", list, ")");
  }

  /** `<column> <op> $k` */
  function Compare(column: string, op: string, k: nat): string {
    column + " " + op + " " + Param(k)
  }

  lemma ComparePlaceholders(column: string, op: string, k: nat)
    requires Starts(column) && NoDollar(column) && NoDollar(op)
    ensures Starts(Compare(column, op, k))
    ensures Placeholders(Compare(column, op, k)) == [k]
  {
    PlaceholdersParam(k);
    PlaceholdersPrefixed(column + " " + op + " ", Param(k));
  }

  /** `(<column> <op> $k OR a.id IS NULL)`: the condition also passes a feed's unmatched row. */
  function CompareOrUnmatched(column: string, op: string, k: nat): string {
    "(" + Compare(column, op, k) + " OR a.id IS NULL)"
  }

  lemma CompareOrUnmatchedPlaceholders(column: string, op: string, k: nat)
    requires Starts(column) && NoDollar(column) && NoDollar(op)
    ensures Starts(CompareOrUnmatched(column, op, k))
    ensures Placeholders(CompareOrUnmatched(column, op, k)) == [k]
  {
    ComparePlaceholders(column, op, k);
    PlaceholdersWrapped("(", Compare(column, op, k), " OR a.id IS NULL)");
  }

  /**
   * The conditions pushed so far: each starts with a column or a
   * parenthesis, and their parameters are 1, 2, ..., next - 1 in order.
   */
  predicate Numbered(conditions: seq<string>, next: nat) {
    && next >= 1
    && (forall i :: 0 <= i < |conditions| ==> Starts(conditions[i]))
    && AllPlaceholders(conditions) == Consecutive(1, next - 1)
  }

  /** A column name: it starts with a letter and holds no parameter. */
  predicate Column(column: string) {
    Starts(column) && NoDollar(column)
  }

  /** One condition more, whose parameters are next..next+n-1. */
  lemma AddCondition(conditions: seq<string>, c: string, next: nat, n: nat)
    requires Numbered(conditions, next)
    requires Starts(c) && Placeholders(c) == Consecutive(next, n)
    ensures Numbered(conditions + [c], next + n)
  {
    AllPlaceholdersSnoc(conditions, c);
    ConsecutiveAppend(1, next - 1, n);
  }

  lemma AddInList(conditions: seq<string>, column: string, next: nat, n: nat)
    requires Numbered(conditions, next) && Column(column) && n > 0
    ensures Numbered(conditions + [InList(column, next, n)], next + n)
  {
    InListPlaceholders(column, next, n);
    AddCondition(conditions, InList(column, next, n), next, n);
  }

  lemma AddCompare(conditions: seq<string>, column: string, op: string, next: nat)
    requires Numbered(conditions, next) && Column(column) && NoDollar(op)
    ensures Numbered(conditions + [Compare(column, op, next)], next + 1)
  {
    ComparePlaceholders(column, op, next);
    AddCondition(conditions, Compare(column, op, next), next, 1);
  }

  lemma AddCompareOrUnmatched(conditions: seq<string>, column: string, op: string, next: nat)
    requires Numbered(conditions, next) && Column(column) && NoDollar(op)
    ensures Numbered(conditions + [CompareOrUnmatched(column, op, next)], next + 1)
  {
    CompareOrUnmatchedPlaceholders(column, op, next);
    AddCondition(conditions, CompareOrUnmatched(column, op, next), next, 1);
  }

  /**
   * The filter conditions of the bulk query: `feed_id IN ($1, ..., $n)` for
   * n > 0 feed ids, then `published_at >= $k` when a start date is given,
   * then `published_at <= $k` for an end date, each date taking the next
   * parameter number.
   */
  function FilterConditions(req: BulkFetchRequest): seq<string> {
    var n := |req.feedIds|;
    var ids := if n > 0 then [InList(FeedIdColumn(), 1, n)] else [];
    var withStart := if req.startDate.Some? then ids + [Compare(PublishedColumn(), AtLeast(), n + 1)] else ids;
    var next := if req.startDate.Some? then n + 2 else n + 1;
    if req.endDate.Some? then withStart + [Compare(PublishedColumn(), AtMost(), next)] else withStart
  }

  /**
   * The conditions pushed in order, as `FilterConditions` lists them, and
   * the next parameter number.
   */
  method BuildConditions(req: BulkFetchRequest) returns (conditions: seq<string>, bindIndex: nat)
    ensures conditions == FilterConditions(req)
    ensures bindIndex == 1 + |FilterBinds(req)|
    ensures conditions == [] <==> req.feedIds == [] && req.startDate.None? && req.endDate.None?
    ensures Numbered(conditions, bindIndex)
  {
    conditions := [];
    bindIndex := 1;
    if |req.feedIds| > 0 {
      conditions := conditions + [InList(FeedIdColumn(), bindIndex, |req.feedIds|)];
      bindIndex := bindIndex + |req.feedIds|;
    }
    if req.startDate.Some? {
      conditions := conditions + [Compare(PublishedColumn(), AtLeast(), bindIndex)];
      bindIndex := bindIndex + 1;
    }
    if req.endDate.Some? {
      conditions := conditions + [Compare(PublishedColumn(), AtMost(), bindIndex)];
      bindIndex := bindIndex + 1;
    }
    FilterConditionsNumbered(req);
  }

  /** The filter conditions carry the parameters $1, $2, ... one per filter value. */
  lemma FilterConditionsNumbered(req: BulkFetchRequest)
    ensures Numbered(FilterConditions(req), 1 + |FilterBinds(req)|)
  {
    ConditionFragments();
    var n := |req.feedIds|;
    var ids := if n > 0 then [InList(FeedIdColumn(), 1, n)] else [];
    if n > 0 {
      AddInList([], FeedIdColumn(), 1, n);
      assert [] + [InList(FeedIdColumn(), 1, n)] == ids;
    }
    assert Numbered(ids, n + 1);
    var withStart := ids;
    if req.startDate.Some? {
      AddCompare(ids, PublishedColumn(), AtLeast(), n + 1);
      withStart := ids + [Compare(PublishedColumn(), AtLeast(), n + 1)];
    }
    var next := if req.startDate.Some? then n + 2 else n + 1;
    if req.endDate.Some? {
      AddCompare(withStart, PublishedColumn(), AtMost(), next);
    }
  }

  /**
   * The page query and the count query of a bulk fetch. Their parameters are
   * numbered 1, 2, ... without gaps, one per bound value, in the order the
   * values are bound; the count query has the same WHERE clause and the same
   * values without LIMIT and OFFSET.
   */
  method BuildBulkQueries(req: BulkFetchRequest, limit: int, offset: int)
    returns (whereClause: string, query: Prepared, count: Prepared)
    ensures whereClause == WhereClause(FilterConditions(req))
    ensures whereClause == "" <==> req.feedIds == [] && req.startDate.None? && req.endDate.None?
    ensures query.binds == FilterBinds(req) + [BindInt(limit), BindInt(offset)]
    ensures Placeholders(query.sql) == Consecutive(1, |query.binds|)
    ensures query.sql == SelectText(whereClause, |query.binds| - 1)
    ensures count.binds == FilterBinds(req)
    ensures Placeholders(count.sql) == Consecutive(1, |count.binds|)
    ensures count.sql == CountText(whereClause)
  {
    var conditions, bindIndex := BuildConditions(req);
    WhereClausePlaceholders(conditions);
    whereClause := WhereClause(conditions);
    SelectTextPlaceholders(whereClause, bindIndex);
    CountTextPlaceholders(whereClause);
    var queryBinds := BindFilters(req);
    queryBinds := queryBinds + [BindInt(limit), BindInt(offset)];
    query := Prepared(SelectText(whereClause, bindIndex), queryBinds);
    var countBinds := BindFilters(req);
    count := Prepared(CountText(whereClause), countBinds);
  }

  /** The line break and indentation inside the per-feed count statement. */
  function Indent(): string { "\n             " }
  function SummarySelect(): string { "SELECT f.id as feed_id, " + "f.title as feed_title, " + "COUNT(a.id) as article_count" }
  function JoinLine(): string { "LEFT JOIN articles a ON f.id = a.feed_id" }
  function SummaryFrom(): string { Indent() + "FROM feeds f" + Indent() + JoinLine() + Indent() + "WHERE " }
  function SummaryHead(): string { SummarySelect() + SummaryFrom() }
  function SummaryTail(): string { Indent() + "GROUP BY f.id, f.title" + Indent() + "ORDER BY f.title" }

  lemma SummaryFragments()
    ensures NoDollar(SummaryHead()) && NoDollar(SummaryTail()) && Separable(SummaryTail())
  {
    SummarySelectFragment();
    SummaryFromFragment();
    assert SummaryHead() == SummarySelect() + SummaryFrom();
  }

  lemma SummarySelectFragment()
    ensures NoDollar(SummarySelect())
  {
  }

  lemma SummaryFromFragment()
    ensures NoDollar(SummaryFrom())
  {
    JoinLineFragment();
  }

  lemma JoinLineFragment()
    ensures NoDollar(JoinLine())
  {
  }

  /** The columns and comparison operators the filter conditions use. */
  function FeedIdColumn(): string { "feed_id" }
  function PublishedColumn(): string { "published_at" }
  function JoinedFeedIdColumn(): string { "f.id" }
  function JoinedPublishedColumn(): string { "a.published_at" }
  function AtLeast(): string { ">=" }
  function AtMost(): string { "<=" }

  /** The columns and operators of the conditions. */
  lemma ConditionFragments()
    ensures Column(FeedIdColumn()) && Column(PublishedColumn())
    ensures Column(JoinedFeedIdColumn()) && Column(JoinedPublishedColumn())
    ensures NoDollar(AtLeast()) && NoDollar(AtMost())
  {
  }

  /** The per-feed conditions carry the parameters $1, $2, ... one per filter value. */
  lemma SummaryConditionsNumbered(req: BulkFetchRequest)
    requires req.feedIds != []
    ensures Numbered(SummaryConditions(req), 1 + |FilterBinds(req)|)
  {
    ConditionFragments();
    var n := |req.feedIds|;
    var ids := [InList(JoinedFeedIdColumn(), 1, n)];
    AddInList([], JoinedFeedIdColumn(), 1, n);
    assert [] + ids == ids;
    assert Numbered(ids, n + 1);
    var withStart := ids;
    if req.startDate.Some? {
      AddCompareOrUnmatched(ids, JoinedPublishedColumn(), AtLeast(), n + 1);
      withStart := ids + [CompareOrUnmatched(JoinedPublishedColumn(), AtLeast(), n + 1)];
    }
    var next := if req.startDate.Some? then n + 2 else n + 1;
    if req.endDate.Some? {
      AddCompareOrUnmatched(withStart, JoinedPublishedColumn(), AtMost(), next);
    }
  }

  /** The per-feed count statement around its conditions. */
  function SummaryText(conditions: seq<string>): string {
    WrappedJoin(SummaryHead(), conditions, AndSeparator(), SummaryTail())
  }

  lemma SummaryTextPlaceholders(conditions: seq<string>)
    requires conditions != [] && forall i :: 0 <= i < |conditions| ==> Starts(conditions[i])
    ensures Placeholders(SummaryText(conditions)) == AllPlaceholders(conditions)
  {
    SummaryFragments();
    AndFragment();
    PlaceholdersWrappedJoin(SummaryHead(), conditions, AndSeparator(), SummaryTail());
  }

  /**
   * The conditions of the per-feed count: `f.id IN ($1, ..., $n)`, then a
   * date condition on `a.published_at` that also lets a feed without
   * articles through, for each date that is given.
   */
  function SummaryConditions(req: BulkFetchRequest): seq<string> {
    var n := |req.feedIds|;
    var ids := [InList(JoinedFeedIdColumn(), 1, n)];
    var withStart := if req.startDate.Some? then ids + [CompareOrUnmatched(JoinedPublishedColumn(), AtLeast(), n + 1)] else ids;
    var next := if req.startDate.Some? then n + 2 else n + 1;
    if req.endDate.Some? then withStart + [CompareOrUnmatched(JoinedPublishedColumn(), AtMost(), next)] else withStart
  }

  /**
   * The per-feed count query: none without feed ids; otherwise the count
   * statement over `SummaryConditions`, whose parameters are numbered 1, 2,
   * ... one per bound value, in binding order.
   */
  method BuildFeedSummaryQuery(req: BulkFetchRequest) returns (q: Option<Prepared>)
    ensures q.None? <==> req.feedIds == []
    ensures q.Some? ==> q.value.sql == SummaryText(SummaryConditions(req))
    ensures q.Some? ==> q.value.binds == FilterBinds(req)
    ensures q.Some? ==> Placeholders(q.value.sql) == Consecutive(1, |q.value.binds|)
  {
    if |req.feedIds| == 0 {
      return None;
    }
    var conditions: seq<string> := [];
    var bindIndex: nat := 1;
    conditions := conditions + [InList(JoinedFeedIdColumn(), bindIndex, |req.feedIds|)];
    bindIndex := bindIndex + |req.feedIds|;
    if req.startDate.Some? {
      conditions := conditions + [CompareOrUnmatched(JoinedPublishedColumn(), AtLeast(), bindIndex)];
      bindIndex := bindIndex + 1;
    }
    if req.endDate.Some? {
      conditions := conditions + [CompareOrUnmatched(JoinedPublishedColumn(), AtMost(), bindIndex)];
      bindIndex := bindIndex + 1;
    }
    assert conditions == SummaryConditions(req);
    SummaryConditionsNumbered(req);
    SummaryTextPlaceholders(conditions);
    var binds := BindFilters(req);
    q := Some(Prepared(SummaryText(conditions), binds));
  }

  // ---------------------------------------------------------------------------
  // Bulk fetch: what the database answers
  // ---------------------------------------------------------------------------

  datatype FeedSummary = FeedSummary(feedId: Uuid, feedTitle: string, articleCount: nat)

  datatype BulkFetchResponse = BulkFetchResponse(
    articles: seq<Article>,
    totalCount: nat,
    feedSummaries: seq<FeedSummary>)

  /** The date conditions: on or after the start date and on or before the end date, when given. */
  predicate InDateRange(a: Article, startDate: Option<Time>, endDate: Option<Time>) {
    && (startDate.Some? ==> a.publishedAt >= startDate.value)
    && (endDate.Some? ==> a.publishedAt <= endDate.value)
  }

  /** The WHERE clause of the page and count queries. */
  predicate MatchesFilter(a: Article, req: BulkFetchRequest) {
    && (req.feedIds != [] ==> a.feedId in req.feedIds)
    && InDateRange(a, req.startDate, req.endDate)
  }

  function Matching(articles: seq<Article>, req: BulkFetchRequest): (r: seq<Article>)
    ensures forall a :: a in r <==> a in articles && MatchesFilter(a, req)
    ensures |r| <= |articles|
    decreases |articles|
  {
    if articles == [] then []
    else (if MatchesFilter(articles[0], req) then [articles[0]] else []) + Matching(articles[1..], req)
  }

  /** The number of the feed's articles inside the date range. */
  function CountInRange(articles: seq<Article>, feedId: Uuid, startDate: Option<Time>, endDate: Option<Time>): (n: nat)
    ensures n == 0 <==> forall a :: a in articles && a.feedId == feedId ==> !InDateRange(a, startDate, endDate)
    ensures n <= |articles|
    decreases |articles|
  {
    if articles == [] then 0
    else
      assert forall a :: a in articles ==> a == articles[0] || a in articles[1..];
      (if articles[0].feedId == feedId && InDateRange(articles[0], startDate, endDate) then 1 else 0)
        + CountInRange(articles[1..], feedId, startDate, endDate)
  }

  /**
   * The per-feed row of the LEFT JOIN count. A feed without any article
   * keeps its single unmatched row and counts 0; a feed whose articles all
   * fall outside the dates loses every row to the date conditions and is not
   * listed at all.
   */
  function FeedSummaryRow(t: Tables, f: Feed, req: BulkFetchRequest): Option<FeedSummary> {
    if forall a :: a in t.articles ==> a.feedId != f.id then Some(FeedSummary(f.id, f.title, 0))
    else
      var n := CountInRange(t.articles, f.id, req.startDate, req.endDate);
      if n == 0 then None else Some(FeedSummary(f.id, f.title, n))
  }

  /** The feeds named in the request, in table order. */
  function SelectedFeeds(feeds: seq<Feed>, ids: seq<Uuid>): (r: seq<Feed>)
    ensures forall f :: f in r <==> f in feeds && f.id in ids
    decreases |feeds|
  {
    if feeds == [] then []
    else (if feeds[0].id in ids then [feeds[0]] else []) + SelectedFeeds(feeds[1..], ids)
  }

  function SummaryRows(t: Tables, feeds: seq<Feed>, req: BulkFetchRequest): seq<FeedSummary>
    decreases |feeds|
  {
    if feeds == [] then []
    else
      var row := FeedSummaryRow(t, feeds[0], req);
      (if row.Some? then [row.value] else []) + SummaryRows(t, feeds[1..], req)
  }

  /** The per-feed counts, in title order; none without feed ids. */
  function FeedSummaries(t: Tables, req: BulkFetchRequest): seq<FeedSummary> {
    if req.feedIds == [] then []
    else SummaryRows(t, SortBy(SelectedFeeds(t.feeds, req.feedIds), FeedTitleLe), req)
  }

  /** The response to the page, count and per-feed queries, in the state after the refreshes. */
  function BulkFetchResult(t: Tables, req: BulkFetchRequest): Result<BulkFetchResponse> {
    var (limit, offset) := Paging(req.limit, req.offset, DefaultBulkLimit);
    if limit < 0 || offset < 0 then Err(DatabaseError(NegativePaging))
    else
      var matching := Matching(t.articles, req);
      Ok(BulkFetchResponse(Page(NewestFirst(matching), limit, offset), |matching|, FeedSummaries(t, req)))
  }

  /**
   * The page holds at most `limit` matching articles (100 by default),
   * newest first: the window from position `offset` (0 by default) of the
   * matching articles in newest-first order. The total counts every
   * matching article, so it is never below the page size; per-feed counts
   * exist only when feed ids are given.
   */
  lemma BulkFetchResultSpec(t: Tables, req: BulkFetchRequest)
    requires BulkFetchResult(t, req).Ok?
    ensures var r := BulkFetchResult(t, req).value;
      var offset := if req.offset.Some? then req.offset.value else 0;
      var limit := if req.limit.Some? then req.limit.value else 100;
      var rows := NewestFirst(Matching(t.articles, req));
      && IsWindow(r.articles, rows, limit, offset)
      && |r.articles| <= limit
      && SortedBy(r.articles, NewerOrSame)
      && (forall a :: a in r.articles ==> a in t.articles && MatchesFilter(a, req))
      && r.totalCount == |Matching(t.articles, req)|
      && |r.articles| <= r.totalCount
      && (req.feedIds == [] ==> r.feedSummaries == [])
  {
    var (limit, offset) := Paging(req.limit, req.offset, DefaultBulkLimit);
    var matching := Matching(t.articles, req);
    PagedNewestFirstSpec(matching, limit, offset);
    assert PagedNewestFirst(matching, limit, offset).value == BulkFetchResult(t, req).value.articles;
    NewestFirstSpec(matching);
    assert |NewestFirst(matching)| == |matching|;
  }

  /** The feed some per-feed row came from. */
  predicate RowOfFeed(t: Tables, feeds: seq<Feed>, req: BulkFetchRequest, s: FeedSummary) {
    exists f :: f in feeds && f.id == s.feedId && f.title == s.feedTitle
      && s.articleCount == CountInRange(t.articles, f.id, req.startDate, req.endDate)
  }

  predicate HasNoArticles(t: Tables, feedId: Uuid) {
    forall a :: a in t.articles ==> a.feedId != feedId
  }

  /**
   * Each per-feed row comes from one of the feeds, with the number of its
   * articles in the date range, and that number is positive unless the feed
   * has no articles at all; a feed with an article in range is listed, and
   * one with no articles at all is listed with 0.
   */
  lemma {:induction false} SummaryRowsSpec(t: Tables, feeds: seq<Feed>, req: BulkFetchRequest)
    ensures forall s :: s in SummaryRows(t, feeds, req) ==> RowOfFeed(t, feeds, req, s)
    ensures forall s :: s in SummaryRows(t, feeds, req) ==> s.articleCount > 0 || HasNoArticles(t, s.feedId)
    ensures forall f :: f in feeds && CountInRange(t.articles, f.id, req.startDate, req.endDate) > 0 ==>
      FeedSummary(f.id, f.title, CountInRange(t.articles, f.id, req.startDate, req.endDate)) in SummaryRows(t, feeds, req)
    ensures forall f :: f in feeds && HasNoArticles(t, f.id) ==> FeedSummary(f.id, f.title, 0) in SummaryRows(t, feeds, req)
    decreases |feeds|
  {
    if feeds != [] {
      SummaryRowsSpec(t, feeds[1..], req);
      var f0 := feeds[0];
      var row := FeedSummaryRow(t, f0, req);
      var rest := SummaryRows(t, feeds[1..], req);
      assert SummaryRows(t, feeds, req) == (if row.Some? then [row.value] else []) + rest;
      assert forall f :: f in feeds ==> f == f0 || f in feeds[1..];
      if row.Some? && HasNoArticles(t, f0.id) {
        assert CountInRange(t.articles, f0.id, req.startDate, req.endDate) == 0;
      }
      forall s | s in SummaryRows(t, feeds, req) ensures RowOfFeed(t, feeds, req, s) {
        if s !in rest {
          assert f0 in feeds;
        } else {
          var f :| f in feeds[1..] && f.id == s.feedId && f.title == s.feedTitle
            && s.articleCount == CountInRange(t.articles, f.id, req.startDate, req.endDate);
          assert f in feeds;
        }
      }
    }
  }

  /** The selected feeds, in title order, when feed ids are given. */
  lemma FeedSummariesRows(t: Tables, req: BulkFetchRequest)
    requires req.feedIds != []
    ensures forall f :: f in SortBy(SelectedFeeds(t.feeds, req.feedIds), FeedTitleLe) <==> f in t.feeds && f.id in req.feedIds
  {
    SortByMembers(SelectedFeeds(t.feeds, req.feedIds), FeedTitleLe);
  }

  /** A requested feed with an article in the date range is listed with the number of them. */
  lemma FeedSummariesInRange(t: Tables, req: BulkFetchRequest, f: Feed)
    requires f in t.feeds && f.id in req.feedIds
    requires CountInRange(t.articles, f.id, req.startDate, req.endDate) > 0
    ensures FeedSummary(f.id, f.title, CountInRange(t.articles, f.id, req.startDate, req.endDate)) in FeedSummaries(t, req)
  {
    FeedSummariesRows(t, req);
    SummaryRowsSpec(t, SortBy(SelectedFeeds(t.feeds, req.feedIds), FeedTitleLe), req);
  }

  /** A requested feed without any article is listed with a count of 0. */
  lemma FeedSummariesNoArticles(t: Tables, req: BulkFetchRequest, f: Feed)
    requires f in t.feeds && f.id in req.feedIds && HasNoArticles(t, f.id)
    ensures FeedSummary(f.id, f.title, 0) in FeedSummaries(t, req)
  {
    FeedSummariesRows(t, req);
    SummaryRowsSpec(t, SortBy(SelectedFeeds(t.feeds, req.feedIds), FeedTitleLe), req);
  }

  /**
   * A requested feed that has articles, all outside the date range, is left
   * out of the per-feed counts altogether; every listed row belongs to a
   * requested, stored feed.
   */
  lemma FeedSummariesOutOfRange(t: Tables, req: BulkFetchRequest, f: Feed)
    requires f in t.feeds && f.id in req.feedIds
    requires !HasNoArticles(t, f.id)
    requires forall a :: a in t.articles && a.feedId == f.id ==> !InDateRange(a, req.startDate, req.endDate)
    ensures forall s :: s in FeedSummaries(t, req) ==> s.feedId != f.id
  {
    var feeds := SortBy(SelectedFeeds(t.feeds, req.feedIds), FeedTitleLe);
    SummaryRowsSpec(t, feeds, req);
    assert CountInRange(t.articles, f.id, req.startDate, req.endDate) == 0;
  }

  /** ORDER BY f.title, on the per-feed rows. */
  predicate RowTitleLe(a: FeedSummary, b: FeedSummary) {
    LexLe(a.feedTitle, b.feedTitle)
  }

  /**
   * The rows of feeds in title order are in title order, and none comes
   * before the first feed's title.
   */
  lemma {:induction false} SummaryRowsTitleOrdered(t: Tables, feeds: seq<Feed>, req: BulkFetchRequest)
    requires SortedBy(feeds, FeedTitleLe)
    ensures SortedBy(SummaryRows(t, feeds, req), RowTitleLe)
    ensures SummaryRows(t, feeds, req) != [] ==> LexLe(feeds[0].title, SummaryRows(t, feeds, req)[0].feedTitle)
    decreases |feeds|
  {
    if feeds != [] {
      var rest := SummaryRows(t, feeds[1..], req);
      var row := FeedSummaryRow(t, feeds[0], req);
      SummaryRowsTitleOrdered(t, feeds[1..], req);
      LexLeTotal(feeds[0].title, feeds[0].title);
      if rest != [] {
        assert LexLe(feeds[0].title, feeds[1].title);
        LexLeTransitive(feeds[0].title, feeds[1].title, rest[0].feedTitle);
      }
      if row.Some? {
        var r := [row.value] + rest;
        assert SummaryRows(t, feeds, req) == r;
        forall i | 0 < i < |r| ensures RowTitleLe(r[i - 1], r[i]) {
          if i > 1 { assert r[i - 1] == rest[i - 2] && r[i] == rest[i - 1]; }
        }
      } else {
        assert SummaryRows(t, feeds, req) == rest;
      }
    }
  }

  /**
   * Every listed row is a requested, stored feed and its count, and the
   * rows come in title order.
   */
  lemma FeedSummariesFromRequest(t: Tables, req: BulkFetchRequest)
    ensures forall s :: s in FeedSummaries(t, req) ==> RowOfFeed(t, SelectedFeeds(t.feeds, req.feedIds), req, s)
    ensures SortedBy(FeedSummaries(t, req), RowTitleLe)
  {
    FeedsByTitleSpec(SelectedFeeds(t.feeds, req.feedIds));
    SummaryRowsTitleOrdered(t, FeedsByTitle(SelectedFeeds(t.feeds, req.feedIds)), req);
    if req.feedIds != [] {
      var feeds := SortBy(SelectedFeeds(t.feeds, req.feedIds), FeedTitleLe);
      FeedSummariesRows(t, req);
      SummaryRowsSpec(t, feeds, req);
      forall s | s in FeedSummaries(t, req) ensures RowOfFeed(t, SelectedFeeds(t.feeds, req.feedIds), req, s) {
        var f :| f in feeds && f.id == s.feedId && f.title == s.feedTitle
          && s.articleCount == CountInRange(t.articles, f.id, req.startDate, req.endDate);
        assert f in SelectedFeeds(t.feeds, req.feedIds);
      }
    }
  }

  // ---------------------------------------------------------------------------
  // Bulk fetch: the refresh loop and the whole request
  // ---------------------------------------------------------------------------

  /** The tables after refreshing the requested feeds in request order, each failure ignored. */
  function RefreshInOrder(t: Tables, ids: seq<Uuid>, net: string -> HttpOutcome, now: Time): Tables
    decreases |ids|
  {
    if ids == [] then t
    else Refresh(RefreshInOrder(t, ids[..|ids| - 1], net, now), ids[|ids| - 1], net, now).tables
  }

  /**
   * Refresh each requested feed; a failure is logged and the loop goes on.
   * The running total counts every article the refreshes inserted.
   */
  method RefreshRequested(db: Database, ids: seq<Uuid>, net: string -> HttpOutcome, now: Time) returns (total: nat)
    modifies db
    ensures db.Snapshot() == RefreshInOrder(old(db.Snapshot()), ids, net, now)
    ensures total == |db.articles| - |old(db.articles)|
  {
    ghost var t0 := db.Snapshot();
    total := 0;
    for i := 0 to |ids|
      invariant db.Snapshot() == RefreshInOrder(t0, ids[..i], net, now)
      invariant |db.articles| >= |t0.articles|
      invariant total == |db.articles| - |t0.articles|
    {
      assert ids[..i + 1][..i] == ids[..i];
      ghost var before := db.Snapshot();
      var r := RefreshFeed(db, ids[i], net, now);
      if r.Ok? {
        RefreshSuccess(before, ids[i], net, now);
        total := total + r.value;
      }
    }
    assert ids[..|ids|] == ids;
  }

  /**
   * A failing refresh in the sequence changes nothing and the following
   * feeds are still refreshed: the state after the k-th feed is the k-th
   * refresh applied to the state after the earlier ones, whatever they gave.
   */
  lemma RefreshInOrderStep(t: Tables, ids: seq<Uuid>, net: string -> HttpOutcome, now: Time, k: nat)
    requires k < |ids|
    ensures RefreshInOrder(t, ids[..k + 1], net, now) == Refresh(RefreshInOrder(t, ids[..k], net, now), ids[k], net, now).tables
    ensures Refresh(RefreshInOrder(t, ids[..k], net, now), ids[k], net, now).result.Err? ==>
      RefreshInOrder(t, ids[..k + 1], net, now) == RefreshInOrder(t, ids[..k], net, now)
  {
    assert ids[..k + 1][..k] == ids[..k];
  }

  lemma {:induction false} RefreshInOrderKeepsConsistent(t: Tables, ids: seq<Uuid>, net: string -> HttpOutcome, now: Time)
    requires Consistent(t)
    ensures Consistent(RefreshInOrder(t, ids, net, now))
    decreases |ids|
  {
    if ids != [] {
      RefreshInOrderKeepsConsistent(t, ids[..|ids| - 1], net, now);
      RefreshKeepsConsistent(RefreshInOrder(t, ids[..|ids| - 1], net, now), ids[|ids| - 1], net, now);
    }
  }

  /** POST /articles/bulk-fetch */
  method BulkFetchArticles(db: Database, req: BulkFetchRequest, net: string -> HttpOutcome, now: Time)
    returns (r: Result<BulkFetchResponse>)
    modifies db
    ensures db.Snapshot() == RefreshInOrder(old(db.Snapshot()), req.feedIds, net, now)
    ensures r == BulkFetchResult(db.Snapshot(), req)
  {
    if |req.feedIds| > 0 {
      var _ := RefreshRequested(db, req.feedIds, net, now);
    }
    var (limit, offset) := Paging(req.limit, req.offset, DefaultBulkLimit);
    // The statements sent to the database; `Matching` and `FeedSummaries` are what they select.
    var _, query, count := BuildBulkQueries(req, limit, offset);
    if limit < 0 || offset < 0 {
      return Err(DatabaseError(NegativePaging));
    }
    var summaryQuery := BuildFeedSummaryQuery(req);
    var matching := Matching(db.articles, req);
    var summaries := FeedSummaries(db.Snapshot(), req);
    r := Ok(BulkFetchResponse(Page(NewestFirst(matching), limit, offset), |matching|, summaries));
  }
}
