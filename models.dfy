/**
 * The persisted records (feeds, articles, summaries), a snapshot of the three
 * tables, and the lookups the handlers run against them.
 */
module Models {
  import opened Errors
  import opened Decimal
  import opened Ordering

  /** Identifiers. The database's random UUIDs are modelled by a counter (see Store). */
  type Uuid = nat

  /** Timestamps, in seconds since the epoch. */
  type Time = int

  const SecondsPerHour: int := 3600

  datatype Feed = Feed(
    id: Uuid,
    title: string,
    url: string,
    active: bool,
    lastFetched: Option<Time>,
    createdAt: Time,
    updatedAt: Time)

  datatype Article = Article(
    id: Uuid,
    title: string,
    url: string,
    feedId: Uuid,
    content: string,
    publishedAt: Time,
    createdAt: Time,
    updatedAt: Time)

  datatype Summary = Summary(
    id: Uuid,
    articleId: Uuid,
    content: string,
    model: string,
    createdAt: Time,
    updatedAt: Time)

  /** The contents of the feeds, articles and summaries tables, in insertion order. */
  datatype Tables = Tables(
    feeds: seq<Feed>,
    articles: seq<Article>,
    summaries: seq<Summary>,
    nextId: nat)

  /** How an identifier is written into messages (the model's stand-in for the hyphenated form). */
  function UuidText(id: Uuid): string {
    DecimalString(id)
  }

  /** SELECT * FROM feeds WHERE id = $1 */
  function FindFeed(feeds: seq<Feed>, id: Uuid): (r: Option<Feed>)
    ensures r.Some? ==> r.value in feeds && r.value.id == id
    ensures r.None? <==> forall f :: f in feeds ==> f.id != id
  {
    if feeds == [] then None
    else if feeds[0].id == id then Some(feeds[0])
    else
      assert forall f :: f in feeds ==> f == feeds[0] || f in feeds[1..];
      FindFeed(feeds[1..], id)
  }

  /** SELECT * FROM articles WHERE id = $1 */
  function FindArticle(articles: seq<Article>, id: Uuid): (r: Option<Article>)
    ensures r.Some? ==> r.value in articles && r.value.id == id
    ensures r.None? <==> forall a :: a in articles ==> a.id != id
  {
    if articles == [] then None
    else if articles[0].id == id then Some(articles[0])
    else
      assert forall a :: a in articles ==> a == articles[0] || a in articles[1..];
      FindArticle(articles[1..], id)
  }

  /** SELECT id FROM articles WHERE url = $1 returns a row. */
  predicate UrlStored(articles: seq<Article>, url: string) {
    exists a :: a in articles && a.url == url
  }

  /** SELECT id FROM feeds WHERE url = $1 returns a row. */
  predicate FeedUrlTaken(feeds: seq<Feed>, url: string) {
    exists f :: f in feeds && f.url == url
  }

  predicate UniqueArticleUrls(articles: seq<Article>) {
    forall i, j :: 0 <= i < j < |articles| ==> articles[i].url != articles[j].url
  }

  predicate UniqueFeedUrls(feeds: seq<Feed>) {
    forall i, j :: 0 <= i < j < |feeds| ==> feeds[i].url != feeds[j].url
  }

  predicate UniqueFeedIds(feeds: seq<Feed>) {
    forall i, j :: 0 <= i < j < |feeds| ==> feeds[i].id != feeds[j].id
  }

  /**
   * The invariants the tables keep: feed ids are keys, feed URLs and article
   * URLs are unique, and every feed id was handed out before `nextId`.
   */
  predicate Consistent(t: Tables) {
    && UniqueFeedIds(t.feeds)
    && UniqueFeedUrls(t.feeds)
    && UniqueArticleUrls(t.articles)
    && forall f :: f in t.feeds ==> f.id < t.nextId
  }

  /** Code-point lexicographic order on strings. */
  predicate LexLe(a: string, b: string) {
    a == [] || (b != [] && (a[0] < b[0] || (a[0] == b[0] && LexLe(a[1..], b[1..]))))
  }

  lemma {:induction false} LexLeTotal(a: string, b: string)
    ensures LexLe(a, b) || LexLe(b, a)
  {
    if a != [] && b != [] && a[0] == b[0] {
      LexLeTotal(a[1..], b[1..]);
    }
  }

  lemma {:induction false} LexLeTransitive(a: string, b: string, c: string)
    requires LexLe(a, b) && LexLe(b, c)
    ensures LexLe(a, c)
  {
    if a != [] && b != [] && c != [] && a[0] == b[0] && b[0] == c[0] {
      LexLeTransitive(a[1..], b[1..], c[1..]);
    }
  }

  /** ORDER BY title */
  predicate FeedTitleLe(f: Feed, g: Feed) {
    LexLe(f.title, g.title)
  }

  lemma FeedTitleLeTotal()
    ensures Total(FeedTitleLe)
  {
    forall f: Feed, g: Feed ensures FeedTitleLe(f, g) || FeedTitleLe(g, f) {
      LexLeTotal(f.title, g.title);
    }
  }

  /** ORDER BY published_at DESC */
  predicate NewerOrSame(a: Article, b: Article) {
    a.publishedAt >= b.publishedAt
  }

  /** SELECT * FROM feeds ORDER BY title */
  function FeedsByTitle(feeds: seq<Feed>): seq<Feed> {
    SortBy(feeds, FeedTitleLe)
  }

  lemma FeedsByTitleSpec(feeds: seq<Feed>)
    ensures SortedBy(FeedsByTitle(feeds), FeedTitleLe)
    ensures multiset(FeedsByTitle(feeds)) == multiset(feeds)
  {
    FeedTitleLeTotal();
    SortBySorted(feeds, FeedTitleLe);
  }
}
