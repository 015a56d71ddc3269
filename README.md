# laune — a verified model of the feed reader's core

laune is an RSS reader with AI summaries: a Rust web service keeps feeds,
articles and summaries in PostgreSQL, refreshes feeds from the network, and
answers HTTP requests; a React front end drives it. This project models, in
Dafny, the parts of it that decide what is stored and what is answered:

- `errors.dfy` — the error kinds, their display text and the HTTP status of each.
- `config.dfy` — the PostgreSQL connection string built from the database settings.
- `models.dfy`, `store.dfy` — the feed, article and summary rows; the tables as
  a `Database` object whose sequences the handlers update in place; the
  invariants the tables keep (feed ids are keys, feed URLs and article URLs
  are unique, and every feed id lies below the id counter).
- `ingestion.dfy` — normalising fetched entries into articles, refreshing one
  feed (existence and active checks, fetch, de-duplicating insert loop,
  `last_fetched` stamp) and refreshing every active feed in title order.
- `summaries.dfy` — reading and creating an article's summary, and the
  aggregated summary over several feeds (validation, per-feed loop over a
  LEFT JOIN, grouping, totals).
- `articles.dfy`, `sqltext.dfy` — listing and reading articles, and the bulk
  fetch: the refresh loop, paging defaults, the three SQL statements the
  handler assembles with numbered parameters, and what those statements select.
- `feed_routes.dfy` — creating, reading, updating, deleting, listing and
  refreshing feeds.
- `bulk_fetch_page.dfy` — the bulk-fetch page's state and its event handlers.

Every handler that changes the tables is a method on `Database` proved
against a function of the tables before the call; the properties are lemmas
about those functions. The network, the clock, the summarizer and the
configuration loader are parameters: `net` maps a feed URL to the HTTP
outcome, `now` is the database clock, and `Reply` values stand for what the
summarizer and the settings loader answered. Identifiers are natural numbers
handed out by a counter in the database (`nextId`), and an identifier's text
is its decimal form.

Behaviour worth knowing that the model keeps as the code has it:

- A refresh that fetches zero entries still stamps `last_fetched` and answers 0.
- In the bulk fetch's per-feed counts, a requested feed with no articles at
  all is reported with count 0, but a feed whose articles all fall outside the
  date range is left out: the date conditions sit in the WHERE clause of a
  LEFT JOIN, so they drop the feed's only rows.
- The aggregated summary joins every summary of an article, so an article with
  several summaries gives several rows and counts several times.
- Submitting the bulk-fetch form keeps the offset that earlier "Load More"
  clicks advanced, so a new search starts from that offset.
- The feed handlers build their `Feed` values without the `active` column
  (backend/src/routes/feeds.rs:31-38 and the other row mappings); the model
  answers the stored row, `active` included.

## Model

| member | source | states |
|---|---|---|
| Errors.Status | backend/src/error.rs:35-43 | BadRequest, FeedParsingError and ValidationError are 400; NotFound is 404; DatabaseError and InternalServerError are 500; SummarizationError is 503 — each as an if-and-only-if |
| Errors.IntoResponse | backend/src/error.rs:33-53 | the response carries the error's own message and its status, one of the four codes above |
| Errors.DisplayRoundTrip | backend/src/error.rs:9-31 | the display text of every error ("Database error: …", "Not found: …", …) can be parsed back into that same error |
| Errors.DisplayInjective | backend/src/error.rs:9-31 | two errors with the same display text are equal |
| Decimal.ParseDecimalString | backend/src/config.rs:61 | the decimal text of a number is all digits and reads back as that number |
| Decimal.DecimalStringInjective | backend/src/config.rs:61 | distinct numbers have distinct decimal texts |
| Config.ConnectionString | backend/src/config.rs:55-65 | the string starts with `postgres://`, ends with `?sslmode=require` exactly when SSL is required, and its length is the sum of its parts |
| Config.ConnectionStringFields | backend/src/config.rs:56-64 | username, password, host, port and database name can each be read back at their positions, separated by `:`, `@`, `:` and `/`; the port text parses back to the port |
| Ordering.SortBySorted | backend/src/routes/feeds.rs:29 | sorting by a total order yields a sorted permutation of the input |
| Models.FindFeed | backend/src/routes/feeds.rs:102-120 | the lookup by id answers a row of the table with that id, and answers nothing exactly when no row has it |
| Models.FindArticle | backend/src/routes/articles.rs:100-118 | as FindFeed, for articles |
| Models.FeedsByTitleSpec | backend/src/routes/feeds.rs:29 | `ORDER BY title` yields every feed once, in title order |
| Ingestion.NormalizeEntry | backend/src/feeds.rs:63-94 | content is the entry body, else the summary, else ""; published time is published, else updated, else now; url is the first link or ""; title is the entry title or "Untitled"; the article belongs to the feed |
| Ingestion.RssToArticles | backend/src/feeds.rs:60-98 | one article per entry, in entry order, each owned by the feed and stored under its entry's first link, with distinct ids |
| Ingestion.RssToArticlesEntries | backend/src/feeds.rs:60-98 | the i-th article is the i-th entry normalised (title, link, content and date fallbacks of `NormalizeEntry`) under the i-th fresh id |
| Ingestion.FetchFeed | backend/src/feeds.rs:28-57 | the fetch succeeds exactly on a success status with a parsed feed, and then yields the normalised entries; a non-success status is a FeedParsingError |
| Ingestion.IngestInsertsOnlyNew | backend/src/feeds.rs:150-186 | the insert loop keeps the stored rows, appends only batch articles whose URL was not stored before, and never inserts one URL twice, also within the batch |
| Ingestion.IngestCovers | backend/src/feeds.rs:150-186 | after the loop every batch URL is stored, and nothing but stored rows and batch articles is in the table |
| Ingestion.IngestKeepsUrlsUnique | backend/src/feeds.rs:150-186 | unique article URLs stay unique |
| Ingestion.IngestAllStored | backend/src/feeds.rs:150-186 | a batch whose URLs are all stored inserts nothing |
| Ingestion.StampFetchedSpec | backend/src/feeds.rs:188-192 | the update stamps `last_fetched = now` on the feed with the id and changes nothing else |
| Ingestion.SaveNewArticles | backend/src/feeds.rs:147-186 | the loop's table is the de-duplicating insert of the batch and its count is the number of rows added |
| Ingestion.RefreshFeed | backend/src/feeds.rs:101-198 | the method changes the tables and answers exactly as `Refresh` says |
| Ingestion.RefreshUnknownFeed | backend/src/feeds.rs:103-120 | an unknown id fails with NotFound "Feed with ID … not found" and changes nothing |
| Ingestion.RefreshInactiveFeed | backend/src/feeds.rs:122-129 | an inactive feed fails with BadRequest before any fetch: the answer does not depend on the network, and nothing changes |
| Ingestion.RefreshSuccess | backend/src/feeds.rs:132-198 | a success answers the number of rows inserted, keeps the stored rows, stamps the feed with now and leaves every other feed as it was |
| Ingestion.RefreshEmptyFeed | backend/src/feeds.rs:134-145 | zero fetched entries answer 0, insert nothing, and still stamp `last_fetched` |
| Ingestion.RefreshKeepsConsistent | backend/src/feeds.rs:101-198 | a refresh keeps the table invariants |
| Ingestion.RefreshTwiceAddsNothing | backend/src/feeds.rs:150-162 | refreshing again with the same upstream entries adds nothing |
| Ingestion.ActiveFeedsByTitleSpec | backend/src/feeds.rs:207-208 | the bulk refresh visits exactly the active feeds, in title order |
| Ingestion.RefreshAllActiveFeeds | backend/src/feeds.rs:202-274 | the loop's tables and results are those of refreshing the active feeds one after another; the total is the sum of the counts; with no active feed the answer is the fixed "No active feeds found" summary |
| Ingestion.RefreshAllSummarySpec | backend/src/feeds.rs:202-274 | the bulk refresh visits exactly the active feeds, in title order, reports one result per feed with that feed's id, and its total counts only the successful refreshes |
| Ingestion.RefreshEachResults | backend/src/feeds.rs:230-259 | one result per feed in order; a failure reports success false, 0 articles and its error text, and later feeds are still refreshed |
| Ingestion.RefreshEachStep | backend/src/feeds.rs:234 | the k-th result is the refresh of that feed in the tables the earlier feeds left |
| Ingestion.RefreshEachKeepsConsistent | backend/src/feeds.rs:230-259 | the batch keeps the table invariants |
| Ingestion.TotalAddedIsSuccessful | backend/src/feeds.rs:235-256 | the total counts only successful refreshes |
| Summaries.Latest | backend/src/routes/summaries.rs:50-57 | the newest summary of the article, or none when it has none |
| Summaries.GetSummary | backend/src/routes/summaries.rs:34-47 | the answer is NotFound "Article with ID … not found" exactly when the article is unknown |
| Summaries.GetSummaryLatest | backend/src/routes/summaries.rs:30-78 | an unknown article is NotFound; a known one answers its newest summary, or none |
| Summaries.CreateSummary | backend/src/routes/summaries.rs:80-166 | the method changes the tables and answers as `CreateSummarySpec` says |
| Summaries.FindSummaryOf | backend/src/routes/summaries.rs:112-118 | the scan finds a row exactly when some summary belongs to the article |
| Summaries.CreateSummaryFailureChangesNothing | backend/src/routes/summaries.rs:84-136 | every failure leaves the tables as they were |
| Summaries.CreateSummaryErrors | backend/src/routes/summaries.rs:84-136 | checks in order: configuration (InternalServerError), article (NotFound), existing summary (BadRequest), summarizer (SummarizationError) |
| Summaries.CreateSummarySuccess | backend/src/routes/summaries.rs:138-165 | a success stores exactly one summary, for the article, with the configured model and the summarizer's text, keeping one summary per article |
| Summaries.CreateThenGet | backend/src/routes/summaries.rs:30-166 | reading after a successful create gives the summary just created |
| Summaries.HoursBack | backend/src/routes/summaries.rs:172 | the window is the requested hours, 24 when absent |
| Summaries.ValidateAggregation | backend/src/routes/summaries.rs:174-185 | no ids is BadRequest; otherwise hours outside 1..168 is BadRequest; else the hours |
| Summaries.JoinRowsSpec | backend/src/routes/summaries.rs:230-257 | every joined row comes from an in-window article of the feed, and every such article has a row |
| Summaries.WindowRowsSpec | backend/src/routes/summaries.rs:230-257 | the rows are newest first, belong to in-window articles of the feed, cover them all, and are empty exactly when the feed has none in the window |
| Summaries.GroupsSpec | backend/src/routes/summaries.rs:200-270 | groups only for requested, existing, active feeds with rows, in request order, each with its rows and their count; every qualifying feed has its group |
| Summaries.AggregateFeeds | backend/src/routes/summaries.rs:196-270 | the loop's groups are `Groups` and its running total is their summed counts |
| Summaries.AggregatedSummary | backend/src/routes/summaries.rs:168-300 | a failure is a BadRequest of the validation, the NotFound for an empty time range, or the summarizer's error; a success always has at least one feed group and an hour count within 1..168 |
| Summaries.CreateAggregatedSummary | backend/src/routes/summaries.rs:168-300 | the handler answers exactly `AggregatedSummary` of the current tables: validation, the grouping loop, the NotFound check and the summarizer, in that order |
| Summaries.AggregationValidation | backend/src/routes/summaries.rs:172-185 | empty ids are rejected whatever the hours; then hours outside 1..168 are rejected; 1 and 168 pass |
| Summaries.AggregationNothingInRange | backend/src/routes/summaries.rs:272-276 | with no group the answer is NotFound whatever the summarizer would say |
| Summaries.AggregationSuccess | backend/src/routes/summaries.rs:278-300 | a success reports the window, the groups in request order and the total of their counts |
| Summaries.SumCountsBound | backend/src/routes/summaries.rs:259-269 | every group counts at least one row, so the total is at least the number of groups |
| Articles.Paging | backend/src/routes/articles.rs:35-36 | limit defaults to the handler's default, offset to 0 |
| Articles.Page | backend/src/routes/articles.rs:45 | `LIMIT … OFFSET …` keeps exactly the rows from position `offset` on, in order, as many as `limit` allows and the rows supply |
| Articles.NewestFirstSpec | backend/src/routes/articles.rs:44 | `ORDER BY published_at DESC` is a permutation, newest first |
| Articles.ListArticlesSpec | backend/src/routes/articles.rs:31-93 | the page is exactly the `offset`/`limit` window (defaults 0 and 20) of the table's articles, or of the feed's when one is given, in newest-first order |
| Articles.GetArticle | backend/src/routes/articles.rs:96-120 | answers the article with the id, or NotFound "Article with ID … not found" exactly when there is none |
| Articles.GetFeedArticles | backend/src/routes/articles.rs:123-141 | an unknown feed is NotFound "Feed with ID … not found" |
| Articles.GetFeedArticlesSpec | backend/src/routes/articles.rs:143-175 | a success means the feed exists, and the page is exactly the `offset`/`limit` window of the feed's articles in newest-first order |
| Articles.BindFilters | backend/src/routes/articles.rs:252-263 | the bound values are the feed ids in order, then the start date, then the end date, each when present |
| Articles.BuildConditions | backend/src/routes/articles.rs:210-230 | the conditions are `feed_id IN ($1 … $n)` when ids are given, then `published_at >= $k` for a start date, then `published_at <= $k` for an end date; they are empty exactly without filters, and their parameters are $1 … $m for the m filter values, in order |
| Articles.FilterConditionsNumbered | backend/src/routes/articles.rs:210-230 | the filter conditions carry the parameters $1 … $m, one per filter value, in binding order |
| Articles.BuildBulkQueries | backend/src/routes/articles.rs:232-302 | the WHERE clause is `WHERE` and those conditions joined by `AND`, empty exactly without filters; the query's parameters are $1 … $m+2 matching the filter values then limit and offset; the count statement uses the same clause and the filter values alone |
| Articles.BuildFeedSummaryQuery | backend/src/routes/articles.rs:314-366 | no statement without feed ids; otherwise the count statement over `f.id IN (…)` and the date conditions that let feeds without articles through, with parameters $1 … $m matching the filter values |
| Articles.SummaryConditionsNumbered | backend/src/routes/articles.rs:314-366 | with feed ids, the per-feed conditions carry the parameters $1 … $m, one per filter value, in binding order |
| SqlText.PlaceholdersParam | backend/src/routes/articles.rs:215 | `$k` reads back as parameter k |
| SqlText.ParamListPlaceholders | backend/src/routes/articles.rs:214-217 | the list `$i, $i+1, …` has parameters i, i+1, … in order |
| SqlText.PlaceholdersJoin | backend/src/routes/articles.rs:234 | joining conditions with " AND " keeps each condition's parameters, in order |
| Articles.Matching | backend/src/routes/articles.rs:213-229 | an article is selected exactly when it is in the table and matches the feed and date filters |
| Articles.CountInRange | backend/src/routes/articles.rs:327-340 | the count is 0 exactly when no article of the feed is in the date range |
| Articles.BulkFetchResultSpec | backend/src/routes/articles.rs:205-393 | the page is exactly the `offset`/`limit` window (defaults 0 and 100) of the matching articles in newest-first order; the total is the number of matches, never below the page size; there are per-feed counts only when feed ids are given |
| Articles.SummaryRowsSpec | backend/src/routes/articles.rs:342-349 | every per-feed row is a requested feed with its in-range count, positive unless the feed has no article at all; every feed with in-range articles or with no articles has its row |
| Articles.FeedSummariesInRange | backend/src/routes/articles.rs:342-349 | a requested feed with articles in range is reported with their count |
| Articles.FeedSummariesNoArticles | backend/src/routes/articles.rs:345 | a requested feed without any article is reported with count 0 |
| Articles.FeedSummariesOutOfRange | backend/src/routes/articles.rs:327-347 | a requested feed whose articles all fall outside the range is not reported |
| Articles.FeedSummariesFromRequest | backend/src/routes/articles.rs:327-348 | every per-feed row belongs to a stored feed whose id was requested and carries that feed's title and its number of articles in the date range; the rows come in title order |
| Articles.RefreshRequested | backend/src/routes/articles.rs:185-202 | the loop refreshes the requested feeds in order, ignoring failures, and its total is the number of rows added |
| Articles.RefreshInOrderStep | backend/src/routes/articles.rs:189-199 | each step is the refresh of that feed in the tables the earlier steps left; a failed step changes nothing |
| Articles.RefreshInOrderKeepsConsistent | backend/src/routes/articles.rs:185-202 | the refresh loop keeps the table invariants |
| Articles.BulkFetchArticles | backend/src/routes/articles.rs:178-393 | the handler refreshes the requested feeds, then answers `BulkFetchResult` on the new tables |
| FeedRoutes.ListFeeds | backend/src/routes/feeds.rs:26-48 | every feed exactly once, in title order |
| FeedRoutes.GetFeed | backend/src/routes/feeds.rs:98-123 | the feed with the id, or NotFound "Feed with ID … not found" exactly when there is none |
| FeedRoutes.CreateFeed | backend/src/routes/feeds.rs:51-95 | the method changes the tables and answers as `Create` says |
| FeedRoutes.CreateSpec | backend/src/routes/feeds.rs:55-94 | creating fails with BadRequest "Feed with this URL already exists" exactly when the URL is taken, changing nothing; otherwise it appends one active, never-fetched feed with a fresh id, created and updated now |
| FeedRoutes.CreateThenGet | backend/src/routes/feeds.rs:67-122 | a created feed is found by its id |
| FeedRoutes.CreateTwice | backend/src/routes/feeds.rs:56-64 | creating the same URL again fails and changes nothing |
| FeedRoutes.CreateKeepsConsistent | backend/src/routes/feeds.rs:51-95 | creating keeps feed ids and URLs unique |
| FeedRoutes.UpdateFeed | backend/src/routes/feeds.rs:126-191 | the method changes the tables and answers as `Update` says |
| FeedRoutes.UpdateSpec | backend/src/routes/feeds.rs:131-190 | NotFound exactly for an unknown id, BadRequest exactly for a URL of another feed, both changing nothing; otherwise only the feed's row changes: title and URL take the given values or keep theirs, `updated_at` becomes now, all other columns and feeds stay |
| FeedRoutes.UpdateOwnUrl | backend/src/routes/feeds.rs:145 | giving a feed the URL it already has is accepted |
| FeedRoutes.UpdateThenGet | backend/src/routes/feeds.rs:158-190 | the row the update answers is the row read back afterwards |
| FeedRoutes.UpdateKeepsConsistent | backend/src/routes/feeds.rs:143-165 | updating keeps feed ids and URLs unique |
| FeedRoutes.DeleteFeed | backend/src/routes/feeds.rs:194-222 | the method changes the tables and answers as `Delete` says |
| FeedRoutes.DeleteSpec | backend/src/routes/feeds.rs:198-221 | NotFound exactly for an unknown id, changing nothing; otherwise the feed is gone, every other feed stays in its order, and the other tables are untouched |
| FeedRoutes.DeleteKeepsConsistent | backend/src/routes/feeds.rs:210-218 | deleting keeps feed ids and URLs unique |
| FeedRoutes.RefreshFeedRoute | backend/src/routes/feeds.rs:225-253 | the method changes the tables and answers as `RefreshRoute` says |
| FeedRoutes.RefreshRouteDelegates | backend/src/routes/feeds.rs:229-252 | the route changes the tables as the fetcher's refresh does, fails with the same error, and reports the fetcher's count as `articles_added` |
| BulkFetchUi.Without | frontend/src/pages/BulkFetchPage.tsx:40 | the filter keeps exactly the other ids |
| BulkFetchUi.WithoutAppend | frontend/src/pages/BulkFetchPage.tsx:40 | the filter keeps the relative order: filtering a concatenation filters each part |
| BulkFetchUi.ToggledSpec | frontend/src/pages/BulkFetchPage.tsx:37-43 | a toggle appends an absent id at the end and removes a present one; no other id changes membership |
| BulkFetchUi.ToggleTwice | frontend/src/pages/BulkFetchPage.tsx:38-42 | toggling an absent id twice restores the selection |
| BulkFetchUi.ToggleKeepsDistinct | frontend/src/pages/BulkFetchPage.tsx:37-43 | toggling never selects an id twice |
| BulkFetchUi.OrUndefined | frontend/src/pages/BulkFetchPage.tsx:74-75 | an empty date is sent as absent, and the date text is recovered from what is sent |
| BulkFetchUi.RequestForInjective | frontend/src/pages/BulkFetchPage.tsx:72-78 | different forms send different requests |
| BulkFetchUi.ShowLoadMore | frontend/src/pages/BulkFetchPage.tsx:307 | the control shows exactly when the remaining count is positive |
| BulkFetchUi.MergedSpec | frontend/src/pages/BulkFetchPage.tsx:104-111 | a further page keeps the articles shown, in order, and lowers the remaining count by its size |
| BulkFetchUi.BulkFetchPage.constructor | frontend/src/pages/BulkFetchPage.tsx:10-20 | the page starts with no feeds, no selection, empty dates, not loading, no results and no error, a limit of 50 and offset 0 |
| BulkFetchUi.BulkFetchPage.LoadFeeds | frontend/src/pages/BulkFetchPage.tsx:27-35 | a delivered feed list replaces the feeds and leaves the error as it was; a failed load keeps the feeds and shows "Failed to load feeds" |
| BulkFetchUi.BulkFetchPage.ToggleFeed | frontend/src/pages/BulkFetchPage.tsx:37-43 | the selection becomes the toggled selection |
| BulkFetchUi.BulkFetchPage.SelectAll | frontend/src/pages/BulkFetchPage.tsx:45-47 | the selection is the feeds' ids in feed order |
| BulkFetchUi.BulkFetchPage.SelectNone | frontend/src/pages/BulkFetchPage.tsx:49-51 | the selection is empty |
| BulkFetchUi.BulkFetchPage.ChangeDate | frontend/src/pages/BulkFetchPage.tsx:53-58 | only the named end of the range changes |
| BulkFetchUi.BulkFetchPage.Submit | frontend/src/pages/BulkFetchPage.tsx:60-88 | an empty selection sets the error and sends nothing; otherwise it sends the form at the current offset, then shows the reply or "Failed to fetch articles", and stops loading |
| BulkFetchUi.BulkFetchPage.LoadMore | frontend/src/pages/BulkFetchPage.tsx:90-119 | nothing happens without results or while loading; otherwise it asks from offset + limit, and on success appends the new articles and advances the offset, on failure sets the error and keeps offset and results |

## Left out

- Network access and XML parsing are not modelled: the fetch is the parameter `net`, which answers a status and either parsed entries or a parse failure. The HTTP client's user agent and timeout are left out.
- The OpenAI summarizer and the loading of settings from files and the environment are parameters that answer text or fail.
- Storage failures are not modelled: the tables never fail, so no `DatabaseError` path is taken. The one exception is a negative limit or offset, which PostgreSQL rejects. `Articles.ListArticles`, `Articles.GetFeedArticles` and `Articles.BulkFetchResult` answer a `DatabaseError` for it, with a message of the model's own.
- Executing SQL is not modelled. The statement texts and their bound values are built and checked. What they select is the function `Matching` for the article query and count, and the function `FeedSummaries` for the per-feed counts.
- Rows that tie in `ORDER BY` are given a fixed order, that of a stable insertion sort. PostgreSQL leaves the tie order open.
- Title order is code-point order. The database collation is not modelled.
- UUIDs are natural numbers from a counter, and their text is their decimal form. The hyphenated hex format is not modelled.
- Times are whole seconds, and `NOW()` is the parameter `now`, one value per request.
- Cascading deletes are defined in migrations that are not part of this model. Deleting a feed leaves its articles in place.
- Concurrency is not modelled: handlers run one at a time. The check-then-insert races in de-duplication and in summary creation therefore do not arise. On the page, no other handler runs while a request is in flight.
- Logging is left out, as are router wiring and the JSON serialisation of answers. The 201 status of feed creation is one of them, and so is the `type` field of the error body (the Debug form of the error).
- Rendering of the page is not modelled beyond the "Load More" condition and the remaining count. That includes the limit selector (`setLimit`), date formatting and the other pages.
- Errors.IntoResponse: the JSON body is modelled as its status and message only.
