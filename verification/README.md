# stocknews-api read path in Dafny

This project models the read path of the stocknews-api news service: how a
request for a ticker's news becomes an HTTP response. The path runs through a
two-tier article cache, two durable storage backends, a cache-aside fetcher,
a multi-provider fan-out, the query filter, the `handleNews` decision table
and the AlphaVantage client's error classification and feed mapping.

Everything is a pure function over immutable values. Time is an integer
`now` parameter. Every collaborator the code cannot see is an input value:
what the database driver reports (`fault`), what the durable tier answers
(`Lookup`), what the HTTP exchange produced (`Exchange`), what a provider or
the summarizer returns. The JSON codec is an abstract `Codec`. Its round-trip
law is the explicit hypothesis `Models.RoundTrips` on the lemmas that need
it.

Modules, one per component:

- `Results`, `AppErrors`, `Models`: option and result shapes, Go errors, the article record and codec.
  - Go errors cover sentinels, wrapping with a single `%w`, `errors.Is` and `Error()` text. Each error has one wrap chain, as every error the service builds does.
- `Storage`: the durable tier's byte-level contract.
  - One `Record` per ticker, the 4-tuple read result as `Lookup`, upsert, and the two promises of the interface.
- `Postgres`, `Sqlite`: the statements of each backend, as their effect on the table.
- `PersistentCache`: the in-memory tier as a state with step functions.
  - The steps are `GetArticles`, `SetArticles`, `Cleanup` and `Clear`.
  - The durable tier's answer is an input; the save it requests is an output.
- `Tiers`: the cache and a backend together. The end-to-end laws live here: set-then-get, expiration, promotion after a restart, and the sweep.
- `RWMutex`: just enough of Go's `sync.RWMutex` to follow the lock calls in `cleanup`.
- `Text`, `Filter`, `Stocks`: the case-insensitive substring filter and its duplicate in package `stocks`.
- `MultiFetcher`, `Fetcher`, `AlphaVantage`, `Api`: the fan-out, the cache-aside fetcher, the AlphaVantage client (both variants) and `handleNews`.

The sweep boundary follows the code exactly. The memory sweep removes an entry only when `now` is strictly after its expiration (persistent-cache.go:58). An entry expiring exactly at `now` survives the sweep but is never served.

Where the code's types disagree, the model takes one reading:

- The interface in `internal/storage/storage.go` declares `[]news.Article` payloads. The cache and the Postgres backend exchange `[]byte`.
  - The model follows the byte-level contract the cache uses.
  - The SQLite backend does its own JSON encoding, so `Sqlite.SaveArticles` and `Sqlite.GetArticles` model that encoding on top of byte rows.
  - When `Tiers` composes the cache with SQLite, the cache's bytes go straight into the row (`Storage.Write`) and come straight back out (`Sqlite.SelectRow`). They are not encoded a second time by `Sqlite.SaveArticles` or decoded a second time by `Sqlite.GetArticles`. Only the byte-level interface makes that composition type-check.
- One `Models.Article` datatype stands for three structs with identical fields: `models.Article`, `news.Article` and `stocks.NewsArticle`. This merge is what lets `Fetcher`, `MultiFetcher` and `Api.HandleNews` compose. In Go they do not; see the build errors below.

As given, the repository does not build, for these reasons:

- `PostgresStorage` does not satisfy `storage.Storage`: its payloads are `[]byte`, the interface's are `[]news.Article`.
- There is an import cycle. Package `storage` imports `news`, which imports `cache`, which imports `storage`.
- Package `news` declares `apiResponse` twice (news.go:21 and alphavantage_queries.go:15). It also declares `GetNewsByTicker` twice (news.go:37 and alphavantage_queries.go:31).
- `(*AlphaVantageFetcher).GetNewsByTicker` returns `[]models.Article` (alphavantage_fetcher.go:24). `news.Provider` requires `[]news.Article` (provider.go:6). So `news.NewMultiFetcher(fetcher)` at cmd/server/main.go:39 does not type-check.
- handlers.go:152 passes the provider's `[]news.Article` to `filter.FilterByQuery`, which takes `[]models.Article` (filter.go:9).

The model describes the evident intent of each function. `AlphaVantage.GetNewsByTicker` and `AlphaVantage.LegacyGetNewsByTicker` keep the two clashing `GetNewsByTicker` variants apart under distinct names.

## Model

| member | source | states |
|---|---|---|
| AppErrors.IsAtMostOne | internal/apperrors/errors.go:7-12 | an error with a single wrap chain matches at most one sentinel, so the handler's priority order never has to choose |
| AppErrors.IsOnly | internal/apperrors/errors.go:7-12 | a single-chain error known to match one sentinel matches no other, which makes the handler's else-if chains order-free |
| AppErrors.WrapPreservesIdentity | internal/news/alphavantage_fetcher.go:37 | wrapping with `%w` keeps every sentinel detectable by `errors.Is` and keeps the inner error's text inside the new text |
| Storage.Upsert | internal/storage/postgres-storage.go:62-66 | an upsert leaves exactly one row for the ticker, holding the new data, expiration and creation time, and no other row changes |
| Storage.Write | internal/storage/postgres-storage.go:60-75 | either backend's keyed write (the Postgres upsert here, SQLite's `INSERT OR REPLACE` at sqlite-storage.go:69-78): on success the ticker's one row holds the caller's payload and expiration verbatim with `created_at` = now, inserted or replaced, and no other row changes; on a driver error the table is unchanged and the error is returned |
| Postgres.GetArticlesAsWritten | internal/storage/postgres-storage.go:77-99 | as written, every read fails, because the query needs `$2` and only the ticker is bound |
| Postgres.GetArticles | internal/storage/postgres-storage.go:77-99 | with now bound: found iff the ticker's row has expiration > now, returning that row's payload and expiration; a missing row is absence with no error; a driver error is a failure |
| Postgres.DeleteExpired | internal/storage/postgres-storage.go:101-121 | exactly the rows with expiration <= now are deleted and the others are untouched; zero deleted rows is success; only the statement's own error is returned |
| Postgres.SaveThenGet | internal/storage/storage.go:13-16 | after a successful save, a read before the expiration returns the saved payload and expiration, and reads of other tickers are unchanged |
| Postgres.AsWrittenMissesLiveRow | internal/storage/postgres-storage.go:79-82 | a live row that the contract says is found is reported as a bind error by the read as written |
| Postgres.SweepInvisibleToReads | internal/storage/postgres-storage.go:77-121 | the sweep's `<=` and the read's `>` are complementary: a sweep at now changes no read at now or later |
| Postgres.RowsAffectedIgnored | internal/storage/postgres-storage.go:110-114 | what RowsAffected reports, failure included, has no effect on the sweep's result |
| Sqlite.SaveArticles | internal/storage/sqlite-storage.go:61-81 | succeeds iff marshalling and the write both succeed; a marshal error is returned and nothing is written; on success the row holds the marshalled articles |
| Sqlite.SelectRowAsWritten | internal/storage/sqlite-storage.go:84-102 | as written, any stored row of the ticker is found, expired or not; a missing row is absence; a driver error is a failure |
| Sqlite.SelectRow | internal/storage/sqlite-storage.go:84-102 | with the expiry filter added, a row is found only while its expiration is after now |
| Sqlite.Decode | internal/storage/sqlite-storage.go:104-112 | a row that does not unmarshal becomes `found = false` with the decode error; absence stays absence |
| Sqlite.GetArticlesAsWritten | internal/storage/sqlite-storage.go:83-113 | found iff the row exists and decodes, with no reference to time; absent iff there is no row |
| Sqlite.GetArticles | internal/storage/sqlite-storage.go:83-113 | with the filter the interface promises, found iff the row exists, has not expired and decodes, and what is found has not expired |
| Sqlite.DeleteExpired | internal/storage/sqlite-storage.go:115-138 | exactly the rows with expiration < now are deleted, so a row expiring exactly now survives; RowsAffected failure is not an error |
| Sqlite.AsWrittenServesExpiredRow | internal/storage/sqlite-storage.go:84-88 | an expired row that has not been swept yet is returned as found by the read as written; the corrected read reports it absent |
| Sqlite.SaveThenGet | internal/storage/storage.go:13-16 | with a round-tripping codec, a saved list is read back before its expiration as exactly the same list and expiration |
| PersistentCache.CacheKeyInjective | internal/cache/persistent-cache.go:80 | the `"news_"` prefix keys distinct tickers to distinct memory slots |
| PersistentCache.OtherTickersUnchanged | internal/cache/persistent-cache.go:80-134 | a set or a promotion for one ticker never changes what the fast path serves for any other ticker |
| PersistentCache.HalfDuration | internal/cache/persistent-cache.go:27 | Duration division by two truncates toward zero for negative values too |
| PersistentCache.NewPersistentCache | internal/cache/persistent-cache.go:22-34 | a new cache has empty memory, the given ttl, and a cleanup interval of ttl/2 |
| PersistentCache.FastPath | internal/cache/persistent-cache.go:82-93 | memory serves an entry iff it exists and now is strictly before its expiration |
| PersistentCache.GetArticles | internal/cache/persistent-cache.go:79-123 | the durable tier is consulted iff the fast path misses. A store error, absence or decode failure is a miss with memory unchanged. A decoded record is returned and copied into memory with the store's expiration |
| PersistentCache.SetArticles | internal/cache/persistent-cache.go:125-151 | memory gets the articles with expiration now+ttl unconditionally; a save is requested iff marshalling succeeds, with that same expiration |
| PersistentCache.Cleanup | internal/cache/persistent-cache.go:50-64 | exactly the entries with now after their expiration are removed; every other entry is kept unchanged |
| PersistentCache.Clear | internal/cache/persistent-cache.go:71-77 | memory becomes empty; ttl and interval are kept |
| PersistentCache.SetThenGet | internal/cache/persistent-cache.go:79-134 | within ttl of a set, a read returns the set list from memory without consulting the durable tier, whatever it would answer |
| PersistentCache.ExpiredEntryFallsThrough | internal/cache/persistent-cache.go:87 | an entry whose expiration is not after now is never served from memory; the read goes to the durable tier |
| PersistentCache.PromotionDoesNotRecheck | internal/cache/persistent-cache.go:102-118 | an already-expired durable record is still returned and promoted; the promoted entry is expired, so the next read at the same time goes to the durable tier again |
| PersistentCache.PromotionThenFastPath | internal/cache/persistent-cache.go:102-118 | a promoted record is served from memory until the durable expiration, without consulting the durable tier |
| PersistentCache.CleanupUnobservable | internal/cache/persistent-cache.go:56-61 | no read at the sweep's time or later can tell whether the sweep ran: it removes only entries the fast path already refuses |
| PersistentCache.BoundaryEntry | internal/cache/persistent-cache.go:58 | an entry expiring exactly at now is neither served nor swept at now |
| PersistentCache.ClearForcesDurableRead | internal/cache/persistent-cache.go:71-77 | after Clear, every read consults the durable tier |
| RWMutex.CleanupAsWrittenAborts | internal/cache/persistent-cache.go:55-64 | the lock calls as written never complete normally: with no writer the final Unlock is fatal, and the deletions run under the read lock only |
| RWMutex.CleanupCorrectedRestores | internal/cache/persistent-cache.go:55-64 | Lock then Unlock never aborts; from an idle lock it holds the write lock alone during the deletions and leaves the lock idle |
| Tiers.Read | internal/storage/storage.go:15-16 | each backend's filtered read finds only the ticker's unexpired row, and finds it whenever it exists |
| Tiers.Serve | internal/cache/persistent-cache.go:79-123 | a cache read never changes the durable table |
| Tiers.Set | internal/cache/persistent-cache.go:125-151 | memory is the same whatever the durable tier does; the table changes only by an issued save that the backend accepts, and then to exactly the new record |
| Tiers.Clear | internal/cache/persistent-cache.go:71-77 | Clear empties memory and leaves the durable table untouched |
| Tiers.Cleanup | internal/cache/persistent-cache.go:50-69 | with corrected lock calls: memory keeps exactly the entries not yet past their expiration, unchanged; an accepted delete sweeps the table as storage.go:18 promises; a failed delete leaves the table as it was |
| Tiers.SetThenGet | internal/cache/persistent-cache.go:125-151 | on either backend, a set followed by a get at the same time returns the set list from memory, even when the save failed |
| Tiers.ExpirationLaw | internal/cache/persistent-cache.go:79-123 | once ttl has passed since a successful write-through, the ticker reads as a miss on either backend, although nothing has been swept |
| Tiers.PromotionLaw | internal/cache/persistent-cache.go:102-118 | after a write-through and a Clear, a read within ttl returns exactly the articles written from the durable tier, and the following read is a memory hit |
| Tiers.SweepLaw | internal/cache/persistent-cache.go:50-69 | an accepted sweep removes from both tiers every entry it runs strictly after, and keeps every unexpired entry unchanged in both |
| Tiers.SweepBoundary | internal/storage/sqlite-storage.go:116-119 | a row expiring exactly at the sweep's time is deleted by Postgres (`<=`) and kept by SQLite (`<`) |
| Tiers.TenMinuteScenario | cmd/server/main.go:36 | with the deployed ten-minute ttl in Go nanoseconds: set at 0, a read at five minutes hits and a read at eleven minutes misses |
| Tiers.PostgresAsWrittenNeverPromotes | internal/storage/postgres-storage.go:77-95 | with the deployed backend as written, a record written a moment ago is lost to a restart; the corrected read recovers it |
| Tiers.SqliteAsWrittenBreaksExpirationLaw | internal/storage/sqlite-storage.go:83-112 | with SQLite as written, an expired but unswept record is served after ttl has passed, so the expiration law fails; with the filter it holds |
| Text.Lower | internal/filter/filter.go:12-15 | `strings.ToLower` on ASCII: the same length, each upper-case letter mapped to its lower-case letter and every other character kept |
| Text.Contains | internal/filter/filter.go:14-15 | `strings.Contains`: the scan that Text.ContainsIffOccurs proves equal to "occurs at some position" |
| Text.ContainsIffOccurs | internal/filter/filter.go:14-15 | the substring test succeeds exactly when the query occurs at some position of the text |
| Filter.FilterByQuery | internal/filter/filter.go:9-21 | an article is in the result iff it is in the input and lower(query) occurs in lower(title) or lower(summary); the result is an order-preserving subsequence of the input |
| Filter.KeepsEveryCopy | internal/filter/filter.go:13-18 | every matching article is kept as many times as it occurs in the input, and a non-matching one never |
| Filter.Matches | internal/filter/filter.go:14-15 | an article matches when the lowered query occurs in the lowered title or the lowered summary (stated by Filter.CaseInsensitive and Text.ContainsIffOccurs) |
| Filter.FilterAppend | internal/filter/filter.go:13-18 | appending an article to the input appends it to the output iff it matches |
| Filter.EmptyQueryKeepsAll | internal/filter/filter_test.go:32 | the empty query keeps every article, in order |
| Filter.NoMatchIsEmpty | internal/filter/filter_test.go:31 | a query no article matches gives the empty result |
| Filter.Idempotent | internal/filter/filter.go:9-21 | filtering the output again with the same query changes nothing |
| Filter.CaseInsensitive | internal/filter/filter.go:12-15 | the case of the query, the title or the summary never changes whether an article matches |
| Filter.AppleMatchesApple | internal/filter/filter_test.go:23 | "apple" matches an article titled "Apple Inc. Announces New Product" |
| Stocks.FilterByQuery | internal/stocks/alphavantage.go:109-121 | the loop in package stocks returns exactly what the filter package returns, so the empty query keeps everything there too |
| MultiFetcher.GatheredLength | internal/news/multi-fetcher.go:23 | the combined list's length is the sum of the providers' list lengths |
| MultiFetcher.GetNewsByTicker | internal/news/multi-fetcher.go:15-27 | succeeds iff every provider does, with their lists concatenated in provider order. Otherwise the first failing provider's error is returned and no later provider is asked. No providers gives an empty list |
| AlphaVantage.ToArticle | internal/news/alphavantage_queries.go:89-104 | banner_image becomes Image, time_published becomes PublishedAt, the label becomes Sentiment, the ticker_sentiment tickers in order become Tickers; other fields copy by name |
| AlphaVantage.ToArticles | internal/news/alphavantage_queries.go:87-105 | one article per feed item, in feed order |
| AlphaVantage.GetNewsByTicker | internal/news/alphavantage_queries.go:31-108 | the error class follows the first failing step. No key is Configuration; request or transport failure is ServiceUnavailable, or the raw context error; non-200 is ServiceUnavailable; a decode failure is Internal; an empty feed is NotFound. Success only with a non-empty feed |
| AlphaVantage.LegacyGetNewsByTicker | internal/news/news.go:37-87 | the older variant fails without a key, on a non-200 status or a decode failure, with unclassified errors; any decoded feed, empty included, maps to articles one per item |
| AlphaVantage.NoRequestWithoutKey | internal/news/alphavantage_queries.go:32-35 | without a key the answer does not depend on the network at all, in both variants |
| AlphaVantage.VariantsAgreeOnNonEmptyFeeds | internal/news/news.go:66-86 | both variants return the same articles for every non-empty feed; on the empty feed one says NotFound and the other returns an empty list |
| Fetcher.GetNewsByTicker | internal/news/alphavantage_fetcher.go:24-43 | a hit never calls origin. On a miss, origin is called with the same ticker. Its error is returned wrapped, sentinels still detectable, and the cache is untouched. Its list is cached under the ticker with expiration now+ttl and returned unchanged |
| Fetcher.SecondFetchHitsCache | internal/news/alphavantage_fetcher.go:25-42 | after an origin fetch, a second fetch within ttl returns the same list without calling origin |
| Api.ValidTicker | internal/api/handlers.go:20 | `^[A-Z]{1,10}$`: one to ten characters, every one an upper-case ASCII letter |
| Api.ValidTickerBoundaries | internal/api/handlers.go:20 | lengths one and ten pass; the empty ticker, eleven letters, lower case and a digit fail |
| Api.SummarizeRequested | internal/api/handlers.go:80 | the summarize flag with default "false" compared with "true" (stated by Api.SummarizeFlag) |
| Api.Digest | internal/api/handlers.go:117-120 | the summarizer's input, one `title:summary` line per article (stated by Api.DigestEmptyIff and Api.DigestAppend) |
| Api.DigestEmptyIff | internal/api/handlers.go:117-126 | the summarizer's input is empty exactly when there are no articles, so only an empty list skips the AI call |
| Api.DigestAppend | internal/api/handlers.go:117-120 | each article contributes its own `title:summary` line, in article order |
| Api.FetchFailure | internal/api/handlers.go:97-113 | provider errors map in priority order (deadline, canceled, NotFound, ServiceUnavailable, Internal, anything else); for the single-chain errors the service builds the order never decides, because such an error carries at most one sentinel (AppErrors.IsOnly), as the per-sentinel lemmas below state |
| Api.SummaryFailure | internal/api/handlers.go:132-144 | summarizer errors map deadline to 504, canceled to 408, anything else to 500 with the error's own text; see the per-sentinel lemmas below |
| Api.FetchFailureDeadline | internal/api/handlers.go:100-101 | any single-chain provider error carrying context.DeadlineExceeded, however wrapped, gives 504 "Request timed out.", whatever the order of the checks |
| Api.FetchFailureCanceled | internal/api/handlers.go:102-103 | any single-chain provider error carrying context.Canceled gives 408 "Request canceled." |
| Api.FetchFailureNotFound | internal/api/handlers.go:104-105 | any single-chain provider error carrying ErrNotFound gives 404 "No news found for the specified ticker." |
| Api.FetchFailureUnavailable | internal/api/handlers.go:106-107 | any single-chain provider error carrying ErrServiceUnavailable gives 503 "External service unavailable." |
| Api.FetchFailureInternal | internal/api/handlers.go:108-109 | any single-chain provider error carrying ErrInternal gives 500 "Internal server error." |
| Api.FetchFailureConfiguration | internal/api/handlers.go:110-111 | a single-chain provider error carrying ErrConfiguration (a missing API key) matches none of the handler's checks and gives 500 "Unknown error." |
| Api.SummaryFailureDeadline | internal/api/handlers.go:135-136 | any single-chain summarizer error carrying context.DeadlineExceeded gives 504 "Request timed out." |
| Api.SummaryFailureCanceled | internal/api/handlers.go:137-138 | any single-chain summarizer error carrying context.Canceled gives 408 "Request canceled." |
| Api.SummaryFailureOther | internal/api/handlers.go:139-140 | a single-chain summarizer error carrying any non-context sentinel gives 500 with the error's own text |
| Api.HandleNews | internal/api/handlers.go:77-158 | status 400 iff the ticker fails `^[A-Z]{1,10}$`, and then the provider is not called. Provider errors map as FetchFailure says. Summarize sends the digest to the AI (200 with "" and no AI call for no articles). Otherwise the body is the ticker with the filtered articles |
| Api.SummarizeIgnoresQuery | internal/api/handlers.go:116-151 | summarize takes precedence over `q`: the query never changes a summarize response |
| Api.SummarizeFlag | internal/api/handlers.go:80 | only the exact parameter value "true" turns summarizing on; absent means off |
| Api.HandlerTestCases | internal/api/handlers_test.go:66-154 | the test table's invalid ticker, unfiltered success, NotFound, ServiceUnavailable and generic-error cases give the expected status and body |

## Findings

| source | as written | input that shows it | evidently intended | confidence | as-written member | corrected member |
|---|---|---|---|---|---|---|
| internal/cache/persistent-cache.go:55-64 | `cleanup` takes `RLock`, deletes, calls `RUnlock`, then `Unlock` on a write lock nobody holds | any cleanup tick with no writer holding the lock; the first comes ttl/2 after start. Go aborts the process with "Unlock of unlocked RWMutex". The deletions also run under the read lock only | `Lock` ... `Unlock` around the deletions | high; not executed | RWMutex.CleanupAsWrittenAborts | RWMutex.CleanupCorrectedRestores |
| internal/storage/postgres-storage.go:79-82 | the read query says `expiration > $2`, but only the ticker is bound | any read, e.g. of a live row just written. It fails, so the cache never promotes from Postgres and a restart loses the durable tier | bind now as `$2` | high; not executed | Postgres.AsWrittenMissesLiveRow | Postgres.GetArticles |
| internal/storage/sqlite-storage.go:84-88 | the read has no expiration filter, and the cache does not re-check the expiration it gets back | a row whose expiration has passed but which no sweep has removed yet. It is returned and promoted, although the interface (storage.go:15) promises articles only if not expired | add `AND expiration > now` | high; not executed | Sqlite.AsWrittenServesExpiredRow | Sqlite.GetArticles |

`Tiers.PostgresAsWrittenNeverPromotes` and `Tiers.SqliteAsWrittenBreaksExpirationLaw` show what the last two rows mean for the cache as a whole. `Tiers` otherwise uses the corrected reads. `Tiers.Cleanup`, and with it `Tiers.SweepLaw`, describes cleanup with the corrected lock calls of `RWMutex.CleanupCorrectedRestores`. As written, cleanup aborts at the `Unlock` on persistent-cache.go:64 and never reaches `DeleteExpired` on line 66.

## Left out

- Concurrency is left out: the read/write lock (except the lock-call sequence of `cleanup`), the `startCleanupTimer` goroutine, `Stop`, and context timeouts. The sweep is an explicit step with `now` as a parameter.
- `time.NewTicker` panics for a non-positive interval. With a ttl below two nanoseconds, the cleanup goroutine would crash the process. The timer is not modelled.
- The wall clock is an integer `now`. The source reads `time.Now()` separately in each function. The model uses one `now` per operation, so a save's `created_at` may differ from the instant the cache computed the expiration.
- Timestamp storage is left out. This covers microsecond truncation and time zones of Postgres `TIMESTAMP`, and the text form the SQLite driver uses. Expirations compare as integers.
- The JSON codec (`MarshalArticles` / `UnmarshalArticles`) is taken as given. Its round trip is the hypothesis `Models.RoundTrips`.
- Logging is left out. Every logged-only error is dropped.
- Storage connections, `Close`, `NewPostgresStorage`, `NewSQLiteStorage` and `initialize` (DDL) are left out.
- HTTP plumbing is left out: `Server.Run`, routing, `/health`, the logging middleware, port defaulting, request URL construction and JSON rendering. Go renders a nil list as `null` and an empty one as `[]`; sequences do not distinguish the two.
- `strings.ToLower` is modelled on ASCII letters only. Unicode case mapping is left out.
- `internal/ai/ollama.go` is left out. Only its outcome, a summary or an error, enters `Api.HandleNews`.
- The constructors `NewAlphaVantageFetcher`, `NewMultiFetcher` and `NewServer` only store their arguments. They are left out.
- `internal/news/fetcher.go`, `internal/server/server.go` and the rest of `cmd/server/main.go` are left out. `stocks.GetNewsByTicker` is also not part of this model; only `stocks.FilterByQuery` is.
- The `ctx` argument passed to providers is left out.
- AppErrors.Error: an error wrapping several errors is not modelled. That covers two `%w` in one `fmt.Errorf`, `errors.Join`, and a custom `Is` method. No function in the service builds such an error: each `fmt.Errorf` has at most one `%w`, and the causes go in with `%v`. For such an error the order of the checks in handleNews (handlers.go:100-111) would decide the status. For example, `errors.Join(ErrNotFound, context.Canceled)` would give 408. `AppErrors.IsAtMostOne`, `AppErrors.IsOnly` and the order-free `Api.FetchFailure*` and `Api.SummaryFailure*` lemmas hold for single-chain errors only.
- AlphaVantage.LegacyGetNewsByTicker: ignores the context error of a transport failure. The older variant has no context, so that error is always wrapped as a request error.
