# gator feed aggregation core, modelled in Dafny

gator is a command-line RSS aggregator written in Go. The program registers a handler per command name, and users invoke commands by name. The `agg` command runs scrape passes on a timer. Each pass picks the next feed from Postgres, marks it fetched, downloads and decodes its RSS document, and stores every item as a post. This project models the sequential logic of `internal/config/main.go` and proves what that logic promises:

- the command registry (`Commands.Register` and `Commands.Run`);
- the entity-unescaping rebuild of a decoded feed in `fetchFeed`;
- the four-layout fallback that normalises an item's `pubDate`;
- one scrape pass, `ScrapeFeeds`, with its insert loop;
- the page-size default of `browse`.

Modules, one per concern of the source file:

- `Wrappers`: `Option` and `Result`.
- `Commands`: the registry, as a class holding a `map` from names to handlers. A handler is a function from the application state and the command to a new state and an optional error.
- `Rss`: the `RSSFeed`/`Channel`/`RSSItem` records and the pure rebuild. `html.UnescapeString` is a function parameter `unescape`. The HTTP exchange and XML decoding are a parameter `network` that returns a decoded feed or `Exit`.
- `PubDate`: the layout constants, the nested fallback chain as written (`ParsePubDate`), and a reference definition of "first success, else last attempt" (`FirstSuccessIndex`). `time.Parse` is a parameter that returns Go's `(Time, error)` pair.
- `Browse`: the limit of `browse` and Go's `int32` conversion of it.
- `Scrape`: a `Store` class with a feeds table (id to row, with a nullable `last_fetched_at`), a posts list and a ghost trace of effects. The database's answers come from three oracle functions fixed when the store is made: selection, mark-fetched failure and insert outcome. `ScrapeFeeds`, its tail `FetchAndInsert`, its loop `InsertItems` and the loop body `InsertItem` are methods. Their postconditions tie the new tables, the printed lines and the trace to the fold `Ingest` and the list `Attempts`.

Behaviour of the code worth noting:

- Posts are stored with the feed's URL (`Url: feed.Url`, internal/config/main.go:355), not the item's link. `Scrape.UrlKeyAdmitsOnePost` shows the consequence: if the table were unique on the post URL, one pass could add at most one post.
- The selection query is an oracle. Nothing is assumed about its ordering, including "never-fetched feeds first": the SQL is not part of this model.
- When no layout parses a date, the post keeps the time value of the last failed parse. Go's `time.Parse` returns the zero `Time` (0001-01-01 UTC) with every error, so in the program that value is the zero time; the model leaves it to the `parse` parameter. `PublishedAt` is a `time.Time` (internal/config/main.go:353), which has no null value, so an unparsed date cannot be stored as absent. The commented-out `time.Now()` line (343) only explains why the value is not the current time.
- Every failure in `fetchFeed` ends the process (`os.Exit(1)`). So the pass ends with `ProcessExited`, and the `err != nil` branch after the fetch (lines 326-328) cannot be reached.
- Insert errors that are not Postgres errors are passed over without a line printed. Only Postgres errors other than `unique_violation` are printed.

## Model

| member | source | states |
|---|---|---|
| `Commands.Commands.constructor` | main.go:28-30 | a fresh registry has no commands |
| `Commands.Commands.Run` | internal/config/main.go:59-69 | an unregistered name yields "error: command not in map" and leaves the state untouched (no handler runs); a registered name yields exactly the state and error its handler returns |
| `Commands.Commands.Register` | internal/config/main.go:71-73 | the map becomes the old map with `name` bound to `f` (insert or overwrite); every other name keeps its handler; afterwards `Run` on `name` is `f`, and `Run` on every other name behaves as before |
| `Rss.UnescapeItems` | internal/config/main.go:481-488 | one output item per input item, same order; item `i` has the unescaped title and description and the original link and pubDate of input item `i` |
| `Rss.Unescaped` | internal/config/main.go:472-490 | channel title and description are unescaped, the channel link is copied, the item count and order are kept, and each item's link/pubDate are copied and its title/description unescaped |
| `Rss.FetchFeed` | internal/config/main.go:443-492 | the result is an exit exactly when the network/decoding step exits; otherwise it is the rebuilt decoded feed |
| `Rss.UnescapeItem` | internal/config/main.go:482-487 | the rebuilt item has the unescaped title and description and the original link and pubDate |
| `Rss.UnescapeItemsIdentity` | internal/config/main.go:481-488 | documentation only, a direct consequence of `UnescapeItems`'s contract: with an unescaping that changes nothing, the rebuilt items are the decoded items |
| `PubDate.FirstSuccessIndex` | internal/config/main.go:331-347 | reference definition of the chain: every layout before the chosen index fails, and the chosen one parses unless it is the last layout |
| `PubDate.ParsePubDateIsFirstSuccess` | internal/config/main.go:331-347 | the nested chain over RFC1123Z, RFC1123, "Mon, 2 Jan 2006 15:04:05 -0700", "2 Jan 2006 15:04:05 -0700" returns the parse of the layout the reference definition chooses |
| `PubDate.ParsePubDate` | internal/config/main.go:331-347 | the nested chain as written; its contract says the result is one of the four attempts and a failure is the `NoWeekday` attempt; `ParsePubDateIsFirstSuccess`, `FirstSuccessWins`, `FailsIffAllFail` and `LaterLayoutsIgnored` specify it fully |
| `PubDate.FirstSuccessWins` | internal/config/main.go:331-339 | if layout `i` parses and all earlier ones fail, the result is layout `i`'s parse, a success |
| `PubDate.FailsIffAllFail` | internal/config/main.go:337-344 | normalisation fails exactly when all four layouts fail, and then it returns the last attempt's pair (the `NoWeekday` layout) |
| `PubDate.LaterLayoutsIgnored` | internal/config/main.go:331-339 | no layout after the first success is consulted: two parsers agreeing on the layouts up to it give the same result |
| `Browse.BrowseLimit` | internal/config/main.go:226-235 | no argument gives the default 2; with an argument the process exits exactly when `Atoi` fails, and the limit is the parsed value otherwise |
| `Browse.ToInt32` | internal/config/main.go:243 | `int32(n)` lies in [-2^31, 2^31) and is congruent to `n` modulo 2^32 |
| `Browse.ToInt32InRange` | internal/config/main.go:243 | documentation only, a direct consequence of `ToInt32`'s definition: a value already in the 32-bit range is unchanged by the conversion |
| `Browse.QueryLimit` | internal/config/main.go:226-243 | the query gets no limit exactly when the argument is rejected (the process exits), gets 2 with no argument, and otherwise the 32-bit conversion of the parsed limit |
| `Browse.WrapsAtTwoTo32` | internal/config/main.go:229-243 | documentation only, a single worked example: an argument of 2^32 reaches the query as a limit of 0 |
| `Scrape.Store.NextFeed` | internal/config/main.go:310-313 | the selection fails exactly when the query does; otherwise it names a feed in the table with that row's name and URL |
| `Scrape.Store.GetNextFeedToFetch` | internal/config/main.go:310 | returns the selection, changes no table, and records one selection query |
| `Scrape.Store.MarkFeedFetchedById` | internal/config/main.go:315-322 | unless the query fails, the selected row's `updated_at` and `last_fetched_at` are set (the latter valid); no other row changes |
| `Scrape.Marked` | internal/config/main.go:315-319 | the feeds table keeps its keys; on success the feed's `last_fetched_at` is `Some(now)` with name and URL kept; every other row is unchanged |
| `Scrape.Store.CreatePost` | internal/config/main.go:348-357 | the post is appended exactly when the insert succeeds; one insert call is recorded |
| `Scrape.PostFor` | internal/config/main.go:348-357 | the post has the feed's id and the feed's URL, the item's title and description, the normalised pubDate's time, and the pass's clock reading as created and updated time |
| `Scrape.Attempts` | internal/config/main.go:329-357 | one `CreatePost` call per item, in item order, each with that item's post |
| `Scrape.ItemLines` | internal/config/main.go:341-366 | one line for an unparsed date plus one for a Postgres error other than `unique_violation`, and no other line (so a unique violation or a non-Postgres error prints nothing): the first is a date warning exactly when the date is unparsed, and the last is a Postgres error line exactly when the insert failed with a Postgres error other than `unique_violation`, carrying its condition name; `UnparsedDateStillPosted` gives the warning's contents |
| `Scrape.IngestItem` | internal/config/main.go:330-367 | one loop iteration: the item's post is appended exactly when the insert succeeds, and the item's lines follow the earlier ones |
| `Scrape.Ingest` | internal/config/main.go:329-368 | the fold of the loop over the items: at most two lines per item; `IngestKeepsPrinted` states that earlier lines are kept, and `IngestAppendsFeedPosts` and the uniqueness lemmas below specify its posts |
| `Scrape.InsertItem` | internal/config/main.go:330-367 | the loop body leaves exactly the posts and lines of `IngestItem` started from no lines, and records one `CreatePost` call with the item's post |
| `Scrape.FetchAndInsert` | internal/config/main.go:324-369 | records the fetch; if the process exits in it, no insert happens; otherwise the posts and lines are those of `Ingest`, the calls those of `Attempts`, and nil is returned |
| `Scrape.IngestKeepsPrinted` | internal/config/main.go:329-368 | a pass only appends lines: what was printed before it is a prefix of what is printed after it |
| `Scrape.SwallowedErrorPrintsNothing` | internal/config/main.go:359-366 | documentation only, a direct consequence of `ItemLines`'s contract: after a success, a unique violation or a non-Postgres error, an item prints nothing when its date parses and only the date warning otherwise |
| `Scrape.UnparsedDateStillPosted` | internal/config/main.go:341-357 | an item's lines start with a date warning exactly when all four layouts fail; then its post carries the last failed parse's time and the warning names the feed, title, raw date and that parse's error |
| `Scrape.InsertItems` | internal/config/main.go:329-368 | the loop leaves exactly the posts and printed lines of the fold `Ingest` and records exactly the calls of `Attempts`: no answer stops it |
| `Scrape.ScrapeFeeds` | internal/config/main.go:309-370 | a failing selection or mark query is returned with no fetch and no insert; otherwise the feed is marked fetched (`last_fetched_at` valid) before the fetch and any insert, every item gets one insert in order, and the pass returns nil (or the process exits in the fetch) |
| `Scrape.IngestAppendsFeedPosts` | internal/config/main.go:348-368 | a pass only appends, at most one row per item, and every added row has the feed's id and URL |
| `Scrape.IngestKeepsKeysDistinct` | internal/config/main.go:359-367 | with a uniqueness constraint on any key, whatever other insert errors occur (the loop tolerates them), a pass keeps post keys distinct |
| `Scrape.IngestCoversItems` | internal/config/main.go:329-367 | with a uniqueness constraint and no other insert errors, after a pass every item's key is in the table, written or already present |
| `Scrape.IngestKnownItemsWritesNothing` | internal/config/main.go:359-367 | with a uniqueness constraint, whatever other insert errors occur, items whose keys are all present write nothing |
| `Scrape.IngestTwiceIsOnce` | internal/config/main.go:329-368 | idempotence across ticks: for a uniqueness key that does not depend on the pass's clock reading, ingesting the same items again at a later instant, even with other insert errors on that second pass, leaves the posts table as the first pass left it |
| `Scrape.UrlKeyAdmitsOnePost` | internal/config/main.go:355 | because every post carries the feed URL, a URL-unique table gains at most one row per pass, and none once the feed URL is stored, whatever other insert errors occur |

## Left out

- The HTTP request, `client.Do`, reading the body and `xml.Unmarshal` (internal/config/main.go:443-470) are one function parameter `network`. Their error messages are not modelled, only the exit.
- Scrape.ScrapeFeeds: the fetch has no timeout (`http.Client{}` at internal/config/main.go:452, `context.Background()` at line 324), so a pass can block forever. `network` is total, so a pass that never returns is not modelled.
- `html.UnescapeString`, `time.Parse` and `strconv.Atoi` are function parameters. The model does not reimplement entity decoding, date parsing or decimal parsing.
- The SQL behind `GetNextFeedToFetch`, `MarkFeedFetchedById` and `CreatePost`, and the posts table's uniqueness key, are not part of this model. They are the oracle functions of `Scrape.Store`. The idempotence lemmas hold for any key.
- Scrape.Store.CreatePost: its answer is a function of the current posts and the new post. A transient error that differs between two identical calls is not captured.
- Scrape.ScrapeFeeds: every `time.Now()` reading of a pass is one instant `now`. The post UUID (`uuid.New`) is not modelled.
- The printed text is modelled as structured `Line` values, not as formatted strings. Messages printed just before `os.Exit` are not modelled.
- `HandlerAgg`'s ticker loop never terminates and is driven by time, so it is not modelled. One iteration of it is `ScrapeFeeds`.
- Config file reading and writing (`SetUser`, `Read`, `getConfigFilePath`) is filesystem and JSON I/O, and is not modelled.
- Browse.QueryLimit: the current-user lookup of `browse` (internal/config/main.go:236-239) is not modelled. When it fails the process also exits, so in the program an exit does not imply a rejected argument.
- The print-only handlers, the other user and follow handlers, `MiddlewareLoggedIn` and the posts query of `browse` are not modelled. They only read, print or pass a query to the database.
- The argument checks and wiring in `main.go` are process wiring. Only the creation of the empty registry is modelled.
- Browse.BrowseLimit: Go's `int` is 64 bits and `Atoi` rejects larger values. That range is left to the `atoi` parameter.
