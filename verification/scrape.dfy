/**
 * One scrape pass: pick the next feed, mark it fetched, fetch and rebuild
 * it, then try to store every item as a post. Storage is a class whose
 * tables the pass updates; what the database answers to each query is
 * given by oracle functions fixed when the store is made.
 */
module Scrape {
  import opened Wrappers
  import opened Rss
  import opened PubDate

  /** A feed's UUID. */
  type FeedId = int

  /** A row of the feeds table, reduced to the columns the pass touches. */
  datatype FeedRow = FeedRow(name: string, url: string, updatedAt: Time, lastFetchedAt: Option<Time>)

  /** The feed record the selection query returns. */
  datatype SelectedFeed = SelectedFeed(id: FeedId, name: string, url: string)

  /** An error of the database driver, identified by its text. */
  datatype DbError = DbError(msg: string)

  /** The columns of one `CreatePost` call (the generated post UUID aside). */
  datatype Post = Post(title: string, publishedAt: Time, description: string, url: string,
                       feedId: FeedId, createdAt: Time, updatedAt: Time)

  /**
   * The answer to one `CreatePost`: a row was written, a Postgres error
   * with its condition name, or an error of some other kind.
   */
  datatype InsertResult = Inserted | PqError(code: string) | OtherError(e: DbError)

  /** The condition name of a uniqueness conflict. */
  const UniqueViolation := "unique_violation"

  /** The lines the pass prints. */
  datatype Line =
    | DateWarning(feedName: string, title: string, pubDate: string, err: ParseError)
    | PqErrorLine(code: string)

  /** The external effects of a pass, in the order they happen. */
  datatype Effect =
    | NextFeedQuery
    | MarkFetched(id: FeedId, at: Time)
    | Fetch(url: string)
    | CreatePost(post: Post)

  /** How a pass ends: it returned (with an error or nil), or the process exited. */
  datatype PassEnd = Returned(err: Option<DbError>) | ProcessExited

  class Store {
    var feeds: map<FeedId, FeedRow>
    var posts: seq<Post>
    /** The effects issued so far, storage queries and fetches alike. */
    ghost var trace: seq<Effect>

    /** The feed the selection query answers with, or its error. */
    const pickNext: map<FeedId, FeedRow> -> Result<FeedId, DbError>
    /** Whether marking a feed fetched fails. */
    const markResult: (FeedId, Time) -> Option<DbError>
    /** The answer to inserting a post into the current posts table. */
    const insertResult: (seq<Post>, Post) -> InsertResult

    /** The selection query only ever names a feed that is in the table. */
    ghost predicate Valid()
    {
      forall m :: pickNext(m).Success? ==> pickNext(m).value in m
    }

    constructor (feeds0: map<FeedId, FeedRow>, posts0: seq<Post>,
                 pick: map<FeedId, FeedRow> -> Result<FeedId, DbError>,
                 mark: (FeedId, Time) -> Option<DbError>,
                 insert: (seq<Post>, Post) -> InsertResult)
      requires forall m :: pick(m).Success? ==> pick(m).value in m
      ensures Valid()
      ensures feeds == feeds0 && posts == posts0 && trace == []
      ensures pickNext == pick && markResult == mark && insertResult == insert
    {
      feeds, posts, trace := feeds0, posts0, [];
      pickNext, markResult, insertResult := pick, mark, insert;
    }

    /** The record the selection query returns for the current table. */
    function NextFeed(): (r: Result<SelectedFeed, DbError>)
      reads this
      requires Valid()
      ensures r.Failure? <==> pickNext(feeds).Failure?
      ensures r.Success? ==> r.value.id in feeds && r.value.id == pickNext(feeds).value
                             && r.value.url == feeds[r.value.id].url && r.value.name == feeds[r.value.id].name
    {
      match pickNext(feeds)
      case Failure(e) => Failure(e)
      case Success(id) => Success(SelectedFeed(id, feeds[id].name, feeds[id].url))
    }

    /** `GetNextFeedToFetch`: a read-only query. */
    method GetNextFeedToFetch() returns (r: Result<SelectedFeed, DbError>)
      requires Valid()
      modifies this`trace
      ensures Valid()
      ensures r == NextFeed()
      ensures trace == old(trace) + [NextFeedQuery]
    {
      r := NextFeed();
      trace := trace + [NextFeedQuery];
    }

    /**
     * `MarkFeedFetchedById`: unless the query fails, the feed's
     * `updated_at` and `last_fetched_at` become the given instants; no other
     * row changes.
     */
    method MarkFeedFetchedById(id: FeedId, updatedAt: Time, lastFetchedAt: Time) returns (err: Option<DbError>)
      requires Valid()
      modifies this`feeds, this`trace
      ensures Valid()
      ensures err == markResult(id, lastFetchedAt)
      ensures feeds == Marked(old(feeds), id, updatedAt, lastFetchedAt, err)
      ensures trace == old(trace) + [MarkFetched(id, lastFetchedAt)]
    {
      err := markResult(id, lastFetchedAt);
      feeds := Marked(feeds, id, updatedAt, lastFetchedAt, err);
      trace := trace + [MarkFetched(id, lastFetchedAt)];
    }

    /** `CreatePost`: the row is appended exactly when the insert succeeds. */
    method CreatePost(p: Post) returns (r: InsertResult)
      requires Valid()
      modifies this`posts, this`trace
      ensures Valid()
      ensures r == insertResult(old(posts), p)
      ensures posts == if r.Inserted? then old(posts) + [p] else old(posts)
      ensures trace == old(trace) + [Effect.CreatePost(p)]
    {
      r := insertResult(posts, p);
      if r.Inserted? {
        posts := posts + [p];
      }
      trace := trace + [Effect.CreatePost(p)];
    }
  }

  /** The feeds table after a mark-fetched update that returned `err`. */
  function Marked(feeds: map<FeedId, FeedRow>, id: FeedId, updatedAt: Time, at: Time, err: Option<DbError>)
    : (r: map<FeedId, FeedRow>)
    ensures r.Keys == feeds.Keys
    ensures err.None? && id in feeds ==> r[id].lastFetchedAt == Some(at) && r[id].updatedAt == updatedAt
                                         && r[id].url == feeds[id].url && r[id].name == feeds[id].name
    ensures forall other :: other in feeds && (other != id || err.Some?) ==> r[other] == feeds[other]
  {
    if err.None? && id in feeds then feeds[id := feeds[id].(updatedAt := updatedAt, lastFetchedAt := Some(at))]
    else feeds
  }

  /** The post the loop builds for an item: the feed's URL, not the item's link. */
  function PostFor(feed: SelectedFeed, item: Item, parse: ParseFn, now: Time): (p: Post)
    ensures p.feedId == feed.id && p.url == feed.url
    ensures p.title == item.title && p.description == item.description
    ensures p.publishedAt == ParsePubDate(parse, item.pubDate).t
    ensures p.createdAt == now && p.updatedAt == now
  {
    Post(item.title, ParsePubDate(parse, item.pubDate).t, item.description, feed.url, feed.id, now, now)
  }

  /** The `CreatePost` calls for a list of items: one per item, in item order. */
  function Attempts(feed: SelectedFeed, items: seq<Item>, parse: ParseFn, now: Time): (r: seq<Effect>)
    ensures |r| == |items|
    ensures forall i :: 0 <= i < |items| ==> r[i] == Effect.CreatePost(PostFor(feed, items[i], parse, now))
  {
    if items == [] then []
    else Attempts(feed, items[..|items| - 1], parse, now) + [Effect.CreatePost(PostFor(feed, items[|items| - 1], parse, now))]
  }

  /**
   * An item whose date no layout accepts is still offered to `CreatePost`,
   * with the time of the last failed parse, and a warning naming the feed,
   * the item title and the raw date is printed; an item whose date parses
   * prints no warning.
   */
  lemma UnparsedDateStillPosted(feed: SelectedFeed, item: Item, parse: ParseFn, now: Time, res: InsertResult)
    ensures var lines := ItemLines(feed, item, parse, res);
            (lines != [] && lines[0].DateWarning?) <==>
              forall j :: 0 <= j < |Layouts| ==> parse(Layouts[j], item.pubDate).err.Some?
    ensures (forall j :: 0 <= j < |Layouts| ==> parse(Layouts[j], item.pubDate).err.Some?) ==>
              && PostFor(feed, item, parse, now).publishedAt == parse(NoWeekday, item.pubDate).t
              && ItemLines(feed, item, parse, res)[0]
                   == DateWarning(feed.name, item.title, item.pubDate, parse(NoWeekday, item.pubDate).err.value)
  {
    FailsIffAllFail(parse, item.pubDate);
  }

  /** What the pass has stored and printed so far. */
  datatype Ledger = Ledger(posts: seq<Post>, printed: seq<Line>)

  /**
   * The lines one item prints: a date warning when its date is unparsed,
   * then the condition name of a Postgres error other than a unique
   * violation; a unique violation and a non-Postgres error print nothing.
   */
  function ItemLines(feed: SelectedFeed, item: Item, parse: ParseFn, res: InsertResult): (r: seq<Line>)
    ensures |r| == (if ParsePubDate(parse, item.pubDate).err.Some? then 1 else 0)
                 + (if res.PqError? && res.code != UniqueViolation then 1 else 0)
    ensures (res.PqError? && res.code != UniqueViolation) <==> (r != [] && r[|r| - 1].PqErrorLine?)
    ensures r != [] && r[|r| - 1].PqErrorLine? ==> r[|r| - 1] == PqErrorLine(res.code)
    ensures (r != [] && r[0].DateWarning?) <==> ParsePubDate(parse, item.pubDate).err.Some?
  {
    var date := ParsePubDate(parse, item.pubDate);
    (if date.err.Some? then [DateWarning(feed.name, item.title, item.pubDate, date.err.value)] else [])
    + (if res.PqError? && res.code != UniqueViolation then [PqErrorLine(res.code)] else [])
  }

  /**
   * One iteration of the insert loop: the item's post is appended exactly
   * when the insert succeeds, and the item's lines follow the earlier ones.
   */
  function IngestItem(insert: (seq<Post>, Post) -> InsertResult, l: Ledger,
                      feed: SelectedFeed, item: Item, parse: ParseFn, now: Time): (r: Ledger)
    ensures var p := PostFor(feed, item, parse, now);
            r.posts == if insert(l.posts, p).Inserted? then l.posts + [p] else l.posts
    ensures r.printed == l.printed + ItemLines(feed, item, parse, insert(l.posts, PostFor(feed, item, parse, now)))
  {
    var p := PostFor(feed, item, parse, now);
    var res := insert(l.posts, p);
    Ledger(if res.Inserted? then l.posts + [p] else l.posts, l.printed + ItemLines(feed, item, parse, res))
  }

  /**
   * The insert loop over a list of items, as a fold from the first item to
   * the last: lines are only appended, at most two per item.
   */
  function Ingest(insert: (seq<Post>, Post) -> InsertResult, l: Ledger,
                  feed: SelectedFeed, items: seq<Item>, parse: ParseFn, now: Time): (r: Ledger)
    ensures |l.printed| <= |r.printed| <= |l.printed| + 2 * |items|
  {
    if items == [] then l
    else IngestItem(insert, Ingest(insert, l, feed, items[..|items| - 1], parse, now), feed, items[|items| - 1], parse, now)
  }

  /** A pass never rewrites what was printed before it: earlier lines stay a prefix. */
  lemma {:induction false} IngestKeepsPrinted(insert: (seq<Post>, Post) -> InsertResult, l: Ledger,
                                              feed: SelectedFeed, items: seq<Item>, parse: ParseFn, now: Time)
    ensures Ingest(insert, l, feed, items, parse, now).printed[..|l.printed|] == l.printed
  {
    if items != [] {
      IngestKeepsPrinted(insert, l, feed, items[..|items| - 1], parse, now);
    }
  }

  /**
   * A unique violation, like a non-Postgres error, prints nothing; with a
   * parsed date the item then prints no line at all.
   */
  lemma SwallowedErrorPrintsNothing(feed: SelectedFeed, item: Item, parse: ParseFn, res: InsertResult)
    requires res.Inserted? || res.OtherError? || (res.PqError? && res.code == UniqueViolation)
    ensures ParsePubDate(parse, item.pubDate).err.None? ==> ItemLines(feed, item, parse, res) == []
    ensures ParsePubDate(parse, item.pubDate).err.Some? ==>
              ItemLines(feed, item, parse, res)
                == [DateWarning(feed.name, item.title, item.pubDate, ParsePubDate(parse, item.pubDate).err.value)]
  {
  }

  /**
   * One pass of `ScrapeFeeds`. A failing selection or mark-fetched query is
   * returned and nothing else happens; otherwise the feed is marked fetched
   * before it is fetched, and every item of the fetched feed gets exactly
   * one `CreatePost` call, in order, whatever the earlier calls answered;
   * the pass then returns nil.
   */
  method ScrapeFeeds(db: Store, now: Time, network: string -> Fetched, unescape: string -> string, parse: ParseFn)
    returns (end: PassEnd, printed: seq<Line>)
    requires db.Valid()
    modifies db
    ensures db.Valid()
    // the selection query fails: its error is returned
    ensures old(db.NextFeed()).Failure? ==>
              && end == Returned(Some(old(db.NextFeed()).error)) && printed == []
              && db.feeds == old(db.feeds) && db.posts == old(db.posts)
              && db.trace == old(db.trace) + [NextFeedQuery]
    // the mark-fetched query fails: its error is returned
    ensures old(db.NextFeed()).Success? ==>
              var feed := old(db.NextFeed()).value;
              var markErr := db.markResult(feed.id, now);
              markErr.Some? ==>
                && end == Returned(markErr) && printed == []
                && db.feeds == old(db.feeds) && db.posts == old(db.posts)
                && db.trace == old(db.trace) + [NextFeedQuery, MarkFetched(feed.id, now)]
    // both succeed: the feed is marked, fetched, and its items are ingested
    ensures old(db.NextFeed()).Success? ==>
              var feed := old(db.NextFeed()).value;
              db.markResult(feed.id, now).None? ==>
                && db.feeds == old(db.feeds)[feed.id := old(db.feeds)[feed.id].(updatedAt := now, lastFetchedAt := Some(now))]
                && var fetched := FetchFeed(network, unescape, feed.url);
                   var prefix := old(db.trace) + [NextFeedQuery, MarkFetched(feed.id, now), Fetch(feed.url)];
                   if fetched.Exit? then
                     end == ProcessExited && printed == [] && db.posts == old(db.posts) && db.trace == prefix
                   else
                     var items := fetched.raw.channel.items;
                     var l := Ingest(db.insertResult, Ledger(old(db.posts), []), feed, items, parse, now);
                     && end == Returned(None)
                     && db.posts == l.posts && printed == l.printed
                     && db.trace == prefix + Attempts(feed, items, parse, now)
  {
    printed := [];
    ghost var feeds0, posts0 := db.feeds, db.posts;
    var next := db.GetNextFeedToFetch();
    assert next == old(db.NextFeed()) && db.feeds == feeds0 && db.posts == posts0;
    if next.Failure? {
      return Returned(Some(next.error)), printed;
    }
    var feed := next.value;
    var markErr := db.MarkFeedFetchedById(feed.id, now, now);
    if markErr.Some? {
      return Returned(markErr), printed;
    }
    assert feed.id in feeds0 && db.posts == posts0;
    assert db.feeds == feeds0[feed.id := feeds0[feed.id].(updatedAt := now, lastFetchedAt := Some(now))];
    ghost var marked := db.trace;
    assert marked + [Fetch(feed.url)] == old(db.trace) + [NextFeedQuery, MarkFetched(feed.id, now), Fetch(feed.url)];
    end, printed := FetchAndInsert(db, feed, now, network, unescape, parse);
  }

  /**
   * The tail of a pass once the feed is marked: fetch it and, unless the
   * process exits in the fetch, try every item and return nil.
   */
  method FetchAndInsert(db: Store, feed: SelectedFeed, now: Time, network: string -> Fetched,
                        unescape: string -> string, parse: ParseFn)
    returns (end: PassEnd, printed: seq<Line>)
    requires db.Valid()
    modifies db`posts, db`trace
    ensures db.Valid()
    ensures var fetched := FetchFeed(network, unescape, feed.url);
            if fetched.Exit? then
              end == ProcessExited && printed == [] && db.posts == old(db.posts)
              && db.trace == old(db.trace) + [Fetch(feed.url)]
            else
              var items := fetched.raw.channel.items;
              var l := Ingest(db.insertResult, Ledger(old(db.posts), []), feed, items, parse, now);
              && end == Returned(None)
              && db.posts == l.posts && printed == l.printed
              && db.trace == old(db.trace) + [Fetch(feed.url)] + Attempts(feed, items, parse, now)
  {
    db.trace := db.trace + [Fetch(feed.url)];
    var fetched := FetchFeed(network, unescape, feed.url);
    if fetched.Exit? {
      return ProcessExited, [];
    }
    printed := InsertItems(db, feed, fetched.raw.channel.items, parse, now);
    return Returned(None), printed;
  }

  /**
   * The insert loop of `ScrapeFeeds`: one `CreatePost` per item, in order.
   * A unique violation is passed over silently, another Postgres error is
   * printed, any other error is ignored, and no answer stops the loop.
   */
  method InsertItems(db: Store, feed: SelectedFeed, items: seq<Item>, parse: ParseFn, now: Time)
    returns (printed: seq<Line>)
    requires db.Valid()
    modifies db`posts, db`trace
    ensures db.Valid()
    ensures Ledger(db.posts, printed) == Ingest(db.insertResult, Ledger(old(db.posts), []), feed, items, parse, now)
    ensures db.trace == old(db.trace) + Attempts(feed, items, parse, now)
  {
    printed := [];
    var i := 0;
    while i < |items|
      invariant i <= |items|
      invariant db.Valid()
      invariant Ledger(db.posts, printed) == Ingest(db.insertResult, Ledger(old(db.posts), []), feed, items[..i], parse, now)
      invariant db.trace == old(db.trace) + Attempts(feed, items[..i], parse, now)
    {
      ghost var before := Ledger(db.posts, printed);
      var lines := InsertItem(db, feed, items[i], parse, now);
      printed := printed + lines;
      assert items[..i + 1][..i] == items[..i];
      assert Ledger(db.posts, printed) == IngestItem(db.insertResult, before, feed, items[i], parse, now);
      i := i + 1;
    }
    assert items[..i] == items;
  }

  /**
   * One iteration of the insert loop: normalise the item's date (printing
   * a warning when no layout accepts it), then try to store its post.
   */
  method InsertItem(db: Store, feed: SelectedFeed, item: Item, parse: ParseFn, now: Time)
    returns (lines: seq<Line>)
    requires db.Valid()
    modifies db`posts, db`trace
    ensures db.Valid()
    ensures Ledger(db.posts, lines) == IngestItem(db.insertResult, Ledger(old(db.posts), []), feed, item, parse, now)
    ensures db.trace == old(db.trace) + [Effect.CreatePost(PostFor(feed, item, parse, now))]
  {
    lines := [];
    var date := ParsePubDate(parse, item.pubDate);
    if date.err.Some? {
      lines := lines + [DateWarning(feed.name, item.title, item.pubDate, date.err.value)];
    }
    var res := db.CreatePost(Post(item.title, date.t, item.description, feed.url, feed.id, now, now));
    if res.PqError? {
      if res.code == UniqueViolation {
      } else {
        lines := lines + [PqErrorLine(res.code)];
      }
    }
  }

  /**
   * A pass only appends to the posts table, at most one row per item, and
   * every row it adds belongs to the scraped feed and carries its URL.
   */
  lemma {:induction false} IngestAppendsFeedPosts(insert: (seq<Post>, Post) -> InsertResult, l: Ledger,
                                                  feed: SelectedFeed, items: seq<Item>, parse: ParseFn, now: Time)
    ensures var r := Ingest(insert, l, feed, items, parse, now);
            && |l.posts| <= |r.posts| <= |l.posts| + |items|
            && r.posts[..|l.posts|] == l.posts
            && forall k :: |l.posts| <= k < |r.posts| ==> r.posts[k].feedId == feed.id && r.posts[k].url == feed.url
  {
    if items != [] {
      IngestAppendsFeedPosts(insert, l, feed, items[..|items| - 1], parse, now);
    }
  }

  /** Some post in `posts` has key `k`. */
  ghost predicate HasKey<K>(posts: seq<Post>, key: Post -> K, k: K)
  {
    exists q :: q in posts && key(q) == k
  }

  /** No two posts in `posts` share a key. */
  ghost predicate DistinctKeys<K>(posts: seq<Post>, key: Post -> K)
  {
    forall i, j :: 0 <= i < j < |posts| ==> key(posts[i]) != key(posts[j])
  }

  /**
   * A posts table with a uniqueness constraint on `key` that never fails
   * otherwise: an insert is a unique violation exactly when the key is
   * already present.
   */
  ghost predicate UniqueOn<K(!new)>(insert: (seq<Post>, Post) -> InsertResult, key: Post -> K)
  {
    forall posts, p :: insert(posts, p) == if HasKey(posts, key, key(p)) then PqError(UniqueViolation) else Inserted
  }

  /**
   * A posts table with a uniqueness constraint on `key` that may also fail
   * for any other reason: an insert never writes a row whose key is already
   * present.
   */
  ghost predicate RejectsDuplicates<K(!new)>(insert: (seq<Post>, Post) -> InsertResult, key: Post -> K)
  {
    forall posts, p :: HasKey(posts, key, key(p)) ==> !insert(posts, p).Inserted?
  }

  /**
   * Under a uniqueness constraint, whatever other insert failures occur, a
   * pass keeps the keys of the table distinct.
   */
  lemma {:induction false} IngestKeepsKeysDistinct<K(!new)>(insert: (seq<Post>, Post) -> InsertResult, key: Post -> K,
                                                           l: Ledger, feed: SelectedFeed, items: seq<Item>,
                                                           parse: ParseFn, now: Time)
    requires RejectsDuplicates(insert, key)
    requires DistinctKeys(l.posts, key)
    ensures DistinctKeys(Ingest(insert, l, feed, items, parse, now).posts, key)
  {
    if items != [] {
      var before := Ingest(insert, l, feed, items[..|items| - 1], parse, now);
      IngestKeepsKeysDistinct(insert, key, l, feed, items[..|items| - 1], parse, now);
      var p := PostFor(feed, items[|items| - 1], parse, now);
      if insert(before.posts, p).Inserted? {
        assert !HasKey(before.posts, key, key(p));
        var ps := before.posts + [p];
        forall i, j | 0 <= i < j < |ps| ensures key(ps[i]) != key(ps[j]) {
          if j == |ps| - 1 {
            assert ps[i] in before.posts;
          }
        }
      }
    }
  }

  /**
   * Under a uniqueness constraint with no other insert failures, after a
   * pass the key of every item's post is in the table, whether the pass
   * wrote it or found it there.
   */
  lemma {:induction false} IngestCoversItems<K(!new)>(insert: (seq<Post>, Post) -> InsertResult, key: Post -> K,
                                                     l: Ledger, feed: SelectedFeed, items: seq<Item>,
                                                     parse: ParseFn, now: Time)
    requires UniqueOn(insert, key)
    ensures forall i :: 0 <= i < |items| ==>
              HasKey(Ingest(insert, l, feed, items, parse, now).posts, key, key(PostFor(feed, items[i], parse, now)))
  {
    if items != [] {
      var init := items[..|items| - 1];
      var before := Ingest(insert, l, feed, init, parse, now);
      var after := Ingest(insert, l, feed, items, parse, now);
      IngestCoversItems(insert, key, l, feed, init, parse, now);
      IngestAppendsFeedPosts(insert, before, feed, [items[|items| - 1]], parse, now);
      assert [items[|items| - 1]][..0] == [];
      assert after.posts[..|before.posts|] == before.posts;
      forall i | 0 <= i < |items|
        ensures HasKey(after.posts, key, key(PostFor(feed, items[i], parse, now)))
      {
        var p := PostFor(feed, items[i], parse, now);
        if i < |items| - 1 {
          assert init[i] == items[i];
          var q :| q in before.posts && key(q) == key(p);
          var n :| 0 <= n < |before.posts| && before.posts[n] == q;
          assert after.posts[n] == q;
        } else if !HasKey(before.posts, key, key(p)) {
          assert after.posts == before.posts + [p];
          assert p in after.posts;
        } else {
          var q :| q in before.posts && key(q) == key(p);
          assert after.posts == before.posts;
        }
      }
    }
  }

  /**
   * Under a uniqueness constraint, whatever other insert failures occur, a
   * pass over items whose keys are all in the table already writes nothing.
   */
  lemma {:induction false} IngestKnownItemsWritesNothing<K(!new)>(insert: (seq<Post>, Post) -> InsertResult, key: Post -> K,
                                                                 l: Ledger, feed: SelectedFeed, items: seq<Item>,
                                                                 parse: ParseFn, now: Time)
    requires RejectsDuplicates(insert, key)
    requires forall i :: 0 <= i < |items| ==> HasKey(l.posts, key, key(PostFor(feed, items[i], parse, now)))
    ensures Ingest(insert, l, feed, items, parse, now).posts == l.posts
  {
    if items != [] {
      var init := items[..|items| - 1];
      assert forall i :: 0 <= i < |init| ==> init[i] == items[i];
      IngestKnownItemsWritesNothing(insert, key, l, feed, init, parse, now);
      assert HasKey(l.posts, key, key(PostFor(feed, items[|items| - 1], parse, now)));
    }
  }

  /**
   * Idempotence of ingestion: under a uniqueness constraint on a key that
   * does not depend on the pass's clock reading, ingesting the same items
   * on a later tick leaves the posts table as the first pass left it, even
   * if that second pass meets other insert failures; so re-scraping a feed
   * creates no duplicates.
   */
  lemma IngestTwiceIsOnce<K(!new)>(first: (seq<Post>, Post) -> InsertResult, again: (seq<Post>, Post) -> InsertResult,
                                  key: Post -> K, l: Ledger, feed: SelectedFeed, items: seq<Item>,
                                  parse: ParseFn, now1: Time, now2: Time)
    requires UniqueOn(first, key)
    requires RejectsDuplicates(again, key)
    requires forall it: Item :: key(PostFor(feed, it, parse, now1)) == key(PostFor(feed, it, parse, now2))
    ensures var once := Ingest(first, l, feed, items, parse, now1);
            Ingest(again, once, feed, items, parse, now2).posts == once.posts
  {
    var once := Ingest(first, l, feed, items, parse, now1);
    IngestCoversItems(first, key, l, feed, items, parse, now1);
    assert forall i :: 0 <= i < |items| ==>
             key(PostFor(feed, items[i], parse, now1)) == key(PostFor(feed, items[i], parse, now2));
    IngestKnownItemsWritesNothing(again, key, once, feed, items, parse, now2);
  }

  /**
   * Every post of a pass carries the feed's URL, so a table whose
   * uniqueness constraint is the post URL accepts at most one row per
   * pass, and none once a post with the feed's URL is stored, whatever
   * other insert failures occur.
   */
  lemma {:induction false} UrlKeyAdmitsOnePost(insert: (seq<Post>, Post) -> InsertResult, l: Ledger,
                                               feed: SelectedFeed, items: seq<Item>, parse: ParseFn, now: Time)
    requires RejectsDuplicates(insert, (p: Post) => p.url)
    ensures var r := Ingest(insert, l, feed, items, parse, now);
            && |r.posts| <= |l.posts| + 1
            && (HasKey(l.posts, (p: Post) => p.url, feed.url) ==> r.posts == l.posts)
  {
    if items != [] {
      var init := items[..|items| - 1];
      var before := Ingest(insert, l, feed, init, parse, now);
      UrlKeyAdmitsOnePost(insert, l, feed, init, parse, now);
      var p := PostFor(feed, items[|items| - 1], parse, now);
      if |before.posts| > |l.posts| {
        IngestAppendsFeedPosts(insert, l, feed, init, parse, now);
        var q := before.posts[|l.posts|];
        assert q in before.posts && q.url == p.url;
      }
    }
  }
}
