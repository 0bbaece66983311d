/**
 * The syndication document as decoded from a feed, and the rebuild that
 * `fetchFeed` performs on it: every channel and item title and description
 * goes through HTML entity unescaping, everything else is copied.
 */
module Rss {
  /** One `<item>` of a channel; `pubDate` is the raw date text. */
  datatype Item = Item(title: string, link: string, description: string, pubDate: string)

  datatype Channel = Channel(title: string, link: string, description: string, items: seq<Item>)

  datatype Feed = Feed(channel: Channel)

  /**
   * What the network and XML layer hand back for a URL. Every failure there
   * (building the request, the HTTP exchange, reading the body, decoding
   * the XML) ends the process, so there is no error value, only `Exit`.
   */
  datatype Fetched = Decoded(raw: Feed) | Exit

  /** An item with its title and description unescaped. */
  function UnescapeItem(unescape: string -> string, item: Item): (r: Item)
    ensures r.link == item.link && r.pubDate == item.pubDate
    ensures r.title == unescape(item.title) && r.description == unescape(item.description)
  {
    Item(unescape(item.title), item.link, unescape(item.description), item.pubDate)
  }

  /**
   * The rebuilt item list: one entry per input item, in the same order,
   * each the unescaped form of the item at the same position.
   */
  function UnescapeItems(unescape: string -> string, items: seq<Item>): (r: seq<Item>)
    ensures |r| == |items|
    ensures forall i :: 0 <= i < |items| ==> r[i] == UnescapeItem(unescape, items[i])
  {
    if items == [] then []
    else UnescapeItems(unescape, items[..|items| - 1]) + [UnescapeItem(unescape, items[|items| - 1])]
  }

  /**
   * The feed `fetchFeed` returns after decoding: channel title and
   * description unescaped, channel link kept, items rebuilt in order.
   */
  function Unescaped(unescape: string -> string, rss: Feed): (r: Feed)
    ensures r.channel.title == unescape(rss.channel.title)
    ensures r.channel.description == unescape(rss.channel.description)
    ensures r.channel.link == rss.channel.link
    ensures |r.channel.items| == |rss.channel.items|
    ensures forall i :: 0 <= i < |r.channel.items| ==>
              var (a, b) := (r.channel.items[i], rss.channel.items[i]);
              a.link == b.link && a.pubDate == b.pubDate &&
              a.title == unescape(b.title) && a.description == unescape(b.description)
  {
    Feed(Channel(unescape(rss.channel.title), rss.channel.link,
                 unescape(rss.channel.description), UnescapeItems(unescape, rss.channel.items)))
  }

  /** `fetchFeed`: the decoded document, rebuilt, unless the process exited. */
  function FetchFeed(network: string -> Fetched, unescape: string -> string, url: string): (r: Fetched)
    ensures r.Exit? <==> network(url).Exit?
    ensures r.Decoded? ==> r.raw == Unescaped(unescape, network(url).raw)
  {
    match network(url)
    case Exit => Exit
    case Decoded(raw) => Decoded(Unescaped(unescape, raw))
  }

  /**
   * The rebuild keeps the fields that are copied and is otherwise
   * determined by the unescaping of each text field: with an unescaping
   * that changes nothing, the rebuilt feed is the decoded feed itself.
   */
  lemma UnescapeItemsIdentity(unescape: string -> string, items: seq<Item>)
    requires forall s :: unescape(s) == s
    ensures UnescapeItems(unescape, items) == items
  {
  }
}
