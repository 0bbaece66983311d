/**
 * Normalisation of an item's `pubDate`: four layouts are tried in a fixed
 * order and the first that parses wins. The layouts are written in Go's
 * reference-time notation; the first two are Go's `time.RFC1123Z` and
 * `time.RFC1123`, the date-time of section 5 of RFC 822 as amended by
 * section 5.2.14 of RFC 1123.
 */
module PubDate {
  import opened Wrappers

  /** An instant as Go's `time.Time` holds it; its encoding is not modelled. */
  datatype Time = Time(unixNanos: int)

  /** Go's `*time.ParseError`, reduced to what a warning line shows. */
  datatype ParseError = ParseError(layout: string, value: string, message: string)

  /**
   * The pair Go's `time.Parse(layout, value)` returns: a time and an error
   * that is None on success. A failed parse still returns a time value.
   */
  datatype Parsed = Parsed(t: Time, err: Option<ParseError>)

  /** `time.Parse` itself, which this model does not reimplement. */
  type ParseFn = (string, string) -> Parsed

  const RFC1123Z := "Mon, 02 Jan 2006 15:04:05 -0700"
  const RFC1123 := "Mon, 02 Jan 2006 15:04:05 MST"
  const SingleDigitDay := "Mon, 2 Jan 2006 15:04:05 -0700"
  const NoWeekday := "2 Jan 2006 15:04:05 -0700"

  /** The layouts in the order they are tried. */
  const Layouts: seq<string> := [RFC1123Z, RFC1123, SingleDigitDay, NoWeekday]

  /**
   * The reference definition of a fallback chain: the position of the first
   * layout that parses `value`, or of the last layout when none does.
   */
  function FirstSuccessIndex(parse: ParseFn, layouts: seq<string>, value: string): (k: nat)
    requires |layouts| > 0
    ensures k < |layouts|
    ensures forall j :: 0 <= j < k ==> parse(layouts[j], value).err.Some?
    ensures k < |layouts| - 1 ==> parse(layouts[k], value).err.None?
    decreases |layouts|
  {
    if |layouts| == 1 || parse(layouts[0], value).err.None? then 0
    else 1 + FirstSuccessIndex(parse, layouts[1..], value)
  }

  /**
   * The nested fallback of the scrape loop: each layout is tried only when
   * every earlier one failed, and the pair of the last attempt is kept.
   */
  function ParsePubDate(parse: ParseFn, value: string): (r: Parsed)
    ensures r == parse(RFC1123Z, value) || r == parse(RFC1123, value)
            || r == parse(SingleDigitDay, value) || r == parse(NoWeekday, value)
    ensures r.err.Some? ==> r == parse(NoWeekday, value)
  {
    var p0 := parse(RFC1123Z, value);
    if p0.err.None? then p0 else
    var p1 := parse(RFC1123, value);
    if p1.err.None? then p1 else
    var p2 := parse(SingleDigitDay, value);
    if p2.err.None? then p2 else
    parse(NoWeekday, value)
  }

  /** The nested chain computes the reference definition on the four layouts. */
  lemma ParsePubDateIsFirstSuccess(parse: ParseFn, value: string)
    ensures ParsePubDate(parse, value) == parse(Layouts[FirstSuccessIndex(parse, Layouts, value)], value)
  {
    var tail1 := [RFC1123, SingleDigitDay, NoWeekday];
    var tail2 := [SingleDigitDay, NoWeekday];
    assert Layouts[1..] == tail1 && tail1[1..] == tail2 && tail2[1..] == [NoWeekday];
    var k := FirstSuccessIndex(parse, Layouts, value);
    if parse(RFC1123Z, value).err.Some? {
      var k1 := FirstSuccessIndex(parse, tail1, value);
      assert k == 1 + k1;
      if parse(RFC1123, value).err.Some? {
        var k2 := FirstSuccessIndex(parse, tail2, value);
        assert k1 == 1 + k2;
        if parse(SingleDigitDay, value).err.Some? {
          assert k2 == 1 + FirstSuccessIndex(parse, [NoWeekday], value);
        }
      }
    }
  }

  /** A layout that parses, after every earlier layout failed, decides the result. */
  lemma FirstSuccessWins(parse: ParseFn, value: string, i: nat)
    requires i < |Layouts|
    requires parse(Layouts[i], value).err.None?
    requires forall j :: 0 <= j < i ==> parse(Layouts[j], value).err.Some?
    ensures ParsePubDate(parse, value) == parse(Layouts[i], value)
    ensures ParsePubDate(parse, value).err.None?
  {
    ParsePubDateIsFirstSuccess(parse, value);
    var k := FirstSuccessIndex(parse, Layouts, value);
    assert k == i;
  }

  /**
   * Normalisation fails exactly when all four layouts fail, and then the
   * result is the pair of the last attempt, the one with `NoWeekday`.
   */
  lemma FailsIffAllFail(parse: ParseFn, value: string)
    ensures ParsePubDate(parse, value).err.Some? <==>
              forall j :: 0 <= j < |Layouts| ==> parse(Layouts[j], value).err.Some?
    ensures ParsePubDate(parse, value).err.Some? ==> ParsePubDate(parse, value) == parse(NoWeekday, value)
  {
    ParsePubDateIsFirstSuccess(parse, value);
    var k := FirstSuccessIndex(parse, Layouts, value);
    if ParsePubDate(parse, value).err.Some? {
      assert k == |Layouts| - 1;
    }
  }

  /**
   * No layout after the first that parses is consulted: two parsers that
   * agree on the layouts up to that one give the same result.
   */
  lemma LaterLayoutsIgnored(parse: ParseFn, other: ParseFn, value: string)
    requires forall j :: 0 <= j <= FirstSuccessIndex(parse, Layouts, value) ==>
               other(Layouts[j], value) == parse(Layouts[j], value)
    ensures ParsePubDate(other, value) == ParsePubDate(parse, value)
  {
    ParsePubDateIsFirstSuccess(parse, value);
    var k := FirstSuccessIndex(parse, Layouts, value);
    assert other(Layouts[0], value) == parse(Layouts[0], value);
    if k >= 1 { assert other(Layouts[1], value) == parse(Layouts[1], value); }
    if k >= 2 { assert other(Layouts[2], value) == parse(Layouts[2], value); }
    if k >= 3 { assert other(Layouts[3], value) == parse(Layouts[3], value); }
  }
}
