/**
 * The page size of the `browse` command: the first argument read as a
 * decimal integer, 2 when there is no argument, and the conversion to the
 * 32-bit integer the posts query takes.
 */
module Browse {
  import opened Wrappers

  /** The number of posts shown when `browse` gets no argument. */
  const DefaultLimit := 2

  /** What reading the argument leads to: a limit, or the process exiting. */
  datatype LimitChoice = Limit(n: int) | Exit

  /**
   * The limit `browse` asks for. `atoi` is Go's `strconv.Atoi` (None for
   * its error); a malformed argument ends the process.
   */
  function BrowseLimit(args: seq<string>, atoi: string -> Option<int>): (r: LimitChoice)
    ensures args == [] ==> r == Limit(DefaultLimit)
    ensures args != [] ==> (r.Exit? <==> atoi(args[0]).None?)
    ensures args != [] && r.Limit? ==> r.n == atoi(args[0]).value
  {
    if |args| > 0 then
      match atoi(args[0])
      case None => Exit
      case Some(n) => Limit(n)
    else
      Limit(DefaultLimit)
  }

  const TwoTo31 := 0x8000_0000
  const TwoTo32 := 0x1_0000_0000

  /**
   * Go's `int32(n)`: keeps the low 32 bits of a two's-complement integer,
   * so the result is in the 32-bit range and differs from `n` by a
   * multiple of 2^32.
   */
  function ToInt32(n: int): (r: int)
    ensures -TwoTo31 <= r < TwoTo31
    ensures (n - r) % TwoTo32 == 0
  {
    var low := n % TwoTo32;
    if low < TwoTo31 then low else low - TwoTo32
  }

  /** A limit already in the 32-bit range reaches the query unchanged. */
  lemma ToInt32InRange(n: int)
    requires -TwoTo31 <= n < TwoTo31
    ensures ToInt32(n) == n
  {
  }

  /**
   * The limit passed to the posts query: with no argument it is 2; a limit
   * of 2^32 or more, which `Atoi` accepts on a 64-bit platform, wraps.
   */
  function QueryLimit(args: seq<string>, atoi: string -> Option<int>): (r: Option<int>)
    ensures r.None? <==> BrowseLimit(args, atoi).Exit?
    ensures args == [] ==> r == Some(DefaultLimit)
    ensures r.Some? ==> ToInt32(BrowseLimit(args, atoi).n) == r.value
  {
    match BrowseLimit(args, atoi)
    case Exit => None
    case Limit(n) => Some(ToInt32(n))
  }

  /** An argument of exactly 2^32 becomes a limit of zero in the query. */
  lemma WrapsAtTwoTo32(args: seq<string>, atoi: string -> Option<int>)
    requires args != [] && atoi(args[0]) == Some(TwoTo32)
    ensures QueryLimit(args, atoi) == Some(0)
  {
  }
}
