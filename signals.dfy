/**
 * The crossover signal and the one-day price change. A pandas comparison involving NaN
 * is False, so a row where either average is undefined is never signalled.
 */
module Signals {
  import opened Wrappers
  import opened MovingAverages

  /** `fast > slow` on one row, as pandas evaluates it: False when either side is NaN. */
  predicate Above(fast: Option<real>, slow: Option<real>)
  {
    fast.Some? && slow.Some? && fast.value > slow.value
  }

  /** The boolean mask `short_average > long_average`, row by row. */
  function Mask(fast: seq<Option<real>>, slow: seq<Option<real>>): (m: seq<bool>)
    requires |fast| == |slow|
    ensures |m| == |fast|
    ensures forall i :: 0 <= i < |m| ==> (m[i] <==> Above(fast[i], slow[i]))
  {
    seq(|fast|, i requires 0 <= i < |fast| => Above(fast[i], slow[i]))
  }

  /** The mask converted with `astype(int)`: the number of shares held on each row. */
  function Shares(m: seq<bool>): (r: seq<int>)
    ensures |r| == |m|
    ensures forall i :: 0 <= i < |r| ==> (r[i] == 0 || r[i] == 1) && (r[i] == 1 <==> m[i])
  {
    seq(|m|, i requires 0 <= i < |m| => if m[i] then 1 else 0)
  }

  /** `close - close.shift(1)`: the change since the previous row, NaN on the first row. */
  function Deltas(close: seq<real>): (d: seq<Option<real>>)
    ensures |d| == |close|
    ensures |d| > 0 ==> d[0] == None
    ensures forall i :: 1 <= i < |d| ==> d[i] == Some(close[i] - close[i - 1])
  {
    seq(|close|, i requires 0 <= i < |close| =>
      if i == 0 then None else Some(close[i] - close[i - 1]))
  }

  /**
   * The mask the scripts build for a (short, long) pair of windows: a row is signalled iff
   * both fresh averages are defined there and the short one is strictly above the long one.
   */
  function PairMask(kind: AverageKind, close: seq<real>, short: Window, long: Window): (m: seq<bool>)
    ensures |m| == |close|
    ensures forall i :: 0 <= i < |m| ==>
      (m[i] <==> Above(Average(kind, close, short)[i], Average(kind, close, long)[i]))
  {
    Mask(Average(kind, close, short), Average(kind, close, long))
  }

  /** Equal averages mean no position: the comparison is strict. */
  lemma TiesAreFlat(fast: seq<Option<real>>, slow: seq<Option<real>>, i: nat)
    requires |fast| == |slow| && i < |fast|
    requires fast[i] == slow[i]
    ensures !Mask(fast, slow)[i]
    ensures Shares(Mask(fast, slow))[i] == 0
  {
  }

  /** Both exponential averages start at the first close, so row 0 is never signalled. */
  lemma EmaRowZeroFlat(close: seq<real>, short: Window, long: Window)
    requires |close| > 0
    ensures !PairMask(Exponential, close, short, long)[0]
  {
    TiesAreFlat(Average(Exponential, close, short), Average(Exponential, close, long), 0);
  }

  /**
   * Before the long window has filled, the long simple average is NaN and the row is not
   * signalled; in particular a series shorter than the long window has no signalled row.
   */
  lemma SmaWarmUpFlat(close: seq<real>, short: Window, long: Window, i: nat)
    requires i < |close| && i + 1 < long
    ensures !PairMask(Simple, close, short, long)[i]
  {
    assert Sma(close, long)[i] == None;
  }

  /** For either kind, a long window of at least 2 leaves row 0 unsignalled. */
  lemma RowZeroFlat(kind: AverageKind, close: seq<real>, short: Window, long: Window)
    requires |close| > 0 && long >= 2
    ensures !PairMask(kind, close, short, long)[0]
  {
    match kind
    case Exponential => EmaRowZeroFlat(close, short, long);
    case Simple => SmaWarmUpFlat(close, short, long, 0);
  }
}
