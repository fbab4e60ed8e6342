/**
 * The two moving averages the strategy scripts compare: the exponential average of
 * pandas' `ewm(span, adjust=False).mean()` and the simple average of
 * `rolling(window).mean()`. Prices are exact reals; an undefined (NaN) entry is `None`.
 */
module MovingAverages {
  import opened Wrappers

  /** A look-back length or EMA span: an EMA span must be at least 1; the scripts' windows are all at least 10. */
  type Window = w: int | 1 <= w witness 1

  /** Which of the two scripts is being modelled. */
  datatype AverageKind = Exponential | Simple

  /** Sum of a sequence, accumulated from the front as a running total would be. */
  function Sum(s: seq<real>): real
  {
    if |s| == 0 then 0.0 else Sum(s[..|s| - 1]) + s[|s| - 1]
  }

  /** The smoothing factor pandas derives from a span. */
  function Alpha(span: Window): (a: real)
    ensures 0.0 < a <= 1.0
  {
    2.0 / (span as real + 1.0)
  }

  /**
   * `ewm(span, adjust=False).mean()`: the first value is the first price, every later one
   * mixes the new price with the previous average.
   */
  function Ema(x: seq<real>, span: Window): (y: seq<real>)
    ensures |y| == |x|
    ensures |x| > 0 ==> y[0] == x[0]
    decreases |x|
  {
    if |x| == 0 then []
    else if |x| == 1 then [x[0]]
    else
      var prev := Ema(x[..|x| - 1], span);
      prev + [Alpha(span) * x[|x| - 1] + (1.0 - Alpha(span)) * prev[|x| - 2]]
  }

  /** The average of a prefix is the prefix of the average: EMA only looks backwards. */
  lemma {:induction false} EmaPrefix(x: seq<real>, span: Window, k: nat)
    requires k <= |x|
    ensures Ema(x[..k], span) == Ema(x, span)[..k]
    decreases |x|
  {
    if k < |x| && |x| > 1 {
      EmaPrefix(x[..|x| - 1], span, k);
      assert x[..|x| - 1][..k] == x[..k];
    } else if k == |x| {
      assert x[..k] == x;
    }
  }

  /** Every value after the first obeys the pandas recurrence with alpha = 2/(span+1). */
  lemma {:induction false} EmaRecurrence(x: seq<real>, span: Window, i: nat)
    requires 1 <= i < |x|
    ensures Ema(x, span)[i] == Alpha(span) * x[i] + (1.0 - Alpha(span)) * Ema(x, span)[i - 1]
  {
    EmaPrefix(x, span, i + 1);
    EmaPrefix(x, span, i);
    var p := x[..i + 1];
    assert p[..|p| - 1] == x[..i];
  }

  /**
   * `rolling(w).mean()`: the mean of the w most recent prices ending at row i, undefined
   * while fewer than w prices have been seen.
   */
  function Sma(x: seq<real>, w: Window): (y: seq<Option<real>>)
    ensures |y| == |x|
  {
    seq(|x|, i requires 0 <= i < |x| =>
      if i + 1 >= w then Some(Sum(x[i + 1 - w..i + 1]) / (w as real)) else None)
  }

  /** Summing from the back agrees with peeling off the first element. */
  lemma {:induction false} SumFront(s: seq<real>)
    requires |s| > 0
    ensures Sum(s) == s[0] + Sum(s[1..])
    decreases |s|
  {
    if |s| > 1 {
      SumFront(s[..|s| - 1]);
      assert s[..|s| - 1][1..] == s[1..][..|s| - 2];
    }
  }

  /** A window of length one averages a single price, so `rolling(1).mean()` is the identity. */
  lemma SmaWindowOne(x: seq<real>)
    ensures forall i :: 0 <= i < |x| ==> Sma(x, 1)[i] == Some(x[i])
  {
    forall i | 0 <= i < |x|
      ensures Sma(x, 1)[i] == Some(x[i])
    {
      assert x[i..i + 1] == [x[i]];
      assert [x[i]][..0] == [];
      assert Sum(x[i..i + 1]) == x[i];
    }
  }

  /**
   * The sliding-window identity: once both rows are defined, the next mean is the previous
   * one plus the entering price minus the leaving price, over w.
   */
  lemma SmaSlide(x: seq<real>, w: Window, i: nat)
    requires w <= i < |x|
    ensures Sma(x, w)[i].Some? && Sma(x, w)[i - 1].Some?
    ensures Sma(x, w)[i].value == Sma(x, w)[i - 1].value + (x[i] - x[i - w]) / (w as real)
  {
    var prev := x[i - w..i];
    var cur := x[i + 1 - w..i + 1];
    SumFront(prev);
    assert prev[1..] == x[i + 1 - w..i];
    assert cur[..|cur| - 1] == x[i + 1 - w..i];
    assert Sum(cur) == Sum(prev) - x[i - w] + x[i];
    assert Sma(x, w)[i] == Some(Sum(cur) / (w as real));
    assert Sma(x, w)[i - 1] == Some(Sum(prev) / (w as real));
    assert (Sum(prev) + (x[i] - x[i - w])) / (w as real)
      == Sum(prev) / (w as real) + (x[i] - x[i - w]) / (w as real);
  }

  /** The average column used by the script of the given kind; EMA is defined on every row. */
  function Average(kind: AverageKind, x: seq<real>, w: Window): (y: seq<Option<real>>)
    ensures |y| == |x|
    ensures kind == Exponential ==> forall i :: 0 <= i < |y| ==> y[i] == Some(Ema(x, w)[i])
    ensures kind == Simple ==> y == Sma(x, w)
  {
    match kind
    case Exponential => seq(|x|, i requires 0 <= i < |x| => Some(Ema(x, w)[i]))
    case Simple => Sma(x, w)
  }
}
