/**
 * Profit accounting shared by the search and the backtest: pandas' NaN-skipping sum and
 * cumulative sum, the row filter `data[mask]`, the search-time total return and the
 * backtest's per-row profit, with `SignalledGain` as the reference they are proved against.
 */
module Accounting {
  import opened Wrappers
  import opened Signals

  /** Every entry is NaN. */
  predicate AllNaN(xs: seq<Option<real>>)
  {
    |xs| == 0 || (xs[|xs| - 1].None? && AllNaN(xs[..|xs| - 1]))
  }

  /** The sum of the defined entries (pandas skips NaN when it sums); all-NaN sums to 0. */
  function SumDefined(xs: seq<Option<real>>): (total: real)
    ensures AllNaN(xs) ==> total == 0.0
  {
    if |xs| == 0 then 0.0
    else SumDefined(xs[..|xs| - 1]) + (if xs[|xs| - 1].Some? then xs[|xs| - 1].value else 0.0)
  }

  /** `cumsum()`: NaN stays NaN, every other row holds the sum of the defined entries so far. */
  function CumSum(xs: seq<Option<real>>): (c: seq<Option<real>>)
    ensures |c| == |xs|
    ensures forall i :: 0 <= i < |c| ==> (c[i].None? <==> xs[i].None?)
  {
    seq(|xs|, i requires 0 <= i < |xs| =>
      if xs[i].None? then None else Some(SumDefined(xs[..i + 1])))
  }

  /** `data[mask]`: the rows whose mask entry is True, in their original order. */
  function Select<T>(xs: seq<T>, m: seq<bool>): (r: seq<T>)
    requires |xs| == |m|
    ensures |r| <= |xs|
    ensures |r| == 0 <==> forall i :: 0 <= i < |m| ==> !m[i]
    decreases |xs|
  {
    if |xs| == 0 then []
    else
      var n := |xs| - 1;
      Select(xs[..n], m[..n]) + (if m[n] then [xs[n]] else [])
  }

  /** What row i (at least 1) of a strategy earns: the change if signalled, else nothing. */
  function RowGain(close: seq<real>, mask: seq<bool>, i: int): real
    requires |mask| == |close| && 1 <= i < |close|
  {
    if mask[i] then close[i] - close[i - 1] else 0.0
  }

  /**
   * Reference definition of a strategy's gain: the close-to-close change summed over the
   * signalled rows from row 1 on.
   */
  function SignalledGain(close: seq<real>, mask: seq<bool>): real
    requires |mask| == |close|
    decreases |close|
  {
    if |close| <= 1 then 0.0
    else
      var n := |close| - 1;
      SignalledGain(close[..n], mask[..n]) + RowGain(close, mask, n)
  }

  /**
   * The search score: keep the signalled rows, take the cumulative sum of their profit and
   * read its last row; 0 when no row is signalled. NaN (None) only if the last kept row is
   * row 0, whose profit is undefined.
   */
  function TotalReturn(close: seq<real>, mask: seq<bool>): (r: Option<real>)
    requires |mask| == |close|
    ensures (forall i :: 0 <= i < |mask| ==> !mask[i]) ==> r == Some(0.0)
  {
    var df := Select(Deltas(close), mask);
    if |df| == 0 then Some(0.0) else CumSum(df)[|df| - 1]
  }

  /**
   * One row's `change * shares`: NaN times anything stays NaN, and holding 0 or 1 share
   * earns nothing or the whole change.
   */
  function ShareProfit(change: Option<real>, shares: int): (r: Option<real>)
    ensures r.None? <==> change.None?
    ensures shares == 0 && change.Some? ==> r == Some(0.0)
    ensures shares == 1 ==> r == change
  {
    match change
    case None => None
    case Some(c) => Some(c * (shares as real))
  }

  /** The backtest's per-row profit `(close - previous close) * shares`; NaN on row 0. */
  function Profit(close: seq<real>, mask: seq<bool>): (p: seq<Option<real>>)
    requires |mask| == |close|
    ensures |p| == |close|
    ensures forall i :: 0 <= i < |p| ==> (p[i].None? <==> i == 0)
  {
    seq(|close|, i requires 0 <= i < |close| => ShareProfit(Deltas(close)[i], Shares(mask)[i]))
  }

  /** Row by row, the backtest profit is NaN on row 0, the change when signalled, else 0. */
  lemma ProfitAt(close: seq<real>, mask: seq<bool>, i: nat)
    requires |mask| == |close| && i < |close|
    ensures Profit(close, mask)[i]
      == if i == 0 then None else Some(if mask[i] then close[i] - close[i - 1] else 0.0)
  {
    assert Profit(close, mask)[i] == ShareProfit(Deltas(close)[i], Shares(mask)[i]);
  }

  /** Appending a row adds its value to the NaN-skipping sum, or nothing if it is NaN. */
  lemma SumDefinedSnoc(xs: seq<Option<real>>, x: Option<real>)
    ensures SumDefined(xs + [x]) == SumDefined(xs) + (if x.Some? then x.value else 0.0)
  {
    assert (xs + [x])[..|xs|] == xs;
  }

  /** With row 0 unsignalled, every filtered price change is defined. */
  lemma {:induction false} SelectedDeltasDefined(close: seq<real>, mask: seq<bool>)
    requires |mask| == |close|
    requires |close| > 0 ==> !mask[0]
    ensures forall k :: 0 <= k < |Select(Deltas(close), mask)| ==> Select(Deltas(close), mask)[k].Some?
    decreases |close|
  {
    var n := |close|;
    if n > 1 {
      var c, m := close[..n - 1], mask[..n - 1];
      SelectedDeltasDefined(c, m);
      assert Deltas(close)[..n - 1] == Deltas(c);
      var prev := Select(Deltas(c), m);
      var tail := if mask[n - 1] then [Deltas(close)[n - 1]] else [];
      assert Select(Deltas(close), mask) == prev + tail;
    } else if n == 1 {
      assert Select(Deltas(close), mask) == Select(Deltas(close)[..0], mask[..0]);
    }
  }

  /** With row 0 unsignalled, the filtered price changes add up to the signalled gain. */
  lemma {:induction false} SelectedDeltasSum(close: seq<real>, mask: seq<bool>)
    requires |mask| == |close|
    requires |close| > 0 ==> !mask[0]
    ensures SumDefined(Select(Deltas(close), mask)) == SignalledGain(close, mask)
    decreases |close|
  {
    var n := |close|;
    if n == 1 {
      assert Select(Deltas(close), mask) == Select(Deltas(close)[..0], mask[..0]);
    } else if n > 1 {
      var c, m := close[..n - 1], mask[..n - 1];
      SelectedDeltasSum(c, m);
      assert Deltas(close)[..n - 1] == Deltas(c);
      var prev := Select(Deltas(c), m);
      var tail := if mask[n - 1] then [Deltas(close)[n - 1]] else [];
      assert Select(Deltas(close), mask) == prev + tail;
      assert SignalledGain(close, mask) == SumDefined(prev) + RowGain(close, mask, n - 1);
      if mask[n - 1] {
        SumDefinedSnoc(prev, Deltas(close)[n - 1]);
        assert SumDefined(prev + tail) == SumDefined(prev) + RowGain(close, mask, n - 1);
      } else {
        assert prev + tail == prev;
      }
    }
  }

  /** The search score is the signalled gain whenever row 0 is unsignalled. */
  lemma TotalReturnIsSignalledGain(close: seq<real>, mask: seq<bool>)
    requires |mask| == |close|
    requires |close| > 0 ==> !mask[0]
    ensures TotalReturn(close, mask) == Some(SignalledGain(close, mask))
  {
    var df := Select(Deltas(close), mask);
    SelectedDeltasDefined(close, mask);
    SelectedDeltasSum(close, mask);
    if |df| == 0 {
      NoSignalNoGain(close, mask);
    } else {
      var last := |df| - 1;
      assert df[last].Some?;
      assert df[..last + 1] == df;
      assert CumSum(df)[last] == Some(SumDefined(df));
    }
  }

  /** No signalled row: the gain is 0, and so is the search score (its explicit fallback). */
  lemma {:induction false} NoSignalNoGain(close: seq<real>, mask: seq<bool>)
    requires |mask| == |close|
    requires forall i :: 0 <= i < |mask| ==> !mask[i]
    ensures SignalledGain(close, mask) == 0.0
    ensures TotalReturn(close, mask) == Some(0.0)
    decreases |close|
  {
    if |close| > 1 {
      NoSignalNoGain(close[..|close| - 1], mask[..|mask| - 1]);
    }
  }

  /** The column the backtest sums: NaN on row 0, the change on signalled rows, else 0. */
  ghost predicate IsGainColumn(xs: seq<Option<real>>, close: seq<real>, mask: seq<bool>)
    requires |mask| == |close|
  {
    |xs| == |close| && (|xs| > 0 ==> xs[0] == None) &&
    forall i :: 1 <= i < |xs| ==> xs[i] == Some(RowGain(close, mask, i))
  }

  /** A column that is NaN on row 0 and holds each row's gain afterwards sums to the signalled gain. */
  lemma {:induction false} GainColumnSum(xs: seq<Option<real>>, close: seq<real>, mask: seq<bool>)
    requires |mask| == |close| && IsGainColumn(xs, close, mask)
    ensures SumDefined(xs) == SignalledGain(close, mask)
    decreases |close|
  {
    var n := |close|;
    if n == 1 {
      assert xs[..0] == [];
    } else if n > 1 {
      var c, m := close[..n - 1], mask[..n - 1];
      var ys := xs[..n - 1];
      forall i | 1 <= i < |ys|
        ensures ys[i] == Some(RowGain(c, m, i))
      {
        assert ys[i] == xs[i] && m[i] == mask[i] && c[i] == close[i];
        assert c[i - 1] == close[i - 1];
      }
      assert IsGainColumn(ys, c, m);
      GainColumnSum(ys, c, m);
    }
  }

  /** The backtest's profit column sums to the signalled gain: the row-0 NaN is skipped. */
  lemma ProfitSum(close: seq<real>, mask: seq<bool>)
    requires |mask| == |close|
    ensures SumDefined(Profit(close, mask)) == SignalledGain(close, mask)
  {
    if |close| > 0 {
      ProfitAt(close, mask, 0);
    }
    forall i | 1 <= i < |close|
      ensures Profit(close, mask)[i] == Some(RowGain(close, mask, i))
    {
      ProfitAt(close, mask, i);
    }
    GainColumnSum(Profit(close, mask), close, mask);
  }

  /** A flat price series gains nothing, whatever the signal. */
  lemma {:induction false} FlatSeriesNoGain(close: seq<real>, mask: seq<bool>)
    requires |mask| == |close|
    requires forall i :: 0 <= i < |close| ==> close[i] == close[0]
    ensures SignalledGain(close, mask) == 0.0
    decreases |close|
  {
    if |close| > 1 {
      FlatSeriesNoGain(close[..|close| - 1], mask[..|mask| - 1]);
    }
  }
}
