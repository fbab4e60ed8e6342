/**
 * The backtest run after the search: on the test download, the winning pair and the fixed
 * 50/200 pair each hold one share while their fast average is above the slow one, and
 * their wealth is the running sum of the profit; buy-and-hold accumulates the
 * open-to-open growth.
 */
module Backtest {
  import opened Wrappers
  import opened MovingAverages
  import opened Signals
  import opened Accounting
  import opened GridSearch

  /** One downloaded row, reduced to the two columns the strategies read. */
  datatype Bar = Bar(open: real, close: real)

  /** The `Close` column. */
  function Closes(bars: seq<Bar>): (c: seq<real>)
    ensures |c| == |bars|
    ensures forall i :: 0 <= i < |bars| ==> c[i] == bars[i].close
  {
    seq(|bars|, i requires 0 <= i < |bars| => bars[i].close)
  }

  /** The `Open` column. */
  function Opens(bars: seq<Bar>): (o: seq<real>)
    ensures |o| == |bars|
    ensures forall i :: 0 <= i < |bars| ==> o[i] == bars[i].open
  {
    seq(|bars|, i requires 0 <= i < |bars| => bars[i].open)
  }

  /** A strategy's `Wealth` column: the running sum of its `Profit` column. */
  function Wealth(close: seq<real>, mask: seq<bool>): (w: seq<Option<real>>)
    requires |mask| == |close|
    ensures |w| == |close|
  {
    CumSum(Profit(close, mask))
  }

  /** The profit column of a prefix of the rows is the prefix of the profit column. */
  lemma ProfitPrefix(close: seq<real>, mask: seq<bool>, n: nat)
    requires |mask| == |close| && n <= |close|
    ensures Profit(close[..n], mask[..n]) == Profit(close, mask)[..n]
  {
    forall i | 0 <= i < n
      ensures Profit(close[..n], mask[..n])[i] == Profit(close, mask)[i]
    {
      ProfitAt(close[..n], mask[..n], i);
      ProfitAt(close, mask, i);
    }
  }

  /**
   * Row k of the wealth column is NaN on row 0 and afterwards the gain the strategy has
   * collected on rows 1 to k.
   */
  lemma WealthAt(close: seq<real>, mask: seq<bool>, k: nat)
    requires |mask| == |close| && k < |close|
    ensures Wealth(close, mask)[k]
      == if k == 0 then None else Some(SignalledGain(close[..k + 1], mask[..k + 1]))
  {
    ProfitAt(close, mask, k);
    if k > 0 {
      ProfitPrefix(close, mask, k + 1);
      ProfitSum(close[..k + 1], mask[..k + 1]);
    }
  }

  /** From row 2 on, each wealth row adds that row's gain to the previous one. */
  lemma WealthStep(close: seq<real>, mask: seq<bool>, k: nat)
    requires |mask| == |close| && 2 <= k < |close|
    ensures Wealth(close, mask)[k].Some? && Wealth(close, mask)[k - 1].Some?
    ensures Wealth(close, mask)[k].value
      == Wealth(close, mask)[k - 1].value + RowGain(close, mask, k)
  {
    WealthAt(close, mask, k);
    WealthAt(close, mask, k - 1);
    var c, m := close[..k + 1], mask[..k + 1];
    assert c[..k] == close[..k] && m[..k] == mask[..k];
    assert RowGain(c, m, k) == RowGain(close, mask, k);
  }

  /** The `Wealth` column of a window pair on a price series. */
  function PairWealth(kind: AverageKind, close: seq<real>, p: WindowPair): (w: seq<Option<real>>)
    requires InGrid(p)
    ensures |w| == |close|
  {
    Wealth(close, PairMask(kind, close, p.short, p.long))
  }

  /**
   * On the series the search scored, a pair's final wealth is its search-time total
   * return; with a single row the only wealth entry is NaN.
   */
  lemma PairWealthMatchesScore(kind: AverageKind, close: seq<real>, p: WindowPair)
    requires InGrid(p) && |close| >= 2
    ensures PairWealth(kind, close, p)[|close| - 1] == Some(Score(close, kind, p))
  {
    var mask := PairMask(kind, close, p.short, p.long);
    WealthAt(close, mask, |close| - 1);
    assert close[..|close|] == close && mask[..|close|] == mask;
  }

  /** `Buy and Hold Asset Growth`: next open minus this open, NaN on the last row. */
  function Growth(open: seq<real>): (g: seq<Option<real>>)
    ensures |g| == |open|
    ensures forall i :: 0 <= i < |open| ==>
      g[i] == if i + 1 < |open| then Some(open[i + 1] - open[i]) else None
  {
    seq(|open|, i requires 0 <= i < |open| =>
      if i + 1 < |open| then Some(open[i + 1] - open[i]) else None)
  }

  /** The buy-and-hold curve: the running sum of the growth column. */
  function BuyHold(open: seq<real>): (b: seq<Option<real>>)
    ensures |b| == |open|
  {
    CumSum(Growth(open))
  }

  /** The first k+1 growth rows add up to the move from the first open to open k+1. */
  lemma {:induction false} GrowthSum(open: seq<real>, k: nat)
    requires k + 1 < |open|
    ensures SumDefined(Growth(open)[..k + 1]) == open[k + 1] - open[0]
  {
    var g := Growth(open);
    assert g[..k + 1][..k] == g[..k];
    if k == 0 {
      assert g[..0] == [];
    } else {
      GrowthSum(open, k - 1);
    }
  }

  /**
   * Buy-and-hold telescopes: row k (before the last) holds open[k+1] - open[0], and the
   * last row is NaN.
   */
  lemma BuyHoldTelescopes(open: seq<real>, k: nat)
    requires k < |open|
    ensures BuyHold(open)[k] == if k + 1 < |open| then Some(open[k + 1] - open[0]) else None
  {
    if k + 1 < |open| {
      GrowthSum(open, k);
    }
  }

  /**
   * The backtest of one pair on the test prices, column by column as the script assigns
   * them: both averages, the 0/1 share column, the profit `(close - previous close) *
   * shares` and its running sum. `PairWealth` is its specification.
   */
  method StrategyWealth(close: seq<real>, kind: AverageKind, p: WindowPair) returns (wealth: seq<Option<real>>)
    requires InGrid(p)
    ensures wealth == PairWealth(kind, close, p)
  {
    var shortAverage := Average(kind, close, p.short);
    var longAverage := Average(kind, close, p.long);
    var mask := Mask(shortAverage, longAverage);
    var profit := Profit(close, mask);
    wealth := CumSum(profit);
  }

  /** The three curves the script plots, and the pair it reports. */
  datatype Report = Report(
    best: Candidate,
    bestWealth: seq<Option<real>>,
    benchmarkWealth: seq<Option<real>>,
    buyHoldWealth: seq<Option<real>>)

  /**
   * The whole script after the download: search on `data`, pick the first best pair, then
   * backtest it, the 50/200 pair and buy-and-hold on `test`.
   */
  method Run(data: seq<Bar>, test: seq<Bar>, kind: AverageKind) returns (report: Report)
    ensures report.best == Winner(Closes(data), kind)
    ensures report.bestWealth == PairWealth(kind, Closes(test), report.best.pair)
    ensures report.benchmarkWealth == PairWealth(kind, Closes(test), BENCHMARK)
    ensures report.buyHoldWealth == BuyHold(Opens(test))
    ensures test == data && |data| >= 2 ==>
      report.bestWealth[|test| - 1] == Some(report.best.totalReturn)
  {
    var best := Optimise(Closes(data), kind);

    var testClose := Closes(test);
    var bestWealth := StrategyWealth(testClose, kind, best.pair);
    var benchmarkWealth := StrategyWealth(testClose, kind, BENCHMARK);
    var buyHoldWealth := BuyHold(Opens(test));
    report := Report(best, bestWealth, benchmarkWealth, buyHoldWealth);

    if test == data && |data| >= 2 {
      PairWealthMatchesScore(kind, testClose, best.pair);
    }
  }
}
