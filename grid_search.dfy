/**
 * The parameter search: every (short, long) window pair of the grid that passes the
 * ratio rule is scored by the total return of its crossover strategy, and the first pair
 * with the largest score wins.
 */
module GridSearch {
  import opened Wrappers
  import opened MovingAverages
  import opened Signals
  import opened Accounting

  const SHORT_MIN := 10
  const SHORT_MAX := 50
  const LONG_MIN := 50
  const LONG_MAX := 200

  datatype WindowPair = WindowPair(short: int, long: int)

  /** One entry of the results list: the pair and its search-time total return. */
  datatype Candidate = Candidate(pair: WindowPair, totalReturn: real)

  /** The fixed 50/200 crossover the backtest compares against. */
  const BENCHMARK := WindowPair(50, 200)

  /** Python's `range(lo, hi)`: the integers from lo up to but excluding hi, ascending. */
  function Range(lo: int, hi: int): (r: seq<int>)
    ensures |r| == if hi <= lo then 0 else hi - lo
    ensures forall i :: 0 <= i < |r| ==> r[i] == lo + i
  {
    if hi <= lo then [] else seq(hi - lo, i requires 0 <= i < hi - lo => lo + i)
  }

  /** `x in range(lo, hi)` is the bound check lo <= x < hi. */
  lemma InRange(x: int, lo: int, hi: int)
    ensures x in Range(lo, hi) <==> lo <= x < hi
  {
    if lo <= x < hi {
      assert Range(lo, hi)[x - lo] == x;
    }
  }

  /** The pair is drawn from `short_terms = range(10, 51)` and `long_terms = range(50, 201)`. */
  predicate InGrid(p: WindowPair): (ok: bool)
    ensures ok <==> p.short in Range(SHORT_MIN, SHORT_MAX + 1) && p.long in Range(LONG_MIN, LONG_MAX + 1)
  {
    InRange(p.short, SHORT_MIN, SHORT_MAX + 1);
    InRange(p.long, LONG_MIN, LONG_MAX + 1);
    SHORT_MIN <= p.short <= SHORT_MAX && LONG_MIN <= p.long <= LONG_MAX
  }

  /**
   * The rule of thumb `0.50 >= short / long >= 0.25`, evaluated as a division as the loop
   * does. It holds exactly when the long window is 2 to 4 times the short one.
   */
  predicate RatioOk(short: int, long: int): (ok: bool)
    requires long > 0
    ensures ok <==> WithinRatio(short, long)
  {
    QuotientBounds(short as real, long as real, 0.25);
    QuotientBounds(short as real, long as real, 0.50);
    0.50 >= short as real / long as real >= 0.25
  }

  /** Comparing a quotient with a bound is comparing the dividend with bound times divisor. */
  lemma QuotientBounds(a: real, d: real, b: real)
    requires d > 0.0
    ensures a / d >= b <==> a >= b * d
    ensures a / d <= b <==> a <= b * d
  {
    var q := a / d;
    assert q * d == a;
    assert q * d - b * d == (q - b) * d;
  }

  /** The loop's test of the rule of thumb, evaluated as a division. */
  method PassesRatioRule(short: int, long: int) returns (keep: bool)
    requires long > 0
    ensures keep <==> WithinRatio(short, long)
  {
    keep := RatioOk(short, long);
  }

  /** The ratio rule without division: the long window is 2 to 4 times the short one. */
  predicate WithinRatio(short: int, long: int)
  {
    2 * short <= long <= 4 * short
  }

  /** A pair the search records: inside the grid and passing the ratio rule. */
  predicate Kept(p: WindowPair)
  {
    InGrid(p) && WithinRatio(p.short, p.long)
  }

  /** Enumeration order: short ascending, then long ascending. */
  predicate Precedes(p: WindowPair, q: WindowPair)
  {
    p.short < q.short || (p.short == q.short && p.long < q.long)
  }

  /** The smallest long window row `short` admits: the larger of 2 * short and 50. */
  function RowStart(short: int): int
  {
    if 2 * short >= LONG_MIN then 2 * short else LONG_MIN
  }

  /** The largest long window row `short` admits: the smaller of 4 * short and 200. */
  function RowEnd(short: int): int
  {
    if 4 * short <= LONG_MAX then 4 * short else LONG_MAX
  }

  /** Inside the long range, the ratio rule holds exactly from RowStart to RowEnd. */
  lemma RowBounds(short: int, long: int)
    requires LONG_MIN <= long <= LONG_MAX
    ensures WithinRatio(short, long) <==> RowStart(short) <= long <= RowEnd(short)
  {
  }

  /** The pairs (short, l) for lo <= l < hi, in ascending order of l. */
  function Span(short: int, lo: int, hi: int): (ps: seq<WindowPair>)
    ensures |ps| == if hi <= lo then 0 else hi - lo
    ensures forall j :: 0 <= j < |ps| ==> ps[j] == WindowPair(short, lo + j)
  {
    if hi <= lo then [] else seq(hi - lo, j requires 0 <= j < hi - lo => WindowPair(short, lo + j))
  }

  /**
   * The pairs row `short` of the nested loops has recorded once the inner loop reaches
   * `long`: the admitted long windows below `long`.
   */
  function RowUpTo(short: int, long: int): (ps: seq<WindowPair>)
    requires SHORT_MIN <= short <= SHORT_MAX
    ensures forall i :: 0 <= i < |ps| ==> Kept(ps[i]) && ps[i].short == short && ps[i].long < long
  {
    Span(short, RowStart(short), if long <= RowEnd(short) then long else RowEnd(short) + 1)
  }

  /** One step of the inner loop: position (short, long) adds its pair or nothing. */
  lemma RowStep(short: int, long: int)
    requires SHORT_MIN <= short <= SHORT_MAX && LONG_MIN <= long <= LONG_MAX
    ensures RowUpTo(short, long + 1)
      == RowUpTo(short, long) + if WithinRatio(short, long) then [WindowPair(short, long)] else []
  {
    RowBounds(short, long);
    var before, after := RowUpTo(short, long), RowUpTo(short, long + 1);
    if WithinRatio(short, long) {
      assert after == before + [WindowPair(short, long)];
    } else {
      assert after == before + [];
    }
  }

  /** Row `short` in full: every long window it admits. */
  function Row(short: int): (ps: seq<WindowPair>)
    requires SHORT_MIN <= short <= SHORT_MAX
    ensures forall i :: 0 <= i < |ps| ==> Kept(ps[i]) && ps[i].short == short
  {
    RowUpTo(short, LONG_MAX + 1)
  }

  /** The pairs the nested loops have recorded before reaching row `short`. */
  function Rows(short: int): (ps: seq<WindowPair>)
    requires SHORT_MIN <= short <= SHORT_MAX + 1
    ensures forall i :: 0 <= i < |ps| ==> Kept(ps[i]) && ps[i].short < short
    decreases short
  {
    if short == SHORT_MIN then [] else Rows(short - 1) + Row(short - 1)
  }

  /** The whole recorded sequence of pairs, in the order the loops visit them. */
  function Grid(): (g: seq<WindowPair>)
    ensures forall i :: 0 <= i < |g| ==> Kept(g[i])
  {
    Rows(SHORT_MAX + 1)
  }

  /** Row `p.short` lists every long window that passes the rule with it. */
  lemma RowComplete(p: WindowPair)
    requires Kept(p)
    ensures p in Row(p.short)
  {
    RowBounds(p.short, p.long);
    assert Row(p.short)[p.long - RowStart(p.short)] == p;
  }

  /** Every pair that passes the rule in an earlier row than `short` is recorded by then. */
  lemma {:induction false} RowsComplete(short: int, p: WindowPair)
    requires SHORT_MIN <= short <= SHORT_MAX + 1
    requires Kept(p) && p.short < short
    ensures p in Rows(short)
    decreases short
  {
    if p.short == short - 1 {
      RowComplete(p);
    } else {
      RowsComplete(short - 1, p);
    }
  }

  /** The records are strictly increasing in short-major, long-minor order. */
  lemma {:induction false} RowsSorted(short: int)
    requires SHORT_MIN <= short <= SHORT_MAX + 1
    ensures forall i, j :: 0 <= i < j < |Rows(short)| ==> Precedes(Rows(short)[i], Rows(short)[j])
    decreases short
  {
    if short > SHORT_MIN {
      RowsSorted(short - 1);
      var earlier, row := Rows(short - 1), Row(short - 1);
      var ps := earlier + row;
      forall i, j | 0 <= i < j < |ps|
        ensures Precedes(ps[i], ps[j])
      {
        if j < |earlier| {
          assert ps[i] == earlier[i] && ps[j] == earlier[j];
        } else if i < |earlier| {
          assert ps[i] == earlier[i] && ps[j] == row[j - |earlier|];
        } else {
          assert ps[i] == row[i - |earlier|] && ps[j] == row[j - |earlier|];
        }
      }
    }
  }

  /** From row 14 on, the first record is (13, 50): rows 10 to 12 admit no long window. */
  lemma {:induction false} RowsHead(short: int)
    requires 14 <= short <= SHORT_MAX + 1
    ensures |Rows(short)| > 0 && Rows(short)[0] == WindowPair(13, 50)
    decreases short
  {
    if short == 14 {
      assert Rows(13) == [];
      assert Rows(14) == Row(13);
      assert Row(13)[0] == WindowPair(13, 50);
    } else {
      RowsHead(short - 1);
      var ps, row := Rows(short - 1), Row(short - 1);
      assert (ps + row)[0] == ps[0];
    }
  }

  /**
   * A pair is recorded iff it lies in the grid and passes `0.50 >= short / long >= 0.25`,
   * that is iff its long window is 2 to 4 times its short one.
   */
  lemma GridMembership(p: WindowPair)
    ensures p in Grid() <==> InGrid(p) && RatioOk(p.short, p.long)
    ensures p in Grid() <==> InGrid(p) && 2 * p.short <= p.long <= 4 * p.short
  {
    if InGrid(p) {
      assert RatioOk(p.short, p.long) <==> WithinRatio(p.short, p.long);
      if WithinRatio(p.short, p.long) {
        RowsComplete(SHORT_MAX + 1, p);
      }
    }
  }

  /** Each pair is recorded once, and the records are in short-major, long-minor order. */
  lemma GridOrder()
    ensures forall i, j :: 0 <= i < j < |Grid()| ==> Precedes(Grid()[i], Grid()[j])
    ensures forall i, j :: 0 <= i < |Grid()| && 0 <= j < |Grid()| && Grid()[i] == Grid()[j] ==> i == j
  {
    RowsSorted(SHORT_MAX + 1);
  }

  /** No pair has short 10, 11 or 12 (4 * 12 < 50), so the first recorded pair is (13, 50). */
  lemma GridFirst()
    ensures |Grid()| > 0 && Grid()[0] == WindowPair(13, 50)
  {
    RowsHead(SHORT_MAX + 1);
  }

  /** The benchmark (50, 200) has ratio exactly 0.25, so it is recorded: results is never empty. */
  lemma BenchmarkInGrid()
    ensures BENCHMARK in Grid() && |Grid()| > 0
  {
    GridMembership(BENCHMARK);
  }

  /** The mask of a grid pair leaves row 0 unsignalled, for either kind of average. */
  lemma GridRowZeroFlat(kind: AverageKind, close: seq<real>, p: WindowPair)
    requires InGrid(p)
    ensures |close| > 0 ==> !PairMask(kind, close, p.short, p.long)[0]
  {
    if |close| > 0 {
      RowZeroFlat(kind, close, p.short, p.long);
    }
  }

  /**
   * The score of one pair, as a specification: the price changes summed over the rows its
   * crossover mask signals.
   */
  function Score(close: seq<real>, kind: AverageKind, p: WindowPair): real
    requires InGrid(p)
  {
    SignalledGain(close, PairMask(kind, close, p.short, p.long))
  }

  /**
   * The loop body's `total_return` (cumulative sum of the filtered price changes, last row)
   * is never NaN for a grid pair, and equals the pair's score.
   */
  lemma ScoreIsTotalReturn(close: seq<real>, kind: AverageKind, p: WindowPair)
    requires InGrid(p)
    ensures TotalReturn(close, PairMask(kind, close, p.short, p.long)) == Some(Score(close, kind, p))
  {
    GridRowZeroFlat(kind, close, p);
    TotalReturnIsSignalledGain(close, PairMask(kind, close, p.short, p.long));
  }

  /** The results list for a sequence of pairs. */
  function Scored(close: seq<real>, kind: AverageKind, ps: seq<WindowPair>): (cs: seq<Candidate>)
    requires forall i :: 0 <= i < |ps| ==> InGrid(ps[i])
    ensures |cs| == |ps|
  {
    seq(|ps|, i requires 0 <= i < |ps| => Candidate(ps[i], Score(close, kind, ps[i])))
  }

  lemma ScoredSnoc(close: seq<real>, kind: AverageKind, ps: seq<WindowPair>, p: WindowPair)
    requires forall i :: 0 <= i < |ps| ==> InGrid(ps[i])
    requires InGrid(p)
    ensures Scored(close, kind, ps + [p]) == Scored(close, kind, ps) + [Candidate(p, Score(close, kind, p))]
  {
    var qs := ps + [p];
    assert forall i :: 0 <= i < |ps| ==> qs[i] == ps[i];
  }

  /** The results list the search builds for a price series. */
  function Candidates(close: seq<real>, kind: AverageKind): (cs: seq<Candidate>)
    ensures |cs| == |Grid()|
  {
    Scored(close, kind, Grid())
  }

  /**
   * One pass of the loop body: fresh averages for both windows, the crossover mask, and
   * the total return of the signalled rows.
   */
  method Evaluate(close: seq<real>, kind: AverageKind, short: int, long: int) returns (c: Candidate)
    requires InGrid(WindowPair(short, long))
    ensures c == Candidate(WindowPair(short, long), Score(close, kind, WindowPair(short, long)))
  {
    var fast := Average(kind, close, short);
    var slow := Average(kind, close, long);
    var mask := Mask(fast, slow);
    ScoreIsTotalReturn(close, kind, WindowPair(short, long));
    var totalReturn := TotalReturn(close, mask).value;
    c := Candidate(WindowPair(short, long), totalReturn);
  }

  /**
   * The body of the inner loop for one pair: when it passes the ratio rule it is scored
   * and its candidate appended to `results`; `done` holds the pairs recorded so far.
   */
  method Visit(close: seq<real>, kind: AverageKind, short: int, long: int,
               results: seq<Candidate>, ghost done: seq<WindowPair>)
    returns (newResults: seq<Candidate>, ghost newDone: seq<WindowPair>)
    requires InGrid(WindowPair(short, long))
    requires forall i :: 0 <= i < |done| ==> InGrid(done[i])
    requires results == Scored(close, kind, done)
    ensures newDone == done + (if WithinRatio(short, long) then [WindowPair(short, long)] else [])
    ensures forall i :: 0 <= i < |newDone| ==> InGrid(newDone[i])
    ensures newResults == Scored(close, kind, newDone)
  {
    newResults, newDone := results, done;
    var keep := PassesRatioRule(short, long);
    if keep {
      var candidate := Evaluate(close, kind, short, long);
      ScoredSnoc(close, kind, done, candidate.pair);
      newResults := results + [candidate];
      newDone := done + [candidate.pair];
    } else {
      assert done + [] == done;
    }
  }

  /** The inner loop `for long in long_terms` for row `short`. */
  method SearchRow(close: seq<real>, kind: AverageKind, short: int, results: seq<Candidate>)
    returns (rowResults: seq<Candidate>)
    requires SHORT_MIN <= short <= SHORT_MAX
    requires results == Scored(close, kind, Rows(short))
    ensures rowResults == Scored(close, kind, Rows(short + 1))
  {
    rowResults := results;
    ghost var rowDone := Rows(short);
    var long := LONG_MIN;
    assert Rows(short) + RowUpTo(short, LONG_MIN) == Rows(short);
    while long <= LONG_MAX
      invariant LONG_MIN <= long <= LONG_MAX + 1
      invariant rowDone == Rows(short) + RowUpTo(short, long)
      invariant forall i :: 0 <= i < |rowDone| ==> InGrid(rowDone[i])
      invariant rowResults == Scored(close, kind, rowDone)
    {
      RowStep(short, long);
      ghost var x := if WithinRatio(short, long) then [WindowPair(short, long)] else [];
      rowResults, rowDone := Visit(close, kind, short, long, rowResults, rowDone);
      assert (Rows(short) + RowUpTo(short, long)) + x == Rows(short) + (RowUpTo(short, long) + x);
      long := long + 1;
    }
  }

  /**
   * The nested search loops: for every grid pair passing the ratio rule, compute fresh
   * averages, the mask and the total return, and append the result.
   */
  method Search(close: seq<real>, kind: AverageKind) returns (results: seq<Candidate>)
    ensures results == Candidates(close, kind)
  {
    results := [];
    var short := SHORT_MIN;
    while short <= SHORT_MAX
      invariant SHORT_MIN <= short <= SHORT_MAX + 1
      invariant results == Scored(close, kind, Rows(short))
    {
      results := SearchRow(close, kind, short, results);
      short := short + 1;
    }
  }

  /** k is a first maximum: no entry beats it, and every earlier entry is strictly below it. */
  predicate IsFirstMax(cs: seq<Candidate>, k: int)
  {
    0 <= k < |cs| &&
    (forall j :: 0 <= j < |cs| ==> cs[j].totalReturn <= cs[k].totalReturn) &&
    (forall j :: 0 <= j < k ==> cs[j].totalReturn < cs[k].totalReturn)
  }

  /** Ties go to the earliest entry, so there is at most one first maximum. */
  lemma FirstMaxUnique(cs: seq<Candidate>, a: int, b: int)
    requires IsFirstMax(cs, a) && IsFirstMax(cs, b)
    ensures a == b
  {
    assert cs[a].totalReturn == cs[b].totalReturn;
  }

  /**
   * Python's `max(results, key=...)` scanned from position i with the best so far at
   * `best`: a later entry replaces it only when strictly larger.
   */
  function FirstMaxFrom(cs: seq<Candidate>, i: nat, best: nat): (k: nat)
    requires best < i <= |cs|
    requires forall j :: 0 <= j < i ==> cs[j].totalReturn <= cs[best].totalReturn
    requires forall j :: 0 <= j < best ==> cs[j].totalReturn < cs[best].totalReturn
    ensures IsFirstMax(cs, k)
    decreases |cs| - i
  {
    if i == |cs| then best
    else if cs[i].totalReturn > cs[best].totalReturn then FirstMaxFrom(cs, i + 1, i)
    else FirstMaxFrom(cs, i + 1, best)
  }

  /** The index of `best_pair`, as a specification: the unique first maximum. */
  ghost function BestIndex(cs: seq<Candidate>): (k: nat)
    requires |cs| > 0
    ensures IsFirstMax(cs, k)
  {
    assert IsFirstMax(cs, FirstMaxFrom(cs, 1, 0));
    var k :| IsFirstMax(cs, k);
    k
  }

  /** The scan `max` performs finds exactly that index. */
  lemma MaxScanFindsBest(cs: seq<Candidate>)
    requires |cs| > 0
    ensures FirstMaxFrom(cs, 1, 0) == BestIndex(cs)
  {
    FirstMaxUnique(cs, FirstMaxFrom(cs, 1, 0), BestIndex(cs));
  }

  /** `max(results, key=lambda x: x[2])`: the scan from the first entry. */
  method SelectBest(cs: seq<Candidate>) returns (k: nat)
    requires |cs| > 0
    ensures k == BestIndex(cs)
  {
    k := FirstMaxFrom(cs, 1, 0);
    MaxScanFindsBest(cs);
  }

  /** Entry j of the search's results is grid pair j with its score. */
  lemma CandidatesAt(close: seq<real>, kind: AverageKind, j: int)
    requires 0 <= j < |Grid()|
    ensures Candidates(close, kind)[j] == Candidate(Grid()[j], Score(close, kind, Grid()[j]))
  {
  }

  /** The selected pair scores at least as much as the 50/200 benchmark on the same prices. */
  lemma BestBeatsBenchmark(close: seq<real>, kind: AverageKind)
    ensures |Candidates(close, kind)| > 0
    ensures Candidates(close, kind)[BestIndex(Candidates(close, kind))].totalReturn
      >= Score(close, kind, BENCHMARK)
  {
    BenchmarkInGrid();
    var j :| 0 <= j < |Grid()| && Grid()[j] == BENCHMARK;
    CandidatesAt(close, kind, j);
  }

  /**
   * `best_pair`: the first candidate with the largest total return. It is a recorded grid
   * pair, its score is its own pair's score, and it scores at least the 50/200 benchmark.
   */
  ghost function Winner(close: seq<real>, kind: AverageKind): (c: Candidate)
    ensures c in Candidates(close, kind)
    ensures InGrid(c.pair) && 2 * c.pair.short <= c.pair.long <= 4 * c.pair.short
    ensures c.totalReturn == Score(close, kind, c.pair)
    ensures forall j :: 0 <= j < |Candidates(close, kind)| ==>
      Candidates(close, kind)[j].totalReturn <= c.totalReturn
    ensures c.totalReturn >= Score(close, kind, BENCHMARK)
  {
    BestBeatsBenchmark(close, kind);
    var cs := Candidates(close, kind);
    var k := BestIndex(cs);
    CandidatesAt(close, kind, k);
    GridMembership(Grid()[k]);
    cs[k]
  }

  /**
   * The whole parameter search: run the nested loops, then take `max` of the results by
   * total return.
   */
  method Optimise(close: seq<real>, kind: AverageKind) returns (best: Candidate)
    ensures best == Winner(close, kind)
  {
    var results := Search(close, kind);
    GridFirst();
    var k := SelectBest(results);
    best := results[k];
  }

  /** On a flat price series every score is 0, so the first pair, (13, 50), is selected. */
  lemma FlatSeriesPicksFirst(close: seq<real>, kind: AverageKind)
    requires forall i :: 0 <= i < |close| ==> close[i] == close[0]
    ensures forall j :: 0 <= j < |Candidates(close, kind)| ==> Candidates(close, kind)[j].totalReturn == 0.0
    ensures Winner(close, kind).pair == WindowPair(13, 50)
  {
    GridFirst();
    var cs := Candidates(close, kind);
    forall j | 0 <= j < |cs|
      ensures cs[j].totalReturn == 0.0
    {
      CandidatesAt(close, kind, j);
      FlatScoreZero(close, kind, Grid()[j]);
    }
    FirstMaxUnique(cs, 0, BestIndex(cs));
  }

  /** On a flat price series every pair scores 0. */
  lemma FlatScoreZero(close: seq<real>, kind: AverageKind, p: WindowPair)
    requires InGrid(p)
    requires forall i :: 0 <= i < |close| ==> close[i] == close[0]
    ensures Score(close, kind, p) == 0.0
  {
    FlatSeriesNoGain(close, PairMask(kind, close, p.short, p.long));
  }

  /**
   * With simple averages, a series shorter than the long window has no signalled row: the
   * pair's score and its `total_return` are both 0.
   */
  lemma ShortSeriesScoresZero(close: seq<real>, p: WindowPair)
    requires InGrid(p) && |close| < p.long
    ensures forall i :: 0 <= i < |close| ==> !PairMask(Simple, close, p.short, p.long)[i]
    ensures Score(close, Simple, p) == 0.0
    ensures TotalReturn(close, PairMask(Simple, close, p.short, p.long)) == Some(0.0)
  {
    forall i | 0 <= i < |close|
      ensures !PairMask(Simple, close, p.short, p.long)[i]
    {
      SmaWarmUpFlat(close, p.short, p.long, i);
    }
    NoSignalNoGain(close, PairMask(Simple, close, p.short, p.long));
  }
}
