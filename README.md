# Moving-average crossover search and backtest

This project models the two strategy scripts `optimal_EMA_trend_strategy.py` and
`optimal_SMA_trend_strategy.py`. Both scripts have the same structure and differ only in the
moving average they use, so they are one development parameterised by `AverageKind`:
`Exponential` is pandas' `ewm(span, adjust=False).mean()` and `Simple` is
`rolling(window).mean()`.

Each script does three things:

- **Search.** It walks the grid `short in range(10, 51)`, `long in range(50, 201)` short-major,
  long-minor. It keeps a pair when `0.50 >= short / long >= 0.25`. For each kept pair it
  computes fresh averages, the crossover mask `short average > long average` and the search
  score `total_return`, and appends `(short, long, total_return)` to a results list.
- **Selection.** It picks `best_pair = max(results, key=total_return)`.
- **Backtest.** It replays the winning pair, the fixed 50/200 pair and buy-and-hold on the
  test download. Each is a cumulative wealth curve.

Prices are exact `real`s. A pandas NaN is `None` of `Option` (module `Wrappers`). A comparison
with NaN is False, and sums and cumulative sums skip NaN as pandas does.

Modules:

- `MovingAverages`: the EMA recurrence and the rolling mean.
- `Signals`: the mask, the 0/1 share column and the one-day price change.
- `Accounting`:
  - the NaN-skipping sum and cumulative sum;
  - the row filter `data[mask]`;
  - the search score `TotalReturn`;
  - the backtest profit column;
  - `SignalledGain`, the independent reference definition that both of the above are proved
    equal to.
- `GridSearch`:
  - the ratio rule, proved equal to `2 * short <= long <= 4 * short`;
  - the enumeration `Grid()` in loop order;
  - the nested loops as the methods `Search`, `SearchRow` and `Visit`, proved to build exactly
    `Candidates`;
  - the first-maximum selection (`FirstMaxFrom`, the scan `max` performs, against the
    specification `BestIndex`);
  - `Winner`, the pair the script reports.
- `Backtest`: the wealth curves, buy-and-hold, and `Run`, the whole script after the
  downloads.

The search and the backtest each read a download of their own. `Run` therefore takes two
series, `data` and `test`. When they are equal (and have at least two rows), its contract
proves that the winner's final wealth is its search-time total return.

Two behaviours of the code are worth stating plainly:

- **Buy-and-hold last row.** `Open.shift(-1) - Open` is NaN on the last row, and the
  cumulative sum keeps NaN on that row. `Growth` and `BuyHoldTelescopes` state the NaN.
- **No error paths.** The code raises no error of its own, and none is modelled.
  - `BenchmarkInGrid` and `GridFirst` prove that the results list is never empty, so
    `best_pair` is always bound.
  - `ShortSeriesScoresZero` proves that, with rolling means (the SMA script), a series
    shorter than the long window simply scores 0. With exponential averages such a series
    can still be signalled.
  - An empty or one-row series is accepted everywhere.

## Model

| member | source | states |
|---|---|---|
| MovingAverages.Alpha | optimal_EMA_trend_strategy.py:47-48 | the smoothing factor 2/(span+1) lies in (0, 1] for every span of at least 1 |
| MovingAverages.Ema | optimal_EMA_trend_strategy.py:47-48 | The EMA column has one value per close, and its first value is the first close. |
| MovingAverages.EmaRecurrence | optimal_EMA_trend_strategy.py:47-48 | every later EMA value is alpha * close[i] + (1 - alpha) * previous EMA value |
| MovingAverages.EmaPrefix | optimal_EMA_trend_strategy.py:86-87 | the EMA of a prefix of the series is the prefix of the EMA: the average only looks back |
| MovingAverages.Sma | optimal_SMA_trend_strategy.py:44-45 | the rolling-mean column has the length of the close column |
| MovingAverages.SumFront | optimal_SMA_trend_strategy.py:44-45 | the window sum taken from the back equals the first price plus the sum of the rest |
| MovingAverages.SmaWindowOne | optimal_SMA_trend_strategy.py:83-84 | `rolling(1).mean()` is the identity: every row is defined and equals its close |
| MovingAverages.SmaSlide | optimal_SMA_trend_strategy.py:44-45 | once defined, each rolling mean is the previous one plus (entering price - leaving price) / w |
| MovingAverages.Average | optimal_SMA_trend_strategy.py:44-45 | the average column of each script: every EMA row is defined and holds the EMA, and the simple kind is the rolling mean |
| Signals.Mask | optimal_EMA_trend_strategy.py:51 | mask row i is True iff both averages are defined there and the short one is strictly greater |
| Signals.Shares | optimal_EMA_trend_strategy.py:90 | `astype(int)` of the mask: every entry is 0 or 1, and it is 1 iff the mask row is True |
| Signals.Deltas | optimal_EMA_trend_strategy.py:44 | `Close - Close.shift(1)`: NaN on row 0, close[i] - close[i-1] on every later row |
| Signals.PairMask | optimal_EMA_trend_strategy.py:47-51 | the mask of a pair of windows has one row per price, and a row is signalled iff both fresh averages are defined there and the short one is strictly greater |
| Signals.TiesAreFlat | optimal_EMA_trend_strategy.py:101 | equal averages give a False mask and 0 shares |
| Signals.EmaRowZeroFlat | optimal_EMA_trend_strategy.py:47-51 | both EMAs start at the first close, so row 0 is never signalled |
| Signals.SmaWarmUpFlat | optimal_SMA_trend_strategy.py:45-48 | every row before the long window has filled is unsignalled |
| Signals.RowZeroFlat | optimal_SMA_trend_strategy.py:41-48 | for either kind, a long window of at least 2 leaves row 0 unsignalled |
| Accounting.SumDefined | optimal_EMA_trend_strategy.py:57 | the NaN-skipping sum inside `cumsum()`: a column of NaN only sums to 0 |
| Accounting.CumSum | optimal_EMA_trend_strategy.py:57 | `cumsum()` keeps the length, and a row is NaN iff the input row is NaN |
| Accounting.Select | optimal_EMA_trend_strategy.py:54 | `data[mask]` is no longer than the data, and it is empty iff no mask row is True |
| Accounting.TotalReturn | optimal_EMA_trend_strategy.py:54-63 | the search score: with no signalled row `df` is empty and the score is the explicit 0 (its value in general is stated by TotalReturnIsSignalledGain) |
| Accounting.ShareProfit | optimal_EMA_trend_strategy.py:92 | `change * shares`: NaN iff the change is NaN; 0 shares earn 0 and 1 share earns the whole change |
| Accounting.Profit | optimal_EMA_trend_strategy.py:91-92 | the backtest profit column: one row per price, NaN exactly on row 0 (each row is stated by ProfitAt, the sum by ProfitSum) |
| Accounting.ProfitAt | optimal_EMA_trend_strategy.py:91-92 | backtest profit row i is NaN on row 0, otherwise the change when signalled and 0 when not |
| Accounting.SumDefinedSnoc | optimal_EMA_trend_strategy.py:57 | appending a row adds its value to the NaN-skipping sum, or nothing if it is NaN |
| Accounting.SelectedDeltasDefined | optimal_EMA_trend_strategy.py:54-57 | with row 0 unsignalled, every filtered profit row is defined |
| Accounting.SelectedDeltasSum | optimal_EMA_trend_strategy.py:54-57 | with row 0 unsignalled, the filtered profit rows sum to the signalled gain |
| Accounting.TotalReturnIsSignalledGain | optimal_EMA_trend_strategy.py:54-63 | with row 0 unsignalled (true of every grid pair, by `GridRowZeroFlat`), the search score (last cumulative profit, or 0 when `df` is empty) is defined and equals the sum of the changes on the signalled rows |
| Accounting.NoSignalNoGain | optimal_EMA_trend_strategy.py:59-63 | with no signalled row, the gain and the search score are both 0 |
| Accounting.GainColumnSum | optimal_EMA_trend_strategy.py:93 | a column that is NaN on row 0 and holds each row's gain afterwards sums to the signalled gain |
| Accounting.ProfitSum | optimal_EMA_trend_strategy.py:92-93 | the backtest profit column sums to the signalled gain |
| Accounting.FlatSeriesNoGain | optimal_EMA_trend_strategy.py:54-63 | a constant price series gains nothing, whatever the mask |
| GridSearch.Range | optimal_EMA_trend_strategy.py:31-32 | `range(lo, hi)`: hi - lo entries (none if hi <= lo), entry i being lo + i |
| GridSearch.InRange | optimal_EMA_trend_strategy.py:31-32 | x is in `range(lo, hi)` iff lo <= x < hi |
| GridSearch.InGrid | optimal_EMA_trend_strategy.py:31-32 | a pair is in the grid iff short is in `range(10, 51)` and long is in `range(50, 201)` |
| GridSearch.QuotientBounds | optimal_EMA_trend_strategy.py:42 | comparing a quotient with a bound is comparing the dividend with the bound times the divisor |
| GridSearch.RatioOk | optimal_EMA_trend_strategy.py:42 | the division test `0.50 >= short / long >= 0.25` holds iff 2 * short <= long <= 4 * short |
| GridSearch.PassesRatioRule | optimal_EMA_trend_strategy.py:42 | the loop's test, evaluated by `RatioOk`'s division, keeps a pair iff 2 * short <= long <= 4 * short |
| GridSearch.RowBounds | optimal_EMA_trend_strategy.py:32-42 | within 50..200, row `short` keeps exactly the long windows from max(2 * short, 50) to min(4 * short, 200) |
| GridSearch.Span | optimal_EMA_trend_strategy.py:40 | the pairs (short, l) for lo <= l < hi, in ascending order of l |
| GridSearch.RowUpTo | optimal_EMA_trend_strategy.py:40-42 | what row `short` has recorded before `long`: kept pairs of that row with smaller long windows |
| GridSearch.RowStep | optimal_EMA_trend_strategy.py:40-42 | one inner-loop step appends (short, long) iff it passes the ratio rule, and nothing otherwise |
| GridSearch.Row | optimal_EMA_trend_strategy.py:40-42 | a full inner loop records only kept pairs of its own row |
| GridSearch.Rows | optimal_EMA_trend_strategy.py:39-42 | the rows before `short` record only kept pairs with smaller short windows |
| GridSearch.Grid | optimal_EMA_trend_strategy.py:31-42 | every recorded pair is in the grid and passes the ratio rule |
| GridSearch.RowComplete | optimal_EMA_trend_strategy.py:40-42 | a row records every long window that passes the rule with it |
| GridSearch.RowsComplete | optimal_EMA_trend_strategy.py:39-42 | every kept pair of an earlier row is recorded by the time row `short` starts |
| GridSearch.RowsSorted | optimal_EMA_trend_strategy.py:39-40 | the records are strictly increasing in short-major, long-minor order |
| GridSearch.RowsHead | optimal_EMA_trend_strategy.py:31-42 | from row 14 on, the first record is (13, 50) |
| GridSearch.GridMembership | optimal_EMA_trend_strategy.py:31-42 | a pair is recorded iff it lies in the grid and passes the ratio rule, both as the division and as 2 * short <= long <= 4 * short |
| GridSearch.GridOrder | optimal_EMA_trend_strategy.py:39-40 | every pair is recorded once, in short-ascending then long-ascending order |
| GridSearch.GridFirst | optimal_EMA_trend_strategy.py:31-42 | no pair with short 10, 11 or 12 passes, so the first recorded pair is (13, 50) |
| GridSearch.BenchmarkInGrid | optimal_EMA_trend_strategy.py:70 | (50, 200) is recorded (its ratio is exactly 0.25), so `results` is never empty |
| GridSearch.GridRowZeroFlat | optimal_EMA_trend_strategy.py:44-51 | no grid pair signals row 0, where the profit is NaN |
| GridSearch.ScoreIsTotalReturn | optimal_EMA_trend_strategy.py:44-63 | for every grid pair, `total_return` is defined and equals the signalled gain of its mask |
| GridSearch.Scored | optimal_EMA_trend_strategy.py:66 | the results list for a sequence of pairs has one entry per pair |
| GridSearch.ScoredSnoc | optimal_EMA_trend_strategy.py:66 | appending a pair appends its scored entry to the results |
| GridSearch.Candidates | optimal_EMA_trend_strategy.py:35-66 | the full results list has one entry per recorded pair |
| GridSearch.Evaluate | optimal_EMA_trend_strategy.py:44-66 | one loop body: fresh averages, the mask and `total_return`, giving the pair with its score |
| GridSearch.Visit | optimal_EMA_trend_strategy.py:40-66 | one inner iteration appends a scored entry iff the pair passes the ratio rule |
| GridSearch.SearchRow | optimal_EMA_trend_strategy.py:40-66 | one full inner loop extends the results by exactly the scored pairs of row `short` |
| GridSearch.Search | optimal_EMA_trend_strategy.py:35-66 | the nested loops build exactly the scored grid, in loop order (the same loops with rolling means at optimal_SMA_trend_strategy.py lines 33-63) |
| GridSearch.FirstMaxUnique | optimal_EMA_trend_strategy.py:71 | there is at most one first maximum |
| GridSearch.FirstMaxFrom | optimal_EMA_trend_strategy.py:71 | `max`'s left-to-right scan, replacing only on a strictly larger score, returns a first maximum |
| GridSearch.BestIndex | optimal_EMA_trend_strategy.py:71 | a non-empty results list has a first maximum: no score beats it, all earlier ones are strictly lower |
| GridSearch.MaxScanFindsBest | optimal_EMA_trend_strategy.py:71 | the scan finds exactly that first maximum |
| GridSearch.SelectBest | optimal_EMA_trend_strategy.py:71 | selecting from a non-empty results list returns the first-maximum index |
| GridSearch.CandidatesAt | optimal_EMA_trend_strategy.py:66 | entry j of the results is grid pair j with its score |
| GridSearch.BestBeatsBenchmark | optimal_EMA_trend_strategy.py:70-71 | the selected entry scores at least as much as (50, 200) |
| GridSearch.Winner | optimal_EMA_trend_strategy.py:70-72 | `best_pair` is a recorded pair whose score is its own pair's score; it is at least every entry's and at least the (50, 200) score |
| GridSearch.Optimise | optimal_EMA_trend_strategy.py:35-72 | search then `max`: the result is `Winner` (the same in optimal_SMA_trend_strategy.py lines 33-69) |
| GridSearch.FlatSeriesPicksFirst | optimal_EMA_trend_strategy.py:71 | on a constant series every score is 0, and the tie goes to the first pair, (13, 50) |
| GridSearch.FlatScoreZero | optimal_EMA_trend_strategy.py:44-63 | on a constant series every grid pair scores 0 |
| GridSearch.ShortSeriesScoresZero | optimal_SMA_trend_strategy.py:44-60 | with rolling means (the SMA script), a series shorter than the long window has no signalled row, and both score and `total_return` are 0 |
| Backtest.Closes | optimal_EMA_trend_strategy.py:86 | the `Close` column, row by row |
| Backtest.Opens | optimal_EMA_trend_strategy.py:108 | the `Open` column, row by row |
| Backtest.Wealth | optimal_EMA_trend_strategy.py:93 | the wealth column has one row per price |
| Backtest.ProfitPrefix | optimal_EMA_trend_strategy.py:92 | the profit column of a prefix of the rows is the prefix of the profit column |
| Backtest.WealthAt | optimal_EMA_trend_strategy.py:91-93 | wealth row k is NaN on row 0, and afterwards the gain collected on rows 1 to k |
| Backtest.WealthStep | optimal_EMA_trend_strategy.py:93 | from row 2 on, each wealth row is the previous one plus that row's gain |
| Backtest.PairWealth | optimal_EMA_trend_strategy.py:86-93 | a pair's wealth column has one row per price |
| Backtest.PairWealthMatchesScore | optimal_EMA_trend_strategy.py:86-93 | on the series the search scored (two rows or more), a pair's final wealth is its search score |
| Backtest.Growth | optimal_EMA_trend_strategy.py:108 | growth row i is open[i+1] - open[i], and NaN on the last row |
| Backtest.BuyHold | optimal_EMA_trend_strategy.py:115 | the buy-and-hold curve has one row per price |
| Backtest.GrowthSum | optimal_EMA_trend_strategy.py:108 | the first k+1 growth rows sum to open[k+1] - open[0] |
| Backtest.BuyHoldTelescopes | optimal_EMA_trend_strategy.py:108-115 | buy-and-hold at k <= n-2 is open[k+1] - open[0], and NaN on the last row (the same in optimal_SMA_trend_strategy.py lines 105, 112) |
| Backtest.StrategyWealth | optimal_EMA_trend_strategy.py:86-93 | the backtest of one pair (averages, shares, profit, running sum) yields its wealth column (the same with rolling means in optimal_SMA_trend_strategy.py lines 83-90) |
| Backtest.Run | optimal_EMA_trend_strategy.py:82-115 | the report is `Winner` on `data`, and the best-pair, 50/200 and buy-and-hold curves on `test`; with `test == data` (two rows or more), the best curve ends at the winner's total return (the same in optimal_SMA_trend_strategy.py lines 79-112, whose benchmark is the 50/200 rolling-mean pair) |

## Left out

- The price downloads (`yf.download`) are network I/O. The two series are inputs of `Run`,
  and the search/backtest agreement is stated under `test == data`.
- The ticker prompt (`input`) and the date window (`datetime.now()`) are user I/O and the
  wall clock.
- Console printing and all plotting are presentation only. `Run` returns the three curves
  that are plotted.
- Floating point: prices, averages and sums are exact reals. IEEE-754 rounding inside pandas
  is not modelled. The ratio test is evaluated on reals; for these integer windows rounding
  cannot move a quotient across 0.25 or 0.5, so the kept pairs are the same.
- In-place updates of one shared DataFrame are not modelled. The source overwrites the
  `Profit` and average columns on every iteration and adds columns to `test`. The model
  computes fresh sequences instead. Nothing else reads the overwritten columns, so no
  observable behaviour is lost.
- The pandas index, timestamps, `copy()` and the `warnings` filter are not modelled. They
  have no behavioural content beyond the filtered sum.
- The `if results:` guard has no error branch. The model proves `results` is non-empty, so
  `best_pair` is always bound.
- The recorded `total_return` is not modelled as possibly NaN. It could be NaN only if row 0
  were signalled, and `GridRowZeroFlat` proves it never is.
- The wealth columns' row 0 is NaN (profit is NaN there). So the search/backtest agreement is
  stated for series of two rows or more.
- Backtest.Run: the final-wealth agreement is not stated when `test` differs from `data`;
  the two downloads are independent inputs.
