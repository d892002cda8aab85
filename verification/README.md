# ADX backtester — a Dafny model

This project models the pure logic of `ADXBacktester` (`algo_code_1.py`), a
backtester for one trading strategy driven by the Average Directional Index
(ADX) of J. Welles Wilder, *New Concepts in Technical Trading Systems* (1978).
It has three stages, each modelled in its own module, plus a glue module:

- **Indicators** (`calculate_adx`): per bar, True Range, +DM/-DM, the
  Wilder-smoothed ATR and DM averages seeded at index `period` with a plain
  mean, +DI/-DI and DX guarded against division by zero, and ADX seeded at
  `2*period - 1` with the mean of DX and then Wilder-smoothed. Every series is
  zero before its seed. `Compute` is the functional definition; `CalculateAdx`
  is the source's sequence of zero-filled array passes, proved to compute the
  same series.
- **Strategy** (`backtest_strategy`): one ordered pass from index `period`,
  threading an `Option<Position>` and a trade log. A bar with ADX zero or at
  most 20 is skipped. Otherwise the exit check runs (time stop after
  `max_holding_days * 48` bars, or a take-profit/stop-loss once ADX has faded
  to 85% of its entry value), then the entry check. A position still open
  after the pass is closed at the last bar. `StateBefore` / `Backtest` is the
  fold; `BacktestStrategy` is the source's loop with mutable locals, proved
  equal to it. `DefaultConfig` records the constructor's defaults (period
  14, ADX threshold 25, two holding days).
- **Performance** (`calculate_performance_metrics`): no summary for an empty
  log; otherwise trade count, total percentage profit and win rate.
- **Backtester**: annotates each bar with its close, ADX, DIs and volatility
  and runs the three stages in order (`run_backtest` without the printing).

`Wrappers` holds the `Option` type and `Reals` the `abs` and `max` that both
the indicators and the strategy use.

Prices are Dafny `real`s, so there is no rounding. Timestamps are opaque
`int`s. The 5-bar volatility is an input `seq<Option<real>>`, where `None`
stands for a reading that is not a number.

Preconditions the source leaves implicit:
- `period >= 2`. The `i-1` lookback of the entry rule needs only
  `period >= 1`. The `i-3` lookback stays inside the series for every
  `period >= 2`, because ADX is still 0 on bars 0..2 and line 133 skips
  them (`ActiveBarsLookBackThree`). The strategy module takes arbitrary
  rows, so `ValidConfig` asks for `period >= 3`.
- Every close is positive, so the profit and 3-bar-return divisions are
  defined.

The source guards the +DI/-DI, DX and win-rate divisions, and so does the
model. The smoothing divisions by `period` (and the `period`-long mean
windows) are unguarded in the source and rely on `period >= 1`, which the
precondition above covers.

A source behaviour that is kept as written: on a skipped bar (ADX at most 20)
the open position is not exit-checked, so the time stop can fire later than
`max_holding_days * 48` bars after entry.

A consequence of the entry rule's "DI is rising" test: with exact
arithmetic, a perfectly steady uptrend on well-formed bars (low <= close <=
high) never trades. When every bar's high, low and close rise by the same
step, +DI is already at its constant level at the first bar the strategy
looks at, where ADX is still 0, and it never rises again afterwards. -DI
stays 0 throughout, so no short signal fires either.

## Model

| member | source | states |
|---|---|---|
| Indicators.TrueRange | algo_code_1.py:67-72 | TR is 0 on the first bar; on later bars it is at least the bar's range and both gaps to the previous close, and equals one of them; it is never negative |
| Indicators.PlusDM | algo_code_1.py:73-79 | +DM is non-negative, positive exactly when the up-move is positive and beats the down-move, and then equals the up-move |
| Indicators.MinusDM | algo_code_1.py:73-84 | -DM is non-negative, positive exactly when the down-move is positive and beats the up-move, and then equals it; +DM and -DM are never both positive |
| Indicators.DirectionalIndex | algo_code_1.py:100-103 | a DI is 0 when the ATR is 0, non-negative for non-negative inputs, and at most 100 when the smoothed DM does not exceed the ATR |
| Indicators.DirectionalMovementIndex | algo_code_1.py:104-108 | DX is 0 when +DI + -DI is 0, lies in [0, 100] for non-negative DIs, and is 100 exactly when exactly one DI is 0 (when both are 0, DX is 0) |
| Indicators.Compute | algo_code_1.py:59-118 | the functional engine yields one value per bar in every series |
| Indicators.Wilder | algo_code_1.py:88-96 | the definition of Wilder smoothing (0 before the seed, the seed-window mean, then the recurrence of line 94, also used for ADX at lines 109-115); its properties are stated by SmoothedShape, WilderNonNegative, WilderAtMost, WilderSumAtMost and WilderConstant |
| Indicators.SmoothedShape | algo_code_1.py:88-96 | a Wilder series is 0 before its seed, the mean of the `p` raw values ending at the seed there, and (prev*(p-1) + x)/p afterwards |
| Indicators.ZeroBeforeSeed | algo_code_1.py:85-115 | ATR, both DM averages, +DI, -DI and DX are 0 before `period`; ADX is 0 before `2*period - 1` |
| Indicators.SeedsAndRecurrences | algo_code_1.py:85-115 | the ATR and DM averages are the means of bars 1..period at `period`, ADX is the mean of DX over period..2*period-1 at its seed, and all follow Wilder's recurrence afterwards |
| Indicators.DivisionGuards | algo_code_1.py:97-108 | +DI and -DI are 0 wherever the ATR is 0, and DX is 0 wherever +DI + -DI is 0 |
| Indicators.WilderNonNegative | algo_code_1.py:93-96 | Wilder smoothing of non-negative values is non-negative |
| Indicators.WilderAtMost | algo_code_1.py:109-115 | Wilder smoothing never exceeds a non-negative bound shared by all raw values (each step is a convex combination) |
| Indicators.IndicatorRanges | algo_code_1.py:59-115 | for every series: TR, DM, ATR and DM averages and both DIs are non-negative; DX and ADX lie in [0, 100] |
| Indicators.MovementWithinRange | algo_code_1.py:67-84 | on bars whose close lies within their range, +DM + -DM never exceeds TR |
| Indicators.WilderSumAtMost | algo_code_1.py:93-96 | a pointwise bound a[j] + b[j] <= c[j] on the raw values carries over to their Wilder averages: W(a) + W(b) <= W(c) at every index |
| Indicators.DirectionalIndicesAtMost100 | algo_code_1.py:97-103 | on bars whose close lies within their range, +DI + -DI <= 100, so each DI lies in [0, 100] |
| Indicators.NoMovementNoTrend | algo_code_1.py:73-115 | when highs and lows never change, +DI, -DI, DX and ADX are 0 on every bar |
| Indicators.WilderConstant | algo_code_1.py:88-96 | Wilder smoothing of values that are all `k` from the start of the seed window on is `k` at the seed and every later bar |
| Indicators.ConstantMovementConstantDI | algo_code_1.py:85-103 | when every bar after the first has the same positive TR `t`, the same +DM `d` and no -DM, +DI is the constant 100*d/t and -DI is 0 from `period` on |
| Indicators.SteadyRiseBar | algo_code_1.py:67-84 | on a series where high, low and close all rise by the same `d > 0` each bar, every later bar has as TR the largest of the first bar's range and the gaps from its high and low to a previous close `d` below its own close, +DM equal to `d` and no -DM |
| Indicators.SteadyRiseConstantMovement | algo_code_1.py:67-84 | on such a series with well-formed bars, TR is one constant `t >= d` on every later bar |
| Indicators.RawMovement | algo_code_1.py:64-84 | the first array pass computes exactly the TR, +DM and -DM series |
| Indicators.WilderPass | algo_code_1.py:88-96 | the seeded smoothing pass computes exactly the Wilder series, also when the series ends before the seed |
| Indicators.DIPass | algo_code_1.py:97-103 | the DI pass computes exactly the +DI and -DI series |
| Indicators.DXPass | algo_code_1.py:104-108 | the DX pass computes exactly the DX series |
| Indicators.CalculateAdx | algo_code_1.py:59-118 | the source's sequence of passes computes exactly the series of the functional engine |
| Strategy.Inactive | algo_code_1.py:133 | the definition of a skipped bar (ADX 0 or at most 20; NaN does not arise with exact reals); Step and SkippedBarsChangeNothing state that such a bar changes nothing |
| Strategy.ShouldExit | algo_code_1.py:144-150 | the definition of the exit test (time stop, or take-profit or stop-loss once ADX has faded to 85% of its entry value); ExitRule states that a trade is recorded exactly when it holds |
| Strategy.ProfitPct | algo_code_1.py:139-142 | the profit is positive exactly when a long's price rose or a short's price fell, and zero exactly when the price is unchanged |
| Strategy.CloseTrade | algo_code_1.py:152-168 | a closed trade records the position's side, entry price, time and ADX, the exit bar's price, time and ADX, `intervals_held = i - entry_idx`, and as its profit the side's percentage return from entry to exit price, positive exactly for a favourable move |
| Strategy.EntrySide | algo_code_1.py:171-191 | a long signal exactly when the DIs are 30 apart, volatility (0.02 if missing) is at most 0.05, +DI dominates, is at least 40 and rising, and the 3-bar return is at least -8%; the short signal mirrors it with at most +8% |
| Strategy.Step | algo_code_1.py:127-191 | a bar with ADX 0 or at most 20 leaves position and log unchanged; any bar appends at most one trade and keeps the earlier ones |
| Strategy.ExitRule | algo_code_1.py:135-170 | with a position open on an active bar, a trade is appended exactly when the time stop or a faded-momentum take-profit/stop-loss fires, and it is that position closed at this bar; otherwise nothing changes |
| Strategy.EntryRule | algo_code_1.py:171-191 | a position opens at bar i exactly when the bar is active, the strategy is flat after the exit check, ADX clears the threshold and the signal fires; an open position that does not exit is never replaced |
| Strategy.StateBefore | algo_code_1.py:122-191 | an open position before bar k was entered at a bar in period..k-1 whose price, time and ADX it records |
| Strategy.PassInvariant | algo_code_1.py:122-191 | every logged trade was entered and exited at bars e <= x among period..k-1 whose prices, times and ADX values it records, was held x - e bars (so 0..k-1-period), was entered on an active bar clearing the threshold, has positive entry and exit prices and records as its profit its side's percentage return between them; trades plus the open position number at most k - period |
| Strategy.TradesOnlyGrow | algo_code_1.py:152-168 | the log at an earlier bar is a prefix of the log at any later bar |
| Strategy.SkippedBarsChangeNothing | algo_code_1.py:133-134 | a run of bars with inactive ADX leaves the whole state unchanged |
| Strategy.ForceClose | algo_code_1.py:193-214 | with a position open, exactly one trade is appended at the last bar's price, time and ADX with `intervals_held = n-1-entry_idx` and the side's percentage return from the entry price to the last price as its profit; otherwise the log is unchanged |
| Strategy.NoSignalNoTrades | algo_code_1.py:127-214 | if no bar from `period` on is active, clears the threshold and fires the entry signal, the pass stays flat with an empty log and the backtest records no trade |
| Strategy.Backtest | algo_code_1.py:122-214 | the definition of the backtest as the fold `StateBefore` followed by `ForceClose`; BacktestLog, NoSignalNoTrades and BacktestStrategy state its properties and its equality with the loop |
| Strategy.BacktestLog | algo_code_1.py:122-214 | every trade of a backtest was entered and exited at bars e <= x among period..n-1 whose prices, times and ADX values it records, was held x - e bars, was entered on an active bar clearing the threshold, and records as its profit its side's percentage return between its positive entry and exit prices; there are at most n - period trades |
| Strategy.ExitCheck | algo_code_1.py:135-170 | the source's exit block on locals closes the position exactly when the exit rule holds, and then appends exactly the trade `CloseTrade` describes; otherwise the log is unchanged |
| Strategy.EntryCheck | algo_code_1.py:172-191 | once ADX has reached the threshold, the source's entry block opens a long or short position exactly when the entry signal names that side, and none otherwise |
| Strategy.BacktestStrategy | algo_code_1.py:122-214 | the source's loop with mutable locals yields exactly the fold's trade log |
| Performance.TotalProfit | algo_code_1.py:222 | the definition of the total profit as the sum of the trades' profits; TotalProfitAppend states its additivity |
| Performance.Wins | algo_code_1.py:223-224 | the definition of the winner count; WinsCountsWinners and WinsBounds relate it to the set of winning indices and to the trade count |
| Performance.WinsCountsWinners | algo_code_1.py:223-224 | the win count is the number of indices of trades with positive profit |
| Performance.WinsBounds | algo_code_1.py:223-224 | the win count is at most the trade count, equals it exactly when every trade wins, and is 0 exactly when none does |
| Performance.TotalProfitAppend | algo_code_1.py:222 | the total profit of a log split in two is the sum of the parts' totals |
| Performance.Summarise | algo_code_1.py:216-232 | none exactly for an empty log; otherwise count, total profit, and a win rate in [0, 100] that times the count is 100 times the winners, 100 iff all trades win, 0 iff none does |
| Backtester.Annotate | algo_code_1.py:116-118 | each bar is annotated with exactly one row |
| Backtester.RunBacktest | algo_code_1.py:234-239 | the definition of a whole run as indicators, annotation, backtest and summary; Run, NoMovementNoTrades, ShortSeriesNoTrades and SteadyRiseNeverTrades state its properties |
| Backtester.Run | algo_code_1.py:234-239 | the pipeline of passes, loop and summary yields the functional result, which is none exactly when nothing was traded |
| Backtester.RowRanges | algo_code_1.py:116-118 | the strategy sees ADX values in [0, 100] and non-negative DIs |
| Backtester.NoMovementNoTrades | algo_code_1.py:127-134 | a series whose highs and lows never move produces no trades and no summary |
| Backtester.ShortSeriesNoTrades | algo_code_1.py:109-134 | a series of at most 2*period - 1 bars produces no trades, since ADX is still 0 on every bar |
| Backtester.SteadyRiseNeverTrades | algo_code_1.py:59-191 | a series of well-formed bars (low <= close <= high) whose high, low and close all rise by the same positive step every bar produces no trades and no summary |
| Backtester.ActiveBarsLookBackThree | algo_code_1.py:109-134 | with `period >= 2`, bars 0..2 have an inactive ADX and are skipped, so every bar that is not skipped has index at least 3 and the 3-bar lookback stays inside the series |

## Left out

- Loading the CSV file, normalising column names and parsing dates with their fallbacks (algo_code_1.py:15-57): file I/O and pandas behaviour. The input is a sequence of bars with opaque timestamps, already sorted.
- The percentage price change and its 5-bar rolling standard deviation (algo_code_1.py:119-120): pandas numerics with a square root. Volatility is an input `seq<Option<real>>`, with `None` for a reading that is not a number.
- Printing in `run_backtest` and the command-line handling of `main` (algo_code_1.py:234-259).
- Backtester.SteadyRiseNeverTrades: holds for exact arithmetic only. The source's strict comparisons of mathematically equal values (the "DI is rising" tests at algo_code_1.py:177 and 185, and the thresholds elsewhere) are decided by float64 rounding, so on a float ramp +DI can drift upward in its last bits and an entry can fire.
- IEEE floating point and NaN: prices are exact reals. With finite inputs ADX is never NaN, so the NaN test on ADX is not modelled.
- The trade list kept on the object across calls: the model starts each backtest from an empty log, as a single `run_backtest` does.
- Strategy.ValidConfig: excludes `period == 2`, for which the source also stays in range (`ActiveBarsLookBackThree`), because the strategy module takes arbitrary rows rather than rows whose ADX is 0 before bar 3.
