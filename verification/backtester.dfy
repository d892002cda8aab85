/** The backtester end to end: indicators are computed over the bars, each
    bar is annotated with its price, ADX, +DI, -DI and volatility, the
    strategy runs over the annotated bars and its trade log is summarised. */
module Backtester {
  import opened Wrappers
  import Indicators
  import Strategy
  import Performance

  /** The strategy's view of each bar: its close as the price, the ADX and
      DIs computed for it, and its volatility reading. */
  function Annotate(bars: seq<Indicators.Bar>, ind: Indicators.Series, volatility: seq<Option<real>>): (rows: seq<Strategy.Row>)
    requires Indicators.Aligned(ind, |bars|) && |volatility| == |bars|
    ensures |rows| == |bars|
  {
    seq(|bars|, i requires 0 <= i < |bars| =>
      Strategy.Row(bars[i].time, bars[i].close, ind.adx[i], ind.plusDI[i], ind.minusDI[i], volatility[i]))
  }

  predicate ValidInput(bars: seq<Indicators.Bar>, volatility: seq<Option<real>>, cfg: Strategy.Config)
  {
    && Strategy.ValidConfig(cfg)
    && |volatility| == |bars|
    && forall i :: 0 <= i < |bars| ==> bars[i].close > 0.0
  }

  /** The annotated rows of a run. */
  function RowsOf(bars: seq<Indicators.Bar>, volatility: seq<Option<real>>, cfg: Strategy.Config): (rows: seq<Strategy.Row>)
    requires ValidInput(bars, volatility, cfg)
    ensures |rows| == |bars| && Strategy.ValidRows(rows)
  {
    Annotate(bars, Indicators.Compute(bars, cfg.period), volatility)
  }

  /** The trade log of a run. */
  function Trades(bars: seq<Indicators.Bar>, volatility: seq<Option<real>>, cfg: Strategy.Config): (trades: seq<Strategy.Trade>)
    requires ValidInput(bars, volatility, cfg)
  {
    Strategy.Backtest(RowsOf(bars, volatility, cfg), cfg)
  }

  /** A whole run: its summary, or none when nothing was traded. */
  function RunBacktest(bars: seq<Indicators.Bar>, volatility: seq<Option<real>>, cfg: Strategy.Config): (result: Option<Performance.Metrics>)
    requires ValidInput(bars, volatility, cfg)
  {
    Performance.Summarise(Trades(bars, volatility, cfg))
  }

  /** `run_backtest` without its printing: the indicator passes, the backtest
      loop, then the summary. It yields exactly `RunBacktest`. */
  method Run(bars: seq<Indicators.Bar>, volatility: seq<Option<real>>, cfg: Strategy.Config) returns (result: Option<Performance.Metrics>)
    requires ValidInput(bars, volatility, cfg)
    ensures result == RunBacktest(bars, volatility, cfg)
    ensures result.None? <==> Trades(bars, volatility, cfg) == []
  {
    var ind := Indicators.CalculateAdx(bars, cfg.period);
    var rows := Annotate(bars, ind, volatility);
    var trades := Strategy.BacktestStrategy(rows, cfg);
    result := Performance.Summarise(trades);
  }

  /** The annotated bars carry ADX values in [0, 100] and non-negative DIs. */
  lemma RowRanges(bars: seq<Indicators.Bar>, volatility: seq<Option<real>>, cfg: Strategy.Config)
    requires ValidInput(bars, volatility, cfg)
    ensures var rows := RowsOf(bars, volatility, cfg);
      forall i :: 0 <= i < |rows| ==>
        0.0 <= rows[i].adx <= 100.0 && rows[i].plusDI >= 0.0 && rows[i].minusDI >= 0.0
  {
    Indicators.IndicatorRanges(bars, cfg.period);
  }

  /** A series whose highs and lows never move produces no trades and no
      summary: its ADX is zero on every bar, so every bar is skipped. */
  lemma NoMovementNoTrades(bars: seq<Indicators.Bar>, volatility: seq<Option<real>>, cfg: Strategy.Config)
    requires ValidInput(bars, volatility, cfg)
    requires forall i :: 0 < i < |bars| ==> bars[i].high == bars[i - 1].high && bars[i].low == bars[i - 1].low
    ensures Trades(bars, volatility, cfg) == []
    ensures RunBacktest(bars, volatility, cfg).None?
  {
    var rows := RowsOf(bars, volatility, cfg);
    Indicators.NoMovementNoTrend(bars, cfg.period);
    if |rows| > cfg.period {
      assert forall j :: cfg.period <= j < |rows| ==> Strategy.Inactive(rows[j].adx);
      Strategy.SkippedBarsChangeNothing(rows, cfg, cfg.period, |rows|);
    }
  }

  /** A series too short to seed ADX (at most 2*period - 1 bars) produces no
      trades: every bar's ADX is still zero. */
  lemma ShortSeriesNoTrades(bars: seq<Indicators.Bar>, volatility: seq<Option<real>>, cfg: Strategy.Config)
    requires ValidInput(bars, volatility, cfg)
    requires |bars| <= 2 * cfg.period - 1
    ensures Trades(bars, volatility, cfg) == []
    ensures RunBacktest(bars, volatility, cfg).None?
  {
    var rows := RowsOf(bars, volatility, cfg);
    Indicators.ZeroBeforeSeed(bars, cfg.period);
    if |rows| > cfg.period {
      assert forall j :: cfg.period <= j < |rows| ==> Strategy.Inactive(rows[j].adx);
      Strategy.SkippedBarsChangeNothing(rows, cfg, cfg.period, |rows|);
    }
  }

  /** A series in which every high, low and close rises by the same positive
      step never trades: +DI settles at a constant at the first bar that can
      trade, so it never rises again, while -DI stays zero and can never
      dominate. */
  lemma SteadyRiseNeverTrades(bars: seq<Indicators.Bar>, volatility: seq<Option<real>>, cfg: Strategy.Config, d: real)
    requires ValidInput(bars, volatility, cfg)
    requires Indicators.SteadyRise(bars, d) && d > 0.0 && Indicators.WellFormed(bars)
    ensures Trades(bars, volatility, cfg) == []
    ensures RunBacktest(bars, volatility, cfg).None?
  {
    var rows := RowsOf(bars, volatility, cfg);
    if |rows| > cfg.period {
      var ind := Indicators.Compute(bars, cfg.period);
      var t := Indicators.SteadyRiseConstantMovement(bars, d);
      Indicators.ConstantMovementConstantDI(bars, cfg.period, t, d);
      Indicators.ZeroBeforeSeed(bars, cfg.period);
      forall j | cfg.period <= j < |rows|
        ensures Strategy.NoEntrySignal(rows, cfg, j)
      {
        assert rows[j].adx == ind.adx[j] && rows[j].plusDI == ind.plusDI[j] && rows[j].minusDI == ind.minusDI[j];
        if j == cfg.period {
          assert Strategy.Inactive(rows[j].adx);
        } else {
          assert rows[j - 1].plusDI == ind.plusDI[j - 1];
          assert rows[j].plusDI == rows[j - 1].plusDI;
          assert Strategy.EntrySide(rows, j).None?;
        }
      }
      Strategy.NoSignalNoTrades(rows, cfg, |rows|);
    }
  }

  /** With a period of at least 2, ADX is still 0 on bars 0..2, so the
      strategy skips them: every bar it does not skip lies at index 3 or
      later and the entry rule's 3-bar lookback stays inside the series. */
  lemma ActiveBarsLookBackThree(bars: seq<Indicators.Bar>, period: nat, i: nat)
    requires period >= 2 && i < |bars| && i < 3
    ensures Strategy.Inactive(Indicators.Compute(bars, period).adx[i])
  {
    Indicators.ZeroBeforeSeed(bars, period);
  }
}
