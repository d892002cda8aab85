/** The strategy state machine: one ordered pass over the annotated bars
    from index `period` to the end, holding at most one position, closing it
    on a time stop or a momentum fade and opening one on a strong, rising,
    directional trend; a position still open at the end is closed at the
    last bar. */
module Strategy {
  import opened Wrappers
  import opened Reals

  /** One bar as the strategy sees it: timestamp, price (the close), the
      indicator values and the 5-bar volatility, `None` where it is not a
      number. */
  datatype Row = Row(time: int, price: real, adx: real, plusDI: real, minusDI: real, volatility: Option<real>)

  /** `maxHoldingDays` counts trading days of `BarsPerDay` bars each. */
  datatype Config = Config(period: nat, adxThreshold: real, maxHoldingDays: int)

  /** The constructor's defaults: period 14, ADX threshold 25, two days. */
  const DefaultConfig: Config := Config(14, 25.0, 2)

  datatype Side = Long | Short

  /** The open position; `entryAdx` is the ADX of the entry bar. */
  datatype Position = Position(side: Side, entryPrice: real, entryTime: int, entryIdx: nat, entryAdx: real)

  /** A closed position. */
  datatype Trade = Trade(
    entryTime: int, exitTime: int, entryPrice: real, exitPrice: real, side: Side,
    profitPct: real, intervalsHeld: int, adxEntry: real, adxExit: real)

  /** The state threaded through the pass: the open position, if any, and the
      trades closed so far, oldest first. */
  datatype State = State(pos: Option<Position>, trades: seq<Trade>)

  const BarsPerDay: int := 48
  const InactiveAdx: real := 20.0
  const TakeProfitPct: real := 1.5
  const StopLossPct: real := -0.5
  const AdxFadeRatio: real := 0.85
  const MinDIGap: real := 30.0
  const MaxVolatility: real := 0.05
  const DefaultVolatility: real := 0.02
  const MinDominantDI: real := 40.0
  const MaxTrendMove: real := 0.08

  /** The lookbacks reach back three bars, so the period must be at least 3. */
  predicate ValidConfig(cfg: Config)
  {
    cfg.period >= 3
  }

  /** Prices are divided by, so they must be positive. */
  predicate ValidRows(rows: seq<Row>)
  {
    forall i :: 0 <= i < |rows| ==> rows[i].price > 0.0
  }

  /** Percentage profit of a position on `side` entered at `entry` and valued
      at `price`. */
  function ProfitPct(side: Side, entry: real, price: real): (pct: real)
    requires entry > 0.0
    ensures pct > 0.0 <==> (side == Long && price > entry) || (side == Short && price < entry)
    ensures pct == 0.0 <==> price == entry
  {
    match side
    case Long => (price - entry) / entry * 100.0
    case Short => (entry - price) / entry * 100.0
  }

  /** A bar whose ADX is zero or at most 20 is skipped entirely. */
  predicate Inactive(adx: real)
  {
    adx == 0.0 || adx <= InactiveAdx
  }

  /** The exit rule for position `p` at bar `i`: the time stop, or a
      take-profit or stop-loss once the trend has faded to 85% of its
      strength at entry. */
  predicate ShouldExit(cfg: Config, p: Position, i: int, row: Row)
    requires p.entryPrice > 0.0
  {
    var held := i - p.entryIdx;
    if held >= cfg.maxHoldingDays * BarsPerDay then true
    else
      var profit := ProfitPct(p.side, p.entryPrice, row.price);
      || (profit >= TakeProfitPct && row.adx <= p.entryAdx * AdxFadeRatio)
      || (profit <= StopLossPct && row.adx <= p.entryAdx * AdxFadeRatio)
  }

  /** The trade recorded when `p` is closed at bar `i` whose row is `row`. */
  function CloseTrade(p: Position, i: int, row: Row): (t: Trade)
    requires p.entryPrice > 0.0
    ensures t.entryPrice == p.entryPrice && t.entryTime == p.entryTime && t.adxEntry == p.entryAdx
    ensures t.exitPrice == row.price && t.exitTime == row.time && t.adxExit == row.adx
    ensures t.side == p.side && t.intervalsHeld == i - p.entryIdx
    ensures t.profitPct == ProfitPct(p.side, p.entryPrice, row.price)
    ensures t.profitPct > 0.0 <==> (p.side == Long && row.price > p.entryPrice) || (p.side == Short && row.price < p.entryPrice)
  {
    Trade(p.entryTime, row.time, p.entryPrice, row.price, p.side,
          ProfitPct(p.side, p.entryPrice, row.price), i - p.entryIdx, p.entryAdx, row.adx)
  }

  /** The entry signal at bar `i`, given that the strategy is flat and the
      ADX clears the threshold: the DIs must be at least 30 apart, the
      volatility (0.02 when not a number) at most 0.05, and the dominant DI
      at least 40 and rising since the previous bar; a long also needs the
      3-bar return to be at least -8%, a short at most +8%. */
  function EntrySide(rows: seq<Row>, i: nat): (side: Option<Side>)
    requires 3 <= i < |rows| && ValidRows(rows)
    ensures side == Some(Long) <==>
      && Abs(rows[i].plusDI - rows[i].minusDI) >= MinDIGap
      && rows[i].volatility.GetOr(DefaultVolatility) <= MaxVolatility
      && rows[i].plusDI > rows[i].minusDI && rows[i].plusDI >= MinDominantDI
      && rows[i].plusDI > rows[i - 1].plusDI
      && (rows[i].price - rows[i - 3].price) / rows[i - 3].price >= -MaxTrendMove
    ensures side == Some(Short) <==>
      && Abs(rows[i].plusDI - rows[i].minusDI) >= MinDIGap
      && rows[i].volatility.GetOr(DefaultVolatility) <= MaxVolatility
      && rows[i].minusDI > rows[i].plusDI && rows[i].minusDI >= MinDominantDI
      && rows[i].minusDI > rows[i - 1].minusDI
      && (rows[i].price - rows[i - 3].price) / rows[i - 3].price <= MaxTrendMove
  {
    var r := rows[i];
    var diDifference := Abs(r.plusDI - r.minusDI);
    var volatility := r.volatility.GetOr(DefaultVolatility);
    if diDifference >= MinDIGap && volatility <= MaxVolatility then
      var recentTrend := (r.price - rows[i - 3].price) / rows[i - 3].price;
      if r.plusDI > r.minusDI && r.plusDI >= MinDominantDI && r.plusDI > rows[i - 1].plusDI then
        if recentTrend >= -MaxTrendMove then Some(Long) else None
      else if r.minusDI > r.plusDI && r.minusDI >= MinDominantDI && r.minusDI > rows[i - 1].minusDI then
        if recentTrend <= MaxTrendMove then Some(Short) else None
      else None
    else None
  }

  /** The exit half of a bar: close the open position if the exit rule fires. */
  function ExitPhase(cfg: Config, i: nat, row: Row, st: State): (r: State)
    requires st.pos.Some? ==> st.pos.value.entryPrice > 0.0
  {
    match st.pos
    case Some(p) =>
      if ShouldExit(cfg, p, i, row) then State(None, st.trades + [CloseTrade(p, i, row)]) else st
    case None => st
  }

  /** The entry half of a bar: open a position if flat, the ADX clears the
      threshold and the entry signal fires. */
  function EntryPhase(rows: seq<Row>, cfg: Config, i: nat, st: State): (r: State)
    requires 3 <= i < |rows| && ValidRows(rows)
  {
    if st.pos.None? && rows[i].adx >= cfg.adxThreshold then
      match EntrySide(rows, i)
      case Some(side) => State(Some(Position(side, rows[i].price, rows[i].time, i, rows[i].adx)), st.trades)
      case None => st
    else st
  }

  /** One bar of the pass. A skipped bar changes nothing; otherwise the exit
      check runs first, so a position can close and a new one open on the
      same bar. At most one trade is appended, and older trades are kept. */
  function Step(rows: seq<Row>, cfg: Config, i: nat, st: State): (r: State)
    requires ValidConfig(cfg) && ValidRows(rows) && cfg.period <= i < |rows|
    requires st.pos.Some? ==> st.pos.value.entryPrice > 0.0
    ensures Inactive(rows[i].adx) ==> r == st
    ensures |st.trades| <= |r.trades| <= |st.trades| + 1 && r.trades[..|st.trades|] == st.trades
    ensures r.pos.Some? ==> r.pos.value.entryPrice > 0.0
  {
    if Inactive(rows[i].adx) then st
    else EntryPhase(rows, cfg, i, ExitPhase(cfg, i, rows[i], st))
  }

  /** Facts every open position satisfies before bar `k`: it was opened at a
      bar in period..k-1 whose price, time and ADX it records. */
  predicate OpenedBefore(rows: seq<Row>, cfg: Config, k: nat, p: Position)
  {
    && cfg.period <= p.entryIdx < k && p.entryIdx < |rows|
    && p.entryPrice == rows[p.entryIdx].price
    && p.entryTime == rows[p.entryIdx].time
    && p.entryAdx == rows[p.entryIdx].adx
  }

  /** The state of the pass before bar `k`, i.e. after bars period..k-1. */
  function StateBefore(rows: seq<Row>, cfg: Config, k: nat): (st: State)
    requires ValidConfig(cfg) && ValidRows(rows) && cfg.period <= k <= |rows|
    ensures st.pos.Some? ==> OpenedBefore(rows, cfg, k, st.pos.value)
    decreases k
  {
    if k == cfg.period then State(None, [])
    else
      var prev := StateBefore(rows, cfg, k - 1);
      var st := Step(rows, cfg, k - 1, prev);
      StepKeepsOpenedBefore(rows, cfg, k - 1, prev);
      st
  }

  lemma StepKeepsOpenedBefore(rows: seq<Row>, cfg: Config, i: nat, st: State)
    requires ValidConfig(cfg) && ValidRows(rows) && cfg.period <= i < |rows|
    requires st.pos.Some? ==> OpenedBefore(rows, cfg, i, st.pos.value)
    ensures var r := Step(rows, cfg, i, st);
      r.pos.Some? ==> OpenedBefore(rows, cfg, i + 1, r.pos.value)
  {
  }

  /** The trade closing whatever position is still open after the last bar,
      at that bar's price and ADX. */
  function ForceClose(rows: seq<Row>, st: State): (trades: seq<Trade>)
    requires |rows| > 0
    requires st.pos.Some? ==> st.pos.value.entryPrice > 0.0
    ensures st.pos.None? ==> trades == st.trades
    ensures st.pos.Some? ==>
      var p := st.pos.value; var last := rows[|rows| - 1];
      && |trades| == |st.trades| + 1 && trades[..|st.trades|] == st.trades
      && var t := trades[|st.trades|];
      && t.side == p.side && t.entryPrice == p.entryPrice && t.entryTime == p.entryTime && t.adxEntry == p.entryAdx
      && t.exitPrice == last.price && t.exitTime == last.time && t.adxExit == last.adx
      && t.intervalsHeld == |rows| - 1 - p.entryIdx
      && t.profitPct == ProfitPct(p.side, p.entryPrice, last.price)
  {
    match st.pos
    case Some(p) => st.trades + [CloseTrade(p, |rows| - 1, rows[|rows| - 1])]
    case None => st.trades
  }

  /** The whole backtest: the trade log of one pass over `rows`. */
  function Backtest(rows: seq<Row>, cfg: Config): (trades: seq<Trade>)
    requires ValidConfig(cfg) && ValidRows(rows)
  {
    if |rows| <= cfg.period then []
    else ForceClose(rows, StateBefore(rows, cfg, |rows|))
  }

  // ---------------------------------------------------------------------
  // Properties of one bar
  // ---------------------------------------------------------------------

  /** On an active bar with a position open, a trade is recorded exactly when
      the exit rule fires; it is the position closed at this bar's price, and
      when the rule does not fire the bar changes nothing. */
  lemma ExitRule(rows: seq<Row>, cfg: Config, i: nat, st: State)
    requires ValidConfig(cfg) && ValidRows(rows) && cfg.period <= i < |rows|
    requires st.pos.Some? && st.pos.value.entryPrice > 0.0
    requires !Inactive(rows[i].adx)
    ensures var r := Step(rows, cfg, i, st); var p := st.pos.value;
      && (|r.trades| == |st.trades| + 1 <==> ShouldExit(cfg, p, i, rows[i]))
      && (ShouldExit(cfg, p, i, rows[i]) ==> r.trades == st.trades + [CloseTrade(p, i, rows[i])])
      && (!ShouldExit(cfg, p, i, rows[i]) ==> r == st)
  {
  }

  /** Whether the exit half of bar `i` leaves the strategy flat. */
  predicate FlatAfterExit(cfg: Config, i: nat, row: Row, st: State)
    requires st.pos.Some? ==> st.pos.value.entryPrice > 0.0
  {
    match st.pos
    case None => true
    case Some(p) => ShouldExit(cfg, p, i, row)
  }

  /** A position is opened at bar `i` exactly when the bar is active, the
      strategy is flat once the exit check has run, the ADX clears the
      threshold and the entry signal fires; the new position records this
      bar's price, time and ADX. An open position that does not exit is never
      replaced. */
  lemma EntryRule(rows: seq<Row>, cfg: Config, i: nat, st: State)
    requires ValidConfig(cfg) && ValidRows(rows) && cfg.period <= i < |rows|
    requires st.pos.Some? ==> st.pos.value.entryPrice > 0.0 && st.pos.value.entryIdx < i
    ensures var r := Step(rows, cfg, i, st);
      && ((r.pos.Some? && r.pos.value.entryIdx == i) <==>
            && !Inactive(rows[i].adx)
            && FlatAfterExit(cfg, i, rows[i], st)
            && rows[i].adx >= cfg.adxThreshold
            && EntrySide(rows, i).Some?)
      && (r.pos.Some? && r.pos.value.entryIdx == i ==>
            r.pos.value == Position(EntrySide(rows, i).value, rows[i].price, rows[i].time, i, rows[i].adx))
      && (st.pos.Some? && !FlatAfterExit(cfg, i, rows[i], st) ==> r.pos == st.pos)
  {
  }

  // ---------------------------------------------------------------------
  // Properties of the whole pass
  // ---------------------------------------------------------------------

  /** Trade `t` was entered at bar `e` and exited at bar `x`, both among the
      bars period..k-1 processed so far: it records their prices, times and
      ADX values, and was held for the bars between them. */
  predicate TradeBars(rows: seq<Row>, cfg: Config, k: nat, t: Trade, e: nat, x: nat)
  {
    && cfg.period <= e <= x < k && x < |rows|
    && t.entryPrice == rows[e].price && t.entryTime == rows[e].time && t.adxEntry == rows[e].adx
    && t.exitPrice == rows[x].price && t.exitTime == rows[x].time && t.adxExit == rows[x].adx
    && t.intervalsHeld == x - e
  }

  /** What every trade recorded before bar `k` satisfies: it was entered and
      exited at bars e <= x among those processed, whose prices, times and
      ADX values it records, and held x - e bars, so a non-negative number
      less than the bars processed; the entry bar's ADX was active and
      cleared the threshold; both prices are positive and the profit is the
      side's percentage return from the entry price to the exit price. */
  predicate LoggedTrade(rows: seq<Row>, cfg: Config, k: nat, t: Trade)
  {
    && (exists e: nat, x: nat :: e <= x < k && TradeBars(rows, cfg, k, t, e, x))
    && 0 <= t.intervalsHeld < k - cfg.period
    && t.entryPrice > 0.0 && t.exitPrice > 0.0
    && t.profitPct == ProfitPct(t.side, t.entryPrice, t.exitPrice)
    && !Inactive(t.adxEntry) && t.adxEntry >= cfg.adxThreshold
  }

  /** A trade logged before bar `k` is still a logged trade before any later
      bar. */
  lemma LoggedTradeWiden(rows: seq<Row>, cfg: Config, k: nat, t: Trade)
    requires LoggedTrade(rows, cfg, k, t)
    ensures LoggedTrade(rows, cfg, k + 1, t)
  {
    var e: nat, x: nat :| e <= x < k && TradeBars(rows, cfg, k, t, e, x);
    assert TradeBars(rows, cfg, k + 1, t, e, x);
  }

  /** The pass invariant before bar `k`: every trade is a `LoggedTrade`, an
      open position was entered on an active bar that cleared the threshold,
      and each processed bar accounts for at most one entry, so trades plus
      the open position number at most k - period. */
  lemma {:induction false} PassInvariant(rows: seq<Row>, cfg: Config, k: nat)
    requires ValidConfig(cfg) && ValidRows(rows) && cfg.period <= k <= |rows|
    ensures var st := StateBefore(rows, cfg, k);
      && (forall j :: 0 <= j < |st.trades| ==> LoggedTrade(rows, cfg, k, st.trades[j]))
      && (st.pos.Some? ==> !Inactive(st.pos.value.entryAdx) && st.pos.value.entryAdx >= cfg.adxThreshold)
      && |st.trades| + (if st.pos.Some? then 1 else 0) <= k - cfg.period
  {
    if k > cfg.period {
      var prev := StateBefore(rows, cfg, k - 1);
      PassInvariant(rows, cfg, k - 1);
      var st := StateBefore(rows, cfg, k);
      assert st == Step(rows, cfg, k - 1, prev);
      EntryRule(rows, cfg, k - 1, prev);
      if !Inactive(rows[k - 1].adx) && prev.pos.Some? {
        ExitRule(rows, cfg, k - 1, prev);
      }
      forall j | 0 <= j < |st.trades|
        ensures LoggedTrade(rows, cfg, k, st.trades[j])
      {
        if j < |prev.trades| {
          assert st.trades[j] == prev.trades[j];
          LoggedTradeWiden(rows, cfg, k - 1, prev.trades[j]);
        } else {
          var p := prev.pos.value;
          assert st.trades[j] == CloseTrade(p, k - 1, rows[k - 1]);
          assert TradeBars(rows, cfg, k, st.trades[j], p.entryIdx, k - 1);
        }
      }
    }
  }

  /** The trade log only grows: the log before bar `k1` is a prefix of the
      log before any later bar `k2`. */
  lemma {:induction false} TradesOnlyGrow(rows: seq<Row>, cfg: Config, k1: nat, k2: nat)
    requires ValidConfig(cfg) && ValidRows(rows) && cfg.period <= k1 <= k2 <= |rows|
    ensures var t1 := StateBefore(rows, cfg, k1).trades; var t2 := StateBefore(rows, cfg, k2).trades;
      |t1| <= |t2| && t2[..|t1|] == t1
    decreases k2
  {
    if k1 < k2 {
      TradesOnlyGrow(rows, cfg, k1, k2 - 1);
      var t1 := StateBefore(rows, cfg, k1).trades;
      var tm := StateBefore(rows, cfg, k2 - 1).trades;
      var t2 := StateBefore(rows, cfg, k2).trades;
      assert t2[..|tm|] == tm;
      assert t2[..|t1|] == tm[..|t1|];
    }
  }

  /** A run of bars whose ADX is inactive leaves the state as it was. */
  lemma {:induction false} SkippedBarsChangeNothing(rows: seq<Row>, cfg: Config, k1: nat, k2: nat)
    requires ValidConfig(cfg) && ValidRows(rows) && cfg.period <= k1 <= k2 <= |rows|
    requires forall j :: k1 <= j < k2 ==> Inactive(rows[j].adx)
    ensures StateBefore(rows, cfg, k2) == StateBefore(rows, cfg, k1)
    decreases k2
  {
    if k1 < k2 {
      SkippedBarsChangeNothing(rows, cfg, k1, k2 - 1);
    }
  }

  /** A bar on which no position can be opened: it is skipped, its ADX is
      below the threshold, or the entry signal does not fire. */
  predicate NoEntrySignal(rows: seq<Row>, cfg: Config, j: nat)
    requires ValidConfig(cfg) && ValidRows(rows) && cfg.period <= j < |rows|
  {
    Inactive(rows[j].adx) || rows[j].adx < cfg.adxThreshold || EntrySide(rows, j).None?
  }

  /** Without an entry signal the pass stays flat with an empty log, and the
      backtest records no trade. */
  lemma {:induction false} NoSignalNoTrades(rows: seq<Row>, cfg: Config, k: nat)
    requires ValidConfig(cfg) && ValidRows(rows) && cfg.period <= k <= |rows|
    requires forall j :: cfg.period <= j < k ==> NoEntrySignal(rows, cfg, j)
    ensures StateBefore(rows, cfg, k) == State(None, [])
    ensures k == |rows| ==> Backtest(rows, cfg) == []
    decreases k
  {
    if k > cfg.period {
      NoSignalNoTrades(rows, cfg, k - 1);
      assert NoEntrySignal(rows, cfg, k - 1);
      var flat := State(None, []);
      assert ExitPhase(cfg, k - 1, rows[k - 1], flat) == flat;
    }
  }

  /** Every trade of a backtest was entered and exited at bars e <= x of the
      pass, recording their prices, times and ADX values, and held x - e
      bars; it was entered on an active bar clearing the threshold, and its
      profit is its side's return between its positive prices. There are at
      most n - period trades. */
  lemma BacktestLog(rows: seq<Row>, cfg: Config)
    requires ValidConfig(cfg) && ValidRows(rows)
    ensures var trades := Backtest(rows, cfg);
      && |trades| <= (if |rows| <= cfg.period then 0 else |rows| - cfg.period)
      && forall j :: 0 <= j < |trades| ==> LoggedTrade(rows, cfg, |rows|, trades[j])
  {
    if |rows| > cfg.period {
      var n := |rows|;
      var st := StateBefore(rows, cfg, n);
      PassInvariant(rows, cfg, n);
      var trades := Backtest(rows, cfg);
      forall j | 0 <= j < |trades|
        ensures LoggedTrade(rows, cfg, n, trades[j])
      {
        if j < |st.trades| {
          assert trades[j] == st.trades[j];
        } else {
          var p := st.pos.value;
          assert TradeBars(rows, cfg, n, trades[j], p.entryIdx, n - 1);
        }
      }
    }
  }

  // ---------------------------------------------------------------------
  // The pass as `backtest_strategy` writes it
  // ---------------------------------------------------------------------

  /** The exit check of `backtest_strategy` for an open position held in
      locals: it closes exactly when the exit rule fires, and then appends
      the closed trade to the log. */
  method ExitCheck(rows: seq<Row>, cfg: Config, i: nat, side: Side, entryPrice: real, entryTime: int,
                   entryIdx: nat, trades: seq<Trade>) returns (closed: bool, logged: seq<Trade>)
    requires i < |rows| && entryIdx < |rows| && entryPrice > 0.0
    ensures var p := Position(side, entryPrice, entryTime, entryIdx, rows[entryIdx].adx);
      && closed == ShouldExit(cfg, p, i, rows[i])
      && logged == (if closed then trades + [CloseTrade(p, i, rows[i])] else trades)
  {
    var row := rows[i];
    var adxVal := row.adx;
    var intervalsHeld := i - entryIdx;
    var maxIntervals := cfg.maxHoldingDays * BarsPerDay;
    var currentProfitPct := ProfitPct(side, entryPrice, row.price);
    closed := false;
    if intervalsHeld >= maxIntervals {
      closed := true;
    } else if currentProfitPct >= TakeProfitPct && adxVal <= rows[entryIdx].adx * AdxFadeRatio {
      closed := true;
    } else if currentProfitPct <= StopLossPct && adxVal <= rows[entryIdx].adx * AdxFadeRatio {
      closed := true;
    }
    logged := trades;
    if closed {
      var profitPct := ProfitPct(side, entryPrice, row.price);
      logged := trades + [Trade(entryTime, row.time, entryPrice, row.price, side,
                                profitPct, intervalsHeld, rows[entryIdx].adx, adxVal)];
    }
  }

  /** The entry check of `backtest_strategy` on a flat bar whose ADX clears
      the threshold: the side it opens is exactly the entry signal. */
  method EntryCheck(rows: seq<Row>, i: nat) returns (side: Option<Side>)
    requires 3 <= i < |rows| && ValidRows(rows)
    ensures side == EntrySide(rows, i)
  {
    side := None;
    var row := rows[i];
    var diDifference := Abs(row.plusDI - row.minusDI);
    var volatility := row.volatility.GetOr(DefaultVolatility);
    if diDifference >= MinDIGap && volatility <= MaxVolatility {
      if row.plusDI > row.minusDI && row.plusDI >= MinDominantDI && row.plusDI > rows[i - 1].plusDI {
        var recentTrend := (row.price - rows[i - 3].price) / rows[i - 3].price;
        if recentTrend >= -MaxTrendMove {
          side := Some(Long);
        }
      } else if row.minusDI > row.plusDI && row.minusDI >= MinDominantDI && row.minusDI > rows[i - 1].minusDI {
        var recentTrend := (row.price - rows[i - 3].price) / rows[i - 3].price;
        if recentTrend <= MaxTrendMove {
          side := Some(Short);
        }
      }
    }
  }

  /** `backtest_strategy`: the backtest loop written with mutable locals for
      the side (or none), entry price, time and index, with the entry ADX
      read back from the entry bar. It computes exactly `Backtest`. */
  method BacktestStrategy(rows: seq<Row>, cfg: Config) returns (trades: seq<Trade>)
    requires ValidConfig(cfg) && ValidRows(rows)
    ensures trades == Backtest(rows, cfg)
  {
    trades := [];
    if |rows| <= cfg.period {
      return;
    }
    var position: Option<Side> := None;
    var entryPrice := 0.0;
    var entryTime := 0;
    var entryIdx: nat := 0;
    for i := cfg.period to |rows|
      invariant position.Some? ==> entryIdx < |rows| && entryPrice > 0.0
      invariant StateBefore(rows, cfg, i) ==
        State(if position.Some? then Some(Position(position.value, entryPrice, entryTime, entryIdx, rows[entryIdx].adx)) else None,
              trades)
    {
      var row := rows[i];
      var adxVal := row.adx;
      if adxVal == 0.0 || adxVal <= InactiveAdx {
        continue;
      }
      if position.Some? {
        var closed;
        closed, trades := ExitCheck(rows, cfg, i, position.value, entryPrice, entryTime, entryIdx, trades);
        if closed {
          position := None;
        }
      }
      if position.None? && adxVal >= cfg.adxThreshold {
        var side := EntryCheck(rows, i);
        if side.Some? {
          position, entryPrice, entryTime, entryIdx := side, row.price, row.time, i;
        }
      }
    }
    if position.Some? {
      var finalIdx := |rows| - 1;
      var finalPrice := rows[finalIdx].price;
      var profitPct := ProfitPct(position.value, entryPrice, finalPrice);
      trades := trades + [Trade(entryTime, rows[finalIdx].time, entryPrice, finalPrice, position.value,
                                profitPct, finalIdx - entryIdx, rows[entryIdx].adx, rows[finalIdx].adx)];
    }
  }
}
