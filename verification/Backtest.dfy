/** The event-driven backtester (backtest/engine.py). Prices are exact rationals. */
module Backtest {
  import opened Wrappers

  datatype Regime = TrendUp | TrendDown | NoTrend(name: string)

  /** One candle. `atr` is None when the column is missing or the value is NaN. */
  datatype Bar = Bar(
    ts: int, open: real, high: real, low: real, close: real, session: string, regime: Regime, atr: Option<real>)

  datatype Grid = Grid(
    stopMult: real, tp1Mult: real, beTrigger: real, stepPoints: Option<real>, stepMin: Option<real>,
    stepMax: Option<real>)

  datatype Config = Config(
    spread: real, slippage: real, horizon: int, volume: real, pointValue: real, beTrigger: real,
    progressStop: bool, progressRatio: real, progressAtr: real,
    atrScaled: bool, targetX: real, stopY: real,
    grid: Regime -> Grid)        // get_signal_grid for a regime

  /** A position; `initialStop` remembers the stop before an early break-even moved it. */
  datatype Position = Position(
    entryBar: nat, entryTs: int, entryPrice: real, direction: int, stop: real, target: real,
    session: string, regime: Regime, beTrigger: real, beDone: bool, initialStop: real)

  datatype Reason = ByStop | ByTarget | ByProgressStop | ByTimeout
  datatype Trade = Trade(position: Position, exitBar: nat, exitTs: int, exitPrice: real, reason: Reason, pnl: real)

  // ---------------------------------------------------------------------------
  // Pieces of one bar
  // ---------------------------------------------------------------------------

  function RuleBasedSignal(regime: Regime): int {
    match regime case TrendUp => 1 case TrendDown => -1 case NoTrend(_) => 0
  }

  /** `resolve_signal_step`; None when it raises (config/loader.py:120-135). */
  function ResolveStep(atr: real, grid: Grid): Option<real> {
    var base := if grid.stepPoints.Some? then grid.stepPoints.value else atr;
    var low := if grid.stepMin.Some? && base < grid.stepMin.value then grid.stepMin.value else base;
    var step := if grid.stepMax.Some? && low > grid.stepMax.value then grid.stepMax.value else low;
    if step > 0.0 then Some(step) else None
  }

  /** Barrier distances of an entry: sized, impossible to size, or an exception. */
  datatype Sizing = Sized(stop: real, target: real, beTrigger: real) | Unsizable | Raises

  function Size(cfg: Config, signal: Bar): Sizing {
    if cfg.atrScaled then
      if signal.atr.Some? && signal.atr.value > 0.0 then
        var grid := cfg.grid(signal.regime);
        var step := ResolveStep(signal.atr.value, grid);
        if step.None? then Raises else Sized(step.value * grid.stopMult, step.value * grid.tp1Mult, grid.beTrigger)
      else if cfg.targetX > 0.0 && cfg.stopY > 0.0 then Sized(cfg.stopY, cfg.targetX, cfg.beTrigger)
      else Unsizable
    else Sized(cfg.stopY, cfg.targetX, cfg.beTrigger)
  }

  /** `price + direction * distance`. */
  function Along(direction: int, price: real, distance: real): real {
    if direction == 1 then price + distance else price - distance
  }

  /** The position opened at bar `i` by a signal of the bar before. */
  function Enter(
    cfg: Config, signal: Bar, i: nat, ts: int, open: real, session: string, direction: int, s: Sizing): Position
    requires s.Sized?
  {
    var entry := Along(direction, open, cfg.spread / 2.0);
    Position(i, ts, entry, direction, Along(direction, entry, -s.stop), Along(direction, entry, s.target),
             session, signal.regime, s.beTrigger, false, Along(direction, entry, -s.stop))
  }

  /** Early break-even: the level is `entry + direction * trigger * (target - entry)`. */
  function Trail(p: Position, bar: Bar): Position {
    var level := Along(p.direction, p.entryPrice, p.beTrigger * (p.target - p.entryPrice));
    if !p.beDone && (if p.direction == 1 then bar.high >= level else bar.low <= level)
      then p.(stop := p.entryPrice, beDone := true) else p
  }

  predicate HitTarget(p: Position, bar: Bar) {
    if p.direction == 1 then bar.high >= p.target else bar.low <= p.target
  }

  predicate HitStop(p: Position, bar: Bar) {
    if p.direction == 1 then bar.low <= p.stop else bar.high >= p.stop
  }

  function Truncate(x: real): int {
    if x >= 0.0 then x.Floor else -((-x).Floor)
  }

  /** `_candles_since`: elapsed time in candle steps, truncated toward zero. */
  function CandlesSince(step: int, from: int, to: int): int {
    if step <= 0 then 0 else if to >= from then (to - from) / step else -((from - to) / step)
  }

  predicate HitProgressStop(cfg: Config, p: Position, bar: Bar, held: int) {
    && cfg.progressStop
    && held >= Truncate(cfg.horizon as real * cfg.progressRatio)
    && var atr := if bar.atr.Some? then bar.atr.value else 1.0;
       var progress := if p.direction == 1 then bar.high - p.entryPrice else p.entryPrice - bar.low;
       progress / (if atr > 0.000001 then atr else 0.000001) < cfg.progressAtr
  }

  /** Why the position leaves at this bar, if it does, and the price before slippage. */
  function ExitOf(cfg: Config, p: Position, bar: Bar, held: int): Option<(Reason, real)> {
    if HitStop(p, bar) then Some((ByStop, p.stop))
    else if HitTarget(p, bar) then Some((ByTarget, p.target))
    else if HitProgressStop(cfg, p, bar, held) then Some((ByProgressStop, bar.close))
    else if held >= cfg.horizon then Some((ByTimeout, bar.close))
    else None
  }

  function Close(cfg: Config, p: Position, i: nat, bar: Bar, reason: Reason, price: real): Trade {
    var out := Along(p.direction, price, -cfg.slippage);
    Trade(p, i, bar.ts, out, reason, Pnl(cfg, p, out))
  }

  function Pnl(cfg: Config, p: Position, out: real): real {
    (if p.direction == 1 then out - p.entryPrice else p.entryPrice - out) * cfg.volume * cfg.pointValue
  }

  // ---------------------------------------------------------------------------
  // The run as a fold over the bars
  // ---------------------------------------------------------------------------

  datatype State = State(
    open: Option<Position>, pending: Option<int>, trades: seq<Trade>, equity: seq<real>, raised: bool)

  function EnterIfPending(cfg: Config, bars: seq<Bar>, i: nat, st: State): State
    requires i < |bars|
  {
    if st.open.None? && st.pending.Some? && st.pending.value != 0 then
      var signal := bars[if i > 0 then i - 1 else i];
      var s := Size(cfg, signal);
      if s.Raises? then st.(raised := true)
      else if s.Unsizable? then st.(pending := None)
      else
        var position := Enter(cfg, signal, i, bars[i].ts, bars[i].open, bars[i].session, st.pending.value, s);
        st.(open := Some(position), pending := None)
    else st
  }

  function ExitIfHit(cfg: Config, step: int, bars: seq<Bar>, i: nat, st: State): State
    requires i < |bars| && st.equity != []
  {
    if st.open.Some? && i > st.open.value.entryBar then
      var p := Trail(st.open.value, bars[i]);
      var exit := ExitOf(cfg, p, bars[i], CandlesSince(step, p.entryTs, bars[i].ts));
      if exit.None? then st.(open := Some(p))
      else
        var t := Close(cfg, p, i, bars[i], exit.value.0, exit.value.1);
        st.(open := None, trades := st.trades + [t], equity := st.equity + [st.equity[|st.equity| - 1] + t.pnl])
    else st
  }

  function StepBar(cfg: Config, step: int, bars: seq<Bar>, i: nat, st: State): (next: State)
    requires i < |bars| && st.equity != []
    ensures next.equity != []
  {
    if st.raised then st
    else
      var entered := EnterIfPending(cfg, bars, i, st);
      if entered.raised then entered
      else
        var left := ExitIfHit(cfg, step, bars, i, entered);
        if left.open.None? then left.(pending := Some(RuleBasedSignal(bars[i].regime))) else left
  }

  /** The state after the first `n` bars. */
  function After(cfg: Config, step: int, bars: seq<Bar>, n: nat, balance: real): (st: State)
    requires n <= |bars|
    ensures st.equity != []
  {
    if n == 0 then State(None, None, [], [balance], false)
    else StepBar(cfg, step, bars, n - 1, After(cfg, step, bars, n - 1, balance))
  }

  // ---------------------------------------------------------------------------
  // The candle spacing the engine reads off the whole frame
  // ---------------------------------------------------------------------------

  function PositiveDiffs(bars: seq<Bar>): (d: seq<int>)
    ensures forall x :: x in d ==> x > 0
  {
    if |bars| < 2 then []
    else
      var rest := PositiveDiffs(bars[..|bars| - 1]);
      var last := bars[|bars| - 1].ts - bars[|bars| - 2].ts;
      if last > 0 then rest + [last] else rest
  }

  function Count(s: seq<int>, x: int): nat {
    multiset(s)[x]
  }

  /** More frequent, or as frequent and smaller. */
  predicate Beats(s: seq<int>, x: int, y: int) {
    Count(s, x) > Count(s, y) || (Count(s, x) == Count(s, y) && x <= y)
  }

  function BestOf(s: seq<int>, n: nat): (m: int)
    requires 0 < n <= |s|
    ensures m in s[..n] && forall i :: 0 <= i < n ==> Beats(s, m, s[i])
  {
    if n == 1 then s[0]
    else
      var m := BestOf(s, n - 1);
      if Beats(s, m, s[n - 1]) then m else s[n - 1]
  }

  /** The most frequent positive spacing of the frame (the smallest of several), 1 without one. */
  function CandleStep(bars: seq<Bar>): (step: int)
    ensures step > 0
  {
    var d := PositiveDiffs(bars);
    assert d[..|d|] == d;
    if d == [] then 1 else BestOf(d, |d|)
  }

  /** The spacing really is a most frequent positive one, the smallest of several, or 1. */
  lemma CandleStepIsMode(bars: seq<Bar>)
    ensures var step, d := CandleStep(bars), PositiveDiffs(bars);
      && (forall x :: x in d <==> IsDiff(bars, x))
      && (if exists x :: IsDiff(bars, x) then IsDiff(bars, step) && forall x :: IsDiff(bars, x) ==> Beats(d, step, x)
          else step == 1)
  {
    var d := PositiveDiffs(bars);
    assert d[..|d|] == d;
    DiffsAre(bars);
    if d != [] {
      assert d[0] in d;
      forall x | x in d ensures Beats(d, CandleStep(bars), x) {
        var i :| 0 <= i < |d| && d[i] == x;
      }
    }
  }

  /** x is a positive spacing of two neighbouring bars. */
  ghost predicate IsDiff(bars: seq<Bar>, x: int) {
    x > 0 && exists i :: DiffAt(bars, i, x)
  }

  ghost predicate DiffAt(bars: seq<Bar>, i: int, x: int) {
    0 < i < |bars| && bars[i].ts - bars[i - 1].ts == x
  }

  lemma {:induction false} DiffsAre(bars: seq<Bar>)
    ensures forall x :: x in PositiveDiffs(bars) <==> IsDiff(bars, x)
  {
    if |bars| >= 2 {
      DiffsAre(bars[..|bars| - 1]);
      forall x ensures x in PositiveDiffs(bars) <==> IsDiff(bars, x) {
        OneMoreDiff(bars, x);
      }
    }
  }

  lemma OneMoreDiff(bars: seq<Bar>, x: int)
    requires |bars| >= 2
    ensures IsDiff(bars, x) <==>
      IsDiff(bars[..|bars| - 1], x) || (x > 0 && x == bars[|bars| - 1].ts - bars[|bars| - 2].ts)
  {
    var rest, n := bars[..|bars| - 1], |bars| - 1;
    assert DiffAt(bars, n, bars[n].ts - bars[n - 1].ts);
    assert forall i :: DiffAt(rest, i, x) ==> DiffAt(bars, i, x);
    assert forall i :: DiffAt(bars, i, x) ==> i == n || DiffAt(rest, i, x);
  }

  function Result(cfg: Config, bars: seq<Bar>, balance: real): State {
    After(cfg, CandleStep(bars), bars, |bars|, balance)
  }

  // ---------------------------------------------------------------------------
  // The engine
  // ---------------------------------------------------------------------------

  class Backtester {
    const cfg: Config
    var trades: seq<Trade>
    var equityCurve: seq<real>
    var balance: real

    ghost predicate Valid()
      reads this
    {
      equityCurve != [] && equityCurve[|equityCurve| - 1] == balance
    }

    constructor (cfg: Config, balance: real)
      ensures Valid() && this.cfg == cfg && trades == [] && equityCurve == [balance] && this.balance == balance
    {
      this.cfg, this.trades, this.equityCurve, this.balance := cfg, [], [balance], balance;
    }

    /** `run`: one pass over the candles. Trades and equity accumulate over runs; `ok` is false when
        the step resolution raised. */
    method Run(bars: seq<Bar>) returns (ok: bool)
      requires Valid()
      modifies this
      ensures Valid()
      ensures var result := Result(cfg, bars, old(balance));
        && ok == !result.raised
        && trades == old(trades) + result.trades
        && equityCurve == old(equityCurve) + result.equity[1..]
    {
      hide StepBar;
      var step := CandleStep(bars);
      var open: Option<Position> := None;
      var pending: Option<int> := None;
      for i := 0 to |bars|
        invariant Valid()
        invariant !After(cfg, step, bars, i, old(balance)).raised
        invariant Tracks(After(cfg, step, bars, i, old(balance)), open, pending, old(trades), old(equityCurve))
      {
        var raised;
        raised, open, pending :=
          OnBar(bars, i, step, open, pending, After(cfg, step, bars, i, old(balance)), old(trades), old(equityCurve));
        if raised {
          RaisedStays(cfg, step, bars, i + 1, |bars|, old(balance));
          return false;
        }
      }
      ok := true;
    }

    /** One turn of the candle loop. */
    method OnBar(bars: seq<Bar>, i: nat, step: int, open0: Option<Position>, pending0: Option<int>,
                 ghost st: State, ghost trades0: seq<Trade>, ghost equity0: seq<real>)
      returns (raised: bool, open: Option<Position>, pending: Option<int>)
      requires Valid() && i < |bars| && st.equity != [] && !st.raised && Tracks(st, open0, pending0, trades0, equity0)
      modifies this
      ensures Valid()
      ensures raised == StepBar(cfg, step, bars, i, st).raised
      ensures Tracks(StepBar(cfg, step, bars, i, st), open, pending, trades0, equity0)
    {
      hide Size, Enter, Trail, ExitOf, Close, CandlesSince, RuleBasedSignal;
      open, pending, raised := open0, pending0, false;
      // 1. act on the signal of the previous close, at this open
      if open.None? && pending.Some? && pending.value != 0 {
        var signal := bars[if i > 0 then i - 1 else i];
        var sizing := Size(cfg, signal);
        if sizing.Raises? {
          return true, open, pending;
        }
        if sizing.Sized? {
          open := Some(Enter(cfg, signal, i, bars[i].ts, bars[i].open, bars[i].session, pending.value, sizing));
        }
        pending := None;
      }
      assert EnterIfPending(cfg, bars, i, st) == st.(open := open, pending := pending);
      // 2. exits, never on the entry candle
      if open.Some? && i > open.value.entryBar {
        open := CheckExit(open.value, i, bars[i], step);
      }
      // 3. decide at this close, for the next candle
      if open.None? {
        pending := Some(RuleBasedSignal(bars[i].regime));
      }
    }

    /** Trails the stop and, when a barrier or the time limit is hit, closes the position. */
    method CheckExit(position: Position, i: nat, bar: Bar, step: int) returns (open: Option<Position>)
      requires Valid()
      modifies this
      ensures Valid()
      ensures var p := Trail(position, bar);
        var exit := ExitOf(cfg, p, bar, CandlesSince(step, p.entryTs, bar.ts));
        if exit.None? then open == Some(p) && trades == old(trades) && equityCurve == old(equityCurve)
        else
          var t := Close(cfg, p, i, bar, exit.value.0, exit.value.1);
          open == None && trades == old(trades) + [t] && equityCurve == old(equityCurve) + [old(balance) + t.pnl]
    {
      var p := Trail(position, bar);
      var held := CandlesSince(step, p.entryTs, bar.ts);
      var exit := ExitOf(cfg, p, bar, held);
      open := Some(p);
      if exit.Some? {
        var t := Close(cfg, p, i, bar, exit.value.0, exit.value.1);
        balance := balance + t.pnl;
        equityCurve := equityCurve + [balance];
        trades := trades + [t];
        open := None;
      }
    }

    /** The engine's variables mirror a state of the fold. */
    ghost predicate Tracks(
      st: State, open: Option<Position>, pending: Option<int>, trades0: seq<Trade>, equity0: seq<real>)
      requires st.equity != []
      reads this
    {
      && st.open == open && st.pending == pending
      && trades == trades0 + st.trades
      && equityCurve == equity0 + st.equity[1..]
      && balance == st.equity[|st.equity| - 1]
    }
  }

  lemma {:induction false} RaisedStays(cfg: Config, step: int, bars: seq<Bar>, m: nat, n: nat, balance: real)
    requires m <= n <= |bars| && After(cfg, step, bars, m, balance).raised
    ensures After(cfg, step, bars, n, balance) == After(cfg, step, bars, m, balance)
    decreases n
  {
    if m < n {
      RaisedStays(cfg, step, bars, m, n - 1, balance);
    }
  }

  // ---------------------------------------------------------------------------
  // No look-ahead
  // ---------------------------------------------------------------------------

  /** The state after n bars depends on the first n bars only. */
  lemma {:induction false} StateIsCausal(cfg: Config, step: int, a: seq<Bar>, b: seq<Bar>, n: nat, balance: real)
    requires n <= |a| && n <= |b| && a[..n] == b[..n]
    ensures After(cfg, step, a, n, balance) == After(cfg, step, b, n, balance)
  {
    hide StepBar;
    if n > 0 {
      assert a[..n - 1] == a[..n][..n - 1] && b[..n - 1] == b[..n][..n - 1];
      StateIsCausal(cfg, step, a, b, n - 1, balance);
      SameBars(a, b, n);
      StepIsCausal(cfg, step, a, b, n - 1, After(cfg, step, a, n - 1, balance));
    }
  }

  lemma SameBars(a: seq<Bar>, b: seq<Bar>, n: nat)
    requires 0 < n <= |a| && n <= |b| && a[..n] == b[..n]
    ensures a[n - 1] == b[n - 1] && (n > 1 ==> a[n - 2] == b[n - 2])
  {
    assert a[n - 1] == a[..n][n - 1] && b[n - 1] == b[..n][n - 1];
    assert n > 1 ==> a[n - 2] == a[..n][n - 2] && b[n - 2] == b[..n][n - 2];
  }

  /** One step reads its own bar and the one before. */
  lemma StepIsCausal(cfg: Config, step: int, a: seq<Bar>, b: seq<Bar>, i: nat, st: State)
    requires i < |a| && i < |b| && st.equity != [] && a[i] == b[i] && (i > 0 ==> a[i - 1] == b[i - 1])
    ensures StepBar(cfg, step, a, i, st) == StepBar(cfg, step, b, i, st)
  {
  }

  /** What is entered at bar i does not depend on the high, low, close or regime of bar i, nor on
      anything later. */
  lemma EntryIsCausal(cfg: Config, step: int, a: seq<Bar>, b: seq<Bar>, i: nat, balance: real)
    requires 0 < i < |a| && i < |b| && a[..i] == b[..i]
    requires a[i].ts == b[i].ts && a[i].open == b[i].open && a[i].session == b[i].session
    ensures EnterIfPending(cfg, a, i, After(cfg, step, a, i, balance)) ==
      EnterIfPending(cfg, b, i, After(cfg, step, b, i, balance))
  {
    StateIsCausal(cfg, step, a, b, i, balance);
    assert a[i - 1] == a[..i][i - 1] == b[..i][i - 1] == b[i - 1];
  }

  /** Later bars only append trades, and the appended ones leave later. */
  lemma {:induction false} TradesOnlyGrow(cfg: Config, step: int, bars: seq<Bar>, m: nat, n: nat, balance: real)
    requires m <= n <= |bars|
    ensures After(cfg, step, bars, m, balance).trades <= After(cfg, step, bars, n, balance).trades
    ensures forall t ::
      t in After(cfg, step, bars, n, balance).trades[|After(cfg, step, bars, m, balance).trades|..] ==> t.exitBar >= m
    decreases n
  {
    hide StepBar;
    if m < n {
      TradesOnlyGrow(cfg, step, bars, m, n - 1, balance);
      var before := After(cfg, step, bars, n - 1, balance);
      var after := After(cfg, step, bars, n, balance);
      StepTrades(cfg, step, bars, n - 1, before);
      var k := |After(cfg, step, bars, m, balance).trades|;
      if after.trades != before.trades {
        assert after.trades[k..] == before.trades[k..] + [after.trades[|before.trades|]];
      }
    }
  }

  lemma StepTrades(cfg: Config, step: int, bars: seq<Bar>, i: nat, st: State)
    requires i < |bars| && st.equity != []
    ensures var next := StepBar(cfg, step, bars, i, st);
      next.trades == st.trades ||
        (|next.trades| == |st.trades| + 1 && next.trades[..|st.trades|] == st.trades &&
          next.trades[|st.trades|].exitBar == i)
  {
  }

  /** Every trade of the first n bars leaves before bar n. */
  lemma {:induction false} ExitsAreInside(cfg: Config, step: int, bars: seq<Bar>, n: nat, balance: real)
    requires n <= |bars|
    ensures forall t :: t in After(cfg, step, bars, n, balance).trades ==> t.exitBar < n
  {
    hide StepBar;
    if n > 0 {
      ExitsAreInside(cfg, step, bars, n - 1, balance);
      StepTrades(cfg, step, bars, n - 1, After(cfg, step, bars, n - 1, balance));
    }
  }

  /** `part` is the prefix of `all` made of the trades that leave before bar n. */
  ghost predicate IsCut(part: seq<Trade>, all: seq<Trade>, n: nat) {
    && part <= all
    && (forall t :: t in part ==> t.exitBar < n)
    && (forall t :: t in all[|part|..] ==> t.exitBar >= n)
  }

  // ---------------------------------------------------------------------------
  // Uniform spacing
  // ---------------------------------------------------------------------------

  ghost predicate Uniform(bars: seq<Bar>, d: int) {
    d > 0 && forall i :: 0 < i < |bars| ==> bars[i].ts - bars[i - 1].ts == d
  }

  lemma {:induction false} UniformDiffs(bars: seq<Bar>, d: int)
    requires Uniform(bars, d)
    ensures forall x :: x in PositiveDiffs(bars) ==> x == d
    ensures |bars| >= 2 ==> PositiveDiffs(bars) != []
  {
    if |bars| >= 2 {
      var k := bars[..|bars| - 1];
      assert Uniform(k, d) by { assert forall i :: 0 <= i < |k| ==> k[i] == bars[i]; }
      UniformDiffs(k, d);
      assert bars[|bars| - 1].ts - bars[|bars| - 2].ts == d;
    }
  }

  lemma UniformStep(bars: seq<Bar>, d: int)
    requires Uniform(bars, d) && |bars| >= 2
    ensures CandleStep(bars) == d
  {
    UniformDiffs(bars, d);
    var diffs := PositiveDiffs(bars);
    assert diffs[..|diffs|] == diffs;
  }

  lemma {:induction false} Spacing(bars: seq<Bar>, d: int, i: nat, j: nat)
    requires Uniform(bars, d) && i <= j < |bars|
    ensures bars[j].ts - bars[i].ts == (j - i) * d
    decreases j
  {
    if i < j {
      Spacing(bars, d, i, j - 1);
      assert bars[j].ts - bars[j - 1].ts == d;
    }
  }

  /** No trade can leave before bar 2. */
  lemma NoEarlyTrades(cfg: Config, step: int, bars: seq<Bar>, n: nat, balance: real)
    requires n <= |bars| && n <= 2
    ensures After(cfg, step, bars, n, balance).trades == []
  {
    if n >= 1 {
      var s0 := After(cfg, step, bars, 0, balance);
      var s1 := After(cfg, step, bars, 1, balance);
      assert s1 == StepBar(cfg, step, bars, 0, s0);
      if n == 2 {
        assert After(cfg, step, bars, 2, balance) == StepBar(cfg, step, bars, 1, s1);
      }
    }
  }

  /** On a uniformly spaced frame the engine never looks ahead. */
  lemma NoLookAhead(cfg: Config, bars: seq<Bar>, d: int, n: nat, balance: real)
    requires Uniform(bars, d) && n <= |bars|
    ensures IsCut(Result(cfg, bars[..n], balance).trades, Result(cfg, bars, balance).trades, n)
  {
    if n >= 2 {
      assert Uniform(bars[..n], d) by { assert forall i :: 0 <= i < n ==> bars[..n][i] == bars[i]; }
      UniformStep(bars, d);
      UniformStep(bars[..n], d);
      CountsSuffice(cfg, bars, n, balance);
    } else {
      NoEarlyTrades(cfg, CandleStep(bars[..n]), bars[..n], n, balance);
      TradesOnlyGrow(cfg, CandleStep(bars), bars, n, |bars|, balance);
      NoEarlyTrades(cfg, CandleStep(bars), bars, n, balance);
    }
  }

  /** The spacing is read off the whole frame, so an irregular frame leaks its future: the 3-bar
      prefix of this frame has no trade, the full run closes one at bar 2. */
  lemma IrregularFrameLooksAhead(cfg: Config)
    requires !cfg.atrScaled && !cfg.progressStop && cfg.horizon == 2 && cfg.spread == 0.0
    requires cfg.stopY == 100.0 && cfg.targetX == 100.0 && cfg.beTrigger == 1.0
    ensures var bars := [Flat(0), Flat(10), Flat(20), Flat(21), Flat(22), Flat(23)];
      && CandleStep(bars[..3]) == 10 && CandleStep(bars) == 1
      && !IsCut(Result(cfg, bars[..3], 0.0).trades, Result(cfg, bars, 0.0).trades, 3)
  {
    var bars := [Flat(0), Flat(10), Flat(20), Flat(21), Flat(22), Flat(23)];
    var part := bars[..3];
    assert part == [Flat(0), Flat(10), Flat(20)];
    IrregularSteps();
    StateIsCausal(cfg, 10, part, bars, 3, 0.0);
    FlatRun(cfg, 10, bars);
    FlatRun(cfg, 1, bars);
    TradesOnlyGrow(cfg, 1, bars, 3, 6, 0.0);
    var all := Result(cfg, bars, 0.0).trades;
    assert After(cfg, 1, bars, 3, 0.0).trades <= all;
    assert all[0].exitBar == 2 && all[0] in all[0..];
  }

  function Flat(ts: int): Bar {
    Bar(ts, 0.0, 0.0, 0.0, 0.0, "", TrendUp, None)
  }

  lemma FlatRun(cfg: Config, step: int, bars: seq<Bar>)
    requires !cfg.atrScaled && !cfg.progressStop && cfg.horizon == 2 && cfg.spread == 0.0
    requires cfg.stopY == 100.0 && cfg.targetX == 100.0 && cfg.beTrigger == 1.0
    requires |bars| >= 3 && bars[0] == Flat(0) && bars[1] == Flat(10) && bars[2] == Flat(20) && step in {1, 10}
    ensures var trades := After(cfg, step, bars, 3, 0.0).trades;
      if step == 10 then trades == [] else |trades| == 1 && trades[0].exitBar == 2
  {
    var s1 := After(cfg, step, bars, 1, 0.0);
    assert s1 == StepBar(cfg, step, bars, 0, After(cfg, step, bars, 0, 0.0));
    assert s1 == State(None, Some(1), [], [0.0], false);
    var p := Position(1, 10, 0.0, 1, -100.0, 100.0, "", TrendUp, 1.0, false, -100.0);
    var s2 := After(cfg, step, bars, 2, 0.0);
    assert s2 == StepBar(cfg, step, bars, 1, s1);
    assert s2 == State(Some(p), None, [], [0.0], false);
    assert After(cfg, step, bars, 3, 0.0) == StepBar(cfg, step, bars, 2, s2);
    assert Trail(p, bars[2]) == p;
    assert CandlesSince(step, 10, 20) == 10 / step;
  }

  lemma DiffsStep(bars: seq<Bar>)
    requires |bars| >= 2 && bars[|bars| - 1].ts > bars[|bars| - 2].ts
    ensures PositiveDiffs(bars) == PositiveDiffs(bars[..|bars| - 1]) + [bars[|bars| - 1].ts - bars[|bars| - 2].ts]
  {
  }

  lemma IrregularSteps()
    ensures CandleStep([Flat(0), Flat(10), Flat(20)]) == 10
    ensures CandleStep([Flat(0), Flat(10), Flat(20), Flat(21), Flat(22), Flat(23)]) == 1
  {
    FirstDiffs();
    AllDiffs();
    OnesWin();
    var d: seq<int> := [10, 10];
    assert d[..2] == d && BestOf(d, 2) in d[..2];
    hide PositiveDiffs, BestOf;
  }

  lemma FirstDiffs()
    ensures PositiveDiffs([Flat(0), Flat(10), Flat(20)]) == [10, 10]
  {
    var b2, b3 := [Flat(0), Flat(10)], [Flat(0), Flat(10), Flat(20)];
    assert b3[..2] == b2 && b2[..1] == [Flat(0)];
    assert PositiveDiffs(b2[..1]) == [];
    DiffsStep(b2); DiffsStep(b3);
  }

  lemma AllDiffs()
    ensures PositiveDiffs([Flat(0), Flat(10), Flat(20), Flat(21), Flat(22), Flat(23)]) == [10, 10, 1, 1, 1]
  {
    FirstDiffs();
    hide PositiveDiffs;
    var b3 := [Flat(0), Flat(10), Flat(20)];
    var b4 := b3 + [Flat(21)];
    var b5 := b4 + [Flat(22)];
    var b6 := b5 + [Flat(23)];
    assert b6 == [Flat(0), Flat(10), Flat(20), Flat(21), Flat(22), Flat(23)];
    assert b4[..3] == b3 && b5[..4] == b4 && b6[..5] == b5;
    DiffsStep(b4); DiffsStep(b5); DiffsStep(b6);
  }

  lemma OnesWin()
    ensures var d: seq<int> := [10, 10, 1, 1, 1]; d[..5] == d && BestOf(d, 5) == 1
  {
    var d: seq<int> := [10, 10, 1, 1, 1];
    assert Count(d, 10) == 2 && Count(d, 1) == 3;
    hide Count;
    assert d[..5] == d;
    var best := BestOf(d, 5);
    assert best in d[..5];
    assert best == 10 || best == 1;
    assert Beats(d, best, d[4]);
  }

  // ---------------------------------------------------------------------------
  // What every run looks like
  // ---------------------------------------------------------------------------

  /** The position was opened at its bar by the trend of the bar before. */
  ghost predicate OpenedRightly(bars: seq<Bar>, p: Position) {
    && 0 < p.entryBar < |bars|
    && p.direction == RuleBasedSignal(bars[p.entryBar - 1].regime) && (p.direction == 1 || p.direction == -1)
    && p.regime == bars[p.entryBar - 1].regime
    && p.entryTs == bars[p.entryBar].ts && p.session == bars[p.entryBar].session
    && p.stop == if p.beDone then p.entryPrice else p.initialStop
  }

  ghost predicate ClosedRightly(cfg: Config, bars: seq<Bar>, t: Trade) {
    && OpenedRightly(bars, t.position)
    && t.position.entryBar < t.exitBar < |bars|
    && t.exitTs == bars[t.exitBar].ts && t.pnl == Pnl(cfg, t.position, t.exitPrice)
  }

  /** Entries and exits alternate and the equity curve is the running sum of the results. */
  ghost predicate HistoryInv(
    cfg: Config, bars: seq<Bar>, n: nat, balance: real, trades: seq<Trade>, equity: seq<real>) {
    && (forall j :: 0 <= j < |trades| ==> ClosedRightly(cfg, bars, trades[j]) && trades[j].exitBar < n)
    && (forall j :: 0 < j < |trades| ==> trades[j - 1].exitBar < trades[j].position.entryBar)
    && |equity| == |trades| + 1 && equity[0] == balance
    && (forall j :: 0 <= j < |trades| ==> equity[j + 1] == equity[j] + trades[j].pnl)
  }

  /** The open position was entered after the last exit and no later than bar `last`. */
  ghost predicate OpenInv(bars: seq<Bar>, last: int, trades: seq<Trade>, open: Option<Position>) {
    open.Some? ==>
      && OpenedRightly(bars, open.value) && open.value.entryBar <= last
      && (trades != [] ==> trades[|trades| - 1].exitBar < open.value.entryBar)
  }

  /** Between bars a flat engine carries the signal of the last close. */
  ghost predicate RunInv(cfg: Config, bars: seq<Bar>, n: nat, balance: real, st: State)
    requires n <= |bars|
  {
    && HistoryInv(cfg, bars, n, balance, st.trades, st.equity)
    && OpenInv(bars, n - 1, st.trades, st.open)
    && (st.open.None? && !st.raised && st.pending.Some? ==>
      n > 0 && st.pending.value == RuleBasedSignal(bars[n - 1].regime))
  }

  lemma EnterKeeps(cfg: Config, bars: seq<Bar>, n: nat, balance: real, st: State)
    requires n < |bars| && RunInv(cfg, bars, n, balance, st) && !st.raised
    ensures var e := EnterIfPending(cfg, bars, n, st);
      e.trades == st.trades && e.equity == st.equity && OpenInv(bars, n, e.trades, e.open) &&
        (e.raised ==> e.open.None?)
  {
    assert st.trades != [] ==> st.trades[|st.trades| - 1].exitBar < n;
  }

  lemma TradeKeeps(cfg: Config, bars: seq<Bar>, n: nat, balance: real, trades: seq<Trade>, equity: seq<real>, t: Trade)
    requires n < |bars| && HistoryInv(cfg, bars, n, balance, trades, equity)
    requires ClosedRightly(cfg, bars, t) && t.exitBar == n
    requires trades != [] ==> trades[|trades| - 1].exitBar < t.position.entryBar
    ensures HistoryInv(cfg, bars, n + 1, balance, trades + [t], equity + [equity[|equity| - 1] + t.pnl])
  {
    hide ClosedRightly;
  }

  lemma ExitKeeps(cfg: Config, step: int, bars: seq<Bar>, n: nat, balance: real, st: State)
    requires n < |bars| && HistoryInv(cfg, bars, n, balance, st.trades, st.equity)
    requires OpenInv(bars, n, st.trades, st.open)
    ensures var left := ExitIfHit(cfg, step, bars, n, st);
      HistoryInv(cfg, bars, n + 1, balance, left.trades, left.equity) && OpenInv(bars, n, left.trades, left.open)
  {
    hide HistoryInv, ExitOf, CandlesSince, RuleBasedSignal, Pnl;
    HistoryWidens(cfg, bars, n, balance, st.trades, st.equity);
    if st.open.Some? && n > st.open.value.entryBar {
      var p := Trail(st.open.value, bars[n]);
      assert OpenedRightly(bars, p);
      var exit := ExitOf(cfg, p, bars[n], CandlesSince(step, p.entryTs, bars[n].ts));
      if exit.Some? {
        TradeKeeps(cfg, bars, n, balance, st.trades, st.equity, Close(cfg, p, n, bars[n], exit.value.0, exit.value.1));
      }
    }
  }

  lemma HistoryWidens(cfg: Config, bars: seq<Bar>, n: nat, balance: real, trades: seq<Trade>, equity: seq<real>)
    requires HistoryInv(cfg, bars, n, balance, trades, equity)
    ensures HistoryInv(cfg, bars, n + 1, balance, trades, equity)
  {
  }

  lemma StepKeeps(cfg: Config, step: int, bars: seq<Bar>, n: nat, balance: real, st: State)
    requires n < |bars| && RunInv(cfg, bars, n, balance, st)
    ensures RunInv(cfg, bars, n + 1, balance, StepBar(cfg, step, bars, n, st))
  {
    HistoryWidens(cfg, bars, n, balance, st.trades, st.equity);
    if !st.raised {
      EnterKeeps(cfg, bars, n, balance, st);
      hide HistoryInv, EnterIfPending, ExitIfHit, RuleBasedSignal;
      var e := EnterIfPending(cfg, bars, n, st);
      if !e.raised {
        ExitKeeps(cfg, step, bars, n, balance, e);
      }
    }
  }

  /** Every run, at every bar. */
  lemma {:induction false} RunIsSound(cfg: Config, step: int, bars: seq<Bar>, n: nat, balance: real)
    requires n <= |bars|
    ensures RunInv(cfg, bars, n, balance, After(cfg, step, bars, n, balance))
  {
    if n > 0 {
      RunIsSound(cfg, step, bars, n - 1, balance);
      StepKeeps(cfg, step, bars, n - 1, balance, After(cfg, step, bars, n - 1, balance));
    }
  }

  // ---------------------------------------------------------------------------
  // How long a trade lasts and how far it can move
  // ---------------------------------------------------------------------------

  function Limit(cfg: Config): int {
    if cfg.horizon > 1 then cfg.horizon else 1
  }

  /** No trade lasts longer than the horizon, and the open one still has time at the next bar. */
  ghost predicate HoldInv(cfg: Config, bars: seq<Bar>, last: int, st: State) {
    && (forall t :: t in st.trades ==> t.exitBar - t.position.entryBar <= Limit(cfg))
    && (st.open.Some? ==>
          && st.open.value.entryBar <= last < st.open.value.entryBar + Limit(cfg)
          && last < |bars| && st.open.value.entryTs == bars[st.open.value.entryBar].ts)
  }

  lemma HeldBars(bars: seq<Bar>, d: int, e: nat, i: nat)
    requires Uniform(bars, d) && e <= i < |bars|
    ensures CandlesSince(d, bars[e].ts, bars[i].ts) == i - e
  {
    Spacing(bars, d, e, i);
    hide Uniform, CandlesSince;
    WholeSteps(d, i - e, bars[e].ts, bars[i].ts, (i - e) * d);
  }

  lemma WholeSteps(d: int, k: nat, from: int, to: int, elapsed: int)
    requires d > 0 && elapsed == k * d && to - from == elapsed
    ensures CandlesSince(d, from, to) == k
  {
    ExactQuotient(d, k, elapsed);
  }

  lemma ExactQuotient(d: int, k: nat, product: int)
    requires d > 0 && product == k * d
    ensures product / d == k
  {
    var q := product / d;
    var r := product % d;
    assert product == d * q + r;
    OnlyZeroFits(k - q, d, r);
  }

  lemma OnlyZeroFits(z: int, d: int, r: int)
    requires 0 <= r < d && z * d == r
    ensures z == 0
  {
    assert z >= 1 ==> (z - 1) * d >= 0;
    assert z <= -1 ==> (-1 - z) * d >= 0;
  }

  lemma ExitHolds(cfg: Config, d: int, bars: seq<Bar>, n: nat, st: State)
    requires n < |bars| && Uniform(bars, d) && st.equity != []
    requires HoldInv(cfg, bars, n, st) || HoldInv(cfg, bars, n - 1, st)
    ensures HoldInv(cfg, bars, n, ExitIfHit(cfg, d, bars, n, st))
  {
    hide CandlesSince, HitStop, HitTarget, HitProgressStop;
    if st.open.Some? && n > st.open.value.entryBar {
      HeldBars(bars, d, st.open.value.entryBar, n);
    }
  }

  lemma StepHolds(cfg: Config, d: int, bars: seq<Bar>, n: nat, st: State)
    requires n < |bars| && Uniform(bars, d) && st.equity != [] && (st.raised ==> st.open.None?)
    requires HoldInv(cfg, bars, n - 1, st)
    ensures var next := StepBar(cfg, d, bars, n, st); HoldInv(cfg, bars, n, next) && (next.raised ==> next.open.None?)
  {
    if !st.raised {
      var e := EnterIfPending(cfg, bars, n, st);
      assert HoldInv(cfg, bars, n, e) || HoldInv(cfg, bars, n - 1, e);
      ExitHolds(cfg, d, bars, n, e);
    }
  }

  /** On a uniformly spaced frame every trade is held for at most max(1, horizon) bars. */
  lemma {:induction false} HoldingIsBounded(cfg: Config, bars: seq<Bar>, d: int, n: nat, balance: real)
    requires n <= |bars| && Uniform(bars, d)
    ensures var st := After(cfg, d, bars, n, balance); HoldInv(cfg, bars, n - 1, st) && (st.raised ==> st.open.None?)
  {
    if n > 0 {
      HoldingIsBounded(cfg, bars, d, n - 1, balance);
      hide StepBar;
      StepHolds(cfg, d, bars, n - 1, After(cfg, d, bars, n - 1, balance));
    }
  }

  /** Candles whose close lies between low and high, and barriers on the right side of the entry. */
  ghost predicate WellFormed(bars: seq<Bar>) {
    forall i :: 0 <= i < |bars| ==> bars[i].low <= bars[i].close <= bars[i].high
  }

  ghost predicate SaneBarriers(cfg: Config) {
    && cfg.stopY >= 0.0 && cfg.targetX >= 0.0
    && forall r :: cfg.grid(r).stopMult >= 0.0 && cfg.grid(r).tp1Mult >= 0.0
  }

  /** Favourable distance from the entry to a price. */
  function Move(p: Position, price: real): real {
    if p.direction == 1 then price - p.entryPrice else p.entryPrice - price
  }

  ghost predicate Bracketed(p: Position) {
    Move(p, p.initialStop) <= 0.0 <= Move(p, p.target) && p.stop == if p.beDone then p.entryPrice else p.initialStop
  }

  ghost predicate MoveBounded(cfg: Config, t: Trade) {
    Move(t.position, t.position.initialStop) - cfg.slippage <= Move(t.position, t.exitPrice) <=
      Move(t.position, t.position.target) - cfg.slippage
  }

  ghost predicate MoveInv(cfg: Config, st: State) {
    (forall t :: t in st.trades ==> MoveBounded(cfg, t)) && (st.open.Some? ==> Bracketed(st.open.value))
  }

  lemma SizesAreSane(cfg: Config, signal: Bar)
    requires SaneBarriers(cfg) && Size(cfg, signal).Sized?
    ensures Size(cfg, signal).stop >= 0.0 && Size(cfg, signal).target >= 0.0
  {
    var grid := cfg.grid(signal.regime);
    assert grid.stopMult >= 0.0 && grid.tp1Mult >= 0.0;
    if cfg.atrScaled && signal.atr.Some? && signal.atr.value > 0.0 {
      var step := ResolveStep(signal.atr.value, grid).value;
      assert step > 0.0;
      assert step * grid.stopMult >= 0.0 && step * grid.tp1Mult >= 0.0;
    }
  }

  lemma EntersBracketed(cfg: Config, bars: seq<Bar>, n: nat, st: State)
    requires n < |bars| && SaneBarriers(cfg) && MoveInv(cfg, st)
    ensures var e := EnterIfPending(cfg, bars, n, st); MoveInv(cfg, e) && e.equity == st.equity
  {
    var signal := bars[if n > 0 then n - 1 else n];
    hide Size, SaneBarriers;
    if Size(cfg, signal).Sized? {
      SizesAreSane(cfg, signal);
    }
  }

  lemma ExitIsBounded(cfg: Config, p: Position, i: nat, bar: Bar, held: int)
    requires Bracketed(p) && bar.low <= bar.close <= bar.high && ExitOf(cfg, p, bar, held).Some?
    ensures var exit := ExitOf(cfg, p, bar, held).value; MoveBounded(cfg, Close(cfg, p, i, bar, exit.0, exit.1))
  {
    hide HitProgressStop, Pnl;
  }

  lemma ExitMoves(cfg: Config, step: int, bars: seq<Bar>, n: nat, st: State)
    requires n < |bars| && WellFormed(bars) && st.equity != [] && MoveInv(cfg, st)
    ensures MoveInv(cfg, ExitIfHit(cfg, step, bars, n, st))
  {
    hide MoveBounded, ExitOf, Close, CandlesSince;
    if st.open.Some? && n > st.open.value.entryBar {
      var p := Trail(st.open.value, bars[n]);
      assert Bracketed(p);
      var held := CandlesSince(step, p.entryTs, bars[n].ts);
      if ExitOf(cfg, p, bars[n], held).Some? {
        ExitIsBounded(cfg, p, n, bars[n], held);
      }
    }
  }

  /** Each trade moves between minus (stop distance + slippage) and target distance minus slippage. */
  lemma {:induction false} MovesAreBounded(cfg: Config, step: int, bars: seq<Bar>, n: nat, balance: real)
    requires n <= |bars| && WellFormed(bars) && SaneBarriers(cfg)
    ensures MoveInv(cfg, After(cfg, step, bars, n, balance))
  {
    hide EnterIfPending, ExitIfHit, WellFormed, SaneBarriers;
    if n > 0 {
      MovesAreBounded(cfg, step, bars, n - 1, balance);
      var st := After(cfg, step, bars, n - 1, balance);
      EntersBracketed(cfg, bars, n - 1, st);
      ExitMoves(cfg, step, bars, n - 1, EnterIfPending(cfg, bars, n - 1, st));
    }
  }

  // ---------------------------------------------------------------------------
  // Exactly when the engine looks ahead
  // ---------------------------------------------------------------------------

  /** The candle steps of the frame and of its first n bars count the same bars held, for every
      entry and exit inside those n bars. It is a condition on time stamps alone. */
  ghost predicate CountsAgree(bars: seq<Bar>, n: nat)
    requires n <= |bars|
  {
    SameCounts(CandleStep(bars[..n]), CandleStep(bars), bars, n)
  }

  ghost predicate SameCounts(s: int, z: int, bars: seq<Bar>, n: nat)
    requires n <= |bars|
  {
    forall e, i :: 1 <= e < i < n ==> CandlesSince(s, bars[e].ts, bars[i].ts) == CandlesSince(z, bars[e].ts, bars[i].ts)
  }

  ghost predicate SameTimes(a: seq<Bar>, b: seq<Bar>) {
    |a| == |b| && forall i :: 0 <= i < |a| ==> a[i].ts == b[i].ts
  }

  ghost predicate Sorted(bars: seq<Bar>) {
    forall i, j :: 0 <= i <= j < |bars| ==> bars[i].ts <= bars[j].ts
  }

  /** Whatever the configuration and the candles at these times, the first n bars alone give the
      trades of the full run that leave among them. */
  ghost predicate NeverLooksAhead(times: seq<Bar>, n: nat)
    requires n <= |times|
  {
    forall cfg: Config, bars: seq<Bar>, balance: real :: SameTimes(bars, times) ==>
      IsCut(Result(cfg, bars[..n], balance).trades, Result(cfg, bars, balance).trades, n)
  }

  lemma {:induction false} TimesGiveDiffs(a: seq<Bar>, b: seq<Bar>)
    requires SameTimes(a, b)
    ensures PositiveDiffs(a) == PositiveDiffs(b)
  {
    if |a| >= 2 {
      TimesGiveDiffs(a[..|a| - 1], b[..|b| - 1]);
    }
  }

  lemma TimesGiveCounts(a: seq<Bar>, b: seq<Bar>, n: nat)
    requires SameTimes(a, b) && n <= |a|
    ensures CandleStep(a) == CandleStep(b) && CandleStep(a[..n]) == CandleStep(b[..n])
    ensures CountsAgree(b, n) ==> CountsAgree(a, n)
  {
    TimesGiveDiffs(a, b);
    TimesGiveDiffs(a[..n], b[..n]);
  }

  /** Two steps that count alike give the same run. */
  lemma {:induction false} CountsGiveRun(cfg: Config, s: int, z: int, bars: seq<Bar>, n: nat, balance: real)
    requires n <= |bars| && SameCounts(s, z, bars, n)
    ensures After(cfg, s, bars, n, balance) == After(cfg, z, bars, n, balance)
  {
    hide StepBar, HistoryInv, OpenedRightly;
    if n > 0 {
      CountsGiveRun(cfg, s, z, bars, n - 1, balance);
      RunIsSound(cfg, s, bars, n - 1, balance);
      CountsGiveStep(cfg, s, z, bars, n - 1, balance, After(cfg, s, bars, n - 1, balance));
    }
  }

  lemma CountsGiveStep(cfg: Config, s: int, z: int, bars: seq<Bar>, i: nat, balance: real, st: State)
    requires i < |bars| && SameCounts(s, z, bars, i + 1) && RunInv(cfg, bars, i, balance, st)
    ensures StepBar(cfg, s, bars, i, st) == StepBar(cfg, z, bars, i, st)
  {
    if !st.raised {
      EnterKeeps(cfg, bars, i, balance, st);
      hide EnterIfPending, HistoryInv, RuleBasedSignal, ExitIfHit;
      CountsGiveExit(cfg, s, z, bars, i, EnterIfPending(cfg, bars, i, st));
    }
  }

  lemma CountsGiveExit(cfg: Config, s: int, z: int, bars: seq<Bar>, i: nat, st: State)
    requires i < |bars| && SameCounts(s, z, bars, i + 1) && OpenInv(bars, i, st.trades, st.open) && st.equity != []
    ensures ExitIfHit(cfg, s, bars, i, st) == ExitIfHit(cfg, z, bars, i, st)
  {
    hide RuleBasedSignal, CandlesSince, ExitOf, Close;
    if st.open.Some? {
      var p := Trail(st.open.value, bars[i]);
      assert p.entryTs == bars[p.entryBar].ts;
    }
  }

  lemma CountsSuffice(cfg: Config, bars: seq<Bar>, n: nat, balance: real)
    requires n <= |bars| && CountsAgree(bars, n)
    ensures IsCut(Result(cfg, bars[..n], balance).trades, Result(cfg, bars, balance).trades, n)
  {
    var s, z := CandleStep(bars[..n]), CandleStep(bars);
    assert bars[..n][..n] == bars[..n];
    StateIsCausal(cfg, s, bars[..n], bars, n, balance);
    CountsGiveRun(cfg, s, z, bars, n, balance);
    TradesOnlyGrow(cfg, z, bars, n, |bars|, balance);
    ExitsAreInside(cfg, z, bars, n, balance);
  }

  // The witness: flat candles, one buy signal at bar e - 1, and a horizon the two counts tell apart.

  function Quiet(ts: int, signal: bool): Bar {
    Bar(ts, 0.0, 0.0, 0.0, 0.0, "", if signal then TrendUp else NoTrend("range"), None)
  }

  function Probe(times: seq<Bar>, e: nat): (bars: seq<Bar>)
    ensures SameTimes(bars, times)
  {
    seq(|times|, i requires 0 <= i < |times| => Quiet(times[i].ts, i + 1 == e))
  }

  function ProbeConfig(horizon: int): Config {
    Config(0.0, 0.0, horizon, 1.0, 1.0, 1.0, false, 0.0, 0.0, false, 100.0, 100.0,
      _ => Grid(1.0, 1.0, 1.0, None, None, None))
  }

  function ProbePosition(e: nat, ts: int): Position {
    Position(e, ts, 0.0, 1, -100.0, 100.0, "", TrendUp, 1.0, false, -100.0)
  }

  lemma {:induction false} ProbeWaits(h: int, step: int, times: seq<Bar>, e: nat, n: nat)
    requires n < e <= |times|
    ensures After(ProbeConfig(h), step, Probe(times, e), n, 0.0) ==
      State(None, if n == 0 then None else Some(0), [], [0.0], false)
  {
    if n > 0 {
      ProbeWaits(h, step, times, e, n - 1);
    }
  }

  lemma ProbeEnters(h: int, step: int, times: seq<Bar>, e: nat)
    requires 1 <= e < |times|
    ensures After(ProbeConfig(h), step, Probe(times, e), e + 1, 0.0) ==
      State(Some(ProbePosition(e, times[e].ts)), None, [], [0.0], false)
  {
    var cfg, bars := ProbeConfig(h), Probe(times, e);
    ProbeWaits(h, step, times, e, e - 1);
    var signalled := After(cfg, step, bars, e, 0.0);
    assert signalled == StepBar(cfg, step, bars, e - 1, After(cfg, step, bars, e - 1, 0.0));
    assert signalled == State(None, Some(1), [], [0.0], false);
    assert After(cfg, step, bars, e + 1, 0.0) == StepBar(cfg, step, bars, e, signalled);
  }

  /** While the count stays under the horizon the probe stays open. */
  lemma {:induction false} ProbeHolds(h: int, step: int, times: seq<Bar>, e: nat, n: nat)
    requires 1 <= e < n <= |times|
    requires forall j :: e < j < n ==> CandlesSince(step, times[e].ts, times[j].ts) < h
    ensures After(ProbeConfig(h), step, Probe(times, e), n, 0.0) ==
      State(Some(ProbePosition(e, times[e].ts)), None, [], [0.0], false)
  {
    hide CandlesSince, Probe, After, ProbePosition, ProbeConfig;
    if n == e + 1 {
      ProbeEnters(h, step, times, e);
    } else {
      ProbeHolds(h, step, times, e, n - 1);
      ProbeStep(h, step, times, e, n - 1);
    }
  }

  lemma ProbeStep(h: int, step: int, times: seq<Bar>, e: nat, i: nat)
    requires 1 <= e < i < |times|
    requires var st := State(Some(ProbePosition(e, times[e].ts)), None, [], [0.0], false);
      After(ProbeConfig(h), step, Probe(times, e), i, 0.0) == st
    ensures var st := State(Some(ProbePosition(e, times[e].ts)), None, [], [0.0], false);
      var next := After(ProbeConfig(h), step, Probe(times, e), i + 1, 0.0);
      if CandlesSince(step, times[e].ts, times[i].ts) < h then next == st
        else |next.trades| == 1 && next.trades[0].exitBar == i
  {
    hide CandlesSince, Pnl;
    var cfg, bars, p := ProbeConfig(h), Probe(times, e), ProbePosition(e, times[e].ts);
    assert Trail(p, bars[i]) == p;
  }

  /** The run with the faster count leaves at a bar where the other is still open. */
  lemma {:induction false} ProbeSplits(h: int, fast: int, slow: int, times: seq<Bar>, e: nat, i: nat) returns (k: nat)
    requires 1 <= e < i < |times| && slow > 0 && Sorted(times)
    requires CandlesSince(slow, times[e].ts, times[i].ts) < h <= CandlesSince(fast, times[e].ts, times[i].ts)
    ensures e < k <= i
    ensures var trades := After(ProbeConfig(h), fast, Probe(times, e), k + 1, 0.0).trades;
      |trades| == 1 && trades[0].exitBar == k
    ensures After(ProbeConfig(h), slow, Probe(times, e), k + 1, 0.0).trades == []
    decreases i
  {
    hide CandlesSince, Probe, After, ProbePosition, ProbeConfig;
    CountsStayUnder(h, slow, times, e, i);
    hide Sorted;
    if j :| e < j < i && CandlesSince(fast, times[e].ts, times[j].ts) >= h {
      k := ProbeSplits(h, fast, slow, times, e, j);
    } else {
      k := i;
      ProbeHolds(h, fast, times, e, i);
      ProbeStep(h, fast, times, e, i);
      ProbeHolds(h, slow, times, e, i + 1);
    }
  }

  lemma CountsStayUnder(h: int, step: int, times: seq<Bar>, e: nat, i: nat)
    requires e < i < |times| && step > 0 && Sorted(times) && CandlesSince(step, times[e].ts, times[i].ts) < h
    ensures forall j :: e < j <= i ==> CandlesSince(step, times[e].ts, times[j].ts) < h
  {
    hide CandlesSince;
    forall j | e < j <= i ensures CandlesSince(step, times[e].ts, times[j].ts) < h {
      CountsGrow(step, times[e].ts, times[j].ts, times[i].ts);
    }
  }

  lemma CountsGrow(step: int, from: int, a: int, b: int)
    requires step > 0 && from <= a <= b
    ensures CandlesSince(step, from, a) <= CandlesSince(step, from, b)
  {
    var x, y := a - from, b - from;
    QuotientsGrow(step, x / step, x % step, y / step, y % step);
  }

  lemma QuotientsGrow(d: int, p: int, r: int, q: int, t: int)
    requires 0 <= r < d && 0 <= t < d && d * p + r <= d * q + t
    ensures p <= q
  {
    assert p > q ==> d * (p - q - 1) >= 0;
  }

  /** Two runs of which only one has a trade leaving at bar k < n are not a cut of one another. */
  lemma NotACut(fast: seq<Trade>, slow: seq<Trade>, k: nat, n: nat)
    requires k < n && fast != [] && fast[0].exitBar == k && forall t :: t in slow ==> t.exitBar > k
    ensures !IsCut(fast, slow, n) && !IsCut(slow, fast, n)
  {
    assert fast[0] in fast[0..];
    assert slow != [] ==> slow[0] in slow;
  }

  lemma CountsAreNecessary(times: seq<Bar>, n: nat, e: nat, i: nat)
    requires n <= |times| && Sorted(times) && 1 <= e < i < n
    requires CandlesSince(CandleStep(times[..n]), times[e].ts, times[i].ts) !=
      CandlesSince(CandleStep(times), times[e].ts, times[i].ts)
    ensures !NeverLooksAhead(times, n)
  {
    var s, z := CandleStep(times[..n]), CandleStep(times);
    var a, b := CandlesSince(s, times[e].ts, times[i].ts), CandlesSince(z, times[e].ts, times[i].ts);
    var h, fast, slow := if a > b then a else b, if a > b then s else z, if a > b then z else s;
    var k := ProbeSplits(h, fast, slow, times, e, i);
    hide CandleStep, CandlesSince, Probe;
    var cfg, bars := ProbeConfig(h), Probe(times, e);
    TimesGiveCounts(bars, times, n);
    var m := |bars|;
    ProbeOutcome(cfg, fast, slow, bars, k, n, n, m);
    ProbeOutcome(cfg, fast, slow, bars, k, n, m, n);
    assert bars[..n][..n] == bars[..n];
    StateIsCausal(cfg, s, bars[..n], bars, n, 0.0);
    assert SameTimes(bars, times);
    assert !IsCut(Result(cfg, bars[..n], 0.0).trades, Result(cfg, bars, 0.0).trades, n);
  }

  lemma ProbeOutcome(cfg: Config, fast: int, slow: int, bars: seq<Bar>, k: nat, n: nat, f: nat, g: nat)
    requires k < n <= f <= |bars| && n <= g <= |bars|
    requires var trades := After(cfg, fast, bars, k + 1, 0.0).trades; |trades| == 1 && trades[0].exitBar == k
    requires After(cfg, slow, bars, k + 1, 0.0).trades == []
    ensures var x, y := After(cfg, fast, bars, f, 0.0).trades, After(cfg, slow, bars, g, 0.0).trades;
      !IsCut(x, y, n) && !IsCut(y, x, n)
  {
    hide After;
    TradesOnlyGrow(cfg, fast, bars, k + 1, f, 0.0);
    TradesOnlyGrow(cfg, slow, bars, k + 1, g, 0.0);
    var y := After(cfg, slow, bars, g, 0.0).trades;
    assert y[0..] == y;
    NotACut(After(cfg, fast, bars, f, 0.0).trades, y, k, n);
  }

  /** For time stamps in order: no look-ahead whatever the candles and the configuration, if and only
      if the two candle steps count alike inside the prefix. */
  lemma LookAheadFreeIff(times: seq<Bar>, n: nat)
    requires n <= |times| && Sorted(times)
    ensures NeverLooksAhead(times, n) <==> CountsAgree(times, n)
  {
    if CountsAgree(times, n) {
      forall cfg: Config, bars: seq<Bar>, balance: real | SameTimes(bars, times)
        ensures IsCut(Result(cfg, bars[..n], balance).trades, Result(cfg, bars, balance).trades, n)
      {
        TimesGiveCounts(bars, times, n);
        CountsSuffice(cfg, bars, n, balance);
      }
    } else {
      hide NeverLooksAhead;
      var e, i :|
        1 <= e < i < n &&
        CandlesSince(CandleStep(times[..n]), times[e].ts, times[i].ts) !=
        CandlesSince(CandleStep(times), times[e].ts, times[i].ts);
      CountsAreNecessary(times, n, e, i);
    }
  }
}
