/** The trade geometry engine (execution/trade_geometry.py): tick grid, ladder levels, cost,
    broker and risk admission, and the break-even price. Prices are exact rationals. */
module Geometry {
  import opened Volumes

  const EPS: real := 0.000000001

  function Abs(x: real): real {
    if x < 0.0 then -x else x
  }

  function Times(a: real, b: real): real {
    a * b
  }

  // ---------------------------------------------------------------------------
  // Half-even rounding
  // ---------------------------------------------------------------------------

  /** Python's round(): to the nearest integer, ties to the even one. */
  function Round(x: real): int {
    var f := x.Floor;
    var rest := x - f as real;
    if rest < 0.5 then f
    else if rest > 0.5 then f + 1
    else if f % 2 == 0 then f else f + 1
  }

  lemma RoundIsNearest(x: real, n: int)
    ensures Abs(Round(x) as real - x) <= 0.5
    ensures Abs(Round(x) as real - x) <= Abs(n as real - x)
    ensures Abs(n as real - x) == 0.5 && Round(x) != n ==> Round(x) % 2 == 0 && n % 2 != 0
    ensures Round(n as real) == n
  {
    var f := x.Floor;
    assert n <= f || n >= f + 1;
  }

  lemma RoundIsMonotone(x: real, y: real)
    requires x <= y
    ensures Round(x) <= Round(y)
    ensures y - x > 1.0 ==> Round(x) < Round(y)
  {
    assert x.Floor <= y.Floor;
  }

  /** Rounding is symmetric about every grid point, ties included. */
  lemma RoundMirrors(n: int, y: real)
    ensures Round(n as real + y) + Round(n as real - y) == 2 * n
  {
    var f := (n as real + y).Floor;
    var rest := n as real + y - f as real;
    if rest == 0.0 {
      assert (n as real - y).Floor == 2 * n - f;
    } else {
      assert (n as real - y).Floor == 2 * n - f - 1;
    }
  }

  /** A gap of exactly one tick is not enough to keep two levels apart. */
  lemma OneTickGapCanCollapse()
    ensures Round(1.5) == Round(2.5)
  {
    assert (1.5).Floor == 1 && (2.5).Floor == 2;
  }

  // ---------------------------------------------------------------------------
  // Inputs
  // ---------------------------------------------------------------------------

  datatype Side = Long | Short

  datatype StepSource = Fixed(distance: real) | Atr(multiplier: real) | Unsupported
  datatype Bound = Unbounded | At(value: real)

  datatype Profile = Profile(
    validated: bool, source: StepSource, minimum: Bound, maximum: Bound,
    tp1: real, tp2: real, tp3: real, stop: real,
    minAtrPct: real, maxAtrPct: real,
    totalVolume: real, share1: real, share2: real, share3: real,
    maxCash: real, maxPct: real)

  datatype Broker = Broker(
    point: real, tick: real, stopsLevel: int, freezeLevel: int, spread: real,
    contractSize: real, volumeMin: real, volumeStep: real)

  datatype Cost = Cost(available: bool, roundTrip: real, safetyBuffer: real, exitSlippage: real, commission: real)

  datatype Rejection =
    | PROFILE_NOT_VALIDATED | COST_DATA_UNAVAILABLE | TP1_TOO_CLOSE_TO_COST | INVALID_TICK_ALIGNMENT
    | STOP_BELOW_BROKER_MIN_DISTANCE | INSUFFICIENT_VOLUME_FOR_THREE_LEGS | RISK_LIMIT_EXCEEDED
    | UnsupportedStepSource | ZeroReferencePrice | AllocationOutOfRange

  datatype Output = Output(
    step: real, tp1: real, tp2: real, tp3: real, sl: real, grossR: real, loss: real, volumes: Legs)
  datatype Answer<+T> = Accepted(value: T) | Rejected(reason: Rejection)

  // ---------------------------------------------------------------------------
  // The engine
  // ---------------------------------------------------------------------------

  function CalculateStep(profile: Profile, atr: real): Answer<real> {
    if profile.source.Unsupported? then Rejected(UnsupportedStepSource)
    else
      var raw := if profile.source.Fixed? then profile.source.distance else atr * profile.source.multiplier;
      var low := if profile.minimum.At? && raw < profile.minimum.value then profile.minimum.value else raw;
      var step := if profile.maximum.At? && low > profile.maximum.value then profile.maximum.value else low;
      if step <= 0.0 then Rejected(TP1_TOO_CLOSE_TO_COST) else Accepted(step)
  }

  function AlignToTick(price: real, tick: real): real {
    if tick <= 0.0 then price else Round(price / tick) as real * tick
  }

  predicate IsTickAligned(price: real, tick: real) {
    tick <= 0.0 || Abs(price / tick - Round(price / tick) as real) < EPS
  }

  function MinStopDistance(broker: Broker): real {
    (if broker.stopsLevel >= broker.freezeLevel then broker.stopsLevel else broker.freezeLevel) as real * broker.point +
      broker.spread
  }

  predicate RiskOk(loss: real, maxCash: real, maxPct: real, balance: real) {
    loss <= maxCash + EPS && (balance > 0.0 ==> loss <= maxPct * balance + EPS)
  }

  function GrossR(risk: real, d1: real, d2: real, d3: real, p: Profile): real {
    if risk <= 0.0 then 0.0 else d1 / risk * p.share1 + d2 / risk * p.share2 + d3 / risk * p.share3
  }

  function LossAtStop(volume: real, distance: real, contractSize: real): real {
    volume * distance * contractSize
  }

  predicate AtrInBounds(atr: real, reference: real, p: Profile)
    requires reference != 0.0
  {
    p.minAtrPct <= atr / reference <= p.maxAtrPct
  }

  datatype Levels = Levels(tp1: real, tp2: real, tp3: real, sl: real)

  /** `reference + direction * distance`, with direction +1 for long and -1 for short. */
  function Toward(side: Side, reference: real, distance: real): real {
    if side == Long then reference + distance else reference - distance
  }

  /** The three targets and the stop at the given distances from the reference. */
  function LadderLevels(side: Side, reference: real, d1: real, d2: real, d3: real, stop: real, tick: real): Levels {
    Levels(AlignToTick(Toward(side, reference, d1), tick),
           AlignToTick(Toward(side, reference, d2), tick),
           AlignToTick(Toward(side, reference, d3), tick),
           AlignToTick(Toward(side, reference, -stop), tick))
  }

  function StepLevels(side: Side, reference: real, step: real, p: Profile, tick: real): Levels {
    LadderLevels(side, reference, Times(step, p.tp1), Times(step, p.tp2), Times(step, p.tp3), Times(step, p.stop), tick)
  }

  predicate ValidShare(share: real) {
    0.0 < share <= 1.0
  }

  /** Admission of a ladder, in the order of the checks. */
  function Admit(
    levels: Levels, reference: real, step: real, profile: Profile, atr: real, broker: Broker, cost: Cost,
    balance: real): Answer<Output> {
    if !(IsTickAligned(levels.tp1, broker.tick) && IsTickAligned(levels.tp2, broker.tick)
         && IsTickAligned(levels.tp3, broker.tick) && IsTickAligned(levels.sl, broker.tick))
           then Rejected(INVALID_TICK_ALIGNMENT)
    else if Abs(levels.sl - reference) < MinStopDistance(broker) - EPS then Rejected(STOP_BELOW_BROKER_MIN_DISTANCE)
    else if Abs(levels.tp1 - reference) <= cost.roundTrip + cost.safetyBuffer + EPS then Rejected(TP1_TOO_CLOSE_TO_COST)
    else if reference == 0.0 then Rejected(ZeroReferencePrice)
    else if !AtrInBounds(atr, reference, profile) then Rejected(TP1_TOO_CLOSE_TO_COST)
    else if profile.totalVolume <= 0.0 then Rejected(INSUFFICIENT_VOLUME_FOR_THREE_LEGS)
    else
      var split :=
        AllocateLegVolumes(profile.totalVolume, profile.share1, profile.share2, broker.volumeStep, broker.volumeMin,
          false);
      if split.Failure? then Rejected(INSUFFICIENT_VOLUME_FOR_THREE_LEGS)
      else
        var loss := LossAtStop(profile.totalVolume, Abs(levels.sl - reference), broker.contractSize);
        if profile.maxCash <= 0.0 then Rejected(RISK_LIMIT_EXCEEDED)
        else if !RiskOk(loss, profile.maxCash, profile.maxPct, balance) then Rejected(RISK_LIMIT_EXCEEDED)
        else if !(ValidShare(profile.share1) && ValidShare(profile.share2) && ValidShare(profile.share3))
          then Rejected(AllocationOutOfRange)
        else Accepted(Output(step, levels.tp1, levels.tp2, levels.tp3, levels.sl,
                             GrossR(Abs(reference - levels.sl), Abs(levels.tp1 - reference),
                               Abs(levels.tp2 - reference),
                                    Abs(levels.tp3 - reference), profile), loss, split.value))
  }

  function CalculateGeometry(
    profile: Profile, side: Side, reference: real, atr: real, broker: Broker, cost: Cost,
    balance: real): Answer<Output> {
    if !profile.validated then Rejected(PROFILE_NOT_VALIDATED)
    else if !cost.available then Rejected(COST_DATA_UNAVAILABLE)
    else
      var step := CalculateStep(profile, atr);
      if step.Rejected? then Rejected(step.reason)
      else Admit(StepLevels(side, reference, step.value, profile, broker.tick), reference, step.value, profile, atr,
        broker, cost, balance)
  }

  // ---------------------------------------------------------------------------
  // Alignment
  // ---------------------------------------------------------------------------

  lemma AlignInTicks(price: real, ticks: real, tick: real)
    requires tick > 0.0 && price == ticks * tick
    ensures AlignToTick(price, tick) == Round(ticks) as real * tick
  {
    Quotient(price, ticks, tick);
  }

  lemma InTicks(price: real, tick: real) returns (ticks: real)
    requires tick > 0.0
    ensures price == ticks * tick
  {
    ticks := price / tick;
  }

  /** An aligned price is on the grid. */
  lemma AlignedIsOnGrid(price: real, tick: real) returns (k: int)
    requires tick > 0.0
    ensures AlignToTick(price, tick) == k as real * tick && IsTickAligned(AlignToTick(price, tick), tick)
  {
    var ticks := InTicks(price, tick);
    AlignInTicks(price, ticks, tick);
    k := Round(ticks);
    hide Round;
    GridIsAligned(k, tick);
  }

  /** No grid price is nearer to the ideal price than the aligned one, and that is within half a tick. */
  lemma AlignedIsNearest(price: real, tick: real, n: int)
    requires tick > 0.0
    ensures Abs(AlignToTick(price, tick) - price) <= Abs(n as real * tick - price)
    ensures Abs(AlignToTick(price, tick) - price) <= 0.5 * tick
  {
    var ticks := InTicks(price, tick);
    AlignInTicks(price, ticks, tick);
    hide AlignToTick;
    RoundIsNearest(ticks, n);
    hide Round;
    NearestScaled(Round(ticks), AlignToTick(price, tick), n, n as real * tick, ticks, price, tick);
  }

  lemma NearestScaled(r: int, rPrice: real, n: int, nPrice: real, ticks: real, price: real, tick: real)
    requires tick > 0.0 && price == ticks * tick && rPrice == r as real * tick && nPrice == n as real * tick
    requires Abs(r as real - ticks) <= 0.5 && Abs(r as real - ticks) <= Abs(n as real - ticks)
    ensures Abs(rPrice - price) <= Abs(nPrice - price)
    ensures Abs(rPrice - price) <= 0.5 * tick
  {
    hide Abs;
    ScaledDistance(r as real, rPrice, ticks, price, tick);
    ScaledDistance(n as real, nPrice, ticks, price, tick);
    Scaled(Abs(r as real - ticks), 0.5, tick);
    Scaled(Abs(r as real - ticks), Abs(n as real - ticks), tick);
  }

  lemma Scaled(a: real, b: real, tick: real)
    requires tick > 0.0 && a <= b
    ensures Times(a, tick) <= Times(b, tick)
  {
  }

  lemma GridIsAligned(k: int, tick: real)
    requires tick > 0.0
    ensures IsTickAligned(k as real * tick, tick)
  {
    Quotient(k as real * tick, k as real, tick);
    RoundIsNearest(k as real, k);
  }

  lemma ScaledDistance(a: real, aPrice: real, ticks: real, price: real, tick: real)
    requires tick > 0.0 && price == ticks * tick && aPrice == a * tick
    ensures Abs(aPrice - price) == Times(Abs(a - ticks), tick)
  {
    ScaleOrder(a, ticks, tick);
  }

  lemma AlignInSteps(price: real, tick: real) returns (ticks: real)
    requires tick > 0.0
    ensures price == Steps(ticks, tick) && AlignToTick(price, tick) == Steps(Round(ticks) as real, tick)
  {
    ticks := InTicks(price, tick);
    AlignInTicks(price, ticks, tick);
  }

  lemma StepsOrder(a: real, b: real, tick: real)
    requires tick > 0.0
    ensures a <= b <==> Steps(a, tick) <= Steps(b, tick)
    ensures Steps(b, tick) - Steps(a, tick) == Steps(b - a, tick) && Steps(1.0, tick) == tick
  {
    ScaleOrder(a, b, tick);
  }

  /** Aligned levels keep their order; levels more than one tick apart stay strictly apart. */
  lemma AlignKeepsOrder(p: real, q: real, tick: real)
    requires p <= q
    ensures AlignToTick(p, tick) <= AlignToTick(q, tick)
    ensures tick > 0.0 && q - p > tick ==> AlignToTick(p, tick) < AlignToTick(q, tick)
  {
    if tick > 0.0 {
      var a := AlignInSteps(p, tick);
      var b := AlignInSteps(q, tick);
      StepsOrder(a, b, tick);
      StepsOrder(b - a, 1.0, tick);
      hide AlignToTick, Steps;
      RoundIsMonotone(a, b);
      hide Round;
      StepsOrder(Round(a) as real, Round(b) as real, tick);
      StepsOrder(Round(b) as real, Round(a) as real, tick);
    }
  }

  ghost predicate OnTickGrid(price: real, tick: real) {
    tick <= 0.0 || exists n: int {:trigger n as real} :: price == n as real * tick
  }

  /** From a reference on the grid, a level above and the same level below are mirror images. */
  lemma AlignMirrors(reference: real, distance: real, tick: real)
    requires OnTickGrid(reference, tick)
    ensures AlignToTick(reference + distance, tick) + AlignToTick(reference - distance, tick) == 2.0 * reference
  {
    if tick > 0.0 {
      hide AlignToTick;
      var n: int :| reference == n as real * tick;
      var y := InTicks(distance, tick);
      AlignMirrorsAt(n, y, tick);
    }
  }

  lemma AlignMirrorsAt(n: int, y: real, tick: real)
    requires tick > 0.0
    ensures var reference, distance := Steps(n as real, tick), Steps(y, tick);
      AlignToTick(reference + distance, tick) + AlignToTick(reference - distance, tick) == 2.0 * reference
  {
    hide Steps, AlignToTick, Round;
    SumOfTicks(n as real, y, tick);
    AlignSteps(n as real + y, tick);
    AlignSteps(n as real - y, tick);
    RoundMirrors(n, y);
    TwiceTicks(Round(n as real + y), Round(n as real - y), n, tick);
  }

  lemma AlignSteps(ticks: real, tick: real)
    requires tick > 0.0
    ensures AlignToTick(Steps(ticks, tick), tick) == Steps(Round(ticks) as real, tick)
  {
    AlignInTicks(ticks * tick, ticks, tick);
  }

  lemma SumOfTicks(n: real, y: real, tick: real)
    ensures Steps(n, tick) + Steps(y, tick) == Steps(n + y, tick) &&
      Steps(n, tick) - Steps(y, tick) == Steps(n - y, tick)
  {
  }

  lemma TwiceTicks(a: int, b: int, n: int, tick: real)
    requires a + b == 2 * n
    ensures Steps(a as real, tick) + Steps(b as real, tick) == 2.0 * Steps(n as real, tick)
  {
    assert a as real + b as real == 2.0 * n as real;
    assert a as real * tick + b as real * tick == (a as real + b as real) * tick;
  }

  // ---------------------------------------------------------------------------
  // Main results
  // ---------------------------------------------------------------------------

  ghost predicate MirrorLevels(l: Levels, s: Levels, reference: real) {
    && l.tp1 + s.tp1 == 2.0 * reference && l.tp2 + s.tp2 == 2.0 * reference
    && l.tp3 + s.tp3 == 2.0 * reference && l.sl + s.sl == 2.0 * reference
  }

  lemma LadderMirrors(reference: real, d1: real, d2: real, d3: real, stop: real, tick: real)
    requires OnTickGrid(reference, tick)
    ensures MirrorLevels(LadderLevels(Long, reference, d1, d2, d3, stop, tick),
      LadderLevels(Short, reference, d1, d2, d3, stop, tick), reference)
  {
    hide AlignToTick, OnTickGrid;
    AlignMirrors(reference, d1, tick);
    AlignMirrors(reference, d2, tick);
    AlignMirrors(reference, d3, tick);
    AlignMirrors(reference, -stop, tick);
  }

  ghost predicate AlignedLevels(l: Levels, tick: real) {
    IsTickAligned(l.tp1, tick) && IsTickAligned(l.tp2, tick) && IsTickAligned(l.tp3, tick) && IsTickAligned(l.sl, tick)
  }

  lemma AlignedPrice(price: real, tick: real)
    ensures IsTickAligned(AlignToTick(price, tick), tick)
  {
    if tick > 0.0 {
      var k := AlignedIsOnGrid(price, tick);
    }
  }

  lemma LadderIsAligned(side: Side, reference: real, d1: real, d2: real, d3: real, stop: real, tick: real)
    ensures AlignedLevels(LadderLevels(side, reference, d1, d2, d3, stop, tick), tick)
  {
    hide AlignToTick, IsTickAligned;
    AlignedPrice(Toward(side, reference, d1), tick);
    AlignedPrice(Toward(side, reference, d2), tick);
    AlignedPrice(Toward(side, reference, d3), tick);
    AlignedPrice(Toward(side, reference, -stop), tick);
  }

  /** The verdict depends on the distances of the levels only. */
  lemma AdmitMirrors(
    l: Levels, s: Levels, reference: real, step: real, profile: Profile, atr: real, broker: Broker, cost: Cost,
    balance: real)
    requires MirrorLevels(l, s, reference)
    requires AlignedLevels(l, broker.tick) && AlignedLevels(s, broker.tick)
    ensures var long := Admit(l, reference, step, profile, atr, broker, cost, balance);
      var short := Admit(s, reference, step, profile, atr, broker, cost, balance);
      MirrorAnswers(long, short, reference)
  {
    hide AllocateLegVolumes, IsTickAligned, MinStopDistance, RiskOk, GrossR, LossAtStop, AtrInBounds;
    assert Abs(l.sl - reference) == Abs(s.sl - reference) == Abs(reference - l.sl) == Abs(reference - s.sl);
    assert Abs(l.tp1 - reference) == Abs(s.tp1 - reference);
    assert Abs(l.tp2 - reference) == Abs(s.tp2 - reference);
    assert Abs(l.tp3 - reference) == Abs(s.tp3 - reference);
    hide Abs;
  }

  /** Same verdict, same reason, mirrored levels, everything else equal. */
  ghost predicate MirrorAnswers(long: Answer<Output>, short: Answer<Output>, reference: real) {
    if long.Rejected? then short == long
    else
      && short.Accepted?
      && MirrorLevels(LevelsOf(long.value), LevelsOf(short.value), reference)
      && long.value.step == short.value.step && long.value.grossR == short.value.grossR
      && long.value.loss == short.value.loss && long.value.volumes == short.value.volumes
  }

  function LevelsOf(o: Output): Levels {
    Levels(o.tp1, o.tp2, o.tp3, o.sl)
  }

  /** From a reference on the tick grid, long and short get the same verdict for the same reason,
      and accepted ladders are mirror images. */
  lemma GeometryMirrors(profile: Profile, reference: real, atr: real, broker: Broker, cost: Cost, balance: real)
    requires OnTickGrid(reference, broker.tick)
    ensures MirrorAnswers(CalculateGeometry(profile, Long, reference, atr, broker, cost, balance),
                          CalculateGeometry(profile, Short, reference, atr, broker, cost, balance), reference)
  {
    hide Admit, LadderLevels, OnTickGrid, CalculateStep, Times;
    var step := CalculateStep(profile, atr);
    if step.Accepted? {
      var x := step.value;
      var d1, d2, d3, stop :=
        Times(x, profile.tp1), Times(x, profile.tp2), Times(x, profile.tp3), Times(x, profile.stop);
      LadderMirrors(reference, d1, d2, d3, stop, broker.tick);
      LadderIsAligned(Long, reference, d1, d2, d3, stop, broker.tick);
      LadderIsAligned(Short, reference, d1, d2, d3, stop, broker.tick);
      AdmitMirrors(StepLevels(Long, reference, x, profile, broker.tick),
        StepLevels(Short, reference, x, profile, broker.tick),
                   reference, x, profile, atr, broker, cost, balance);
    }
  }

  // ---------------------------------------------------------------------------
  // What acceptance guarantees
  // ---------------------------------------------------------------------------

  /** The contract chain a TradeGroupSpec validates (execution/trade_group.py:296-305). */
  predicate ValidChain(side: Side, reference: real, l: Levels) {
    if side == Long then l.sl < reference < l.tp1 < l.tp2 < l.tp3 else l.tp3 < l.tp2 < l.tp1 < reference < l.sl
  }

  /** Levels at increasing distances keep their order, on the right sides of the reference; when
      the distances also differ by more than a tick they form a valid chain. */
  lemma LadderIsOrdered(side: Side, reference: real, d1: real, d2: real, d3: real, stop: real, tick: real)
    requires tick > 0.0 && OnTickGrid(reference, tick)
    requires 0.0 <= d1 <= d2 <= d3 && 0.0 <= stop
    ensures var l := LadderLevels(side, reference, d1, d2, d3, stop, tick);
      && (side == Long ==> l.sl <= reference <= l.tp1 <= l.tp2 <= l.tp3)
      && (side == Short ==> l.tp3 <= l.tp2 <= l.tp1 <= reference <= l.sl)
      && (d1 > tick && d2 - d1 > tick && d3 - d2 > tick && stop > tick ==> ValidChain(side, reference, l))
  {
    GridPointIsFixed(reference, tick);
    hide AlignToTick, OnTickGrid;
    if side == Long {
      AlignKeepsOrder(reference - stop, reference, tick);
      AlignKeepsOrder(reference, reference + d1, tick);
      AlignKeepsOrder(reference + d1, reference + d2, tick);
      AlignKeepsOrder(reference + d2, reference + d3, tick);
    } else {
      AlignKeepsOrder(reference, reference + stop, tick);
      AlignKeepsOrder(reference - d1, reference, tick);
      AlignKeepsOrder(reference - d2, reference - d1, tick);
      AlignKeepsOrder(reference - d3, reference - d2, tick);
    }
  }

  /** All ideal gaps of the ladder are wider than a tick. */
  predicate GapsExceed(step: real, p: Profile, tick: real) {
    && Times(step, p.tp1) > tick && Times(step, p.tp2 - p.tp1) > tick && Times(step, p.tp3 - p.tp2) > tick
    && Times(step, p.stop) > tick
  }

  /** The ladder of a step and increasing multipliers. */
  lemma StepLadderIsOrdered(side: Side, reference: real, step: real, p: Profile, tick: real)
    requires tick > 0.0 && OnTickGrid(reference, tick) && step > 0.0
    requires 0.0 <= p.tp1 <= p.tp2 <= p.tp3 && 0.0 <= p.stop
    ensures var l := StepLevels(side, reference, step, p, tick);
      && (side == Long ==> l.sl <= reference <= l.tp1 <= l.tp2 <= l.tp3)
      && (side == Short ==> l.tp3 <= l.tp2 <= l.tp1 <= reference <= l.sl)
      && (GapsExceed(step, p, tick) ==> ValidChain(side, reference, l))
  {
    TimesGrows(step, 0.0, p.tp1);
    TimesGrows(step, p.tp1, p.tp2);
    TimesGrows(step, p.tp2, p.tp3);
    TimesGrows(step, 0.0, p.stop);
    hide Times, LadderLevels, OnTickGrid;
    LadderIsOrdered(side, reference, Times(step, p.tp1), Times(step, p.tp2), Times(step, p.tp3), Times(step, p.stop),
      tick);
  }

  lemma TimesGrows(step: real, a: real, b: real)
    requires step > 0.0 && a <= b
    ensures Times(step, a) <= Times(step, b) && Times(step, b) - Times(step, a) == Times(step, b - a) &&
      Times(step, 0.0) == 0.0
  {
    NonNegativeProduct(step, b - a);
  }

  lemma GridPointIsFixed(price: real, tick: real)
    requires tick > 0.0 && OnTickGrid(price, tick)
    ensures AlignToTick(price, tick) == price
  {
    var n: int :| price == n as real * tick;
    AlignInTicks(price, n as real, tick);
    RoundIsNearest(n as real, n);
  }

  /** An accepted ladder is the aligned ladder: on the grid (never rejected for alignment), with the
      stop at least the broker minimum away and the first target beyond its costs. */
  lemma AcceptedGeometry(
    profile: Profile, side: Side, reference: real, atr: real, broker: Broker, cost: Cost, balance: real)
    ensures var answer := CalculateGeometry(profile, side, reference, atr, broker, cost, balance);
      && (answer.Rejected? ==> answer.reason != INVALID_TICK_ALIGNMENT)
      && (answer.Accepted? ==>
            var l := LevelsOf(answer.value);
            && CalculateStep(profile, atr) == Accepted(answer.value.step) && answer.value.step > 0.0
            && l == StepLevels(side, reference, answer.value.step, profile, broker.tick)
            && AlignedLevels(l, broker.tick)
            && Abs(l.sl - reference) >= MinStopDistance(broker) - EPS
            && Abs(l.tp1 - reference) > cost.roundTrip + cost.safetyBuffer + EPS
            && answer.value.loss <= profile.maxCash + EPS)
  {
    hide LadderLevels, IsTickAligned, MinStopDistance, AllocateLegVolumes, GrossR, LossAtStop, AtrInBounds, Abs, Times;
    var step := CalculateStep(profile, atr);
    if step.Accepted? {
      var x := step.value;
      LadderIsAligned(side, reference, Times(x, profile.tp1), Times(x, profile.tp2), Times(x, profile.tp3),
        Times(x, profile.stop), broker.tick);
    }
  }

  // ---------------------------------------------------------------------------
  // Break-even (execution/trade_geometry.py:500-540)
  // ---------------------------------------------------------------------------

  function Ceil(x: real): int {
    -((-x).Floor)
  }

  function Protection(cost: Cost, spread: real): real {
    spread + cost.exitSlippage + cost.commission
  }

  /** The fill moved by the protection, never to the losing side of the fill. */
  function ProtectedPrice(side: Side, fill: real, protection: real): real {
    var moved := Toward(side, fill, protection);
    if side == Long then (if moved >= fill then moved else fill) else (if moved <= fill then moved else fill)
  }

  /** The stop asked for: the protected price rounded away from the market. Division by a zero tick fails. */
  function ComputeBreakEven(side: Side, fill: real, cost: Cost, spread: real, tick: real): Answer<real> {
    if tick == 0.0 then Rejected(INVALID_TICK_ALIGNMENT)
    else
      var ticks := ProtectedPrice(side, fill, Protection(cost, spread)) / tick;
      Accepted(GridPrice(if side == Long then Ceil(ticks) else ticks.Floor, tick))
  }

  /** The price `n` ticks from zero. */
  function GridPrice(n: int, tick: real): real {
    n as real * tick
  }

  lemma GridOrder(n: int, ticks: real, price: real, tick: real)
    requires tick > 0.0 && price == ticks * tick
    ensures n as real <= ticks <==> GridPrice(n, tick) <= price
    ensures ticks <= n as real <==> price <= GridPrice(n, tick)
  {
    ScaleOrder(n as real, ticks, tick);
    ScaleOrder(ticks, n as real, tick);
  }

  lemma GridMonotone(m: int, n: int, tick: real)
    requires tick > 0.0 && m <= n
    ensures GridPrice(m, tick) <= GridPrice(n, tick)
  {
    ScaleOrder(m as real, n as real, tick);
  }

  /** Ceiling and floor of a price on the grid are the tightest grid prices above and below it. */
  lemma GridBracket(price: real, tick: real, n: int)
    requires tick > 0.0
    ensures var above := Ceil(price / tick); var below := (price / tick).Floor;
      && GridPrice(below, tick) <= price <= GridPrice(above, tick)
      && (GridPrice(n, tick) >= price ==> GridPrice(n, tick) >= GridPrice(above, tick))
      && (GridPrice(n, tick) <= price ==> GridPrice(n, tick) <= GridPrice(below, tick))
  {
    hide GridPrice;
    var ticks := InTicks(price, tick);
    Quotient(price, ticks, tick);
    var above, below := Ceil(ticks), ticks.Floor;
    GridOrder(n, ticks, price, tick);
    GridOrder(above, ticks, price, tick);
    GridOrder(below, ticks, price, tick);
    if above <= n { GridMonotone(above, n, tick); }
    if n <= below { GridMonotone(n, below, tick); }
  }

  /** The requested break-even is on the grid, protects at least the costs (and never less than the
      fill), and is the tightest grid price that does. */
  lemma BreakEvenIsTightest(side: Side, fill: real, cost: Cost, spread: real, tick: real, n: int) returns (k: int)
    requires tick > 0.0
    ensures ComputeBreakEven(side, fill, cost, spread, tick) == Accepted(GridPrice(k, tick))
    ensures var keep := if Protection(cost, spread) > 0.0 then Protection(cost, spread) else 0.0;
      && (side == Long ==> GridPrice(k, tick) >= fill + keep)
      && (side == Long && GridPrice(n, tick) >= fill + keep ==> GridPrice(n, tick) >= GridPrice(k, tick))
      && (side == Short ==> GridPrice(k, tick) <= fill - keep)
      && (side == Short && GridPrice(n, tick) <= fill - keep ==> GridPrice(n, tick) <= GridPrice(k, tick))
  {
    hide GridPrice;
    var price := ProtectedPrice(side, fill, Protection(cost, spread));
    k := if side == Long then Ceil(price / tick) else (price / tick).Floor;
    GridBracket(price, tick, n);
  }

  /** Break-even mirrors: reflecting the fill in a grid point reflects the requested price. */
  lemma BreakEvenMirrors(fill: real, grid: int, cost: Cost, spread: real, tick: real)
    requires tick > 0.0
    ensures var axis := 2.0 * (grid as real * tick);
      var long := ComputeBreakEven(Long, fill, cost, spread, tick);
      var short := ComputeBreakEven(Short, axis - fill, cost, spread, tick);
      long.Accepted? && short.Accepted? && long.value + short.value == axis
  {
    var axis := 2.0 * (grid as real * tick);
    var up := ProtectedPrice(Long, fill, Protection(cost, spread));
    var down := ProtectedPrice(Short, axis - fill, Protection(cost, spread));
    assert down == axis - up;
    var ticks := InTicks(up, tick);
    Quotient(up, ticks, tick);
    ReflectedTicks(grid, ticks, up, down, tick);
    assert (2.0 * grid as real - ticks).Floor == 2 * grid - Ceil(ticks);
    TwiceTicks(Ceil(ticks), 2 * grid - Ceil(ticks), grid, tick);
  }

  lemma ReflectedTicks(grid: int, ticks: real, up: real, down: real, tick: real)
    requires tick > 0.0 && up == ticks * tick && down == 2.0 * (grid as real * tick) - up
    ensures down / tick == 2.0 * grid as real - ticks
  {
    Quotient(down, 2.0 * grid as real - ticks, tick);
  }
}
