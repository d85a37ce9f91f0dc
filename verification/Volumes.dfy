/** Lot arithmetic: the group splitter, the netting closer and the volume ledger.
    Volumes are exact rationals; a volume is on the grid when it is a whole number of steps. */
module Volumes {

  datatype Result<+T> = Success(value: T) | Failure(reason: Reason)
  datatype Reason = BadArguments | InsufficientVolumeForThreeLegs

  /** The 1e-9 lot tolerance added before every allocation floor. */
  const LOT_EPS: real := 0.000000001

  /** Rounding toward zero (ROUND_DOWN). */
  function Trunc(x: real): int {
    if x >= 0.0 then x.Floor else -((-x).Floor)
  }

  function Part(lots: real, share: real): real {
    lots * share
  }

  /** The volume of so many steps. */
  function Steps(lots: real, step: real): real {
    lots * step
  }

  // ---------------------------------------------------------------------------
  // execution/trade_group.py:468-543
  // ---------------------------------------------------------------------------

  function FloorToStep(value: real, step: real): real {
    if step <= 0.0 then value else Trunc(value / step) as real * step
  }

  /** The whole lots in `value` once the tolerance is granted. */
  function AllocatedLots(value: real, step: real): int
    requires step > 0.0
  {
    Trunc(value / step + LOT_EPS)
  }

  datatype Legs = Legs(leg1: real, leg2: real, leg3: real)

  predicate Fillable(volume: real, minimum: real) {
    volume > 0.0 && volume >= minimum - LOT_EPS
  }

  function AllocateLegVolumes(
    total: real, share1: real, share2: real, step: real, minimum: real, allowShort: bool): Result<Legs> {
    if total <= 0.0 then Failure(BadArguments)
    else if step <= 0.0 || minimum <= 0.0 then Failure(BadArguments)
    else
      var leg1 := AllocatedLots(total * share1, step) as real * step;
      var leg2 := AllocatedLots(total * share2, step) as real * step;
      var leg3 := total - leg1 - leg2;
      if leg3 < -LOT_EPS then Failure(InsufficientVolumeForThreeLegs)
      else if !allowShort && !(Fillable(leg1, minimum) && Fillable(leg2, minimum) && Fillable(leg3, minimum)) then
        Failure(InsufficientVolumeForThreeLegs)
      else Success(Legs(leg1, leg2, leg3))
  }

  // ---------------------------------------------------------------------------
  // execution/mt5_netting_close.py:99-136
  // ---------------------------------------------------------------------------

  /** `cumulative` is the sum of the allocations of the legs up to and including `leg`. */
  function NettingCloseVolume(
    leg: nat, step: real, minimum: real, remaining: real, filled: real, closed: real, cumulative: real): real {
    if remaining <= 0.0 then 0.0
    else if leg == 3 then FloorToStep(remaining, step)
    else
      var desired := Part(filled, cumulative) - closed;
      var capped := if desired <= remaining then desired else remaining;
      var volume := FloorToStep(capped + step * LOT_EPS, step);
      if volume > 0.0 && volume < minimum - LOT_EPS then 0.0 else volume
  }

  // ---------------------------------------------------------------------------
  // From volumes to lots: every volume below is `lots * step`
  // ---------------------------------------------------------------------------

  lemma Quotient(volume: real, lots: real, step: real)
    requires step > 0.0 && volume == lots * step
    ensures volume / step == lots
  {
  }

  lemma ScaleOrder(a: real, b: real, step: real)
    requires step > 0.0
    ensures a <= b <==> a * step <= b * step
  {
  }

  /** Flooring a volume is flooring its lots. */
  lemma FloorLots(volume: real, lots: real, step: real)
    requires step > 0.0 && volume == lots * step
    ensures FloorToStep(volume, step) == Trunc(lots) as real * step
  {
    Quotient(volume, lots, step);
  }

  /** The netting closer in lots; `target` is the cumulative share of the filled lots. */
  function NettingLots(leg: nat, remaining: real, target: real, closed: real): int {
    if remaining <= 0.0 then 0
    else if leg == 3 then Trunc(remaining)
    else
      var desired := target - closed;
      Trunc((if desired <= remaining then desired else remaining) + LOT_EPS)
  }

  /** A partial close of this many lots is below the broker minimum. */
  predicate Unfillable(lots: int, step: real, minimum: real) {
    lots > 0 && lots as real * step < minimum - LOT_EPS
  }

  /** The lots a close of leg 1 or 2 is cut to; a full close at leg 3 is never cut. */
  function Cut(leg: nat, lots: int, step: real, minimum: real): int {
    if leg != 3 && Unfillable(lots, step, minimum) then 0 else lots
  }

  /** In lots, the netting close volume is exactly the floored lots, cut where they cannot be filled. */
  lemma NettingInLots(
    leg: nat, step: real, minimum: real, remaining: real, filled: real, closed: real, cumulative: real,
    remainingLots: real, target: real, closedLots: real)
    requires step > 0.0 && remaining == Steps(remainingLots, step) && closed == Steps(closedLots, step)
    requires Part(filled, cumulative) == Steps(target, step)
    ensures NettingCloseVolume(leg, step, minimum, remaining, filled, closed, cumulative)
         == Steps(Cut(leg, NettingLots(leg, remainingLots, target, closedLots), step, minimum) as real, step)
  {
    hide FloorToStep, Part, Trunc;
    ScaleOrder(remainingLots, 0.0, step);
    PositiveLots(NettingLots(leg, remainingLots, target, closedLots), step);
    if remaining > 0.0 {
      if leg == 3 {
        FloorLots(remaining, remainingLots, step);
      } else {
        DesiredLots(Part(filled, cumulative), closed, remaining, target, closedLots, remainingLots, step);
        var desired := Part(filled, cumulative) - closed;
        var desiredLots := target - closedLots;
        CappedFloor(if desired <= remaining then desired else remaining,
                    if desiredLots <= remainingLots then desiredLots else remainingLots, step);
      }
    }
  }

  lemma PositiveLots(lots: int, step: real)
    requires step > 0.0
    ensures lots > 0 <==> lots as real * step > 0.0
  {
  }

  lemma DesiredLots(
    share: real, closed: real, remaining: real, target: real, closedLots: real, remainingLots: real, step: real)
    requires step > 0.0 && share == target * step && closed == closedLots * step && remaining == remainingLots * step
    ensures share - closed == (target - closedLots) * step
    ensures share - closed <= remaining <==> target - closedLots <= remainingLots
  {
    ScaleOrder(target - closedLots, remainingLots, step);
  }

  lemma CappedFloor(volume: real, lots: real, step: real)
    requires step > 0.0 && volume == lots * step
    ensures FloorToStep(volume + step * LOT_EPS, step) == Trunc(lots + LOT_EPS) as real * step
  {
    FloorLots(volume + step * LOT_EPS, lots + LOT_EPS, step);
  }

  /** Rounding does not accumulate: whatever was closed before, closing leg 1 or 2 brings the
      total closed to the floor of the cumulative share, tolerance granted. */
  lemma CumulativeTarget(leg: nat, lots: nat, closed: nat, target: real)
    requires leg != 3 && closed < lots && 0.0 <= target <= lots as real
    requires closed <= (target + LOT_EPS).Floor
    ensures closed + NettingLots(leg, (lots - closed) as real, target, closed as real) == (target + LOT_EPS).Floor
    ensures (target + LOT_EPS).Floor <= lots
  {
    assert ((target + LOT_EPS) - closed as real).Floor == (target + LOT_EPS).Floor - closed;
  }

  /** The same for the volume the closer asks for, the cut below the minimum included. */
  lemma CumulativeVolume(leg: nat, lots: nat, closed: nat, cumulative: real, step: real, minimum: real)
    requires leg != 3 && closed < lots && step > 0.0 && 0.0 <= Part(lots as real, cumulative) <= lots as real
    requires closed <= (Part(lots as real, cumulative) + LOT_EPS).Floor
    ensures var due := (Part(lots as real, cumulative) + LOT_EPS).Floor - closed;
      NettingCloseVolume(leg, step, minimum, Steps((lots - closed) as real, step), Steps(lots as real, step),
        Steps(closed as real, step), cumulative)
        == Steps(if Unfillable(due, step, minimum) then 0.0 else due as real, step)
  {
    CumulativeTarget(leg, lots, closed, Part(lots as real, cumulative));
    ShareOfVolume(lots as real, cumulative, step);
    hide NettingCloseVolume, NettingLots, Part, Steps, Unfillable;
    NettingInLots(leg, step, minimum, Steps((lots - closed) as real, step), Steps(lots as real, step),
      Steps(closed as real, step), cumulative,
                  (lots - closed) as real, Part(lots as real, cumulative), closed as real);
  }

  lemma ShareOfVolume(lots: real, share: real, step: real)
    ensures Part(Steps(lots, step), share) == Steps(Part(lots, share), step)
  {
  }

  // ---------------------------------------------------------------------------
  // The two splitters
  // ---------------------------------------------------------------------------

  lemma AllocateLots(lots: real, share: real, step: real)
    requires step > 0.0
    ensures AllocatedLots(lots * step * share, step) == Trunc(lots * share + LOT_EPS)
  {
    Quotient(lots * step * share, lots * share, step);
  }

  /** A successful split of `lots * step` is exact; legs 1 and 2 are the largest grid volumes
      within their shares (tolerance granted); every leg can be filled. */
  lemma AllocationIsExact(lots: real, share1: real, share2: real, step: real, minimum: real, allowShort: bool, a: Legs)
    requires share1 >= 0.0 && share2 >= 0.0
    requires AllocateLegVolumes(lots * step, share1, share2, step, minimum, allowShort) == Success(a)
    ensures IsSplit(lots, share1, share2, step, a)
    ensures a.leg3 >= -LOT_EPS
    ensures !allowShort ==> Fillable(a.leg1, minimum) && Fillable(a.leg2, minimum) && Fillable(a.leg3, minimum)
  {
    ScaleOrder(lots, 0.0, step);
    NonNegativeProduct(lots, share1);
    NonNegativeProduct(lots, share2);
    AllocateLots(lots, share1, step);
    AllocateLots(lots, share2, step);
  }

  /** The lots a leg of the given share gets: the whole lots within it, tolerance granted. */
  function ShareLots(lots: real, share: real): int {
    (Part(lots, share) + LOT_EPS).Floor
  }

  /** `a` splits `lots * step` exactly, with whole lots within their shares for legs 1 and 2. */
  ghost predicate IsSplit(lots: real, share1: real, share2: real, step: real, a: Legs) {
    && a.leg1 == Steps(ShareLots(lots, share1) as real, step)
    && a.leg2 == Steps(ShareLots(lots, share2) as real, step)
    && a.leg1 + a.leg2 + a.leg3 == Steps(lots, step)
  }

  lemma NonNegativeProduct(a: real, b: real)
    requires a >= 0.0 && b >= 0.0
    ensures a * b >= 0.0
  {
  }

  /** What the netting closer takes for each leg of a position of `lots` whole steps. */
  function NettingVolumes(lots: nat, share1: real, share2: real, step: real, minimum: real): Legs {
    var total := Steps(lots as real, step);
    var leg1 := NettingCloseVolume(1, step, minimum, total, total, 0.0, share1);
    var leg2 := NettingCloseVolume(2, step, minimum, total - leg1, total, leg1, share1 + share2);
    Legs(leg1, leg2, NettingCloseVolume(3, step, minimum, total - leg1 - leg2, total, leg1 + leg2, 1.0))
  }

  /** The same in lots, for cumulative shares of `target1` and `target2` lots. */
  function NettingSplit(lots: nat, target1: real, target2: real, step: real, minimum: real): (int, int, int) {
    var n1 := Cut(1, NettingLots(1, lots as real, target1, 0.0), step, minimum);
    var n2 := Cut(2, NettingLots(2, (lots - n1) as real, target2, n1 as real), step, minimum);
    (n1, n2, NettingLots(3, (lots - n1 - n2) as real, lots as real, (n1 + n2) as real))
  }

  lemma NettingSplitIs(lots: nat, target1: real, target2: real, step: real, minimum: real)
    requires lots > 0 && 0.0 <= target1 <= target2 <= lots as real
    ensures var n := NettingSplit(lots, target1, target2, step, minimum);
      && n.0 == Cut(1, (target1 + LOT_EPS).Floor, step, minimum)
      && n.1 == Cut(2, (target2 + LOT_EPS).Floor - n.0, step, minimum)
      && n.0 + n.1 + n.2 == lots
      && 0 <= n.0 && 0 <= n.1 && 0 <= n.2
  {
    hide Unfillable;
    CumulativeTarget(1, lots, 0, target1);
    var n1 := Cut(1, (target1 + LOT_EPS).Floor, step, minimum);
    if n1 < lots {
      CumulativeTarget(2, lots, n1, target2);
    }
  }

  function InVolumes(n: (int, int, int), step: real): Legs {
    Legs(Steps(n.0 as real, step), Steps(n.1 as real, step), Steps(n.2 as real, step))
  }

  lemma VolumesInLots(lots: nat, share1: real, share2: real, step: real, minimum: real)
    requires step > 0.0
    ensures NettingVolumes(lots, share1, share2, step, minimum)
         == InVolumes(NettingSplit(lots, Part(lots as real, share1), Part(lots as real, share1 + share2), step,
           minimum), step)
  {
    var all := lots as real;
    var n := NettingSplit(lots, Part(all, share1), Part(all, share1 + share2), step, minimum);
    ShareOfVolume(all, share1, step);
    ShareOfVolume(all, share1 + share2, step);
    ShareOfVolume(all, 1.0, step);
    assert Part(all, 1.0) == all && Steps(0.0, step) == 0.0;
    Rest(all, n.0 as real, 0.0, step);
    Rest(all, n.0 as real, n.1 as real, step);
    hide NettingCloseVolume, NettingLots, Part, Steps, Unfillable;
    var total, leg1, leg2 := Steps(all, step), Steps(n.0 as real, step), Steps(n.1 as real, step);
    NettingInLots(1, step, minimum, total, total, 0.0, share1, all, Part(all, share1), 0.0);
    NettingInLots(2, step, minimum, total - leg1, total, leg1, share1 + share2, (lots - n.0) as real,
      Part(all, share1 + share2), n.0 as real);
    NettingInLots(3, step, minimum, total - leg1 - leg2, total, leg1 + leg2, 1.0, (lots - n.0 - n.1) as real, all,
      (n.0 + n.1) as real);
  }

  lemma Rest(lots: real, n1: real, n2: real, step: real)
    ensures Steps(lots, step) - Steps(n1, step) - Steps(n2, step) == Steps(lots - n1 - n2, step)
    ensures Steps(n1, step) + Steps(n2, step) == Steps(n1 + n2, step)
    ensures Steps(lots, step) - Steps(n1, step) == Steps(lots - n1, step)
  {
  }

  /** The splitters agree on leg 1 and by at most one step on legs 2 and 3. */
  ghost predicate Agree(a: Legs, v: Legs, step: real) {
    a.leg1 == v.leg1 && -step <= a.leg2 - v.leg2 <= step && -step <= a.leg3 - v.leg3 <= step
  }

  /** Both splitters split the whole position. They agree if and only if the closer's minimum does not
      cut leg 1, and does not cut leg 2 unless the allocation gives it at most one lot. */
  lemma SplittersAgreeIff(lots: nat, share1: real, share2: real, step: real, minimum: real, allowShort: bool, a: Legs)
    requires share1 >= 0.0 && share2 >= 0.0 && share1 + share2 <= 1.0
    requires AllocateLegVolumes(lots as real * step, share1, share2, step, minimum, allowShort) == Success(a)
    ensures var v := NettingVolumes(lots, share1, share2, step, minimum);
      var first, second :=
        ShareLots(lots as real, share1), ShareLots(lots as real, share1 + share2) - ShareLots(lots as real, share1);
      && a.leg1 + a.leg2 + a.leg3 == v.leg1 + v.leg2 + v.leg3
      && (Agree(a, v, step) <==>
            !Unfillable(first, step, minimum) &&
              (Unfillable(second, step, minimum) ==> ShareLots(lots as real, share2) <= 1))
  {
    AllocationIsExact(lots as real, share1, share2, step, minimum, allowShort, a);
    ScaleOrder(lots as real, 0.0, step);
    hide AllocateLegVolumes;
    SplitAgreesIff(lots, share1, share2, step, minimum, a);
  }

  lemma SplitAgreesIff(lots: nat, share1: real, share2: real, step: real, minimum: real, a: Legs)
    requires lots > 0 && step > 0.0 && share1 >= 0.0 && share2 >= 0.0 && share1 + share2 <= 1.0
    requires IsSplit(lots as real, share1, share2, step, a)
    ensures var v := NettingVolumes(lots, share1, share2, step, minimum);
      var first, second :=
        ShareLots(lots as real, share1), ShareLots(lots as real, share1 + share2) - ShareLots(lots as real, share1);
      && a.leg1 + a.leg2 + a.leg3 == v.leg1 + v.leg2 + v.leg3
      && (Agree(a, v, step) <==>
            !Unfillable(first, step, minimum) &&
              (Unfillable(second, step, minimum) ==> ShareLots(lots as real, share2) <= 1))
  {
    var all := lots as real;
    var x, y := Part(all, share1), Part(all, share2);
    Shares(all, share1, share2);
    VolumesInLots(lots, share1, share2, step, minimum);
    var n := NettingSplit(lots, x, x + y, step, minimum);
    LotsAgreeIff(lots, x, y, step, minimum);
    Rest(all, n.0 as real, n.1 as real, step);
    InSteps(ShareLots(all, share1), n.0, step);
    InSteps(ShareLots(all, share2), n.1, step);
    hide NettingVolumes, NettingSplit, Part, Steps, Unfillable;
    assert n.2 as real == all - n.0 as real - n.1 as real;
  }

  /** Volumes of whole lots are equal, or a step apart, exactly when their lots are. */
  lemma InSteps(m: int, n: int, step: real)
    requires step > 0.0
    ensures Steps(m as real, step) == Steps(n as real, step) <==> m == n
    ensures -step <= Steps(m as real, step) - Steps(n as real, step) <= step <==> -1 <= m - n <= 1
  {
    ScaleOrder(m as real, n as real, step);
    ScaleOrder(n as real, m as real, step);
    Rest(m as real, n as real, 0.0, step);
    WithinOneStep((m - n) as real, step);
  }

  lemma WithinOneStep(z: real, step: real)
    requires step > 0.0
    ensures -step <= Steps(z, step) <= step <==> -1.0 <= z <= 1.0
  {
    var p := Steps(z, step);
    AtMostOneStep(z, step, p);
    AtMostOneStep(-z, step, -p);
  }

  lemma AtMostOneStep(z: real, step: real, p: real)
    requires step > 0.0 && p == z * step
    ensures p <= step <==> z <= 1.0
  {
    var gap := (1.0 - z) * step;
    assert gap == step - p;
    assert z <= 1.0 ==> gap >= 0.0;
    assert z > 1.0 ==> gap < 0.0;
  }

  lemma LotsAgreeIff(lots: nat, x: real, y: real, step: real, minimum: real)
    requires lots > 0 && x >= 0.0 && y >= 0.0 && x + y <= lots as real
    ensures var n := NettingSplit(lots, x, x + y, step, minimum);
      var first, second, third :=
        (x + LOT_EPS).Floor, (x + y + LOT_EPS).Floor - (x + LOT_EPS).Floor, (y + LOT_EPS).Floor;
      && n.0 + n.1 + n.2 == lots
      && ((first == n.0 && -1 <= third - n.1 <= 1) <==>
        !Unfillable(first, step, minimum) && (Unfillable(second, step, minimum) ==> third <= 1))
  {
    NettingSplitIs(lots, x, x + y, step, minimum);
    FloorsOfSum(x, y);
  }

  /** Short legs forbidden, and still leg 2 differs by five steps: the tolerance lets both legs of the
      allocation round up, the cumulative share only once, and what is left is below the minimum. */
  lemma MinimumCutsSecondLeg()
    ensures var share := 4.9999999991 / 15.0;
      var a, v := AllocateLegVolumes(15.0, share, share, 1.0, 5.0, false), NettingVolumes(15, share, share, 1.0, 5.0);
      a == Success(Legs(5.0, 5.0, 5.0)) && v.leg1 == 5.0 && v.leg2 == 0.0
  {
    var share := 4.9999999991 / 15.0;
    assert 15.0 * share == 4.9999999991 && 15.0 * (share + share) == 9.9999999982;
    assert (4.9999999991 + LOT_EPS).Floor == 5 && (9.9999999982 - 5.0 + LOT_EPS).Floor == 4;
  }

  /** Short legs allowed: leg 1 of the allocation is below the minimum, so the closer takes nothing. */
  lemma MinimumCutsFirstLeg()
    ensures var share := 1.0 / 3.0;
      var a, v := AllocateLegVolumes(0.09, share, share, 0.01, 0.05, true), NettingVolumes(9, share, share, 0.01, 0.05);
      a.Success? && a.value.leg1 == 0.03 && v.leg1 == 0.0
  {
    assert 0.09 * (1.0 / 3.0) == 0.03;
  }

  lemma Shares(lots: real, share1: real, share2: real)
    requires lots > 0.0 && share1 >= 0.0 && share2 >= 0.0 && share1 + share2 <= 1.0
    ensures Part(lots, share1 + share2) == Part(lots, share1) + Part(lots, share2) <= lots
    ensures 0.0 <= Part(lots, share1) && 0.0 <= Part(lots, share2)
  {
    NonNegativeProduct(lots, share1);
    NonNegativeProduct(lots, share2);
    NonNegativeProduct(lots, 1.0 - share1 - share2);
  }

  lemma FloorsOfSum(x: real, y: real)
    ensures -1 <= (y + LOT_EPS).Floor - ((x + y + LOT_EPS).Floor - (x + LOT_EPS).Floor) <= 1
  {
  }
}
