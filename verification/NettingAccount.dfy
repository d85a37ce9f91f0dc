/** The netting closer working on a live aggregate position
    (execution/mt5_netting_close.py:38-150). The position is on the volume grid, so the ledger
    counts whole steps; `Volumes.NettingInLots` ties these counts to volumes. The broker is
    honest: an accepted close removes exactly the volume it reports, which may be less than
    was asked for. */
module NettingAccount {
  import opened Volumes

  class Account {
    const step: real
    const minimum: real
    const share1: real
    const share2: real
    const share3: real

    var remaining: int       // the broker's position
    var totalFilled: int     // the group's volume ledger
    var totalClosed: int
    var marked: set<nat>     // CLOSE-TPk action ids

    ghost predicate Valid()
      reads this
    {
      && step > 0.0 && share1 > 0.0 && share2 > 0.0 && share3 > 0.0
      && 0 <= totalClosed && 0 <= remaining
      && remaining + totalClosed == totalFilled
    }

    constructor (step: real, minimum: real, share1: real, share2: real, share3: real, lots: nat)
      requires step > 0.0 && share1 > 0.0 && share2 > 0.0 && share3 > 0.0
      ensures Valid() && totalFilled == lots && totalClosed == 0 && marked == {}
      ensures this.step == step && this.minimum == minimum
      ensures this.share1 == share1 && this.share2 == share2 && this.share3 == share3
    {
      this.step, this.minimum := step, minimum;
      this.share1, this.share2, this.share3 := share1, share2, share3;
      this.remaining, this.totalFilled, this.totalClosed, this.marked := lots, lots, 0, {};
    }

    function Cumulative(leg: nat): real {
      if leg == 1 then share1 else if leg == 2 then share1 + share2 else share1 + share2 + share3
    }

    /** The cumulative share of a filled position, in lots. */
    function Target(leg: nat, filled: int): real {
      filled as real * Cumulative(leg)
    }

    /** The whole lots within the cumulative share, tolerance granted, capped by the position. */
    ghost function TargetLots(leg: nat, filled: int): int {
      WholeLots(Target(leg, filled), filled)
    }

    /** The lots asked for by one netting close; 0 when nothing can be filled. */
    function CloseLots(leg: nat): int
      reads this
    {
      Cut(leg, NettingLots(leg, remaining as real, Target(leg, totalFilled), totalClosed as real), step, minimum)
    }

    /** In volumes, these are exactly what the netting closer computes. */
    lemma CloseLotsAreVolumes(leg: nat)
      requires Valid()
      ensures NettingCloseVolume(leg, step, minimum, Steps(remaining as real, step), Steps(totalFilled as real, step),
        Steps(totalClosed as real, step), Cumulative(leg))
           == Steps(CloseLots(leg) as real, step)
    {
      ShareOfVolume(totalFilled as real, Cumulative(leg), step);
      assert Part(totalFilled as real, Cumulative(leg)) == Target(leg, totalFilled);
      hide NettingCloseVolume, NettingLots, Part, Steps, Unfillable;
      NettingInLots(leg, step, minimum, Steps(remaining as real, step), Steps(totalFilled as real, step),
        Steps(totalClosed as real, step), Cumulative(leg),
                    remaining as real, Target(leg, totalFilled), totalClosed as real);
    }

    /** One netting close. The broker leaves `unfilled` lots of an accepted order unfilled, but
        always fills at least one. */
    method CloseLeg(leg: nat, accepted: bool, unfilled: nat) returns (done: bool)
      requires Valid() && leg in {1, 2, 3}
      modifies this`remaining, this`totalClosed, this`marked
      // conservation: position and ledger always add up to what was filled, and nothing is over-closed
      ensures Valid() && totalFilled == old(totalFilled) && totalClosed >= old(totalClosed)
      // a leg is filled at most once, and only by an accepted order; anything else changes nothing
      ensures done ==>
        accepted && leg !in old(marked) && marked == old(marked) + {leg} && totalClosed > old(totalClosed)
      ensures !done ==> marked == old(marked) && totalClosed == old(totalClosed)
      ensures leg !in old(marked) && accepted && old(CloseLots(leg)) > 0 ==> done
      // rounding does not accumulate, whatever the earlier legs left behind
      ensures done && leg != 3 && old(totalClosed) <= TargetLots(leg, totalFilled) ==>
        totalClosed <= TargetLots(leg, totalFilled)
      ensures done && leg != 3 && old(totalClosed) <= TargetLots(leg, totalFilled) && unfilled == 0 ==>
        totalClosed == TargetLots(leg, totalFilled)
      // TP3 leaves nothing
      ensures done && leg == 3 && unfilled == 0 ==> remaining == 0
    {
      if leg in marked {
        return false;
      }
      var lots := CloseLots(leg);
      if lots <= 0 || !accepted {
        return false;
      }
      assert lots <= remaining && (leg == 3 ==> lots == remaining)
             && (leg != 3 && totalClosed <= TargetLots(leg, totalFilled) ==>
               totalClosed + lots == TargetLots(leg, totalFilled)) by {
        assert Target(leg, totalFilled) >= 0.0 by { NonNegativeProduct(totalFilled as real, Cumulative(leg)); }
        LotsOf(leg, totalFilled, totalClosed, Target(leg, totalFilled));
      }
      var fill := if unfilled < lots then lots - unfilled else 1;
      remaining, totalClosed, marked := remaining - fill, totalClosed + fill, marked + {leg};
      done := true;
    }

    /** The ladder on a fresh position with full fills: the three closes add up to the position and
        end at the two cumulative targets and at zero, provided each of them can be filled. */
    method Ladder() returns (n1: int, n2: int, n3: int)
      requires Valid() && totalClosed == 0 && marked == {}
      requires TargetLots(1, totalFilled) >= 1 && TargetLots(2, totalFilled) > TargetLots(1, totalFilled)
      requires TargetLots(2, totalFilled) < totalFilled
      requires !Unfillable(TargetLots(1, totalFilled), step, minimum) &&
        !Unfillable(TargetLots(2, totalFilled) - TargetLots(1, totalFilled), step, minimum)
      modifies this`remaining, this`totalClosed, this`marked
      ensures Valid() && remaining == 0 && totalFilled == old(totalFilled)
      ensures n1 == TargetLots(1, totalFilled) && n1 + n2 == TargetLots(2, totalFilled) && n1 + n2 + n3 == totalFilled
    {
      NonNegativeProduct(totalFilled as real, Cumulative(1));
      NonNegativeProduct(totalFilled as real, Cumulative(2));
      LotsOf(1, totalFilled, totalClosed, Target(1, totalFilled));
      var done := CloseLeg(1, true, 0);
      n1 := totalClosed;
      LotsOf(2, totalFilled, totalClosed, Target(2, totalFilled));
      done := CloseLeg(2, true, 0);
      n2 := totalClosed - n1;
      done := CloseLeg(3, true, 0);
      n3 := totalClosed - n1 - n2;
    }
  }

  ghost function WholeLots(target: real, lots: int): int {
    ((if target <= lots as real then target else lots as real) + LOT_EPS).Floor
  }

  lemma LotsOf(leg: nat, lots: nat, closed: nat, target: real)
    requires closed <= lots && target >= 0.0
    ensures var asked := NettingLots(leg, (lots - closed) as real, target, closed as real);
      && asked <= lots - closed
      && (leg == 3 ==> asked == lots - closed)
      && (leg != 3 && closed < lots && closed <= WholeLots(target, lots) ==> closed + asked == WholeLots(target, lots))
  {
    var capped := if target <= lots as real then target else lots as real;
    if leg != 3 && closed < lots && closed <= WholeLots(target, lots) {
      CumulativeTarget(leg, lots, closed, capped);
    }
  }
}
