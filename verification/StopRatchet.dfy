/** The break-even stop ratchet of the three-leg trader (execution/mt5_trader.py). Prices are in units
    of the symbol's last digit, so stops are whole numbers; a stop of 0 or less is none. */
module StopRatchet {
  import opened Wrappers
  import Geometry

  type Side = Geometry.Side

  /** The stop and freeze levels of a symbol, in points, and its point; each may be missing. */
  datatype SymbolInfo = SymbolInfo(stopsLevel: Option<real>, freezeLevel: Option<real>, point: Option<real>)

  datatype Quote = Quote(ask: real, bid: real, info: SymbolInfo)

  /** What the broker does with a modify request: whether it moves the stop, and whether it says so.
      It never claims a move it did not make. */
  datatype Answer = Moved | MovedSilently | Refused

  /** One attempt; no quote when the symbol or its tick is missing. */
  datatype Attempt = Attempt(quote: Option<Quote>, answer: Answer)

  function OrZero(x: Option<real>): real {
    if x.None? then 0.0 else x.value
  }

  /** `_be_min_dist`: the larger of the two broker levels, in price. */
  function MinDistance(info: SymbolInfo): real {
    var stops, freeze := OrZero(info.stopsLevel), OrZero(info.freezeLevel);
    (if stops >= freeze then stops else freeze) * OrZero(info.point)
  }

  /** One unit past the entry, on the profitable side. */
  function Target(side: Side, anchor: real): int {
    Geometry.Round(if side.Long? then anchor + 1.0 else anchor - 1.0)
  }

  /** The tightest stop the broker takes. */
  function Tightest(side: Side, q: Quote): int {
    Geometry.Round(if side.Long? then q.ask - MinDistance(q.info) else q.bid + MinDistance(q.info))
  }

  function TighterOf(side: Side, x: int, y: int): int {
    if side.Long? then (if x >= y then x else y) else (if x <= y then x else y)
  }

  function LooserOf(side: Side, x: int, y: int): int {
    if side.Long? then (if x <= y then x else y) else (if x >= y then x else y)
  }

  predicate StrictlyTighter(side: Side, x: int, y: int) {
    if side.Long? then x > y else x < y
  }

  /** What an attempt asks for: the target, or what the broker allows. */
  function Level(side: Side, anchor: real, q: Quote): int {
    LooserOf(side, Target(side, anchor), Tightest(side, q))
  }

  class Leg {
    const side: Side
    const anchor: real
    var stop: int
    var beDone: bool

    constructor (side: Side, anchor: real, stop: int)
      ensures this.side == side && this.anchor == anchor && this.stop == stop && !beDone
    {
      this.side, this.anchor, this.stop, beDone := side, anchor, stop, false;
    }

    method MoveSlToEntry(attempt: Attempt) returns (ok: bool)
      modifies this`stop
      ensures stop == StopAfter(side, anchor, old(stop), attempt)
      ensures ok == Reports(side, anchor, old(stop), attempt)
    {
      if attempt.quote.None? {
        return false;
      }
      var target := Target(side, anchor);
      var allowed := Tightest(side, attempt.quote.value);
      var clamped := StrictlyTighter(side, target, allowed);
      if clamped {
        target := allowed;
      }
      if stop > 0 && !StrictlyTighter(side, target, stop) {
        return false;
      }
      if !attempt.answer.Refused? {
        stop := target;
      }
      ok := attempt.answer.Moved? && !clamped;
    }

    /** The retry at every check until a move is reported at the target. */
    method CheckBreakEven(attempts: seq<Attempt>)
      modifies this
      ensures !old(beDone) ==> (stop, beDone) == Run(side, anchor, old(stop), attempts)
      ensures old(beDone) ==> stop == old(stop) && beDone
    {
      for i := 0 to |attempts|
        invariant !old(beDone) ==> (stop, beDone) == Run(side, anchor, old(stop), attempts[..i])
        invariant old(beDone) ==> stop == old(stop) && beDone
      {
        assert attempts[..i + 1][..i] == attempts[..i];
        if !beDone {
          var ok := MoveSlToEntry(attempts[i]);
          if ok {
            beDone := true;
          }
        }
      }
      assert attempts[..|attempts|] == attempts;
    }
  }

  // ---------------------------------------------------------------------------
  // One attempt and many
  // ---------------------------------------------------------------------------

  /** The request goes out: no stop is set, or the new one is strictly tighter. */
  predicate Sends(side: Side, anchor: real, stop: int, a: Attempt) {
    a.quote.Some? && (stop <= 0 || StrictlyTighter(side, Level(side, anchor, a.quote.value), stop))
  }

  function StopAfter(side: Side, anchor: real, stop: int, a: Attempt): int {
    if Sends(side, anchor, stop, a) && !a.answer.Refused? then Level(side, anchor, a.quote.value) else stop
  }

  predicate Reports(side: Side, anchor: real, stop: int, a: Attempt) {
    Sends(side, anchor, stop, a) && a.answer.Moved? && Level(side, anchor, a.quote.value) == Target(side, anchor)
  }

  /** The stop and the done flag after the attempts; nothing is tried once done. */
  function Run(side: Side, anchor: real, stop: int, attempts: seq<Attempt>): (int, bool) {
    if attempts == [] then (stop, false)
    else
      var (s, done) := Run(side, anchor, stop, attempts[..|attempts| - 1]);
      var last := attempts[|attempts| - 1];
      if done then (s, true) else (StopAfter(side, anchor, s, last), Reports(side, anchor, s, last))
  }

  /** The tightest of the initial stop and the levels of the attempts the broker carried out before
      break-even was reported. */
  function TightestSeen(side: Side, anchor: real, stop: int, attempts: seq<Attempt>): int {
    if attempts == [] then stop
    else
      var rest, last := attempts[..|attempts| - 1], attempts[|attempts| - 1];
      var seen := TightestSeen(side, anchor, stop, rest);
      if Run(side, anchor, stop, rest).1 || last.quote.None? || last.answer.Refused? then seen
      else TighterOf(side, seen, Level(side, anchor, last.quote.value))
  }

  /** Over any quotes and answers the stop is that tightest level. */
  lemma {:induction false} RatchetIsTightest(side: Side, anchor: real, stop: int, attempts: seq<Attempt>)
    requires stop > 0 && Target(side, anchor) > 0
    ensures Run(side, anchor, stop, attempts).0 == TightestSeen(side, anchor, stop, attempts) > 0
  {
    hide Target, Tightest;
    if attempts != [] {
      RatchetIsTightest(side, anchor, stop, attempts[..|attempts| - 1]);
    }
  }

  /** A set stop is never loosened. */
  lemma {:induction false} NeverLoosens(side: Side, anchor: real, stop: int, attempts: seq<Attempt>, n: nat)
    requires stop > 0 && Target(side, anchor) > 0 && n <= |attempts|
    ensures var early, late := Run(side, anchor, stop, attempts[..n]).0, Run(side, anchor, stop, attempts).0;
      late == early || StrictlyTighter(side, late, early)
    decreases |attempts|
  {
    hide Target, Tightest;
    if n == |attempts| {
      assert attempts[..n] == attempts;
    } else {
      var rest := attempts[..|attempts| - 1];
      assert rest[..n] == attempts[..n];
      NeverLoosens(side, anchor, stop, rest, n);
      RatchetIsTightest(side, anchor, stop, rest);
    }
  }

  /** Break-even is reported only with the stop exactly at the target, and stays there. */
  lemma {:induction false} DoneMeansAtTarget(side: Side, anchor: real, stop: int, attempts: seq<Attempt>)
    requires Run(side, anchor, stop, attempts).1
    ensures Run(side, anchor, stop, attempts).0 == Target(side, anchor)
  {
    hide Target, Tightest;
    if attempts != [] {
      var rest := attempts[..|attempts| - 1];
      if Run(side, anchor, stop, rest).1 {
        DoneMeansAtTarget(side, anchor, stop, rest);
      }
    }
  }

  ghost predicate Done(side: Side, anchor: real, stop: int, attempts: seq<Attempt>) {
    Run(side, anchor, stop, attempts).1
  }

  /** Break-even can still be reported exactly while the stop is unset or short of the target: once a
      move to the target went unreported, it never is. */
  lemma CanReportIff(side: Side, anchor: real, stop: int)
    ensures (exists attempts :: Done(side, anchor, stop, attempts)) <==>
      stop <= 0 || StrictlyTighter(side, Target(side, anchor), stop)
  {
    if stop <= 0 || StrictlyTighter(side, Target(side, anchor), stop) {
      var t := Target(side, anchor);
      var a := Attempt(Some(Quote(t as real, t as real, SymbolInfo(None, None, None))), Moved);
      assert Tightest(side, a.quote.value) == t by { RoundOfWhole(t); }
      var attempts := [a];
      assert attempts[..0] == [];
      assert Done(side, anchor, stop, attempts);
    } else {
      forall attempts ensures !Done(side, anchor, stop, attempts) {
        NeverReports(side, anchor, stop, attempts);
      }
    }
  }

  lemma RoundOfWhole(t: int)
    ensures Geometry.Round(t as real) == t && Geometry.Round(t as real - 0.0) == t &&
      Geometry.Round(t as real + 0.0) == t
  {
  }

  lemma {:induction false} NeverReports(side: Side, anchor: real, stop: int, attempts: seq<Attempt>)
    requires stop > 0 && !StrictlyTighter(side, Target(side, anchor), stop)
    ensures Run(side, anchor, stop, attempts) == (stop, false)
  {
    hide Target, Tightest;
    if attempts != [] {
      NeverReports(side, anchor, stop, attempts[..|attempts| - 1]);
    }
  }
}
