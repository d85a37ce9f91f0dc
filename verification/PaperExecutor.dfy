/** The paper driver and the paper lifecycle (execution/trade_group_executor.py). */
module PaperExecutor {
  import opened GroupStates
  import opened Wrappers
  import opened Codecs
  import opened Terminal
  import opened Geometry
  import opened Volumes
  import opened TradeGroupStore
  import opened ProtocolInvariant
  import opened ProtocolSteps

  datatype PaperPosition = PaperPosition(volume: real, sl: real, tp: real)

  /** The simulated broker. On a netting account legs 2 and 3 share the position of leg 1. */
  class PaperDriver {
    const netting: bool
    var positions: map<string, PaperPosition>
    var orderSeq: nat
    var rejectModify: bool

    constructor (netting: bool)
      ensures this.netting == netting && positions == map[] && orderSeq == 0 && !rejectModify
    {
      this.netting := netting;
      positions, orderSeq, rejectModify := map[], 0, false;
    }

    /** A restart begins with a new driver: what the old one simulated is gone. */
    method Restart()
      modifies this
      ensures positions == map[] && orderSeq == 0 && !rejectModify
    {
      positions, orderSeq, rejectModify := map[], 0, false;
    }

    method SubmitLeg(gid: string, leg: nat, volume: real, sl: real, tp: real)
      modifies this`positions, this`orderSeq
      ensures orderSeq == old(orderSeq) + 1
      ensures positions == if netting && leg > 1 then old(positions)
        else old(positions)[NewLegId(gid, leg) := PaperPosition(volume, sl, tp)]
    {
      orderSeq := orderSeq + 1;
      if !(netting && leg > 1) {
        positions := positions[NewLegId(gid, leg) := PaperPosition(volume, sl, tp)];
      }
    }

    /** `_resolve_ref`: a virtual leg routes to the physical leg 1 of its group. */
    function ResolveRef(reference: string): string
      reads this`positions
    {
      var physical := NewLegId(GroupOfReference(reference), 1);
      if netting && reference !in positions && physical in positions then physical else reference
    }

    function QuerySl(reference: string): Option<real>
      reads this`positions
    {
      var ref := ResolveRef(reference);
      if ref in positions then Some(positions[ref].sl) else None
    }

    method ModifySl(reference: string, sl: real) returns (accepted: bool)
      modifies this`positions
      ensures accepted <==> !rejectModify && old(QuerySl(reference)).Some?
      ensures !accepted ==> positions == old(positions)
      ensures accepted ==> QuerySl(reference) == Some(sl)
      ensures forall other :: QuerySl(other).Some? == old(QuerySl(other).Some?)
      ensures forall other :: old(QuerySl(other)) == Some(sl) ==> QuerySl(other) == Some(sl)
      ensures accepted ==> var ref := old(ResolveRef(reference));
        positions == old(positions)[ref := old(positions)[ref].(sl := sl)]
    {
      var ref := ResolveRef(reference);
      if rejectModify || ref !in positions { return false; }
      positions := positions[ref := positions[ref].(sl := sl)];
      accepted := true;
    }

    /** Every leg of a group with a physical leg 1 has a stop to query, virtual or not. */
    lemma VirtualLegsResolve(gid: string, leg: nat)
      requires netting && NewLegId(gid, 1) in positions
      ensures QuerySl(NewLegId(gid, leg)).Some?
      ensures NewLegId(gid, leg) !in positions ==> ResolveRef(NewLegId(gid, leg)) == NewLegId(gid, 1)
    {
      LegIdRoundTrip(gid, leg);
    }
  }

  /** The stored states form a path ending in the stored state; entry orders left at most once. */
  ghost predicate PaperInv(rec: GroupRecord)
    reads rec
  {
    && IsHistory(rec.log.history) && Last(rec.log.history) == rec.row.state
    && (forall leg :: rec.log.legOrders[leg] <= 1)
    && (!rec.row.submitted ==> rec.log.legOrders == multiset{})
  }

  class Executor {
    const env: Env
    const driver: PaperDriver
    const maxBe: nat
    const cost: Cost
    const spread: real
    const tick: real
    const allowDemo: bool
    var groups: seq<GroupRecord>

    constructor (env: Env, driver: PaperDriver, maxBe: nat, cost: Cost, spread: real, tick: real, allowDemo: bool)
      ensures this.env == env && this.driver == driver && this.maxBe == maxBe && groups == []
    {
      groups := [];
      this.env, this.driver, this.maxBe, this.cost := env, driver, maxBe, cost;
      this.spread, this.tick, this.allowDemo := spread, tick, allowDemo;
    }

    /** One store write along a table edge (or a stutter). */
    method Write(rec: GroupRecord, state: GroupState, patch: Patch) returns (r: Res<()>)
      requires PaperInv(rec) && Step(rec.row.state, state)
      modifies env, rec`row, rec`log, rec`times
      ensures PaperInv(rec)
      ensures r.Ok? ==> rec.row == Patched(old(rec.row), state, patch)
      ensures r.Err? ==> rec.row == old(rec.row)
    {
      ExtendHistory(rec.log.history, state);
      r := rec.UpdateGroupState(env, state, patch);
    }

    /** `submit_group`: the submitted flag is claimed before the first leg is sent. */
    method SubmitGroup(rec: GroupRecord) returns (r: Res<()>)
      requires PaperInv(rec)
      modifies env, rec, driver
      ensures PaperInv(rec)
      ensures old(rec.row.submitted) ==>
        r.Err? && rec.row == old(rec.row) && rec.log.legOrders == old(rec.log.legOrders)
      ensures r.Ok? ==> rec.row.state == SUBMITTED && NewLegId(rec.gid, 1) in driver.positions
      ensures r.Ok? ==>
        |rec.row.legs| == 3 && forall k :: 0 <= k < 3 ==> rec.row.legs[k] == PaperLeg(rec.row.spec, k + 1)
    {
      var first := rec.TryMarkSubmitted(env);
      if first.Err? || !first.value { return Err; }
      if !ValidTransition(rec.row.state, SUBMITTED) { return Err; }
      var spec := rec.row.spec;
      var legs: seq<Leg> := [];
      for k := 1 to 4
        invariant rec.row == old(rec.row).(submitted := true) && PaperInv(rec)
        invariant |legs| == k - 1 && forall j :: 0 <= j < k - 1 ==> legs[j] == PaperLeg(spec, j + 1)
        invariant forall j :: j >= k ==> rec.log.legOrders[j] == 0
        invariant k > 1 ==> NewLegId(rec.gid, 1) in driver.positions
      {
        var share := if k == 1 then spec.share1 else if k == 2 then spec.share2 else spec.share3;
        var tp := if k == 1 then spec.tp1 else if k == 2 then spec.tp2 else spec.tp3;
        driver.SubmitLeg(rec.gid, k, Part(spec.totalVolume, share), spec.sl, tp);
        rec.log := rec.log.(legOrders := rec.log.legOrders + multiset{k});
        legs := legs + [PaperLeg(spec, k)];
      }
      r := Write(rec, SUBMITTED, NO_PATCH.(legs := Some(legs)));
    }

    /** `_ensure_open`: the first market event of a submitted group opens it. */
    method EnsureOpen(rec: GroupRecord) returns (r: Res<()>)
      requires PaperInv(rec)
      modifies env, rec`row, rec`log, rec`times
      ensures PaperInv(rec)
      ensures rec.row == old(rec.row) || rec.row == old(rec.row).(state := OPENED)
      ensures r.Ok? ==> rec.row.state == if old(rec.row.state) == SUBMITTED then OPENED else old(rec.row.state)
    {
      r := Ok(());
      if rec.row.state == SUBMITTED {
        r := Write(rec, OPENED, NO_PATCH);
      }
    }

    /** `on_leg_filled` for leg 1. */
    method OnFirstLegFilled(rec: GroupRecord, price: real) returns (r: Res<()>)
      requires PaperInv(rec)
      modifies env, rec`row, rec`log, rec`times
      ensures PaperInv(rec)
      ensures r.Ok? ==>
        && (old(rec.row.state) == SUBMITTED || old(rec.row.state) == OPENED)
        && FilledSpec(old(rec.row.spec), price).Some?
        && rec.row == Row(FilledSpec(old(rec.row.spec), price).value, TP1_FILLED, CloseLegState(old(rec.row.legs), 1),
                          old(rec.row.be), old(rec.row.comp), old(rec.row.volume), true)
    {
      var _ :- EnsureOpen(rec);
      if !ValidTransition(rec.row.state, TP1_FILLED) { return Err; }
      var spec := FilledSpec(rec.row.spec, price);
      if spec.None? { return Err; }
      ExtendHistory(rec.log.history, TP1_FILLED);
      r := rec.SaveGroup(env, spec.value, TP1_FILLED, CloseLegState(rec.row.legs, 1), rec.row.be, true, None);
    }

    /** `_on_tp_leg_filled`: leg 2 only after a confirmed break-even, leg 3 only after leg 2. */
    method OnTargetFilled(rec: GroupRecord, leg: nat) returns (r: Res<()>)
      requires PaperInv(rec)
      modifies env, rec`row, rec`log, rec`times
      ensures PaperInv(rec)
      ensures r.Ok? ==>
        || (leg == 2 && old(rec.row.state) == BE_CONFIRMED
            && rec.row == old(rec.row).(state := TP2_FILLED, legs := CloseLegState(old(rec.row.legs), 2)))
        || (leg == 3 && old(rec.row.state) == TP2_FILLED
            && rec.row == old(rec.row).(state := RECONCILED, legs := CloseLegState(old(rec.row.legs), 3)))
    {
      if leg == 2 {
        var _ :- EnsureOpen(rec);
        if !ValidTransition(rec.row.state, TP2_FILLED) { return Err; }
        r := Write(rec, TP2_FILLED, NO_PATCH.(legs := Some(CloseLegState(rec.row.legs, 2))));
      } else if leg == 3 {
        if !ValidTransition(rec.row.state, TP3_FILLED) { return Err; }
        var legs := CloseLegState(rec.row.legs, 3);
        var _ :- Write(rec, TP3_FILLED, NO_PATCH.(legs := Some(legs)));
        r := Write(rec, RECONCILED, NO_PATCH.(legs := Some(legs)));
      } else {
        r := Err;
      }
    }

    /** `request_break_even`: priced from the actual fill, never from the reference. */
    method RequestBreakEven(rec: GroupRecord) returns (r: Res<()>)
      requires PaperInv(rec)
      modifies env, rec`row, rec`log, rec`times
      ensures PaperInv(rec)
      ensures r.Ok? ==>
        && old(rec.row.state) == TP1_FILLED && rec.row.spec.actualFill.Some?
        && rec.row == old(rec.row).(state := BE_REQUESTED, be := Be(rec.row.be.requested, old(rec.row.be.retries)))
        && ComputeBreakEven(rec.row.spec.side, rec.row.spec.actualFill.value, cost, spread, tick) ==
          Accepted(rec.row.be.requested)
    {
      if !ValidTransition(rec.row.state, BE_REQUESTED) { return Err; }
      if rec.row.spec.actualFill.None? { return Err; }
      var be := ComputeBreakEven(rec.row.spec.side, rec.row.spec.actualFill.value, cost, spread, tick);
      if be.Rejected? { return Err; }
      r := Write(rec, BE_REQUESTED, NO_PATCH.(be := Some(Be(be.value, rec.row.be.retries))));
    }

    function Retried(row: Row): Row {
      row.(be := Be(row.be.requested, row.be.retries + 1),
           state := if row.be.retries + 1 < maxBe then BE_RETRY else FAILED)
    }

    /** `_be_retry_or_fail`. */
    method BeRetryOrFail(rec: GroupRecord) returns (r: Res<()>)
      requires PaperInv(rec) && (rec.row.state == BE_REQUESTED || rec.row.state == BE_RETRY)
      modifies env, rec`row, rec`log, rec`times
      ensures PaperInv(rec)
      ensures r.Ok? ==> rec.row == Retried(old(rec.row))
    {
      var retries := rec.row.be.retries + 1;
      var state := if retries < maxBe then BE_RETRY else FAILED;
      r := Write(rec, state, NO_PATCH.(be := Some(Be(rec.row.be.requested, retries))));
    }

    /** Every leg has a position that the driver can move. */
    ghost predicate Resolved(gid: string, applyTo: seq<nat>)
      reads driver
    {
      forall i :: 0 <= i < |applyTo| ==> driver.QuerySl(NewLegId(gid, applyTo[i])).Some?
    }

    ghost predicate Movable(rec: GroupRecord)
      reads rec, driver
    {
      (rec.row.spec.applyTo == [] || !driver.rejectModify) && Resolved(rec.gid, rec.row.spec.applyTo)
    }

    ghost predicate Shows(gid: string, leg: nat, sl: real)
      reads driver
    {
      driver.QuerySl(NewLegId(gid, leg)) == Some(sl)
    }

    /** `confirm_break_even`: BE_CONFIRMED exactly when the driver takes modifies and knows a position
        for every protected leg, and every protected leg then shows the requested stop; otherwise one
        more retry, or FAILED. A driver that was lost in a restart knows no position. */
    method ConfirmBreakEven(rec: GroupRecord) returns (r: Res<()>)
      requires PaperInv(rec)
      modifies env, rec`row, rec`log, rec`times, driver`positions
      ensures PaperInv(rec)
      ensures r.Ok? ==> old(rec.row.state) == BE_REQUESTED || old(rec.row.state) == BE_RETRY
      ensures r.Ok? ==>
        rec.row == if old(Movable(rec)) then old(rec.row).(state := BE_CONFIRMED) else Retried(old(rec.row))
      ensures r.Ok? && rec.row.state == BE_CONFIRMED ==>
        forall leg :: leg in rec.row.spec.applyTo ==> Shows(rec.gid, leg, rec.row.be.requested)
    {
      if rec.row.state != BE_REQUESTED && rec.row.state != BE_RETRY { return Err; }
      var requested := rec.row.be.requested;
      if requested <= 0.0 { return Err; }
      var shown := ModifyAll(rec.gid, rec.row.spec.applyTo, requested);
      if shown {
        shown := AllShown(rec.gid, rec.row.spec.applyTo, requested);
      }
      if shown {
        r := Write(rec, BE_CONFIRMED, NO_PATCH);
      } else {
        r := BeRetryOrFail(rec);
      }
    }

    /** The first pass: stops at the first refused modify. */
    method ModifyAll(gid: string, applyTo: seq<nat>, sl: real) returns (taken: bool)
      modifies driver`positions
      ensures taken <==> (applyTo == [] || !driver.rejectModify) && old(Resolved(gid, applyTo))
      ensures taken ==> forall i :: 0 <= i < |applyTo| ==> Shows(gid, applyTo[i], sl)
    {
      hide PaperDriver.ResolveRef, PaperDriver.QuerySl;
      ghost var known := iset ref | driver.QuerySl(ref).Some?;
      for i := 0 to |applyTo|
        invariant forall ref :: driver.QuerySl(ref).Some? <==> ref in known
        invariant i > 0 ==> !driver.rejectModify
        invariant forall j :: 0 <= j < i ==> Shows(gid, applyTo[j], sl)
      {
        var accepted := driver.ModifySl(NewLegId(gid, applyTo[i]), sl);
        if !accepted { return false; }
      }
      taken := true;
    }

    /** The second pass: does every leg show the stop? */
    method AllShown(gid: string, applyTo: seq<nat>, sl: real) returns (shown: bool)
      ensures shown <==> forall i :: 0 <= i < |applyTo| ==> Near(driver.QuerySl(NewLegId(gid, applyTo[i])), sl)
    {
      for i := 0 to |applyTo|
        invariant forall j :: 0 <= j < i ==> Near(driver.QuerySl(NewLegId(gid, applyTo[j])), sl)
      {
        var observed := driver.QuerySl(NewLegId(gid, applyTo[i]));
        if !Near(observed, sl) { return false; }
      }
      shown := true;
    }

    /** `on_stopped`. */
    method OnStopped(rec: GroupRecord) returns (r: Res<()>)
      requires PaperInv(rec)
      modifies env, rec`row, rec`log, rec`times
      ensures PaperInv(rec)
      ensures r.Ok? ==> !IsTerminal(old(rec.row.state)) && rec.row == old(rec.row).(state := STOPPED)
    {
      var _ :- EnsureOpen(rec);
      if !ValidTransition(rec.row.state, STOPPED) { return Err; }
      r := Write(rec, STOPPED, NO_PATCH);
    }

    /** `simulate_tick`: the stop is checked first, then the target the group waits for. */
    method SimulateTick(rec: GroupRecord, price: real) returns (r: Res<()>)
      requires PaperInv(rec)
      modifies env, rec`row, rec`log, rec`times
      ensures PaperInv(rec)
      ensures r.Ok? ==> rec.row.state == TickOutcome(old(rec.row), price)
    {
      var spec := rec.row.spec;
      if AtRisk(rec.row.state) && Reached(Opposite(spec.side), price, spec.sl) {
        r := OnStopped(rec);
        return;
      }
      r := Ok(());
      if (rec.row.state == SUBMITTED || rec.row.state == OPENED) && Reached(spec.side, price, spec.tp1) {
        r := OnFirstLegFilled(rec, spec.tp1);
      } else if rec.row.state == BE_CONFIRMED && Reached(spec.side, price, spec.tp2) {
        r := OnTargetFilled(rec, 2);
      } else if rec.row.state == TP2_FILLED && Reached(spec.side, price, spec.tp3) {
        r := OnTargetFilled(rec, 3);
      }
    }

    /** All groups keep the invariant, and no two records are the same or share an id. */
    ghost predicate AllKept()
      reads this, groups
    {
      && (forall i, j :: 0 <= i < j < |groups| ==> groups[i] != groups[j] && groups[i].gid != groups[j].gid)
      && (forall i :: 0 <= i < |groups| ==> PaperInv(groups[i]))
    }

    /** One command on one existing group. */
    method Handle(rec: GroupRecord, command: PaperCommand)
      requires PaperInv(rec) && !command.Create? && !command.Restart?
      modifies env, rec, driver
      ensures PaperInv(rec)
    {
      hide IsHistory;
      match command
      case Submit(_) => var _ := SubmitGroup(rec);
      case LegFilled(_, leg, price) =>
        if leg == 1 { var _ := OnFirstLegFilled(rec, price); } else { var _ := OnTargetFilled(rec, leg); }
      case RequestBe(_) => var _ := RequestBreakEven(rec);
      case ConfirmBe(_) => var _ := ConfirmBreakEven(rec);
      case Stopped(_) => var _ := OnStopped(rec);
      case Tick(_, price) => var _ := SimulateTick(rec, price);
    }

    predicate Forbidden(mode: Mode) {
      mode == Live || (mode == Demo && !allowDemo)
    }

    /** `create_group`: a forbidden mode raises before anything is written; otherwise a draft is
        saved, over the row of an earlier group of that id, and then VALIDATED. A crash in between
        leaves the draft. */
    method CreateGroup(gid: string, spec: Spec) returns (r: Res<()>)
      requires AllKept()
      modifies this`groups, env, groups
      ensures AllKept() && old(groups) <= groups
      ensures forall i :: |old(groups)| <= i < |groups| ==> fresh(groups[i]) && groups[i].gid == gid
      ensures forall i :: 0 <= i < |old(groups)| && (Forbidden(spec.mode) || groups[i].gid != gid) ==>
        groups[i].row == old(groups[i].row)
      ensures Forbidden(spec.mode) ==> r.Err? && groups == old(groups)
      ensures r.Ok? ==> exists k :: 0 <= k < |groups| && groups[k].gid == gid && Created(groups[k].row, spec)
    {
      hide PaperInv;
      if Forbidden(spec.mode) { return Err; }
      var k := IndexOf(groups, gid);
      if k == |groups| {
        var rec :- NewDraft(gid, spec);
        groups := groups + [rec];
      } else {
        var _ :- Redraft(groups[k], spec);
      }
      r := Validate(groups[k], spec);
    }

    ghost predicate Created(row: Row, spec: Spec) {
      row == Row(spec, VALIDATED, [], NO_BE, row.comp, row.volume, false)
    }

    /** The first write of a new group. */
    method NewDraft(gid: string, spec: Spec) returns (r: Res<GroupRecord>)
      modifies env
      ensures r.Ok? ==>
        fresh(r.value) && PaperInv(r.value) && r.value.gid == gid && r.value.row.state == DRAFT &&
        !r.value.row.submitted
    {
      var _ :- env.Ask();
      var rec := new GroupRecord.Draft(gid, spec, env.now - 1);
      r := Ok(rec);
    }

    /** The first write over an earlier group: its log starts again. */
    method Redraft(rec: GroupRecord, spec: Spec) returns (r: Res<()>)
      requires PaperInv(rec)
      modifies env, rec`row, rec`log, rec`times
      ensures PaperInv(rec)
      ensures r.Ok? ==> rec.row.state == DRAFT && !rec.row.submitted && rec.log == DRAFT_LOG
    {
      r := rec.SaveGroup(env, spec, DRAFT, [], NO_BE, false, None);
      if r.Ok? {
        rec.log, rec.times := DRAFT_LOG, [env.now - 1];
      }
    }

    /** The second write of a creation. */
    method Validate(rec: GroupRecord, spec: Spec) returns (r: Res<()>)
      requires PaperInv(rec) && rec.row.state == DRAFT && !rec.row.submitted
      modifies env, rec`row, rec`log, rec`times
      ensures PaperInv(rec)
      ensures r.Ok? ==> Created(rec.row, spec)
    {
      ExtendHistory(rec.log.history, VALIDATED);
      r := rec.SaveGroup(env, spec, VALIDATED, [], NO_BE, false, None);
    }

    /** One command of a run, with its exception swallowed. */
    method Execute(command: PaperCommand)
      requires AllKept()
      modifies this`groups, env, driver, groups
      ensures AllKept() && old(groups) <= groups
      ensures forall i :: |old(groups)| <= i < |groups| ==> fresh(groups[i])
    {
      hide PaperInv;
      if command.Create? {
        var _ := CreateGroup(command.gid, command.spec);
      } else if command.Restart? {
        driver.Restart();
      } else {
        var k := IndexOf(groups, command.gid);
        if k < |groups| { Handle(groups[k], command); }
      }
    }

    /** Every run: after any commands, with crashes anywhere and restarts that lose the driver, every
        group's stored states since its creation form a path of the table and its legs were sent at
        most once. */
    method Run(commands: seq<PaperCommand>)
      requires AllKept()
      modifies this`groups, env, driver, groups
      ensures AllKept() && old(groups) <= groups
    {
      hide PaperInv;
      for n := 0 to |commands|
        invariant AllKept() && old(groups) <= groups
        invariant forall i :: |old(groups)| <= i < |groups| ==> fresh(groups[i])
      {
        Execute(commands[n]);
      }
    }
  }

  datatype PaperCommand =
    | Create(gid: string, spec: Spec)
    | Submit(gid: string)
    | LegFilled(gid: string, leg: nat, price: real)
    | RequestBe(gid: string)
    | ConfirmBe(gid: string)
    | Stopped(gid: string)
    | Tick(gid: string, price: real)
    | Restart

  /** A submitted paper leg; one without volume is skipped. */
  function PaperLeg(spec: Spec, no: nat): Leg {
    var volume := Part(spec.totalVolume, if no == 1 then spec.share1 else if no == 2 then spec.share2 else spec.share3);
    Leg(no, if volume <= 0.0 then LegSkipped else LegSubmitted, 0, volume)
  }

  predicate Near(shown: Option<real>, sl: real) {
    shown.Some? && Abs(shown.value - sl) <= SL_EPS
  }

  function Opposite(side: Side): Side {
    if side == Long then Short else Long
  }

  predicate AtRisk(s: GroupState) {
    s.SUBMITTED? || s.OPENED? || s.TP1_FILLED? || s.BE_REQUESTED? || s.BE_RETRY? || s.BE_CONFIRMED? || s.TP2_FILLED?
  }

  /** What a tick makes of a group. */
  function TickOutcome(row: Row, price: real): GroupState {
    if AtRisk(row.state) && Reached(Opposite(row.spec.side), price, row.spec.sl) then STOPPED
    else if (row.state.SUBMITTED? || row.state.OPENED?) && Reached(row.spec.side, price, row.spec.tp1) then TP1_FILLED
    else if row.state.BE_CONFIRMED? && Reached(row.spec.side, price, row.spec.tp2) then TP2_FILLED
    else if row.state.TP2_FILLED? && Reached(row.spec.side, price, row.spec.tp3) then RECONCILED
    else row.state
  }
}
