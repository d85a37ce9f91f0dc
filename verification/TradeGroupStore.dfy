/** The durable store of one trade group (data/trade_group_store.py): its row, its recorded
    action ids and, as ghost state, the log of everything ever done for the group. */
module TradeGroupStore {
  import opened GroupStates
  import opened Wrappers
  import opened Terminal
  import opened Geometry

  datatype Mode = Research | Paper | Demo | Live

  datatype Spec = Spec(
    mode: Mode, side: Side, reference: real, actualFill: Option<real>,
    tp1: real, tp2: real, tp3: real, sl: real,
    applyTo: seq<nat>, share1: real, share2: real, share3: real, totalVolume: real,
    expiresAtMs: int, estimatedLoss: real, maxCash: real, maxPct: real, provenanceComplete: bool)

  /** What the specification's own validators demand (execution/trade_group.py:208-313). */
  predicate AcceptedSpec(s: Spec) {
    && (if s.side == Long then s.sl < s.reference < s.tp1 < s.tp2 < s.tp3
      else s.tp3 < s.tp2 < s.tp1 < s.reference < s.sl)
    && 0.0 < s.share1 <= 1.0 && 0.0 < s.share2 <= 1.0 && 0.0 < s.share3 <= 1.0
    && Abs(s.share1 + s.share2 + s.share3 - 1.0) <= 0.000001
    && s.totalVolume > 0.0 && s.expiresAtMs > 0
    && s.estimatedLoss >= 0.0 && s.maxCash > 0.0 && 0.0 < s.maxPct <= 1.0
  }

  datatype LegState = LegSubmitted | LegPartiallyFilled | LegVirtual | LegRejected | LegSkipped | LegOpen | LegClosed

  /** `position` is the broker ticket recorded for the leg, 0 when there is none. */
  datatype Leg = Leg(no: nat, state: LegState, position: nat, filled: real)

  datatype Be = Be(requested: real, retries: nat)
  datatype CompEntry = CompEntry(action: Action, filled: bool)
  datatype Comp = Comp(retries: nat, entries: seq<CompEntry>)
  datatype Volume = Volume(filled: real, closed: real)

  datatype Row = Row(spec: Spec, state: GroupState, legs: seq<Leg>, be: Be, comp: Comp, volume: Volume, submitted: bool)

  /** The action ids of the executor (OPEN-GROUP, DEAL-t, COMPENSATE-Lk, ...). */
  datatype Action =
    | OpenGroup
    | DealSeen(ticket: nat)
    | CompensateLeg(leg: nat)
    | CompensateGroup
    | BeLeg(leg: nat)
    | BeGroup
    | CloseTp(leg: nat)
    | CloseTpSkipped(leg: nat)

  predicate IsCompensation(a: Action) {
    a.CompensateLeg? || a.CompensateGroup?
  }

  const NO_BE := Be(0.0, 0)
  const NO_COMP := Comp(0, [])

  /** Columns an update may leave alone. */
  datatype Patch = Patch(legs: Option<seq<Leg>>, be: Option<Be>, volume: Option<Volume>, comp: Option<Comp>)
  const NO_PATCH := Patch(None, None, None, None)

  function Or<T>(o: Option<T>, otherwise: T): T {
    if o.Some? then o.value else otherwise
  }

  function Patched(row: Row, state: GroupState, patch: Patch): Row {
    row.(state := state, legs := Or(patch.legs, row.legs), be := Or(patch.be, row.be),
         volume := Or(patch.volume, row.volume), comp := Or(patch.comp, row.comp))
  }

  /** A position seen, or found missing, at a moment of the run. */
  datatype Sighting = Sighting(time: nat, ticket: nat, mode: AccountMode)

  /** Everything done for one group so far. Orders are counted when they leave the process,
      netting fills when the broker accepts them. */
  datatype Log = Log(
    history: seq<GroupState>,
    legOrders: multiset<nat>,      // entry orders, by leg
    drives: multiset<nat>,         // transitions driven by an OUT deal, by deal ticket
    closes: multiset<Action>,      // compensation closes, by action id
    tpFills: multiset<nat>,        // netting partial closes filled, by leg
    stopModifies: multiset<nat>,   // stop modifies since the last creation, by index in applyTo
    aborts: nat,                   // steps on this group that ended in an exception
    lastOrder: nat,                // no order was sent at or after this moment
    compMode: AccountMode,         // the account mode compensation began with
    flat: map<Action, Sighting>, flatBefore: nat,
    askedAt: nat,                  // the moment after the quote that priced the break-even
    seen: seq<Sighting>, seenBefore: nat,
    recreated: bool)               // created over a group that had begun to submit

  const NEW_LOG :=
    Log([VALIDATED], multiset{}, multiset{}, multiset{}, multiset{}, multiset{}, 0, 0, Unknown, map[], 0, 0, [], 0,
      false)

  /** The log once the group is created again. What its recorded actions stand for is kept. */
  ghost function Renewed(log: Log, begun: bool): Log {
    log.(history := [VALIDATED], stopModifies := multiset{}, compMode := Unknown, flat := map[], flatBefore := 0,
         askedAt := 0, seen := [], seenBefore := 0, recreated := begun)
  }

  const DRAFT_LOG := NEW_LOG.(history := [DRAFT])

  /** A confirmed break-even and the end of a compensation are stored after the sightings they rest on. */
  ghost predicate StoredAfter(state: GroupState, time: nat, seenBefore: nat, flatBefore: nat) {
    && (state.BE_CONFIRMED? ==> seenBefore <= time)
    && (state.COMPENSATION_CONFIRMED? || state.FAILED? ==> flatBefore <= time)
  }

  /** `times` are the moments at which the states of the history were stored. */
  ghost predicate Stamped(history: seq<GroupState>, times: seq<nat>, seenBefore: nat, flatBefore: nat) {
    |times| == |history| && forall c :: 0 <= c < |history| ==> StoredAfter(history[c], times[c], seenBefore, flatBefore)
  }

  /** Nothing recorded lies in the future, and what is stored was seen before. */
  ghost predicate Timed(log: Log, times: seq<nat>, now: nat) {
    && Stamped(log.history, times, log.seenBefore, log.flatBefore)
    && log.lastOrder <= now && log.askedAt <= now && log.seenBefore <= now && log.flatBefore <= now
  }

  lemma TimeGoesBy(log: Log, times: seq<nat>, now: nat, later: nat)
    requires Timed(log, times, now) && now <= later
    ensures Timed(log, times, later)
  {
  }

  /** The index of a group among the stored ones, |groups| when it does not exist. */
  method IndexOf(groups: seq<GroupRecord>, gid: string) returns (k: nat)
    ensures k <= |groups|
    ensures k < |groups| ==> groups[k].gid == gid
    ensures k == |groups| ==> forall i :: 0 <= i < |groups| ==> groups[i].gid != gid
  {
    for i := 0 to |groups|
      invariant forall j :: 0 <= j < i ==> groups[j].gid != gid
    {
      if groups[i].gid == gid { return i; }
    }
    k := |groups|;
  }

  class GroupRecord {
    const gid: string
    var row: Row
    var actions: set<Action>
    ghost var log: Log
    ghost var times: seq<nat>      // when each state of the history was stored

    /** `save_group` of a new group in state VALIDATED. */
    constructor (gid: string, spec: Spec, ghost at: nat)
      ensures this.gid == gid && actions == {} && log == NEW_LOG && times == [at]
      ensures row == Row(spec, VALIDATED, [], NO_BE, NO_COMP, Volume(0.0, 0.0), false)
    {
      this.gid := gid;
      row := Row(spec, VALIDATED, [], NO_BE, NO_COMP, Volume(0.0, 0.0), false);
      actions := {};
      log := NEW_LOG;
      times := [at];
    }

    /** `save_group` of a draft. */
    constructor Draft(gid: string, spec: Spec, ghost at: nat)
      ensures this.gid == gid && actions == {} && log == DRAFT_LOG && times == [at]
      ensures row == Row(spec, DRAFT, [], NO_BE, NO_COMP, Volume(0.0, 0.0), false)
    {
      this.gid := gid;
      row := Row(spec, DRAFT, [], NO_BE, NO_COMP, Volume(0.0, 0.0), false);
      actions := {};
      log := DRAFT_LOG;
      times := [at];
    }

    /** `update_group_state`. A process that dies here has written nothing. */
    method UpdateGroupState(env: Env, state: GroupState, patch: Patch) returns (r: Res<()>)
      modifies env, this`row, this`log, this`times
      ensures env.now == old(env.now) + 1
      ensures r.Ok? ==>
        row == Patched(old(row), state, patch) && log == old(log).(history := old(log).history + [state])
      ensures times == if r.Ok? then old(times) + [old(env.now)] else old(times)
      ensures old(Timed(log, times, env.now)) ==> Timed(log, times, env.now)
      ensures r.Err? ==> !env.world(old(env.now)).alive && row == old(row) && log == old(log)
    {
      var m := env.Ask();
      if m.Err? { return Err; }
      row := Patched(row, state, patch);
      log := log.(history := log.history + [state]);
      times := times + [env.now - 1];
      r := Ok(());
    }

    /** `save_group`: replaces the row; an omitted volume or compensation state is kept. */
    method SaveGroup(
      env: Env, spec: Spec, state: GroupState, legs: seq<Leg>, be: Be, submitted: bool, volume: Option<Volume>)
      returns (r: Res<()>)
      modifies env, this`row, this`log, this`times
      ensures env.now == old(env.now) + 1
      ensures r.Ok? ==> row == Row(spec, state, legs, be, old(row).comp, Or(volume, old(row).volume), submitted)
      ensures r.Ok? ==> log == old(log).(history := old(log).history + [state])
      ensures times == if r.Ok? then old(times) + [old(env.now)] else old(times)
      ensures old(Timed(log, times, env.now)) ==> Timed(log, times, env.now)
      ensures r.Err? ==> !env.world(old(env.now)).alive && row == old(row) && log == old(log)
    {
      var m := env.Ask();
      if m.Err? { return Err; }
      row := Row(spec, state, legs, be, row.comp, Or(volume, row.volume), submitted);
      log := log.(history := log.history + [state]);
      times := times + [env.now - 1];
      r := Ok(());
    }

    /** `mark_action`: true only for the first caller. */
    method MarkAction(env: Env, action: Action) returns (r: Res<bool>)
      modifies env, this`actions
      ensures env.now == old(env.now) + 1
      ensures r.Ok? ==> actions == old(actions) + {action} && r.value == (action !in old(actions))
      ensures r.Err? ==> !env.world(old(env.now)).alive && actions == old(actions)
    {
      var m := env.Ask();
      if m.Err? { return Err; }
      r := Ok(action !in actions);
      actions := actions + {action};
    }

    /** `try_mark_submitted`: true only for the first submission of the group. */
    method TryMarkSubmitted(env: Env) returns (r: Res<bool>)
      modifies env, this`row
      ensures env.now == old(env.now) + 1
      ensures r.Ok? ==> row == old(row).(submitted := true) && r.value == !old(row).submitted
      ensures r.Err? ==> row == old(row)
    {
      var m := env.Ask();
      if m.Err? { return Err; }
      r := Ok(!row.submitted);
      row := row.(submitted := true);
    }

    /** `has_action`. */
    predicate HasAction(action: Action)
      reads this
    {
      action in actions
    }
  }
}
