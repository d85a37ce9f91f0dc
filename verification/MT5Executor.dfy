/** The MT5 trade-group executor (execution/mt5_trade_group.py and the flow modules it delegates
    to). Each method is one flow; `Err` is an exception or a crash, after which the group is as
    the last completed store write left it. */
module MT5Executor {
  import opened GroupStates
  import opened Wrappers
  import opened Terminal
  import opened Geometry
  import opened Volumes
  import opened TradeGroupStore
  import opened MT5Driver
  import opened ProtocolInvariant
  import opened ProtocolSteps

  ghost function Of(rec: GroupRecord): Group
    reads rec
  {
    Group(rec.gid, rec.row, rec.actions, rec.log)
  }

  class Executor {
    const env: Env
    const driver: Driver
    const limits: Limits
    const tolerance: real
    const allowDemo: bool
    const liveSystematic: bool
    var groups: seq<GroupRecord>

    ghost predicate Valid()
      reads this, driver
    {
      driver.env == env && driver.Valid() && limits.maxBe >= 1 && limits.maxComp >= 1
    }

    constructor (env: Env, limits: Limits, tolerance: real, allowDemo: bool, liveSystematic: bool)
      requires limits.maxBe >= 1 && limits.maxComp >= 1
      ensures Valid() && this.env == env && this.limits == limits && groups == []
    {
      this.env, this.limits, this.tolerance := env, limits, tolerance;
      this.allowDemo, this.liveSystematic, this.groups := allowDemo, liveSystematic, [];
      this.driver := new Driver(env);
    }

    /** The invariant of one group, with the given slack. */
    ghost predicate Ready(rec: GroupRecord, slack: Slack)
      reads rec, env
    {
      GroupInv(Of(rec), env.world, limits, slack) && Timed(rec.log, rec.times, env.now)
    }

    // -------------------------------------------------------------------------
    // Break-even flow (execution/mt5_be_flow.py)
    // -------------------------------------------------------------------------

    method RequestBe(rec: GroupRecord) returns (r: Res<()>)
      requires Valid() && Ready(rec, NONE)
      modifies env, rec`row, rec`log, rec`times
      ensures old(env.now) <= env.now
      ensures Ready(rec, NONE)
      ensures r.Ok? ==> old(rec.row.state) == TP1_FILLED && rec.row.state == BE_REQUESTED
      ensures rec.row == old(rec.row) ||
        rec.row == old(rec.row).(state := BE_REQUESTED, be := Be(rec.row.be.requested, old(rec.row.be.retries)))
    {
      hide GroupInv, Stamped, WithinReach, Mentioned;
      if !ValidTransition(rec.row.state, BE_REQUESTED) { return Err; }
      if rec.row.spec.actualFill.None? { return Err; }
      var m :- env.Ask();
      ghost var askedAt := env.now;
      if m.quote.None? { return Err; }
      var be :=
        ComputeBreakEven(rec.row.spec.side, rec.row.spec.actualFill.value, limits.cost, m.quote.value.spread,
          m.quote.value.tick);
      if be.Rejected? { return Err; }
      assert rec.row.state == TP1_FILLED;
      ghost var g := Of(rec);
      var state := Be(be.value, rec.row.be.retries);
      r := rec.UpdateGroupState(env, BE_REQUESTED, NO_PATCH.(be := Some(state)));
      if r.Ok? {
        rec.log := rec.log.(askedAt := askedAt);
        BeRequestWrite(g, env.world, limits, rec.row, askedAt);
        assert Of(rec) == Written(g.(log := g.log.(askedAt := askedAt)), rec.row);
        var _ :- env.Ask();
      }
    }

    /** The row after one more failed round. */
    function RetriedRow(row: Row): Row {
      row.(be := Be(row.be.requested, row.be.retries + 1),
           state := if row.be.retries + 1 >= limits.maxBe then FAILED else BE_RETRY)
    }

    /** `be_retry`: one more failed round; the last one fails the group. */
    method BeRetry(rec: GroupRecord) returns (r: Res<BeAnswer>)
      requires Valid() && Ready(rec, Slack(0, 0, 1)) && rec.row.state in {BE_REQUESTED, BE_RETRY}
      modifies env, rec`row, rec`log, rec`times
      ensures old(env.now) <= env.now
      ensures r.Ok? ==> Ready(rec, NONE) && rec.row == RetriedRow(old(rec.row))
      ensures r.Ok? ==> r.value == if rec.row.state == FAILED then BeFailed else BeRetried
      ensures r.Ok? ==> rec.log == old(rec.log).(history := rec.log.history)
      ensures r.Err? ==> Ready(rec, ONE) && Died(env.world, old(env.now), env.now)
    {
      hide GroupInv, Stamped, WithinReach, Mentioned;
      var retries := rec.row.be.retries + 1;
      var next := if retries >= limits.maxBe then FAILED else BE_RETRY;
      var _ :- StoreRetry(rec, next, Be(rec.row.be.requested, retries));
      MoreSlack(Of(rec), env.world, limits, NONE, ONE);
      var _ :- env.Ask();
      r := Ok(if next == FAILED then BeFailed else BeRetried);
    }

    method StoreRetry(rec: GroupRecord, next: GroupState, be: Be) returns (r: Res<()>)
      requires Valid() && Ready(rec, Slack(0, 0, 1)) && rec.row.state in {BE_REQUESTED, BE_RETRY}
      requires rec.row.(state := next, be := be) == RetriedRow(rec.row)
      modifies env, rec`row, rec`log, rec`times
      ensures old(env.now) <= env.now
      ensures r.Ok? ==> Ready(rec, NONE) && rec.row == RetriedRow(old(rec.row))
      ensures r.Ok? ==> rec.log == old(rec.log).(history := rec.log.history)
      ensures r.Err? ==> Ready(rec, ONE) && Died(env.world, old(env.now), env.now)
    {
      hide GroupInv, Stamped, WithinReach, Mentioned;
      ghost var g := Of(rec);
      MoreSlack(g, env.world, limits, Slack(0, 0, 1), ONE);
      BeRetryWrite(g, env.world, limits, RetriedRow(g.row));
      var _ :- rec.UpdateGroupState(env, next, NO_PATCH.(be := Some(be)));
      assert Of(rec) == Written(g, rec.row);
      r := Ok(());
    }

    /** One leg of `verify_be`: leave a correct stop alone, otherwise ask for it. A modify leaves
        exactly when the first-pass query does not show the requested stop and the position is then
        found; whether the action was recorded before plays no part. */
    method ProtectLeg(rec: GroupRecord, mode: AccountMode, ref: Reference, leg: nat, ghost index: nat)
      returns (r: Res<bool>, ghost pass: FirstPass)
      requires Valid() && Ready(rec, Slack(0, 0, 1)) && rec.row.state in {BE_REQUESTED, BE_RETRY}
      requires index < |rec.row.spec.applyTo| && rec.log.stopModifies[index] <= rec.row.be.retries + rec.log.aborts
      modifies env, driver, rec`actions, rec`log
      ensures old(env.now) <= env.now
      ensures Valid() && Ready(rec, Slack(0, 0, 1))
      ensures rec.log == if SendsModify(pass, rec.row.be.requested)
        then WithStopModify(old(rec.log), index, rec.log.lastOrder) else old(rec.log)
      ensures r.Ok? ==>
        pass.asked && Truthful(pass, env.world, old(env.now), env.now, rec.gid, ref, rec.row.be.requested)
      ensures r.Ok? && r.value ==> (if mode == Hedging then BeLeg(leg) else BeGroup) in rec.actions
      ensures r == Ok(false) && pass.found ==> Refused(env.world, old(env.now), env.now)
      ensures r.Err? ==> Died(env.world, old(env.now), env.now) || (mode == Hedging && ref.ByLeg?)
    {
      hide GroupInv, Stamped, WithinReach, Mentioned, Looked, Queried, Truthful, ShowsRequested, WithStopModify,
        Refused, Died;
      var observed, s := driver.QuerySl(mode, rec.gid, ref);
      pass := FirstPass(false, None, s, false, s);
      if observed.Err? { return Err, pass; }
      pass := FirstPass(true, observed.value, s, false, s);
      ghost var asked, moved := env.now, env.now;
      if !ShowsRequested(observed.value, rec.row.be.requested) {
        var accepted, found, look := SendModify(rec, mode, ref, index);
        pass := FirstPass(true, observed.value, s, found, look);
        moved := env.now;
        Later(env.world, old(env.now), asked, moved);
        StillTruthful(pass, env.world, old(env.now), asked, moved, env.now, rec.gid, ref, rec.row.be.requested);
        if accepted != Ok(true) { return accepted, pass; }
      }
      r := Record(rec, if mode == Hedging then BeLeg(leg) else BeGroup, Slack(0, 0, 1));
      Later(env.world, old(env.now), moved, env.now);
      StillTruthful(pass, env.world, old(env.now), asked, moved, env.now, rec.gid, ref, rec.row.be.requested);
      if r.Ok? { r := Ok(true); }
    }

    method SendModify(rec: GroupRecord, mode: AccountMode, ref: Reference, ghost index: nat)
      returns (r: Res<bool>, ghost found: bool, ghost look: Sighting)
      requires Valid() && Ready(rec, Slack(0, 0, 1)) && rec.row.state in {BE_REQUESTED, BE_RETRY}
      requires index < |rec.row.spec.applyTo| && rec.log.stopModifies[index] <= rec.row.be.retries + rec.log.aborts
      modifies env, driver, rec`log
      ensures old(env.now) <= env.now && Valid() && Ready(rec, Slack(0, 0, 1))
      ensures rec.log == if found then WithStopModify(old(rec.log), index, rec.log.lastOrder) else old(rec.log)
      ensures found || r.Ok? ==> Looked(env.world, old(env.now), env.now, rec.gid, ref, found, look)
      ensures r == Ok(false) && found ==> Refused(env.world, old(env.now), env.now)
      ensures r.Err? ==> Died(env.world, old(env.now), env.now) || (mode == Hedging && ref.ByLeg?)
    {
      hide GroupInv, Stamped, WithinReach, Mentioned, Looked;
      ghost var g := Of(rec);
      r, found, look := driver.ModifySl(mode, rec, ref, index);
      StopModifySent(g, env.world, limits, index, rec.log.lastOrder);
      assert Of(rec) == g || Of(rec) == g.(log := WithStopModify(g.log, index, rec.log.lastOrder));
    }

    /** Records an action id: true for the first time. */
    method Record(rec: GroupRecord, action: Action, ghost slack: Slack) returns (r: Res<bool>)
      requires Ready(rec, slack) && (IsCompensation(action) ==> PARTIAL_SUBMISSION in rec.log.history)
      modifies env, rec`actions
      ensures old(env.now) < env.now && Ready(rec, slack)
      ensures r.Ok? ==> rec.actions == old(rec.actions) + {action} && r.value == (action !in old(rec.actions))
      ensures r.Err? ==> rec.actions == old(rec.actions) && Died(env.world, old(env.now), env.now)
    {
      hide GroupInv, Stamped, WithinReach, Mentioned;
      ghost var g := Of(rec);
      MarkPlain(g, env.world, limits, slack, action);
      r := rec.MarkAction(env, action);
      assert Of(rec) == g.(actions := rec.actions);
    }

    /** `verify_be`: modify where needed, then confirm only if every position shows the stop. The
        modifies of a completed round are exactly those its first pass called for. */
    method VerifyBe(rec: GroupRecord) returns (r: Res<BeAnswer>, ghost passes: seq<FirstPass>)
      requires Valid() && Ready(rec, NONE) && rec.row.state in {BE_REQUESTED, BE_RETRY}
      modifies env, driver, rec
      ensures old(env.now) <= env.now && Valid()
      ensures r.Ok? ==> Ready(rec, NONE)
      ensures r.Ok? ==>
        rec.row == if r.value == BeConfirmedNow then old(rec.row).(state := BE_CONFIRMED) else RetriedRow(old(rec.row))
      ensures r.Ok? ==>
        rec.log.stopModifies == old(rec.log.stopModifies) + Sent(passes, rec.row.be.requested) &&
        rec.log.aborts == old(rec.log.aborts)
      ensures r.Ok? ==>
        PassesHold(passes, env.world, old(env.now), env.now, rec.gid, env.world(old(env.now)).mode, old(rec.row))
      ensures r.Ok? && passes == [] && old(rec.row.spec.applyTo) != [] ==>
        BeRef(env.world(old(env.now)).mode, old(rec.row.legs), old(rec.row.spec.applyTo[0])).None?
      ensures r.Err? ==> Ready(rec, ONE)
      ensures r.Err? ==>
        old(rec.row.be.requested) <= 0.0 || env.world(old(env.now)).mode == Unknown ||
        Died(env.world, old(env.now), env.now)
    {
      hide GroupInv, Stamped, WithinReach, Mentioned, Sent, PassesHold;
      ModifiesSoFar(rec);
      passes := [];
      MoreSlack(Of(rec), env.world, limits, NONE, Slack(0, 0, 1));
      MoreSlack(Of(rec), env.world, limits, NONE, ONE);
      if rec.row.be.requested <= 0.0 { return Err, passes; }
      var mode := driver.ResolveMode();
      if mode.Err? { return Err, passes; }
      ghost var from := env.now;
      var kept;
      kept, passes := ProtectAll(rec, mode.value);
      MoreSlack(Of(rec), env.world, limits, Slack(0, 0, 1), ONE);
      if kept.Err? { return Err, passes; }
      ghost var done, row := env.now, rec.row;
      if kept.value {
        r := ConfirmBe(rec, mode.value);
      } else {
        r := BeRetry(rec);
      }
      PassesWiden(passes, env.world, from, done, old(env.now), env.now, rec.gid, mode.value, row);
    }

    lemma ModifiesSoFar(rec: GroupRecord)
      requires GroupInv(Of(rec), env.world, limits, NONE) && rec.row.state in {BE_REQUESTED, BE_RETRY}
      ensures forall i :: rec.log.stopModifies[i] <= rec.row.be.retries + rec.log.aborts
    {
      HistoryFacts(rec.log.history);
    }

    /** The first pass of `verify_be`: stops at a leg without a position or with a refused modify. */
    method ProtectAll(rec: GroupRecord, mode: AccountMode) returns (r: Res<bool>, ghost passes: seq<FirstPass>)
      requires Valid() && Ready(rec, Slack(0, 0, 1)) && rec.row.state in {BE_REQUESTED, BE_RETRY}
      requires forall i :: rec.log.stopModifies[i] <= rec.row.be.retries + rec.log.aborts
      modifies env, driver, rec`actions, rec`log
      ensures old(env.now) <= env.now && Valid() && Ready(rec, Slack(0, 0, 1))
      ensures rec.log.aborts == old(rec.log.aborts)
      ensures r.Ok? ==> rec.log.stopModifies == old(rec.log.stopModifies) + Sent(passes, rec.row.be.requested)
      ensures r.Ok? ==> PassesHold(passes, env.world, old(env.now), env.now, rec.gid, mode, rec.row)
      ensures r == Ok(true) ==> |passes| == |rec.row.spec.applyTo|
      ensures r.Ok? && passes == [] ==>
        rec.row.spec.applyTo == [] || BeRef(mode, rec.row.legs, rec.row.spec.applyTo[0]).None?
      ensures r.Err? ==> Died(env.world, old(env.now), env.now)
    {
      assert Sent([], rec.row.be.requested) == multiset{};
      hide GroupInv, Stamped, WithinReach, Mentioned, Truthful, SendsModify, Died, PassesHold, Sent;
      passes := [];
      var applyTo := rec.row.spec.applyTo;
      assert PassesHold(passes, env.world, env.now, env.now, rec.gid, mode, rec.row) by {
        NoPass(env.world, env.now, rec.gid, mode, rec.row);
      }
      for i := 0 to |applyTo|
        invariant Valid() && Ready(rec, Slack(0, 0, 1)) && old(env.now) <= env.now && |passes| == i
        invariant rec.log.aborts == old(rec.log.aborts)
        invariant rec.log.stopModifies == old(rec.log.stopModifies) + Sent(passes, rec.row.be.requested)
        invariant PassesHold(passes, env.world, old(env.now), env.now, rec.gid, mode, rec.row)
      {
        var ref := BeRef(mode, rec.row.legs, applyTo[i]);
        if ref.None? { return Ok(false), passes; }
        SentBelow(passes, rec.row.be.requested, i);
        var kept, pass := ProtectNext(rec, mode, ref.value, i, passes, old(env.now));
        if kept.Err? { return Err, passes; }
        passes := passes + [pass];
        if !kept.value { return Ok(false), passes; }
      }
      r := Ok(true);
    }

    /** The next leg of the first pass. */
    method ProtectNext(
      rec: GroupRecord, mode: AccountMode, ref: Reference, i: nat, ghost passes: seq<FirstPass>, ghost from: nat)
      returns (r: Res<bool>, ghost pass: FirstPass)
      requires Valid() && Ready(rec, Slack(0, 0, 1)) && rec.row.state in {BE_REQUESTED, BE_RETRY} && from <= env.now
      requires |passes| == i < |rec.row.spec.applyTo| && rec.log.stopModifies[i] <= rec.row.be.retries + rec.log.aborts
      requires PassesHold(passes, env.world, from, env.now, rec.gid, mode, rec.row)
      requires BeRef(mode, rec.row.legs, rec.row.spec.applyTo[i]) == Some(ref)
      modifies env, driver, rec`actions, rec`log
      ensures old(env.now) <= env.now && Valid() && Ready(rec, Slack(0, 0, 1))
      ensures rec.log.aborts == old(rec.log.aborts)
      ensures r.Ok? ==> PassesHold(passes + [pass], env.world, from, env.now, rec.gid, mode, rec.row)
      ensures r.Ok? ==> forall before :: old(rec.log.stopModifies) == before + Sent(passes, rec.row.be.requested) ==>
        rec.log.stopModifies == before + Sent(passes + [pass], rec.row.be.requested)
      ensures r.Err? ==> Died(env.world, from, env.now)
    {
      hide GroupInv, Stamped, WithinReach, Mentioned, Truthful, SendsModify, Died, PassesHold, Sent;
      ghost var asked := env.now;
      r, pass := ProtectLeg(rec, mode, ref, rec.row.spec.applyTo[i], i);
      if r.Err? {
        DiedWithin(env.world, from, asked, env.now);
      } else {
        OneMorePass(passes, pass, env.world, from, asked, env.now, rec.gid, mode, rec.row);
      }
    }

    /** The second pass of `verify_be`: the broker must show the requested stop everywhere. */
    method ConfirmBe(rec: GroupRecord, mode: AccountMode) returns (r: Res<BeAnswer>)
      requires Valid() && Ready(rec, Slack(0, 0, 1)) && rec.row.state in {BE_REQUESTED, BE_RETRY}
      modifies env, driver, rec
      ensures old(env.now) <= env.now && Valid()
      ensures r.Ok? ==> Ready(rec, NONE)
      ensures r.Ok? ==>
        rec.row == if r.value == BeConfirmedNow then old(rec.row).(state := BE_CONFIRMED) else RetriedRow(old(rec.row))
      ensures r.Ok? ==>
        rec.log == old(rec.log).(history := rec.log.history, seen := rec.log.seen, seenBefore := rec.log.seenBefore)
      ensures r.Ok? ==> rec.actions == old(rec.actions)
      ensures r.Err? ==> Ready(rec, ONE) && Died(env.world, old(env.now), env.now)
    {
      hide GroupInv, Stamped, WithinReach, Mentioned, Protects;
      MoreSlack(Of(rec), env.world, limits, Slack(0, 0, 1), ONE);
      var shown, seen := AllShown(rec, mode);
      if shown.Err? { return Err; }
      if shown.value {
        r := StoreConfirmed(rec, seen);
      } else {
        r := BeRetry(rec);
      }
    }

    /** Does the broker show the requested stop on every leg? */
    method AllShown(rec: GroupRecord, mode: AccountMode) returns (r: Res<bool>, ghost seen: seq<Sighting>)
      requires Valid() && rec.log.askedAt <= env.now
      modifies env, driver
      ensures old(env.now) <= env.now && Valid()
      ensures r == Ok(true) ==> |seen| == |rec.row.spec.applyTo| && forall k :: 0 <= k < |seen| ==>
        Protects(rec.gid, rec.row, env.world, rec.log.askedAt, env.now, seen[k], rec.row.spec.applyTo[k])
      ensures r.Err? ==> Died(env.world, old(env.now), env.now)
    {
      hide Died, Queried, Protects, ShowsStop, Carried;
      seen := [];
      var applyTo, legs := rec.row.spec.applyTo, rec.row.legs;
      for i := 0 to |applyTo|
        invariant Valid() && old(env.now) <= env.now && |seen| == i
        invariant forall k :: 0 <= k < i ==>
          Protects(rec.gid, rec.row, env.world, rec.log.askedAt, env.now, seen[k], applyTo[k])
      {
        var ref := BeRef(mode, legs, applyTo[i]);
        if ref.None? { return Ok(false), seen; }
        ghost var from := env.now;
        var observed, s := driver.QuerySl(mode, rec.gid, ref.value);
        if observed.Err? {
          DiedWithin(env.world, old(env.now), from, env.now);
          return Err, seen;
        }
        forall k | 0 <= k < i
          ensures Protects(rec.gid, rec.row, env.world, rec.log.askedAt, env.now, seen[k], applyTo[k])
        {
          ProtectsLater(rec.gid, rec.row, env.world, rec.log.askedAt, from, env.now, seen[k], applyTo[k]);
        }
        if !ShowsRequested(observed.value, rec.row.be.requested) { return Ok(false), seen; }
        ShownProtects(rec.gid, rec.row, env.world, rec.log.askedAt, env.now, s, applyTo[i], observed.value.value);
        seen := seen + [s];
      }
      r := Ok(true);
    }

    /** Stores BE_CONFIRMED on the evidence of the sightings. */
    method StoreConfirmed(rec: GroupRecord, ghost seen: seq<Sighting>) returns (r: Res<BeAnswer>)
      requires Valid() && Ready(rec, Slack(0, 0, 1)) && rec.row.state in {BE_REQUESTED, BE_RETRY} &&
        |seen| == |rec.row.spec.applyTo|
      requires forall k :: 0 <= k < |seen| ==>
        Protects(rec.gid, rec.row, env.world, rec.log.askedAt, env.now, seen[k], rec.row.spec.applyTo[k])
      modifies env, rec`row, rec`log, rec`times
      ensures old(env.now) <= env.now
      ensures r.Ok? ==> Ready(rec, NONE) && r.value == BeConfirmedNow && rec.row == old(rec.row).(state := BE_CONFIRMED)
      ensures r.Ok? ==>
        rec.log == old(rec.log).(history := rec.log.history, seen := rec.log.seen, seenBefore := rec.log.seenBefore)
      ensures r.Err? ==> Ready(rec, ONE) && Died(env.world, old(env.now), env.now)
    {
      hide GroupInv, Stamped, WithinReach, Mentioned, Protects;
      ghost var before := Of(rec);
      NoteSeen(before, rec.times, env.world, limits, seen, env.now);
      rec.log := rec.log.(seen := seen, seenBefore := env.now);
      ghost var g := Of(rec);
      assert g == before.(log := before.log.(seen := seen, seenBefore := env.now));
      MoreSlack(g, env.world, limits, Slack(0, 0, 1), ONE);
      assert forall k :: 0 <= k < |seen| ==> SeenProtected(g.gid, g.row, g.log, env.world, k);
      ConfirmedRow(g, env.world);
      BeConfirmWrite(g, env.world, limits, g.row.(state := BE_CONFIRMED));
      var _ :- rec.UpdateGroupState(env, BE_CONFIRMED, NO_PATCH);
      assert Of(rec) == Written(g, rec.row);
      MoreSlack(Of(rec), env.world, limits, NONE, ONE);
      var _ :- env.Ask();
      r := Ok(BeConfirmedNow);
    }

    lemma ConfirmedRow(g: Group, world: nat -> Moment)
      requires |g.log.seen| == |g.row.spec.applyTo| &&
        forall k :: 0 <= k < |g.log.seen| ==> SeenProtected(g.gid, g.row, g.log, world, k)
      ensures forall k :: 0 <= k < |g.log.seen| ==> SeenProtected(g.gid, g.row.(state := BE_CONFIRMED), g.log, world, k)
    {
      forall k | 0 <= k < |g.log.seen| ensures SeenProtected(g.gid, g.row.(state := BE_CONFIRMED), g.log, world, k) {
        assert SeenProtected(g.gid, g.row, g.log, world, k);
      }
    }

    // -------------------------------------------------------------------------
    // Target and stop transitions (execution/mt5_tp_transitions.py)
    // -------------------------------------------------------------------------

    /** One write outside the break-even and compensation flows. */
    method PlainUpdate(rec: GroupRecord, state: GroupState, patch: Patch) returns (r: Res<()>)
      requires Valid() && Ready(rec, NONE) && Plain(state) && Step(rec.row.state, state) && !Compensating(rec.row.state)
      requires patch.be.None? && patch.comp.None?
      requires patch.legs.Some? ==>
        LegsNumbered(patch.legs.value) && LegsMentioned(patch.legs.value, env.world, rec.gid)
      requires patch.legs.Some? && BE_REQUESTED in rec.log.history ==> SameTickets(rec.row.legs, patch.legs.value)
      requires state == SUBMITTED ==> Action.OpenGroup in rec.actions && !rec.log.recreated
      modifies env, rec`row, rec`log, rec`times
      ensures old(env.now) <= env.now && Ready(rec, NONE)
      ensures r.Ok? ==>
        rec.row == Patched(old(rec.row), state, patch) &&
        rec.log == old(rec.log).(history := old(rec.log.history) + [state])
      ensures r.Err? ==> Of(rec) == old(Of(rec))
    {
      hide GroupInv, Stamped, WithinReach, Mentioned, LegsMentioned;
      PathOf(rec);
      ghost var g := Of(rec);
      PlainWrite(g, env.world, limits, NONE, Patched(rec.row, state, patch));
      r := rec.UpdateGroupState(env, state, patch);
      assert r.Ok? ==> Of(rec) == Written(g, rec.row);
    }

    /** `tp1_filled`. `group` is the row as loaded at the start of the poll: it may still say
        SUBMITTED when this poll has already stored OPENED. */
    method Tp1Filled(rec: GroupRecord, group: Row, price: real) returns (r: Res<()>)
      requires Valid() && Ready(rec, NONE)
      requires group.state == SUBMITTED || group.state == OPENED
      requires rec.row.state == group.state || rec.row.state == OPENED
      requires group.be == rec.row.be && SameTickets(rec.row.legs, group.legs) && LegsNumbered(group.legs)
      modifies env, rec`row, rec`log, rec`times
      ensures old(env.now) <= env.now && Ready(rec, NONE)
      ensures r.Ok? ==> var spec := FilledSpec(group.spec, price);
        && spec.Some?
        && rec.row ==
          Row(spec.value, TP1_FILLED, CloseLegState(group.legs, 1), group.be, old(rec.row.comp), old(rec.row.volume),
            true)
    {
      hide GroupInv, Stamped, WithinReach, Mentioned, CloseLegState, FilledSpec, LegsNumbered, LegsMentioned,
        SameTickets;
      PathOf(rec);
      SameTicketsChain(rec.row.legs, group.legs, CloseLegState(group.legs, 1));
      SameLegsMentioned(rec.row.legs, CloseLegState(group.legs, 1), env.world, rec.gid);
      if group.state == SUBMITTED {
        var _ :- PlainUpdate(rec, OPENED, NO_PATCH);
      }
      var spec := FilledSpec(group.spec, price);
      if spec.None? { return Err; }
      r := CloseFirst(rec, spec.value, CloseLegState(group.legs, 1), group.be);
    }

    method CloseFirst(rec: GroupRecord, spec: Spec, legs: seq<Leg>, be: Be) returns (r: Res<()>)
      requires Valid() && Ready(rec, NONE) && rec.row.state == OPENED && LegsNumbered(legs) &&
        LegsMentioned(legs, env.world, rec.gid) && be == rec.row.be
      modifies env, rec`row, rec`log, rec`times
      ensures old(env.now) <= env.now && Ready(rec, NONE)
      ensures r.Ok? ==> rec.row == Row(spec, TP1_FILLED, legs, be, old(rec.row.comp), old(rec.row.volume), true)
    {
      hide GroupInv, Stamped, WithinReach, Mentioned;
      PathOf(rec);
      HistoryFacts(rec.log.history);
      var _ :- PlainUpdate(rec, TP1_FILLED, NO_PATCH.(legs := Some(legs)));
      r := PlainSave(rec, spec, legs, be, None);
    }

    /** The invariant contains the path property. */
    lemma PathOf(rec: GroupRecord)
      requires GroupInv(Of(rec), env.world, limits, NONE)
      ensures IsHistory(rec.log.history) && Last(rec.log.history) == rec.row.state
      ensures LegsNumbered(rec.row.legs) && LegsMentioned(rec.row.legs, env.world, rec.gid)
    {
    }

    /** `tp2_filled`: only from BE_CONFIRMED. */
    method Tp2Filled(rec: GroupRecord, group: Row) returns (r: Res<()>)
      requires Valid() && Ready(rec, NONE) && group.state == rec.row.state && group.legs == rec.row.legs
      modifies env, rec`row, rec`log, rec`times
      ensures old(env.now) <= env.now && Ready(rec, NONE)
      ensures r.Ok? ==>
        group.state == BE_CONFIRMED &&
        rec.row == old(rec.row).(state := TP2_FILLED, legs := CloseLegState(group.legs, 2))
    {
      hide GroupInv, Stamped, WithinReach, Mentioned;
      PathOf(rec);
      if !ValidTransition(group.state, TP2_FILLED) { return Err; }
      SameLegsMentioned(rec.row.legs, CloseLegState(group.legs, 2), env.world, rec.gid);
      var _ :- PlainUpdate(rec, TP2_FILLED, NO_PATCH.(legs := Some(CloseLegState(group.legs, 2))));
      var _ :- env.Ask();
      r := Ok(());
    }

    /** `tp3_filled`: TP3_FILLED, then RECONCILED. A stale `group` (this poll moved the stored state
        from BE_CONFIRMED to TP2_FILLED) makes it raise. */
    method Tp3Filled(rec: GroupRecord, group: Row) returns (r: Res<()>)
      requires Valid() && Ready(rec, NONE) && rec.row.state == TP2_FILLED && SameTickets(rec.row.legs, group.legs)
      modifies env, rec`row, rec`log, rec`times
      ensures old(env.now) <= env.now && Ready(rec, NONE)
      ensures r.Ok? ==>
        group.state == TP2_FILLED && rec.row == old(rec.row).(state := RECONCILED, legs := CloseLegState(group.legs, 3))
    {
      hide GroupInv, Stamped, WithinReach, Mentioned;
      PathOf(rec);
      if !ValidTransition(group.state, TP3_FILLED) { return Err; }
      var legs := CloseLegState(group.legs, 3);
      SameTicketsChain(rec.row.legs, group.legs, legs);
      SameLegsMentioned(rec.row.legs, legs, env.world, rec.gid);
      hide CloseLegState, SameTickets, LegsNumbered, LegsMentioned;
      r := CloseOut(rec, legs);
    }

    method CloseOut(rec: GroupRecord, legs: seq<Leg>) returns (r: Res<()>)
      requires Valid() && Ready(rec, NONE) && rec.row.state == TP2_FILLED && SameTickets(rec.row.legs, legs) &&
        LegsNumbered(legs)
      requires LegsMentioned(legs, env.world, rec.gid)
      modifies env, rec`row, rec`log, rec`times
      ensures old(env.now) <= env.now && Ready(rec, NONE)
      ensures r.Ok? ==> rec.row == old(rec.row).(state := RECONCILED, legs := legs)
    {
      hide GroupInv, Stamped, WithinReach, Mentioned, LegsNumbered, LegsMentioned;
      var _ :- PlainUpdate(rec, TP3_FILLED, NO_PATCH.(legs := Some(legs)));
      var _ :- PlainUpdate(rec, RECONCILED, NO_PATCH.(legs := Some(legs)));
      r := Notify();
    }

    /** The ledger event and the notification that close a flow; a crash may hit here as well. */
    method Notify() returns (r: Res<()>)
      modifies env
      ensures env.now == old(env.now) + 1
      ensures r.Err? ==> Died(env.world, old(env.now), env.now)
    {
      var _ :- env.Ask();
      r := Ok(());
    }

    /** `save_group` right after the same state was stored, before any break-even request. */
    method PlainSave(rec: GroupRecord, spec: Spec, legs: seq<Leg>, be: Be, volume: Option<Volume>) returns (r: Res<()>)
      requires Valid() && Ready(rec, NONE) &&
        (rec.row.state == SUBMITTED || rec.row.state == OPENED || rec.row.state == TP1_FILLED)
      requires LegsNumbered(legs) && LegsMentioned(legs, env.world, rec.gid) && be == rec.row.be
      modifies env, rec`row, rec`log, rec`times
      ensures old(env.now) <= env.now && Ready(rec, NONE)
      ensures r.Ok? ==>
        rec.row == Row(spec, old(rec.row.state), legs, be, old(rec.row.comp), Or(volume, old(rec.row.volume)), true)
    {
      ghost var g := Of(rec);
      HistoryFacts(g.log.history);
      hide GroupInv, Stamped, WithinReach, Mentioned;
      PlainWrite(g, env.world, limits, NONE,
        Row(spec, rec.row.state, legs, be, rec.row.comp, Or(volume, rec.row.volume), true));
      var saved := rec.SaveGroup(env, spec, rec.row.state, legs, be, true, volume);
      if saved.Err? { return Err; }
      assert Of(rec) == Written(g, rec.row);
      r := Notify();
    }

    /** `stop_group`. */
    method StopGroup(rec: GroupRecord, group: Row) returns (r: Res<()>)
      requires Valid() && Ready(rec, NONE) && group == rec.row
      modifies env, rec`row, rec`log, rec`times
      ensures old(env.now) <= env.now && Ready(rec, NONE)
      ensures r.Ok? ==> ValidTransition(group.state, STOPPED) && rec.row == group.(state := STOPPED)
      ensures rec.row == group || rec.row == group.(state := STOPPED)
      ensures Compensating(old(rec.row.state)) ==> r.Err? && rec.row == old(rec.row) && rec.log == old(rec.log)
    {
      hide GroupInv, Stamped, WithinReach, Mentioned;
      if !ValidTransition(group.state, STOPPED) { return Err; }
      var _ :- PlainUpdate(rec, STOPPED, NO_PATCH);
      var _ :- env.Ask();
      r := Ok(());
    }

    /** On a netting account the broker's volume replaces the filled total. */
    method OpenedVolume(rec: GroupRecord, volume: Volume) returns (r: Res<Volume>)
      requires Valid()
      modifies env, driver
      ensures old(env.now) <= env.now && Valid()
      ensures r.Ok? ==> r.value == Volume(r.value.filled, volume.closed)
    {
      var mode :- driver.ResolveMode();
      r := Ok(volume);
      if mode == Netting {
        var pos, _, _ :- driver.QueryPosition(mode, rec.gid, ByLeg(1));
        if pos.Some? { r := Ok(Volume(pos.value.volume, volume.closed)); }
      }
    }

    /** `_open_group`: the fill is the volume-weighted open price of the group's positions; on a
        netting account the broker's volume replaces the filled total. Returns the opened legs. */
    method OpenGroup(rec: GroupRecord, group: Row, positions: seq<Position>) returns (r: Res<seq<Leg>>)
      requires Valid() && Ready(rec, NONE) && group == rec.row
      modifies env, driver, rec`row, rec`log, rec`times
      ensures old(env.now) <= env.now && Valid() && Ready(rec, NONE)
      ensures r.Ok? ==> r.value == OpenLegs(group.legs) && LegsNumbered(r.value) && SameTickets(group.legs, r.value)
      ensures r.Ok? ==> var spec := OpenedSpec(group.spec, positions);
        && spec.Some?
        && rec.row ==
          Row(spec.value, OPENED, r.value, group.be, group.comp, Volume(rec.row.volume.filled, group.volume.closed),
            true)
    {
      hide GroupInv, Stamped, WithinReach, Mentioned, OpenedSpec, OpenLegs, SameTickets, LegsNumbered, LegsMentioned;
      PathOf(rec);
      if !ValidTransition(group.state, OPENED) { return Err; }
      var volume :- OpenedVolume(rec, group.volume);
      var spec := OpenedSpec(group.spec, positions);
      if spec.None? { return Err; }
      var legs := OpenLegs(group.legs);
      SameLegsMentioned(group.legs, legs, env.world, rec.gid);
      var _ :- StoreOpened(rec, spec.value, legs, volume);
      r := Ok(legs);
    }

    method StoreOpened(rec: GroupRecord, spec: Spec, legs: seq<Leg>, volume: Volume) returns (r: Res<()>)
      requires Valid() && Ready(rec, NONE) && rec.row.state == SUBMITTED && LegsNumbered(legs) &&
        LegsMentioned(legs, env.world, rec.gid)
      modifies env, rec`row, rec`log, rec`times
      ensures old(env.now) <= env.now && Ready(rec, NONE)
      ensures r.Ok? ==> rec.row == Row(spec, OPENED, legs, old(rec.row.be), old(rec.row.comp), volume, true)
    {
      hide GroupInv, Stamped, WithinReach, Mentioned;
      PathOf(rec);
      HistoryFacts(rec.log.history);
      var _ :- PlainUpdate(rec, OPENED, NO_PATCH.(legs := Some(legs), volume := Some(volume)));
      r := PlainSave(rec, spec, legs, rec.row.be, Some(volume));
    }

    // -------------------------------------------------------------------------
    // Netting closes (execution/mt5_netting_close.py)
    // -------------------------------------------------------------------------

    function Cumulative(spec: Spec, leg: nat): real {
      (if leg >= 1 then spec.share1 else 0.0) + (if leg >= 2 then spec.share2 else 0.0) +
        (if leg >= 3 then spec.share3 else 0.0)
    }

    /** `netting_close_volume`: from the broker's position and the ledger of `group`. */
    method CloseVolume(rec: GroupRecord, group: Row, leg: nat) returns (r: Res<real>)
      requires Valid()
      modifies env, driver
      ensures old(env.now) <= env.now && Valid()
    {
      var mode :- driver.ResolveMode();
      var m :- env.Ask();
      if m.quote.None? { return Ok(0.0); }
      var pos, _, _ :- driver.QueryPosition(mode, rec.gid, ByLeg(1));
      if pos.None? { return Ok(0.0); }
      r := Ok(NettingCloseVolume(leg, m.quote.value.volumeStep, m.quote.value.volumeMin, pos.value.volume,
                                 group.volume.filled, group.volume.closed, Cumulative(group.spec, leg)));
    }

    /** Sends the partial close and, once it is filled, records its action id. */
    method FillLeg(rec: GroupRecord, leg: nat) returns (r: Res<CloseResult>)
      requires Valid() && Ready(rec, NONE) && !Compensating(rec.row.state) && !IsTerminal(rec.row.state)
      requires CloseTp(leg) !in rec.actions
      modifies env, driver, rec`actions, rec`log
      ensures old(env.now) <= env.now && Valid()
      ensures r.Ok? ==> Ready(rec, NONE)
      ensures r.Ok? ==>
        rec.actions == if r.value.CloseFilled? then old(rec.actions) + {CloseTp(leg)} else old(rec.actions)
      ensures r.Err? ==> Ready(rec, ONE)
    {
      hide GroupInv, Stamped, WithinReach, Mentioned;
      r := SendFill(rec, leg);
      if r.Ok? && r.value.CloseFilled? {
        var _ :- rec.MarkAction(env, CloseTp(leg));
        assert Of(rec) == Marked(Of(rec), CloseTp(leg));
      }
    }

    ghost function Marked(g: Group, action: Action): Group {
      g.(actions := g.actions + {action})
    }

    /** Sends the partial close. A fill is paid for by its record. */
    method SendFill(rec: GroupRecord, leg: nat) returns (r: Res<CloseResult>)
      requires Valid() && Ready(rec, NONE) && !Compensating(rec.row.state) && !IsTerminal(rec.row.state)
      requires CloseTp(leg) !in rec.actions
      modifies env, driver, rec`log
      ensures old(env.now) <= env.now && Valid() && Ready(rec, ONE)
      ensures r.Ok? && r.value.CloseRejected? ==> Ready(rec, NONE)
      ensures r.Ok? && r.value.CloseFilled? ==> GroupInv(Marked(Of(rec), CloseTp(leg)), env.world, limits, NONE)
    {
      hide GroupInv, Stamped, WithinReach, Mentioned;
      ghost var g := Of(rec);
      MoreSlack(g, env.world, limits, NONE, ONE);
      var mode :- driver.ResolveMode();
      r := driver.ClosePartial(mode, rec, ByLeg(1), leg);
      ghost var at := rec.log.lastOrder;
      TpCloseSent(g, env.world, limits, leg, at);
      FillAndMark(g, env.world, limits, leg, at);
      MoreSlack(g.(log := g.log.(lastOrder := at)), env.world, limits, NONE, ONE);
      MoreSlack(g.(log := WithTpFill(g.log, leg, at)), env.world, limits, Slack(1, 0, 0), ONE);
      assert Of(rec) == g.(log := g.log.(lastOrder := at)) || Of(rec) == g.(log := WithTpFill(g.log, leg, at));
    }

    /** `netting_close_leg`: true when the target was closed and its transition stored. */
    method NettingCloseLeg(rec: GroupRecord, group: Row, leg: nat) returns (r: Res<bool>)
      requires Valid() && Ready(rec, NONE) && Closable(rec.row, group, leg)
      modifies env, driver, rec
      ensures old(env.now) <= env.now && Valid()
      ensures r.Ok? ==> Ready(rec, NONE)
      ensures r == Ok(true) ==>
        CloseTp(leg) !in old(rec.actions) && CloseTp(leg) in rec.actions && rec.row.volume.filled == group.volume.filled
      ensures r == Ok(true) && leg == 3 ==> group.state == TP2_FILLED
      ensures r == Ok(false) ==> rec.row == old(rec.row)
      ensures r.Ok? ==>
        rec.row.state ==
        (if !r.value then old(rec.row.state) else if leg == 1 then TP1_FILLED else if leg == 2 then TP2_FILLED
          else RECONCILED)
      ensures r.Err? ==> Ready(rec, ONE)
    {
      hide GroupInv, Stamped, WithinReach, Mentioned, Closable, NettingCloseVolume, Cumulative;
      MoreSlack(Of(rec), env.world, limits, NONE, ONE);
      ClosableStates(rec.row, group, leg);
      if rec.HasAction(CloseTp(leg)) { return Ok(false); }
      var volume :- CloseVolume(rec, group, leg);
      if volume <= 0.0 {
        r := SkipLeg(rec, leg);
        return;
      }
      var result :- FillLeg(rec, leg);
      MoreSlack(Of(rec), env.world, limits, NONE, ONE);
      if result.CloseRejected? {
        var _ :- Notify();
        return Ok(false);
      }
      var _ :- TargetFilled(rec, group, leg, if result.volume != 0.0 then result.volume else volume, result.price);
      r := Ok(true);
    }

    /** Nothing fillable: noted once, the position stays managed. */
    method SkipLeg(rec: GroupRecord, leg: nat) returns (r: Res<bool>)
      requires Valid() && Ready(rec, NONE)
      modifies env, rec`actions
      ensures old(env.now) <= env.now && Valid() && Ready(rec, NONE) && r != Ok(true)
      ensures Ready(rec, ONE)
    {
      hide GroupInv, Stamped, WithinReach, Mentioned;
      var marked := Record(rec, CloseTpSkipped(leg), NONE);
      MoreSlack(Of(rec), env.world, limits, NONE, ONE);
      if marked.Err? { return Err; }
      var _ :- Notify();
      r := Ok(false);
    }

    /** The volume ledger and the transition of a filled target. The ledger is the one of `group`. */
    method TargetFilled(rec: GroupRecord, group: Row, leg: nat, filled: real, price: real) returns (r: Res<()>)
      requires Valid() && Ready(rec, NONE) && Closable(rec.row, group, leg)
      modifies env, rec`row, rec`log, rec`times
      ensures old(env.now) <= env.now && Valid() && Ready(rec, NONE) && Ready(rec, ONE)
      ensures r.Ok? ==> rec.row.state == if leg == 1 then TP1_FILLED else if leg == 2 then TP2_FILLED else RECONCILED
      ensures r.Ok? ==> rec.row.volume == Volume(group.volume.filled, group.volume.closed + filled)
      ensures r.Ok? && leg == 3 ==> group.state == TP2_FILLED
    {
      hide GroupInv, Stamped, WithinReach, Mentioned;
      PathOf(rec);
      ghost var g := Of(rec);
      var volume := Volume(group.volume.filled, group.volume.closed + filled);
      VolumeWrite(g, env.world, limits, volume);
      MoreSlack(g, env.world, limits, NONE, ONE);
      var _ :- rec.UpdateGroupState(env, rec.row.state, NO_PATCH.(volume := Some(volume)));
      assert Of(rec) == Written(g, g.row.(volume := volume));
      if leg == 1 {
        r := Tp1Filled(rec, group, price);
      } else if leg == 2 {
        r := Tp2Filled(rec, group);
      } else {
        r := Tp3Filled(rec, group);
      }
      MoreSlack(Of(rec), env.world, limits, NONE, ONE);
    }

    lemma ClosableStates(row: Row, group: Row, leg: nat)
      requires Closable(row, group, leg)
      ensures !Compensating(row.state) && !IsTerminal(row.state)
    {
    }

    // -------------------------------------------------------------------------
    // Compensation of partial opens (execution/mt5_compensation.py)
    // -------------------------------------------------------------------------

    /** Sends one compensating close and records its action id once it is filled. */
    method CloseFound(rec: GroupRecord, mode: AccountMode, ref: Reference, action: Action, ghost slack: nat)
      returns (r: Res<CloseResult>)
      requires Valid() && Ready(rec, Slack(0, slack, 0)) && Closing(rec.row.state) && IsCompensation(action)
      requires rec.log.closes[action] < 1 + Min(rec.row.comp.retries, limits.maxComp) + rec.log.aborts + slack
      modifies env, driver, rec`actions, rec`log
      ensures old(env.now) <= env.now && Valid() && Ready(rec, Slack(0, slack, 0))
      ensures OnlyCloses(old(Of(rec)), Of(rec), action)
      ensures r.Ok? && r.value.CloseFilled? ==> action in rec.actions
    {
      hide GroupInv, Stamped, WithinReach, Mentioned;
      r := SendClose(rec, mode, ref, action, slack);
      if r.Ok? && r.value.CloseFilled? {
        var _ :- MarkGone(rec, action, slack);
      }
    }

    method SendClose(rec: GroupRecord, mode: AccountMode, ref: Reference, action: Action, ghost slack: nat)
      returns (r: Res<CloseResult>)
      requires Valid() && Ready(rec, Slack(0, slack, 0)) && Closing(rec.row.state)
      requires rec.log.closes[action] < 1 + Min(rec.row.comp.retries, limits.maxComp) + rec.log.aborts + slack
      modifies env, driver, rec`log
      ensures old(env.now) <= env.now && Valid() && Ready(rec, Slack(0, slack, 0))
      ensures OnlyCloses(old(Of(rec)), Of(rec), action)
    {
      hide GroupInv, Stamped, WithinReach, Mentioned, Looked;
      ghost var g := Of(rec);
      var result, _, _ := driver.ClosePosition(mode, rec, ref, action);
      CloseSent(g, env.world, limits, slack, action, rec.log.lastOrder);
      assert Of(rec) == g || Of(rec) == g.(log := WithClose(g.log, action, rec.log.lastOrder));
      r := result;
    }

    lemma ClosingHasBegun(rec: GroupRecord, slack: nat)
      requires GroupInv(Of(rec), env.world, limits, Slack(0, slack, 0)) && Closing(rec.row.state)
      ensures PARTIAL_SUBMISSION in rec.log.history
    {
      HistoryFacts(rec.log.history);
    }

    /** Records a reference that is already closed. */
    method MarkGone(rec: GroupRecord, action: Action, ghost slack: nat) returns (r: Res<()>)
      requires Valid() && Ready(rec, Slack(0, slack, 0)) && Closing(rec.row.state) && IsCompensation(action)
      modifies env, rec`actions
      ensures old(env.now) <= env.now && Ready(rec, Slack(0, slack, 0))
      ensures OnlyCloses(old(Of(rec)), Of(rec), action)
      ensures r.Ok? ==> action in rec.actions
      ensures r.Err? ==> Died(env.world, old(env.now), env.now)
    {
      hide GroupInv, Stamped, WithinReach, Mentioned, Looked;
      ClosingHasBegun(rec, slack);
      var _ :- Record(rec, action, Slack(0, slack, 0));
      r := Ok(());
    }

    /** One reference of the first round: found closed, closed, or refused. */
    method CompensateOne(rec: GroupRecord, mode: AccountMode, ref: Reference, action: Action)
      returns (r: Res<CloseResult>)
      requires Valid() && Ready(rec, NONE) && Closing(rec.row.state) && IsCompensation(action) &&
        rec.log.closes[action] == 0
      modifies env, driver, rec`actions, rec`log
      ensures old(env.now) <= env.now && Valid() && Ready(rec, NONE)
      ensures OnlyCloses(old(Of(rec)), Of(rec), action)
      ensures r.Ok? && r.value.CloseFilled? ==> action in rec.actions
    {
      hide GroupInv, Stamped, WithinReach, Mentioned;
      var pos, _, _ :- driver.QueryPosition(mode, rec.gid, ref);
      if pos.None? {
        var _ :- MarkGone(rec, action, 0);
        return Ok(CloseFilled(0.0, 0.0));
      }
      var result :- CloseFound(rec, mode, ref, action, 0);
      r :=
        Ok(if result.CloseFilled? && result.volume == 0.0 then CloseFilled(pos.value.volume, result.price) else result);
    }

    /** The first round: every reference that is not recorded yet is closed, or found closed. */
    method FirstRound(rec: GroupRecord, mode: AccountMode, refs: seq<(Reference, Action)>)
      returns (r: Res<seq<CompEntry>>, closed: real)
      requires Valid() && Ready(rec, NONE) && rec.row.state == PARTIAL_SUBMISSION && DistinctRefs(refs)
      requires forall a :: rec.log.closes[a] == 0
      modifies env, driver, rec`actions, rec`log
      ensures old(env.now) <= env.now && Valid() && Ready(rec, NONE)
      ensures rec.row == old(rec.row) && rec.log.aborts == old(rec.log.aborts) &&
        rec.log.compMode == old(rec.log.compMode)
      ensures forall a :: rec.log.closes[a] <= 1
      ensures r.Ok? ==> FilledRecorded(r.value, rec.actions)
      ensures r.Ok? ==>
        DistinctEntries(r.value) &&
        forall j :: 0 <= j < |refs| ==> HasEntry(r.value, refs[j].1) || refs[j].1 in old(rec.actions)
    {
      hide GroupInv, Stamped, WithinReach, Mentioned, RoundSoFar, DistinctEntries, FilledRecorded, HasEntry;
      NothingSoFar(refs, rec.actions);
      closed := 0.0;
      var entries: seq<CompEntry> := [];
      for i := 0 to |refs|
        invariant old(env.now) <= env.now && Valid() && Ready(rec, NONE)
        invariant rec.row == old(rec.row) && rec.log.aborts == old(rec.log.aborts) &&
          rec.log.compMode == old(rec.log.compMode)
        invariant forall a :: rec.log.closes[a] <= 1
        invariant forall j :: i <= j < |refs| ==> rec.log.closes[refs[j].1] == 0
        invariant forall j :: i <= j < |refs| ==> (refs[j].1 in rec.actions <==> refs[j].1 in old(rec.actions))
        invariant RoundSoFar(entries, refs, i, rec.actions, old(rec.actions))
      {
        var ref, action := refs[i].0, refs[i].1;
        ghost var actions := rec.actions;
        if !rec.HasAction(action) {
          var one := CompensateOne(rec, mode, ref, action);
          if one.Err? { return Err, closed; }
          if one.value.CloseFilled? { closed := closed + one.value.volume; }
          AddedSoFar(entries, refs, i, actions, rec.actions, old(rec.actions),
            CompEntry(action, one.value.CloseFilled?));
          entries := entries + [CompEntry(action, one.value.CloseFilled?)];
        } else {
          SkippedSoFar(entries, refs, i, rec.actions, old(rec.actions));
        }
      }
      RoundDone(entries, refs, rec.actions, old(rec.actions));
      r := Ok(entries);
    }

    /** `begin_compensation`. Re-entering it from a stored PARTIAL_SUBMISSION raises: the table has
        no edge from that state to itself. */
    method BeginCompensation(rec: GroupRecord, group: Row) returns (r: Res<bool>)
      requires Valid() && Ready(rec, NONE) && group == rec.row &&
        (group.state == SUBMITTED || group.state == PARTIAL_SUBMISSION)
      modifies env, driver, rec
      ensures old(env.now) <= env.now && Valid() && Ready(rec, NONE)
      ensures r.Ok? ==> rec.row.state == if r.value then COMPENSATION_REQUESTED else FAILED_WITH_OPEN_RISK
      ensures r.Ok? ==> (r.value <==> forall i :: 0 <= i < |rec.row.comp.entries| ==> rec.row.comp.entries[i].filled)
      ensures group.state == PARTIAL_SUBMISSION ==> r.Err? && Of(rec) == old(Of(rec))
    {
      hide GroupInv, Stamped, WithinReach, Mentioned, IsCompensation;
      if !ValidTransition(group.state, PARTIAL_SUBMISSION) { return Err; }
      var _ :- StorePartial(rec);
      r := CompensateNow(rec);
    }

    /** Compensation begins with the write of PARTIAL_SUBMISSION. Nothing was closed before. */
    method StorePartial(rec: GroupRecord) returns (r: Res<()>)
      requires Valid() && Ready(rec, NONE) && rec.row.state == SUBMITTED
      modifies env, rec`row, rec`log, rec`times
      ensures old(env.now) <= env.now && Ready(rec, NONE)
      ensures r.Ok? ==> rec.row == old(rec.row).(state := PARTIAL_SUBMISSION)
      ensures rec.log.closes == multiset{} && rec.row.comp == NO_COMP && LegsNumbered(rec.row.legs)
      ensures forall a :: a in rec.actions ==> !IsCompensation(a)
    {
      hide GroupInv, Stamped, WithinReach, Mentioned, IsCompensation;
      NotBegunYet(rec);
      ghost var g := Of(rec);
      PartialWrite(g, env.world, limits, rec.row.(state := PARTIAL_SUBMISSION));
      var _ :- rec.UpdateGroupState(env, PARTIAL_SUBMISSION, NO_PATCH);
      assert Of(rec) == Written(g, rec.row);
      r := Ok(());
    }

    /** Reads the account mode and starts the first round. */
    method CompensateNow(rec: GroupRecord) returns (r: Res<bool>)
      requires Valid() && Ready(rec, NONE) && rec.row.state == PARTIAL_SUBMISSION
      requires rec.log.closes == multiset{} && rec.row.comp == NO_COMP && LegsNumbered(rec.row.legs)
      requires forall a :: a in rec.actions ==> !IsCompensation(a)
      modifies env, driver, rec
      ensures old(env.now) <= env.now && Valid() && Ready(rec, NONE)
      ensures r.Ok? ==> rec.row.state == if r.value then COMPENSATION_REQUESTED else FAILED_WITH_OPEN_RISK
      ensures r.Ok? ==> (r.value <==> forall i :: 0 <= i < |rec.row.comp.entries| ==> rec.row.comp.entries[i].filled)
    {
      hide GroupInv, Stamped, WithinReach, Mentioned;
      var _ :- Notify();
      var mode :- driver.ResolveMode();
      ghost var k := Of(rec);
      NoteCompMode(k, env.world, limits, mode);
      rec.log := rec.log.(compMode := mode);
      assert Of(rec) == k.(log := k.log.(compMode := mode));
      r := Compensate(rec, mode);
    }

    lemma NotBegunYet(rec: GroupRecord)
      requires GroupInv(Of(rec), env.world, limits, NONE) && rec.row.state == SUBMITTED
      ensures rec.log.closes == multiset{} && rec.row.comp == NO_COMP && LegsNumbered(rec.row.legs)
      ensures forall a :: a in rec.actions ==> !IsCompensation(a)
    {
      HistoryFacts(rec.log.history);
    }

    /** The body of `begin_compensation` once PARTIAL_SUBMISSION is stored. */
    method Compensate(rec: GroupRecord, mode: AccountMode) returns (r: Res<bool>)
      requires Valid() && Ready(rec, NONE) && rec.row.state == PARTIAL_SUBMISSION && rec.log.compMode == mode
      requires rec.log.closes == multiset{} && rec.row.comp == NO_COMP && LegsNumbered(rec.row.legs)
      requires forall a :: a in rec.actions ==> !IsCompensation(a)
      modifies env, driver, rec
      ensures old(env.now) <= env.now && Valid() && Ready(rec, NONE)
      ensures r.Ok? ==> rec.row.state == if r.value then COMPENSATION_REQUESTED else FAILED_WITH_OPEN_RISK
      ensures r.Ok? ==> (r.value <==> forall i :: 0 <= i < |rec.row.comp.entries| ==> rec.row.comp.entries[i].filled)
    {
      var refs := CompRefs(mode, rec.row.legs);
      RefsAreDistinct(mode, rec.row.legs);
      hide GroupInv, Stamped, WithinReach, Mentioned, CompRefs;
      var entries, closed := FirstRound(rec, mode, refs);
      if entries.Err? { return Err; }
      r := StoreFirstRound(rec, mode, refs, entries.value, closed);
    }

    method StoreFirstRound(
      rec: GroupRecord, mode: AccountMode, ghost refs: seq<(Reference, Action)>, entries: seq<CompEntry>, closed: real)
      returns (r: Res<bool>)
      requires Valid() && Ready(rec, NONE) && rec.row.state == PARTIAL_SUBMISSION && rec.log.compMode == mode
      requires LegsNumbered(rec.row.legs) && refs == CompRefs(mode, rec.row.legs) && DistinctEntries(entries) &&
        FilledRecorded(entries, rec.actions)
      requires forall j :: 0 <= j < |refs| ==> HasEntry(entries, refs[j].1)
      requires forall a :: rec.log.closes[a] <= 1
      modifies env, rec`row, rec`log, rec`times
      ensures old(env.now) <= env.now && Valid() && Ready(rec, NONE)
      ensures r.Ok? ==> rec.row.state == if r.value then COMPENSATION_REQUESTED else FAILED_WITH_OPEN_RISK
      ensures r.Ok? ==> rec.row.comp.entries == entries
      ensures r.Ok? ==> (r.value <==> forall i :: 0 <= i < |entries| ==> entries[i].filled)
    {
      hide GroupInv, Stamped, WithinReach, Mentioned, CompRefs;
      var comp := Comp(rec.row.comp.retries, entries);
      var failed := exists i :: 0 <= i < |entries| && !entries[i].filled;
      var state := if failed then FAILED_WITH_OPEN_RISK else COMPENSATION_REQUESTED;
      var volume := if failed then None else Some(rec.row.volume.(closed := rec.row.volume.closed + closed));
      ghost var g := Of(rec);
      ghost var row := Patched(rec.row, state, NO_PATCH.(comp := Some(comp), volume := volume));
      RefsCover(row, mode, refs);
      CompWrite(g, env.world, limits, 0, row);
      var _ :- rec.UpdateGroupState(env, state, NO_PATCH.(comp := Some(comp), volume := volume));
      assert Of(rec) == Written(g, rec.row);
      var _ :- Notify();
      r := Ok(!failed);
    }

    /** `compensation_ticket` and the position query of one entry. A missing position was gone at the
        moment of the sighting. */
    method FindEntry(rec: GroupRecord, mode: AccountMode, action: Action)
      returns (r: Res<(nat, Option<Position>)>, ghost s: Sighting)
      requires Valid()
      modifies env, driver
      ensures old(env.now) <= env.now && Valid()
      ensures r.Ok? && r.value.1.None? ==> ShownGone(rec.gid, rec.row.legs, env.world, action, s, old(env.now), env.now)
      ensures Addressable(mode, action) && Calm(env.world, old(env.now), env.now) ==> r.Ok? && r.value.1.None?
    {
      s := Sighting(0, 0, mode);
      var ticket: nat := 0;
      if action.CompensateGroup? {
        var pos, at, tk := driver.QueryPosition(mode, rec.gid, ByLeg(1));
        s := Sighting(at, tk, mode);
        if pos.Err? { return Err, s; }
        if pos.value.None? { return Ok((0, None)), s; }
        ticket := pos.value.value.ticket;
      } else if action.CompensateLeg? {
        ticket := LegTicket(rec.row.legs, action.leg);
        s := Sighting(0, ticket, mode);
      }
      if ticket == 0 { return Ok((0, None)), s; }
      var pos, at, tk := driver.QueryPosition(mode, rec.gid, ByTicket(ticket));
      s := Sighting(at, ticket, mode);
      if pos.Err? { return Err, s; }
      r := Ok((ticket, pos.value));
    }

    /** Phase 1 of `verify_compensation`: every refused close is sent once more. */
    method RetryRound(rec: GroupRecord, mode: AccountMode) returns (r: Res<seq<CompEntry>>)
      requires Valid() && Ready(rec, NONE) && Closing(rec.row.state)
      modifies env, driver, rec`actions, rec`log
      ensures old(env.now) <= env.now && Valid() && Ready(rec, Slack(0, 1, 0))
      ensures rec.row == old(rec.row) &&
        rec.log == old(rec.log).(closes := rec.log.closes, lastOrder := rec.log.lastOrder)
      ensures r.Ok? ==> FilledRecorded(r.value, rec.actions)
      ensures r.Ok? ==>
        |r.value| == |rec.row.comp.entries| &&
        forall j :: 0 <= j < |r.value| ==> r.value[j].action == rec.row.comp.entries[j].action
      ensures AllAddressable(mode, rec.row.comp.entries) && Calm(env.world, old(env.now), env.now) ==>
        r.Ok? && AllFilled(r.value)
    {
      hide GroupInv, Stamped, WithinReach, Mentioned, Calm, Died, RetriedTo, OnlyCloses, FilledRecorded;
      EntriesDistinct(rec);
      MoreSlack(Of(rec), env.world, limits, NONE, Slack(0, 1, 0));
      ghost var start := Of(rec);
      var entries := rec.row.comp.entries;
      assert RetriedTo(start, start, entries, 0) by { NothingRetried(start); }
      for i := 0 to |entries|
        invariant old(env.now) <= env.now && Valid() && Ready(rec, Slack(0, 1, 0))
        invariant |entries| == |start.row.comp.entries| && RetriedTo(start, Of(rec), entries, i)
        invariant CalmFills(env.world, old(env.now), env.now, mode, start.row.comp.entries, entries, i)
      {
        ghost var from, before := env.now, Of(rec);
        RetriedFacts(start, before, entries, i);
        var done := RetryEntry(rec, mode, entries[i]);
        ghost var filled := done == Ok(true);
        OneMoreFilled(env.world, old(env.now), from, env.now, mode, start.row.comp.entries, entries, i, filled);
        OneMoreRetried(start, before, Of(rec), entries, i, filled);
        RetriedAll(start, Of(rec), entries[i := CompEntry(entries[i].action, filled)], i + 1);
        if done.Err? { return Err; }
        entries := entries[i := CompEntry(entries[i].action, done.value)];
      }
      RetriedAll(start, Of(rec), entries, |entries|);
      r := Ok(entries);
    }

    /** A closed entry is left alone; a refused one is tried again. */
    method RetryEntry(rec: GroupRecord, mode: AccountMode, entry: CompEntry) returns (r: Res<bool>)
      requires Valid() && Ready(rec, Slack(0, 1, 0)) && Closing(rec.row.state) &&
        (entry.filled ==> entry.action in rec.actions)
      requires rec.log.closes[entry.action] <= 1 + Min(rec.row.comp.retries, limits.maxComp) + rec.log.aborts
      modifies env, driver, rec`actions, rec`log
      ensures old(env.now) <= env.now && Valid() && Ready(rec, Slack(0, 1, 0))
      ensures OnlyCloses(old(Of(rec)), Of(rec), entry.action)
      ensures r == Ok(true) ==> entry.action in rec.actions
      ensures Addressable(mode, entry.action) && Calm(env.world, old(env.now), env.now) ==> r == Ok(true)
    {
      hide GroupInv, Stamped, WithinReach, Mentioned, Calm;
      if entry.filled { return Ok(true); }
      r := RetryOne(rec, mode, entry.action);
    }

    lemma EntriesDistinct(rec: GroupRecord)
      requires GroupInv(Of(rec), env.world, limits, NONE)
      ensures DistinctEntries(rec.row.comp.entries) && FilledRecorded(rec.row.comp.entries, rec.actions)
      ensures forall a :: rec.log.closes[a] <= 1 + Min(rec.row.comp.retries, limits.maxComp) + rec.log.aborts
    {
    }

    method RetryOne(rec: GroupRecord, mode: AccountMode, action: Action) returns (r: Res<bool>)
      requires Valid() && Ready(rec, Slack(0, 1, 0)) && Closing(rec.row.state)
      requires rec.log.closes[action] <= 1 + Min(rec.row.comp.retries, limits.maxComp) + rec.log.aborts
      modifies env, driver, rec`actions, rec`log
      ensures old(env.now) <= env.now && Valid() && Ready(rec, Slack(0, 1, 0))
      ensures OnlyCloses(old(Of(rec)), Of(rec), action)
      ensures r == Ok(true) ==> action in rec.actions
      ensures Addressable(mode, action) && Calm(env.world, old(env.now), env.now) ==> r == Ok(true)
    {
      hide GroupInv, Stamped, WithinReach, Mentioned, Calm, Died;
      if !IsCompensation(action) { return Err; }
      var found, _ := FindEntry(rec, mode, action);
      ghost var mid := env.now;
      if found.Err? { return Err; }
      if found.value.1.None? {
        var marked := MarkGone(rec, action, 1);
        CalmWithin(env.world, old(env.now), mid, env.now, env.now);
        return if marked.Ok? then Ok(true) else Err;
      }
      var result := CloseFound(rec, mode, ByTicket(found.value.0), action, 1);
      CalmWithin(env.world, old(env.now), old(env.now), mid, env.now);
      r := if result.Ok? then Ok(result.value.CloseFilled?) else Err;
    }

    /** Phase 2: is every entry's position gone? Nothing is sent here. */
    method AllGone(rec: GroupRecord, mode: AccountMode) returns (r: Res<bool>, ghost flat: map<Action, Sighting>)
      requires Valid()
      modifies env, driver
      ensures old(env.now) <= env.now && Valid()
      ensures r == Ok(true) ==> forall i :: 0 <= i < |rec.row.comp.entries| ==>
        ShownFlat(rec.gid, rec.row, env.world, rec.row.comp.entries[i].action, flat, old(env.now), env.now)
      ensures AllAddressable(mode, rec.row.comp.entries) && Calm(env.world, old(env.now), env.now) ==> r == Ok(true)
    {
      hide Calm;
      flat := map[];
      var gone := true;
      for i := 0 to |rec.row.comp.entries|
        invariant old(env.now) <= env.now && Valid()
        invariant gone ==>
          forall j :: 0 <= j < i ==>
          ShownFlat(rec.gid, rec.row, env.world, rec.row.comp.entries[j].action, flat, old(env.now), env.now)
        invariant AllAddressable(mode, rec.row.comp.entries) && Calm(env.world, old(env.now), env.now) ==> gone
      {
        var action := rec.row.comp.entries[i].action;
        ghost var from := env.now;
        var found, s := FindEntry(rec, mode, action);
        CalmWithin(env.world, old(env.now), from, env.now, env.now);
        CalmWithin(env.world, old(env.now), old(env.now), from, env.now);
        if found.Err? { return Err, flat; }
        if found.value.1.Some? {
          gone := false;
        } else {
          flat := flat[action := s];
        }
      }
      r := Ok(gone);
    }

    /** `consume_compensation_deals`: the OUT deals of the group's positions are recorded. */
    method ConsumeDeals(rec: GroupRecord, mode: AccountMode) returns (r: Res<()>)
      requires Valid() && Ready(rec, NONE)
      modifies env, driver, rec`actions
      ensures old(env.now) <= env.now && Valid() && Ready(rec, NONE)
      ensures r.Ok? ==> LegsConsumed(env.world, old(env.now), env.now, rec.row.legs, |rec.row.legs|, rec.actions)
      ensures r.Err? ==> Died(env.world, old(env.now), env.now)
    {
      hide GroupInv, Stamped, WithinReach, Mentioned, Died;
      if mode == Netting {
        var pos, _, _ :- driver.QueryPosition(mode, rec.gid, ByLeg(1));
        ghost var asked := env.now;
        if pos.Some? {
          r := ConsumeTicket(rec, pos.value.ticket);
          if r.Err? {
            DiedWithin(env.world, old(env.now), asked, env.now);
            return;
          }
        }
      }
      ghost var from := env.now;
      r := ConsumeLegs(rec);
      if r.Err? {
        DiedWithin(env.world, old(env.now), from, env.now);
      } else {
        LegsConsumedSince(env.world, from, old(env.now), env.now, rec.row.legs, rec.actions);
      }
    }

    /** The tickets recorded for the legs, in turn. */
    method ConsumeLegs(rec: GroupRecord) returns (r: Res<()>)
      requires Valid() && Ready(rec, NONE)
      modifies env, rec`actions
      ensures old(env.now) <= env.now && Ready(rec, NONE)
      ensures r.Ok? ==> LegsConsumed(env.world, old(env.now), env.now, rec.row.legs, |rec.row.legs|, rec.actions)
      ensures r.Err? ==> Died(env.world, old(env.now), env.now)
    {
      assert LegsConsumed(env.world, env.now, env.now, rec.row.legs, 0, rec.actions);
      hide GroupInv, Stamped, WithinReach, Mentioned, Consumed, LegsConsumed, Died;
      for i := 0 to |rec.row.legs|
        invariant old(env.now) <= env.now && Valid() && Ready(rec, NONE)
        invariant LegsConsumed(env.world, old(env.now), env.now, rec.row.legs, i, rec.actions)
      {
        ghost var asked, actions := env.now, rec.actions;
        if rec.row.legs[i].position != 0 {
          r := ConsumeTicket(rec, rec.row.legs[i].position);
          if r.Err? {
            DiedWithin(env.world, old(env.now), asked, env.now);
            return;
          }
        }
        OneMoreConsumed(env.world, old(env.now), asked, env.now, rec.row.legs, i, actions, rec.actions);
      }
      r := Ok(());
    }

    method ConsumeTicket(rec: GroupRecord, ticket: nat) returns (r: Res<()>)
      requires Valid() && Ready(rec, NONE)
      modifies env, rec`actions
      ensures old(env.now) <= env.now && Ready(rec, NONE)
      ensures old(rec.actions) <= rec.actions
      ensures r.Ok? ==> old(env.now) < env.now && Consumed(env.world(old(env.now)), ticket, rec.actions)
      ensures r.Err? ==> Died(env.world, old(env.now), env.now)
    {
      hide GroupInv, Stamped, WithinReach, Mentioned;
      var m :- env.Ask();
      var deals := DealsOf(m, ticket);
      for j := 0 to |deals|
        invariant old(env.now) < env.now && Ready(rec, NONE) && old(rec.actions) <= rec.actions
        invariant forall k :: 0 <= k < j && deals[k].isOut ==> DealSeen(deals[k].ticket) in rec.actions
      {
        if deals[j].isOut {
          ghost var asked := env.now;
          var marked := Record(rec, DealSeen(deals[j].ticket), NONE);
          if marked.Err? {
            DiedWithin(env.world, old(env.now), asked, env.now);
            return Err;
          }
        }
      }
      r := Ok(());
    }

    /** Stores a compensation round. */
    method StoreComp(rec: GroupRecord, state: GroupState, comp: Comp, ghost slack: nat) returns (r: Res<()>)
      requires Valid() && Ready(rec, Slack(0, slack, 0)) && slack <= 1
      requires rec.row.state == COMPENSATION_REQUESTED || rec.row.state == FAILED_WITH_OPEN_RISK
      requires state == COMPENSATION_REQUESTED || state == FAILED_WITH_OPEN_RISK
      requires |comp.entries| == |rec.row.comp.entries| &&
        forall j :: 0 <= j < |comp.entries| ==> comp.entries[j].action == rec.row.comp.entries[j].action
      requires FilledRecorded(comp.entries, rec.actions)
      requires Min(comp.retries, limits.maxComp) >= Min(rec.row.comp.retries, limits.maxComp) + slack
      modifies env, rec`row, rec`log, rec`times
      ensures old(env.now) <= env.now && Valid()
      ensures r.Ok? ==> Ready(rec, NONE) && rec.row == old(rec.row).(state := state, comp := comp)
      ensures r.Err? ==> Ready(rec, ONE) && rec.row == old(rec.row) && Died(env.world, old(env.now), env.now)
      ensures rec.log.closes == old(rec.log.closes)
    {
      hide GroupInv, Stamped, WithinReach, Mentioned, FilledRecorded;
      ghost var g := Of(rec);
      ghost var row := g.row.(state := state, comp := comp);
      RoundWrite(g, env.world, limits, slack, row);
      MoreSlack(g, env.world, limits, Slack(0, slack, 0), ONE);
      var _ :- rec.UpdateGroupState(env, state, NO_PATCH.(comp := Some(comp)));
      assert Of(rec) == Written(g, row);
      r := Ok(());
    }

    /** `verify_compensation`. Once the broker is calm and flat, a round fails the group if and only if
        its retries are not used up; a group out of retries is only stored again. */
    method VerifyCompensation(rec: GroupRecord) returns (r: Res<CompAnswer>)
      requires Valid() && Ready(rec, NONE) &&
        (rec.row.state == COMPENSATION_REQUESTED || rec.row.state == FAILED_WITH_OPEN_RISK)
      modifies env, driver, rec
      ensures old(env.now) <= env.now && Valid()
      ensures r.Ok? ==> Ready(rec, NONE) && rec.row.state == AfterCompensation(r.value)
      ensures r.Err? ==> Ready(rec, ONE)
      ensures old(OutOfRetries(rec.row.comp, limits.maxComp)) ==>
        && rec.row == old(rec.row).(state := rec.row.state) && rec.log.closes == old(rec.log.closes)
        && (if r.Ok? then r.value == CompFailed else rec.row == old(rec.row))
      ensures Calm(env.world, old(env.now), env.now) && env.world(old(env.now)).mode != Unknown
              && AllAddressable(env.world(old(env.now)).mode, old(rec.row.comp.entries)) ==>
        r.Ok? && (rec.row.state == FAILED <==> !old(OutOfRetries(rec.row.comp, limits.maxComp)))
    {
      hide GroupInv, Stamped, WithinReach, Mentioned, Calm, Died;
      EntriesDistinct(rec);
      MoreSlack(Of(rec), env.world, limits, NONE, ONE);
      ghost var start := env.now;
      var resolved := driver.ResolveMode();
      AliveWhenCalm(env.world, start, env.now);
      if resolved.Err? { return Err; }
      ghost var mid := env.now;
      if OutOfRetries(rec.row.comp, limits.maxComp) {
        var stored := StoreComp(rec, FAILED_WITH_OPEN_RISK, rec.row.comp, 0);
        CalmWithin(env.world, start, mid, env.now, env.now);
        return if stored.Ok? then Ok(CompFailed) else Err;
      }
      var retried := RetryRefused(rec, resolved.value);
      CalmWithin(env.world, start, mid, env.now, env.now);
      if retried.Err? { return Err; }
      if !retried.value { return Ok(CompFailed); }
      ghost var late := env.now;
      r := ConfirmGone(rec, resolved.value);
      CalmWithin(env.world, start, mid, late, env.now);
      CalmWithin(env.world, start, late, env.now, env.now);
    }

    /** Phase 1 of `verify_compensation` with a retry left; false when a close was refused again. */
    method RetryRefused(rec: GroupRecord, mode: AccountMode) returns (r: Res<bool>)
      requires Valid() && Ready(rec, NONE) &&
        (rec.row.state == COMPENSATION_REQUESTED || rec.row.state == FAILED_WITH_OPEN_RISK)
      requires !OutOfRetries(rec.row.comp, limits.maxComp)
      modifies env, driver, rec
      ensures old(env.now) <= env.now && Valid()
      ensures r.Ok? ==> Ready(rec, NONE)
      ensures r == Ok(true) ==> rec.row.state == COMPENSATION_REQUESTED || rec.row.state == FAILED_WITH_OPEN_RISK
      ensures r == Ok(true) ==> SameActions(old(rec.row.comp.entries), rec.row.comp.entries)
      ensures r == Ok(false) ==> rec.row.state == FAILED_WITH_OPEN_RISK
      ensures r.Err? ==> Ready(rec, ONE)
      ensures Calm(env.world, old(env.now), env.now) && AllAddressable(mode, old(rec.row.comp.entries)) ==>
        r == Ok(true)
    {
      hide GroupInv, Stamped, WithinReach, Mentioned, Calm, Died;
      EntriesDistinct(rec);
      MoreSlack(Of(rec), env.world, limits, NONE, ONE);
      var comp := rec.row.comp;
      if AllFilled(comp.entries) { return Ok(true); }
      var entries := RetryRound(rec, mode);
      MoreSlack(Of(rec), env.world, limits, Slack(0, 1, 0), ONE);
      if entries.Err? { return Err; }
      comp := Comp(comp.retries + 1, entries.value);
      ghost var mid := env.now;
      var done := AllFilled(comp.entries);
      var stored := StoreComp(rec, if done then COMPENSATION_REQUESTED else FAILED_WITH_OPEN_RISK, comp, 1);
      CalmWithin(env.world, old(env.now), old(env.now), mid, env.now);
      CalmWithin(env.world, old(env.now), mid, env.now, env.now);
      r := if stored.Ok? then Ok(done) else Err;
    }

    /** Phase 2 of `verify_compensation`. */
    method ConfirmGone(rec: GroupRecord, mode: AccountMode) returns (r: Res<CompAnswer>)
      requires Valid() && Ready(rec, NONE) &&
        (rec.row.state == COMPENSATION_REQUESTED || rec.row.state == FAILED_WITH_OPEN_RISK)
      modifies env, driver, rec
      ensures old(env.now) <= env.now && Valid()
      ensures r.Ok? ==> Ready(rec, NONE) && rec.row.state == AfterCompensation(r.value)
      ensures r.Err? ==> Ready(rec, ONE)
      ensures Calm(env.world, old(env.now), env.now) && AllAddressable(mode, old(rec.row.comp.entries)) ==>
        r == Ok(CompConfirmed)
    {
      hide GroupInv, Stamped, WithinReach, Mentioned, Calm, Died, ShownFlat;
      EntriesDistinct(rec);
      MoreSlack(Of(rec), env.world, limits, NONE, ONE);
      ghost var from := env.now;
      var gone, flat := AllGone(rec, mode);
      if gone.Err? { return Err; }
      ghost var mid := env.now;
      if !gone.value {
        var comp := rec.row.comp.(retries := rec.row.comp.retries + 1);
        var spent := comp.retries >= limits.maxComp;
        var stored := StoreComp(rec, if spent then FAILED_WITH_OPEN_RISK else COMPENSATION_REQUESTED, comp, 0);
        CalmWithin(env.world, from, from, mid, env.now);
        return if stored.Err? then Err else Ok(if spent then CompFailed else CompPending);
      }
      NoteGone(rec, flat, from);
      r := FinishCompensation(rec, mode);
      CalmWithin(env.world, from, mid, env.now, env.now);
    }

    /** Notes the sightings of a flat round. */
    ghost method NoteGone(rec: GroupRecord, flat: map<Action, Sighting>, from: nat)
      requires Ready(rec, NONE) && (rec.row.state == COMPENSATION_REQUESTED || rec.row.state == FAILED_WITH_OPEN_RISK)
      requires rec.log.lastOrder <= from <= env.now
      requires forall i :: 0 <= i < |rec.row.comp.entries| ==>
        ShownFlat(rec.gid, rec.row, env.world, rec.row.comp.entries[i].action, flat, from, env.now)
      modifies rec`log
      ensures Ready(rec, NONE)
      ensures forall i :: 0 <= i < |rec.row.comp.entries| ==>
        SeenGone(rec.gid, rec.row, rec.log, env.world, rec.row.comp.entries[i].action)
    {
      hide GroupInv, Stamped, WithinReach, Mentioned;
      var g := Of(rec);
      NoteFlat(g, rec.times, env.world, limits, flat, env.now);
      rec.log := rec.log.(flat := flat, flatBefore := env.now);
      assert Of(rec) == g.(log := g.log.(flat := flat, flatBefore := env.now));
      forall i | 0 <= i < |rec.row.comp.entries|
        ensures SeenGone(rec.gid, rec.row, rec.log, env.world, rec.row.comp.entries[i].action)
      {
        assert ShownFlat(g.gid, g.row, env.world, g.row.comp.entries[i].action, flat, from, env.now);
      }
    }

    /** COMPENSATION_CONFIRMED, then FAILED. */
    method FinishCompensation(rec: GroupRecord, mode: AccountMode) returns (r: Res<CompAnswer>)
      requires Valid() && Ready(rec, NONE) &&
        (rec.row.state == COMPENSATION_REQUESTED || rec.row.state == FAILED_WITH_OPEN_RISK)
      requires forall i :: 0 <= i < |rec.row.comp.entries| ==>
        SeenGone(rec.gid, rec.row, rec.log, env.world, rec.row.comp.entries[i].action)
      modifies env, driver, rec
      ensures old(env.now) <= env.now && Valid() && Ready(rec, NONE) && Ready(rec, ONE)
      ensures r.Ok? ==> r.value == CompConfirmed && rec.row.state == FAILED
      ensures r.Err? ==> Died(env.world, old(env.now), env.now)
    {
      hide GroupInv, Stamped, WithinReach, Mentioned, SeenGone, Died;
      MoreSlack(Of(rec), env.world, limits, NONE, ONE);
      ghost var start := env.now;
      var consumed := ConsumeDeals(rec, mode);
      MoreSlack(Of(rec), env.world, limits, NONE, ONE);
      if consumed.Err? { return Err; }
      ghost var mid := env.now;
      var confirmed := StoreFlat(rec);
      MoreSlack(Of(rec), env.world, limits, NONE, ONE);
      if confirmed.Err? {
        DiedWithin(env.world, start, mid, env.now);
        return Err;
      }
      mid := env.now;
      var failed := StoreFailed(rec);
      MoreSlack(Of(rec), env.world, limits, NONE, ONE);
      if failed.Err? {
        DiedWithin(env.world, start, mid, env.now);
        return Err;
      }
      r := Ok(CompConfirmed);
    }

    method StoreFlat(rec: GroupRecord) returns (r: Res<()>)
      requires Valid() && Ready(rec, NONE) &&
        (rec.row.state == COMPENSATION_REQUESTED || rec.row.state == FAILED_WITH_OPEN_RISK)
      requires forall i :: 0 <= i < |rec.row.comp.entries| ==>
        SeenGone(rec.gid, rec.row, rec.log, env.world, rec.row.comp.entries[i].action)
      modifies env, rec`row, rec`log, rec`times
      ensures old(env.now) <= env.now && Ready(rec, NONE)
      ensures r.Ok? ==> rec.row.state == COMPENSATION_CONFIRMED
      ensures r.Err? ==> Died(env.world, old(env.now), env.now)
    {
      hide GroupInv, Stamped, WithinReach, Mentioned, SeenGone;
      var volume := Volume(rec.row.volume.filled, rec.row.volume.filled);
      ghost var g := Of(rec);
      ghost var row := rec.row.(state := COMPENSATION_CONFIRMED, volume := volume);
      SeenGoneStays(g, env.world, row);
      ConfirmWrite(g, env.world, limits, row);
      var _ :- rec.UpdateGroupState(env, COMPENSATION_CONFIRMED, NO_PATCH.(volume := Some(volume)));
      assert Of(rec) == Written(g, row);
      r := Notify();
    }

    method StoreFailed(rec: GroupRecord) returns (r: Res<()>)
      requires Valid() && Ready(rec, NONE) && rec.row.state == COMPENSATION_CONFIRMED
      modifies env, rec`row, rec`log, rec`times
      ensures old(env.now) <= env.now && Ready(rec, NONE)
      ensures r.Ok? ==> rec.row.state == FAILED
      ensures r.Err? ==> Died(env.world, old(env.now), env.now)
    {
      hide GroupInv, Stamped, WithinReach, Mentioned;
      ghost var g := Of(rec);
      FailAfterConfirmWrite(g, env.world, limits, g.row.(state := FAILED));
      r := rec.UpdateGroupState(env, FAILED, NO_PATCH);
      assert r.Ok? ==> Of(rec) == Written(g, rec.row);
    }

    // -------------------------------------------------------------------------
    // Submission (execution/mt5_trade_group.py:253-451)
    // -------------------------------------------------------------------------

    /** `_reject_group`. */
    method RejectGroup(rec: GroupRecord) returns (r: Res<()>)
      requires Valid() && Ready(rec, NONE) && rec.row.state == VALIDATED
      modifies env, rec`row, rec`log, rec`times
      ensures old(env.now) <= env.now && Ready(rec, NONE)
      ensures r.Ok? ==>
        rec.row == Row(old(rec.row.spec), REJECTED, [], NO_BE, old(rec.row.comp), old(rec.row.volume), false)
      ensures rec.log.legOrders == old(rec.log.legOrders)
    {
      hide GroupInv, Stamped, WithinReach, Mentioned, IsHistory;
      ghost var g := Of(rec);
      PathOf(rec);
      HistoryFacts(g.log.history);
      NothingAsked(rec);
      PlainWrite(g, env.world, limits, NONE,
        Row(rec.row.spec, REJECTED, [], NO_BE, rec.row.comp, rec.row.volume, false));
      var _ :- rec.SaveGroup(env, rec.row.spec, REJECTED, [], NO_BE, false, None);
      assert Of(rec) == Written(g, rec.row);
      r := Notify();
    }

    lemma NothingAsked(rec: GroupRecord)
      requires GroupInv(Of(rec), env.world, limits, NONE) && BE_REQUESTED !in rec.log.history
      ensures rec.row.be.retries == 0
    {
    }

    /** The gates before any order, ending in the account mode: Ok(None) and most exceptions leave the
        group rejected; an account that is not a demo or whose mode is unknown raises without a write. */
    method PassGates(rec: GroupRecord) returns (r: Res<Option<AccountMode>>)
      requires Valid() && Ready(rec, NONE) && rec.row.state == VALIDATED
      modifies env, rec`row, rec`log, rec`times
      ensures old(env.now) <= env.now && Ready(rec, NONE)
      ensures r.Ok? && r.value.Some? ==> Of(rec) == old(Of(rec)) && rec.row.spec.provenanceComplete
      ensures r == Ok(None) ==> rec.row.state == REJECTED
      ensures rec.log.legOrders == old(rec.log.legOrders)
      ensures var shut := !env.world(old(env.now)).demo || env.world(old(env.now) + 1).mode == Unknown;
        old(rec.row.spec.provenanceComplete) && shut ==> r.Err? && Of(rec) == old(Of(rec))
    {
      hide GroupInv, Stamped, WithinReach, Mentioned;
      var spec := rec.row.spec;
      if !spec.provenanceComplete {
        var _ :- RejectGroup(rec);
        return Err;
      }
      var account :- env.Ask();
      if !account.demo { return Err; }
      var mode :- driver.ResolveMode();
      var broker :- env.Ask();
      if !broker.geometryOk {
        var _ :- RejectGroup(rec);
        return Err;
      }
      if broker.clockMs > spec.expiresAtMs || !RiskOk(spec.estimatedLoss, spec.maxCash, spec.maxPct, account.balance) {
        var _ :- RejectGroup(rec);
        return Ok(None);
      }
      r := Ok(Some(mode));
    }

    /** `submit_group` on the demo path. OPEN-GROUP is recorded before the first order leaves. */
    method SubmitGroup(rec: GroupRecord) returns (r: Res<()>)
      requires Valid() && Ready(rec, NONE)
      modifies env, driver, rec
      ensures old(env.now) <= env.now && Valid() && Ready(rec, NONE)
      ensures r.Ok? ==> old(rec.row.state) == VALIDATED && (rec.row.state == REJECTED || rec.row.state == SUBMITTED)
      ensures r.Ok? && rec.row.state == SUBMITTED ==>
        && Action.OpenGroup !in old(rec.actions) && Action.OpenGroup in rec.actions
        && rec.row.submitted && |rec.row.legs| == 3 && rec.row.spec == old(rec.row.spec)
      // once OPEN-GROUP is recorded no leg leaves again, not even after a crash or a second creation
      ensures Action.OpenGroup in old(rec.actions) ==> r.Err? || rec.row.state == REJECTED
      ensures Action.OpenGroup in old(rec.actions) ==> rec.log.legOrders == old(rec.log.legOrders)
    {
      hide GroupInv, Stamped, WithinReach, Mentioned, RiskOk;
      if rec.row.spec.mode == Live || rec.row.spec.mode == Paper || !allowDemo || liveSystematic { return Err; }
      if !ValidTransition(rec.row.state, SUBMITTED) { return Err; }
      var passed :- PassGates(rec);
      if passed.None? { return Ok(()); }
      var mode := passed.value;
      NoLegOrders(rec);
      var first :- Record(rec, Action.OpenGroup, NONE);
      if !first { return Err; }
      var legs :- SubmitLegs(rec, mode);
      r := StoreSubmitted(rec, mode, legs);
    }

    lemma NoLegOrders(rec: GroupRecord)
      requires GroupInv(Of(rec), env.world, limits, NONE) && rec.row.state == VALIDATED
      ensures Action.OpenGroup !in rec.actions ==> rec.log.legOrders == multiset{} && !rec.log.recreated
    {
    }

    method SubmitLegs(rec: GroupRecord, mode: AccountMode) returns (r: Res<seq<Leg>>)
      requires Valid() && Ready(rec, NONE) && rec.row.state == VALIDATED
      requires Action.OpenGroup in rec.actions && rec.log.legOrders == multiset{}
      modifies env, driver, rec`log
      ensures old(env.now) <= env.now && Valid() && Ready(rec, NONE) && rec.log.recreated == old(rec.log.recreated)
      ensures r.Ok? ==> LegsNumbered(r.value) && LegsMentioned(r.value, env.world, rec.gid) && |r.value| == 3
    {
      hide GroupInv, Stamped, WithinReach, Mentioned;
      var legs: seq<Leg> := [];
      var spec := rec.row.spec;
      for k := 1 to 4
        invariant old(env.now) <= env.now && Valid() && Ready(rec, NONE)
        invariant |legs| == k - 1 && LegsNumbered(legs) && LegsMentioned(legs, env.world, rec.gid)
        invariant forall j :: j >= k ==> rec.log.legOrders[j] == 0
        invariant rec.log.recreated == old(rec.log.recreated)
      {
        var share := if k == 1 then spec.share1 else if k == 2 then spec.share2 else spec.share3;
        var leg :- SubmitOne(rec, mode, k, if mode == Netting then spec.totalVolume else Part(spec.totalVolume, share));
        legs := legs + [leg];
      }
      r := Ok(legs);
    }

    method SubmitOne(rec: GroupRecord, mode: AccountMode, k: nat, volume: real) returns (r: Res<Leg>)
      requires Valid() && Ready(rec, NONE) && rec.row.state == VALIDATED
      requires Action.OpenGroup in rec.actions && rec.log.legOrders[k] == 0
      modifies env, driver, rec`log
      ensures old(env.now) <= env.now && Valid() && Ready(rec, NONE) && rec.log.recreated == old(rec.log.recreated)
      ensures forall j :: j != k ==> rec.log.legOrders[j] == old(rec.log.legOrders[j])
      ensures r.Ok? ==> r.value.no == k && (r.value.position != 0 ==> Mentioned(env.world, r.value.position, rec.gid))
    {
      hide GroupInv, Stamped, WithinReach, Mentioned;
      ghost var g := Of(rec);
      var result := driver.SubmitLeg(mode, rec, k, volume);
      LegOrderSent(g, env.world, limits, k, rec.log.lastOrder);
      assert Of(rec) == g || Of(rec) == g.(log := WithLegOrder(g.log, k, rec.log.lastOrder));
      if result.Err? { return Err; }
      r := Ok(Leg(k, result.value.state, result.value.position, result.value.filled));
    }

    method StoreSubmitted(rec: GroupRecord, mode: AccountMode, legs: seq<Leg>) returns (r: Res<()>)
      requires Valid() && Ready(rec, NONE) && rec.row.state == VALIDATED && LegsNumbered(legs) && |legs| == 3
      requires LegsMentioned(legs, env.world, rec.gid) && Action.OpenGroup in rec.actions && !rec.log.recreated
      modifies env, rec`row, rec`log, rec`times
      ensures old(env.now) <= env.now && Valid() && Ready(rec, NONE)
      ensures r.Ok? ==>
        rec.row.state == SUBMITTED && rec.row.submitted && rec.row.legs == legs && rec.row.spec == old(rec.row.spec)
    {
      hide GroupInv, Stamped, WithinReach, Mentioned;
      PathOf(rec);
      HistoryFacts(rec.log.history);
      var filled := if mode == Netting then legs[0].filled else legs[0].filled + legs[1].filled + legs[2].filled;
      var _ :- PlainUpdate(rec, SUBMITTED, NO_PATCH.(legs := Some(legs), volume := Some(Volume(filled, 0.0))));
      r := PlainSave(rec, rec.row.spec, legs, rec.row.be, Some(Volume(filled, 0.0)));
    }

    // -------------------------------------------------------------------------
    // Polling (execution/mt5_trade_group.py:491-690)
    // -------------------------------------------------------------------------

    /** `inspect_group`: the group's live positions and the OUT deals of its tickets. */
    method InspectGroup(rec: GroupRecord) returns (r: Res<(seq<Position>, seq<Deal>)>)
      requires LegsMentioned(rec.row.legs, env.world, rec.gid)
      modifies env
      ensures old(env.now) <= env.now
      ensures r.Ok? ==>
        && r.value.0 == GroupPositions(env.world(old(env.now)).positions, rec.row.legs, rec.gid)
        && var tickets := Tickets(rec.row.legs, r.value.0);
           OutDealsOf(r.value.1, env.world, old(env.now) + 1, tickets, |tickets|)
      ensures r.Ok? ==> forall d :: d in r.value.1 ==> WithinReach(env.world, rec.gid, d.ticket)
    {
      hide OutDealsOf, LegsMentioned, Mentioned, WithinReach;
      var m :- env.Ask();
      var positions := GroupPositions(m.positions, rec.row.legs, rec.gid);
      var tickets := Tickets(rec.row.legs, positions);
      var out: seq<Deal> := [];
      assert OutDealsOf(out, env.world, old(env.now) + 1, tickets, 0) by {
        NoTicketYet(env.world, old(env.now) + 1, tickets);
      }
      for i := 0 to |tickets|
        invariant env.now == old(env.now) + 1 + i
        invariant OutDealsOf(out, env.world, old(env.now) + 1, tickets, i)
      {
        OneMoreTicket(out, env.world, old(env.now) + 1, tickets, i);
        var q :- env.Ask();
        out := out + OutDeals(DealsOf(q, tickets[i]));
      }
      GroupPositionsMentioned(m.positions, rec.row.legs, env.world, old(env.now), rec.gid);
      TicketsMentioned(rec.row.legs, positions, env.world, old(env.now), rec.gid);
      InspectedIsReached(out, env.world, old(env.now) + 1, tickets, rec.gid);
      r := Ok((positions, out));
    }

    /** The newest OUT deal not consumed yet drives at most one transition, and is recorded as
        consumed before it does. Returns whether the poll of this group ends here. */
    method ApplyDeal(rec: GroupRecord, group: Row, deal: Deal) returns (r: Res<bool>)
      requires Valid() && Ready(rec, NONE) && group == rec.row && !IsTerminal(group.state)
      requires DealSeen(deal.ticket) !in rec.actions && WithinReach(env.world, rec.gid, deal.ticket)
      modifies env, rec
      ensures old(env.now) <= env.now && Valid() && Ready(rec, NONE)
      ensures r.Ok? && !r.value ==> AfterDeal(group, rec.row)
      ensures r == Ok(true) ==> rec.row == group.(state := STOPPED) && ValidTransition(group.state, STOPPED)
      // the price decides; a deal that drives nothing stays unrecorded for a later poll
      ensures r.Ok? ==> var kind := ClassifyBrokerClose(group.spec, deal.price, tolerance);
        && rec.row.state == DealOutcome(kind, group.state)
        && (DealSeen(deal.ticket) in rec.actions <==> kind.AtStop? || Expected(kind, group.state))
      ensures Compensating(group.state) ==> r != Ok(true) && rec.row == group && rec.log == old(rec.log)
      ensures group.state == TP3_FILLED ==> rec.row == group || rec.row == group.(state := STOPPED)
      ensures r == Ok(false) && group.state == TP3_FILLED ==> rec.row == group
    {
      hide GroupInv, Stamped, WithinReach, Mentioned, ClassifyBrokerClose, AfterDeal;
      PathOf(rec);
      StillTheSame(group);
      var kind := ClassifyBrokerClose(group.spec, deal.price, tolerance);
      if kind == AtStop {
        var _ :- ApplyStop(rec, group, deal.ticket);
        return Ok(true);
      }
      if Expected(kind, group.state) {
        var _ :- ApplyTarget(rec, group, kind, deal);
      }
      r := Ok(false);
    }

    /** A deal at the target the group waits for. */
    method ApplyTarget(rec: GroupRecord, group: Row, kind: CloseKind, deal: Deal) returns (r: Res<()>)
      requires Valid() && Ready(rec, NONE) && group == rec.row && LegsNumbered(group.legs)
      requires DealSeen(deal.ticket) !in rec.actions && Expected(kind, group.state) &&
        WithinReach(env.world, rec.gid, deal.ticket)
      modifies env, rec
      ensures old(env.now) <= env.now && Valid() && Ready(rec, NONE)
      ensures r.Ok? ==>
        AfterDeal(group, rec.row) && rec.row.state == DealOutcome(kind, group.state) &&
        DealSeen(deal.ticket) in rec.actions
    {
      hide GroupInv, Stamped, WithinReach, Mentioned;
      var _ :- Consume(rec, deal.ticket, true);
      if kind == AtTp1 {
        r := Tp1Filled(rec, group, deal.price);
      } else if kind == AtTp2 {
        r := Tp2Filled(rec, group);
      } else {
        r := Tp3Filled(rec, group);
      }
    }

    /** A stop deal is consumed even where the stop transition is not allowed and raises. */
    method ApplyStop(rec: GroupRecord, group: Row, ticket: nat) returns (r: Res<()>)
      requires Valid() && Ready(rec, NONE) && group == rec.row && DealSeen(ticket) !in rec.actions &&
        WithinReach(env.world, rec.gid, ticket)
      modifies env, rec
      ensures old(env.now) <= env.now && Valid() && Ready(rec, NONE)
      ensures r.Ok? ==>
        rec.row == group.(state := STOPPED) && ValidTransition(group.state, STOPPED) && DealSeen(ticket) in rec.actions
      ensures Compensating(group.state) ==> r.Err? && rec.row == group && rec.log == old(rec.log)
      ensures rec.row == group || rec.row == group.(state := STOPPED)
    {
      hide GroupInv, Stamped, WithinReach, Mentioned;
      var _ :- Consume(rec, ticket, ValidTransition(group.state, STOPPED));
      r := StopGroup(rec, group);
    }

    method Consume(rec: GroupRecord, ticket: nat, ghost drives: bool) returns (r: Res<()>)
      requires Valid() && Ready(rec, NONE) && DealSeen(ticket) !in rec.actions
      requires drives ==>
        !Compensating(rec.row.state) && !IsTerminal(rec.row.state) && WithinReach(env.world, rec.gid, ticket)
      modifies env, rec`actions, rec`log
      ensures old(env.now) <= env.now && Ready(rec, NONE)
      ensures !drives ==> rec.log == old(rec.log)
      ensures r.Ok? ==> DealSeen(ticket) in rec.actions
    {
      NotDriven(rec, ticket);
      hide GroupInv, Stamped, WithinReach, Mentioned;
      var _ :- Record(rec, DealSeen(ticket), NONE);
      ghost var k := Of(rec);
      if drives {
        DealDrives(k, env.world, limits, ticket);
        rec.log := rec.log.(drives := rec.log.drives + multiset{ticket});
        assert Of(rec) == k.(log := k.log.(drives := k.log.drives + multiset{ticket}));
      }
      r := Ok(());
    }

    lemma NotDriven(rec: GroupRecord, ticket: nat)
      requires GroupInv(Of(rec), env.world, limits, NONE) && DealSeen(ticket) !in rec.actions
      ensures rec.log.drives[ticket] == 0
    {
    }

    /** A submitted group: compensate a partial open, otherwise open the group. Ok(None) ends the
        poll of this group; Ok(Some(legs)) goes on with these legs. */
    method AdvanceSubmitted(rec: GroupRecord, group: Row, positions: seq<Position>) returns (r: Res<Option<seq<Leg>>>)
      requires Valid() && Ready(rec, NONE) && group == rec.row && group.state == SUBMITTED
      modifies env, driver, rec
      ensures old(env.now) <= env.now && Valid() && Ready(rec, NONE)
      ensures r.Ok? && r.value.Some? ==>
        LegsNumbered(r.value.value) && SameTickets(rec.row.legs, r.value.value) && rec.row.be == group.be
      ensures r.Ok? && r.value.Some? ==>
        rec.row.state == if exists i :: 0 <= i < |group.legs| && Opened(group.legs[i]) then OPENED else SUBMITTED
      ensures r.Ok? ==> (r.value.None? <==> exists i :: 0 <= i < |group.legs| && group.legs[i].state == LegRejected)
      ensures r.Ok? && r.value.None? ==>
        rec.row.state == COMPENSATION_REQUESTED || rec.row.state == FAILED_WITH_OPEN_RISK
    {
      hide GroupInv, Stamped, WithinReach, Mentioned;
      PathOf(rec);
      if exists i :: 0 <= i < |group.legs| && group.legs[i].state == LegRejected {
        var _ :- BeginCompensation(rec, group);
        return Ok(None);
      }
      if exists i :: 0 <= i < |group.legs| && Opened(group.legs[i]) {
        var legs :- OpenGroup(rec, group, positions);
        return Ok(Some(legs));
      }
      r := Ok(Some(group.legs));
    }

    /** The candidate-triggered netting close of the target the stored state waits for. */
    method AdvanceNetting(rec: GroupRecord, group: Row) returns (r: Res<()>)
      requires Valid() && Ready(rec, NONE) && InPoll(rec.row, group)
      modifies env, driver, rec
      ensures old(env.now) <= env.now && Valid()
      ensures r.Ok? ==> Ready(rec, NONE) && NettingOutcome(old(rec.row.state), rec.row.state)
      ensures r.Ok? && rec.row.state == RECONCILED ==> group.state == TP2_FILLED || old(rec.row.state) == RECONCILED
      ensures r.Err? ==> Ready(rec, ONE)
      ensures Resting(old(rec.row.state)) ==> rec.row == old(rec.row)
    {
      hide GroupInv, Stamped, WithinReach, Mentioned;
      MoreSlack(Of(rec), env.world, limits, NONE, ONE);
      if rec.row.state != OPENED && rec.row.state != BE_CONFIRMED && rec.row.state != TP2_FILLED { return Ok(()); }
      var m :- env.Ask();
      if m.quote.None? { return Ok(()); }
      var side := group.spec.side;
      var price := if side == Long then m.quote.value.bid else m.quote.value.ask;
      var leg := if rec.row.state == OPENED then 1 else if rec.row.state == BE_CONFIRMED then 2 else 3;
      var level := if leg == 1 then group.spec.tp1 else if leg == 2 then group.spec.tp2 else group.spec.tp3;
      if Reached(side, price, level) {
        var _ :- NettingCloseLeg(rec, group, leg);
      }
      r := Ok(());
    }

    /** The break-even part of a poll. */
    method AdvanceBe(rec: GroupRecord) returns (r: Res<()>)
      requires Valid() && Ready(rec, NONE)
      modifies env, driver, rec
      ensures old(env.now) <= env.now && Valid()
      ensures r.Ok? ==> Ready(rec, NONE) && BeOutcome(old(rec.row.state), rec.row.state)
      ensures r.Err? ==> Ready(rec, ONE)
      ensures Resting(old(rec.row.state)) ==> rec.row == old(rec.row)
    {
      hide GroupInv, Stamped, WithinReach, Mentioned;
      MoreSlack(Of(rec), env.world, limits, NONE, ONE);
      if rec.row.state == TP1_FILLED {
        var asked := RequestBe(rec);
        MoreSlack(Of(rec), env.world, limits, NONE, ONE);
        if asked.Err? { return Err; }
      }
      if rec.row.state == BE_REQUESTED || rec.row.state == BE_RETRY {
        var verified, _ := VerifyBe(rec);
        if verified.Err? { return Err; }
      }
      r := Ok(());
    }

    /** `_advance_group`, up to the break-even part. Ok(true) goes on. */
    method AdvanceToBe(rec: GroupRecord) returns (r: Res<bool>)
      requires Valid() && Ready(rec, NONE) && !IsTerminal(rec.row.state)
      modifies env, driver, rec
      ensures old(env.now) <= env.now && Valid()
      ensures r.Ok? ==> Ready(rec, NONE)
      ensures r.Ok? ==>
        if r.value then BeforeBe(old(rec.row.state), rec.row.state) else Ended(old(rec.row.state), rec.row.state)
      ensures r.Err? ==> Ready(rec, ONE)
      ensures old(rec.row.state) == PARTIAL_SUBMISSION ==> r.Err? && rec.row == old(rec.row) && rec.log == old(rec.log)
      ensures GaveUp(old(rec.row)) ==> rec.row == old(rec.row) && rec.log.closes == old(rec.log.closes)
      ensures Resting(old(rec.row.state)) ==> Rested(old(rec.row), rec.row)
    {
      hide GroupInv, Stamped, WithinReach, Mentioned, InPoll, AfterDeal, BeforeBe, Ended, ValidTransition, OutDealsOf;
      MoreSlack(Of(rec), env.world, limits, NONE, ONE);
      var group := rec.row;
      EndedByStop(group.state);
      var mode :- driver.ResolveMode();
      PathOf(rec);
      var seen :- InspectGroup(rec);
      var ended := ApplyNewest(rec, group, seen.1);
      MoreSlack(Of(rec), env.world, limits, NONE, ONE);
      if ended.Err? { return Err; }
      if ended.value { return Ok(false); }
      r := AdvanceStored(rec, group, mode, seen.0);
    }

    /** The newest deal that is not recorded yet, if there is one. */
    method ApplyNewest(rec: GroupRecord, group: Row, deals: seq<Deal>) returns (r: Res<bool>)
      requires Valid() && Ready(rec, NONE) && group == rec.row && !IsTerminal(group.state)
      requires forall d :: d in deals ==> WithinReach(env.world, rec.gid, d.ticket)
      modifies env, rec
      ensures old(env.now) <= env.now && Valid() && Ready(rec, NONE)
      ensures r.Ok? && !r.value ==> AfterDeal(group, rec.row)
      ensures r == Ok(true) ==> rec.row == group.(state := STOPPED) && ValidTransition(group.state, STOPPED)
      ensures Compensating(group.state) ==> r != Ok(true) && rec.row == group && rec.log == old(rec.log)
      ensures group.state == TP3_FILLED ==> rec.row == group || rec.row == group.(state := STOPPED)
      ensures r == Ok(false) && group.state == TP3_FILLED ==> rec.row == group
    {
      hide GroupInv, Stamped, WithinReach, Mentioned, NewestUnconsumed, ClassifyBrokerClose, AfterDeal, ValidTransition;
      PathOf(rec);
      StillTheSame(group);
      var deal := NewestUnconsumed(deals, rec.actions);
      r := Ok(false);
      if deal.Some? {
        r := ApplyDeal(rec, group, deal.value);
      }
    }

    lemma EndedByStop(s: GroupState)
      ensures ValidTransition(s, STOPPED) ==> Ended(s, STOPPED)
      ensures !ValidTransition(PARTIAL_SUBMISSION, STOPPED)
    {
    }

    lemma StillTheSame(group: Row)
      requires LegsNumbered(group.legs)
      ensures AfterDeal(group, group)
    {
    }

    /** What follows the deal handling: submitted groups, compensation, netting targets. */
    method AdvanceStored(rec: GroupRecord, group: Row, mode: AccountMode, positions: seq<Position>)
      returns (r: Res<bool>)
      requires Valid() && Ready(rec, NONE) && !IsTerminal(group.state) && AfterDeal(group, rec.row)
      modifies env, driver, rec
      ensures old(env.now) <= env.now && Valid()
      ensures r.Ok? ==>
        Ready(rec, NONE) && if r.value then BeforeBe(group.state, rec.row.state) else Ended(group.state, rec.row.state)
      ensures r.Err? ==> Ready(rec, ONE)
      ensures group.state == PARTIAL_SUBMISSION ==> r.Err? && rec.row == old(rec.row) && rec.log == old(rec.log)
      ensures GaveUp(old(rec.row)) ==> rec.row == old(rec.row) && rec.log.closes == old(rec.log.closes)
      ensures Resting(old(rec.row.state)) ==> rec.row == old(rec.row)
    {
      hide GroupInv, Stamped, WithinReach, Mentioned, InPoll;
      MoreSlack(Of(rec), env.world, limits, NONE, ONE);
      AfterDealCases(group, rec.row);
      if rec.row.state == PARTIAL_SUBMISSION {
        var _ := BeginCompensation(rec, group);
        MoreSlack(Of(rec), env.world, limits, NONE, ONE);
        return Err;
      }
      if rec.row.state == COMPENSATION_REQUESTED || rec.row.state == FAILED_WITH_OPEN_RISK {
        var _ :- VerifyCompensation(rec);
        return Ok(false);
      }
      r := AdvanceTargets(rec, group, mode, positions);
    }

    /** A submitted group is opened; on a netting account its targets are closed. */
    method AdvanceTargets(rec: GroupRecord, group: Row, mode: AccountMode, positions: seq<Position>)
      returns (r: Res<bool>)
      requires Valid() && Ready(rec, NONE) && !IsTerminal(group.state) && AfterDeal(group, rec.row)
      requires rec.row.state !in {PARTIAL_SUBMISSION, COMPENSATION_REQUESTED, FAILED_WITH_OPEN_RISK}
      modifies env, driver, rec
      ensures old(env.now) <= env.now && Valid()
      ensures r.Ok? ==>
        Ready(rec, NONE) && if r.value then BeforeBe(group.state, rec.row.state) else Ended(group.state, rec.row.state)
      ensures r.Err? ==> Ready(rec, ONE)
      ensures Resting(old(rec.row.state)) ==> rec.row == old(rec.row)
    {
      hide GroupInv, Stamped, WithinReach, Mentioned, InPoll;
      MoreSlack(Of(rec), env.world, limits, NONE, ONE);
      AfterDealCases(group, rec.row);
      var current := group;
      if rec.row.state == SUBMITTED {
        var legs := AdvanceSubmitted(rec, group, positions);
        MoreSlack(Of(rec), env.world, limits, NONE, ONE);
        if legs.Err? { return Err; }
        if legs.value.None? { return Ok(false); }
        current := group.(legs := legs.value.value);
      }
      OpenedInPoll(rec.row, group, current);
      if mode == Netting {
        var _ :- AdvanceNetting(rec, current);
      }
      r := Ok(true);
    }

    /** `_advance_group`. */
    method AdvanceGroup(rec: GroupRecord) returns (r: Res<()>)
      requires Valid() && Ready(rec, NONE) && !IsTerminal(rec.row.state)
      modifies env, driver, rec
      ensures old(env.now) <= env.now && Valid()
      ensures r.Ok? ==> Ready(rec, NONE) && PollOutcome(old(rec.row.state), rec.row.state)
      ensures r.Err? ==> Ready(rec, ONE)
      ensures old(rec.row.state) == PARTIAL_SUBMISSION ==> r.Err? && rec.row == old(rec.row) && rec.log == old(rec.log)
      ensures GaveUp(old(rec.row)) ==> rec.row == old(rec.row) && rec.log.closes == old(rec.log.closes)
      ensures Resting(old(rec.row.state)) ==> Rested(old(rec.row), rec.row)
    {
      hide GroupInv, Stamped, WithinReach, Mentioned;
      var on :- AdvanceToBe(rec);
      MoreSlack(Of(rec), env.world, limits, NONE, ONE);
      if on {
        ghost var middle := rec.row.state;
        var _ :- AdvanceBe(rec);
        PollOutcomes(old(rec.row.state), middle, rec.row.state);
        MoreSlack(Of(rec), env.world, limits, NONE, ONE);
        var _ :- Notify();
      }
      r := Ok(());
    }

    // -------------------------------------------------------------------------
    // Whole runs
    // -------------------------------------------------------------------------

    /** One poll of one group. An aborted poll is counted in the log. */
    method PollGroup(rec: GroupRecord) returns (r: Res<()>)
      requires Valid() && Ready(rec, NONE) && !IsTerminal(rec.row.state)
      modifies env, driver, rec
      ensures old(env.now) <= env.now && Valid() && Ready(rec, NONE)
      ensures r.Ok? ==> PollOutcome(old(rec.row.state), rec.row.state)
      // a group left in PARTIAL_SUBMISSION by a crash stays there: every poll raises and sends nothing
      ensures old(rec.row.state) == PARTIAL_SUBMISSION ==>
        r.Err? && rec.row == old(rec.row) && rec.log == old(rec.log).(aborts := old(rec.log.aborts) + 1)
      // a group out of compensation retries is left as it is, and nothing is sent for it
      ensures GaveUp(old(rec.row)) ==> rec.row == old(rec.row) && rec.log.closes == old(rec.log.closes)
      // a crash between two writes is not made good: the group rests, or is stopped
      ensures Resting(old(rec.row.state)) ==> Rested(old(rec.row), rec.row)
    {
      hide GroupInv, Stamped, WithinReach, Mentioned, PollOutcome, Rested;
      r := AdvanceGroup(rec);
      if r.Err? { CountAbort(rec); }
    }

    /** A step that raised is counted. */
    ghost method CountAbort(rec: GroupRecord)
      requires Ready(rec, ONE)
      modifies rec`log
      ensures Ready(rec, NONE) && rec.log == old(rec.log).(aborts := old(rec.log).aborts + 1)
    {
      hide GroupInv, Stamped;
      ghost var g := Of(rec);
      AbortPaysSlack(g, env.world, limits);
      rec.log := rec.log.(aborts := rec.log.aborts + 1);
      assert Of(rec) == g.(log := g.log.(aborts := g.log.aborts + 1));
    }

    /** Open risk that no poll works on any more. */
    predicate GaveUp(row: Row) {
      row.state == FAILED_WITH_OPEN_RISK && OutOfRetries(row.comp, limits.maxComp)
    }

    /** However often a group is polled: open risk without retries stays, and so does a state that a
        crash left behind. */
    method PollForGood(rec: GroupRecord, n: nat)
      requires Valid() && Ready(rec, NONE) && (GaveUp(rec.row) || Resting(rec.row.state))
      modifies env, driver, rec
      ensures Valid() && Ready(rec, NONE)
      ensures GaveUp(old(rec.row)) ==> rec.row == old(rec.row) && rec.log.closes == old(rec.log.closes)
      ensures Resting(old(rec.row.state)) ==> Rested(old(rec.row), rec.row)
    {
      hide GroupInv, Stamped, WithinReach, Mentioned, PollOutcome;
      for k := 0 to n
        invariant Valid() && Ready(rec, NONE)
        invariant GaveUp(old(rec.row)) ==> rec.row == old(rec.row) && rec.log.closes == old(rec.log.closes)
        invariant Resting(old(rec.row.state)) ==> Rested(old(rec.row), rec.row)
      {
        if !IsTerminal(rec.row.state) {
          var _ := PollGroup(rec);
        }
      }
    }

    /** All groups satisfy the invariant, and no two records are the same or share an id. */
    ghost predicate AllReady()
      reads this, env, driver, groups
    {
      && Valid()
      && (forall i, j :: 0 <= i < j < |groups| ==> groups[i] != groups[j] && groups[i].gid != groups[j].gid)
      && (forall i :: 0 <= i < |groups| ==> Ready(groups[i], NONE))
    }

    /** A demo group left in PARTIAL_SUBMISSION. */
    predicate IsStuck(row: Row) {
      row.spec.mode == Demo && row.state == PARTIAL_SUBMISSION
    }

    /** `poll_once`: advances every demo group that is not finished; an exception ends the poll. A
        stuck group therefore ends it, and no group after it is touched. */
    method PollOnce() returns (r: Res<()>)
      requires AllReady()
      modifies env, driver, groups
      ensures AllReady() && groups == old(groups)
      ensures forall i :: 0 <= i < |groups| && old(IsStuck(groups[i].row)) ==>
        && r.Err? && groups[i].row == old(groups[i].row)
        && forall j :: i < j < |groups| ==> Of(groups[j]) == old(Of(groups[j]))
    {
      hide GroupInv, WithinReach, Mentioned, Timed, PollOutcome, Rested, Resting, OutOfRetries;
      for i := 0 to |groups|
        invariant AllReady() && groups == old(groups)
        invariant forall j :: i <= j < |groups| ==> Of(groups[j]) == old(Of(groups[j]))
        invariant forall j :: 0 <= j < i ==> !old(IsStuck(groups[j].row))
      {
        var rec := groups[i];
        if rec.row.spec.mode == Demo && !IsTerminal(rec.row.state) {
          ghost var now := env.now;
          var polled := PollGroup(rec);
          forall j | 0 <= j < |groups| && j != i ensures Ready(groups[j], NONE) {
            TimeGoesBy(groups[j].log, groups[j].times, now, env.now);
          }
          if polled.Err? { return Err; }
        }
      }
      r := Ok(());
    }

    /** However often it is polled, the groups behind a stuck group stay as they are. */
    method PollOnAndOn(n: nat, i: nat)
      requires AllReady() && i < |groups| && IsStuck(groups[i].row)
      modifies env, driver, groups
      ensures AllReady() && groups == old(groups) && groups[i].row == old(groups[i].row)
      ensures forall j :: i < j < |groups| ==> Of(groups[j]) == old(Of(groups[j]))
    {
      hide GroupInv, Stamped, WithinReach, Mentioned;
      for k := 0 to n
        invariant AllReady() && groups == old(groups) && groups[i].row == old(groups[i].row)
        invariant forall j :: i < j < |groups| ==> Of(groups[j]) == old(Of(groups[j]))
      {
        var _ := PollOnce();
      }
    }

    /** The mode gate of a creation; paper groups belong to the paper executor. */
    predicate Forbidden(mode: Mode) {
      mode != Demo || !allowDemo || liveSystematic
    }

    ghost predicate IsCreated(rec: GroupRecord, spec: Spec)
      reads rec
    {
      rec.row == Recreated(spec, rec.row)
    }

    /** `create_group`: a forbidden mode raises before anything is written; otherwise the group starts
        VALIDATED, over the row of an earlier group of that id. */
    method CreateGroup(gid: string, spec: Spec) returns (r: Res<()>)
      requires AllReady()
      modifies this`groups, env, groups
      ensures AllReady() && old(groups) <= groups
      ensures forall i :: |old(groups)| <= i < |groups| ==> fresh(groups[i])
      ensures Forbidden(spec.mode) ==> r.Err? && groups == old(groups)
      ensures forall i :: 0 <= i < |old(groups)| && (r.Err? || groups[i].gid != gid) ==>
        Of(groups[i]) == old(Of(groups[i]))
      ensures r.Ok? ==> exists k :: 0 <= k < |groups| && groups[k].gid == gid && IsCreated(groups[k], spec)
      ensures forall i :: 0 <= i < |old(groups)| ==> groups[i].actions == old(groups[i].actions)
    {
      hide GroupInv, WithinReach, Mentioned, Timed, IsCreated;
      if Forbidden(spec.mode) { return Err; }
      var k := IndexOf(groups, gid);
      ghost var now := env.now;
      if k < |groups| {
        r := Recreate(groups[k], spec);
      } else {
        r := AddGroup(gid, spec);
      }
      forall j | 0 <= j < |old(groups)| && j != k ensures Ready(groups[j], NONE) {
        TimeGoesBy(groups[j].log, groups[j].times, now, env.now);
      }
    }

    /** A new row. */
    method AddGroup(gid: string, spec: Spec) returns (r: Res<()>)
      requires Valid()
      modifies this`groups, env
      ensures old(env.now) <= env.now
      ensures r.Err? ==> groups == old(groups)
      ensures r.Ok? ==> |groups| == |old(groups)| + 1 && groups[..|old(groups)|] == old(groups)
      ensures r.Ok? ==> var rec := groups[|old(groups)|];
        fresh(rec) && Ready(rec, NONE) && rec.gid == gid && IsCreated(rec, spec)
    {
      var _ :- env.Ask();
      var rec := new GroupRecord(gid, spec, env.now - 1);
      NewGroupIsReady(gid, spec, env.world, limits);
      hide GroupInv, Stamped;
      groups := groups + [rec];
      r := Ok(());
    }

    /** The row is replaced; recorded actions stay. */
    method Recreate(rec: GroupRecord, spec: Spec) returns (r: Res<()>)
      requires Valid() && Ready(rec, NONE)
      modifies env, rec`row, rec`log, rec`times
      ensures old(env.now) <= env.now && Ready(rec, NONE)
      ensures r.Ok? ==> rec.row == Recreated(spec, old(rec.row)) && IsCreated(rec, spec)
      ensures r.Ok? ==> rec.log == Renewed(old(rec.log), Action.OpenGroup in rec.actions)
      ensures r.Err? ==> Of(rec) == old(Of(rec))
    {
      hide GroupInv, WithinReach, Mentioned;
      ghost var g := Of(rec);
      RecreatedIsReady(g, spec, env.world, limits);
      r := rec.SaveGroup(env, spec, VALIDATED, [], NO_BE, false, None);
      if r.Ok? {
        rec.log, rec.times := Renewed(g.log, Action.OpenGroup in g.actions), [env.now - 1];
        assert Of(rec) == g.(row := Recreated(spec, g.row), log := rec.log);
      }
    }

    /** One command of a run, with its exception swallowed. A restart loses the driver's reference
        map and nothing else. */
    method Execute(command: Command)
      requires AllReady()
      modifies this`groups, env, driver, groups
      ensures AllReady() && old(groups) <= groups
      ensures forall i :: |old(groups)| <= i < |groups| ==> fresh(groups[i])
    {
      hide GroupInv, Stamped, WithinReach, Mentioned;
      match command
      case Create(gid, spec) => var _ := CreateGroup(gid, spec);
      case Submit(gid) =>
        var k := IndexOf(groups, gid);
        if k < |groups| { var _ := SubmitGroup(groups[k]); }
      case Poll => var _ := PollOnce();
      case Restart => driver.refMap := map[];
    }

    /** Every run: after any commands, in any world, every group satisfies the invariant. */
    method Run(commands: seq<Command>)
      requires AllReady()
      modifies this`groups, env, driver, groups
      ensures AllReady() && old(groups) <= groups
    {
      hide GroupInv, Stamped, WithinReach, Mentioned;
      for n := 0 to |commands|
        invariant AllReady() && old(groups) <= groups
        invariant forall i :: |old(groups)| <= i < |groups| ==> fresh(groups[i])
      {
        Execute(commands[n]);
      }
    }
  }
}
