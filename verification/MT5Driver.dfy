/** The hedging and netting drivers (execution/mt5_hedging_adapter.py, execution/mt5_netting_adapter.py).
    Which of the two serves a call is decided by the account mode the terminal reports. */
module MT5Driver {
  import opened Wrappers
  import opened Codecs
  import opened Terminal
  import opened TradeGroupStore

  /** A position is addressed by its ticket or by a leg reference of its group. */
  datatype Reference = ByTicket(ticket: nat) | ByLeg(leg: nat)

  datatype LegResult = LegResult(state: LegState, position: nat, filled: real)
  datatype CloseResult = CloseRejected | CloseFilled(volume: real, price: real)

  /** The position is gone: no live position has the ticket, or, when no ticket is known, none of
      our positions carries the group id. */
  ghost predicate Gone(m: Moment, ticket: nat, gid: string) {
    if ticket != 0 then forall p :: p in m.positions ==> p.ticket != ticket
    else forall p :: p in m.positions ==> !CarriesGroup(p, gid)
  }

  /** At some moment of the run a position of ours with this ticket carried the group id. */
  ghost predicate Carried(world: nat -> Moment, ticket: nat, gid: string) {
    exists t: nat, p :: p in world(t).positions && p.ticket == ticket && CarriesGroup(p, gid)
  }

  /** At some moment of the run a position of ours with this ticket had the group id in its comment. */
  ghost predicate Mentioned(world: nat -> Moment, ticket: nat, gid: string) {
    exists t: nat, p :: p in world(t).positions && p.ours && p.ticket == ticket && Contains(p.comment, gid)
  }

  lemma CarriedIsMentioned(world: nat -> Moment, ticket: nat, gid: string)
    requires Carried(world, ticket, gid)
    ensures Mentioned(world, ticket, gid)
  {
    var t: nat, p :| p in world(t).positions && p.ticket == ticket && CarriesGroup(p, gid);
    ParsedIsContained(p.comment);
  }

  lemma SeenIsMentioned(world: nat -> Moment, t: nat, p: Position, gid: string)
    requires p in world(t).positions && p.ours && Contains(p.comment, gid)
    ensures Mentioned(world, p.ticket, gid)
  {
  }

  /** The group a comment names is written in it. */
  lemma {:induction false} ParsedIsContained(comment: string)
    ensures ParseComment(comment).Some? ==> Contains(comment, ParseComment(comment).value)
    decreases |comment|
  {
    var token := FirstToken(comment);
    if |token| >= 3 && token[..3] == "TG:" {
      assert comment == "TG:" + token[3..] + comment[|token|..];
      ContainsPart("TG:", token[3..], comment[|token|..]);
    } else if token != comment {
      ParsedIsContained(comment[|token| + 1..]);
      if ParseComment(comment).Some? {
        ContainsLater(comment, |token| + 1, ParseComment(comment).value);
      }
    }
  }

  lemma {:induction false} ContainsPart(before: string, part: string, after: string)
    ensures Contains(before + part + after, part)
  {
    var s := before + part + after;
    if before == [] {
      assert s[..|part|] == part;
    } else {
      assert s[1..] == before[1..] + part + after;
      ContainsPart(before[1..], part, after);
    }
  }

  lemma {:induction false} ContainsLater(s: string, n: nat, token: string)
    requires n <= |s| && Contains(s[n..], token)
    ensures Contains(s, token)
    decreases n
  {
    if n > 0 {
      assert s[n - 1..][1..] == s[n..];
      ContainsLater(s, n - 1, token);
    } else {
      assert s[0..] == s;
    }
  }

  /** A comment with the leg token has the group id in it. */
  lemma {:induction false} LegTokenHasGroup(comment: string, gid: string, leg: nat)
    requires Contains(comment, "L:" + NewLegId(gid, leg))
    ensures Contains(comment, gid)
  {
    var token := "L:" + NewLegId(gid, leg);
    if token <= comment {
      assert comment == "L:" + gid + ("-L" + Decimal(leg) + comment[|token|..]);
      ContainsPart("L:", gid, "-L" + Decimal(leg) + comment[|token|..]);
    } else {
      LegTokenHasGroup(comment[1..], gid, leg);
    }
  }

  ghost function WithLegOrder(log: Log, leg: nat, at: nat): Log {
    log.(legOrders := log.legOrders + multiset{leg}, lastOrder := at)
  }

  ghost function WithStopModify(log: Log, index: nat, at: nat): Log {
    log.(stopModifies := log.stopModifies + multiset{index}, lastOrder := at)
  }

  ghost function WithClose(log: Log, action: Action, at: nat): Log {
    log.(closes := log.closes + multiset{action}, lastOrder := at)
  }

  ghost function WithTpFill(log: Log, leg: nat, at: nat): Log {
    log.(tpFills := log.tpFills + multiset{leg}, lastOrder := at)
  }

  predicate Contains(s: string, token: string)
    decreases |s|
  {
    token <= s || (s != [] && Contains(s[1..], token))
  }

  /** The first of our positions whose comment contains the token. */
  function FindToken(positions: seq<Position>, token: string): (p: Option<Position>)
    ensures p.Some? ==> p.value in positions && p.value.ours && Contains(p.value.comment, token)
  {
    if positions == [] then None
    else if positions[0].ours && Contains(positions[0].comment, token) then Some(positions[0])
    else FindToken(positions[1..], token)
  }

  class Driver {
    const env: Env
    var refMap: map<(string, nat), Ticket>  // leg reference -> aggregate ticket; lost on restart

    /** Mapped references point at positions that were seen carrying their group. */
    ghost predicate Valid()
      reads this
    {
      forall k :: k in refMap ==> Carried(env.world, refMap[k], k.0)
    }

    constructor (env: Env)
      ensures Valid() && this.env == env && refMap == map[]
    {
      this.env := env;
      refMap := map[];
    }

    /** `_resolve_driver`: the account mode is read afresh; an unknown mode raises. */
    method ResolveMode() returns (r: Res<AccountMode>)
      modifies env
      ensures env.now == old(env.now) + 1
      ensures var m := env.world(old(env.now)); r == if m.alive && m.mode != Unknown then Ok(m.mode) else Err
    {
      var m :- env.Ask();
      if m.mode == Unknown { return Err; }
      r := Ok(m.mode);
    }

    /** Ticket of a reference. The hedging driver only takes tickets; the netting driver looks a leg
        up in its map and otherwise rediscovers the aggregate position by its comment. The moment
        of the answer is `at`; ticket 0 means that no position of ours carried the group then. */
    method ResolveTicket(mode: AccountMode, gid: string, ref: Reference) returns (r: Res<nat>, ghost at: nat)
      requires Valid()
      modifies env, this`refMap
      ensures Valid()
      ensures old(env.now) <= env.now
      ensures r.Ok? && ref.ByTicket? ==> r.value == ref.ticket && env.now == old(env.now) && refMap == old(refMap)
      ensures r.Ok? && r.value == 0 && ref.ByLeg? ==> old(env.now) <= at < env.now && Gone(env.world(at), 0, gid)
      ensures r.Ok? && r.value != 0 && ref.ByLeg? ==> Carried(env.world, r.value, gid)
      ensures r.Err? ==> Died(env.world, old(env.now), env.now) || (mode == Hedging && ref.ByLeg?)
    {
      at := env.now;
      if ref.ByTicket? { return Ok(ref.ticket), at; }
      if mode == Hedging { return Err, at; }
      if (gid, ref.leg) in refMap {
        return Ok(refMap[(gid, ref.leg)]), at;
      }
      var m := env.Ask();
      if m.Err? {
        assert !env.world(at).alive;
        return Err, at;
      }
      LegIdRoundTrip(gid, ref.leg);
      var p := FindGroup(m.value.positions, GroupOfReference(NewLegId(gid, ref.leg)));
      if p.None? { return Ok(0), at; }
      assert p.value in env.world(at).positions;
      refMap := refMap[(gid, ref.leg) := p.value.ticket];
      r := Ok(p.value.ticket);
    }

    /** The position just opened: hedging looks for the leg token first, then for the group; netting
        looks for the group only. */
    method FindOpened(mode: AccountMode, gid: string, leg: nat) returns (r: Res<Option<Position>>)
      modifies env
      ensures old(env.now) <= env.now
      ensures r.Ok? ==> var byToken := FindToken(env.world(old(env.now)).positions, "L:" + NewLegId(gid, leg));
        r.value == if mode != Hedging then FindGroup(env.world(old(env.now)).positions, gid)
                   else if byToken.Some? then byToken
                   else FindGroup(env.world(old(env.now) + 1).positions, gid)
      ensures r.Ok? && r.value.Some? && mode != Hedging ==> Carried(env.world, r.value.value.ticket, gid)
      ensures r.Ok? && r.value.Some? ==> Mentioned(env.world, r.value.value.ticket, gid)
    {
      hide Contains, Mentioned;
      if mode == Hedging {
        var m :- env.Ask();
        var p := FindToken(m.positions, "L:" + NewLegId(gid, leg));
        if p.Some? {
          LegTokenHasGroup(p.value.comment, gid, leg);
          SeenIsMentioned(env.world, env.now - 1, p.value, gid);
          return Ok(p);
        }
      }
      var m :- env.Ask();
      var p := FindGroup(m.positions, gid);
      assert m == env.world(env.now - 1);
      if p.Some? {
        assert Carried(env.world, p.value.ticket, gid);
        CarriedIsMentioned(env.world, p.value.ticket, gid);
      }
      r := Ok(p);
    }

    /** `submit_leg`. Hedging opens one position per leg; netting opens one aggregate position with
        leg 1 and makes legs 2 and 3 virtual. At most one order leaves the process. */
    method SubmitLeg(mode: AccountMode, rec: GroupRecord, leg: nat, volume: real) returns (r: Res<LegResult>)
      requires Valid()
      modifies env, this`refMap, rec`log
      ensures Valid()
      ensures old(env.now) <= env.now
      ensures rec.log == old(rec.log) || rec.log == WithLegOrder(old(rec.log), leg, rec.log.lastOrder)
      ensures if mode == Netting && leg != 1 then rec.log == old(rec.log) else r.Ok? ==> rec.log != old(rec.log)
      ensures r.Ok? && r.value.state == LegVirtual ==> mode == Netting && leg != 1
      ensures old(rec.log.lastOrder) <= old(env.now) ==> rec.log.lastOrder <= env.now
      ensures r.Ok? && r.value.state == LegRejected ==> r.value.position == 0
      ensures r.Ok? ==> r.value.state in {LegSubmitted, LegPartiallyFilled, LegVirtual, LegRejected}
      ensures r.Ok? && r.value.position != 0 ==> Mentioned(env.world, r.value.position, rec.gid)
    {
      hide Mentioned, Contains;
      if mode == Netting && leg != 1 {
        r := SubmitVirtualLeg(rec.gid, leg);
        return;
      }
      var q :- env.Ask();
      if q.quote.None? { return Err; }
      var m := env.Next();
      rec.log := WithLegOrder(rec.log, leg, env.now);
      if !m.alive { return Err; }
      if !m.accepted { return Ok(LegResult(LegRejected, 0, 0.0)); }
      var found :- FindOpened(mode, rec.gid, leg);
      if found.None? { return Ok(LegResult(LegRejected, 0, 0.0)); }
      var filled := if m.volume != 0.0 then m.volume else found.value.volume;
      if mode == Netting {
        var ticket := found.value.ticket;
        refMap := refMap[(rec.gid, 1) := ticket][(rec.gid, 2) := ticket][(rec.gid, 3) := ticket];
      }
      var state := if filled >= volume - 0.000000001 then LegSubmitted else LegPartiallyFilled;
      r := Ok(LegResult(state, found.value.ticket, filled));
    }

    method SubmitVirtualLeg(gid: string, leg: nat) returns (r: Res<LegResult>)
      requires Valid()
      modifies env, this`refMap
      ensures Valid()
      ensures old(env.now) <= env.now
      ensures r.Ok? && r.value.state == LegRejected ==> r.value.position == 0
      ensures r.Ok? ==> r.value.state in {LegVirtual, LegRejected}
      ensures r.Ok? && r.value.position != 0 ==> Mentioned(env.world, r.value.position, gid)
    {
      hide Mentioned, Contains;
      var ticket: nat := 0;
      if (gid, 1) in refMap {
        ticket := refMap[(gid, 1)];
      } else {
        var m :- env.Ask();
        var p := FindGroup(m.positions, gid);
        if p.Some? {
          assert p.value in env.world(env.now - 1).positions;
          ticket := p.value.ticket;
        }
      }
      if ticket == 0 { return Ok(LegResult(LegRejected, 0, 0.0)); }
      CarriedIsMentioned(env.world, ticket, gid);
      refMap := refMap[(gid, leg) := ticket];
      r := Ok(LegResult(LegVirtual, ticket, 0.0));
    }

    /** `query_position`. An answer of None was true of the terminal at moment `at`. */
    method QueryPosition(mode: AccountMode, gid: string, ref: Reference)
      returns (r: Res<Option<Position>>, ghost at: nat, ghost ticket: nat)
      requires Valid()
      modifies env, this`refMap
      ensures Valid()
      ensures old(env.now) <= env.now
      ensures ref.ByTicket? ==> ticket == ref.ticket
      ensures r.Ok? && ref.ByLeg? && ticket != 0 ==> Carried(env.world, ticket, gid)
      ensures r.Ok? && r.value.None? && (ref.ByLeg? || ref.ticket != 0) ==>
        old(env.now) <= at < env.now && Gone(env.world(at), ticket, gid)
      ensures r.Ok? && r.value.Some? ==>
        old(env.now) <= at < env.now && r.value.value in env.world(at).positions && r.value.value.ticket == ticket != 0
      ensures r.Err? ==> Died(env.world, old(env.now), env.now) || (mode == Hedging && ref.ByLeg?)
    {
      var t;
      ticket := if ref.ByTicket? then ref.ticket else 0;
      t, at := ResolveTicket(mode, gid, ref);
      if t.Err? { return Err, at, ticket; }
      ticket := t.value;
      if t.value == 0 { return Ok(None), at, ticket; }
      at := env.now;
      var m := env.Ask();
      if m.Err? {
        assert !env.world(at).alive;
        return Err, at, ticket;
      }
      r := Ok(FindTicket(m.value.positions, t.value));
    }

    /** `query_sl`: the stop of the position, None when there is no position or no stop. */
    method QuerySl(mode: AccountMode, gid: string, ref: Reference) returns (r: Res<Option<real>>, ghost s: Sighting)
      requires Valid()
      modifies env, this`refMap
      ensures Valid()
      ensures old(env.now) <= env.now
      ensures s.mode == mode && (ref.ByTicket? ==> s.ticket == ref.ticket)
      ensures r.Ok? && ref.ByLeg? && s.ticket != 0 ==> Carried(env.world, s.ticket, gid)
      ensures r.Ok? && r.value.Some? ==>
        old(env.now) <= s.time < env.now && ShowsStop(env.world(s.time), s.ticket, r.value.value)
      ensures r.Ok? ==> Queried(env.world, old(env.now), env.now, gid, ref, r.value, s)
      ensures r.Err? ==> Died(env.world, old(env.now), env.now) || (mode == Hedging && ref.ByLeg?)
    {
      var p, at, ticket := QueryPosition(mode, gid, ref);
      s := Sighting(at, ticket, mode);
      if p.Err? { return Err, s; }
      r := Ok(if p.value.Some? && p.value.value.sl != 0.0 then Some(p.value.value.sl) else None);
    }

    /** `modify_sl` of one leg. The order leaves, and is counted, exactly when the position is found. */
    method ModifySl(mode: AccountMode, rec: GroupRecord, ref: Reference, ghost index: nat)
      returns (r: Res<bool>, ghost found: bool, ghost s: Sighting)
      requires Valid()
      modifies env, this`refMap, rec`log
      ensures Valid()
      ensures old(env.now) <= env.now
      ensures rec.log == if found then WithStopModify(old(rec.log), index, env.now) else old(rec.log)
      ensures found || r.Ok? ==> Looked(env.world, old(env.now), env.now, rec.gid, ref, found, s)
      ensures r.Ok? && !found ==> !r.value
      ensures r.Err? ==> Died(env.world, old(env.now), env.now) || (mode == Hedging && ref.ByLeg?)
      ensures r.Ok? && found ==> old(env.now) < env.now && r.value == env.world(env.now - 1).accepted
    {
      found := false;
      var p, at, ticket := QueryPosition(mode, rec.gid, ref);
      s := Sighting(at, ticket, mode);
      if p.Err? { return Err, found, s; }
      if p.value.None? { return Ok(false), found, s; }
      found := true;
      var m := env.Next();
      rec.log := WithStopModify(rec.log, index, env.now);
      if !m.alive {
        assert !env.world(env.now - 1).alive;
        return Err, found, s;
      }
      r := Ok(m.accepted);
    }

    /** `close_position`: a compensation close. A missing position is a rejection without an order. */
    method ClosePosition(mode: AccountMode, rec: GroupRecord, ref: Reference, ghost action: Action)
      returns (r: Res<CloseResult>, ghost found: bool, ghost s: Sighting)
      requires Valid()
      modifies env, this`refMap, rec`log
      ensures Valid()
      ensures old(env.now) <= env.now
      ensures rec.log == old(rec.log) || rec.log == WithClose(old(rec.log), action, rec.log.lastOrder)
      ensures old(rec.log.lastOrder) <= old(env.now) ==> rec.log.lastOrder <= env.now
      ensures found || r.Ok? ==> Looked(env.world, old(env.now), env.now, rec.gid, ref, found, s)
      ensures !found ==> rec.log == old(rec.log) && (r.Ok? ==> r.value.CloseRejected?)
      ensures found && r.Ok? ==> rec.log == WithClose(old(rec.log), action, env.now)
    {
      found := false;
      var p, at, ticket := QueryPosition(mode, rec.gid, ref);
      s := Sighting(at, ticket, mode);
      if p.Err? { return Err, found, s; }
      if p.value.None? { return Ok(CloseRejected), found, s; }
      found := true;
      var q := env.Ask();
      if q.Err? || q.value.quote.None? { return Err, found, s; }
      var m := env.Next();
      rec.log := WithClose(rec.log, action, env.now);
      if !m.alive { return Err, found, s; }
      r := Ok(if m.accepted then CloseFilled(m.volume, m.price) else CloseRejected);
    }

    /** `close_partial`: a netting close at target `leg`, counted when the broker accepts it. */
    method ClosePartial(mode: AccountMode, rec: GroupRecord, ref: Reference, leg: nat) returns (r: Res<CloseResult>)
      requires Valid()
      modifies env, this`refMap, rec`log
      ensures Valid()
      ensures old(env.now) <= env.now
      ensures rec.log == old(rec.log).(lastOrder := rec.log.lastOrder) ||
        rec.log == WithTpFill(old(rec.log), leg, rec.log.lastOrder)
      ensures old(rec.log.lastOrder) <= old(env.now) ==> rec.log.lastOrder <= env.now
      ensures r.Ok? ==>
        rec.log.tpFills == old(rec.log).tpFills + if r.value.CloseFilled? then multiset{leg} else multiset{}
    {
      var p, _, _ := QueryPosition(mode, rec.gid, ref);
      if p.Err? { return Err; }
      if p.value.None? { return Ok(CloseRejected); }
      var q :- env.Ask();
      if q.quote.None? { return Err; }
      var m := env.Next();
      rec.log := if m.accepted then WithTpFill(rec.log, leg, env.now) else rec.log.(lastOrder := env.now);
      if !m.alive { return Err; }
      r := Ok(if m.accepted then CloseFilled(m.volume, m.price) else CloseRejected);
    }
  }

  /** The answer about a reference, a position or none, was true of the terminal at the sighting, which
      is of the position referred to: its ticket is given or it carried the group. */
  ghost predicate Looked(
    world: nat -> Moment, from: nat, to: nat, gid: string, ref: Reference, found: bool, s: Sighting) {
    ref.ByLeg? || ref.ticket != 0 ==>
      && from <= s.time < to && Names(world, ref, s.ticket, gid)
      && (if found then IsLive(world(s.time), s.ticket) else Gone(world(s.time), s.ticket, gid))
  }

  ghost predicate IsLive(m: Moment, ticket: nat) {
    exists p :: p in m.positions && p.ticket == ticket != 0
  }

  ghost predicate Names(world: nat -> Moment, ref: Reference, ticket: nat, gid: string) {
    if ref.ByTicket? then ticket == ref.ticket else ticket != 0 ==> Carried(world, ticket, gid)
  }

  /** What a stop query answered was true of the terminal at the sighting. */
  ghost predicate Queried(
    world: nat -> Moment, from: nat, to: nat, gid: string, ref: Reference, shown: Option<real>, s: Sighting) {
    ref.ByLeg? || ref.ticket != 0 ==>
      && from <= s.time < to && Names(world, ref, s.ticket, gid)
      && (if shown.Some? then ShowsStop(world(s.time), s.ticket, shown.value)
          else Gone(world(s.time), s.ticket, gid) || ShowsStop(world(s.time), s.ticket, 0.0))
  }

  ghost predicate ShowsStop(m: Moment, ticket: nat, sl: real) {
    exists p :: p in m.positions && p.ticket == ticket != 0 && p.sl == sl
  }
}
