/** What is true of one group after every step of every run, whatever the broker answers and
    wherever the process dies. All statements are about values: the stored row, the recorded
    action ids, the log, and the world the run is played in. */
module ProtocolInvariant {
  import opened GroupStates
  import opened Wrappers
  import opened Terminal
  import opened Geometry
  import opened TradeGroupStore
  import opened MT5Driver

  datatype Limits = Limits(maxBe: nat, maxComp: nat, cost: Cost)

  /** One group of one run. */
  datatype Group = Group(gid: string, row: Row, actions: set<Action>, log: Log)

  function Min(a: nat, b: nat): nat {
    if a <= b then a else b
  }

  // ---------------------------------------------------------------------------
  // Parts of the invariant
  // ---------------------------------------------------------------------------

  /** The stored states form a path, and the stored state is its end. */
  ghost predicate PathInv(row: Row, log: Log) {
    IsHistory(log.history) && Last(log.history) == row.state
  }

  /** Entry orders leave at most once per leg, and only after OPEN-GROUP is recorded. A group created
      over one that had begun to submit is never submitted. */
  ghost predicate SubmitInv(actions: set<Action>, log: Log) {
    && (forall leg :: log.legOrders[leg] <= 1)
    && (OpenGroup !in actions ==> log.legOrders == multiset{} && SUBMITTED !in log.history && !log.recreated)
    && (log.recreated ==> SUBMITTED !in log.history)
  }

  /** The terminal showed the deal as an OUT deal of a position of ours that mentions the group. */
  ghost predicate WithinReach(world: nat -> Moment, gid: string, deal: nat) {
    exists ticket :: Mentioned(world, ticket, gid) && ShownOut(world, ticket, deal)
  }

  ghost predicate ShownOut(world: nat -> Moment, ticket: nat, deal: nat) {
    exists t: nat, d :: d in DealsOf(world(t), ticket) && d.isOut && d.ticket == deal
  }

  function DealsOf(m: Moment, ticket: nat): seq<Deal> {
    if ticket in m.deals then m.deals[ticket] else []
  }

  /** A deal drives at most one transition; a deal that drove one is recorded as consumed and is of a
      position that mentions the group. */
  ghost predicate DealInv(gid: string, actions: set<Action>, log: Log, world: nat -> Moment) {
    forall t :: log.drives[t] <= 1 && (log.drives[t] == 1 ==> DealSeen(t) in actions && WithinReach(world, gid, t))
  }

  /** Every ticket recorded for a leg is of a position that mentions the group. */
  ghost predicate LegsMentioned(legs: seq<Leg>, world: nat -> Moment, gid: string) {
    forall i :: 0 <= i < |legs| && legs[i].position != 0 ==> Mentioned(world, legs[i].position, gid)
  }

  lemma SameLegsMentioned(a: seq<Leg>, b: seq<Leg>, world: nat -> Moment, gid: string)
    requires SameTickets(a, b) && LegsMentioned(a, world, gid)
    ensures LegsMentioned(b, world, gid)
  {
  }

  /** Netting closes: one fill once the action is recorded, plus one for each aborted step. */
  ghost predicate TpInv(actions: set<Action>, log: Log, slack: nat) {
    forall leg :: log.tpFills[leg] <= (if CloseTp(leg) in actions then 1 else 0) + log.aborts + slack
  }

  predicate Opened(leg: Leg) {
    leg.state in {LegSubmitted, LegPartiallyFilled, LegVirtual}
  }

  ghost predicate LegsNumbered(legs: seq<Leg>) {
    forall i :: 0 <= i < |legs| ==> legs[i].no == i + 1
  }

  /** The ticket recorded for a leg, 0 when there is none. */
  function LegTicket(legs: seq<Leg>, no: nat): nat {
    if 1 <= no <= |legs| then legs[no - 1].position else 0
  }

  ghost predicate DistinctEntries(entries: seq<CompEntry>) {
    forall i, j :: 0 <= i < j < |entries| ==> entries[i].action != entries[j].action
  }

  /** A reference counts as closed only once its action id is recorded. */
  ghost predicate FilledRecorded(entries: seq<CompEntry>, actions: set<Action>) {
    forall i :: 0 <= i < |entries| && entries[i].filled ==> entries[i].action in actions
  }

  ghost predicate HasEntry(entries: seq<CompEntry>, action: Action) {
    exists i :: 0 <= i < |entries| && entries[i].action == action
  }

  /** Compensation handles every position recorded for an opened leg: leg by leg on a hedging
      account, through the aggregate position on a netting account. */
  ghost predicate Covers(row: Row, mode: AccountMode) {
    if mode == Netting then HasEntry(row.comp.entries, CompensateGroup)
    else forall i :: 0 <= i < |row.legs| && Opened(row.legs[i]) && row.legs[i].position != 0 ==>
           HasEntry(row.comp.entries, CompensateLeg(row.legs[i].no))
  }

  /** The position behind a compensation entry was gone after the last order for the group and
      before the confirmation was stored. */
  ghost predicate SeenGone(gid: string, row: Row, log: Log, world: nat -> Moment, action: Action) {
    && action in log.flat
    && ShownGone(gid, row.legs, world, action, log.flat[action], log.lastOrder, log.flatBefore)
  }

  /** `s` is the ticket of the entry, seen gone between two moments. */
  ghost predicate ShownGone(
    gid: string, legs: seq<Leg>, world: nat -> Moment, action: Action, s: Sighting, from: nat, before: nat) {
    && (action.CompensateLeg? ==> s.ticket == LegTicket(legs, action.leg))
    && (action.CompensateGroup? && s.ticket != 0 ==> Carried(world, s.ticket, gid))
    && (action.CompensateGroup? || s.ticket != 0 ==> from <= s.time < before && Gone(world(s.time), s.ticket, gid))
  }

  ghost predicate CompInv(g: Group, world: nat -> Moment, limits: Limits, slack: nat) {
    var begun := PARTIAL_SUBMISSION in g.log.history;
    && (!begun && !g.log.recreated ==>
      g.log.closes == multiset{} && g.row.comp == NO_COMP && forall a :: a in g.actions ==> !IsCompensation(a))
    && (forall a :: g.log.closes[a] <= 1 + Min(g.row.comp.retries, limits.maxComp) + g.log.aborts + slack)
    && DistinctEntries(g.row.comp.entries) && FilledRecorded(g.row.comp.entries, g.actions)
    && (g.row.state in {COMPENSATION_REQUESTED, FAILED_WITH_OPEN_RISK} ==> Covers(g.row, g.log.compMode))
    && (COMPENSATION_CONFIRMED in g.log.history ==>
          && Covers(g.row, g.log.compMode)
          && forall i :: 0 <= i < |g.row.comp.entries| ==>
            SeenGone(g.gid, g.row, g.log, world, g.row.comp.entries[i].action))
  }

  const SL_EPS: real := 0.000000001

  /** `s` shows the requested stop on the position of `leg`, at a moment after the break-even was
      priced: on the ticket recorded for the leg on a hedging account, on a position that carried the
      group on a netting account. */
  ghost predicate Protects(gid: string, row: Row, world: nat -> Moment, from: nat, before: nat, s: Sighting, leg: nat) {
    && from <= s.time < before
    && (if s.mode == Hedging then s.ticket == LegTicket(row.legs, leg) else Carried(world, s.ticket, gid))
    && exists sl: real :: ShowsStop(world(s.time), s.ticket, sl) && Abs(sl - row.be.requested) <= SL_EPS
  }

  /** The broker showed the requested stop on the position of an `applyTo` leg. */
  ghost predicate SeenProtected(gid: string, row: Row, log: Log, world: nat -> Moment, i: nat)
    requires i < |row.spec.applyTo| && i < |log.seen|
  {
    Protects(gid, row, world, log.askedAt, log.seenBefore, log.seen[i], row.spec.applyTo[i])
  }

  /** The requested stop is the break-even of the actual fill at the quote just before `askedAt`. */
  ghost predicate PricedProperly(row: Row, log: Log, world: nat -> Moment, cost: Cost) {
    && row.spec.actualFill.Some?
    && log.askedAt > 0 && world(log.askedAt - 1).quote.Some?
    && var q := world(log.askedAt - 1).quote.value;
       ComputeBreakEven(row.spec.side, row.spec.actualFill.value, cost, q.spread, q.tick) == Accepted(row.be.requested)
  }

  ghost predicate BeInv(g: Group, world: nat -> Moment, limits: Limits, slack: nat) {
    var confirmed := BE_CONFIRMED in g.log.history;
    && (BE_REQUESTED !in g.log.history ==> g.row.be.retries == 0 && g.log.stopModifies == multiset{})
    && (BE_REQUESTED in g.log.history ==> PricedProperly(g.row, g.log, world, limits.cost))
    && g.row.be.retries <= limits.maxBe
    && (g.row.state in {BE_REQUESTED, BE_RETRY} || confirmed ==> g.row.be.retries < limits.maxBe)
    && (forall i :: g.log.stopModifies[i] <= g.row.be.retries + g.log.aborts + slack + (if confirmed then 1 else 0))
    && (forall i :: i in g.log.stopModifies ==> i < |g.row.spec.applyTo|)
    && (confirmed ==>
      |g.log.seen| == |g.row.spec.applyTo| &&
      forall i :: 0 <= i < |g.log.seen| ==> SeenProtected(g.gid, g.row, g.log, world, i))
  }

  /** How many orders of each kind a step may have sent without having recorded them yet. */
  datatype Slack = Slack(tp: nat, comp: nat, be: nat)
  const NONE := Slack(0, 0, 0)
  const ONE := Slack(1, 1, 1)

  /** The invariant: with slack NONE between steps, and at most ONE inside a step. */
  ghost predicate GroupInv(g: Group, world: nat -> Moment, limits: Limits, slack: Slack) {
    && PathInv(g.row, g.log)
    && LegsNumbered(g.row.legs) && LegsMentioned(g.row.legs, world, g.gid)
    && SubmitInv(g.actions, g.log)
    && DealInv(g.gid, g.actions, g.log, world)
    && TpInv(g.actions, g.log, slack.tp)
    && CompInv(g, world, limits, slack.comp)
    && BeInv(g, world, limits, slack.be)
  }

  // ---------------------------------------------------------------------------
  // What the invariant means for a reader
  // ---------------------------------------------------------------------------

  /** A compensated group fails only flat. On a hedging account every position recorded for one of
      its opened legs was gone; on a netting account the position that had carried the group, or
      every position that could carry it when none had been found. The sighting is after the last
      order the executor sent for the group and before FAILED was stored. */
  lemma CompensatedFailureIsFlat(g: Group, times: seq<nat>, world: nat -> Moment, limits: Limits, slack: Slack, k: nat)
    returns (s: Sighting)
    requires GroupInv(g, world, limits, slack) && Stamped(g.log.history, times, g.log.seenBefore, g.log.flatBefore)
    requires g.row.state == FAILED && PARTIAL_SUBMISSION in g.log.history
    requires g.log.compMode == Netting || (k < |g.row.legs| && Opened(g.row.legs[k]) && g.row.legs[k].position != 0)
    ensures if g.log.compMode == Netting then s.ticket != 0 ==> Carried(world, s.ticket, g.gid)
            else s.ticket == g.row.legs[k].position
    ensures Gone(world(s.time), s.ticket, g.gid)
    ensures g.log.lastOrder <= s.time
    ensures forall c ::
      0 <= c < |g.log.history| && (g.log.history[c].FAILED? || g.log.history[c].COMPENSATION_CONFIRMED?) ==>
      s.time < times[c]
  {
    ConfirmedBeforeFailure(g.log.history);
    var action := if g.log.compMode == Netting then CompensateGroup else CompensateLeg(g.row.legs[k].no);
    EntrySeenGone(g, world, limits, slack.comp, action);
    s := g.log.flat[action];
    forall c | 0 <= c < |g.log.history| && (g.log.history[c].FAILED? || g.log.history[c].COMPENSATION_CONFIRMED?)
      ensures s.time < times[c]
    {
      assert StoredAfter(g.log.history[c], times[c], g.log.seenBefore, g.log.flatBefore);
    }
  }

  lemma EntrySeenGone(g: Group, world: nat -> Moment, limits: Limits, slack: nat, action: Action)
    requires CompInv(g, world, limits, slack) && COMPENSATION_CONFIRMED in g.log.history
    requires if g.log.compMode == Netting then action == CompensateGroup
             else exists i ::
               0 <= i < |g.row.legs| && Opened(g.row.legs[i]) && g.row.legs[i].position != 0 &&
               action == CompensateLeg(g.row.legs[i].no)
    ensures SeenGone(g.gid, g.row, g.log, world, action)
  {
    hide SeenGone;
    assert HasEntry(g.row.comp.entries, action);
    var i :| 0 <= i < |g.row.comp.entries| && g.row.comp.entries[i].action == action;
  }

  /** A netting group has one aggregate position, and that position keeps its comment. */
  ghost predicate IsAggregate(world: nat -> Moment, ticket: nat, gid: string) {
    forall t: nat, p :: p in world(t).positions ==> (p.ticket == ticket <==> CarriesGroup(p, gid))
  }

  /** So the aggregate position of such a netting group was absent. */
  lemma AggregateIsFlat(g: Group, times: seq<nat>, world: nat -> Moment, limits: Limits, slack: Slack, ticket: nat)
    returns (t: nat)
    requires GroupInv(g, world, limits, slack) && Stamped(g.log.history, times, g.log.seenBefore, g.log.flatBefore)
    requires g.row.state == FAILED && PARTIAL_SUBMISSION in g.log.history && g.log.compMode == Netting
    requires ticket != 0 && IsAggregate(world, ticket, g.gid)
    ensures g.log.lastOrder <= t
    ensures forall c ::
      0 <= c < |g.log.history| && (g.log.history[c].FAILED? || g.log.history[c].COMPENSATION_CONFIRMED?) ==>
      t < times[c]
    ensures forall p :: p in world(t).positions ==> p.ticket != ticket
  {
    var s := CompensatedFailureIsFlat(g, times, world, limits, slack, 0);
    hide GroupInv, Stamped;
    t := s.time;
  }

  lemma ConfirmedBeforeFailure(h: seq<GroupState>)
    requires IsHistory(h) && Last(h) == FAILED && PARTIAL_SUBMISSION in h
    ensures COMPENSATION_CONFIRMED in h
  {
    var p :| 0 <= p < |h| && h[p] == PARTIAL_SUBMISSION;
    CompensationIsClosed(h, p, |h| - 1);
  }

  /** Effects are bounded: one entry order per leg, one transition per deal, and, when no step was
      aborted, one fill per netting target, 1 + max_compensation_retries closes per reference and
      max_be_retries stop modifies per protected leg. Every aborted step adds at most one. */
  lemma EffectsAreBounded(g: Group, world: nat -> Moment, limits: Limits, leg: nat, deal: nat, a: Action, i: nat)
    requires GroupInv(g, world, limits, NONE)
    ensures g.log.legOrders[leg] <= 1 && g.log.drives[deal] <= 1
    ensures g.log.tpFills[leg] <= 1 + g.log.aborts
    ensures g.log.closes[a] <= 1 + limits.maxComp + g.log.aborts
    ensures g.log.stopModifies[i] <= limits.maxBe + g.log.aborts
  {
  }

  /** No deal is within reach of two groups: no position of ours mentions both, and no deal is shown
      under two positions. */
  ghost predicate DealsKeptApart(world: nat -> Moment, a: string, b: string) {
    forall deal :: !(WithinReach(world, a, deal) && WithinReach(world, b, deal))
  }

  /** Two groups that are kept apart are never driven by the same deal. */
  lemma DealDrivesOneGroup(g: Group, h: Group, world: nat -> Moment, limits: Limits, deal: nat)
    requires GroupInv(g, world, limits, NONE) && GroupInv(h, world, limits, NONE) && DealsKeptApart(world, g.gid, h.gid)
    ensures g.log.drives[deal] + h.log.drives[deal] <= 1
  {
    assert !(WithinReach(world, g.gid, deal) && WithinReach(world, h.gid, deal));
    hide WithinReach;
  }

  /** They are kept apart when no ticket is mentioned with both and no deal is of two positions. */
  lemma TicketsKeepDealsApart(world: nat -> Moment, a: string, b: string)
    requires forall ticket :: !(Mentioned(world, ticket, a) && Mentioned(world, ticket, b))
    requires forall x, y, deal :: ShownOut(world, x, deal) && ShownOut(world, y, deal) ==> x == y
    ensures DealsKeptApart(world, a, b)
  {
    hide Mentioned, ShownOut;
  }

  /** The whole run sends at most max_be_retries stop modifies for each leg of `applyTo`, aborted
      steps aside. */
  lemma StopModifiesAreBounded(g: Group, world: nat -> Moment, limits: Limits)
    requires GroupInv(g, world, limits, NONE)
    ensures |g.log.stopModifies| <= |g.row.spec.applyTo| * (limits.maxBe + g.log.aborts)
  {
    CountedByIndex(g.log.stopModifies, |g.row.spec.applyTo|, limits.maxBe + g.log.aborts);
  }

  lemma {:induction false} CountedByIndex(m: multiset<nat>, n: nat, most: nat)
    requires forall i :: i in m ==> i < n && m[i] <= most
    ensures |m| <= n * most
  {
    if n > 0 {
      var rest := m[n - 1 := 0];
      assert m == rest + multiset{}[n - 1 := m[n - 1]];
      CountedByIndex(rest, n - 1, most);
      assert n * most == (n - 1) * most + most;
    } else {
      assert m == multiset{};
    }
  }

  /** A group stored as BE_CONFIRMED, now or earlier, had the position of every `applyTo` leg at the
      requested stop, after the break-even was priced and before the confirmation was stored, and
      that stop is the break-even price of the actual fill. */
  lemma ConfirmedMeansProtected(g: Group, times: seq<nat>, world: nat -> Moment, limits: Limits, i: nat)
    returns (s: Sighting, sl: real)
    requires GroupInv(g, world, limits, NONE) && Stamped(g.log.history, times, g.log.seenBefore, g.log.flatBefore)
    requires BE_CONFIRMED in g.log.history && i < |g.row.spec.applyTo|
    ensures PricedProperly(g.row, g.log, world, limits.cost)
    ensures if s.mode == Hedging then s.ticket == LegTicket(g.row.legs, g.row.spec.applyTo[i])
      else Carried(world, s.ticket, g.gid)
    ensures ShowsStop(world(s.time), s.ticket, sl) && Abs(sl - g.row.be.requested) <= SL_EPS
    ensures g.log.askedAt <= s.time
    ensures forall c :: 0 <= c < |g.log.history| && g.log.history[c].BE_CONFIRMED? ==> s.time < times[c]
  {
    var h := g.log.history;
    RequestedBeforeConfirmed(h);
    assert SeenProtected(g.gid, g.row, g.log, world, i);
    hide GroupInv, BeInv, IsHistory, PricedProperly, Carried;
    s := g.log.seen[i];
    sl :| ShowsStop(world(s.time), s.ticket, sl) && Abs(sl - g.row.be.requested) <= SL_EPS;
    hide ShowsStop;
    forall c | 0 <= c < |h| && h[c].BE_CONFIRMED? ensures s.time < times[c] {
      assert StoredAfter(h[c], times[c], g.log.seenBefore, g.log.flatBefore);
    }
  }

  lemma RequestedBeforeConfirmed(h: seq<GroupState>)
    requires IsHistory(h) && BE_CONFIRMED in h
    ensures BE_REQUESTED in h
  {
    var c :| 0 <= c < |h| && h[c] == BE_CONFIRMED;
    var r := MustPass(h, {BE_CONFIRMED, BE_RETRY}, BE_REQUESTED, c);
  }

  // ---------------------------------------------------------------------------
  // How single writes and marks keep the invariant
  // ---------------------------------------------------------------------------

  /** Where a group can be, given what its history contains. */
  lemma {:induction false} HistoryFacts(h: seq<GroupState>)
    requires IsHistory(h)
    ensures PARTIAL_SUBMISSION in h ==> Compensating(Last(h)) || Last(h) in {REJECTED, FAILED}
    ensures Compensating(Last(h)) ==> PARTIAL_SUBMISSION in h
    ensures COMPENSATION_CONFIRMED in h ==> Last(h) in {COMPENSATION_CONFIRMED, FAILED}
    ensures BE_REQUESTED in h ==>
      Last(h) in {BE_REQUESTED, BE_RETRY, BE_CONFIRMED, TP2_FILLED, TP3_FILLED, RECONCILED, STOPPED, FAILED}
    ensures Last(h) in {BE_REQUESTED, BE_RETRY, BE_CONFIRMED} || BE_CONFIRMED in h ==> BE_REQUESTED in h
    ensures BE_CONFIRMED in h ==> Last(h) in {BE_CONFIRMED, TP2_FILLED, TP3_FILLED, RECONCILED, STOPPED, FAILED}
    decreases |h|
  {
    if |h| > 1 {
      var k := h[..|h| - 1];
      assert IsHistory(k);
      HistoryFacts(k);
      assert h == k + [Last(h)];
      assert Step(h[|h| - 2], h[|h| - 2 + 1]);
    }
  }

  ghost function Written(g: Group, row: Row): Group {
    g.(row := row, log := g.log.(history := g.log.history + [row.state]))
  }

  lemma MoreSlack(g: Group, world: nat -> Moment, limits: Limits, less: Slack, more: Slack)
    requires GroupInv(g, world, limits, less) && less.tp <= more.tp && less.comp <= more.comp && less.be <= more.be
    ensures GroupInv(g, world, limits, more)
  {
  }

  ghost predicate SameTickets(a: seq<Leg>, b: seq<Leg>) {
    |a| == |b| && forall i :: 0 <= i < |a| ==> a[i].position == b[i].position && a[i].no == b[i].no
  }

  predicate Plain(s: GroupState) {
    !Compensating(s) && !s.BE_REQUESTED? && !s.BE_RETRY? && !s.BE_CONFIRMED? && !s.FAILED?
  }

  /** A write outside the break-even and compensation flows. */
  lemma PlainWrite(g: Group, world: nat -> Moment, limits: Limits, slack: Slack, row: Row)
    requires GroupInv(g, world, limits, slack)
    requires Step(g.row.state, row.state) && Plain(row.state) && !Compensating(g.row.state)
    requires row.comp == g.row.comp && LegsNumbered(row.legs) && LegsMentioned(row.legs, world, g.gid)
    requires BE_REQUESTED in g.log.history ==>
      SameTickets(g.row.legs, row.legs) && row.spec == g.row.spec && row.be == g.row.be
    requires row.be.retries == g.row.be.retries
    requires row.state == SUBMITTED && g.row.state == VALIDATED ==> OpenGroup in g.actions && !g.log.recreated
    ensures GroupInv(Written(g, row), world, limits, slack)
  {
    HistoryFacts(g.log.history);
    ExtendHistory(g.log.history, row.state);
    HistoryFacts(g.log.history + [row.state]);
    KeepProtected(g, world, limits, slack.be, row);
  }

  /** The evidence for a confirmed break-even survives a change of legs that keeps the tickets. */
  lemma KeepProtected(g: Group, world: nat -> Moment, limits: Limits, slack: nat, row: Row)
    requires BeInv(g, world, limits, slack)
    requires row.be.retries == g.row.be.retries && row.state !in {BE_REQUESTED, BE_RETRY, BE_CONFIRMED}
    requires BE_CONFIRMED in g.log.history ==> BE_REQUESTED in g.log.history
    requires BE_REQUESTED in g.log.history ==>
      SameTickets(g.row.legs, row.legs) && row.spec == g.row.spec && row.be == g.row.be
    ensures BeInv(Written(g, row), world, limits, slack)
  {
    var h := g.log.history;
    assert forall s :: s in h + [row.state] <==> s in h || s == row.state;
    if BE_CONFIRMED in h {
      forall i | 0 <= i < |g.log.seen|
        ensures SeenProtected(g.gid, row, Written(g, row).log, world, i)
      {
        assert SeenProtected(g.gid, g.row, g.log, world, i);
      }
    }
  }

  /** A write that only touches the volume ledger. */
  lemma VolumeWrite(g: Group, world: nat -> Moment, limits: Limits, volume: Volume)
    requires GroupInv(g, world, limits, NONE) && !Compensating(g.row.state) && !IsTerminal(g.row.state)
    ensures GroupInv(Written(g, g.row.(volume := volume)), world, limits, NONE)
  {
    HistoryFacts(g.log.history);
    ExtendHistory(g.log.history, g.row.state);
    var k := Written(g, g.row.(volume := volume));
    assert forall s :: s in k.log.history <==> s in g.log.history;
    if BE_CONFIRMED in g.log.history {
      forall i | 0 <= i < |g.log.seen| ensures SeenProtected(k.gid, k.row, k.log, world, i) {
        assert SeenProtected(g.gid, g.row, g.log, world, i);
      }
    }
  }

  /** An aborted step is counted, which pays for whatever it left unrecorded. */
  lemma AbortPaysSlack(g: Group, world: nat -> Moment, limits: Limits)
    requires GroupInv(g, world, limits, ONE)
    ensures GroupInv(g.(log := g.log.(aborts := g.log.aborts + 1)), world, limits, NONE)
  {
    var k := g.(log := g.log.(aborts := g.log.aborts + 1));
    assert forall i ::
      0 <= i < |g.row.comp.entries| && SeenGone(g.gid, g.row, g.log, world, g.row.comp.entries[i].action) ==>
      SeenGone(k.gid, k.row, k.log, world, k.row.comp.entries[i].action);
    if BE_CONFIRMED in g.log.history {
      forall i | 0 <= i < |g.log.seen| ensures SeenProtected(k.gid, k.row, k.log, world, i) {
        assert SeenProtected(g.gid, g.row, g.log, world, i);
      }
    }
  }

  // Recorded actions ----------------------------------------------------------

  lemma MarkPlain(g: Group, world: nat -> Moment, limits: Limits, slack: Slack, action: Action)
    requires GroupInv(g, world, limits, slack) && (IsCompensation(action) ==> PARTIAL_SUBMISSION in g.log.history)
    ensures GroupInv(g.(actions := g.actions + {action}), world, limits, slack)
  {
  }

  /** A fill and the record of it. */
  lemma FillAndMark(g: Group, world: nat -> Moment, limits: Limits, leg: nat, at: nat)
    requires GroupInv(g, world, limits, NONE) && !Compensating(g.row.state) && !IsTerminal(g.row.state)
    requires CloseTp(leg) !in g.actions
    ensures GroupInv(g.(log := WithTpFill(g.log, leg, at), actions := g.actions + {CloseTp(leg)}), world, limits, NONE)
  {
    var filled := g.(log := WithTpFill(g.log, leg, at));
    TpCloseSent(g, world, limits, leg, at);
    MarkPlain(filled, world, limits, Slack(1, 0, 0), CloseTp(leg));
  }

  // Break-even ----------------------------------------------------------------

  lemma BeRequestWrite(g: Group, world: nat -> Moment, limits: Limits, row: Row, askedAt: nat)
    requires GroupInv(g, world, limits, NONE) && g.row.state == TP1_FILLED && limits.maxBe >= 1
    requires row == g.row.(state := BE_REQUESTED, be := Be(row.be.requested, g.row.be.retries))
    requires PricedProperly(row, g.log.(askedAt := askedAt), world, limits.cost)
    ensures GroupInv(Written(g.(log := g.log.(askedAt := askedAt)), row), world, limits, NONE)
  {
    HistoryFacts(g.log.history);
    ExtendHistory(g.log.history, BE_REQUESTED);
  }

  lemma BeRetryWrite(g: Group, world: nat -> Moment, limits: Limits, row: Row)
    requires GroupInv(g, world, limits, Slack(0, 0, 1)) && g.row.state in {BE_REQUESTED, BE_RETRY}
    requires row == g.row.(state := row.state, be := Be(g.row.be.requested, g.row.be.retries + 1))
    requires row.state == if g.row.be.retries + 1 >= limits.maxBe then FAILED else BE_RETRY
    ensures GroupInv(Written(g, row), world, limits, NONE)
  {
    HistoryFacts(g.log.history);
    ExtendHistory(g.log.history, row.state);
  }

  lemma BeConfirmWrite(g: Group, world: nat -> Moment, limits: Limits, row: Row)
    requires GroupInv(g, world, limits, Slack(0, 0, 1)) && g.row.state in {BE_REQUESTED, BE_RETRY}
    requires row == g.row.(state := BE_CONFIRMED)
    requires |g.log.seen| == |row.spec.applyTo| &&
      forall i :: 0 <= i < |g.log.seen| ==> SeenProtected(g.gid, row, g.log, world, i)
    ensures GroupInv(Written(g, row), world, limits, NONE)
  {
    HistoryFacts(g.log.history);
    ExtendHistory(g.log.history, BE_CONFIRMED);
    forall i | 0 <= i < |g.log.seen| ensures SeenProtected(g.gid, row, Written(g, row).log, world, i) {
      assert SeenProtected(g.gid, row, g.log, world, i);
    }
  }

  // Compensation ---------------------------------------------------------------

  lemma PartialWrite(g: Group, world: nat -> Moment, limits: Limits, row: Row)
    requires GroupInv(g, world, limits, NONE) && g.row.state == SUBMITTED
    requires row == g.row.(state := PARTIAL_SUBMISSION)
    ensures GroupInv(Written(g, row), world, limits, NONE)
  {
    HistoryFacts(g.log.history);
    ExtendHistory(g.log.history, PARTIAL_SUBMISSION);
  }

  /** Storing a compensation round: the closes it sent are covered by its retry count. */
  lemma CompWrite(g: Group, world: nat -> Moment, limits: Limits, slack: nat, row: Row)
    requires GroupInv(g, world, limits, Slack(0, slack, 0)) && Compensating(g.row.state) &&
      g.row.state != COMPENSATION_CONFIRMED
    requires row == g.row.(state := row.state, comp := row.comp, volume := row.volume)
    requires row.state in {COMPENSATION_REQUESTED, FAILED_WITH_OPEN_RISK}
    requires Covers(row, g.log.compMode) && DistinctEntries(row.comp.entries) &&
      FilledRecorded(row.comp.entries, g.actions)
    requires forall a :: g.log.closes[a] <= 1 + Min(row.comp.retries, limits.maxComp) + g.log.aborts
    ensures GroupInv(Written(g, row), world, limits, NONE)
  {
    HistoryFacts(g.log.history);
    ExtendHistory(g.log.history, row.state);
    hide IsHistory, Covers, DistinctEntries, FilledRecorded, LegsMentioned, PricedProperly;
  }

  lemma CoversSameActions(row: Row, mode: AccountMode, entries: seq<CompEntry>, retries: nat)
    requires Covers(row, mode) && DistinctEntries(row.comp.entries)
    requires |entries| == |row.comp.entries| &&
      forall i :: 0 <= i < |entries| ==> entries[i].action == row.comp.entries[i].action
    ensures Covers(row.(comp := Comp(retries, entries)), mode) && DistinctEntries(entries)
  {
    assert forall a :: HasEntry(row.comp.entries, a) ==> HasEntry(entries, a);
  }

  /** The same for a round that handled the stored entries. */
  lemma RoundWrite(g: Group, world: nat -> Moment, limits: Limits, slack: nat, row: Row)
    requires GroupInv(g, world, limits, Slack(0, slack, 0))
    requires g.row.state in {COMPENSATION_REQUESTED, FAILED_WITH_OPEN_RISK}
    requires row == g.row.(state := row.state, comp := row.comp)
    requires row.state in {COMPENSATION_REQUESTED, FAILED_WITH_OPEN_RISK}
    requires |row.comp.entries| == |g.row.comp.entries|
    requires forall j :: 0 <= j < |row.comp.entries| ==> row.comp.entries[j].action == g.row.comp.entries[j].action
    requires FilledRecorded(row.comp.entries, g.actions)
    requires Min(row.comp.retries, limits.maxComp) >= Min(g.row.comp.retries, limits.maxComp) + slack
    ensures GroupInv(Written(g, row), world, limits, NONE)
  {
    CoversSameActions(g.row, g.log.compMode, row.comp.entries, row.comp.retries);
    assert row.(comp := Comp(row.comp.retries, row.comp.entries)) == row;
    assert Covers(row, g.log.compMode) == Covers(g.row.(comp := row.comp), g.log.compMode);
    hide Covers, DistinctEntries, FilledRecorded;
    CompWrite(g, world, limits, slack, row);
  }

  lemma ConfirmWrite(g: Group, world: nat -> Moment, limits: Limits, row: Row)
    requires GroupInv(g, world, limits, NONE) && g.row.state in {COMPENSATION_REQUESTED, FAILED_WITH_OPEN_RISK}
    requires row == g.row.(state := COMPENSATION_CONFIRMED, volume := row.volume, comp := row.comp)
    requires row.comp.entries == g.row.comp.entries && row.comp.retries >= g.row.comp.retries
    requires forall i :: 0 <= i < |row.comp.entries| ==> SeenGone(g.gid, row, g.log, world, row.comp.entries[i].action)
    ensures GroupInv(Written(g, row), world, limits, NONE)
  {
    HistoryFacts(g.log.history);
    ExtendHistory(g.log.history, COMPENSATION_CONFIRMED);
    assert Covers(row, g.log.compMode);
    forall i | 0 <= i < |row.comp.entries|
      ensures SeenGone(g.gid, row, Written(g, row).log, world, row.comp.entries[i].action)
    {
      assert SeenGone(g.gid, row, g.log, world, row.comp.entries[i].action);
    }
  }

  lemma FailAfterConfirmWrite(g: Group, world: nat -> Moment, limits: Limits, row: Row)
    requires GroupInv(g, world, limits, NONE) && g.row.state == COMPENSATION_CONFIRMED
    requires row == g.row.(state := FAILED)
    ensures GroupInv(Written(g, row), world, limits, NONE)
  {
    HistoryFacts(g.log.history);
    ExtendHistory(g.log.history, FAILED);
    forall i | 0 <= i < |row.comp.entries|
      ensures SeenGone(g.gid, row, Written(g, row).log, world, row.comp.entries[i].action)
    {
      assert SeenGone(g.gid, g.row, g.log, world, g.row.comp.entries[i].action);
    }
  }

  // Orders -----------------------------------------------------------------------

  /** Orders other than compensation closes leave the compensation part alone, as long as
      compensation has not been confirmed. */
  lemma LegOrderSent(g: Group, world: nat -> Moment, limits: Limits, leg: nat, at: nat)
    requires GroupInv(g, world, limits, NONE) && g.row.state == VALIDATED
    requires OpenGroup in g.actions && g.log.legOrders[leg] == 0
    ensures GroupInv(g.(log := WithLegOrder(g.log, leg, at)), world, limits, NONE)
  {
    HistoryFacts(g.log.history);
  }

  lemma StopModifySent(g: Group, world: nat -> Moment, limits: Limits, i: nat, at: nat)
    requires GroupInv(g, world, limits, Slack(0, 0, 1)) && g.row.state in {BE_REQUESTED, BE_RETRY}
    requires i < |g.row.spec.applyTo| && g.log.stopModifies[i] <= g.row.be.retries + g.log.aborts
    ensures GroupInv(g.(log := WithStopModify(g.log, i, at)), world, limits, Slack(0, 0, 1))
  {
    HistoryFacts(g.log.history);
  }

  lemma CloseSent(g: Group, world: nat -> Moment, limits: Limits, slack: nat, action: Action, at: nat)
    requires GroupInv(g, world, limits, Slack(0, slack, 0)) && Compensating(g.row.state) &&
      g.row.state != COMPENSATION_CONFIRMED
    requires g.log.closes[action] < 1 + Min(g.row.comp.retries, limits.maxComp) + g.log.aborts + slack
    ensures GroupInv(g.(log := WithClose(g.log, action, at)), world, limits, Slack(0, slack, 0))
  {
    HistoryFacts(g.log.history);
  }

  lemma TpCloseSent(g: Group, world: nat -> Moment, limits: Limits, leg: nat, at: nat)
    requires GroupInv(g, world, limits, NONE) && !Compensating(g.row.state) && !IsTerminal(g.row.state)
    ensures GroupInv(g.(log := g.log.(lastOrder := at)), world, limits, NONE)
    ensures GroupInv(g.(log := WithTpFill(g.log, leg, at)), world, limits, Slack(1, 0, 0))
  {
    HistoryFacts(g.log.history);
    KeepSeen(g, world, limits, g.log.(lastOrder := at));
    KeepSeen(g, world, limits, WithTpFill(g.log, leg, at));
  }

  /** The break-even part does not depend on the order bookkeeping of the other flows. */
  lemma KeepSeen(g: Group, world: nat -> Moment, limits: Limits, log: Log)
    requires BeInv(g, world, limits, 0)
    requires log == g.log.(lastOrder := log.lastOrder, tpFills := log.tpFills, drives := log.drives)
    ensures BeInv(g.(log := log), world, limits, 0)
  {
    if BE_CONFIRMED in g.log.history {
      forall i | 0 <= i < |g.log.seen| ensures SeenProtected(g.gid, g.row, log, world, i) {
        assert SeenProtected(g.gid, g.row, g.log, world, i);
      }
    }
  }

  /** A consumed deal about to drive a transition. */
  lemma DealDrives(g: Group, world: nat -> Moment, limits: Limits, deal: nat)
    requires GroupInv(g, world, limits, NONE) && DealSeen(deal) in g.actions && g.log.drives[deal] == 0 &&
      WithinReach(world, g.gid, deal)
    requires !Compensating(g.row.state) && !IsTerminal(g.row.state)
    ensures GroupInv(g.(log := g.log.(drives := g.log.drives + multiset{deal})), world, limits, NONE)
  {
    HistoryFacts(g.log.history);
    KeepSeen(g, world, limits, g.log.(drives := g.log.drives + multiset{deal}));
  }

  lemma NoteSeen(g: Group, times: seq<nat>, world: nat -> Moment, limits: Limits, seen: seq<Sighting>, before: nat)
    requires GroupInv(g, world, limits, Slack(0, 0, 1)) && g.row.state in {BE_REQUESTED, BE_RETRY}
    requires Stamped(g.log.history, times, g.log.seenBefore, g.log.flatBefore)
    ensures Stamped(g.log.history, times, before, g.log.flatBefore)
    ensures GroupInv(g.(log := g.log.(seen := seen, seenBefore := before)), world, limits, Slack(0, 0, 1))
  {
    HistoryFacts(g.log.history);
    NotYet(g.log.history, g.row.state, BE_CONFIRMED);
    Restamped(g.log.history, times, g.log.seenBefore, g.log.flatBefore, before, g.log.flatBefore);
  }

  lemma NoteFlat(
    g: Group, times: seq<nat>, world: nat -> Moment, limits: Limits, flat: map<Action, Sighting>, before: nat)
    requires GroupInv(g, world, limits, NONE) && g.row.state in {COMPENSATION_REQUESTED, FAILED_WITH_OPEN_RISK}
    requires Stamped(g.log.history, times, g.log.seenBefore, g.log.flatBefore)
    ensures Stamped(g.log.history, times, g.log.seenBefore, before)
    ensures GroupInv(g.(log := g.log.(flat := flat, flatBefore := before)), world, limits, NONE)
  {
    HistoryFacts(g.log.history);
    NotYet(g.log.history, g.row.state, FAILED);
    Restamped(g.log.history, times, g.log.seenBefore, g.log.flatBefore, g.log.seenBefore, before);
  }

  /** A group in one of these states has not stored the state the sightings are for. */
  lemma NotYet(h: seq<GroupState>, last: GroupState, s: GroupState)
    requires IsHistory(h) && Last(h) == last && !IsTerminal(last)
    requires IsTerminal(s) || (s == BE_CONFIRMED && (last == BE_REQUESTED || last == BE_RETRY))
    ensures s !in h
  {
    HistoryFacts(h);
    if IsTerminal(s) && s in h {
      var k :| 0 <= k < |h| && h[k] == s;
      TerminalAbsorbs(h, k, |h| - 1);
    }
  }

  lemma Restamped(h: seq<GroupState>, times: seq<nat>, seen: nat, flat: nat, seen2: nat, flat2: nat)
    requires Stamped(h, times, seen, flat)
    requires seen2 != seen ==> BE_CONFIRMED !in h
    requires flat2 != flat ==> COMPENSATION_CONFIRMED !in h && FAILED !in h
    ensures Stamped(h, times, seen2, flat2)
  {
    forall c | 0 <= c < |h| ensures StoredAfter(h[c], times[c], seen2, flat2) {
      assert StoredAfter(h[c], times[c], seen, flat) && h[c] in h;
    }
  }

  lemma NoteCompMode(g: Group, world: nat -> Moment, limits: Limits, mode: AccountMode)
    requires GroupInv(g, world, limits, NONE) && g.row.state == PARTIAL_SUBMISSION
    ensures GroupInv(g.(log := g.log.(compMode := mode)), world, limits, NONE)
  {
    HistoryFacts(g.log.history);
  }
}
