/** The pure parts of the executor: what a flow computes from a row, the reconciliation helpers,
    the references of a compensation and what a completed poll can do to a stored state. */
module ProtocolSteps {
  import opened GroupStates
  import opened Wrappers
  import opened Terminal
  import opened Geometry
  import opened TradeGroupStore
  import opened MT5Driver
  import opened ProtocolInvariant

  /** `with_actual_fill`: a non-positive fill, a second different fill, or one too far from the
      reference raises (execution/trade_group.py:397-423). */
  function WithActualFill(spec: Spec, fill: real): Option<Spec> {
    if fill <= 0.0 then None
    else if spec.actualFill.Some? && Abs(spec.actualFill.value - fill) > 0.000000000001 then None
    else if spec.reference == 0.0 || Abs(fill - spec.reference) / spec.reference > 0.05 then None
    else Some(spec.(actualFill := Some(fill)))
  }

  /** The spec with a fill attached, unless it has one. */
  function FilledSpec(spec: Spec, fill: real): Option<Spec> {
    if spec.actualFill.None? then WithActualFill(spec, fill) else Some(spec)
  }

  /** The legs with leg `no` closed. */
  function CloseLegState(legs: seq<Leg>, no: nat): (closed: seq<Leg>)
    ensures SameTickets(legs, closed)
    ensures LegsNumbered(legs) ==> LegsNumbered(closed)
  {
    seq(|legs|, i requires 0 <= i < |legs| => if legs[i].no == no then legs[i].(state := LegClosed) else legs[i])
  }

  /** `_open_group` on the legs: a submitted leg becomes open, the others keep their state. */
  function OpenLegs(legs: seq<Leg>): (open: seq<Leg>)
    ensures SameTickets(legs, open)
    ensures LegsNumbered(legs) ==> LegsNumbered(open)
  {
    seq(|legs|, i requires 0 <= i < |legs| =>
      if legs[i].state == LegSubmitted then legs[i].(state := LegOpen) else legs[i])
  }

  lemma SameTicketsChain(a: seq<Leg>, b: seq<Leg>, c: seq<Leg>)
    requires SameTickets(a, b) && SameTickets(b, c) && LegsNumbered(a)
    ensures SameTickets(a, c) && SameTickets(c, c) && LegsNumbered(b) && LegsNumbered(c)
  {
  }

  /** Volume-weighted open price of the positions with a price and a volume. */
  function Weighted(positions: seq<Position>): (real, real) {
    if positions == [] then (0.0, 0.0)
    else
      var p := positions[0];
      var rest := Weighted(positions[1..]);
      if p.priceOpen <= 0.0 || p.volume <= 0.0 then rest else (rest.0 + p.priceOpen * p.volume, rest.1 + p.volume)
  }

  /** The spec with the fill of the positions attached, unless it already has one or there is none. */
  function OpenedSpec(spec: Spec, positions: seq<Position>): Option<Spec> {
    var w := Weighted(positions);
    if w.1 > 0.0 && spec.actualFill.None? then WithActualFill(spec, w.0 / w.1) else Some(spec)
  }

  predicate Reached(side: Side, price: real, level: real) {
    if side == Long then price >= level else price <= level
  }

  /** The stored row and the row loaded at the start of the poll, when a target may be closed. */
  ghost predicate Closable(row: Row, group: Row, leg: nat) {
    || (leg == 1 && row.state == OPENED && (group.state == OPENED || group.state == SUBMITTED)
        && group.be == row.be && SameTickets(row.legs, group.legs) && LegsNumbered(group.legs))
    || (leg == 2 && row.state == BE_CONFIRMED && group.state == row.state && group.legs == row.legs)
    || (leg == 3 && row.state == TP2_FILLED && SameTickets(row.legs, group.legs))
  }

  datatype BeAnswer = BeConfirmedNow | BeRetried | BeFailed
  datatype CompAnswer = CompConfirmed | CompPending | CompFailed

  function AfterCompensation(answer: CompAnswer): GroupState {
    match answer
    case CompConfirmed => FAILED
    case CompPending => COMPENSATION_REQUESTED
    case CompFailed => FAILED_WITH_OPEN_RISK
  }

  ghost predicate SameActions(a: seq<CompEntry>, b: seq<CompEntry>) {
    |a| == |b| && forall i :: 0 <= i < |a| ==> a[i].action == b[i].action
  }

  /** The stop a query found is the requested one. */
  predicate ShowsRequested(shown: Option<real>, requested: real) {
    shown.Some? && Abs(shown.value - requested) <= SL_EPS
  }

  /** The first pass of `verify_be` on one leg: what the stop query answered and, where a modify was
      due, whether the position was found. */
  datatype FirstPass = FirstPass(asked: bool, shown: Option<real>, query: Sighting, found: bool, look: Sighting)

  /** The pass sends a modify: the query does not show the requested stop, and the position is found. */
  ghost predicate SendsModify(pass: FirstPass, requested: real) {
    pass.asked && !ShowsRequested(pass.shown, requested) && pass.found
  }

  /** Both answers were true of the terminal. */
  ghost predicate Truthful(
    pass: FirstPass, world: nat -> Moment, from: nat, to: nat, gid: string, ref: Reference, requested: real) {
    pass.asked ==>
      && Queried(world, from, to, gid, ref, pass.shown, pass.query)
      && (!ShowsRequested(pass.shown, requested) ==> Looked(world, from, to, gid, ref, pass.found, pass.look))
  }

  /** `be_ref`: the position ticket on a hedging account, the leg reference on a netting account. */
  function BeRef(mode: AccountMode, legs: seq<Leg>, leg: nat): Option<Reference> {
    if mode != Hedging then Some(ByLeg(leg))
    else if LegTicket(legs, leg) == 0 then None
    else Some(ByTicket(LegTicket(legs, leg)))
  }

  /** The modifies the first passes of the legs call for, by index. */
  ghost function Sent(passes: seq<FirstPass>, requested: real): multiset<nat> {
    if passes == [] then multiset{}
    else Sent(passes[..|passes| - 1], requested) + OneSent(passes[|passes| - 1], requested, |passes| - 1)
  }

  ghost function OneSent(pass: FirstPass, requested: real, index: nat): multiset<nat> {
    if SendsModify(pass, requested) then multiset{index} else multiset{}
  }

  lemma {:induction false} SentBelow(passes: seq<FirstPass>, requested: real, i: nat)
    requires |passes| <= i
    ensures Sent(passes, requested)[i] == 0
  {
    if passes != [] {
      SentBelow(passes[..|passes| - 1], requested, i);
    }
  }

  /** Each pass asked about the position of its leg and got answers true of the terminal. */
  ghost predicate PassesHold(
    passes: seq<FirstPass>, world: nat -> Moment, from: nat, to: nat, gid: string, mode: AccountMode, row: Row) {
    |passes| <= |row.spec.applyTo| &&
      forall k :: 0 <= k < |passes| ==> PassHolds(passes[k], world, from, to, gid, mode, row, k)
  }

  ghost predicate PassHolds(
    pass: FirstPass, world: nat -> Moment, from: nat, to: nat, gid: string, mode: AccountMode, row: Row, k: nat)
    requires k < |row.spec.applyTo|
  {
    var ref := BeRef(mode, row.legs, row.spec.applyTo[k]);
    pass.asked && ref.Some? && Truthful(pass, world, from, to, gid, ref.value, row.be.requested)
  }

  /** A query that shows the requested stop protects the leg it asked about. */
  lemma ShownProtects(
    gid: string, row: Row, world: nat -> Moment, from: nat, now: nat, s: Sighting, leg: nat, sl: real)
    requires from <= s.time < now && ShowsStop(world(s.time), s.ticket, sl) && Abs(sl - row.be.requested) <= SL_EPS
    requires if s.mode == Hedging then s.ticket == LegTicket(row.legs, leg) else Carried(world, s.ticket, gid)
    ensures Protects(gid, row, world, from, now, s, leg)
  {
    hide ShowsStop, Carried;
  }

  lemma ProtectsLater(
    gid: string, row: Row, world: nat -> Moment, from: nat, before: nat, now: nat, s: Sighting, leg: nat)
    requires Protects(gid, row, world, from, before, s, leg) && before <= now
    ensures Protects(gid, row, world, from, now, s, leg)
  {
  }

  lemma NoPass(world: nat -> Moment, now: nat, gid: string, mode: AccountMode, row: Row)
    ensures PassesHold([], world, now, now, gid, mode, row)
  {
  }

  lemma PassesWiden(
    passes: seq<FirstPass>, world: nat -> Moment, from: nat, to: nat, from2: nat, to2: nat, gid: string,
    mode: AccountMode, row: Row)
    requires PassesHold(passes, world, from, to, gid, mode, row) && from2 <= from && to <= to2
    ensures PassesHold(passes, world, from2, to2, gid, mode, row)
  {
    forall k | 0 <= k < |passes| ensures PassHolds(passes[k], world, from2, to2, gid, mode, row, k) {
      PassWidens(passes[k], world, from, to, from2, to2, gid, mode, row, k);
    }
  }

  lemma PassWidens(
    pass: FirstPass, world: nat -> Moment, from: nat, to: nat, from2: nat, to2: nat, gid: string, mode: AccountMode,
    row: Row, k: nat)
    requires k < |row.spec.applyTo| && PassHolds(pass, world, from, to, gid, mode, row, k) && from2 <= from && to <= to2
    ensures PassHolds(pass, world, from2, to2, gid, mode, row, k)
  {
  }

  lemma OneMorePass(
    passes: seq<FirstPass>, pass: FirstPass, world: nat -> Moment, from: nat, asked: nat, now: nat, gid: string,
    mode: AccountMode, row: Row)
    requires PassesHold(passes, world, from, asked, gid, mode, row) && |passes| < |row.spec.applyTo| &&
      from <= asked <= now
    requires PassHolds(pass, world, asked, now, gid, mode, row, |passes|)
    ensures PassesHold(passes + [pass], world, from, now, gid, mode, row)
    ensures Sent(passes + [pass], row.be.requested) == Sent(passes, row.be.requested) +
      OneSent(pass, row.be.requested, |passes|)
  {
    var more := passes + [pass];
    assert more[..|passes|] == passes;
    PassesWiden(passes, world, from, asked, from, now, gid, mode, row);
    PassWidens(pass, world, asked, now, from, now, gid, mode, row, |passes|);
    hide SendsModify, PassHolds, Sent;
    forall k | 0 <= k < |more| ensures PassHolds(more[k], world, from, now, gid, mode, row, k) {
      assert k < |passes| ==> PassHolds(passes[k], world, from, now, gid, mode, row, k);
    }
  }

  /** The broker refused an order at one of the moments. */
  ghost predicate Refused(world: nat -> Moment, from: nat, to: nat) {
    exists t :: from <= t < to && !world(t).accepted
  }

  lemma Later(world: nat -> Moment, from: nat, mid: nat, to: nat)
    requires from <= mid
    ensures Died(world, mid, to) ==> Died(world, from, to)
    ensures Refused(world, mid, to) ==> Refused(world, from, to)
  {
  }

  /** Time passing does not change what was true. */
  lemma StillTruthful(
    pass: FirstPass, world: nat -> Moment, from: nat, asked: nat, moved: nat, now: nat, gid: string, ref: Reference,
    requested: real)
    requires pass.asked && from <= asked <= moved <= now &&
      Queried(world, from, asked, gid, ref, pass.shown, pass.query)
    ensures (ShowsRequested(pass.shown, requested) || Looked(world, asked, moved, gid, ref, pass.found, pass.look)) ==>
      Truthful(pass, world, from, now, gid, ref, requested)
  {
  }

  predicate Closing(s: GroupState) {
    Compensating(s) && !s.COMPENSATION_CONFIRMED?
  }

  /** From `a` to `b` only the bookkeeping of one compensation action moved, by at most one close. */
  ghost predicate OnlyCloses(a: Group, b: Group, action: Action) {
    && b.gid == a.gid && b.row == a.row
    && b.log == a.log.(closes := b.log.closes, lastOrder := b.log.lastOrder)
    && (b.log.closes == a.log.closes || b.log.closes == a.log.closes + multiset{action})
    && (b.actions == a.actions || b.actions == a.actions + {action})
  }

  /** `opened` legs with a position, from leg `i` on. */
  function HedgingRefs(legs: seq<Leg>, i: nat): seq<(Reference, Action)>
    requires i <= |legs|
    decreases |legs| - i
  {
    if i == |legs| then []
    else if Opened(legs[i]) && legs[i].position != 0 then
      [(ByTicket(legs[i].position), CompensateLeg(legs[i].no))] + HedgingRefs(legs, i + 1)
    else HedgingRefs(legs, i + 1)
  }

  function CompRefs(mode: AccountMode, legs: seq<Leg>): seq<(Reference, Action)> {
    if mode == Netting then [(ByLeg(1), CompensateGroup)] else HedgingRefs(legs, 0)
  }

  ghost predicate DistinctRefs(refs: seq<(Reference, Action)>) {
    && (forall i :: 0 <= i < |refs| ==> IsCompensation(refs[i].1))
    && (forall i, j :: 0 <= i < j < |refs| ==> refs[i].1 != refs[j].1)
  }

  lemma {:induction false} HedgingRefsFacts(legs: seq<Leg>, i: nat)
    requires i <= |legs| && LegsNumbered(legs)
    ensures DistinctRefs(HedgingRefs(legs, i))
    ensures forall k :: 0 <= k < |HedgingRefs(legs, i)| ==>
      HedgingRefs(legs, i)[k].1.CompensateLeg? && HedgingRefs(legs, i)[k].1.leg > i
    ensures forall k :: i <= k < |legs| && Opened(legs[k]) && legs[k].position != 0 ==>
      exists j :: 0 <= j < |HedgingRefs(legs, i)| && HedgingRefs(legs, i)[j].1 == CompensateLeg(legs[k].no)
    decreases |legs| - i
  {
    if i < |legs| {
      HedgingRefsFacts(legs, i + 1);
      var rest := HedgingRefs(legs, i + 1);
      var all := HedgingRefs(legs, i);
      forall k | i <= k < |legs| && Opened(legs[k]) && legs[k].position != 0
        ensures exists j :: 0 <= j < |all| && all[j].1 == CompensateLeg(legs[k].no)
      {
        if k == i {
          assert all[0].1 == CompensateLeg(legs[k].no);
        } else {
          var j :| 0 <= j < |rest| && rest[j].1 == CompensateLeg(legs[k].no);
          assert all[j + (|all| - |rest|)] == rest[j];
        }
      }
    }
  }

  predicate AllFilled(entries: seq<CompEntry>) {
    forall i :: 0 <= i < |entries| ==> entries[i].filled
  }

  /** A close was refused and the retries are used up: `verify_compensation` only stores the state again. */
  predicate OutOfRetries(comp: Comp, most: nat) {
    !AllFilled(comp.entries) && comp.retries >= most
  }

  /** The driver of this account mode can look the entry up. */
  predicate Addressable(mode: AccountMode, action: Action) {
    action.CompensateLeg? || (action.CompensateGroup? && mode == Netting)
  }

  predicate AllAddressable(mode: AccountMode, entries: seq<CompEntry>) {
    forall i :: 0 <= i < |entries| ==> Addressable(mode, entries[i].action)
  }

  predicate FilledTo(entries: seq<CompEntry>, n: nat) {
    forall i :: 0 <= i < n && i < |entries| ==> entries[i].filled
  }

  /** While nothing goes wrong and no position is left, the first n entries are filled. */
  ghost predicate CalmFills(
    world: nat -> Moment, from: nat, now: nat, mode: AccountMode, stored: seq<CompEntry>, entries: seq<CompEntry>,
      n: nat)
  {
    AllAddressable(mode, stored) && Calm(world, from, now) ==> FilledTo(entries, n)
  }

  lemma OneMoreFilled(
    world: nat -> Moment, start: nat, from: nat, now: nat, mode: AccountMode, stored: seq<CompEntry>,
    entries: seq<CompEntry>, i: nat, done: bool)
    requires start <= from <= now && i < |entries| == |stored| && entries[i].action == stored[i].action
    requires CalmFills(world, start, from, mode, stored, entries, i)
    requires Addressable(mode, entries[i].action) && Calm(world, from, now) ==> done
    ensures CalmFills(world, start, now, mode, stored, entries[i := CompEntry(entries[i].action, done)], i + 1)
    ensures AllAddressable(mode, stored) && Calm(world, start, now) ==> done
  {
    CalmWithin(world, start, from, now, now);
    CalmWithin(world, start, start, from, now);
  }

  /** From `a` to `b` the first i entries were gone through; `entries` is what became of them. */
  ghost predicate RetriedTo(a: Group, b: Group, entries: seq<CompEntry>, i: nat) {
    && b.gid == a.gid && b.row == a.row && b.log == a.log.(closes := b.log.closes, lastOrder := b.log.lastOrder)
    && FilledRecorded(entries, b.actions) && SameActions(a.row.comp.entries, entries) && DistinctEntries(entries)
    && (forall j :: i <= j < |entries| ==> b.log.closes[entries[j].action] == a.log.closes[entries[j].action])
  }

  lemma NothingRetried(a: Group)
    requires FilledRecorded(a.row.comp.entries, a.actions) && DistinctEntries(a.row.comp.entries)
    ensures RetriedTo(a, a, a.row.comp.entries, 0)
  {
  }

  lemma RetriedFacts(a: Group, b: Group, entries: seq<CompEntry>, i: nat)
    requires RetriedTo(a, b, entries, i) && i < |entries|
    ensures b.row == a.row && b.log.aborts == a.log.aborts && (entries[i].filled ==> entries[i].action in b.actions)
    ensures b.log.closes[entries[i].action] == a.log.closes[entries[i].action] &&
      entries[i].action == a.row.comp.entries[i].action
  {
  }

  lemma OneMoreRetried(a: Group, b: Group, c: Group, entries: seq<CompEntry>, i: nat, done: bool)
    requires RetriedTo(a, b, entries, i) && i < |entries| && OnlyCloses(b, c, entries[i].action)
    requires done ==> entries[i].action in c.actions
    ensures RetriedTo(a, c, entries[i := CompEntry(entries[i].action, done)], i + 1)
  {
  }

  lemma RetriedAll(a: Group, b: Group, entries: seq<CompEntry>, i: nat)
    requires RetriedTo(a, b, entries, i)
    ensures b.row == a.row && b.log == a.log.(closes := b.log.closes, lastOrder := b.log.lastOrder)
    ensures FilledRecorded(entries, b.actions) && SameActions(a.row.comp.entries, entries)
  {
  }

  lemma RefsAreDistinct(mode: AccountMode, legs: seq<Leg>)
    requires LegsNumbered(legs)
    ensures DistinctRefs(CompRefs(mode, legs))
  {
    HedgingRefsFacts(legs, 0);
  }

  lemma RefsCover(row: Row, mode: AccountMode, refs: seq<(Reference, Action)>)
    requires LegsNumbered(row.legs) && refs == CompRefs(mode, row.legs)
    requires forall j :: 0 <= j < |refs| ==> HasEntry(row.comp.entries, refs[j].1)
    ensures Covers(row, mode)
  {
    if mode == Netting {
      assert refs[0].1 == CompensateGroup;
    } else {
      HedgingRefsFacts(row.legs, 0);
    }
  }

  ghost predicate Named(action: Action, refs: seq<(Reference, Action)>, n: nat) {
    exists j :: 0 <= j < n && j < |refs| && refs[j].1 == action
  }

  /** Every entry comes from one of the first `n` references. */
  ghost predicate FromRefs(entries: seq<CompEntry>, refs: seq<(Reference, Action)>, n: nat) {
    forall k :: 0 <= k < |entries| ==> Named(entries[k].action, refs, n)
  }

  lemma FromMoreRefs(entries: seq<CompEntry>, refs: seq<(Reference, Action)>, i: nat)
    requires FromRefs(entries, refs, i)
    ensures FromRefs(entries, refs, i + 1)
  {
    forall k | 0 <= k < |entries| ensures Named(entries[k].action, refs, i + 1) {
      assert Named(entries[k].action, refs, i);
      var j :| 0 <= j < i && j < |refs| && refs[j].1 == entries[k].action;
      assert refs[j].1 == entries[k].action && j < i + 1;
    }
  }

  /** What became of the first i references: an entry each, unless the action was recorded at the start. */
  ghost predicate RoundSoFar(
    entries: seq<CompEntry>, refs: seq<(Reference, Action)>, i: nat, actions: set<Action>, start: set<Action>)
  {
    && FromRefs(entries, refs, i) && DistinctEntries(entries) && FilledRecorded(entries, actions)
    && forall j :: 0 <= j < i && j < |refs| ==> HasEntry(entries, refs[j].1) || refs[j].1 in start
  }

  lemma NothingSoFar(refs: seq<(Reference, Action)>, actions: set<Action>)
    ensures RoundSoFar([], refs, 0, actions, actions)
  {
  }

  lemma RoundDone(
    entries: seq<CompEntry>, refs: seq<(Reference, Action)>, actions: set<Action>, start: set<Action>)
    requires RoundSoFar(entries, refs, |refs|, actions, start)
    ensures DistinctEntries(entries) && FilledRecorded(entries, actions)
    ensures forall j :: 0 <= j < |refs| ==> HasEntry(entries, refs[j].1) || refs[j].1 in start
  {
  }

  lemma SkippedSoFar(
    entries: seq<CompEntry>, refs: seq<(Reference, Action)>, i: nat, actions: set<Action>, start: set<Action>)
    requires RoundSoFar(entries, refs, i, actions, start) && i < |refs| && refs[i].1 in start
    ensures RoundSoFar(entries, refs, i + 1, actions, start)
  {
    FromMoreRefs(entries, refs, i);
    hide FromRefs, DistinctEntries, FilledRecorded, HasEntry;
  }

  lemma AddedSoFar(
    entries: seq<CompEntry>, refs: seq<(Reference, Action)>, i: nat, before: set<Action>, after: set<Action>,
    start: set<Action>, e: CompEntry)
    requires RoundSoFar(entries, refs, i, before, start) && i < |refs| && DistinctRefs(refs) && before <= after
    requires e.action == refs[i].1 && (e.filled ==> e.action in after)
    ensures RoundSoFar(entries + [e], refs, i + 1, after, start)
  {
    AppendFacts(entries, refs, i, e);
    hide FromRefs, DistinctEntries, HasEntry, DistinctRefs;
  }

  lemma AppendFacts(entries: seq<CompEntry>, refs: seq<(Reference, Action)>, i: nat, e: CompEntry)
    requires i < |refs| && e.action == refs[i].1
    requires FromRefs(entries, refs, i) && DistinctEntries(entries) && DistinctRefs(refs)
    ensures FromRefs(entries + [e], refs, i + 1) && DistinctEntries(entries + [e])
    ensures HasEntry(entries + [e], refs[i].1) && forall a :: HasEntry(entries, a) ==> HasEntry(entries + [e], a)
  {
    var more := entries + [e];
    assert more[|entries|] == e;
    FromMoreRefs(entries, refs, i);
    assert Named(e.action, refs, i + 1);
    forall k | 0 <= k < |entries| ensures entries[k].action != e.action {
      assert Named(entries[k].action, refs, i);
    }
    forall a | HasEntry(entries, a) ensures HasEntry(more, a) {
      var k :| 0 <= k < |entries| && entries[k].action == a;
      assert more[k].action == a;
    }
  }

  ghost predicate ShownFlat(
    gid: string, row: Row, world: nat -> Moment, action: Action, flat: map<Action, Sighting>, from: nat, before: nat) {
    action in flat && ShownGone(gid, row.legs, world, action, flat[action], from, before)
  }

  lemma SeenGoneStays(g: Group, world: nat -> Moment, row: Row)
    requires row == g.row.(state := row.state, volume := row.volume)
    requires forall i :: 0 <= i < |g.row.comp.entries| ==>
      SeenGone(g.gid, g.row, g.log, world, g.row.comp.entries[i].action)
    ensures forall i :: 0 <= i < |row.comp.entries| ==> SeenGone(g.gid, row, g.log, world, row.comp.entries[i].action)
  {
    forall i | 0 <= i < |row.comp.entries| ensures SeenGone(g.gid, row, g.log, world, row.comp.entries[i].action) {
      assert SeenGone(g.gid, g.row, g.log, world, g.row.comp.entries[i].action);
    }
  }

  // ---------------------------------------------------------------------------
  // Reconciliation helpers (execution/reconciliation.py)
  // ---------------------------------------------------------------------------

  datatype CloseKind = AtTp1 | AtTp2 | AtTp3 | AtStop

  /** `classify_broker_close`: the first level within the tolerance, otherwise the nearest one. */
  function ClassifyBrokerClose(spec: Spec, price: real, tolerance: real): CloseKind {
    var d1, d2, d3, d4 := Abs(price - spec.tp1), Abs(price - spec.tp2), Abs(price - spec.tp3), Abs(price - spec.sl);
    if d1 <= tolerance then AtTp1 else if d2 <= tolerance then AtTp2
    else if d3 <= tolerance then AtTp3 else if d4 <= tolerance then AtStop
    else if d1 <= d2 && d1 <= d3 && d1 <= d4 then AtTp1
    else if d2 <= d3 && d2 <= d4 then AtTp2
    else if d3 <= d4 then AtTp3 else AtStop
  }

  /** Signed distance along the trade. */
  function Gain(side: Side, price: real): real {
    if side == Long then price else -price
  }

  /** Levels in the order stop, TP1, TP2, TP3 along the trade. */
  ghost predicate LevelsOrdered(spec: Spec) {
    Gain(spec.side, spec.sl) < Gain(spec.side, spec.tp1) < Gain(spec.side, spec.tp2) < Gain(spec.side, spec.tp3)
  }

  /** Without a tolerance a close is told by the midpoints between the levels, for either side. */
  lemma ClassifiedByMidpoints(spec: Spec, price: real, tolerance: real)
    requires LevelsOrdered(spec) && tolerance <= 0.0
    ensures var p := 2.0 * Gain(spec.side, price);
      var stop1 := Gain(spec.side, spec.sl) + Gain(spec.side, spec.tp1);
      var one2 := Gain(spec.side, spec.tp1) + Gain(spec.side, spec.tp2);
      var two3 := Gain(spec.side, spec.tp2) + Gain(spec.side, spec.tp3);
      match ClassifyBrokerClose(spec, price, tolerance)
      case AtStop => p < stop1
      case AtTp1 => stop1 <= p <= one2
      case AtTp2 => one2 < p <= two3
      case AtTp3 => two3 < p
  {
  }

  /** So a close at a moved stop, break-even included, counts as a stop only below the midpoint of the
      original stop and TP1. Anything from there to TP1 counts as TP1, which a group past TP1 does not
      act on. */
  lemma MovedStopIsAStopIff(spec: Spec, price: real, state: GroupState)
    requires LevelsOrdered(spec) && Gain(spec.side, price) <= Gain(spec.side, spec.tp1) &&
      (state.BE_CONFIRMED? || state.TP2_FILLED?)
    ensures var kind := ClassifyBrokerClose(spec, price, 0.0);
      && (kind.AtStop? <==> 2.0 * Gain(spec.side, price) < Gain(spec.side, spec.sl) + Gain(spec.side, spec.tp1))
      && (!kind.AtStop? ==> kind.AtTp1? && !Expected(kind, state))
  {
    ClassifiedByMidpoints(spec, price, 0.0);
    hide ClassifyBrokerClose;
  }

  /** The usual grid: stop three steps away, TP1 one step away, closed at the entry. */
  lemma BreakEvenFillCountsAsTp1(spec: Spec, entry: real, step: real)
    requires LevelsOrdered(spec) && step > 0.0
    requires Gain(spec.side, spec.sl) == Gain(spec.side, entry) - 3.0 * step &&
      Gain(spec.side, spec.tp1) == Gain(spec.side, entry) + step
    ensures ClassifyBrokerClose(spec, entry, 0.0).AtTp1?
  {
    MovedStopIsAStopIff(spec, entry, BE_CONFIRMED);
  }

  /** TP1 is taken from SUBMITTED or OPENED, TP2 from BE_CONFIRMED, TP3 from TP2_FILLED. */
  predicate Expected(kind: CloseKind, state: GroupState) {
    match kind
    case AtTp1 => state.SUBMITTED? || state.OPENED?
    case AtTp2 => state.BE_CONFIRMED?
    case AtTp3 => state.TP2_FILLED?
    case AtStop => false
  }

  /** Where a deal of the given kind takes a group; a target out of turn leaves it where it is. */
  function DealOutcome(kind: CloseKind, state: GroupState): GroupState {
    if kind.AtStop? then STOPPED else if !Expected(kind, state) then state
    else if kind.AtTp1? then TP1_FILLED else if kind.AtTp2? then TP2_FILLED else RECONCILED
  }

  function KnownTicket(legs: seq<Leg>, ticket: nat): bool {
    legs != [] && (legs[0].position == ticket || KnownTicket(legs[1..], ticket))
  }

  function GroupPositions(positions: seq<Position>, legs: seq<Leg>, gid: string): seq<Position> {
    if positions == [] then []
    else
      var rest := GroupPositions(positions[1..], legs, gid);
      var p := positions[0];
      if p.ours && (KnownTicket(legs, p.ticket) || Contains(p.comment, gid)) then [p] + rest else rest
  }

  function Insert(tickets: seq<nat>, ticket: nat): seq<nat> {
    if tickets == [] || ticket < tickets[0] then [ticket] + tickets
    else if ticket == tickets[0] then tickets
    else [tickets[0]] + Insert(tickets[1..], ticket)
  }

  /** The recorded and the live tickets of the group, ascending. */
  function Tickets(legs: seq<Leg>, positions: seq<Position>): seq<nat> {
    if legs != [] then
      var rest := Tickets(legs[1..], positions);
      if legs[0].position == 0 then rest else Insert(rest, legs[0].position)
    else if positions == [] then []
    else Insert(Tickets(legs, positions[1..]), positions[0].ticket)
  }

  function OutDeals(deals: seq<Deal>): (out: seq<Deal>)
    ensures forall d :: d in out <==> d.isOut && d in deals
  {
    if deals == [] then []
    else if deals[0].isOut then [deals[0]] + OutDeals(deals[1..]) else OutDeals(deals[1..])
  }

  /** The group's tickets are of positions that mention it. */
  lemma {:induction false} TicketsMentioned(
    legs: seq<Leg>, positions: seq<Position>, world: nat -> Moment, t: nat, gid: string)
    requires LegsMentioned(legs, world, gid) && forall p :: p in positions ==> Mentioned(world, p.ticket, gid)
    ensures forall ticket :: ticket in Tickets(legs, positions) ==> Mentioned(world, ticket, gid)
    decreases |legs|, |positions|
  {
    hide Mentioned;
    if legs != [] {
      TicketsMentioned(legs[1..], positions, world, t, gid);
      if legs[0].position != 0 { InsertHas(Tickets(legs[1..], positions), legs[0].position); }
    } else if positions != [] {
      TicketsMentioned(legs, positions[1..], world, t, gid);
      InsertHas(Tickets(legs, positions[1..]), positions[0].ticket);
    }
  }

  lemma {:induction false} InsertHas(tickets: seq<nat>, ticket: nat)
    ensures forall x :: x in Insert(tickets, ticket) <==> x in tickets || x == ticket
  {
    if tickets != [] && ticket > tickets[0] {
      InsertHas(tickets[1..], ticket);
      assert tickets == [tickets[0]] + tickets[1..];
    }
  }

  lemma {:induction false} GroupPositionsMentioned(
    positions: seq<Position>, legs: seq<Leg>, world: nat -> Moment, t: nat, gid: string)
    requires LegsMentioned(legs, world, gid) && forall p :: p in positions ==> p in world(t).positions
    ensures forall p :: p in GroupPositions(positions, legs, gid) ==> Mentioned(world, p.ticket, gid)
  {
    hide Mentioned, Contains;
    if positions != [] {
      GroupPositionsMentioned(positions[1..], legs, world, t, gid);
      var p := positions[0];
      if p.ours && KnownTicket(legs, p.ticket) {
        KnownIsMentioned(legs, p.ticket, world, gid);
      }
      if p.ours && Contains(p.comment, gid) {
        SeenIsMentioned(world, t, p, gid);
      }
    }
  }

  lemma {:induction false} KnownIsMentioned(legs: seq<Leg>, ticket: nat, world: nat -> Moment, gid: string)
    requires LegsMentioned(legs, world, gid) && KnownTicket(legs, ticket) && ticket != 0
    ensures Mentioned(world, ticket, gid)
  {
    hide Mentioned;
    if legs[0].position != ticket {
      KnownIsMentioned(legs[1..], ticket, world, gid);
    }
  }

  /** Every deal an inspection returns is within reach of the group. */
  lemma InspectedIsReached(out: seq<Deal>, world: nat -> Moment, from: nat, tickets: seq<nat>, gid: string)
    requires OutDealsOf(out, world, from, tickets, |tickets|) &&
      forall ticket :: ticket in tickets ==> Mentioned(world, ticket, gid)
    ensures forall d :: d in out ==> WithinReach(world, gid, d.ticket)
  {
    hide Mentioned, Contains;
    forall d | d in out ensures WithinReach(world, gid, d.ticket) {
      var i :| 0 <= i < |tickets| && d in OutDeals(DealsOf(world(from + i), tickets[i]));
      assert ShownOut(world, tickets[i], d.ticket) && tickets[i] in tickets;
    }
  }

  /** All OUT deals of a position, as shown at one moment, are recorded. */
  ghost predicate Consumed(m: Moment, ticket: nat, actions: set<Action>) {
    forall d :: d in DealsOf(m, ticket) && d.isOut ==> DealSeen(d.ticket) in actions
  }

  ghost predicate ConsumedWithin(world: nat -> Moment, from: nat, to: nat, ticket: nat, actions: set<Action>) {
    exists t :: from <= t < to && Consumed(world(t), ticket, actions)
  }

  /** So it is for the recorded tickets of the first n legs. */
  ghost predicate LegsConsumed(world: nat -> Moment, from: nat, to: nat, legs: seq<Leg>, n: nat, actions: set<Action>) {
    forall i :: 0 <= i < n && i < |legs| && legs[i].position != 0 ==>
      ConsumedWithin(world, from, to, legs[i].position, actions)
  }

  lemma OneMoreConsumed(
    world: nat -> Moment, from: nat, t: nat, to: nat, legs: seq<Leg>, n: nat, before: set<Action>, after: set<Action>)
    requires from <= t <= to && n < |legs| && LegsConsumed(world, from, t, legs, n, before) && before <= after
    requires legs[n].position != 0 ==> t < to && Consumed(world(t), legs[n].position, after)
    ensures LegsConsumed(world, from, to, legs, n + 1, after)
  {
    forall i | 0 <= i < n && legs[i].position != 0 ensures ConsumedWithin(world, from, to, legs[i].position, after) {
      ConsumedStays(world, from, from, t, to, legs[i].position, before, after);
    }
  }

  lemma LegsConsumedSince(world: nat -> Moment, from: nat, start: nat, to: nat, legs: seq<Leg>, actions: set<Action>)
    requires LegsConsumed(world, from, to, legs, |legs|, actions) && start <= from
    ensures LegsConsumed(world, start, to, legs, |legs|, actions)
  {
    forall i | 0 <= i < |legs| && legs[i].position != 0
      ensures ConsumedWithin(world, start, to, legs[i].position, actions)
    {
      ConsumedStays(world, from, start, to, to, legs[i].position, actions, actions);
    }
  }

  lemma ConsumedStays(
    world: nat -> Moment, from: nat, start: nat, to: nat, end: nat, ticket: nat, before: set<Action>,
    after: set<Action>)
    requires ConsumedWithin(world, from, to, ticket, before) && start <= from && to <= end && before <= after
    ensures ConsumedWithin(world, start, end, ticket, after)
  {
    var t :| from <= t < to && Consumed(world(t), ticket, before);
    assert Consumed(world(t), ticket, after);
  }

  /** `out` holds the OUT deals of the first n tickets, each asked for at its own moment. */
  ghost predicate OutDealsOf(out: seq<Deal>, world: nat -> Moment, from: nat, tickets: seq<nat>, n: nat)
    requires n <= |tickets|
  {
    forall d :: d in out <==> exists i :: 0 <= i < n && d in OutDeals(DealsOf(world(from + i), tickets[i]))
  }

  lemma NoTicketYet(world: nat -> Moment, from: nat, tickets: seq<nat>)
    ensures OutDealsOf([], world, from, tickets, 0)
  {
  }

  lemma OneMoreTicket(out: seq<Deal>, world: nat -> Moment, from: nat, tickets: seq<nat>, n: nat)
    requires n < |tickets| && OutDealsOf(out, world, from, tickets, n)
    ensures OutDealsOf(out + OutDeals(DealsOf(world(from + n), tickets[n])), world, from, tickets, n + 1)
  {
  }

  /** The newest deal that is not recorded yet; the first one of several. */
  function NewestUnconsumed(deals: seq<Deal>, actions: set<Action>): (newest: Option<Deal>)
    ensures newest.None? ==> forall d :: d in deals ==> DealSeen(d.ticket) in actions
    ensures newest.Some? ==> newest.value in deals && DealSeen(newest.value.ticket) !in actions
    ensures newest.Some? ==> forall d :: d in deals && DealSeen(d.ticket) !in actions ==> d.time <= newest.value.time
  {
    if deals == [] then None
    else
      var rest := NewestUnconsumed(deals[1..], actions);
      var d := deals[0];
      if DealSeen(d.ticket) in actions then rest
      else if rest.None? || d.time >= rest.value.time then Some(d) else rest
  }

  /** How the stored row can differ from the row loaded at the start of the poll once the deals
      are handled. */
  ghost predicate AfterDeal(group: Row, row: Row) {
    && LegsNumbered(group.legs)
    && (|| row == group
        || ((group.state == SUBMITTED || group.state == OPENED) && row.state == TP1_FILLED)
        || (group.state == BE_CONFIRMED && row.state == TP2_FILLED && SameTickets(row.legs, group.legs))
        || (group.state == TP2_FILLED && row.state == RECONCILED))
  }

  lemma AfterDealCases(group: Row, row: Row)
    requires AfterDeal(group, row)
    ensures row.state == SUBMITTED || row.state == OPENED || Compensating(row.state) ==> row == group
    ensures row == group ==> SameTickets(row.legs, group.legs)
    ensures LegsNumbered(group.legs)
    ensures Compensating(group.state) ==> row == group
  {
  }

  /** The same once a submitted group has been opened as well. */
  ghost predicate InPoll(row: Row, group: Row) {
    && (row.state == OPENED ==> Closable(row, group, 1))
    && (row.state == BE_CONFIRMED ==> Closable(row, group, 2))
    && (row.state == TP2_FILLED ==> Closable(row, group, 3))
  }

  lemma OpenedInPoll(row: Row, group: Row, current: Row)
    requires LegsNumbered(current.legs) && current == group.(legs := current.legs)
    requires row.state == OPENED ==> SameTickets(row.legs, current.legs)
    requires (AfterDeal(group, row) && current == group)
          || (group.state == SUBMITTED && (row.state == OPENED || row.state == SUBMITTED) && row.be == group.be)
    ensures InPoll(row, current)
  {
  }

  // ---------------------------------------------------------------------------
  // Runs
  // ---------------------------------------------------------------------------

  datatype Command = Create(gid: string, spec: Spec) | Submit(gid: string) | Poll | Restart

  /** A row created over an earlier one: the ledgers of volume and compensation are kept. */
  function Recreated(spec: Spec, row: Row): Row {
    Row(spec, VALIDATED, [], NO_BE, row.comp, row.volume, false)
  }

  ghost function Again(g: Group, spec: Spec): Group {
    g.(row := Recreated(spec, g.row), log := Renewed(g.log, OpenGroup in g.actions))
  }

  lemma RecreatedIsReady(g: Group, spec: Spec, world: nat -> Moment, limits: Limits)
    requires GroupInv(g, world, limits, NONE)
    ensures GroupInv(Again(g, spec), world, limits, NONE)
  {
    RecreatedComp(g, spec, world, limits);
    RecreatedBe(g, spec, world, limits);
    hide CompInv, BeInv, Mentioned, WithinReach;
  }

  lemma RecreatedComp(g: Group, spec: Spec, world: nat -> Moment, limits: Limits)
    requires PathInv(g.row, g.log) && SubmitInv(g.actions, g.log) && CompInv(g, world, limits, 0)
    ensures CompInv(Again(g, spec), world, limits, 0)
  {
    if PARTIAL_SUBMISSION in g.log.history {
      var j :| 0 <= j < |g.log.history| && g.log.history[j] == PARTIAL_SUBMISSION;
      var i := MustPass(g.log.history, {PARTIAL_SUBMISSION}, SUBMITTED, j);
    }
    hide IsHistory, Covers, SeenGone, DistinctEntries, FilledRecorded;
  }

  lemma RecreatedBe(g: Group, spec: Spec, world: nat -> Moment, limits: Limits)
    requires BeInv(g, world, limits, 0)
    ensures BeInv(Again(g, spec), world, limits, 0)
  {
  }

  lemma NewGroupIsReady(gid: string, spec: Spec, world: nat -> Moment, limits: Limits)
    ensures GroupInv(Group(gid, Row(spec, VALIDATED, [], NO_BE, NO_COMP, Volume(0.0, 0.0), false), {}, NEW_LOG), world,
      limits, NONE)
  {
  }

  // ---------------------------------------------------------------------------
  // What one completed poll can do
  // ---------------------------------------------------------------------------

  predicate NettingOutcome(a: GroupState, b: GroupState) {
    a == b || (a.OPENED? && b.TP1_FILLED?) || (a.BE_CONFIRMED? && b.TP2_FILLED?) || (a.TP2_FILLED? && b.RECONCILED?)
  }

  predicate BeOutcome(a: GroupState, b: GroupState) {
    if a.TP1_FILLED? || a.BE_REQUESTED? || a.BE_RETRY? then b.BE_CONFIRMED? || b.BE_RETRY? || b.FAILED? else a == b
  }

  /** Before the break-even part of a poll. */
  predicate BeforeBe(a: GroupState, b: GroupState) {
    || (a == b && !a.PARTIAL_SUBMISSION? && !a.COMPENSATION_REQUESTED? && !a.FAILED_WITH_OPEN_RISK?)
    || (a.SUBMITTED? && (b.OPENED? || b.TP1_FILLED?))
    || (NettingOutcome(a, b) && a != b)
  }

  /** A poll that ends before the break-even part. */
  predicate Ended(a: GroupState, b: GroupState) {
    || (b.STOPPED? && ValidTransition(a, b))
    || (a.SUBMITTED? && (b.COMPENSATION_REQUESTED? || b.FAILED_WITH_OPEN_RISK?))
    || ((a.COMPENSATION_REQUESTED? || a.FAILED_WITH_OPEN_RISK?) &&
      (b.COMPENSATION_REQUESTED? || b.FAILED_WITH_OPEN_RISK? || b.FAILED?))
  }

  /** A completed poll leaves no group in TP1_FILLED or BE_REQUESTED: once a first target is filled,
      the same poll asks for break-even and settles the request one way or the other. A partial
      open is being compensated when its poll completes. */
  predicate PollOutcome(a: GroupState, b: GroupState) {
    || Ended(a, b)
    || ((b.BE_CONFIRMED? || b.BE_RETRY? || b.FAILED?) &&
      (a.SUBMITTED? || a.OPENED? || a.TP1_FILLED? || a.BE_REQUESTED? || a.BE_RETRY?))
    || (a == b && !Compensating(a) && !a.TP1_FILLED? && !a.BE_REQUESTED?)
    || (a == b && a.COMPENSATION_CONFIRMED?)
    || (a.SUBMITTED? && b.OPENED?)
    || (a.BE_CONFIRMED? && b.TP2_FILLED?)
    || (a.TP2_FILLED? && b.RECONCILED?)
  }

  /** States a process that died between two writes leaves a group in, and no poll takes it out of. */
  predicate Resting(s: GroupState) {
    s.COMPENSATION_CONFIRMED? || s.TP3_FILLED?
  }

  /** Unchanged, or stopped after all the targets were filled. */
  ghost predicate Rested(before: Row, after: Row) {
    after == before || (before.state.TP3_FILLED? && after == before.(state := STOPPED))
  }

  lemma PollOutcomes(a: GroupState, m: GroupState, b: GroupState)
    requires BeforeBe(a, m) && BeOutcome(m, b) && !IsTerminal(a)
    ensures PollOutcome(a, b)
    ensures !b.TP1_FILLED? && !b.BE_REQUESTED?
  {
  }
}
