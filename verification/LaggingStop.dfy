/** A broker whose position query lags: the stop modify of `verify_be` (execution/mt5_be_flow.py:75-139)
    is accepted and recorded, and the next poll sends it again. */
module LaggingStop {
  import opened GroupStates
  import opened Wrappers
  import opened Terminal
  import opened Geometry
  import opened TradeGroupStore
  import opened MT5Driver
  import opened ProtocolInvariant
  import opened ProtocolSteps
  import opened MT5Executor

  const TICKET: Ticket := 7
  const LIMITS := Limits(3, 3, Cost(true, 0.0, 0.0, 0.0, 0.0))

  /** A position as it was opened. */
  function Original(ticket: Ticket, volume: real): Position {
    Position(ticket, volume, 100.0, 90.0, true, "TG:G")
  }

  /** The terminal at every moment: alive, accepting, and still showing the original stop of 90. The
      position of leg 1 is there at the first moment only; deal 9 took it out at TP1. */
  function Lagging(t: nat): Moment {
    Moment(true, Hedging, true, 1000.0, 0, true,
           [Original(TICKET, 0.25), Original(8, 0.5)] + (if t == 0 then [Original(6, 0.25)] else []),
           map[6 := [Deal(9, true, 110.0, 0)]],
           Some(Quote(110.0, 110.0, 1.0, 0.0, 0.25, 0.25)), true, 1.0, 100.0)
  }

  /** A long filled at 100, with stop 90 and targets 110, 120 and 130. */
  const SPEC := Spec(Demo, Long, 100.0, Some(100.0), 110.0, 120.0, 130.0, 90.0,
                     [2], 0.25, 0.25, 0.5, 1.0, 1, 10.0, 100.0, 0.5, true)

  /** Leg 1 has closed at TP1; leg 2 has been asked for a break-even stop at 100. */
  const ROW := Row(SPEC, BE_REQUESTED,
                   [Leg(1, LegClosed, 6, 0.25), Leg(2, LegOpen, TICKET, 0.25), Leg(3, LegOpen, 8, 0.5)],
                   Be(100.0, 0), NO_COMP, Volume(1.0, 0.0), true)
  const ACTIONS: set<Action> := {OpenGroup, DealSeen(9)}
  ghost const LOG := NEW_LOG.(history := [VALIDATED, SUBMITTED, OPENED, TP1_FILLED, BE_REQUESTED],
                              legOrders := multiset{1, 2, 3}, drives := multiset{9}, askedAt := 1)
  ghost const ASKED := Group("G", ROW, ACTIONS, LOG)

  lemma SpecIsAccepted()
    ensures AcceptedSpec(SPEC)
  {
  }

  lemma AskedGroupIsReady()
    ensures GroupInv(ASKED, Lagging, LIMITS, NONE) && Timed(LOG, [0, 0, 0, 0, 0], 1)
  {
    hide PathInv, BeInv, Lagging, LegsMentioned, WithinReach, Mentioned;
    AskedPath();
    AskedBreakEven();
    AskedTickets();
    AskedCompensation();
    hide CompInv;
  }

  lemma AskedCompensation()
    ensures CompInv(ASKED, Lagging, LIMITS, 0)
  {
    hide Lagging;
  }

  /** Every leg was seen under its group, and deal 9 is of leg 1. */
  lemma AskedTickets()
    ensures LegsMentioned(ROW.legs, Lagging, "G") && WithinReach(Lagging, "G", 9)
  {
    OpenedIsMentioned(TICKET, 0.25, 0);
    OpenedIsMentioned(8, 0.5, 1);
    OpenedIsMentioned(6, 0.25, 2);
    assert DealsOf(Lagging(0), 6)[0] == Deal(9, true, 110.0, 0);
    assert ShownOut(Lagging, 6, 9);
    hide Mentioned, ShownOut, Lagging;
  }

  lemma OpenedIsMentioned(ticket: Ticket, volume: real, i: nat)
    requires i < |Lagging(0).positions| && Lagging(0).positions[i] == Original(ticket, volume)
    ensures Mentioned(Lagging, ticket, "G")
  {
    var p := Lagging(0).positions[i];
    assert p.comment == "TG:" + "G" + "";
    hide Lagging;
    ContainsPart("TG:", "G", "");
    SeenIsMentioned(Lagging, 0, p, "G");
  }

  lemma AskedPath()
    ensures PathInv(ROW, LOG)
  {
    assert Step(VALIDATED, SUBMITTED) && Step(SUBMITTED, OPENED) && Step(OPENED, TP1_FILLED) &&
      Step(TP1_FILLED, BE_REQUESTED);
  }

  lemma AskedBreakEven()
    ensures BeInv(ASKED, Lagging, LIMITS, 0)
  {
    AskedPrice();
    hide PricedProperly, SeenProtected, Lagging;
  }

  lemma AskedPrice()
    ensures PricedProperly(ROW, LOG, Lagging, LIMITS.cost)
  {
    BreakEvenAtFill(LIMITS.cost);
    hide ComputeBreakEven;
  }

  /** Without costs, a fill on a grid of one is its own break-even. */
  lemma BreakEvenAtFill(cost: Cost)
    requires cost.exitSlippage == 0.0 && cost.commission == 0.0
    ensures ComputeBreakEven(Long, 100.0, cost, 0.0, 1.0) == Accepted(100.0)
  {
    assert ProtectedPrice(Long, 100.0, Protection(cost, 0.0)) == 100.0;
    hide ProtectedPrice, Protection;
    assert Ceil(100.0 / 1.0) == 100;
    hide Ceil;
    assert GridPrice(100, 1.0) == 100.0;
    hide GridPrice;
  }

  /** In this world every first pass sends a modify. */
  lemma PassSends(pass: FirstPass, from: nat, to: nat, row: Row)
    requires row.spec == SPEC && row.legs == ROW.legs && row.be.requested == 100.0
    requires PassHolds(pass, Lagging, from, to, "G", Hedging, row, 0)
    ensures SendsModify(pass, 100.0)
  {
    var p := Lagging(pass.look.time).positions[0];
    assert p in Lagging(pass.look.time).positions && p in Lagging(pass.query.time).positions;
    assert ShowsStop(Lagging(pass.query.time), TICKET, 90.0);
  }

  lemma RoundSends(passes: seq<FirstPass>, from: nat, to: nat, row: Row)
    requires row.spec == SPEC && row.legs == ROW.legs && row.be.requested == 100.0
    requires PassesHold(passes, Lagging, from, to, "G", Hedging, row) && passes != []
    ensures Sent(passes, 100.0) == multiset{0}
  {
    assert |passes| == 1 && passes[..0] == [];
    assert PassHolds(passes[0], Lagging, from, to, "G", Hedging, row, 0);
    PassSends(passes[0], from, to, row);
  }

  lemma NeverDies(from: nat, to: nat)
    ensures !Died(Lagging, from, to) && Lagging(from).mode == Hedging
  {
  }

  /** Two polls, two modifies, although the first one was accepted. */
  method LaggingQueryModifiesTwice() returns (rec: GroupRecord)
    ensures rec.log.stopModifies == multiset{0, 0} && rec.log.aborts == 0
    ensures rec.row.state == BE_RETRY && rec.row.be.retries == 2 && AcceptedSpec(rec.row.spec)
  {
    AskedGroupIsReady();
    SpecIsAccepted();
    hide GroupInv, Timed, AcceptedSpec;
    var env := new Env(Lagging);
    var _ := env.Next();
    var executor := new Executor(env, LIMITS, 0.0, true, false);
    rec := new GroupRecord("G", SPEC, 0);
    rec.row, rec.actions, rec.log, rec.times := ROW, ACTIONS, LOG, [0, 0, 0, 0, 0];
    assert Of(rec) == ASKED;
    LaggingRound(executor, rec);
    LaggingRound(executor, rec);
  }

  /** One poll of the waiting group: a modify leaves and the group goes on waiting. */
  method LaggingRound(executor: Executor, rec: GroupRecord)
    requires executor.Valid() && executor.Ready(rec, NONE) && executor.env.world == Lagging &&
      executor.limits == LIMITS && rec.gid == "G"
    requires rec.row == ROW.(state := rec.row.state, be := Be(100.0, rec.row.be.retries)) &&
      rec.row.state in {BE_REQUESTED, BE_RETRY}
    requires rec.row.be.retries < 2
    modifies executor.env, executor.driver, rec
    ensures executor.Valid() && executor.Ready(rec, NONE)
    ensures rec.row == ROW.(state := BE_RETRY, be := Be(100.0, old(rec.row.be.retries) + 1))
    ensures rec.log.stopModifies == old(rec.log.stopModifies) + multiset{0} && rec.log.aborts == old(rec.log.aborts)
  {
    hide GroupInv, Timed, PassesHold, Sent, Died, Lagging;
    ghost var from := executor.env.now;
    var r, passes := executor.VerifyBe(rec);
    NeverDies(from, executor.env.now);
    RoundSends(passes, from, executor.env.now, old(rec.row));
    NotConfirmed(executor, rec);
  }

  /** A confirmed break-even would have been seen. */
  lemma NotConfirmed(executor: Executor, rec: GroupRecord)
    requires executor.Ready(rec, NONE) && executor.env.world == Lagging && rec.gid == "G"
    requires rec.row == ROW.(state := rec.row.state, be := Be(100.0, rec.row.be.retries))
    ensures rec.row.state != BE_CONFIRMED
  {
    if rec.row.state == BE_CONFIRMED {
      var h := rec.log.history;
      assert h[|h| - 1] == BE_CONFIRMED;
      var s, sl := ConfirmedMeansProtected(Of(rec), rec.times, Lagging, executor.limits, 0);
      assert false;
    }
  }
}
