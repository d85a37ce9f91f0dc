/** The lifecycle of a trade group: the states, the transition table and what the
    table alone forces on every stored history (execution/trade_group.py:68-156). */
module GroupStates {

  datatype GroupState =
    | DRAFT | VALIDATED | SUBMITTED | OPENED
    | TP1_FILLED | BE_REQUESTED | BE_RETRY | BE_CONFIRMED
    | TP2_FILLED | TP3_FILLED | RECONCILED
    | STOPPED | REJECTED | EXPIRED | CANCELLED | FAILED
    | PARTIAL_SUBMISSION | COMPENSATION_REQUESTED | COMPENSATION_CONFIRMED | FAILED_WITH_OPEN_RISK

  predicate IsTerminal(s: GroupState) {
    s.RECONCILED? || s.STOPPED? || s.REJECTED? || s.EXPIRED? || s.CANCELLED? || s.FAILED?
  }

  /** GROUP_TRANSITIONS. A state without an entry has no successor. */
  predicate Edge(current: GroupState, next: GroupState) {
    match current
    case DRAFT => next.VALIDATED? || next.REJECTED? || next.CANCELLED?
    case VALIDATED => next.SUBMITTED? || next.REJECTED? || next.EXPIRED? || next.CANCELLED?
    case SUBMITTED =>
      next.OPENED? || next.REJECTED? || next.FAILED? || next.EXPIRED? || next.STOPPED? || next.PARTIAL_SUBMISSION?
    case PARTIAL_SUBMISSION => next.COMPENSATION_REQUESTED? || next.FAILED_WITH_OPEN_RISK? || next.REJECTED?
    case COMPENSATION_REQUESTED =>
      next.COMPENSATION_CONFIRMED? || next.COMPENSATION_REQUESTED? || next.FAILED_WITH_OPEN_RISK?
    case COMPENSATION_CONFIRMED => next.FAILED?
    case FAILED_WITH_OPEN_RISK =>
      next.COMPENSATION_REQUESTED? || next.COMPENSATION_CONFIRMED? || next.FAILED_WITH_OPEN_RISK?
    case OPENED => next.TP1_FILLED? || next.STOPPED? || next.FAILED? || next.EXPIRED?
    case TP1_FILLED => next.BE_REQUESTED? || next.STOPPED? || next.FAILED?
    case BE_REQUESTED => next.BE_CONFIRMED? || next.BE_RETRY? || next.STOPPED? || next.FAILED?
    case BE_RETRY => next.BE_CONFIRMED? || next.BE_RETRY? || next.FAILED? || next.STOPPED?
    case BE_CONFIRMED => next.TP2_FILLED? || next.STOPPED? || next.FAILED?
    case TP2_FILLED => next.TP3_FILLED? || next.STOPPED? || next.FAILED?
    case TP3_FILLED => next.RECONCILED? || next.STOPPED? || next.FAILED?
    case _ => false
  }

  predicate ValidTransition(current: GroupState, next: GroupState) {
    !IsTerminal(current) && Edge(current, next)
  }

  /** One store write: the state column either keeps its value or takes a table edge. */
  predicate Step(current: GroupState, next: GroupState) {
    current == next || ValidTransition(current, next)
  }

  /** Every value the state column of one group ever held, oldest first. */
  ghost predicate IsHistory(h: seq<GroupState>) {
    && h != []
    && (h[0].DRAFT? || h[0].VALIDATED?)
    && forall i :: 0 <= i < |h| - 1 ==> Step(h[i], h[i + 1])
  }

  function Last(h: seq<GroupState>): GroupState
    requires h != []
  {
    h[|h| - 1]
  }

  lemma ExtendHistory(h: seq<GroupState>, s: GroupState)
    requires IsHistory(h) && Step(Last(h), s)
    ensures IsHistory(h + [s]) && Last(h + [s]) == s
  {
    var k := h + [s];
    forall i | 0 <= i < |k| - 1 ensures Step(k[i], k[i + 1]) {
      if i == |h| - 1 { assert k[i] == Last(h); }
    }
  }

  /** Terminal states are absorbing. */
  lemma {:induction false} TerminalAbsorbs(h: seq<GroupState>, i: nat, j: nat)
    requires IsHistory(h) && i <= j < |h| && IsTerminal(h[i])
    ensures h[j] == h[i]
    decreases j
  {
    if i < j {
      TerminalAbsorbs(h, i, j - 1);
      assert Step(h[j - 1], h[j - 1 + 1]);
    }
  }

  /** If every table edge into `into` starts in `from` or `into`, a history that
      reaches a state of `into` passed through `from` strictly before. */
  lemma {:induction false} MustPass(h: seq<GroupState>, into: set<GroupState>, from: GroupState, j: nat)
    returns (i: nat)
    requires IsHistory(h) && j < |h| && h[j] in into
    requires DRAFT !in into && VALIDATED !in into
    requires forall a, b :: b in into && ValidTransition(a, b) ==> a == from || a in into
    ensures i < j && h[i] == from
    decreases j
  {
    assert j != 0;
    assert Step(h[j - 1], h[j - 1 + 1]);
    if h[j - 1] in into {
      i := MustPass(h, into, from, j - 1);
    } else {
      i := j - 1;
    }
  }

  /** A reconciled group went through TP1, confirmed break-even, TP2 and TP3, in this order. */
  lemma ReconciledOnlyThroughLadder(h: seq<GroupState>, j: nat)
    returns (open: nat, tp1: nat, be: nat, tp2: nat, tp3: nat)
    requires IsHistory(h) && j < |h| && h[j] == RECONCILED
    ensures open < tp1 < be < tp2 < tp3 < j
    ensures h[open] == OPENED && h[tp1] == TP1_FILLED && h[be] == BE_CONFIRMED
    ensures h[tp2] == TP2_FILLED && h[tp3] == TP3_FILLED
  {
    tp3 := MustPass(h, {RECONCILED}, TP3_FILLED, j);
    tp2 := MustPass(h, {TP3_FILLED}, TP2_FILLED, tp3);
    be := MustPass(h, {TP2_FILLED}, BE_CONFIRMED, tp2);
    tp1 := MustPass(h, {BE_CONFIRMED, BE_REQUESTED, BE_RETRY}, TP1_FILLED, be);
    open := MustPass(h, {TP1_FILLED}, OPENED, tp1);
  }

  predicate Compensating(s: GroupState) {
    s.PARTIAL_SUBMISSION? || s.COMPENSATION_REQUESTED? || s.COMPENSATION_CONFIRMED? || s.FAILED_WITH_OPEN_RISK?
  }

  /** After a partial submission the group stays inside the compensation states until
      it is rejected or it fails, and it fails only after COMPENSATION_CONFIRMED. */
  lemma {:induction false} CompensationIsClosed(h: seq<GroupState>, i: nat, j: nat)
    requires IsHistory(h) && i <= j < |h| && Compensating(h[i])
    ensures Compensating(h[j]) || h[j] == REJECTED
            || (h[j] == FAILED && exists k :: i <= k < j && h[k] == COMPENSATION_CONFIRMED)
    decreases j
  {
    if i < j {
      CompensationIsClosed(h, i, j - 1);
      assert Step(h[j - 1], h[j - 1 + 1]);
      if h[j - 1] == COMPENSATION_CONFIRMED && h[j] == FAILED {
        assert i <= j - 1 < j && h[j - 1] == COMPENSATION_CONFIRMED;
      }
    }
  }

  predicate OnLadder(s: GroupState) {
    s.OPENED? || s.TP1_FILLED? || s.BE_REQUESTED? || s.BE_RETRY? || s.BE_CONFIRMED? || s.TP2_FILLED? || s.TP3_FILLED? ||
      s.RECONCILED?
  }

  /** No group is ever both opened and compensated. */
  lemma OpenedNeverCompensated(h: seq<GroupState>, i: nat, j: nat)
    requires IsHistory(h) && i < |h| && j < |h|
    requires OnLadder(h[i])
    ensures !Compensating(h[j])
  {
    if Compensating(h[j]) {
      if j <= i {
        CompensationIsClosed(h, j, i);
      } else {
        LadderIsClosed(h, i, j);
      }
    }
  }

  lemma {:induction false} LadderIsClosed(h: seq<GroupState>, i: nat, j: nat)
    requires IsHistory(h) && i <= j < |h|
    requires OnLadder(h[i])
    ensures !Compensating(h[j]) && !(h[j].DRAFT? || h[j].VALIDATED? || h[j].SUBMITTED?)
    decreases j
  {
    if i < j {
      LadderIsClosed(h, i, j - 1);
      assert Step(h[j - 1], h[j - 1 + 1]);
    }
  }
}
