/** The world outside the executor: an MT5 terminal that may answer anything, and a process that
    may die between any two interactions. A run fixes one answer for every moment; statements
    that hold for every `world` hold for every broker behaviour and every crash. */
module Terminal {
  import opened Wrappers
  import opened Codecs

  /** The value of a call, or the exception (or crash) that ended it. */
  datatype Res<+T> = Ok(value: T) | Err {
    predicate IsFailure() {
      Err?
    }
    function PropagateFailure<U>(): Res<U>
      requires Err?
    {
      Err
    }
    function Extract(): T
      requires Ok?
    {
      value
    }
  }

  datatype AccountMode = Hedging | Netting | Unknown

  /** Position tickets are positive; 0 stands for a missing ticket. */
  type Ticket = t: nat | t > 0 witness 1

  datatype Position = Position(ticket: Ticket, volume: real, priceOpen: real, sl: real, ours: bool, comment: string)
  datatype Deal = Deal(ticket: nat, isOut: bool, price: real, time: int)
  datatype Quote = Quote(bid: real, ask: real, tick: real, spread: real, volumeStep: real, volumeMin: real)

  /** What one interaction sees: the account, the positions and deals of the terminal, and the
      answer to an order sent at this moment. */
  datatype Moment = Moment(
    alive: bool, mode: AccountMode, demo: bool, balance: real, clockMs: int, geometryOk: bool,
    positions: seq<Position>, deals: map<nat, seq<Deal>>, quote: Option<Quote>,
    accepted: bool, volume: real, price: real)

  function FindTicket(positions: seq<Position>, ticket: nat): (p: Option<Position>)
    ensures p.Some? ==> p.value in positions && p.value.ticket == ticket
    ensures p.None? ==> forall q :: q in positions ==> q.ticket != ticket
  {
    if positions == [] then None
    else if positions[0].ticket == ticket then Some(positions[0])
    else FindTicket(positions[1..], ticket)
  }

  predicate CarriesGroup(p: Position, groupId: string) {
    p.ours && ParseComment(p.comment) == Some(groupId)
  }

  /** The first of our positions whose comment names the group. */
  function FindGroup(positions: seq<Position>, groupId: string): (p: Option<Position>)
    ensures p.Some? ==> p.value in positions && CarriesGroup(p.value, groupId)
    ensures p.None? ==> forall q :: q in positions ==> !CarriesGroup(q, groupId)
  {
    if positions == [] then None
    else if CarriesGroup(positions[0], groupId) then Some(positions[0])
    else FindGroup(positions[1..], groupId)
  }

  /** The process died at one of the moments. */
  ghost predicate Died(world: nat -> Moment, from: nat, to: nat) {
    exists t :: from <= t < to && !world(t).alive
  }

  /** Nothing goes wrong and no position is left, at any of the moments. */
  ghost predicate Calm(world: nat -> Moment, from: nat, to: nat) {
    forall t :: from <= t < to ==> world(t).alive && world(t).positions == []
  }

  lemma CalmWithin(world: nat -> Moment, from: nat, mid: nat, end: nat, to: nat)
    requires from <= mid <= end <= to
    ensures Calm(world, from, to) ==> Calm(world, mid, end) && !Died(world, mid, end)
  {
  }

  lemma AliveWhenCalm(world: nat -> Moment, from: nat, to: nat)
    requires from < to
    ensures Calm(world, from, to) ==> world(from).alive
  {
  }

  lemma DiedWithin(world: nat -> Moment, from: nat, mid: nat, to: nat)
    requires from <= mid && Died(world, mid, to)
    ensures Died(world, from, to)
  {
  }

  class Env {
    const world: nat -> Moment
    var now: nat

    constructor (world: nat -> Moment)
      ensures this.world == world && now == 0
    {
      this.world := world;
      now := 0;
    }

    /** The next moment, dead or alive. */
    method Next() returns (m: Moment)
      modifies this
      ensures now == old(now) + 1 && m == world(old(now))
    {
      m := world(now);
      now := now + 1;
    }

    /** The next moment, unless the process dies in it. */
    method Ask() returns (r: Res<Moment>)
      modifies this
      ensures now == old(now) + 1
      ensures r.Ok? <==> world(old(now)).alive
      ensures r.Ok? ==> r.value == world(old(now))
    {
      var m := Next();
      r := if m.alive then Ok(m) else Err;
    }
  }
}
