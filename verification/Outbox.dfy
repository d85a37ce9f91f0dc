/** The durable outbox (data/ledger_bridge.py) and the table that ingests its events
    (data/ledger_events.py). */
module Outbox {
  import opened Wrappers

  datatype Event = Event(id: string, content: string)

  /** One outbox row; its row id is its position, since ids ascend and rows are never deleted. */
  datatype Row = Row(eventId: string, content: string, delivered: bool, attempts: nat, lastError: Option<string>)

  function Fact(row: Row): Event {
    Event(row.eventId, row.content)
  }

  function Fresh(e: Event): Row {
    Row(e.id, e.content, false, 0, None)
  }

  /** What becomes of one POST: acknowledged, refused or unanswered after the server stored the first
      `reached` events, or the sender dies at that point. */
  datatype Reply = Accepted | Refused(reached: nat, error: string) | Killed(reached: nat)

  // ---------------------------------------------------------------------------
  // The invariant
  // ---------------------------------------------------------------------------

  ghost predicate UniqueRows(rows: seq<Row>) {
    forall i, j :: 0 <= i < j < |rows| ==> rows[i].eventId != rows[j].eventId
  }

  ghost predicate UniqueEvents(table: seq<Event>) {
    forall i, j :: 0 <= i < j < |table| ==> table[i].id != table[j].id
  }

  predicate HasRow(rows: seq<Row>, id: string) {
    exists i :: 0 <= i < |rows| && rows[i].eventId == id
  }

  ghost predicate HasFact(rows: seq<Row>, e: Event) {
    exists i :: 0 <= i < |rows| && Fact(rows[i]) == e
  }

  /** `e` is the first event of the history with its id. */
  ghost predicate IsFirst(history: seq<Event>, e: Event) {
    exists k :: 0 <= k < |history| && history[k] == e && forall j :: 0 <= j < k ==> history[j].id != e.id
  }

  /** The rows are the first occurrences of everything that was enqueued. */
  ghost predicate RowsAreFirsts(rows: seq<Row>, history: seq<Event>) {
    && UniqueRows(rows)
    && (forall i :: 0 <= i < |rows| ==> IsFirst(history, Fact(rows[i])))
    && (forall e :: e in history ==> HasRow(rows, e.id))
  }

  /** Delivered rows are readable, and all readable rows before a delivered one are delivered. */
  ghost predicate DeliveredPrefix(readable: string -> bool, rows: seq<Row>) {
    && (forall i :: 0 <= i < |rows| && rows[i].delivered ==> readable(rows[i].content))
    && (forall i, j :: 0 <= i < j < |rows| && rows[j].delivered && readable(rows[i].content) ==> rows[i].delivered)
  }

  /** The server holds each id once, only facts of the outbox, and every delivered one. */
  ghost predicate ServerAgrees(rows: seq<Row>, table: seq<Event>) {
    && UniqueEvents(table)
    && (forall e :: e in table ==> HasFact(rows, e))
    && (forall i :: 0 <= i < |rows| && rows[i].delivered ==> Fact(rows[i]) in table)
  }

  ghost predicate ExactlyOnce(readable: string -> bool, rows: seq<Row>, table: seq<Event>, history: seq<Event>) {
    RowsAreFirsts(rows, history) && DeliveredPrefix(readable, rows) && ServerAgrees(rows, table)
  }

  /** Rows keep their identity and content, and stay delivered. */
  ghost predicate OnlyMarked(before: seq<Row>, after: seq<Row>) {
    |after| == |before| &&
      forall i :: 0 <= i < |before| ==>
      Fact(after[i]) == Fact(before[i]) && (before[i].delivered ==> after[i].delivered)
  }

  // ---------------------------------------------------------------------------
  // The receiving table
  // ---------------------------------------------------------------------------

  predicate HasEvent(table: seq<Event>, id: string) {
    exists k :: 0 <= k < |table| && table[k].id == id
  }

  function Upserted(table: seq<Event>, e: Event): seq<Event> {
    if HasEvent(table, e.id) then table else table + [e]
  }

  function Ingested(table: seq<Event>, events: seq<Event>): seq<Event> {
    if events == [] then table else Upserted(Ingested(table, events[..|events| - 1]), events[|events| - 1])
  }

  class Server {
    var table: seq<Event>

    constructor ()
      ensures table == []
    {
      table := [];
    }

    /** Insert-or-ignore by event id. */
    method Upsert(e: Event) returns (inserted: bool)
      modifies this
      ensures table == Upserted(old(table), e) && inserted == !HasEvent(old(table), e.id)
    {
      inserted := !HasEvent(table, e.id);
      if inserted {
        table := table + [e];
      }
    }

    /** Stores the events of a request one by one, as far as it gets. */
    method Ingest(events: seq<Event>)
      modifies this
      ensures table == Ingested(old(table), events)
    {
      for k := 0 to |events|
        invariant table == Ingested(old(table), events[..k])
      {
        assert events[..k + 1][..k] == events[..k];
        var _ := Upsert(events[k]);
      }
      assert events[..|events|] == events;
    }
  }

  /** Ingesting facts of the outbox keeps the server in agreement, and stores every one of them. */
  lemma {:induction false} IngestAgrees(rows: seq<Row>, table: seq<Event>, events: seq<Event>)
    requires UniqueRows(rows) && ServerAgrees(rows, table)
    requires forall e :: e in events ==> HasFact(rows, e)
    ensures ServerAgrees(rows, Ingested(table, events))
    ensures forall e :: e in events || e in table ==> e in Ingested(table, events)
  {
    if events != [] {
      var rest, e := events[..|events| - 1], events[|events| - 1];
      assert events == rest + [e];
      IngestAgrees(rows, table, rest);
      UpsertAgrees(rows, Ingested(table, rest), e);
    }
  }

  lemma UpsertAgrees(rows: seq<Row>, table: seq<Event>, e: Event)
    requires UniqueRows(rows) && ServerAgrees(rows, table)
    requires HasFact(rows, e)
    ensures ServerAgrees(rows, Upserted(table, e)) && e in Upserted(table, e)
    ensures forall x :: x in table ==> x in Upserted(table, e)
  {
    if HasEvent(table, e.id) {
      var k :| 0 <= k < |table| && table[k].id == e.id;
      assert table[k] in table;
      var i :| 0 <= i < |rows| && Fact(rows[i]) == e;
      var j :| 0 <= j < |rows| && Fact(rows[j]) == table[k];
      assert rows[i].eventId == rows[j].eventId;
    }
  }

  // ---------------------------------------------------------------------------
  // Batches
  // ---------------------------------------------------------------------------

  function PendingCount(rows: seq<Row>): nat {
    if rows == [] then 0 else PendingCount(rows[..|rows| - 1]) + (if rows[|rows| - 1].delivered then 0 else 1)
  }

  /** Row i is among the first `limit` undelivered rows; a negative limit is none. */
  predicate InBatch(rows: seq<Row>, limit: int, i: nat)
    requires i < |rows|
  {
    !rows[i].delivered && (limit < 0 || PendingCount(rows[..i]) < limit)
  }

  function Delivered(row: Row): Row {
    row.(delivered := true, attempts := row.attempts + 1, lastError := None)
  }

  function Failed(row: Row, error: string): Row {
    row.(attempts := row.attempts + 1, lastError := Some(error[..if |error| < 500 then |error| else 500]))
  }

  function DeliveredIf(row: Row, hit: bool): Row {
    if hit && !row.delivered then Delivered(row) else row
  }

  function FailedTimes(row: Row, error: string, times: nat): Row {
    if row.delivered || times == 0 then row else Failed(row, error).(attempts := row.attempts + times)
  }

  function MarkedDelivered(rows: seq<Row>, ids: seq<string>): (after: seq<Row>)
    ensures |after| == |rows| &&
      forall i :: 0 <= i < |rows| ==> after[i] == DeliveredIf(rows[i], rows[i].eventId in ids)
  {
    seq(|rows|, i requires 0 <= i < |rows| => DeliveredIf(rows[i], rows[i].eventId in ids))
  }

  function MarkedFailed(rows: seq<Row>, ids: seq<string>, error: string): (after: seq<Row>)
    ensures |after| == |rows| &&
      forall i :: 0 <= i < |rows| ==> after[i] == FailedTimes(rows[i], error, multiset(ids)[rows[i].eventId])
  {
    seq(|rows|, i requires 0 <= i < |rows| => FailedTimes(rows[i], error, multiset(ids)[rows[i].eventId]))
  }

  const MALFORMED := "malformed event"

  /** A row of the batch after the POST was answered by `reply`. */
  function Settled(readable: string -> bool, row: Row, reply: Reply): Row {
    if !readable(row.content) then Failed(row, MALFORMED)
    else match reply
      case Accepted => Delivered(row)
      case Refused(_, error) => Failed(row, error)
      case Killed(_) => row
  }

  /** The outbox after one delivery. */
  function Round(readable: string -> bool, rows: seq<Row>, limit: int, reply: Reply): (after: seq<Row>)
    ensures |after| == |rows|
    ensures forall i :: 0 <= i < |rows| ==>
      after[i] == if InBatch(rows, limit, i) then Settled(readable, rows[i], reply) else rows[i]
  {
    seq(|rows|, i requires 0 <= i < |rows| =>
      if InBatch(rows, limit, i) then Settled(readable, rows[i], reply) else rows[i])
  }

  ghost predicate Below(ids: seq<nat>, n: nat) {
    forall k :: 0 <= k < |ids| ==> ids[k] < n
  }

  /** Increasing row ids below n. */
  ghost predicate Ascending(ids: seq<nat>, n: nat) {
    Below(ids, n) && (forall j, k :: 0 <= j < k < |ids| ==> ids[j] < ids[k])
  }

  /** The rows of the batch among the first n, in order. */
  function BatchIds(rows: seq<Row>, limit: int, n: nat): (ids: seq<nat>)
    requires n <= |rows|
    ensures Below(ids, n)
  {
    if n == 0 then [] else BatchIds(rows, limit, n - 1) + (if InBatch(rows, limit, n - 1) then [n - 1] else [])
  }

  lemma {:induction false} BatchIdsAre(rows: seq<Row>, limit: int, n: nat)
    requires n <= |rows|
    ensures Ascending(BatchIds(rows, limit, n), n)
    ensures forall i :: i in BatchIds(rows, limit, n) <==> 0 <= i < n && InBatch(rows, limit, i)
  {
    if n > 0 {
      BatchIdsAre(rows, limit, n - 1);
      hide InBatch;
      var ids := BatchIds(rows, limit, n - 1);
      assert forall k :: 0 <= k < |ids| ==> ids[k] in ids;
    }
  }

  /** The events a batch posts: its readable rows. */
  function Readable(readable: string -> bool, rows: seq<Row>, ids: seq<nat>): (events: seq<Event>)
    requires Below(ids, |rows|)
  {
    if ids == [] then []
    else
      var last := rows[ids[|ids| - 1]];
      Readable(readable, rows, ids[..|ids| - 1]) + (if readable(last.content) then [Fact(last)] else [])
  }

  function Posted(readable: string -> bool, rows: seq<Row>, limit: int): seq<Event> {
    Readable(readable, rows, BatchIds(rows, limit, |rows|))
  }

  /** What the server has stored by the time the reply is seen, or the sender is gone. */
  function Reached(events: seq<Event>, reply: Reply): seq<Event> {
    if reply.Accepted? || |events| <= reply.reached then events else events[..reply.reached]
  }

  /** The malformed rows among `ids` are marked failed. */
  ghost predicate ReadMarks(readable: string -> bool, rows: seq<Row>, ids: seq<nat>, after: seq<Row>) {
    && |after| == |rows|
    && forall i :: 0 <= i < |rows| ==>
      after[i] == if i in ids && !readable(rows[i].content) then Failed(rows[i], MALFORMED) else rows[i]
  }

  /** The posted rows are marked by the answer. */
  ghost predicate AnswerMarks(events: seq<Event>, reply: Reply, before: seq<Row>, after: seq<Row>) {
    match reply
    case Accepted => after == MarkedDelivered(before, IdsOf(events))
    case Refused(_, error) => after == MarkedFailed(before, IdsOf(events), error)
    case Killed(_) => after == before
  }

  function IdsOf(events: seq<Event>): seq<string> {
    seq(|events|, k requires 0 <= k < |events| => events[k].id)
  }

  // ---------------------------------------------------------------------------
  // The outbox
  // ---------------------------------------------------------------------------

  class Outbox {
    const readable: string -> bool
    var rows: seq<Row>
    ghost var history: seq<Event>

    ghost predicate Valid(server: Server)
      reads this, server
    {
      ExactlyOnce(readable, rows, server.table, history)
    }

    constructor (readable: string -> bool)
      ensures this.readable == readable && rows == [] && history == []
      ensures ExactlyOnce(readable, rows, [], history)
    {
      this.readable, rows, history := readable, [], [];
    }

    method EnqueueEvent(e: Event, server: Server) returns (id: string)
      requires Valid(server)
      modifies this
      ensures Valid(server) && history == old(history) + [e] && id == e.id
      ensures rows == Enqueued(old(rows), e)
    {
      EnqueueKeeps(readable, rows, server.table, history, e);
      if !HasRow(rows, e.id) {
        rows := rows + [Fresh(e)];
      }
      history := history + [e];
      id := e.id;
    }

    method PendingEvents(limit: int) returns (ids: seq<nat>)
      ensures ids == BatchIds(rows, limit, |rows|)
    {
      ids := [];
      for i := 0 to |rows|
        invariant ids == BatchIds(rows, limit, i)
        invariant |ids| == if limit < 0 || PendingCount(rows[..i]) < limit then PendingCount(rows[..i]) else limit
      {
        assert rows[..i + 1][..i] == rows[..i];
        if !rows[i].delivered && (limit < 0 || |ids| < limit) {
          ids := ids + [i];
        }
      }
    }

    /** Rows already delivered are left alone. */
    method MarkDelivered(ids: seq<string>)
      modifies this`rows
      ensures rows == MarkedDelivered(old(rows), ids)
    {
      for k := 0 to |ids|
        invariant rows == MarkedDelivered(old(rows), ids[..k])
      {
        rows := MarkedDelivered(rows, [ids[k]]);
        assert ids[..k + 1] == ids[..k] + [ids[k]];
      }
      assert ids[..|ids|] == ids;
    }

    /** Each listed id counts one more attempt and keeps the first 500 characters of the error. */
    method MarkFailed(ids: seq<string>, error: string)
      modifies this`rows
      ensures rows == MarkedFailed(old(rows), ids, error)
    {
      for k := 0 to |ids|
        invariant rows == MarkedFailed(old(rows), ids[..k], error)
      {
        rows := MarkedFailed(rows, [ids[k]], error);
        assert ids[..k + 1] == ids[..k] + [ids[k]];
      }
      assert ids[..|ids|] == ids;
    }

    /** Decodes the batch; a malformed row is marked failed and left out. */
    method ReadBatch(ids: seq<nat>) returns (events: seq<Event>)
      requires UniqueRows(rows) && Ascending(ids, |rows|) && (forall i :: i in ids ==> !rows[i].delivered)
      modifies this`rows
      ensures events == Readable(readable, old(rows), ids)
      ensures ReadMarks(readable, old(rows), ids, rows)
    {
      assert ReadMarks(readable, rows, [], rows);
      hide ReadMarks, UniqueRows, MarkedFailed;
      events := [];
      for k := 0 to |ids|
        invariant Below(ids[..k], |old(rows)|)
        invariant events == Readable(readable, old(rows), ids[..k])
        invariant ReadMarks(readable, old(rows), ids[..k], rows)
      {
        assert ids[..k + 1][..k] == ids[..k] && ids[..k + 1] == ids[..k] + [ids[k]];
        NotYetRead(readable, old(rows), ids, k, rows);
        ghost var mid := rows;
        var row := rows[ids[k]];
        if readable(row.content) {
          events := events + [Event(row.eventId, row.content)];
        } else {
          MarkFailed([row.eventId], MALFORMED);
        }
        ReadOneMore(readable, old(rows), ids, k, mid, rows);
      }
      assert ids[..|ids|] == ids;
    }

    /** Delivers one batch. `attempted` is what it reports. */
    method DeliverOutbox(server: Server, limit: int, reply: Reply) returns (attempted: nat)
      requires Valid(server)
      modifies this`rows, server
      ensures Valid(server)
      ensures rows == Round(readable, old(rows), limit, reply)
      ensures server.table == Ingested(old(server.table), Reached(Posted(readable, old(rows), limit), reply))
      ensures attempted == |Posted(readable, old(rows), limit)|
    {
      hide Readable, Ingested, InBatch, Round, UniqueRows, ReadMarks, AnswerMarks, DeliveredPrefix, ServerAgrees,
        Reached;
      RoundKeeps(readable, rows, limit, reply, server.table, history);
      var ids := PendingEvents(limit);
      BatchIsPending(rows, limit);
      var events := ReadBatch(ids);
      ghost var mid := rows;
      attempted := |events|;
      if events != [] {
        server.Ingest(Reached(events, reply));
        Settle(events, reply);
      } else {
        NothingPosted(server.table, reply, mid);
      }
      RoundAssembles(readable, old(rows), limit, reply, mid, rows);
    }

    /** Marks the posted events by the answer. */
    method Settle(events: seq<Event>, reply: Reply)
      modifies this`rows
      ensures AnswerMarks(events, reply, old(rows), rows)
    {
      match reply
      case Accepted => MarkDelivered(IdsOf(events));
      case Refused(_, error) => MarkFailed(IdsOf(events), error);
      case Killed(_) =>
    }

    method PendingStat() returns (n: nat)
      ensures n == PendingCount(rows)
    {
      n := 0;
      for i := 0 to |rows|
        invariant n == PendingCount(rows[..i])
      {
        assert rows[..i + 1][..i] == rows[..i];
        n := n + if rows[i].delivered then 0 else 1;
      }
      assert rows[..|rows|] == rows;
    }

    /** Delivers until nothing is pending. A zero `maxAttempts` sets no bound; `lifetime` is the tick
        at which the process is stopped from outside. */
    method RunDeliveryLoop(server: Server, limit: int, maxAttempts: int, replies: nat -> Reply, lifetime: nat)
      returns (rounds: nat)
      requires Valid(server)
      modifies this`rows, server
      ensures Valid(server)
      ensures rows == Rounds(readable, old(rows), limit, replies, rounds)
      ensures rounds <= Bound(maxAttempts, lifetime)
      ensures rounds == Bound(maxAttempts, lifetime) || (rounds > 0 && PendingCount(rows) == 0)
      ensures AlwaysPending(readable, old(rows), limit, replies, rounds)
    {
      hide Round, PendingCount, ExactlyOnce, Rounds, AlwaysPending;
      NoRounds(readable, rows, limit, replies);
      rounds := 0;
      while (maxAttempts == 0 || rounds < maxAttempts) && rounds < lifetime
        invariant Valid(server)
        invariant rounds <= Bound(maxAttempts, lifetime)
        invariant rows == Rounds(readable, old(rows), limit, replies, rounds)
        invariant AlwaysPending(readable, old(rows), limit, replies, rounds)
        invariant AlwaysPending(readable, old(rows), limit, replies, rounds + 1)
        decreases lifetime - rounds
      {
        var _ := DeliverOutbox(server, limit, replies(rounds));
        rounds := rounds + 1;
        OneMoreRound(readable, old(rows), limit, replies, rounds);
        var pending := PendingStat();
        if pending == 0 {
          return;
        }
      }
    }
  }

  function Enqueued(rows: seq<Row>, e: Event): seq<Row> {
    if HasRow(rows, e.id) then rows else rows + [Fresh(e)]
  }

  lemma EnqueueKeeps(readable: string -> bool, rows: seq<Row>, table: seq<Event>, history: seq<Event>, e: Event)
    requires ExactlyOnce(readable, rows, table, history)
    ensures ExactlyOnce(readable, Enqueued(rows, e), table, history + [e])
  {
    EnqueueKeepsFirsts(rows, history, e);
    EnqueueKeepsPrefix(readable, rows, e);
    EnqueueKeepsServer(rows, table, e);
    hide RowsAreFirsts, DeliveredPrefix, ServerAgrees, Enqueued;
  }

  lemma EnqueueKeepsPrefix(readable: string -> bool, rows: seq<Row>, e: Event)
    requires DeliveredPrefix(readable, rows)
    ensures DeliveredPrefix(readable, Enqueued(rows, e))
  {
    hide HasRow;
  }

  lemma EnqueueKeepsServer(rows: seq<Row>, table: seq<Event>, e: Event)
    requires ServerAgrees(rows, table)
    ensures ServerAgrees(Enqueued(rows, e), table)
  {
    hide HasRow;
    var after := Enqueued(rows, e);
    forall x | x in table ensures HasFact(after, x) {
      var i :| 0 <= i < |rows| && Fact(rows[i]) == x;
      assert after[i] == rows[i];
    }
    hide HasFact;
    assert forall i :: 0 <= i < |after| && after[i].delivered ==> i < |rows| && after[i] == rows[i];
  }

  lemma EnqueueKeepsFirsts(rows: seq<Row>, history: seq<Event>, e: Event)
    requires RowsAreFirsts(rows, history)
    ensures RowsAreFirsts(Enqueued(rows, e), history + [e])
  {
    var after, longer := Enqueued(rows, e), history + [e];
    forall i | 0 <= i < |rows| ensures IsFirst(longer, Fact(rows[i])) {
      StaysFirst(history, e, Fact(rows[i]));
    }
    if !HasRow(rows, e.id) {
      assert forall j :: 0 <= j < |history| ==> history[j] in history;
      assert longer[|history|] == e;
      assert IsFirst(longer, e);
      assert after[|rows|].eventId == e.id;
    }
    hide IsFirst, UniqueRows;
    forall x | x in longer ensures HasRow(after, x.id) {
      if x in history {
        var i :| 0 <= i < |rows| && rows[i].eventId == x.id;
        assert after[i].eventId == x.id;
      }
    }
  }

  lemma StaysFirst(history: seq<Event>, e: Event, x: Event)
    requires IsFirst(history, x)
    ensures IsFirst(history + [e], x)
  {
    var k :| 0 <= k < |history| && history[k] == x && forall j :: 0 <= j < k ==> history[j].id != x.id;
    assert (history + [e])[k] == x;
  }

  // ---------------------------------------------------------------------------
  // A delivery keeps the invariant
  // ---------------------------------------------------------------------------

  lemma BatchIsPending(rows: seq<Row>, limit: int)
    ensures Ascending(BatchIds(rows, limit, |rows|), |rows|)
    ensures forall i :: i in BatchIds(rows, limit, |rows|) ==> i < |rows| && !rows[i].delivered
  {
    BatchIdsAre(rows, limit, |rows|);
  }

  lemma NotYetRead(readable: string -> bool, rows: seq<Row>, ids: seq<nat>, k: nat, mid: seq<Row>)
    requires k < |ids| && Ascending(ids, |rows|) && ReadMarks(readable, rows, ids[..k], mid)
    ensures ids[k] < |rows| == |mid| && mid[ids[k]] == rows[ids[k]] && ids[k] !in ids[..k]
  {
  }

  lemma ReadOneMore(readable: string -> bool, rows: seq<Row>, ids: seq<nat>, k: nat, mid: seq<Row>, after: seq<Row>)
    requires k < |ids| && ids[k] < |rows| && ids[k] !in ids[..k] && UniqueRows(rows) && !rows[ids[k]].delivered
    requires ReadMarks(readable, rows, ids[..k], mid)
    requires after == if readable(rows[ids[k]].content) then mid
      else MarkedFailed(mid, [rows[ids[k]].eventId], MALFORMED)
    ensures ReadMarks(readable, rows, ids[..k + 1], after)
  {
    assert ids[..k + 1] == ids[..k] + [ids[k]];
    forall i | 0 <= i < |rows| && i != ids[k] ensures after[i] == mid[i] {
      assert mid[i].eventId == rows[i].eventId && rows[i].eventId != rows[ids[k]].eventId;
    }
  }

  lemma NothingPosted(table: seq<Event>, reply: Reply, rows: seq<Row>)
    ensures Reached([], reply) == [] && Ingested(table, []) == table && AnswerMarks([], reply, rows, rows)
  {
  }

  lemma RoundAssembles(
    readable: string -> bool, rows: seq<Row>, limit: int, reply: Reply, mid: seq<Row>, after: seq<Row>)
    requires UniqueRows(rows)
    requires ReadMarks(readable, rows, BatchIds(rows, limit, |rows|), mid)
    requires AnswerMarks(Posted(readable, rows, limit), reply, mid, after)
    ensures after == Round(readable, rows, limit, reply)
  {
    hide Readable, InBatch, Round;
    var ids := BatchIds(rows, limit, |rows|);
    BatchIdsAre(rows, limit, |rows|);
    BatchIsPending(rows, limit);
    hide Ascending;
    forall i | 0 <= i < |rows| ensures after[i] == Round(readable, rows, limit, reply)[i] {
      Picks(readable, rows, ids, i);
      assert mid[i].eventId == rows[i].eventId && mid[i].delivered == rows[i].delivered;
    }
  }

  /** The posted ids name exactly the readable rows of the batch, each once. */
  lemma {:induction false} Picks(readable: string -> bool, rows: seq<Row>, ids: seq<nat>, i: nat)
    requires UniqueRows(rows) && i < |rows| && Ascending(ids, |rows|)
    ensures multiset(IdsOf(Readable(readable, rows, ids)))[rows[i].eventId] ==
      if i in ids && readable(rows[i].content) then 1 else 0
    ensures rows[i].eventId in IdsOf(Readable(readable, rows, ids)) <==> i in ids && readable(rows[i].content)
  {
    if ids != [] {
      var rest, last := ids[..|ids| - 1], ids[|ids| - 1];
      assert ids == rest + [last] && last !in rest;
      Picks(readable, rows, rest, i);
      var before, after := Readable(readable, rows, rest), Readable(readable, rows, ids);
      if readable(rows[last].content) {
        assert IdsOf(after) == IdsOf(before) + [rows[last].eventId];
        assert i != last ==> rows[i].eventId != rows[last].eventId;
      } else {
        assert after == before;
      }
    }
  }

  lemma {:induction false} PendingGrows(rows: seq<Row>, i: nat, j: nat)
    requires i <= j <= |rows|
    ensures PendingCount(rows[..i]) <= PendingCount(rows[..j])
    ensures i < j && !rows[i].delivered ==> PendingCount(rows[..i]) < PendingCount(rows[..j])
    decreases j
  {
    if i < j {
      PendingGrows(rows, i, j - 1);
      assert rows[..j][..j - 1] == rows[..j - 1];
    }
  }

  lemma RoundKeepsPrefix(readable: string -> bool, rows: seq<Row>, limit: int, reply: Reply)
    requires DeliveredPrefix(readable, rows)
    ensures DeliveredPrefix(readable, Round(readable, rows, limit, reply))
  {
    hide PendingCount, Round;
    var after := Round(readable, rows, limit, reply);
    forall i, j | 0 <= i < j < |rows| && after[j].delivered && readable(rows[i].content) ensures after[i].delivered {
      PendingGrows(rows, i, j);
    }
  }

  lemma {:induction false} ReadableAreFacts(readable: string -> bool, rows: seq<Row>, ids: seq<nat>)
    requires Below(ids, |rows|)
    ensures forall e :: e in Readable(readable, rows, ids) ==> HasFact(rows, e)
    ensures forall i :: i in ids && readable(rows[i].content) ==> Fact(rows[i]) in Readable(readable, rows, ids)
  {
    if ids != [] {
      var rest, last := ids[..|ids| - 1], ids[|ids| - 1];
      assert ids == rest + [last];
      ReadableAreFacts(readable, rows, rest);
    }
  }

  lemma MarksKeepFirsts(before: seq<Row>, after: seq<Row>, history: seq<Event>)
    requires RowsAreFirsts(before, history) && OnlyMarked(before, after)
    ensures RowsAreFirsts(after, history)
  {
    hide IsFirst;
    assert forall i :: 0 <= i < |before| ==> after[i].eventId == before[i].eventId by {
      assert forall i :: 0 <= i < |before| ==> Fact(after[i]) == Fact(before[i]);
    }
    forall e | e in history ensures HasRow(after, e.id) {
      var i :| 0 <= i < |before| && before[i].eventId == e.id;
      assert after[i].eventId == e.id;
    }
  }

  lemma MarksKeepServer(before: seq<Row>, after: seq<Row>, table: seq<Event>)
    requires ServerAgrees(before, table) && OnlyMarked(before, after)
    requires forall i :: 0 <= i < |before| && after[i].delivered && !before[i].delivered ==> Fact(before[i]) in table
    ensures ServerAgrees(after, table)
  {
    forall e | e in table ensures HasFact(after, e) {
      var i :| 0 <= i < |before| && Fact(before[i]) == e;
      assert Fact(after[i]) == e;
    }
  }

  lemma RoundKeeps(
    readable: string -> bool, rows: seq<Row>, limit: int, reply: Reply, table: seq<Event>, history: seq<Event>)
    requires ExactlyOnce(readable, rows, table, history)
    ensures ExactlyOnce(readable, Round(readable, rows, limit, reply),
      Ingested(table, Reached(Posted(readable, rows, limit), reply)), history)
  {
    hide Readable, Ingested, InBatch, Round;
    var ids := BatchIds(rows, limit, |rows|);
    var events := Posted(readable, rows, limit);
    var after := Round(readable, rows, limit, reply);
    RoundKeepsPrefix(readable, rows, limit, reply);
    assert OnlyMarked(rows, after);
    MarksKeepFirsts(rows, after, history);
    BatchIdsAre(rows, limit, |rows|);
    ReadableAreFacts(readable, rows, ids);
    IngestAgrees(rows, table, Reached(events, reply));
    MarksKeepServer(rows, after, Ingested(table, Reached(events, reply)));
  }

  // ---------------------------------------------------------------------------
  // The delivery loop
  // ---------------------------------------------------------------------------

  function Bound(maxAttempts: int, lifetime: nat): nat {
    if maxAttempts == 0 || lifetime <= maxAttempts then lifetime else if maxAttempts < 0 then 0 else maxAttempts
  }

  /** The rows after n deliveries. */
  function Rounds(
    readable: string -> bool, rows: seq<Row>, limit: int, replies: nat -> Reply, n: nat): (after: seq<Row>)
    ensures |after| == |rows|
  {
    if n == 0 then rows else Round(readable, Rounds(readable, rows, limit, replies, n - 1), limit, replies(n - 1))
  }

  /** Undelivered rows that do not decode. */
  function BadCount(readable: string -> bool, rows: seq<Row>): nat {
    if rows == [] then 0
    else
      var last := rows[|rows| - 1];
      BadCount(readable, rows[..|rows| - 1]) + (if !last.delivered && !readable(last.content) then 1 else 0)
  }

  /** What an acknowledged delivery leaves of a prefix: the bad rows, and what was beyond the batch. */
  lemma {:induction false} RoundLeaves(readable: string -> bool, rows: seq<Row>, limit: int, i: nat)
    requires i <= |rows|
    ensures var pending, bad := PendingCount(rows[..i]), BadCount(readable, rows[..i]);
      var left := PendingCount(Round(readable, rows, limit, Accepted)[..i]);
      if limit < 0 || pending <= limit then left == bad else pending - limit <= left <= pending - limit + bad
  {
    if i > 0 {
      RoundLeaves(readable, rows, limit, i - 1);
      hide Round, PendingCount, BadCount;
      PendingStep(rows, i);
      PendingStep(Round(readable, rows, limit, Accepted), i);
      BadStep(readable, rows, i);
    } else {
      assert rows[..0] == [] && Round(readable, rows, limit, Accepted)[..0] == [];
    }
  }

  lemma BadStep(readable: string -> bool, rows: seq<Row>, i: nat)
    requires 0 < i <= |rows|
    ensures BadCount(readable, rows[..i]) ==
      BadCount(readable, rows[..i - 1]) + if !rows[i - 1].delivered && !readable(rows[i - 1].content) then 1 else 0
  {
    assert rows[..i][..i - 1] == rows[..i - 1];
  }

  lemma PendingStep(rows: seq<Row>, i: nat)
    requires 0 < i <= |rows|
    ensures PendingCount(rows[..i]) == PendingCount(rows[..i - 1]) + if rows[i - 1].delivered then 0 else 1
  {
    assert rows[..i][..i - 1] == rows[..i - 1];
  }

  lemma {:induction false} BadStays(readable: string -> bool, rows: seq<Row>, limit: int, reply: Reply, i: nat)
    requires i <= |rows|
    ensures BadCount(readable, Round(readable, rows, limit, reply)[..i]) == BadCount(readable, rows[..i])
  {
    if i > 0 {
      hide Round, InBatch;
      BadStays(readable, rows, limit, reply, i - 1);
      var after := Round(readable, rows, limit, reply);
      assert rows[..i][..i - 1] == rows[..i - 1] && after[..i][..i - 1] == after[..i - 1];
    }
  }

  lemma {:induction false} BadIsPending(readable: string -> bool, rows: seq<Row>)
    ensures BadCount(readable, rows) <= PendingCount(rows)
  {
    if rows != [] {
      BadIsPending(readable, rows[..|rows| - 1]);
    }
  }

  /** Enough bad rows in front block a row for ever, whatever the server answers. */
  lemma {:induction false} BadRowsBlock(
    readable: string -> bool, rows: seq<Row>, limit: int, replies: nat -> Reply, n: nat, i: nat)
    requires i < |rows| && !rows[i].delivered && 0 <= limit <= BadCount(readable, rows[..i])
    ensures var after := Rounds(readable, rows, limit, replies, n);
      !after[i].delivered && BadCount(readable, after[..i]) == BadCount(readable, rows[..i])
  {
    hide Round;
    if n > 0 {
      BadRowsBlock(readable, rows, limit, replies, n - 1, i);
      var before := Rounds(readable, rows, limit, replies, n - 1);
      BadIsPending(readable, before[..i]);
      BadStays(readable, before, limit, replies(n - 1), i);
    }
  }

  /** Otherwise every acknowledged round delivers the row or shortens the queue in front of it. */
  lemma {:induction false} QueueShrinks(
    readable: string -> bool, rows: seq<Row>, limit: int, replies: nat -> Reply, n: nat, i: nat)
    requires i < |rows| && !rows[i].delivered && readable(rows[i].content)
    requires limit < 0 || BadCount(readable, rows[..i]) < limit
    requires forall k :: replies(k) == Accepted
    ensures var after := Rounds(readable, rows, limit, replies, n);
      && after[i].content == rows[i].content && BadCount(readable, after[..i]) == BadCount(readable, rows[..i])
      && (after[i].delivered || PendingCount(after[..i]) + n <= PendingCount(rows[..i]))
  {
    hide Round, PendingCount, BadCount;
    if n > 0 {
      QueueShrinks(readable, rows, limit, replies, n - 1, i);
      var before := Rounds(readable, rows, limit, replies, n - 1);
      assert Rounds(readable, rows, limit, replies, n) == Round(readable, before, limit, Accepted);
      BadStays(readable, before, limit, Accepted, i);
      RoundLeaves(readable, before, limit, i);
    }
  }

  /** With the server up, a readable row is delivered at some round if and only if fewer than a
      batch of malformed rows precede it. */
  lemma DeliveredIff(readable: string -> bool, rows: seq<Row>, limit: int, replies: nat -> Reply, i: nat)
    requires i < |rows| && !rows[i].delivered && readable(rows[i].content)
    requires forall k :: replies(k) == Accepted
    ensures (exists n :: Rounds(readable, rows, limit, replies, n)[i].delivered) <==>
      (limit < 0 || BadCount(readable, rows[..i]) < limit)
  {
    if limit < 0 || BadCount(readable, rows[..i]) < limit {
      var n := PendingCount(rows[..i]) + 1;
      QueueShrinks(readable, rows, limit, replies, n, i);
      assert Rounds(readable, rows, limit, replies, n)[i].delivered;
    } else {
      forall n: nat ensures !Rounds(readable, rows, limit, replies, n)[i].delivered {
        BadRowsBlock(readable, rows, limit, replies, n, i);
      }
    }
  }

  /** With the server up and nothing malformed, n rounds deliver n batches. */
  lemma {:induction false} RoundsDrain(
    readable: string -> bool, rows: seq<Row>, limit: nat, replies: nat -> Reply, n: nat, delivered: nat)
    requires BadCount(readable, rows) == 0 && (forall k :: replies(k) == Accepted) && delivered == n * limit
    ensures var after := Rounds(readable, rows, limit, replies, n);
      && BadCount(readable, after) == 0
      && PendingCount(after) == if PendingCount(rows) <= delivered then 0 else PendingCount(rows) - delivered
  {
    hide Round, PendingCount, BadCount;
    if n > 0 {
      assert (n - 1) * limit == n * limit - limit;
      RoundsDrain(readable, rows, limit, replies, n - 1, delivered - limit);
      var before := Rounds(readable, rows, limit, replies, n - 1);
      var after := Round(readable, before, limit, Accepted);
      assert before[..|before|] == before && after[..|after|] == after;
      BadStays(readable, before, limit, Accepted, |before|);
      RoundLeaves(readable, before, limit, |before|);
    }
  }

  /** Pending rows over batch size, rounded up. */
  function Batches(pending: nat, limit: int): nat
    requires limit > 0
  {
    (pending + limit - 1) / limit
  }

  lemma BatchesCover(pending: nat, limit: int, k: nat, product: nat)
    requires limit > 0 && product == k * limit
    ensures product >= pending <==> k >= Batches(pending, limit)
  {
    var x := pending + limit - 1;
    RoundedUp(limit, k, product, x / limit, x % limit, limit * (x / limit));
  }

  lemma RoundedUp(d: int, k: nat, kd: int, q: int, r: int, qd: int)
    requires kd == k * d && qd == d * q && 0 <= r < d
    ensures kd >= qd + r - d + 1 <==> k >= q
  {
    SignOfProduct(k - q, d, kd - qd);
  }

  lemma SignOfProduct(z: int, d: int, zd: int)
    requires d > 0 && zd == z * d
    ensures z >= 0 ==> zd >= 0
    ensures z < 0 ==> zd <= -d
  {
    assert z < 0 ==> (-1 - z) * d >= 0;
  }

  lemma DrainedIff(readable: string -> bool, rows: seq<Row>, limit: int, replies: nat -> Reply, n: nat)
    requires BadCount(readable, rows) == 0 && limit > 0 && (forall k :: replies(k) == Accepted)
    ensures PendingCount(Rounds(readable, rows, limit, replies, n)) == 0 <==> n >= Batches(PendingCount(rows), limit)
  {
    hide Batches, Rounds, PendingCount, BadCount;
    RoundsDrain(readable, rows, limit, replies, n, n * limit);
    BatchesCover(PendingCount(rows), limit, n, n * limit);
  }

  /** A loop with the stopping rule of `RunDeliveryLoop` ends after exactly that many rounds, at
      least one, with nothing pending. */
  lemma LoopLength(readable: string -> bool, rows: seq<Row>, limit: int, replies: nat -> Reply, rounds: nat, bound: nat)
    requires BadCount(readable, rows) == 0 && limit > 0 && (forall k :: replies(k) == Accepted)
    requires rounds <= bound && bound > 0 && bound >= Batches(PendingCount(rows), limit)
    requires rounds == bound || (rounds > 0 && PendingCount(Rounds(readable, rows, limit, replies, rounds)) == 0)
    requires AlwaysPending(readable, rows, limit, replies, rounds)
    ensures PendingCount(Rounds(readable, rows, limit, replies, rounds)) == 0
    ensures var needed := Batches(PendingCount(rows), limit); rounds == if needed == 0 then 1 else needed
  {
    var needed := Batches(PendingCount(rows), limit);
    hide Batches, Rounds, PendingCount, BadCount;
    DrainedIff(readable, rows, limit, replies, rounds);
    DrainedIff(readable, rows, limit, replies, needed);
    DrainedIff(readable, rows, limit, replies, 1);
  }

  lemma NoRounds(readable: string -> bool, rows: seq<Row>, limit: int, replies: nat -> Reply)
    ensures Rounds(readable, rows, limit, replies, 0) == rows
    ensures AlwaysPending(readable, rows, limit, replies, 0) && AlwaysPending(readable, rows, limit, replies, 1)
  {
  }

  lemma OneMoreRound(readable: string -> bool, rows: seq<Row>, limit: int, replies: nat -> Reply, n: nat)
    requires n > 0 && AlwaysPending(readable, rows, limit, replies, n)
    ensures var after := Rounds(readable, rows, limit, replies, n);
      && after == Round(readable, Rounds(readable, rows, limit, replies, n - 1), limit, replies(n - 1))
      && (PendingCount(after) > 0 ==> AlwaysPending(readable, rows, limit, replies, n + 1))
  {
    hide Round, PendingCount;
  }

  /** Something is pending after each of the rounds before the n-th. */
  ghost predicate AlwaysPending(readable: string -> bool, rows: seq<Row>, limit: int, replies: nat -> Reply, n: nat) {
    forall k :: 0 < k < n ==> PendingCount(Rounds(readable, rows, limit, replies, k)) > 0
  }

  // ---------------------------------------------------------------------------
  // Whole runs
  // ---------------------------------------------------------------------------

  datatype Command = Enqueue(event: Event) | Deliver(limit: int, reply: Reply)

  function EnqueuedBy(commands: seq<Command>): seq<Event> {
    if commands == [] then []
    else
      EnqueuedBy(commands[..|commands| - 1]) +
        (match commands[|commands| - 1] case Enqueue(e) => [e] case Deliver(_, _) => [])
  }

  /** Any interleaving of enqueues and deliveries, with any losses. */
  method Run(readable: string -> bool, commands: seq<Command>) returns (outbox: Outbox, server: Server)
    ensures outbox.Valid(server) && outbox.readable == readable && outbox.history == EnqueuedBy(commands)
  {
    hide ExactlyOnce, Round, Enqueued;
    outbox := new Outbox(readable);
    server := new Server();
    for k := 0 to |commands|
      invariant outbox.Valid(server) && outbox.readable == readable && fresh(outbox) && fresh(server)
      invariant outbox.history == EnqueuedBy(commands[..k])
    {
      assert commands[..k + 1][..k] == commands[..k];
      match commands[k]
      case Enqueue(e) => var _ := outbox.EnqueueEvent(e, server);
      case Deliver(limit, reply) => var _ := outbox.DeliverOutbox(server, limit, reply);
    }
    assert commands[..|commands|] == commands;
  }

  /** What the invariant says of the server: it holds what was first enqueued under each of its ids,
      once, and everything delivered. */
  lemma ServerHoldsFirsts(readable: string -> bool, rows: seq<Row>, table: seq<Event>, history: seq<Event>, e: Event)
    requires ExactlyOnce(readable, rows, table, history) && e in history && IsFirst(history, e)
    ensures forall x :: x in table && x.id == e.id ==> x == e
    ensures multiset(table)[e] <= 1
    ensures (exists i :: 0 <= i < |rows| && rows[i].eventId == e.id && rows[i].delivered) ==> e in table
  {
    forall i | 0 <= i < |rows| && rows[i].eventId == e.id ensures Fact(rows[i]) == e {
      assert IsFirst(history, Fact(rows[i]));
    }
    forall x | x in table && x.id == e.id ensures x == e {
      assert HasFact(rows, x);
    }
    UniqueCounts(table, e);
  }

  lemma {:induction false} UniqueCounts(table: seq<Event>, e: Event)
    requires UniqueEvents(table)
    ensures multiset(table)[e] <= 1
  {
    if table != [] {
      var rest, last := table[..|table| - 1], table[|table| - 1];
      assert table == rest + [last];
      UniqueCounts(rest, e);
      if last == e {
        assert e !in rest;
        assert multiset(rest)[e] == 0;
      }
    }
  }
}
