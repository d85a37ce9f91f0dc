/** The hash-chained trading event ledger (data/trading_event_ledger.py). The two SHA-256 digests are
    arbitrary functions: what they must not do shows up as an explicit collision. */
module EventLedger {
  import opened Wrappers

  /** The hashed descriptive columns. */
  datatype Facts = Facts(
    eventType: string, timestamp: int, signalId: string, asset: string, strategy: string, config: string,
    model: Option<string>, feature: Option<string>, actor: string, reason: Option<string>,
    groupId: Option<string>, legId: Option<string>,
    source: Option<string>, sourceType: Option<string>, sourceId: Option<string>)

  /** The columns that enter no digest. */
  datatype Unhashed = Unhashed(recordedAt: int, positionTicket: Option<int>, orderTicket: Option<int>)

  datatype Entry = Entry(
    eventId: string, sequence: int, facts: Facts, observed: Option<int>,
    payload: string, payloadHash: string, previous: Option<string>, hash: string, unhashed: Unhashed)

  /** A number as JSON prints it: 5 or 5.0. */
  datatype Number = Whole(n: int) | Floating(n: int)

  /** The canonical JSON object whose digest is the event hash. */
  datatype Material = Material(
    eventId: string, sequence: int, facts: Facts, payloadHash: string, observed: Option<Number>,
    previous: Option<string>)

  datatype Digests = Digests(event: Material -> string, payload: string -> string)

  function Written(x: Option<int>): Option<Number> {
    if x.None? then None else Some(Whole(x.value))
  }

  /** The column as the verifier reads it back: a missing value anywhere turns the integers of the
      column into floats. */
  function ReadBack(x: Option<int>, mixed: bool): Option<Number> {
    if x.None? then None else if mixed then Some(Floating(x.value)) else Some(Whole(x.value))
  }

  predicate Mixed(rows: seq<Entry>) {
    (exists i :: 0 <= i < |rows| && rows[i].observed.None?) && (exists i :: 0 <= i < |rows| && rows[i].observed.Some?)
  }

  function MaterialOf(row: Entry, observed: Option<Number>, previous: Option<string>): Material {
    Material(row.eventId, row.sequence, row.facts, row.payloadHash, observed, previous)
  }

  /** The material of row i as the verifier rebuilds it. */
  function MaterialAt(rows: seq<Entry>, mixed: bool, i: nat): Material
    requires i < |rows|
  {
    MaterialOf(rows[i], ReadBack(rows[i].observed, mixed), HashAt(rows, i))
  }

  /** The hash of the last of the first n rows. */
  function HashAt(rows: seq<Entry>, n: nat): Option<string>
    requires n <= |rows|
  {
    if n == 0 then None else Some(rows[n - 1].hash)
  }

  /** What appending builds: sequence numbers 1..n, each row chained to the one before and hashed as
      written, no id twice. */
  ghost predicate Chained(d: Digests, rows: seq<Entry>) {
    && (forall i :: 0 <= i < |rows| ==> WrittenRightly(d, rows, i))
    && (forall i, j :: 0 <= i < j < |rows| ==> rows[i].eventId != rows[j].eventId)
  }

  ghost predicate WrittenRightly(d: Digests, rows: seq<Entry>, i: nat)
    requires i < |rows|
  {
    && rows[i].sequence == i + 1
    && rows[i].previous == HashAt(rows, i)
    && rows[i].hash == d.event(MaterialOf(rows[i], Written(rows[i].observed), HashAt(rows, i)))
    && rows[i].payloadHash == d.payload(rows[i].payload)
  }

  /** One row passes the verifier. */
  predicate RowPasses(d: Digests, rows: seq<Entry>, mixed: bool, i: nat)
    requires i < |rows|
  {
    && rows[i].previous == HashAt(rows, i)
    && d.event(MaterialAt(rows, mixed, i)) == rows[i].hash
    && d.payload(rows[i].payload) == rows[i].payloadHash
  }

  ghost predicate PrefixPasses(d: Digests, rows: seq<Entry>, mixed: bool, n: nat)
    requires n <= |rows|
  {
    forall i :: 0 <= i < n ==> RowPasses(d, rows, mixed, i)
  }

  ghost predicate Verifies(d: Digests, rows: seq<Entry>) {
    PrefixPasses(d, rows, Mixed(rows), |rows|)
  }

  // ---------------------------------------------------------------------------
  // The ledger
  // ---------------------------------------------------------------------------

  /** What a caller passes. An absent or empty id is replaced by a fresh one, an absent or zero
      timestamp by the clock. */
  datatype Request = Request(
    eventId: Option<string>, facts: Facts, timestamp: Option<int>, observed: Option<int>, payload: string,
    position: Option<int>, order: Option<int>)

  datatype Outcome = Recorded(eventId: string) | Unsupported | HashTaken

  function IdFor(r: Request, freshId: string): string {
    if r.eventId.Some? && r.eventId.value != "" then r.eventId.value else freshId
  }

  function TimestampFor(r: Request, now: int): int {
    if r.timestamp.Some? && r.timestamp.value != 0 then r.timestamp.value else now / 1000
  }

  predicate HasId(rows: seq<Entry>, id: string) {
    exists i :: 0 <= i < |rows| && rows[i].eventId == id
  }

  predicate HasHash(rows: seq<Entry>, hash: string) {
    exists i :: 0 <= i < |rows| && rows[i].hash == hash
  }

  /** The row an accepted request adds after `rows`. */
  function NewEntry(d: Digests, rows: seq<Entry>, r: Request, now: int, freshId: string): Entry {
    var id := IdFor(r, freshId);
    var facts := r.facts.(timestamp := TimestampFor(r, now));
    var sequence := if rows == [] then 1 else rows[|rows| - 1].sequence + 1;
    var previous := HashAt(rows, |rows|);
    var material := Material(id, sequence, facts, d.payload(r.payload), Written(r.observed), previous);
    Entry(id, sequence, facts, r.observed, r.payload, d.payload(r.payload), previous, d.event(material),
      Unhashed(now, r.position, r.order))
  }

  class Ledger {
    const digests: Digests
    const supported: string -> bool
    var rows: seq<Entry>

    ghost predicate Valid()
      reads this
    {
      Chained(digests, rows)
    }

    constructor (digests: Digests, supported: string -> bool)
      ensures Valid() && rows == [] && this.digests == digests && this.supported == supported
    {
      this.digests, this.supported, rows := digests, supported, [];
    }

    method Append(r: Request, now: int, freshId: string) returns (outcome: Outcome)
      requires Valid()
      modifies this
      ensures Valid()
      ensures var id := IdFor(r, freshId);
        var entry := NewEntry(digests, old(rows), r, now, freshId);
        if !supported(r.facts.eventType) then outcome == Unsupported && rows == old(rows)
        else if HasId(old(rows), id) then outcome == Recorded(id) && rows == old(rows)
        else if HasHash(old(rows), entry.hash) then outcome == HashTaken && rows == old(rows)
        else outcome == Recorded(id) && rows == old(rows) + [entry]
    {
      if !supported(r.facts.eventType) {
        return Unsupported;
      }
      var id := IdFor(r, freshId);
      if HasId(rows, id) {
        return Recorded(id);
      }
      var entry := NewEntry(digests, rows, r, now, freshId);
      if HasHash(rows, entry.hash) {
        return HashTaken;
      }
      AppendKeeps(digests, rows, r, now, freshId);
      rows := rows + [entry];
      outcome := Recorded(id);
    }

    method VerifyChain() returns (ok: bool)
      ensures ok <==> Verifies(digests, rows)
    {
      hide MaterialOf, ReadBack, Mixed;
      var mixed := Mixed(rows);
      var previous := None;
      for i := 0 to |rows|
        invariant PrefixPasses(digests, rows, mixed, i) && previous == HashAt(rows, i)
      {
        var row := rows[i];
        if row.previous != previous {
          assert !RowPasses(digests, rows, mixed, i);
          return false;
        }
        var expected := digests.event(MaterialOf(row, ReadBack(row.observed, mixed), previous));
        if expected != row.hash || digests.payload(row.payload) != row.payloadHash {
          assert !RowPasses(digests, rows, mixed, i);
          return false;
        }
        previous := Some(row.hash);
      }
      ok := true;
    }
  }

  lemma AppendKeeps(d: Digests, rows: seq<Entry>, r: Request, now: int, freshId: string)
    requires Chained(d, rows) && !HasId(rows, IdFor(r, freshId))
    ensures Chained(d, rows + [NewEntry(d, rows, r, now, freshId)])
  {
    var entry := NewEntry(d, rows, r, now, freshId);
    assert rows != [] ==> WrittenRightly(d, rows, |rows| - 1);
    assert entry.sequence == |rows| + 1 && entry.eventId == IdFor(r, freshId);
    assert entry.hash == d.event(MaterialOf(entry, Written(entry.observed), HashAt(rows, |rows|)));
    assert entry.previous == HashAt(rows, |rows|) && entry.payloadHash == d.payload(entry.payload);
    hide NewEntry, MaterialOf, Written;
    ExtendKeeps(d, rows, entry);
  }

  lemma ExtendKeeps(d: Digests, rows: seq<Entry>, entry: Entry)
    requires Chained(d, rows) && !HasId(rows, entry.eventId)
    requires WrittenRightly(d, rows + [entry], |rows|)
    ensures Chained(d, rows + [entry])
  {
    var after := rows + [entry];
    forall i | 0 <= i < |rows| ensures WrittenRightly(d, after, i) {
      assert WrittenRightly(d, rows, i) && HashAt(after, i) == HashAt(rows, i);
    }
  }

  /** Any sequence of appends, from an empty ledger. */
  method Run(d: Digests, supported: string -> bool, requests: seq<(Request, int, string)>) returns (ledger: Ledger)
    ensures ledger.Valid() && ledger.digests == d
  {
    ledger := new Ledger(d, supported);
    for k := 0 to |requests|
      invariant ledger.Valid() && ledger.digests == d && fresh(ledger)
    {
      var _ := ledger.Append(requests[k].0, requests[k].1, requests[k].2);
    }
  }

  // ---------------------------------------------------------------------------
  // When an honest ledger verifies
  // ---------------------------------------------------------------------------

  /** Printing an observation time as an integer or as a float gives digests that differ. */
  ghost predicate PrintsApart(d: Digests, rows: seq<Entry>) {
    forall i :: 0 <= i < |rows| ==> PrintedApart(d, rows, i)
  }

  ghost predicate PrintedApart(d: Digests, rows: seq<Entry>, i: nat)
    requires i < |rows|
  {
    rows[i].observed.Some? ==> d.event(MaterialAt(rows, false, i)) != d.event(MaterialAt(rows, true, i))
  }

  /** A ledger built by appends verifies exactly when its observation times are all present or all
      absent, short of a collision between the two printings of one row. */
  lemma HonestLedgerVerifiesIff(d: Digests, rows: seq<Entry>)
    requires Chained(d, rows) && PrintsApart(d, rows)
    ensures Verifies(d, rows) <==> !Mixed(rows)
  {
    if Mixed(rows) {
      var i :| 0 <= i < |rows| && rows[i].observed.Some?;
      assert WrittenRightly(d, rows, i) && PrintedApart(d, rows, i);
      assert !RowPasses(d, rows, true, i);
    } else {
      UniformLedgerVerifies(d, rows);
    }
  }

  /** Whatever the digests. */
  lemma UniformLedgerVerifies(d: Digests, rows: seq<Entry>)
    requires Chained(d, rows) && !Mixed(rows)
    ensures Verifies(d, rows)
  {
    forall i | 0 <= i < |rows| ensures RowPasses(d, rows, false, i) {
      assert WrittenRightly(d, rows, i);
    }
  }

  /** Two honest appends whose ledger is reported broken. */
  lemma MixedLedgerIsReportedBroken(d: Digests, r: Request, now: int, id: string, other: string)
    requires id != other && r.eventId.None?
    ensures var one := [NewEntry(d, [], r.(observed := Some(5)), now, id)];
      var two := one + [NewEntry(d, one, r.(observed := None), now, other)];
      Chained(d, two) && (PrintsApart(d, two) ==> !Verifies(d, two))
  {
    AppendKeeps(d, [], r.(observed := Some(5)), now, id);
    var one := [NewEntry(d, [], r.(observed := Some(5)), now, id)];
    assert [] + one == one;
    AppendKeeps(d, one, r.(observed := None), now, other);
    var two := one + [NewEntry(d, one, r.(observed := None), now, other)];
    assert two[0].observed.Some? && two[1].observed.None?;
    if PrintsApart(d, two) {
      HonestLedgerVerifiesIff(d, two);
    }
  }

  // ---------------------------------------------------------------------------
  // Tamper evidence
  // ---------------------------------------------------------------------------

  /** The rows agree on everything but the unhashed columns. */
  ghost predicate Agree(x: Entry, y: Entry) {
    x == y.(unhashed := x.unhashed)
  }

  /** No collision among the digests the verifier computes for the two ledgers. */
  ghost predicate NoCollision(d: Digests, a: seq<Entry>, b: seq<Entry>) {
    forall i, j :: 0 <= i < |a| && 0 <= j < |b| ==> KeptApart(d, a, b, i, j)
  }

  ghost predicate KeptApart(d: Digests, a: seq<Entry>, b: seq<Entry>, i: nat, j: nat)
    requires i < |a| && j < |b|
  {
    && (d.event(MaterialAt(a, Mixed(a), i)) == d.event(MaterialAt(b, Mixed(b), j)) ==>
      MaterialAt(a, Mixed(a), i) == MaterialAt(b, Mixed(b), j))
    && (d.payload(a[i].payload) == d.payload(b[j].payload) ==> a[i].payload == b[j].payload)
  }

  lemma {:induction false} PrefixesAgree(d: Digests, a: seq<Entry>, b: seq<Entry>, n: nat, m: nat)
    requires n <= |a| && m <= |b| && PrefixPasses(d, a, Mixed(a), n) && PrefixPasses(d, b, Mixed(b), m)
    requires HashAt(a, n) == HashAt(b, m) && NoCollision(d, a, b)
    ensures n == m && forall i :: 0 <= i < n ==> Agree(a[i], b[i])
  {
    hide Mixed;
    if n > 0 && m > 0 {
      assert RowPasses(d, a, Mixed(a), n - 1) && RowPasses(d, b, Mixed(b), m - 1) && KeptApart(d, a, b, n - 1, m - 1);
      assert MaterialAt(a, Mixed(a), n - 1) == MaterialAt(b, Mixed(b), m - 1);
      assert a[n - 1].payload == b[m - 1].payload;
      PrefixesAgree(d, a, b, n - 1, m - 1);
    }
  }

  /** Two ledgers that verify and end in the same hash agree on their length and on every hashed
      column and payload of every row. */
  lemma LastHashDeterminesLedger(d: Digests, a: seq<Entry>, b: seq<Entry>)
    requires Verifies(d, a) && Verifies(d, b) && HashAt(a, |a|) == HashAt(b, |b|) && NoCollision(d, a, b)
    ensures |a| == |b| && forall i :: 0 <= i < |a| ==> Agree(a[i], b[i])
  {
    PrefixesAgree(d, a, b, |a|, |b|);
  }

  /** So an edit of any hashed column or payload that keeps the last hash is caught; an edit of the
      other columns never is. */
  lemma EditIsCaughtIff(d: Digests, rows: seq<Entry>, i: nat, edited: Entry)
    requires Verifies(d, rows) && i < |rows| && NoCollision(d, rows, rows[i := edited])
    requires i == |rows| - 1 ==> edited.hash == rows[i].hash
    ensures !Verifies(d, rows[i := edited]) <==> !Agree(rows[i], edited)
  {
    var after := rows[i := edited];
    assert HashAt(after, |after|) == HashAt(rows, |rows|);
    hide Verifies, NoCollision, HashAt;
    if Agree(rows[i], edited) {
      SameButUnhashed(d, rows, after);
    } else if Verifies(d, after) {
      LastHashDeterminesLedger(d, rows, after);
    }
  }

  lemma SameButUnhashed(d: Digests, a: seq<Entry>, b: seq<Entry>)
    requires Verifies(d, a) && |a| == |b| && forall i :: 0 <= i < |a| ==> Agree(a[i], b[i])
    ensures Verifies(d, b)
  {
    assert forall i :: 0 <= i < |a| ==> a[i].observed == b[i].observed by {
      assert forall i :: 0 <= i < |a| ==> Agree(a[i], b[i]);
    }
    assert Mixed(a) == Mixed(b);
    forall i | 0 <= i < |b| ensures RowPasses(d, b, Mixed(b), i) {
      assert RowPasses(d, a, Mixed(a), i) && Agree(a[i], b[i]) && HashAt(a, i) == HashAt(b, i);
    }
  }
}
