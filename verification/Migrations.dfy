/** The migration runners (data/migrate.py). A schema is a value and a migration a function on it;
    every migration and its record are committed together or rolled back together. */
module Migrations {
  import opened Wrappers

  datatype Schema = Schema(objects: seq<string>)

  datatype Migration = Migration(version: int, name: string, apply: Schema -> Schema)

  // ---------------------------------------------------------------------------
  // Order
  // ---------------------------------------------------------------------------

  function Insert(m: Migration, rest: seq<Migration>): seq<Migration> {
    if rest == [] || m.version < rest[0].version then [m] + rest else [rest[0]] + Insert(m, rest[1..])
  }

  /** Stable sort by version. */
  function SortByVersion(ms: seq<Migration>): seq<Migration> {
    if ms == [] then [] else Insert(ms[|ms| - 1], SortByVersion(ms[..|ms| - 1]))
  }

  ghost predicate Ordered(ms: seq<Migration>) {
    forall i, j :: 0 <= i < j < |ms| ==> ms[i].version < ms[j].version
  }

  ghost predicate DistinctVersions(ms: seq<Migration>) {
    forall i, j :: 0 <= i < j < |ms| ==> ms[i].version != ms[j].version
  }

  lemma {:induction false} InsertIs(m: Migration, rest: seq<Migration>)
    requires Ordered(rest) && forall x :: x in rest ==> x.version != m.version
    ensures Ordered(Insert(m, rest)) && forall x :: x in Insert(m, rest) <==> x == m || x in rest
  {
    if rest != [] && m.version >= rest[0].version {
      var head, tail := rest[0], rest[1..];
      assert rest == [head] + tail;
      assert Ordered(tail) && forall x :: x in tail ==> head.version < x.version;
      hide Ordered;
      InsertIs(m, tail);
      ConsIsOrdered(head, Insert(m, tail));
    } else {
      ConsIsOrdered(m, rest);
    }
  }

  lemma ConsIsOrdered(head: Migration, tail: seq<Migration>)
    requires Ordered(tail) && forall x :: x in tail ==> head.version < x.version
    ensures Ordered([head] + tail)
  {
    forall i, j | 0 <= i < j < |[head] + tail| ensures ([head] + tail)[i].version < ([head] + tail)[j].version {
      assert tail[j - 1] in tail;
    }
  }

  lemma {:induction false} SortIs(ms: seq<Migration>)
    requires DistinctVersions(ms)
    ensures Ordered(SortByVersion(ms)) && forall x :: x in SortByVersion(ms) <==> x in ms
  {
    if ms != [] {
      var rest, last := ms[..|ms| - 1], ms[|ms| - 1];
      assert ms == rest + [last];
      SortIs(rest);
      InsertIs(last, SortByVersion(rest));
    }
  }

  /** An ordered list is determined by its members. */
  lemma {:induction false} OrderIsUnique(a: seq<Migration>, b: seq<Migration>)
    requires Ordered(a) && Ordered(b) && forall x :: x in a <==> x in b
    ensures a == b
  {
    BothEmpty(a, b);
    if a != [] && b != [] {
      SameHead(a, b);
      TailMembers(a, b);
      OrderIsUnique(a[1..], b[1..]);
      assert a == [a[0]] + a[1..] && b == [b[0]] + b[1..];
    }
  }

  lemma BothEmpty(a: seq<Migration>, b: seq<Migration>)
    requires forall x :: x in a <==> x in b
    ensures a == [] <==> b == []
  {
    if a != [] {
      assert a[0] in a;
    }
    if b != [] {
      assert b[0] in b;
    }
  }

  lemma SameHead(a: seq<Migration>, b: seq<Migration>)
    requires a != [] && b != [] && Ordered(a) && Ordered(b) && forall x :: x in a <==> x in b
    ensures a[0] == b[0]
  {
    assert a[0] in b && b[0] in a;
  }

  lemma TailMembers(a: seq<Migration>, b: seq<Migration>)
    requires a != [] && b != [] && Ordered(a) && Ordered(b) && a[0] == b[0] && forall x :: x in a <==> x in b
    ensures Ordered(a[1..]) && Ordered(b[1..]) && forall x :: x in a[1..] <==> x in b[1..]
  {
    forall x ensures x in a[1..] <==> x in b[1..] {
      InTail(a, x);
      InTail(b, x);
    }
  }

  lemma InTail(a: seq<Migration>, x: Migration)
    requires a != [] && Ordered(a)
    ensures x in a[1..] <==> x in a && x != a[0]
  {
    assert a == [a[0]] + a[1..];
    assert forall j :: 0 <= j < |a[1..]| ==> a[1..][j].version > a[0].version;
  }

  // ---------------------------------------------------------------------------
  // Progress through a plan
  // ---------------------------------------------------------------------------

  /** The schema after the first k migrations of a plan. */
  function Built(start: Schema, plan: seq<Migration>, k: nat): Schema
    requires k <= |plan|
  {
    if k == 0 then start else plan[k - 1].apply(Built(start, plan, k - 1))
  }

  function Versions(ms: seq<Migration>): (v: seq<int>)
    ensures |v| == |ms| && forall i :: 0 <= i < |ms| ==> v[i] == ms[i].version
  {
    seq(|ms|, i requires 0 <= i < |ms| => ms[i].version)
  }

  /** Where a run that starts at step k and can perform `works` gets to. */
  function Reach(plan: seq<Migration>, works: int -> bool, k: nat): (end: nat)
    requires k <= |plan|
    ensures k <= end <= |plan|
    ensures forall i :: k <= i < end ==> works(plan[i].version)
    ensures end < |plan| ==> !works(plan[end].version)
    decreases |plan| - k
  {
    if k == |plan| || !works(plan[k].version) then k else Reach(plan, works, k + 1)
  }

  /** The same when the list may repeat a version: its second record is refused. */
  function ReachFresh(plan: seq<Migration>, works: int -> bool, k: nat): (end: nat)
    requires k <= |plan|
    ensures k <= end <= |plan|
    decreases |plan| - k
  {
    if k == |plan| || !works(plan[k].version) || plan[k].version in Versions(plan[..k]) then k
      else ReachFresh(plan, works, k + 1)
  }

  /** An ordered plan repeats nothing. */
  lemma {:induction false} OrderedReach(plan: seq<Migration>, works: int -> bool, k: nat)
    requires Ordered(plan) && k <= |plan|
    ensures ReachFresh(plan, works, k) == Reach(plan, works, k)
    decreases |plan| - k
  {
    if k < |plan| {
      assert forall j :: 0 <= j < k ==> plan[..k][j] == plan[j];
      OrderedReach(plan, works, k + 1);
    }
  }

  /** A version that comes a second time stops the run. */
  lemma {:induction false} RepeatStops(plan: seq<Migration>, works: int -> bool, k: nat, i: nat, j: nat)
    requires k <= j && i < j < |plan| && plan[i].version == plan[j].version
    ensures ReachFresh(plan, works, k) <= j
    decreases |plan| - k
  {
    if k < j {
      RepeatStops(plan, works, k + 1, i, j);
    } else {
      assert Versions(plan[..j])[i] == plan[j].version;
    }
  }

  /** Migrations whose version is not recorded. */
  function Unrecorded(ms: seq<Migration>, recorded: seq<int>): (pending: seq<Migration>) {
    if ms == [] then []
    else
      var rest := Unrecorded(ms[..|ms| - 1], recorded);
      if ms[|ms| - 1].version in recorded then rest else rest + [ms[|ms| - 1]]
  }

  lemma {:induction false} UnrecordedIs(ms: seq<Migration>, recorded: seq<int>)
    requires DistinctVersions(ms)
    ensures DistinctVersions(Unrecorded(ms, recorded))
    ensures forall x :: x in Unrecorded(ms, recorded) <==> x in ms && x.version !in recorded
  {
    if ms != [] {
      var rest, last := ms[..|ms| - 1], ms[|ms| - 1];
      assert ms == rest + [last];
      UnrecordedIs(rest, recorded);
      var kept := Unrecorded(rest, recorded);
      forall j | 0 <= j < |kept| ensures kept[j].version != last.version {
        assert kept[j] in kept && kept[j] in rest;
      }
    }
  }

  /** After k steps what is left to do is the rest of the plan. */
  lemma PendingIsRest(ms: seq<Migration>, plan: seq<Migration>, recorded: seq<int>, k: nat)
    requires DistinctVersions(ms) && plan == SortByVersion(ms) && k <= |plan| && recorded == Versions(plan[..k])
    ensures SortByVersion(Unrecorded(ms, recorded)) == plan[k..]
  {
    var pending := Unrecorded(ms, recorded);
    SortIs(ms);
    UnrecordedIs(ms, recorded);
    SortIs(pending);
    hide SortByVersion, Unrecorded;
    forall x ensures x in plan[k..] <==> x in plan && x.version !in recorded {
      RestIsUnrecorded(plan, k, x);
    }
    assert Ordered(plan[k..]);
    OrderIsUnique(SortByVersion(pending), plan[k..]);
  }

  lemma RestIsUnrecorded(plan: seq<Migration>, k: nat, x: Migration)
    requires Ordered(plan) && k <= |plan|
    ensures x in plan[k..] <==> x in plan && x.version !in Versions(plan[..k])
  {
    if x in plan {
      var i :| 0 <= i < |plan| && plan[i] == x;
      if i < k {
        assert plan[..k][i] == x && Versions(plan[..k])[i] == x.version;
        assert forall j :: 0 <= j < |plan[k..]| ==> plan[k..][j] == plan[k + j];
      } else {
        assert plan[k..][i - k] == x;
        assert forall j :: 0 <= j < k ==> plan[..k][j] == plan[j];
      }
    }
  }

  // ---------------------------------------------------------------------------
  // The global runner
  // ---------------------------------------------------------------------------

  class Database {
    var schema: Schema
    var recorded: seq<int>      // schema_migrations, in order of insertion

    /** Exactly the first k migrations of the plan are recorded and built. */
    ghost predicate AtStep(start: Schema, plan: seq<Migration>, k: nat)
      reads this
    {
      k <= |plan| && recorded == Versions(plan[..k]) && schema == Built(start, plan, k)
    }

    constructor (schema: Schema)
      ensures this.schema == schema && recorded == []
    {
      this.schema, recorded := schema, [];
    }

    /** One migration in its own transaction: effect and record, or neither. */
    method ApplyOne(m: Migration, works: int -> bool) returns (ok: bool)
      modifies this
      ensures ok == (works(m.version) && m.version !in old(recorded))
      ensures ok ==> schema == m.apply(old(schema)) && recorded == old(recorded) + [m.version]
      ensures !ok ==> schema == old(schema) && recorded == old(recorded)
    {
      ok := works(m.version) && m.version !in recorded;
      if ok {
        schema, recorded := m.apply(schema), recorded + [m.version];
      }
    }

    /** Applies what is not recorded, in version order, until one fails or repeats a version. */
    method ApplyMigrations(ms: seq<Migration>, dryRun: bool, works: int -> bool)
      returns (applied: seq<Migration>, raised: bool)
      modifies this
      ensures dryRun ==> applied == [] && !raised && schema == old(schema) && recorded == old(recorded)
      ensures !dryRun ==> var todo := SortByVersion(Unrecorded(ms, old(recorded)));
        var end := ReachFresh(todo, works, 0);
        && schema == Built(old(schema), todo, end) && recorded == old(recorded) + Versions(todo[..end])
        && applied == todo[..end] && raised == (end < |todo|)
      ensures DistinctVersions(ms) ==> var todo := SortByVersion(Unrecorded(ms, old(recorded)));
        ReachFresh(todo, works, 0) == Reach(todo, works, 0)
    {
      hide SortByVersion, Unrecorded, ReachFresh, Built;
      if DistinctVersions(ms) {
        TodoIsOrdered(ms, recorded);
        OrderedReach(SortByVersion(Unrecorded(ms, recorded)), works, 0);
      }
      var pending := Unrecorded(ms, recorded);
      applied, raised := [], false;
      if dryRun {
        return;
      }
      var todo := SortByVersion(pending);
      TodoIsFresh(ms, recorded);
      FreshStep(schema, todo);
      for i := 0 to |todo|
        invariant schema == Built(old(schema), todo, i) && recorded == old(recorded) + Versions(todo[..i]) &&
          applied == todo[..i]
        invariant ReachFresh(todo, works, 0) == ReachFresh(todo, works, i)
      {
        OneStep(old(schema), todo, works, i);
        assert todo[i] in todo;
        var ok := ApplyOne(todo[i], works);
        if !ok {
          raised := true;
          return;
        }
        applied := applied + [todo[i]];
      }
      FreshEnd(todo, works);
    }
  }

  lemma TodoIsOrdered(ms: seq<Migration>, recorded: seq<int>)
    requires DistinctVersions(ms)
    ensures Ordered(SortByVersion(Unrecorded(ms, recorded)))
  {
    UnrecordedIs(ms, recorded);
    SortIs(Unrecorded(ms, recorded));
  }

  lemma TodoIsFresh(ms: seq<Migration>, recorded: seq<int>)
    ensures forall x :: x in SortByVersion(Unrecorded(ms, recorded)) ==> x.version !in recorded
  {
    UnrecordedIsFresh(ms, recorded);
    SortHolds(Unrecorded(ms, recorded));
  }

  lemma {:induction false} UnrecordedIsFresh(ms: seq<Migration>, recorded: seq<int>)
    ensures forall x :: x in Unrecorded(ms, recorded) ==> x.version !in recorded
  {
    if ms != [] {
      UnrecordedIsFresh(ms[..|ms| - 1], recorded);
    }
  }

  lemma {:induction false} SortHolds(ms: seq<Migration>)
    ensures forall x :: x in SortByVersion(ms) ==> x in ms
  {
    if ms != [] {
      SortHolds(ms[..|ms| - 1]);
      InsertHolds(ms[|ms| - 1], SortByVersion(ms[..|ms| - 1]));
    }
  }

  lemma {:induction false} InsertHolds(m: Migration, rest: seq<Migration>)
    ensures forall x :: x in Insert(m, rest) ==> x == m || x in rest
  {
    if rest != [] && m.version >= rest[0].version {
      InsertHolds(m, rest[1..]);
    }
  }

  /** Continuing after k steps is the rest of one long run. */
  lemma RestOfPlan(start: Schema, plan: seq<Migration>, works: int -> bool, k: nat)
    requires k <= |plan|
    ensures var end := Reach(plan, works, k);
      && Reach(plan[k..], works, 0) == end - k
      && Built(Built(start, plan, k), plan[k..], end - k) == Built(start, plan, end)
      && Versions(plan[..k]) + Versions(plan[k..][..end - k]) == Versions(plan[..end])
  {
    ReachShifts(plan, works, k, k);
    BuiltShifts(start, plan, k, Reach(plan, works, k) - k);
  }

  lemma {:induction false} ReachShifts(plan: seq<Migration>, works: int -> bool, k: nat, j: nat)
    requires k <= j <= |plan|
    ensures Reach(plan[k..], works, j - k) == Reach(plan, works, j) - k
    decreases |plan| - j
  {
    if j < |plan| {
      ReachShifts(plan, works, k, j + 1);
      assert plan[k..][j - k] == plan[j];
    }
  }

  lemma {:induction false} BuiltShifts(start: Schema, plan: seq<Migration>, k: nat, j: nat)
    requires k + j <= |plan|
    ensures Built(Built(start, plan, k), plan[k..], j) == Built(start, plan, k + j)
  {
    if j > 0 {
      BuiltShifts(start, plan, k, j - 1);
      assert plan[k..][j - 1] == plan[k + j - 1];
    }
  }

  lemma ReachEnd(plan: seq<Migration>, works: int -> bool)
    ensures Reach(plan, works, |plan|) == |plan|
  {
  }

  lemma FreshEnd(plan: seq<Migration>, works: int -> bool)
    ensures ReachFresh(plan, works, |plan|) == |plan|
  {
  }

  lemma OneStep(start: Schema, plan: seq<Migration>, works: int -> bool, k: nat)
    requires k < |plan|
    ensures Versions(plan[..k + 1]) == Versions(plan[..k]) + [plan[k].version]
    ensures Built(start, plan, k + 1) == plan[k].apply(Built(start, plan, k))
    ensures ReachFresh(plan, works, k) ==
      if works(plan[k].version) && plan[k].version !in Versions(plan[..k]) then ReachFresh(plan, works, k + 1) else k
  {
  }

  lemma NextStep(start: Schema, plan: seq<Migration>, works: int -> bool, k: nat)
    requires Ordered(plan) && k < |plan|
    ensures plan[k].version !in Versions(plan[..k]) &&
      Versions(plan[..k + 1]) == Versions(plan[..k]) + [plan[k].version]
    ensures Built(start, plan, k + 1) == plan[k].apply(Built(start, plan, k))
    ensures Reach(plan, works, k) == if works(plan[k].version) then Reach(plan, works, k + 1) else k
  {
    assert forall j :: 0 <= j < k ==> plan[..k][j] == plan[j];
  }

  /** Any sequence of runs on a fresh database, each failing wherever it does: what is recorded is a
      prefix of the sorted plan and the schema is the fold of exactly that prefix; the first run that
      does not fail has reached the schema of one clean run. */
  method Converge(ms: seq<Migration>, start: Schema, runs: seq<int -> bool>) returns (db: Database, failed: bool)
    requires DistinctVersions(ms)
    ensures exists k: nat :: k <= |ms| && db.AtStep(start, SortByVersion(ms), k)
    ensures runs != [] && !failed ==> db.AtStep(start, SortByVersion(ms), |ms|)
  {
    SortLength(ms);
    hide SortByVersion, Built;
    db := new Database(start);
    failed := true;
    ghost var k: nat := 0;
    assert db.AtStep(start, SortByVersion(ms), 0) by { FreshStep(start, SortByVersion(ms)); }
    for i := 0 to |runs|
      invariant fresh(db) && db.AtStep(start, SortByVersion(ms), k)
      invariant i > 0 && !failed ==> k == |SortByVersion(ms)|
    {
      PendingIsRest(ms, SortByVersion(ms), db.recorded, k);
      RestOfPlan(start, SortByVersion(ms), runs[i], k);
      var applied;
      applied, failed := db.ApplyMigrations(ms, false, runs[i]);
      k := Reach(SortByVersion(ms), runs[i], k);
    }
  }

  lemma FreshStep(start: Schema, plan: seq<Migration>)
    ensures Built(start, plan, 0) == start && Versions(plan[..0]) == []
  {
  }

  lemma {:induction false} SortLength(ms: seq<Migration>)
    ensures |SortByVersion(ms)| == |ms|
  {
    if ms != [] {
      SortLength(ms[..|ms| - 1]);
      InsertLength(ms[|ms| - 1], SortByVersion(ms[..|ms| - 1]));
    }
  }

  lemma {:induction false} InsertLength(m: Migration, rest: seq<Migration>)
    ensures |Insert(m, rest)| == |rest| + 1
  {
    if rest != [] && m.version >= rest[0].version {
      InsertLength(m, rest[1..]);
    }
  }

  // ---------------------------------------------------------------------------
  // The per-table runner
  // ---------------------------------------------------------------------------

  /** Migrations above the watermark and up to the target. */
  function Above(ms: seq<Migration>, version: int, target: Option<int>): (pending: seq<Migration>) {
    if ms == [] then []
    else
      var rest, last := Above(ms[..|ms| - 1], version, target), ms[|ms| - 1];
      if last.version > version && (target.None? || last.version <= target.value) then rest + [last] else rest
  }

  lemma {:induction false} AboveIs(ms: seq<Migration>, version: int, target: Option<int>)
    requires DistinctVersions(ms)
    ensures DistinctVersions(Above(ms, version, target))
    ensures forall x :: x in Above(ms, version, target) <==>
      x in ms && x.version > version && (target.None? || x.version <= target.value)
  {
    if ms != [] {
      var rest, last := ms[..|ms| - 1], ms[|ms| - 1];
      assert ms == rest + [last];
      AboveIs(rest, version, target);
      var kept := Above(rest, version, target);
      forall j | 0 <= j < |kept| ensures kept[j].version != last.version {
        assert kept[j] in kept && kept[j] in rest;
      }
    }
  }

  /** The sorted migrations the runner is ever allowed to apply up to a target. */
  function Plan(ms: seq<Migration>, target: Option<int>): seq<Migration> {
    SortByVersion(Above(ms, 0, target))
  }

  /** The watermark after k steps. */
  function Watermark(plan: seq<Migration>, k: nat): int
    requires k <= |plan|
  {
    if k == 0 then 0 else plan[k - 1].version
  }

  lemma TablePendingIsRest(ms: seq<Migration>, target: Option<int>, k: nat)
    requires DistinctVersions(ms) && k <= |Plan(ms, target)|
    ensures SortByVersion(Above(ms, Watermark(Plan(ms, target), k), target)) == Plan(ms, target)[k..]
  {
    var plan := Plan(ms, target);
    var version := Watermark(plan, k);
    var pending := Above(ms, version, target);
    AboveIs(ms, 0, target);
    AboveIs(ms, version, target);
    SortIs(Above(ms, 0, target));
    SortIs(pending);
    hide SortByVersion, Above;
    assert version >= 0 by { assert k > 0 ==> plan[k - 1] in plan; }
    forall x ensures x in plan[k..] <==> x in plan && x.version > version {
      RestIsAbove(plan, k, x);
    }
    assert Ordered(plan[k..]);
    OrderIsUnique(SortByVersion(pending), plan[k..]);
  }

  lemma RestIsAbove(plan: seq<Migration>, k: nat, x: Migration)
    requires Ordered(plan) && k <= |plan| && (forall y :: y in plan ==> y.version > 0)
    ensures x in plan[k..] <==> x in plan && x.version > Watermark(plan, k)
  {
    assert forall j :: 0 <= j < |plan[k..]| ==> plan[k..][j] == plan[k + j];
    if x in plan {
      var i :| 0 <= i < |plan| && plan[i] == x;
      assert i >= k ==> plan[k..][i - k] == x;
    }
  }

  class Table {
    var schema: Schema
    var version: int      // 0 without a table_versions row

    ghost predicate AtStep(start: Schema, plan: seq<Migration>, k: nat)
      reads this
    {
      k <= |plan| && version == Watermark(plan, k) && schema == Built(start, plan, k)
    }

    constructor (schema: Schema)
      ensures this.schema == schema && version == 0
    {
      this.schema, version := schema, 0;
    }

    /** Applies what is above the watermark, in version order, until one fails. */
    method MigrateTable(ms: seq<Migration>, target: Option<int>, dryRun: bool, works: int -> bool)
      returns (applied: seq<Migration>, raised: bool)
      requires DistinctVersions(ms)
      modifies this
      ensures dryRun ==> applied == [] && !raised && schema == old(schema) && version == old(version)
      ensures !dryRun ==> var todo := SortByVersion(Above(ms, old(version), target));
        var end := Reach(todo, works, 0);
        && schema == Built(old(schema), todo, end) &&
          version == (if end == 0 then old(version) else todo[end - 1].version)
        && applied == todo[..end] && raised == (end < |todo|)
    {
      hide SortByVersion, Above, Reach, Built;
      var pending := Above(ms, version, target);
      applied, raised := [], false;
      if dryRun {
        return;
      }
      var todo := SortByVersion(pending);
      assert Ordered(todo) by { AboveIs(ms, version, target); SortIs(pending); }
      FreshStep(schema, todo);
      for i := 0 to |todo|
        invariant schema == Built(old(schema), todo, i) && applied == todo[..i]
        invariant version == if i == 0 then old(version) else todo[i - 1].version
        invariant Reach(todo, works, 0) == Reach(todo, works, i)
      {
        NextStep(old(schema), todo, works, i);
        if !works(todo[i].version) {
          raised := true;
          return;
        }
        schema, version := todo[i].apply(schema), todo[i].version;
        applied := applied + [todo[i]];
      }
      ReachEnd(todo, works);
    }
  }

  /** The same convergence for the watermark runner, towards the migrations up to its target. */
  method ConvergeTable(ms: seq<Migration>, target: Option<int>, start: Schema, runs: seq<int -> bool>)
    returns (t: Table, failed: bool)
    requires DistinctVersions(ms)
    ensures exists k: nat :: k <= |Plan(ms, target)| && t.AtStep(start, Plan(ms, target), k)
    ensures runs != [] && !failed ==> t.AtStep(start, Plan(ms, target), |Plan(ms, target)|)
  {
    hide SortByVersion, Built, Plan;
    t := new Table(start);
    failed := true;
    ghost var k: nat := 0;
    assert t.AtStep(start, Plan(ms, target), 0) by { FreshStep(start, Plan(ms, target)); }
    for i := 0 to |runs|
      invariant fresh(t) && t.AtStep(start, Plan(ms, target), k)
      invariant i > 0 && !failed ==> k == |Plan(ms, target)|
    {
      TablePendingIsRest(ms, target, k);
      RestOfPlan(start, Plan(ms, target), runs[i], k);
      var applied;
      applied, failed := t.MigrateTable(ms, target, false, runs[i]);
      k := Reach(Plan(ms, target), runs[i], k);
    }
  }

  /** With positive versions and no target both runners follow the same plan. */
  lemma RunnersAgree(ms: seq<Migration>)
    requires DistinctVersions(ms)
    ensures Plan(ms, None) == SortByVersion(ms) <==> forall m :: m in ms ==> m.version > 0
  {
    AboveIs(ms, 0, None);
    SortIs(ms);
    SortIs(Above(ms, 0, None));
    hide SortByVersion, Above;
    if forall m :: m in ms ==> m.version > 0 {
      OrderIsUnique(Plan(ms, None), SortByVersion(ms));
    }
  }

  /** A migration added below the watermark. However often the runners are started afterwards, and
      wherever they fail, the table runner never applies it; the global runner has applied it once
      one of its runs did not fail. */
  method LateMigration(
    t: Table, db: Database, ms: seq<Migration>, late: Migration, target: Option<int>, runs: seq<int -> bool>)
    returns (byTable: seq<Migration>, byGlobal: seq<Migration>, settled: bool)
    requires DistinctVersions(ms) && late in ms && late.version <= t.version && late.version !in db.recorded
    modifies t, db
    ensures late !in byTable && late.version <= t.version
    ensures settled ==> late in byGlobal && late.version in db.recorded
    ensures late in byGlobal <==> late.version in db.recorded
  {
    byTable, byGlobal, settled := [], [], false;
    for i := 0 to |runs|
      invariant late !in byTable && late.version <= t.version
      invariant settled ==> late in byGlobal
      invariant late in byGlobal <==> late.version in db.recorded
    {
      var applied, raised := TableRun(t, ms, target, runs[i]);
      byTable := byTable + applied;
      applied, raised := GlobalRun(db, ms, late, runs[i]);
      byGlobal := byGlobal + applied;
      settled := settled || !raised;
    }
  }

  /** One run of the table runner only goes up from its watermark. */
  method TableRun(t: Table, ms: seq<Migration>, target: Option<int>, works: int -> bool)
    returns (applied: seq<Migration>, raised: bool)
    requires DistinctVersions(ms)
    modifies t
    ensures old(t.version) <= t.version && forall m :: m in applied ==> old(t.version) < m.version
  {
    var todo := SortByVersion(Above(ms, t.version, target));
    AboveIs(ms, t.version, target);
    SortIs(Above(ms, t.version, target));
    hide SortByVersion, Above, Reach;
    assert forall i :: 0 <= i < |todo| ==> todo[i] in todo;
    applied, raised := t.MigrateTable(ms, target, false, works);
  }

  /** One run of the global runner, seen from one migration. */
  method GlobalRun(db: Database, ms: seq<Migration>, late: Migration, works: int -> bool)
    returns (applied: seq<Migration>, raised: bool)
    requires DistinctVersions(ms) && late in ms
    modifies db
    ensures late.version in db.recorded <==> late.version in old(db.recorded) || late in applied
    ensures !raised ==> late.version in db.recorded
  {
    var todo := SortByVersion(Unrecorded(ms, db.recorded));
    TodoIs(ms, db.recorded);
    hide SortByVersion, Unrecorded, Reach;
    applied, raised := db.ApplyMigrations(ms, false, works);
    OneByVersion(ms, todo, |applied|, late);
    assert todo[..|todo|] == todo;
  }

  lemma TodoIs(ms: seq<Migration>, recorded: seq<int>)
    requires DistinctVersions(ms)
    ensures forall x :: x in SortByVersion(Unrecorded(ms, recorded)) <==> x in ms && x.version !in recorded
  {
    UnrecordedIs(ms, recorded);
    SortIs(Unrecorded(ms, recorded));
  }

  lemma OneByVersion(ms: seq<Migration>, todo: seq<Migration>, k: nat, late: Migration)
    requires DistinctVersions(ms) && late in ms && k <= |todo| && forall x :: x in todo ==> x in ms
    ensures late.version in Versions(todo[..k]) <==> late in todo[..k]
  {
    var v := Versions(todo[..k]);
    if late.version in v {
      var i :| 0 <= i < |v| && v[i] == late.version;
      assert todo[..k][i] == todo[i] && todo[i] in ms;
    }
    if late in todo[..k] {
      var i :| 0 <= i < k && todo[..k][i] == late;
      assert v[i] == late.version;
    }
  }
}
