/** The data gap audit (data/provenance.py). Times are whole UTC seconds. */
module GapAudit {
  import opened Wrappers
  import Geometry

  const DAY: int := 86400
  const HALF_DAY: int := 43200
  const WEEK: int := 604800

  /** Monday is 0; the epoch was a Thursday. */
  function Weekday(t: int): int {
    (t / DAY + 3) % 7
  }

  predicate Weekend(t: int) {
    Weekday(t) >= 5
  }

  // ---------------------------------------------------------------------------
  // The sampled weekend probe
  // ---------------------------------------------------------------------------

  /** Seconds since Monday midnight. */
  function IntoWeek(t: int): int {
    (t + 3 * DAY) % WEEK
  }

  lemma WeekendByOffset(t: int)
    ensures Weekend(t) <==> IntoWeek(t) >= 5 * DAY
  {
    var days, second := t / DAY, t % DAY;
    var week, day := (days + 3) / 7, (days + 3) % 7;
    assert t + 3 * DAY == WEEK * week + (DAY * day + second);
    OnlyQuotient(t + 3 * DAY, WEEK, week, DAY * day + second);
  }

  lemma OnlyQuotient(x: int, d: int, q: int, r: int)
    requires d > 0 && 0 <= r < d && x == d * q + r
    ensures x % d == r
  {
    var z := x / d - q;
    assert d * z == r - x % d;
    assert z >= 1 ==> d * z >= d;
    assert z <= -1 ==> d * z <= -d;
  }

  lemma WeekRuns(t: int, j: nat)
    requires IntoWeek(t) + j < WEEK
    ensures IntoWeek(t + j) == IntoWeek(t) + j
  {
    var x := t + 3 * DAY;
    OnlyQuotient(x + j, WEEK, x / WEEK, x % WEEK + j);
  }

  /** Some instant of the closed span is on a Saturday or Sunday. */
  ghost predicate Touches(a: int, b: int) {
    exists t :: a <= t <= b && Weekend(t)
  }

  /** One of the instants a, a + 12h, a + 24h, ... up to b is. */
  ghost predicate ProbeHits(a: int, b: int) {
    exists k: nat :: a + HALF_DAY * k <= b && Weekend(a + HALF_DAY * k)
  }

  /** The probe and the end point together decide exactly, although each alone may miss. */
  lemma ProbeIsExact(a: int, b: int)
    requires a <= b
    ensures Touches(a, b) <==> ProbeHits(a, b) || Weekend(b)
  {
    if Touches(a, b) {
      var t :| a <= t <= b && Weekend(t);
      if Weekend(a) {
        assert a + HALF_DAY * 0 == a;
      } else {
        ProbeReaches(a, t);
        var k := HalfDaysToWeekend(a);
        if a + HALF_DAY * k > b {
          LateInProbe(a, b);
        }
      }
    }
  }

  /** Half days from a weekday instant until the first probe on a weekend. */
  function HalfDaysToWeekend(a: int): nat
    requires !Weekend(a)
  {
    WeekendByOffset(a);
    (5 * DAY - IntoWeek(a) + HALF_DAY - 1) / HALF_DAY
  }

  /** No weekend before it minus 12 hours, and it is on a weekend. */
  lemma ProbeReaches(a: int, t: int)
    requires !Weekend(a) && a <= t && Weekend(t)
    ensures var k := HalfDaysToWeekend(a);
      Weekend(a + HALF_DAY * k) && t >= a + (5 * DAY - IntoWeek(a)) && HALF_DAY * k < 5 * DAY - IntoWeek(a) + HALF_DAY
  {
    WeekendByOffset(a);
    WeekendByOffset(t);
    var gap := 5 * DAY - IntoWeek(a);
    var k := HalfDaysToWeekend(a);
    assert gap <= HALF_DAY * k < gap + HALF_DAY;
    WeekRuns(a, HALF_DAY * k);
    WeekendByOffset(a + HALF_DAY * k);
    if t < a + gap {
      WeekRuns(a, t - a);
    }
  }

  lemma LateInProbe(a: int, b: int)
    requires !Weekend(a) && a + (5 * DAY - IntoWeek(a)) <= b < a + (5 * DAY - IntoWeek(a)) + HALF_DAY
    ensures Weekend(b)
  {
    WeekendByOffset(a);
    WeekRuns(a, b - a);
    WeekendByOffset(b);
  }

  /** The probe alone misses a weekend that the end point catches: Friday noon to Saturday morning. */
  lemma ProbeAloneMisses()
    ensures var friday := 1 * DAY + 46800; var saturday := 2 * DAY + 100;
      Touches(friday, saturday) && !ProbeHits(friday, saturday)
  {
    var friday := 1 * DAY + 46800;
    var saturday := 2 * DAY + 100;
    assert Weekend(saturday);
    forall k: nat | friday + HALF_DAY * k <= saturday ensures !Weekend(friday + HALF_DAY * k) {
      assert k == 0;
    }
  }

  // ---------------------------------------------------------------------------
  // Closing a run
  // ---------------------------------------------------------------------------

  datatype Gap = Gap(start: int, end: int, missing: nat, minutes: int, spansWeekend: bool)

  method LastBefore(present: seq<int>, t: int) returns (b: Option<int>)
    ensures b.None? <==> forall x :: x in present ==> x >= t
    ensures b.Some? ==> b.value in present && b.value < t && forall x :: x in present && x < t ==> x <= b.value
  {
    b := None;
    for i := 0 to |present|
      invariant b.None? ==> forall k :: 0 <= k < i ==> present[k] >= t
      invariant b.Some? ==>
        b.value in present && b.value < t && forall k :: 0 <= k < i && present[k] < t ==> present[k] <= b.value
    {
      if present[i] < t && (b.None? || present[i] > b.value) {
        b := Some(present[i]);
      }
    }
  }

  method FirstAfter(present: seq<int>, t: int) returns (b: Option<int>)
    ensures b.None? <==> forall x :: x in present ==> x <= t
    ensures b.Some? ==> b.value in present && b.value > t && forall x :: x in present && x > t ==> x >= b.value
  {
    b := None;
    for i := 0 to |present|
      invariant b.None? ==> forall k :: 0 <= k < i ==> present[k] <= t
      invariant b.Some? ==>
        b.value in present && b.value > t && forall k :: 0 <= k < i && present[k] > t ==> present[k] >= b.value
    {
      if present[i] > t && (b.None? || present[i] < b.value) {
        b := Some(present[i]);
      }
    }
  }

  /** Samples the span every 12 hours until a weekend instant turns up. */
  method Probe(a: int, b: int) returns (hit: bool)
    ensures hit <==> ProbeHits(a, b)
  {
    hide Weekend;
    var probe := a;
    ghost var n: nat := 0;
    while probe <= b
      invariant probe == a + HALF_DAY * n
      invariant forall k: nat :: k < n ==> !Weekend(a + HALF_DAY * k)
      decreases b - probe
    {
      if Weekend(probe) {
        return true;
      }
      probe := probe + HALF_DAY;
      n := n + 1;
    }
    hit := false;
  }

  /** The present bar next to a run on each side, or the run's own end where there is none. */
  ghost predicate Surrounds(present: seq<int>, start: int, end: int, before: int, after: int) {
    && (if exists x :: x in present && x < start
        then before in present && before < start && forall x :: x in present && x < start ==> x <= before
        else before == start)
    && (if exists x :: x in present && x > end
        then after in present && after > end && forall x :: x in present && x > end ==> x >= after
        else after == end)
  }

  /** Describes one run of missing bars. It spans a weekend exactly when the closed interval between
      the surrounding present bars contains a Saturday or Sunday instant. */
  method CloseGapRun(run: seq<int>, interval: int, present: seq<int>)
    returns (gap: Gap, ghost before: int, ghost after: int)
    requires run != [] && run[0] <= run[|run| - 1]
    ensures gap.start == run[0] && gap.end == run[|run| - 1] && gap.missing == |run|
    ensures gap.minutes == Minutes(gap.end - gap.start + interval)
    ensures Surrounds(present, gap.start, gap.end, before, after)
    ensures gap.spansWeekend <==> Touches(before, after) && (before < gap.start || after > gap.end)
  {
    hide Weekend;
    var start, end := run[0], run[|run| - 1];
    var prev := LastBefore(present, start);
    var next := FirstAfter(present, end);
    var spans := false;
    before, after := if prev.Some? then prev.value else start, if next.Some? then next.value else end;
    if prev.Some? || next.Some? {
      var scanStart := if prev.Some? then prev.value else start;
      var scanEnd := if next.Some? then next.value else end;
      spans := Probe(scanStart, scanEnd);
      spans := spans || Weekend(scanStart) || Weekend(scanEnd) || Weekend(start) || Weekend(end);
      ProbeIsExact(scanStart, scanEnd);
    }
    gap := Gap(start, end, |run|, Minutes(end - start + interval), spans);
  }

  /** `int(seconds / 60)`. */
  function Minutes(seconds: int): int {
    if seconds >= 0 then seconds / 60 else -((-seconds) / 60)
  }

  // ---------------------------------------------------------------------------
  // Runs of missing bars
  // ---------------------------------------------------------------------------

  /** Increasing, and never closer than one interval. */
  ghost predicate Spaced(bars: seq<int>, interval: int) {
    forall i, j :: 0 <= i < j < |bars| ==> bars[i] + interval <= bars[j]
  }

  function Flatten(runs: seq<seq<int>>): seq<int> {
    if runs == [] then [] else Flatten(runs[..|runs| - 1]) + runs[|runs| - 1]
  }

  /** Neighbours in the run are one interval apart. */
  ghost predicate IsRun(run: seq<int>, interval: int) {
    run != [] && forall i :: 0 < i < |run| ==> run[i] == run[i - 1] + interval
  }

  /** The runs are the maximal consecutive blocks, in order. */
  ghost predicate AreMaximalRuns(runs: seq<seq<int>>, interval: int) {
    && (forall i :: 0 <= i < |runs| ==> IsRun(runs[i], interval))
    && (forall i :: 0 < i < |runs| ==> FarApart(runs[i - 1], runs[i], interval))
  }

  ghost predicate FarApart(x: seq<int>, y: seq<int>, interval: int) {
    x != [] && y != [] && y[0] - x[|x| - 1] > interval
  }

  method FindRuns(missing: seq<int>, interval: int) returns (runs: seq<seq<int>>)
    requires interval > 0 && Spaced(missing, interval)
    ensures Flatten(runs) == missing && AreMaximalRuns(runs, interval)
  {
    hide AreMaximalRuns, IsRun, FarApart, Flatten;
    runs := [];
    var run := [];
    assert AreMaximalRuns(runs, interval) && Flatten(runs) == [] by { NoRuns(interval); }
    for i := 0 to |missing|
      invariant Flatten(runs) + run == missing[..i] && AreMaximalRuns(runs, interval)
      invariant if i == 0 then run == [] && runs == []
        else run != [] && Growing(runs, run, interval) && run[|run| - 1] == missing[i - 1]
    {
      assert missing[..i + 1] == missing[..i] + [missing[i]];
      if run == [] {
        StartRun(runs, [], missing[i], interval);
        run := [missing[i]];
      } else if missing[i] - run[|run| - 1] > interval {
        CloseRun(runs, run, interval);
        StartRun(runs + [run], run, missing[i], interval);
        runs := runs + [run];
        run := [missing[i]];
      } else {
        ContinueRun(runs, run, missing[i], interval);
        run := run + [missing[i]];
      }
    }
    assert missing[..|missing|] == missing;
    if run != [] {
      CloseRun(runs, run, interval);
      runs := runs + [run];
    }
  }

  /** The open run is consecutive and far from the last closed one. */
  ghost predicate Growing(runs: seq<seq<int>>, run: seq<int>, interval: int) {
    IsRun(run, interval) && (runs != [] ==> FarApart(runs[|runs| - 1], run, interval))
  }

  lemma NoRuns(interval: int)
    ensures AreMaximalRuns([], interval) && Flatten([]) == []
  {
  }

  lemma StartRun(runs: seq<seq<int>>, last: seq<int>, bar: int, interval: int)
    requires runs != [] ==> last == runs[|runs| - 1] && last != [] && bar - last[|last| - 1] > interval
    ensures Growing(runs, [bar], interval)
  {
  }

  lemma ContinueRun(runs: seq<seq<int>>, run: seq<int>, bar: int, interval: int)
    requires Growing(runs, run, interval) && run != [] && bar == run[|run| - 1] + interval
    ensures Growing(runs, run + [bar], interval)
  {
  }

  lemma CloseRun(runs: seq<seq<int>>, run: seq<int>, interval: int)
    requires AreMaximalRuns(runs, interval) && Growing(runs, run, interval)
    ensures AreMaximalRuns(runs + [run], interval) && Flatten(runs + [run]) == Flatten(runs) + run
  {
    var more := runs + [run];
    assert more[..|more| - 1] == runs;
    hide FarApart, IsRun;
    forall i | 0 < i < |more| ensures FarApart(more[i - 1], more[i], interval) {
      assert i < |runs| ==> FarApart(runs[i - 1], runs[i], interval);
    }
  }

  function TotalSize(runs: seq<seq<int>>): nat {
    if runs == [] then 0 else TotalSize(runs[..|runs| - 1]) + |runs[|runs| - 1]|
  }

  lemma {:induction false} SizesSum(runs: seq<seq<int>>)
    ensures TotalSize(runs) == |Flatten(runs)|
  {
    if runs != [] {
      SizesSum(runs[..|runs| - 1]);
    }
  }

  // ---------------------------------------------------------------------------
  // Aligned bars
  // ---------------------------------------------------------------------------

  /** The first multiple of the interval at or after the start. */
  function FirstAligned(start: int, interval: int): int
    requires interval > 0
  {
    (start / interval + (if start % interval == 0 then 0 else 1)) * interval
  }

  lemma FirstAlignedIs(start: int, interval: int)
    requires interval > 0
    ensures start <= FirstAligned(start, interval) < start + interval && FirstAligned(start, interval) % interval == 0
  {
    var q := start / interval + (if start % interval == 0 then 0 else 1);
    assert start == interval * (start / interval) + start % interval;
    OnlyQuotient(q * interval, interval, q, 0);
  }

  /** first, first + interval, ... up to the end. */
  function DateRange(first: int, end: int, interval: int): (bars: seq<int>)
    requires interval > 0
    ensures |bars| == 0 <==> first > end
    ensures bars != [] ==> bars[0] == first
    decreases end - first
  {
    if first > end then [] else [first] + DateRange(first + interval, end, interval)
  }

  lemma {:induction false} DateRangeIs(first: int, end: int, interval: int, x: int)
    requires interval > 0 && first % interval == 0
    ensures x in DateRange(first, end, interval) <==> first <= x <= end && x % interval == 0
    decreases end - first
  {
    if first <= end {
      NextMultiple(first, interval);
      DateRangeIs(first + interval, end, interval, x);
      if first < x < first + interval {
        NoMultipleBetween(first, x, interval);
      }
    }
  }

  lemma NextMultiple(a: int, interval: int)
    requires interval > 0 && a % interval == 0
    ensures (a + interval) % interval == 0
  {
    OnlyQuotient(a + interval, interval, a / interval + 1, 0);
  }

  lemma NoMultipleBetween(a: int, x: int, interval: int)
    requires interval > 0 && a % interval == 0 && a < x < a + interval
    ensures x % interval != 0
  {
    OnlyQuotient(x, interval, a / interval, x - a);
  }

  lemma {:induction false} DateRangeIsSpaced(first: int, end: int, interval: int)
    requires interval > 0
    ensures Spaced(DateRange(first, end, interval), interval)
    ensures forall x :: x in DateRange(first, end, interval) ==> x >= first
    decreases end - first
  {
    if first <= end {
      DateRangeIsSpaced(first + interval, end, interval);
      ConsSpaced(first, DateRange(first + interval, end, interval), interval);
    }
  }

  lemma ConsSpaced(x: int, rest: seq<int>, interval: int)
    requires interval > 0 && Spaced(rest, interval) && forall y :: y in rest ==> x + interval <= y
    ensures Spaced([x] + rest, interval)
    ensures forall y :: y in [x] + rest ==> y >= x
  {
    forall i, j | 0 <= i < j < |[x] + rest| ensures ([x] + rest)[i] + interval <= ([x] + rest)[j] {
      assert rest[j - 1] in rest;
    }
  }

  /** The aligned bars of a span are its multiples of the interval. */
  function AlignedBars(start: int, end: int, interval: int): seq<int>
    requires interval > 0
  {
    DateRange(FirstAligned(start, interval), end, interval)
  }

  lemma AlignedBarsAre(start: int, end: int, interval: int, x: int)
    requires interval > 0
    ensures x in AlignedBars(start, end, interval) <==> start <= x <= end && x % interval == 0
    ensures Spaced(AlignedBars(start, end, interval), interval)
  {
    var first := FirstAligned(start, interval);
    FirstAlignedIs(start, interval);
    hide FirstAligned;
    DateRangeIs(first, end, interval, x);
    DateRangeIsSpaced(first, end, interval);
    NoneBefore(start, first, x, interval);
  }

  lemma NoneBefore(start: int, first: int, x: int, interval: int)
    requires interval > 0 && first % interval == 0 && start <= first < start + interval
    ensures start <= x && x % interval == 0 ==> first <= x
  {
    OnlyQuotient(first - interval, interval, first / interval - 1, 0);
    if start <= x < first {
      NoMultipleBetween(first - interval, x, interval);
    }
  }

  // ---------------------------------------------------------------------------
  // Counting
  // ---------------------------------------------------------------------------

  /** The weekday bars, and those of them that are present, or that are not. */
  function Weekdays(bars: seq<int>): (w: seq<int>) {
    if bars == [] then []
    else
      var last := bars[|bars| - 1];
      var rest := Weekdays(bars[..|bars| - 1]);
      if Weekend(last) then rest else rest + [last]
  }

  function Among(bars: seq<int>, present: seq<int>, wanted: bool): (w: seq<int>) {
    if bars == [] then []
    else
      var last := bars[|bars| - 1];
      var rest := Among(bars[..|bars| - 1], present, wanted);
      if !Weekend(last) && (last in present) == wanted then rest + [last] else rest
  }

  function Tally<K(==)>(bars: seq<int>, key: int -> K, k: K): nat {
    if bars == [] then 0 else Tally(bars[..|bars| - 1], key, k) + (if key(bars[|bars| - 1]) == k then 1 else 0)
  }

  function Get<K>(m: map<K, nat>, k: K): nat {
    if k in m then m[k] else 0
  }

  /** Every weekday bar is present or missing, under every key. */
  lemma {:induction false} PresentPlusMissing<K>(bars: seq<int>, present: seq<int>, key: int -> K, k: K)
    ensures Tally(Among(bars, present, true), key, k) + Tally(Among(bars, present, false), key, k) ==
      Tally(Weekdays(bars), key, k)
    ensures |Among(bars, present, true)| + |Among(bars, present, false)| == |Weekdays(bars)|
  {
    if bars != [] {
      var rest, last := bars[..|bars| - 1], bars[|bars| - 1];
      PresentPlusMissing(rest, present, key, k);
      TallyAppend(Among(rest, present, true), last, key, k);
      TallyAppend(Among(rest, present, false), last, key, k);
      TallyAppend(Weekdays(rest), last, key, k);
    }
  }

  lemma TallyAppend<K>(bars: seq<int>, bar: int, key: int -> K, k: K)
    ensures Tally(bars + [bar], key, k) == Tally(bars, key, k) + if key(bar) == k then 1 else 0
  {
    assert (bars + [bar])[..|bars|] == bars;
  }

  /** What is kept of spaced bars is spaced, and kept exactly when it should be. */
  lemma {:induction false} AmongIs(bars: seq<int>, present: seq<int>, wanted: bool, interval: int)
    requires interval > 0 && Spaced(bars, interval)
    ensures Spaced(Among(bars, present, wanted), interval)
    ensures forall x :: x in Among(bars, present, wanted) <==> x in bars && !Weekend(x) && (x in present) == wanted
  {
    hide Weekend;
    if bars != [] {
      var rest, last := bars[..|bars| - 1], bars[|bars| - 1];
      assert bars == rest + [last];
      AmongIs(rest, present, wanted, interval);
      var kept := Among(rest, present, wanted);
      forall j | 0 <= j < |kept| ensures kept[j] + interval <= last {
        assert kept[j] in kept && kept[j] in rest;
      }
    }
  }

  // ---------------------------------------------------------------------------
  // The audit
  // ---------------------------------------------------------------------------

  datatype Coverage = Coverage(expected: nat, present: nat, missing: nat, ratio: Option<real>)

  /** The share of expected bars that is present, to six digits; None when none is expected. */
  function Ratio(present: nat, expected: nat): Option<real> {
    if expected == 0 then None else Some(ToSixDigits(present as real / expected as real))
  }

  function ToSixDigits(x: real): real {
    Geometry.Round(1000000.0 * x) as real / 1000000.0
  }

  /** A reported share is within half a millionth of the exact one. */
  lemma RatioIsClose(present: nat, expected: nat)
    requires 0 < expected
    ensures var exact := present as real / expected as real;
      exact - 0.0000005 <= Ratio(present, expected).value <= exact + 0.0000005
  {
    Geometry.RoundIsNearest(1000000.0 * (present as real / expected as real), 0);
  }

  /** Full coverage is reported exactly when at most one expected bar in two million is missing. */
  lemma FullCoverageIff(present: nat, missing: nat)
    requires present + missing > 0
    ensures Ratio(present, present + missing) == Some(1.0) <==> 2000000 * missing <= present + missing
  {
    var e, share := (present + missing) as real, present as real / (present + missing) as real;
    ShareOf(present as real, missing as real, e, share);
    assert ToSixDigits(share) == 1.0 <==> 1000000.0 * share >= 999999.5;
  }

  lemma ShareOf(present: real, missing: real, e: real, share: real)
    requires e > 0.0 && missing >= 0.0 && e == present + missing && share == present / e
    ensures share <= 1.0
    ensures 1000000.0 * share >= 999999.5 <==> 2000000.0 * missing <= e
  {
    assert share * e == present;
    assert (1.0 - share) * e == missing;
    var gap := 2000000.0 * (1.0 - share) - 1.0;
    assert gap * e == 2000000.0 * missing - e;
    assert gap <= 0.0 <==> gap * e <= 0.0;
  }

  /** `max(0, expected - present)`. */
  function Shortfall(expected: nat, present: nat): nat {
    if expected >= present then expected - present else 0
  }

  datatype Report = Report(
    present: nat, missing: nat, coverage: Option<real>, weekendGaps: nat, gaps: seq<Gap>, gapCount: nat,
    perYear: map<int, Coverage>, perSession: map<string, Coverage>)

  ghost predicate Tallies<K(!new)>(m: map<K, nat>, bars: seq<int>, key: int -> K) {
    (forall k :: Get(m, k) == Tally(bars, key, k)) && (forall k :: k in m ==> m[k] > 0)
  }

  function Bump<K(==)>(m: map<K, nat>, k: K): map<K, nat> {
    m[k := Get(m, k) + 1]
  }

  lemma BumpTallies<K(!new)>(m: map<K, nat>, bars: seq<int>, bar: int, key: int -> K)
    requires Tallies(m, bars, key)
    ensures Tallies(Bump(m, key(bar)), bars + [bar], key)
  {
    hide Tally;
    forall k ensures Get(Bump(m, key(bar)), k) == Tally(bars + [bar], key, k) {
      TallyAppend(bars, bar, key, k);
    }
  }

  method ExpectedPerYear(bars: seq<int>, year: int -> int) returns (perYear: map<int, nat>, total: nat)
    ensures Tallies(perYear, Weekdays(bars), year) && total == |Weekdays(bars)|
  {
    hide Weekend;
    perYear, total := map[], 0;
    for i := 0 to |bars|
      invariant Tallies(perYear, Weekdays(bars[..i]), year) && total == |Weekdays(bars[..i])|
    {
      assert bars[..i + 1][..i] == bars[..i];
      if !Weekend(bars[i]) {
        BumpTallies(perYear, Weekdays(bars[..i]), bars[i], year);
        perYear, total := Bump(perYear, year(bars[i])), total + 1;
      }
    }
    assert bars[..|bars|] == bars;
  }

  /** Walks the aligned bars once: what is present and missing, by year and by session. */
  method CountBars(bars: seq<int>, present: seq<int>, year: int -> int, session: int -> string)
    returns (yearPresent: map<int, nat>, sessionPresent: map<string, nat>, sessionMissing: map<string, nat>, found: nat,
      missing: seq<int>)
    ensures Tallies(yearPresent, Among(bars, present, true), year) &&
      Tallies(sessionPresent, Among(bars, present, true), session)
    ensures Tallies(sessionMissing, Among(bars, present, false), session)
    ensures found == |Among(bars, present, true)| && missing == Among(bars, present, false)
  {
    yearPresent, sessionPresent, sessionMissing, found, missing := map[], map[], map[], 0, [];
    hide Weekend, Tallies;
    assert Tallies(yearPresent, [], year) && Tallies(sessionPresent, [], session) by {
      NothingTallies(year);
      NothingTallies(session);
    }
    for i := 0 to |bars|
      invariant Tallies(yearPresent, Among(bars[..i], present, true), year) &&
        Tallies(sessionPresent, Among(bars[..i], present, true), session)
      invariant Tallies(sessionMissing, Among(bars[..i], present, false), session)
      invariant found == |Among(bars[..i], present, true)| && missing == Among(bars[..i], present, false)
    {
      var bar := bars[i];
      assert bars[..i + 1][..i] == bars[..i];
      if !Weekend(bar) {
        if bar in present {
          BumpTallies(yearPresent, Among(bars[..i], present, true), bar, year);
          BumpTallies(sessionPresent, Among(bars[..i], present, true), bar, session);
          yearPresent, sessionPresent, found :=
            Bump(yearPresent, year(bar)), Bump(sessionPresent, session(bar)), found + 1;
        } else {
          BumpTallies(sessionMissing, missing, bar, session);
          sessionMissing, missing := Bump(sessionMissing, session(bar)), missing + [bar];
        }
      }
    }
    assert bars[..|bars|] == bars;
  }

  lemma NothingTallies<K(!new)>(key: int -> K)
    ensures Tallies(map[], [], key)
  {
  }

  /** What one gap says of the run it was made from. */
  ghost predicate Describes(gap: Gap, run: seq<int>, interval: int, present: seq<int>) {
    && run != [] && gap.start == run[0] && gap.end == run[|run| - 1] && gap.missing == |run|
    && gap.minutes == Minutes(gap.end - gap.start + interval)
    && exists before, after :: Surrounds(present, gap.start, gap.end, before, after) &&
         (gap.spansWeekend <==> Touches(before, after) && (before < gap.start || after > gap.end))
  }

  method DescribeRuns(runs: seq<seq<int>>, interval: int, present: seq<int>) returns (gaps: seq<Gap>)
    requires interval > 0 && AreMaximalRuns(runs, interval)
    ensures |gaps| == |runs| && forall i :: 0 <= i < |runs| ==> Describes(gaps[i], runs[i], interval, present)
  {
    gaps := [];
    for i := 0 to |runs|
      invariant |gaps| == i && forall k :: 0 <= k < i ==> Describes(gaps[k], runs[k], interval, present)
    {
      RunGrows(runs[i], interval);
      hide Surrounds, Touches;
      var gap, _, _ := CloseGapRun(runs[i], interval, present);
      gaps := gaps + [gap];
    }
  }

  lemma {:induction false} RunGrows(run: seq<int>, interval: int)
    requires interval > 0 && IsRun(run, interval)
    ensures run[0] <= run[|run| - 1]
  {
    if |run| > 1 {
      var shorter := run[..|run| - 1];
      assert IsRun(shorter, interval) by { assert forall i :: 0 <= i < |shorter| ==> shorter[i] == run[i]; }
      RunGrows(shorter, interval);
      assert run[|run| - 1] == run[|run| - 2] + interval;
    }
  }

  /** The gaps that do not span a weekend, in order. */
  function OnWeekdays(gaps: seq<Gap>): (w: seq<Gap>)
    ensures |w| <= |gaps|
  {
    if gaps == [] then []
    else
      var rest := OnWeekdays(gaps[..|gaps| - 1]);
      if gaps[|gaps| - 1].spansWeekend then rest else rest + [gaps[|gaps| - 1]]
  }

  /** `gaps[:n]`, where a negative n counts from the end. */
  function Slice(gaps: seq<Gap>, n: int): seq<Gap> {
    if n >= 0 then gaps[..if n <= |gaps| then n else |gaps|] else gaps[..if -n <= |gaps| then |gaps| + n else 0]
  }

  function Lines<K(==)>(expected: map<K, nat>, present: map<K, nat>): map<K, Coverage> {
    map k | k in expected.Keys + present.Keys ::
      Coverage(Get(expected, k), Get(present, k), Shortfall(Get(expected, k), Get(present, k)),
        Ratio(Get(present, k), Get(expected, k)))
  }

  function SessionLines(present: map<string, nat>, missing: map<string, nat>): map<string, Coverage> {
    map k | k in present.Keys + missing.Keys ::
      Coverage(Get(present, k) + Get(missing, k), Get(present, k), Get(missing, k),
        Ratio(Get(present, k), Get(present, k) + Get(missing, k)))
  }

  /** Under each key, present and missing are the tallies and add up to the expected bars; keys
      without a bar are left out. */
  ghost predicate Accounts<K(!new)>(lines: map<K, Coverage>, bars: seq<int>, present: seq<int>, key: int -> K) {
    forall k ::
      && (k in lines <==> Tally(Weekdays(bars), key, k) > 0)
      && (k in lines ==>
            && lines[k].present == Tally(Among(bars, present, true), key, k)
            && lines[k].missing == Tally(Among(bars, present, false), key, k)
            && lines[k].expected == lines[k].present + lines[k].missing == Tally(Weekdays(bars), key, k)
            && lines[k].ratio == Ratio(lines[k].present, lines[k].expected))
  }

  lemma YearsAccount(expected: map<int, nat>, found: map<int, nat>, bars: seq<int>, present: seq<int>, year: int -> int)
    requires Tallies(expected, Weekdays(bars), year) && Tallies(found, Among(bars, present, true), year)
    ensures Accounts(Lines(expected, found), bars, present, year)
  {
    hide Ratio, Tally, Among, Weekdays;
    forall k
      ensures Get(found, k) <= Get(expected, k)
      ensures Get(expected, k) - Get(found, k) == Tally(Among(bars, present, false), year, k)
    {
      PresentPlusMissing(bars, present, year, k);
    }
    forall k ensures k in Lines(expected, found) <==> Tally(Weekdays(bars), year, k) > 0 {
      assert Get(expected, k) == Tally(Weekdays(bars), year, k);
    }
  }

  lemma SessionsAccount(
    found: map<string, nat>, missing: map<string, nat>, bars: seq<int>, present: seq<int>, session: int -> string)
    requires Tallies(found, Among(bars, present, true), session) &&
      Tallies(missing, Among(bars, present, false), session)
    ensures Accounts(SessionLines(found, missing), bars, present, session)
  {
    hide Ratio, Tally, Among, Weekdays;
    forall k ensures Get(found, k) + Get(missing, k) == Tally(Weekdays(bars), session, k) {
      PresentPlusMissing(bars, present, session, k);
    }
  }

  method Bounds(rows: seq<int>) returns (start: int, end: int)
    requires rows != []
    ensures start in rows && end in rows && forall x :: x in rows ==> start <= x <= end
  {
    start, end := rows[0], rows[0];
    for i := 1 to |rows|
      invariant start in rows && end in rows && forall k :: 0 <= k < i ==> start <= rows[k] <= end
    {
      start := if rows[i] < start then rows[i] else start;
      end := if rows[i] > end then rows[i] else end;
    }
  }

  /** What the audit of non-empty data promises. `runs` are the maximal blocks of missing weekday
      bars and `all` describes them one by one. */
  ghost predicate IsAudit(
    report: Report, rows: seq<int>, interval: int, maxGaps: int, year: int -> int, session: int -> string,
    start: int, end: int, runs: seq<seq<int>>, all: seq<Gap>)
    requires interval > 0
  {
    var bars := AlignedBars(start, end, interval);
    && report.present == |Among(bars, rows, true)| && report.missing == |Among(bars, rows, false)|
    && report.coverage == Ratio(report.present, report.present + report.missing)
    && Accounts(report.perYear, bars, rows, year) && Accounts(report.perSession, bars, rows, session)
    && Flatten(runs) == Among(bars, rows, false) && AreMaximalRuns(runs, interval)
    && |all| == |runs| && (forall i :: 0 <= i < |runs| ==> Describes(all[i], runs[i], interval, rows))
    && report.gaps == Slice(OnWeekdays(all), maxGaps)
    && report.gapCount == |OnWeekdays(all)| && report.weekendGaps == |all| - |OnWeekdays(all)|
  }

  method Audit(rows: seq<int>, interval: int, maxGaps: int, year: int -> int, session: int -> string)
    returns (report: Report, ghost start: int, ghost end: int, ghost runs: seq<seq<int>>, ghost all: seq<Gap>)
    requires interval > 0
    ensures rows == [] ==> report == Report(0, 0, None, 0, [], 0, map[], map[])
    ensures rows != [] ==> start in rows && end in rows && (forall x :: x in rows ==> start <= x <= end)
    ensures rows != [] ==> IsAudit(report, rows, interval, maxGaps, year, session, start, end, runs, all)
  {
    start, end, runs, all := 0, 0, [], [];
    if rows == [] {
      return Report(0, 0, None, 0, [], 0, map[], map[]), start, end, runs, all;
    }
    var first, last := Bounds(rows);
    start, end := first, last;
    report, runs, all := AuditSpan(rows, first, last, interval, maxGaps, year, session);
  }

  method AuditSpan(
    rows: seq<int>, start: int, end: int, interval: int, maxGaps: int, year: int -> int, session: int -> string)
    returns (report: Report, ghost runs: seq<seq<int>>, ghost all: seq<Gap>)
    requires interval > 0
    ensures IsAudit(report, rows, interval, maxGaps, year, session, start, end, runs, all)
  {
    hide Accounts, Tallies, Describes, AreMaximalRuns, Spaced, AlignedBars, Among, Weekdays, Ratio;
    var bars := AlignedBars(start, end, interval);
    var expected, total := ExpectedPerYear(bars, year);
    var yearPresent, sessionPresent, sessionMissing, found, missing := CountBars(bars, rows, year, session);
    YearsAccount(expected, yearPresent, bars, rows, year);
    SessionsAccount(sessionPresent, sessionMissing, bars, rows, session);
    AlignedBarsAre(start, end, interval, start);
    AmongIs(bars, rows, false, interval);
    var blocks := FindRuns(missing, interval);
    var gaps := DescribeRuns(blocks, interval, rows);
    var kept := OnWeekdays(gaps);
    runs, all := blocks, gaps;
    PresentPlusMissing(bars, rows, year, 0);
    report :=
      Report(found, Shortfall(total, found), Ratio(found, total), |gaps| - |kept|, Slice(kept, maxGaps), |kept|,
        Lines(expected, yearPresent), SessionLines(sessionPresent, sessionMissing));
  }

  /** The sizes of all gaps add up to the missing bars. */
  lemma GapSizesSum(runs: seq<seq<int>>, missing: seq<int>)
    requires Flatten(runs) == missing
    ensures TotalSize(runs) == |missing|
  {
    SizesSum(runs);
  }

  /** A missing bar lies strictly between the first and the last present one, so the flag of a gap is
      exactly whether the span between its present neighbours meets a weekend. */
  lemma WeekendFlagIsExact(gap: Gap, run: seq<int>, interval: int, rows: seq<int>, start: int, end: int)
    requires interval > 0 && Describes(gap, run, interval, rows) && start in rows && end in rows
    requires forall i :: 0 <= i < |run| ==> run[i] in Among(AlignedBars(start, end, interval), rows, false)
    ensures exists before, after ::
      Surrounds(rows, gap.start, gap.end, before, after) && before < gap.start && gap.end < after &&
      (gap.spansWeekend <==> Touches(before, after))
  {
    AlignedBarsAre(start, end, interval, gap.start);
    AlignedBarsAre(start, end, interval, gap.end);
    AmongIs(AlignedBars(start, end, interval), rows, false, interval);
    hide AlignedBars, Among, Touches, Spaced;
    assert start < gap.start && gap.end < end;
  }

  /** There is only one way to cut the missing bars into maximal runs. */
  lemma {:induction false} RunsAreUnique(a: seq<seq<int>>, b: seq<seq<int>>, interval: int)
    requires interval > 0 && AreMaximalRuns(a, interval) && AreMaximalRuns(b, interval) && Flatten(a) == Flatten(b)
    ensures a == b
  {
    hide Flatten, AreMaximalRuns, IsRun;
    FlattenEmpty(a, interval);
    FlattenEmpty(b, interval);
    if a != [] && b != [] {
      var x, y := a[|a| - 1], b[|b| - 1];
      var p, q := a[..|a| - 1], b[..|b| - 1];
      FrontIsMaximal(a, interval);
      FrontIsMaximal(b, interval);
      LastRunsAgree(Flatten(p), x, Flatten(q), y, interval);
      RunsAreUnique(p, q, interval);
      assert a == p + [x] && b == q + [y];
    }
  }

  lemma FlattenEmpty(a: seq<seq<int>>, interval: int)
    requires AreMaximalRuns(a, interval)
    ensures a == [] <==> Flatten(a) == []
  {
    if a != [] {
      assert IsRun(a[|a| - 1], interval);
    }
  }

  lemma FrontIsMaximal(a: seq<seq<int>>, interval: int)
    requires a != [] && AreMaximalRuns(a, interval)
    ensures AreMaximalRuns(a[..|a| - 1], interval) && IsRun(a[|a| - 1], interval)
    ensures a[|a| - 1] != [] && Flatten(a) == Flatten(a[..|a| - 1]) + a[|a| - 1]
    ensures var front := Flatten(a[..|a| - 1]); front != [] ==> a[|a| - 1][0] - front[|front| - 1] > interval
  {
    var p := a[..|a| - 1];
    assert AreMaximalRuns(p, interval) by {
      forall i | 0 < i < |p| ensures FarApart(p[i - 1], p[i], interval) {
        assert FarApart(a[i - 1], a[i], interval);
      }
    }
    if |a| > 1 {
      assert p[|p| - 1] == a[|a| - 2] && IsRun(a[|a| - 2], interval) && FarApart(a[|a| - 2], a[|a| - 1], interval);
    }
  }

  /** Inside its last run a list steps by one interval. */
  lemma StepInRun(front: seq<int>, x: seq<int>, k: nat, interval: int)
    requires IsRun(x, interval) && |front| < k < |front| + |x|
    ensures (front + x)[k] == (front + x)[k - 1] + interval
  {
  }

  /** A longer last run would step over the break in front of the shorter one. */
  lemma LastRunsAgree(p: seq<int>, x: seq<int>, q: seq<int>, y: seq<int>, interval: int)
    requires x != [] && y != [] && IsRun(x, interval) && IsRun(y, interval) && p + x == q + y
    requires p != [] ==> x[0] - p[|p| - 1] > interval
    requires q != [] ==> y[0] - q[|q| - 1] > interval
    ensures x == y && p == q
  {
    hide IsRun;
    var all := p + x;
    if |p| < |q| {
      StepInRun(p, x, |q|, interval);
      assert false;
    } else if |q| < |p| {
      StepInRun(q, y, |p|, interval);
      assert false;
    }
    assert p == all[..|p|] && q == all[..|q|];
    assert x == all[|p|..] && y == all[|q|..];
  }
}
