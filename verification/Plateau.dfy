/** Plateau-based parameter selection (backtest/plateau.py). */
module Plateau {
  import opened Wrappers

  type Coord = seq<int>

  /** A result row placed on the grid. */
  datatype Record = Record(row: nat, coords: Coord, metric: real)

  // ---------------------------------------------------------------------------
  // Neighbourhoods
  // ---------------------------------------------------------------------------

  /** `product([-1, 0, 1], repeat=d)`. */
  function Offsets(d: nat): (offsets: seq<Coord>)
    ensures forall i :: 0 <= i < |offsets| ==> |offsets[i]| == d
  {
    if d == 0 then [[]] else Extend(Offsets(d - 1), -1) + Extend(Offsets(d - 1), 0) + Extend(Offsets(d - 1), 1)
  }

  function Extend(offsets: seq<Coord>, x: int): (longer: seq<Coord>)
    ensures |longer| == |offsets| && forall i :: 0 <= i < |longer| ==> longer[i] == offsets[i] + [x]
  {
    seq(|offsets|, i requires 0 <= i < |offsets| => offsets[i] + [x])
  }

  predicate Still(offset: Coord) {
    forall k :: 0 <= k < |offset| ==> offset[k] == 0
  }

  predicate Unit(offset: Coord) {
    forall k :: 0 <= k < |offset| ==> -1 <= offset[k] <= 1
  }

  function Shift(c: Coord, offset: Coord): (n: Coord)
    requires |c| == |offset|
    ensures |n| == |c| && forall k :: 0 <= k < |c| ==> n[k] == c[k] + offset[k]
  {
    seq(|c|, k requires 0 <= k < |c| => c[k] + offset[k])
  }

  /** Distinct points at most one step apart in every dimension. */
  predicate Adjacent(a: Coord, b: Coord) {
    |a| == |b| && a != b && forall k :: 0 <= k < |a| ==> -1 <= a[k] - b[k] <= 1
  }

  lemma {:induction false} OffsetsAreUnits(d: nat, o: Coord)
    requires |o| == d
    ensures o in Offsets(d) <==> Unit(o)
  {
    if d > 0 {
      var head, last := o[..d - 1], o[d - 1];
      assert o == head + [last];
      OffsetsAreUnits(d - 1, head);
      OffsetsExtend(d, head, last);
      hide Offsets;
      assert Unit(o) <==> Unit(head) && -1 <= last <= 1;
    } else {
      assert o == [];
    }
  }

  lemma OffsetsExtend(d: nat, head: Coord, last: int)
    requires d > 0
    ensures head + [last] in Offsets(d) <==> head in Offsets(d - 1) && -1 <= last <= 1
  {
    var rest := Offsets(d - 1);
    ExtendHas(rest, -1, head, last); ExtendHas(rest, 0, head, last); ExtendHas(rest, 1, head, last);
    assert Offsets(d) == Extend(rest, -1) + Extend(rest, 0) + Extend(rest, 1);
    hide Offsets, Extend;
  }

  lemma ExtendHas(offsets: seq<Coord>, x: int, head: Coord, last: int)
    ensures head + [last] in Extend(offsets, x) <==> head in offsets && last == x
  {
    var e := Extend(offsets, x);
    if head in offsets && last == x {
      var i :| 0 <= i < |offsets| && offsets[i] == head;
      assert e[i] == head + [last];
    }
    if head + [last] in e {
      var i :| 0 <= i < |e| && e[i] == head + [last];
      assert (offsets[i] + [x])[|offsets[i]|] == x && |offsets[i]| == |head|;
      assert (offsets[i] + [x])[..|head|] == offsets[i] && (head + [last])[..|head|] == head;
    }
  }

  /** `n` is `c` moved by one of the non-zero offsets. */
  ghost predicate Neighbour(c: Coord, n: Coord, o: Coord) {
    o in Offsets(|c|) && |o| == |c| && !Still(o) && n == Shift(c, o)
  }

  /** The code's neighbour enumeration is adjacency. */
  lemma NeighboursAreAdjacent(c: Coord, n: Coord)
    ensures Adjacent(c, n) <==> exists o :: Neighbour(c, n, o)
  {
    hide Neighbour;
    if Adjacent(c, n) {
      AdjacentIsNeighbour(c, n);
    }
    forall o | Neighbour(c, n, o) ensures Adjacent(c, n) {
      NeighbourIsAdjacent(c, n, o);
    }
  }

  lemma AdjacentIsNeighbour(c: Coord, n: Coord)
    requires Adjacent(c, n)
    ensures Neighbour(c, n, Difference(n, c))
  {
    var o := Difference(n, c);
    OffsetsAreUnits(|c|, o);
    hide Offsets;
    assert Still(o) ==> n == c;
    hide Still;
    assert Unit(o);
    assert n == Shift(c, o);
  }

  function Difference(a: Coord, b: Coord): (o: Coord)
    requires |a| == |b|
    ensures |o| == |a| && forall k :: 0 <= k < |a| ==> o[k] == a[k] - b[k]
  {
    seq(|a|, k requires 0 <= k < |a| => a[k] - b[k])
  }

  lemma NeighbourIsAdjacent(c: Coord, n: Coord, o: Coord)
    requires Neighbour(c, n, o)
    ensures Adjacent(c, n)
  {
    OffsetsAreUnits(|c|, o);
    hide Offsets;
    var k :| 0 <= k < |o| && o[k] != 0;
    assert n[k] != c[k];
  }

  // ---------------------------------------------------------------------------
  // Connectivity
  // ---------------------------------------------------------------------------

  ghost predicate IsPath(points: set<Coord>, path: seq<Coord>) {
    && path != [] && (forall i :: 0 <= i < |path| ==> path[i] in points)
    && forall i :: 0 < i < |path| ==> Adjacent(path[i - 1], path[i])
  }

  ghost predicate Connected(points: set<Coord>, a: Coord, b: Coord) {
    exists path :: IsPath(points, path) && path[0] == a && path[|path| - 1] == b
  }

  ghost function Component(points: set<Coord>, a: Coord): set<Coord> {
    set x | x in points && Connected(points, a, x)
  }

  ghost predicate Closed(points: set<Coord>, s: set<Coord>) {
    forall a, b :: a in s && b in points && Adjacent(a, b) ==> b in s
  }

  lemma ConnectedSelf(points: set<Coord>, a: Coord)
    requires a in points
    ensures Connected(points, a, a)
  {
    assert IsPath(points, [a]);
  }

  lemma ConnectedStep(points: set<Coord>, a: Coord, b: Coord, c: Coord)
    requires Connected(points, a, b) && c in points && Adjacent(b, c)
    ensures Connected(points, a, c)
  {
    var path :| IsPath(points, path) && path[0] == a && path[|path| - 1] == b;
    var longer := path + [c];
    forall i | 0 < i < |longer| ensures Adjacent(longer[i - 1], longer[i]) {
      if i < |path| {
        assert Adjacent(path[i - 1], path[i]);
      }
    }
    assert IsPath(points, longer) && longer[0] == a && longer[|longer| - 1] == c;
  }

  /** A closed set that holds the start of a path holds its end. */
  lemma {:induction false} ClosedHoldsPath(points: set<Coord>, s: set<Coord>, path: seq<Coord>)
    requires Closed(points, s) && IsPath(points, path) && path[0] in s
    ensures path[|path| - 1] in s
  {
    if |path| > 1 {
      var shorter := path[..|path| - 1];
      assert IsPath(points, shorter) by {
        assert forall i :: 0 <= i < |shorter| ==> shorter[i] == path[i];
      }
      ClosedHoldsPath(points, s, shorter);
      assert Adjacent(path[|path| - 2], path[|path| - 1]);
    }
  }

  lemma ClosedHoldsComponent(points: set<Coord>, s: set<Coord>, a: Coord)
    requires Closed(points, s) && a in s
    ensures Component(points, a) <= s
  {
    forall x | x in Component(points, a) ensures x in s {
      var path :| IsPath(points, path) && path[0] == a && path[|path| - 1] == x;
      ClosedHoldsPath(points, s, path);
    }
  }

  lemma ComponentIsClosed(points: set<Coord>, a: Coord)
    ensures Closed(points, Component(points, a))
  {
    forall x, y | x in Component(points, a) && y in points && Adjacent(x, y) ensures y in Component(points, a) {
      ConnectedStep(points, a, x, y);
    }
  }

  /** What lies outside a closed set stays outside: adjacency is symmetric. */
  lemma RestIsClosed(points: set<Coord>, s: set<Coord>)
    requires Closed(points, s)
    ensures Closed(points, points - s)
  {
    forall a, b | a in points - s && b in points && Adjacent(a, b) ensures b in points - s {
      assert Adjacent(b, a);
    }
  }

  /** Points of one component have the same component. */
  lemma SameComponent(points: set<Coord>, a: Coord, b: Coord)
    requires a in points && b in Component(points, a)
    ensures Component(points, b) == Component(points, a)
  {
    ConnectedSelf(points, a);
    ConnectedSelf(points, b);
    ComponentIsClosed(points, a);
    ClosedHoldsComponent(points, Component(points, a), b);
    ComponentIsClosed(points, b);
    if a !in Component(points, b) {
      RestIsClosed(points, Component(points, b));
      ClosedHoldsComponent(points, points - Component(points, b), a);
      assert false;
    }
    ClosedHoldsComponent(points, Component(points, b), a);
  }

  // ---------------------------------------------------------------------------
  // Breadth-first search
  // ---------------------------------------------------------------------------

  ghost predicate Distinct(s: seq<Coord>) {
    forall i, j :: 0 <= i < j < |s| ==> s[i] != s[j]
  }

  function Elements(s: seq<Coord>): (r: set<Coord>) {
    set x | x in s
  }

  /** The neighbours of `curr` that are not seen yet, in the order of the first j offsets. */
  ghost function Fresh(points: set<Coord>, seen: set<Coord>, curr: Coord, j: nat): (more: seq<Coord>)
    requires j <= |Offsets(|curr|)|
    ensures forall x :: x in more ==> x in points && x !in seen
  {
    if j == 0 then []
    else
      var more, offset := Fresh(points, seen, curr, j - 1), Offsets(|curr|)[j - 1];
      var next := Shift(curr, offset);
      if !Still(offset) && next in points && next !in seen && next !in more then more + [next] else more
  }

  ghost function FreshNeighbours(points: set<Coord>, seen: set<Coord>, curr: Coord): seq<Coord> {
    Fresh(points, seen, curr, |Offsets(|curr|)|)
  }

  /** Only what is seen next to `curr` matters. */
  lemma {:induction false} FreshIsLocal(points: set<Coord>, a: set<Coord>, b: set<Coord>, curr: Coord, j: nat)
    requires j <= |Offsets(|curr|)| && forall x :: x in points && Adjacent(curr, x) ==> (x in a <==> x in b)
    ensures Fresh(points, a, curr, j) == Fresh(points, b, curr, j)
  {
    hide Offsets, Adjacent, Still, Shift;
    if j > 0 {
      FreshIsLocal(points, a, b, curr, j - 1);
      var offset := Offsets(|curr|)[j - 1];
      if !Still(offset) {
        NeighbourIsAdjacent(curr, Shift(curr, offset), offset);
      }
    }
  }

  /** The breadth-first order: each point found is followed up in turn. */
  ghost function Search(points: set<Coord>, found: seq<Coord>, i: nat): seq<Coord>
    decreases |points - Elements(found)|, if i < |found| then |found| - i else 0
  {
    if i >= |found| then found
    else
      var more := FreshNeighbours(points, Elements(found), found[i]);
      if more == [] then Search(points, found, i + 1)
      else
        SearchShrinks(points, found, more);
        Search(points, found + more, i + 1)
  }

  ghost function Searched(points: set<Coord>, start: Coord): seq<Coord> {
    Search(points, [start], 0)
  }

  lemma SearchShrinks(points: set<Coord>, found: seq<Coord>, more: seq<Coord>)
    requires more != [] && forall x :: x in more ==> x in points && x !in Elements(found)
    ensures |points - Elements(found + more)| < |points - Elements(found)|
  {
    assert more[0] in more && more[0] in Elements(found + more);
    Smaller(points - Elements(found + more), points - Elements(found));
  }

  lemma SearchUnfolds(points: set<Coord>, found: seq<Coord>, i: nat)
    requires i < |found|
    ensures Search(points, found + FreshNeighbours(points, Elements(found), found[i]), i + 1) ==
      Search(points, found, i)
  {
    assert found + [] == found;
    hide FreshNeighbours;
  }

  lemma SearchEnds(points: set<Coord>, found: seq<Coord>)
    ensures Search(points, found, |found|) == found
  {
  }

  /** The new neighbours are distinct, and exactly the unseen points next to `curr`. */
  lemma FreshIs(points: set<Coord>, seen: set<Coord>, curr: Coord)
    ensures Distinct(FreshNeighbours(points, seen, curr))
    ensures forall x :: x in FreshNeighbours(points, seen, curr) <==> x in points && x !in seen && Adjacent(curr, x)
  {
    var offsets := Offsets(|curr|);
    FreshAreNeighbours(points, seen, curr, |offsets|);
    forall x | x in points && x !in seen && Adjacent(curr, x) ensures x in FreshNeighbours(points, seen, curr) {
      AdjacentIsNeighbour(curr, x);
      var i :| 0 <= i < |offsets| && offsets[i] == Difference(x, curr);
      FreshFollows(points, seen, curr, |offsets|, i);
      hide Fresh, Offsets;
    }
  }

  lemma {:induction false} FreshAreNeighbours(points: set<Coord>, seen: set<Coord>, curr: Coord, j: nat)
    requires j <= |Offsets(|curr|)|
    ensures Distinct(Fresh(points, seen, curr, j)) &&
      forall x :: x in Fresh(points, seen, curr, j) ==> Adjacent(curr, x)
  {
    hide Offsets, Adjacent, Still, Shift;
    if j > 0 {
      FreshAreNeighbours(points, seen, curr, j - 1);
      var offset := Offsets(|curr|)[j - 1];
      if !Still(offset) {
        NeighbourIsAdjacent(curr, Shift(curr, offset), offset);
      }
    }
  }

  lemma {:induction false} FreshFollows(points: set<Coord>, seen: set<Coord>, curr: Coord, j: nat, i: nat)
    requires i < j <= |Offsets(|curr|)|
    ensures Followed(points, seen, curr, Fresh(points, seen, curr, j), Offsets(|curr|)[i])
  {
    hide Offsets, Still, Shift;
    if i < j - 1 {
      FreshFollows(points, seen, curr, j - 1, i);
    }
  }

  ghost predicate Followed(points: set<Coord>, seen: set<Coord>, curr: Coord, more: seq<Coord>, offset: Coord)
    requires |offset| == |curr|
  {
    !Still(offset) && Shift(curr, offset) in points && Shift(curr, offset) !in seen ==> Shift(curr, offset) in more
  }

  /** Queues the unvisited neighbours of `curr`. */
  method Expand(points: set<Coord>, curr: Coord, visited0: set<Coord>, queue0: seq<Coord>)
    returns (visited: set<Coord>, queue: seq<Coord>)
    requires Distinct(queue0) && Elements(queue0) <= visited0 <= points
    ensures Distinct(queue) && queue0 <= queue && visited0 <= visited <= points
    ensures forall x :: x in visited - visited0 <==> x in points && x !in visited0 && Adjacent(curr, x)
    ensures Elements(queue) == Elements(queue0) + (visited - visited0)
    ensures queue == queue0 + FreshNeighbours(points, visited0, curr)
  {
    hide Offsets, Shift, Still, Adjacent, Distinct;
    visited, queue := visited0, queue0;
    var offsets := Offsets(|curr|);
    ghost var more := [];
    for j := 0 to |offsets|
      invariant more == Fresh(points, visited0, curr, j)
      invariant queue == queue0 + more && visited == visited0 + Elements(more)
    {
      if !Still(offsets[j]) {
        var next := Shift(curr, offsets[j]);
        if next in points && next !in visited {
          visited := visited + {next};
          queue := queue + [next];
          more := more + [next];
        }
      }
    }
    hide Fresh;
    FreshIs(points, visited0, curr);
    Appended(visited0, queue0, more);
  }

  lemma Appended(visited: set<Coord>, queue: seq<Coord>, more: seq<Coord>)
    requires Distinct(queue) && Distinct(more) && Elements(queue) <= visited && forall x :: x in more ==> x !in visited
    ensures Distinct(queue + more) && Elements(queue + more) == Elements(queue) + Elements(more)
  {
    forall i, j | 0 <= i < |queue| <= j < |queue + more| ensures (queue + more)[i] != (queue + more)[j] {
      assert queue[i] in Elements(queue) && more[j - |queue|] in more;
    }
  }

  /** Everything expanded has its neighbours visited, and only the component of `start` is touched. */
  ghost predicate FloodInv(
    points: set<Coord>, start: Coord, visited0: set<Coord>, visited: set<Coord>, cluster: seq<Coord>,
    queue: seq<Coord>) {
    && Distinct(cluster) && Distinct(queue) && Elements(cluster) !! Elements(queue)
    && visited0 !! (Elements(cluster) + Elements(queue))
    && visited == visited0 + Elements(cluster) + Elements(queue) && visited <= points
    && start in visited - visited0
    && Elements(cluster) + Elements(queue) <= Component(points, start)
    && forall x, y :: x in cluster && y in points && Adjacent(x, y) ==> y in visited
  }

  lemma ExpandKeeps(
    points: set<Coord>, start: Coord, visited0: set<Coord>, visited: set<Coord>, cluster: seq<Coord>, queue: seq<Coord>,
    visited2: set<Coord>, queue2: seq<Coord>)
    requires FloodInv(points, start, visited0, visited, cluster, queue) && queue != []
    requires Distinct(queue2) && visited <= visited2 <= points
    requires forall x :: x in visited2 - visited <==> x in points && x !in visited && Adjacent(queue[0], x)
    requires Elements(queue2) == Elements(queue[1..]) + (visited2 - visited)
    ensures FloodInv(points, start, visited0, visited2, cluster + [queue[0]], queue2)
  {
    var curr := queue[0];
    assert queue == [curr] + queue[1..];
    assert Elements(queue) == {curr} + Elements(queue[1..]) && curr !in queue[1..];
    assert Elements(cluster + [curr]) == Elements(cluster) + {curr};
    assert curr in Elements(queue);
    forall x | x in visited2 - visited ensures x in Component(points, start) {
      ConnectedStep(points, start, curr, x);
    }
  }

  lemma FloodIsComponent(
    points: set<Coord>, start: Coord, visited0: set<Coord>, visited: set<Coord>, cluster: seq<Coord>)
    requires FloodInv(points, start, visited0, visited, cluster, []) && visited0 <= points && Closed(points, visited0)
    ensures Elements(cluster) == Component(points, start) && Closed(points, visited) && Distinct(cluster)
    ensures visited == visited0 + Elements(cluster) && Elements(cluster) !! visited0
  {
    NoElements();
    RestIsClosed(points, visited0);
    assert Closed(points, Elements(cluster)) by {
      forall x, y | x in Elements(cluster) && y in points && Adjacent(x, y) ensures y in Elements(cluster) {
        assert x in points - visited0;
      }
    }
    hide Component;
    ClosedHoldsComponent(points, Elements(cluster), start);
  }

  /** One breadth-first search collects exactly the component of its start. */
  method Flood(points: set<Coord>, start: Coord, visited0: set<Coord>)
    returns (cluster: seq<Coord>, visited: set<Coord>)
    requires start in points && start !in visited0 && visited0 <= points && Closed(points, visited0)
    ensures Distinct(cluster) && Elements(cluster) == Component(points, start)
    ensures cluster == Searched(points, start)
    ensures visited == visited0 + Elements(cluster) && Elements(cluster) !! visited0 && Closed(points, visited)
  {
    ConnectedSelf(points, start);
    assert Elements([start]) == {start};
    cluster := [];
    var queue := [start];
    visited := visited0 + {start};
    assert start in Component(points, start);
    assert FloodInv(points, start, visited0, visited, cluster, queue) by { FloodStarts(points, start, visited0); }
    assert cluster + queue == [start];
    hide Component, Elements, Adjacent, Closed, FloodInv, Distinct, Search;
    while queue != []
      invariant FloodInv(points, start, visited0, visited, cluster, queue)
      invariant Search(points, cluster + queue, |cluster|) == Searched(points, start)
      decreases |points - visited|, |queue|
    {
      cluster, visited, queue := FloodRound(points, start, visited0, cluster, visited, queue);
    }
    FloodIsComponent(points, start, visited0, visited, cluster);
    SearchEnds(points, cluster);
    assert cluster + queue == cluster;
  }

  /** One round: the head of the queue joins the cluster and its unvisited neighbours the queue. */
  method FloodRound(
    points: set<Coord>, start: Coord, ghost visited0: set<Coord>, cluster0: seq<Coord>, before: set<Coord>,
    waiting: seq<Coord>)
    returns (cluster: seq<Coord>, visited: set<Coord>, queue: seq<Coord>)
    requires FloodInv(points, start, visited0, before, cluster0, waiting) && Closed(points, visited0) && waiting != []
    ensures FloodInv(points, start, visited0, visited, cluster, queue)
    ensures Search(points, cluster + queue, |cluster|) == Search(points, cluster0 + waiting, |cluster0|)
    ensures |points - visited| < |points - before| || (|points - visited| == |points - before| && |queue| < |waiting|)
  {
    hide Component, Elements, Adjacent, Closed, FloodInv, Distinct, Search, FreshNeighbours;
    FloodFacts(points, start, visited0, before, cluster0, waiting);
    var curr := waiting[0];
    visited, queue := Expand(points, curr, before, waiting[1..]);
    ExpandKeeps(points, start, visited0, before, cluster0, waiting, visited, queue);
    SearchStep(points, start, visited0, before, cluster0, waiting, queue);
    cluster := cluster0 + [curr];
    FloodMeasure(points, before, visited, waiting, queue);
  }

  /** What is visited next to the head of the queue is what this search has found. */
  lemma SeenByThis(
    points: set<Coord>, start: Coord, visited0: set<Coord>, visited: set<Coord>, cluster: seq<Coord>, queue: seq<Coord>,
    x: Coord)
    requires FloodInv(points, start, visited0, visited, cluster, queue) && Closed(points, visited0) && queue != []
    requires x in points && Adjacent(queue[0], x)
    ensures x in visited <==> x in Elements(cluster + queue)
  {
    assert queue[0] in Elements(queue) && queue[0] in points;
    assert Adjacent(x, queue[0]);
    hide Adjacent;
    assert x !in visited0;
    hide Closed;
  }

  /** One round of the search, from the side of the queue. */
  lemma SearchStep(
    points: set<Coord>, start: Coord, visited0: set<Coord>, visited: set<Coord>, cluster: seq<Coord>, queue: seq<Coord>,
    queue2: seq<Coord>)
    requires FloodInv(points, start, visited0, visited, cluster, queue) && Closed(points, visited0) && queue != []
    requires queue2 == queue[1..] + FreshNeighbours(points, visited, queue[0])
    ensures Search(points, cluster + [queue[0]] + queue2, |cluster| + 1) == Search(points, cluster + queue, |cluster|)
  {
    hide FloodInv, Closed, Adjacent, Search, Elements, Fresh, Offsets;
    var found, curr := cluster + queue, queue[0];
    forall x | x in points && Adjacent(curr, x) ensures x in visited <==> x in Elements(found) {
      SeenByThis(points, start, visited0, visited, cluster, queue, x);
    }
    FreshIsLocal(points, visited, Elements(found), curr, |Offsets(|curr|)|);
    var more := FreshNeighbours(points, Elements(found), curr);
    SearchUnfolds(points, found, |cluster|);
    assert queue2 == queue[1..] + more;
    hide FreshNeighbours;
    assert cluster + [curr] + queue2 == found + more;
  }

  lemma FloodFacts(
    points: set<Coord>, start: Coord, visited0: set<Coord>, visited: set<Coord>, cluster: seq<Coord>, queue: seq<Coord>)
    requires FloodInv(points, start, visited0, visited, cluster, queue) && queue != []
    ensures Distinct(queue) && Distinct(queue[1..]) && Elements(queue[1..]) <= visited <= points
  {
    QueueTail(queue);
  }

  lemma NoElements()
    ensures Elements([]) == {}
  {
  }

  lemma QueueTail(queue: seq<Coord>)
    requires queue != [] && Distinct(queue)
    ensures Distinct(queue[1..]) && Elements(queue[1..]) <= Elements(queue)
  {
  }

  lemma FloodStarts(points: set<Coord>, start: Coord, visited0: set<Coord>)
    requires start in points && start !in visited0 && visited0 <= points && start in Component(points, start)
    ensures FloodInv(points, start, visited0, visited0 + {start}, [], [start])
  {
    assert Elements([start]) == {start} && Elements([]) == {};
  }

  /** Either something new is visited or the queue is one shorter. */
  lemma FloodMeasure(
    points: set<Coord>, before: set<Coord>, visited: set<Coord>, waiting: seq<Coord>, queue: seq<Coord>)
    requires before <= visited <= points && waiting != [] && Distinct(waiting) && Distinct(queue)
    requires Elements(queue) == Elements(waiting[1..]) + (visited - before)
    ensures |points - visited| < |points - before| || (|points - visited| == |points - before| && |queue| < |waiting|)
  {
    if visited == before {
      DistinctSize(queue);
      DistinctSize(waiting[1..]);
    } else {
      var x :| x in visited && x !in before;
      assert points - visited < points - before;
      Smaller(points - visited, points - before);
    }
  }

  lemma {:induction false} Smaller(a: set<Coord>, b: set<Coord>)
    requires a < b
    ensures |a| < |b|
  {
    var x :| x in b && x !in a;
    assert a <= b - {x};
    SmallerOrEqual(a, b - {x});
  }

  lemma {:induction false} SmallerOrEqual(a: set<Coord>, b: set<Coord>)
    requires a <= b
    ensures |a| <= |b|
  {
    if a != {} {
      var x :| x in a;
      SmallerOrEqual(a - {x}, b - {x});
    }
  }

  lemma {:induction false} DistinctSize(s: seq<Coord>)
    requires Distinct(s)
    ensures |Elements(s)| == |s|
  {
    if s != [] {
      var rest, last := s[..|s| - 1], s[|s| - 1];
      assert s == rest + [last] && last !in rest;
      assert Elements(s) == Elements(rest) + {last};
      DistinctSize(rest);
    }
  }

  ghost predicate Covered(components: seq<seq<Coord>>, x: Coord) {
    exists j :: 0 <= j < |components| && x in components[j]
  }

  /** Each list is one whole component, without repetition; the lists are disjoint. */
  ghost predicate AreComponents(points: set<Coord>, components: seq<seq<Coord>>) {
    && (forall j :: 0 <= j < |components| ==> IsComponent(points, components[j]))
    && (forall i, j :: 0 <= i < j < |components| ==> Elements(components[i]) !! Elements(components[j]))
  }

  ghost predicate IsComponent(points: set<Coord>, c: seq<Coord>) {
    c != [] && Distinct(c) && Elements(c) <= points && forall x :: x in c ==> Elements(c) == Component(points, x)
  }

  lemma FloodedIsComponent(points: set<Coord>, start: Coord, cluster: seq<Coord>)
    requires start in points && Distinct(cluster) && Elements(cluster) == Component(points, start)
    ensures IsComponent(points, cluster) && start in Elements(cluster)
  {
    ConnectedSelf(points, start);
    assert start in Elements(cluster);
    forall x | x in cluster ensures Elements(cluster) == Component(points, x) {
      assert x in Elements(cluster);
      SameComponent(points, start, x);
    }
  }

  /** Component j was found at `starts[j]`, its first key, and is in the order of the search from there;
      later components were found later. */
  ghost predicate FoundInOrder(keys: seq<Coord>, components: seq<seq<Coord>>, starts: seq<nat>, n: nat) {
    && |starts| == |components|
    && (forall j ::
      0 <= j < |starts| ==> starts[j] < n && starts[j] < |keys| && IsFirstKey(keys, components[j], starts[j]))
    && (forall j :: 0 <= j < |starts| ==> components[j] == Searched(Elements(keys), keys[starts[j]]))
    && (forall i, j :: 0 <= i < j < |starts| ==> starts[i] < starts[j])
  }

  ghost predicate IsFirstKey(keys: seq<Coord>, component: seq<Coord>, p: nat)
    requires p < |keys|
  {
    keys[p] in component && forall k :: 0 <= k < p ==> keys[k] !in component
  }

  /** The clusters are exactly the connected components, in the order of their first keys. */
  method Components(keys: seq<Coord>) returns (components: seq<seq<Coord>>, ghost starts: seq<nat>)
    ensures AreComponents(Elements(keys), components)
    ensures forall x :: x in keys <==> Covered(components, x)
    ensures FoundInOrder(keys, components, starts, |keys|)
  {
    var points := Elements(keys);
    components := [];
    starts := [];
    var visited: set<Coord> := {};
    NoComponents(points);
    hide AreComponents, IsComponent, Component, Covered, Closed, Searched;
    for i := 0 to |keys|
      invariant visited <= points && Closed(points, visited)
      invariant AreComponents(points, components)
      invariant forall x :: x in visited <==> Covered(components, x)
      invariant forall k :: 0 <= k < i ==> keys[k] in visited
      invariant FoundInOrder(keys, components, starts, i)
    {
      FoundLater(keys, components, starts, i);
      if keys[i] !in visited {
        assert keys[i] in points;
        var cluster, after := Flood(points, keys[i], visited);
        FloodedIsComponent(points, keys[i], cluster);
        OneMoreComponent(points, visited, components, cluster);
        OneMoreFound(keys, components, starts, i, visited, cluster);
        components := components + [cluster];
        starts := starts + [i];
        visited := after;
      }
    }
  }

  lemma FoundLater(keys: seq<Coord>, components: seq<seq<Coord>>, starts: seq<nat>, n: nat)
    requires FoundInOrder(keys, components, starts, n)
    ensures FoundInOrder(keys, components, starts, n + 1)
  {
  }

  lemma OneMoreFound(
    keys: seq<Coord>, components: seq<seq<Coord>>, starts: seq<nat>, i: nat, visited: set<Coord>, cluster: seq<Coord>)
    requires i < |keys| && FoundInOrder(keys, components, starts, i)
    requires (forall k :: 0 <= k < i ==> keys[k] in visited) && keys[i] in Elements(cluster) &&
      Elements(cluster) !! visited
    requires cluster == Searched(Elements(keys), keys[i])
    ensures FoundInOrder(keys, components + [cluster], starts + [i], i + 1)
  {
    assert IsFirstKey(keys, cluster, i);
    hide IsFirstKey;
  }

  lemma NoComponents(points: set<Coord>)
    ensures AreComponents(points, []) && Closed(points, {}) && forall x :: !Covered([], x)
  {
  }

  lemma OneMoreComponent(points: set<Coord>, visited: set<Coord>, components: seq<seq<Coord>>, cluster: seq<Coord>)
    requires AreComponents(points, components) && (forall x :: x in visited <==> Covered(components, x))
    requires IsComponent(points, cluster) && Elements(cluster) !! visited
    ensures AreComponents(points, components + [cluster])
    ensures forall x :: x in visited + Elements(cluster) <==> Covered(components + [cluster], x)
  {
    hide IsComponent;
    var more := components + [cluster];
    forall i | 0 <= i < |components| ensures Elements(components[i]) !! Elements(cluster) {
      forall x | x in Elements(components[i]) ensures x in visited {
        assert Covered(components, x);
      }
    }
    forall x ensures x in visited + Elements(cluster) <==> Covered(more, x) {
      if x in visited {
        var j :| 0 <= j < |components| && x in components[j];
        assert x in more[j];
      } else if x in cluster {
        assert x in more[|components|];
      }
    }
  }

  // ---------------------------------------------------------------------------
  // The widest component and its centre
  // ---------------------------------------------------------------------------

  /** `max(components, key=len)`: the first of the longest. */
  method Widest(components: seq<seq<Coord>>) returns (w: nat)
    requires components != []
    ensures w < |components|
    ensures forall j :: 0 <= j < |components| ==> |components[j]| <= |components[w]|
    ensures forall j :: 0 <= j < w ==> |components[j]| < |components[w]|
  {
    w := 0;
    for i := 1 to |components|
      invariant w < i
      invariant forall j :: 0 <= j < i ==> |components[j]| <= |components[w]|
      invariant forall j :: 0 <= j < w ==> |components[j]| < |components[w]|
    {
      if |components[i]| > |components[w]| {
        w := i;
      }
    }
  }

  ghost predicate Dimension(cluster: seq<Coord>, d: nat) {
    forall i :: 0 <= i < |cluster| ==> |cluster[i]| == d
  }

  function SumAlong(cluster: seq<Coord>, d: nat, k: nat): int
    requires Dimension(cluster, d) && k < d
  {
    if cluster == [] then 0 else SumAlong(cluster[..|cluster| - 1], d, k) + cluster[|cluster| - 1][k]
  }

  function Mean(cluster: seq<Coord>, d: nat, k: nat): real
    requires Dimension(cluster, d) && k < d && cluster != []
  {
    SumAlong(cluster, d, k) as real / |cluster| as real
  }

  function Square(x: real): real {
    x * x
  }

  /** Squared distance from `c` to the centroid, over the first k dimensions. */
  function Distance(cluster: seq<Coord>, d: nat, c: Coord, k: nat): real
    requires Dimension(cluster, d) && cluster != [] && |c| == d && k <= d
  {
    if k == 0 then 0.0
    else
      Distance(cluster, d, c, k - 1) + Square(c[k - 1] as real - Mean(cluster, d, k - 1))
  }

  /** Nearer to the centroid, or as near with a metric at least as high. */
  predicate AtLeastAsGood(cluster: seq<Coord>, d: nat, metric: map<Coord, real>, a: Coord, b: Coord)
    requires Dimension(cluster, d) && cluster != [] && |a| == d && |b| == d && a in metric && b in metric
  {
    var da, db := Distance(cluster, d, a, d), Distance(cluster, d, b, d);
    da < db || (da == db && metric[a] >= metric[b])
  }

  /** Member b is the first of the best: no other is better, and all before it are worse. */
  ghost predicate FirstBest(cluster: seq<Coord>, d: nat, metric: map<Coord, real>, b: nat)
    requires Dimension(cluster, d) && forall x :: x in cluster ==> x in metric
  {
    && b < |cluster|
    && (forall j :: 0 <= j < |cluster| ==> AtLeastAsGood(cluster, d, metric, cluster[b], cluster[j]))
    && (forall j :: 0 <= j < b ==> !AtLeastAsGood(cluster, d, metric, cluster[j], cluster[b]))
  }

  /** The member nearest to the centroid, the higher metric among equally near ones, the first in
      order of discovery among those. */
  method Nearest(cluster: seq<Coord>, d: nat, metric: map<Coord, real>) returns (b: nat)
    requires cluster != [] && Dimension(cluster, d) && forall x :: x in cluster ==> x in metric
    ensures b < |cluster| && FirstBest(cluster, d, metric, b)
  {
    hide Distance;
    b := 0;
    for i := 1 to |cluster|
      invariant b < i
      invariant forall j :: 0 <= j < i ==> AtLeastAsGood(cluster, d, metric, cluster[b], cluster[j])
      invariant forall j :: 0 <= j < b ==> !AtLeastAsGood(cluster, d, metric, cluster[j], cluster[b])
    {
      if !AtLeastAsGood(cluster, d, metric, cluster[b], cluster[i]) {
        b := i;
      }
    }
  }

  /** Sum of the squared gaps to `t` along dimension k. */
  ghost function Spread(cluster: seq<Coord>, d: nat, k: nat, t: real): real
    requires Dimension(cluster, d) && k < d
  {
    if cluster == [] then 0.0
    else
      Spread(cluster[..|cluster| - 1], d, k, t) + Square(cluster[|cluster| - 1][k] as real - t)
  }

  ghost function Excess(sum: real, n: real, m: real, t: real): real {
    2.0 * (m - t) * (sum - n * m) + n * (m - t) * (m - t)
  }

  lemma {:induction false} SpreadAround(cluster: seq<Coord>, d: nat, k: nat, m: real, t: real)
    requires Dimension(cluster, d) && k < d
    ensures Spread(cluster, d, k, t) == Spread(cluster, d, k, m) +
      Excess(SumAlong(cluster, d, k) as real, |cluster| as real, m, t)
  {
    if cluster == [] {
      assert Excess(0.0, 0.0, m, t) == 0.0;
    } else {
      hide Square, Excess;
      var rest, p := cluster[..|cluster| - 1], cluster[|cluster| - 1][k];
      SpreadAround(rest, d, k, m, t);
      OneGap(SumAlong(rest, d, k) as real, |rest| as real, p as real, m, t);
      assert SumAlong(cluster, d, k) as real == SumAlong(rest, d, k) as real + p as real;
      assert |cluster| as real == |rest| as real + 1.0;
    }
  }

  lemma OneGap(sum: real, n: real, p: real, m: real, t: real)
    ensures Excess(sum + p, n + 1.0, m, t) == Excess(sum, n, m, t) + Square(p - t) - Square(p - m)
  {
  }

  lemma ExcessAtMean(sum: real, n: real, m: real, t: real)
    requires n > 0.0 && m == sum / n
    ensures Excess(sum, n, m, t) >= 0.0
  {
    assert sum - n * m == 0.0;
    assert Square(m - t) >= 0.0;
    WeightIsPositive(n, Square(m - t));
    assert Excess(sum, n, m, t) == n * Square(m - t);
  }

  lemma WeightIsPositive(n: real, x: real)
    requires n > 0.0 && x >= 0.0
    ensures n * x >= 0.0
  {
  }

  /** The point the distances are taken to is the least-squares centre of the cluster. */
  lemma MeanIsCentre(cluster: seq<Coord>, d: nat, k: nat, t: real)
    requires Dimension(cluster, d) && k < d && cluster != []
    ensures Spread(cluster, d, k, Mean(cluster, d, k)) <= Spread(cluster, d, k, t)
  {
    hide Excess, Spread;
    var m, n := Mean(cluster, d, k), |cluster| as real;
    SpreadAround(cluster, d, k, m, t);
    ExcessAtMean(SumAlong(cluster, d, k) as real, n, m, t);
  }

  // ---------------------------------------------------------------------------
  // Result rows on the grid
  // ---------------------------------------------------------------------------

  /** A result row: its parameter values by dimension and its metric, None when missing or NaN. */
  datatype Row = Row(values: seq<Option<string>>, metric: Option<real>)

  /** `{val: idx for idx, val in enumerate(vals)}`: the last index of a value. */
  function IndexOf(vals: seq<string>, v: string): (i: Option<nat>)
    ensures i.None? <==> v !in vals
    ensures i.Some? ==> i.value < |vals| && vals[i.value] == v && v !in vals[i.value + 1..]
  {
    if vals == [] then None
    else if vals[|vals| - 1] == v then Some(|vals| - 1)
    else
      var before := IndexOf(vals[..|vals| - 1], v);
      assert vals == vals[..|vals| - 1] + [vals[|vals| - 1]];
      before
  }

  ghost predicate InGrid(grid: seq<seq<string>>, c: Coord) {
    |c| == |grid| && forall k :: 0 <= k < |c| ==> 0 <= c[k] < |grid[k]|
  }

  /** The coordinates of the first n dimensions of a row, None when one value is off the grid. */
  function Place(grid: seq<seq<string>>, row: Row, n: nat): (c: Option<Coord>)
    requires n <= |grid|
    ensures c.Some? ==> |c.value| == n && forall k :: 0 <= k < n ==> 0 <= c.value[k] < |grid[k]|
  {
    if n == 0 then Some([])
    else
      var before := Place(grid, row, n - 1);
      if before.None? || n > |row.values| || row.values[n - 1].None? then None
      else
        var i := IndexOf(grid[n - 1], row.values[n - 1].value);
        if i.None? then None else Some(before.value + [i.value as int])
  }

  /** The records of the first n rows. */
  ghost function Records(grid: seq<seq<string>>, rows: seq<Row>, n: nat): (records: seq<Record>)
    requires n <= |rows|
    ensures forall i :: 0 <= i < |records| ==> InGrid(grid, records[i].coords)
  {
    if n == 0 then []
    else
      var c := Place(grid, rows[n - 1], |grid|);
      Records(grid, rows, n - 1) +
        (if c.None? then []
          else [Record(n - 1, c.value, if rows[n - 1].metric.None? then 0.0 else rows[n - 1].metric.value)])
  }

  /** `m` holds the last record at each evaluated point. */
  ghost predicate HoldsLatest(records: seq<Record>, m: map<Coord, Record>) {
    && (forall i :: 0 <= i < |records| ==> records[i].coords in m)
    && (forall c :: c in m ==> m[c].coords == c && IsLatest(records, m[c]))
  }

  ghost predicate IsLatest(records: seq<Record>, r: Record) {
    exists i :: 0 <= i < |records| && records[i] == r && forall j :: i < j < |records| ==> records[j].coords != r.coords
  }

  lemma PutKeepsLatest(records: seq<Record>, m: map<Coord, Record>, r: Record)
    requires HoldsLatest(records, m)
    ensures HoldsLatest(records + [r], m[r.coords := r])
  {
    var more := records + [r];
    assert more[|records|] == r;
    forall x: Record | x.coords != r.coords && IsLatest(records, x) ensures IsLatest(more, x) {
      var i :| 0 <= i < |records| && records[i] == x && forall j :: i < j < |records| ==> records[j].coords != x.coords;
      assert more[i] == x;
    }
  }

  /** Places the result rows on the grid; a later row at the same point replaces an earlier one. */
  method BuildRecords(grid: seq<seq<string>>, rows: seq<Row>) returns (records: seq<Record>, latest: map<Coord, Record>)
    ensures records == Records(grid, rows, |rows|) && HoldsLatest(records, latest)
  {
    records, latest := [], map[];
    for n := 0 to |rows|
      invariant records == Records(grid, rows, n) && HoldsLatest(records, latest)
    {
      var c := Place(grid, rows[n], |grid|);
      if c.Some? {
        var r := Record(n, c.value, if rows[n].metric.None? then 0.0 else rows[n].metric.value);
        PutKeepsLatest(records, latest, r);
        records, latest := records + [r], latest[c.value := r];
      }
    }
  }

  // ---------------------------------------------------------------------------
  // Plateau points
  // ---------------------------------------------------------------------------

  /** Above the threshold, like every evaluated neighbour. */
  ghost predicate OnPlateau(latest: map<Coord, Record>, floor: real, r: Record) {
    r.metric > floor && forall c :: c in latest && Adjacent(r.coords, c) ==> latest[c].metric > floor
  }

  /** Walks the neighbour offsets of a record and stops at a bad neighbour. */
  method CheckPoint(grid: seq<seq<string>>, latest: map<Coord, Record>, floor: real, r: Record) returns (ok: bool)
    requires InGrid(grid, r.coords) && forall c :: c in latest ==> InGrid(grid, c)
    ensures ok <==> OnPlateau(latest, floor, r)
  {
    if r.metric <= floor {
      return false;
    }
    var offsets := Offsets(|r.coords|);
    for j := 0 to |offsets|
      invariant forall i :: 0 <= i < j && !Still(offsets[i]) && Shift(r.coords, offsets[i]) in latest ==>
        latest[Shift(r.coords, offsets[i])].metric > floor
    {
      var next := Shift(r.coords, offsets[j]);
      if !Still(offsets[j]) && (forall k :: 0 <= k < |next| ==> 0 <= next[k] < |grid[k]|) && next in latest &&
        latest[next].metric <= floor {
        NeighbourIsAdjacent(r.coords, next, offsets[j]);
        return false;
      }
    }
    forall c | c in latest && Adjacent(r.coords, c) ensures latest[c].metric > floor {
      AdjacentIsNeighbour(r.coords, c);
    }
    ok := true;
  }

  /** The grid points with a plateau record. */
  ghost predicate IsPlateauPoint(records: seq<Record>, latest: map<Coord, Record>, floor: real, c: Coord) {
    exists i :: 0 <= i < |records| && records[i].coords == c && OnPlateau(latest, floor, records[i])
  }

  /** Collects the plateau: its points in order of first appearance and, for each, its last plateau
      record. */
  method CollectPlateau(grid: seq<seq<string>>, records: seq<Record>, latest: map<Coord, Record>, floor: real)
    returns (keys: seq<Coord>, items: map<Coord, Record>)
    requires HoldsLatest(records, latest) && forall i :: 0 <= i < |records| ==> InGrid(grid, records[i].coords)
    ensures Collected(records, latest, floor, |records|, keys, items)
  {
    LatestInGrid(grid, records, latest);
    hide OnPlateau, InGrid, HoldsLatest;
    keys, items := [], map[];
    assert Collected(records, latest, floor, 0, keys, items);
    hide Collected;
    for n := 0 to |records|
      invariant Collected(records, latest, floor, n, keys, items)
    {
      var r := records[n];
      var ok := CheckPoint(grid, latest, floor, r);
      OneMoreCollected(records, latest, floor, n, keys, items);
      if ok {
        keys := if r.coords in items then keys else keys + [r.coords];
        items := items[r.coords := r];
      }
    }
  }

  /** The plateau points among the first n records: in order of first appearance, each with its last
      plateau record. */
  ghost predicate Collected(
    records: seq<Record>, latest: map<Coord, Record>, floor: real, n: nat, keys: seq<Coord>, items: map<Coord, Record>)
    requires n <= |records|
  {
    && Distinct(keys) && (forall c :: c in keys <==> IsPlateauPoint(records[..n], latest, floor, c))
    && (forall c :: c in keys <==> c in items)
    && (forall c :: c in items ==> items[c].coords == c && IsLastPlateauRecord(records[..n], latest, floor, items[c]))
    && (forall p :: 0 <= p < |keys| ==> AppearsInTurn(records[..n], latest, floor, keys, p))
  }

  ghost predicate IsLastPlateauRecord(records: seq<Record>, latest: map<Coord, Record>, floor: real, r: Record) {
    && OnPlateau(latest, floor, r)
    && exists i :: 0 <= i < |records| && records[i] == r &&
         forall k :: i < k < |records| && records[k].coords == r.coords ==> !OnPlateau(latest, floor, records[k])
  }

  /** Key p appears first in a plateau record before which only earlier keys appear. */
  ghost predicate AppearsInTurn(records: seq<Record>, latest: map<Coord, Record>, floor: real, keys: seq<Coord>, p: nat)
    requires p < |keys|
  {
    exists i :: 0 <= i < |records| && records[i].coords == keys[p] && OnPlateau(latest, floor, records[i]) &&
      forall k :: 0 <= k < i && OnPlateau(latest, floor, records[k]) ==> records[k].coords in keys[..p]
  }

  lemma LatestInGrid(grid: seq<seq<string>>, records: seq<Record>, latest: map<Coord, Record>)
    requires HoldsLatest(records, latest) && forall i :: 0 <= i < |records| ==> InGrid(grid, records[i].coords)
    ensures forall c :: c in latest ==> InGrid(grid, c)
  {
    hide InGrid;
    forall c | c in latest ensures InGrid(grid, c) {
      assert IsLatest(records, latest[c]);
    }
  }

  lemma OneMoreCollected(
    records: seq<Record>, latest: map<Coord, Record>, floor: real, n: nat, keys: seq<Coord>, items: map<Coord, Record>)
    requires n < |records| && Collected(records, latest, floor, n, keys, items)
    ensures var r := records[n];
      if OnPlateau(latest, floor, r) then
        var more := if r.coords in items then keys else keys + [r.coords];
        Collected(records, latest, floor, n + 1, more, items[r.coords := r])
      else Collected(records, latest, floor, n + 1, keys, items)
  {
    hide OnPlateau, IsPlateauPoint, IsLastPlateauRecord, AppearsInTurn;
    var r := records[n];
    var more := records[..n + 1];
    var on := OnPlateau(latest, floor, r);
    var keys2 := if on && r.coords !in items then keys + [r.coords] else keys;
    OneMoreRecord(records, latest, floor, n);
    forall c | c in items && !(on && c == r.coords) ensures IsLastPlateauRecord(more, latest, floor, items[c]) {
      StillLast(records, latest, floor, n, items[c]);
    }
    forall p | 0 <= p < |keys2| ensures AppearsInTurn(more, latest, floor, keys2, p) {
      if p < |keys| {
        StillInTurn(records, latest, floor, n, keys, keys2, p);
      } else {
        NewInTurn(records, latest, floor, n, keys);
      }
    }
    if on {
      NewIsLast(records, latest, floor, n);
    }
  }

  lemma NewIsLast(records: seq<Record>, latest: map<Coord, Record>, floor: real, n: nat)
    requires n < |records| && OnPlateau(latest, floor, records[n])
    ensures IsLastPlateauRecord(records[..n + 1], latest, floor, records[n])
  {
    hide OnPlateau;
    assert records[..n + 1][n] == records[n];
  }

  lemma NewInTurn(records: seq<Record>, latest: map<Coord, Record>, floor: real, n: nat, keys: seq<Coord>)
    requires n < |records| && OnPlateau(latest, floor, records[n])
    requires forall c :: IsPlateauPoint(records[..n], latest, floor, c) ==> c in keys
    ensures AppearsInTurn(records[..n + 1], latest, floor, keys + [records[n].coords], |keys|)
  {
    hide OnPlateau;
    var less, more, keys2 := records[..n], records[..n + 1], keys + [records[n].coords];
    assert more[n] == records[n] && keys2[..|keys|] == keys;
    forall k | 0 <= k < n && OnPlateau(latest, floor, more[k]) ensures more[k].coords in keys {
      assert more[k] == less[k] && IsPlateauPoint(less, latest, floor, less[k].coords);
    }
  }

  lemma StillLast(records: seq<Record>, latest: map<Coord, Record>, floor: real, n: nat, item: Record)
    requires n < |records| && IsLastPlateauRecord(records[..n], latest, floor, item)
    requires OnPlateau(latest, floor, records[n]) ==> records[n].coords != item.coords
    ensures IsLastPlateauRecord(records[..n + 1], latest, floor, item)
  {
    hide OnPlateau;
    var less, more := records[..n], records[..n + 1];
    var i :|
      0 <= i < |less| && less[i] == item &&
      forall k :: i < k < |less| && less[k].coords == item.coords ==> !OnPlateau(latest, floor, less[k]);
    assert more[i] == item;
    forall k | i < k < |more| && more[k].coords == item.coords ensures !OnPlateau(latest, floor, more[k]) {
      assert k < n ==> more[k] == less[k];
    }
  }

  lemma StillInTurn(
    records: seq<Record>, latest: map<Coord, Record>, floor: real, n: nat, keys: seq<Coord>, keys2: seq<Coord>, p: nat)
    requires n < |records| && p < |keys| && keys <= keys2 && AppearsInTurn(records[..n], latest, floor, keys, p)
    ensures AppearsInTurn(records[..n + 1], latest, floor, keys2, p)
  {
    hide OnPlateau;
    var less, more := records[..n], records[..n + 1];
    var i :| 0 <= i < |less| && less[i].coords == keys[p] && OnPlateau(latest, floor, less[i]) &&
      forall k :: 0 <= k < i && OnPlateau(latest, floor, less[k]) ==> less[k].coords in keys[..p];
    assert keys2[..p] == keys[..p] && more[i] == less[i];
    forall k | 0 <= k < i && OnPlateau(latest, floor, more[k]) ensures more[k].coords in keys2[..p] {
      assert more[k] == less[k];
    }
  }

  lemma OneMoreRecord(records: seq<Record>, latest: map<Coord, Record>, floor: real, n: nat)
    requires n < |records|
    ensures forall c :: IsPlateauPoint(records[..n + 1], latest, floor, c) <==>
      IsPlateauPoint(records[..n], latest, floor, c) || (c == records[n].coords && OnPlateau(latest, floor, records[n]))
  {
    hide OnPlateau;
    var less, more := records[..n], records[..n + 1];
    forall c ensures IsPlateauPoint(more, latest, floor, c) <==>
      IsPlateauPoint(less, latest, floor, c) || (c == records[n].coords && OnPlateau(latest, floor, records[n])) {
      if IsPlateauPoint(less, latest, floor, c) {
        var i :| 0 <= i < |less| && less[i].coords == c && OnPlateau(latest, floor, less[i]);
        assert more[i] == less[i];
      }
      if IsPlateauPoint(more, latest, floor, c) {
        var i :| 0 <= i < |more| && more[i].coords == c && OnPlateau(latest, floor, more[i]);
        assert i < n ==> less[i] == more[i];
      }
      assert more[n] == records[n];
    }
  }

  // ---------------------------------------------------------------------------
  // The selection
  // ---------------------------------------------------------------------------

  datatype Selection =
    | NoRows
    | OffGrid
    | FallbackPositive(record: Record)
    | FallbackArgmax(record: Record)
    | PlateauCenter(record: Record, size: nat)

  ghost function PlateauSet(records: seq<Record>, latest: map<Coord, Record>, floor: real): set<Coord> {
    set i | 0 <= i < |records| && OnPlateau(latest, floor, records[i]) :: records[i].coords
  }

  function Metrics(items: map<Coord, Record>): map<Coord, real> {
    map x | x in items :: items[x].metric
  }

  /** Key p is the first whose component is largest, and `c` is the first of the best members of that
      component, in the order of the search from key p. */
  ghost predicate IsCentre(keys: seq<Coord>, items: map<Coord, Record>, d: nat, c: Coord, size: nat) {
    var points := Elements(keys);
    && (forall y :: y in points ==> |Component(points, y)| <= size)
    && exists p ::
      0 <= p < |keys| && IsFirstOfLargest(keys, size, p) &&
      IsCentreOf(points, Metrics(items), d, c, Searched(points, keys[p]), keys[p])
  }

  ghost predicate IsFirstOfLargest(keys: seq<Coord>, size: nat, p: nat)
    requires p < |keys|
  {
    |Component(Elements(keys), keys[p])| == size &&
      forall k :: 0 <= k < p ==> |Component(Elements(keys), keys[k])| < size
  }

  ghost predicate IsCentreOf(
    points: set<Coord>, metric: map<Coord, real>, d: nat, c: Coord, cluster: seq<Coord>, start: Coord) {
    && Distinct(cluster) && Elements(cluster) == Component(points, start)
    && Dimension(cluster, d) && (forall x :: x in cluster ==> x in metric)
    && exists b :: 0 <= b < |cluster| && cluster[b] == c && FirstBest(cluster, d, metric, b)
  }

  /** What is promised of each outcome; `latest` is the map of last records. */
  ghost predicate IsSelection(grid: seq<seq<string>>, rows: seq<Row>, floor: real, s: Selection) {
    var records := Records(grid, rows, |rows|);
    if rows == [] then s == NoRows
    else if records == [] then s == OffGrid
    else forall latest :: HoldsLatest(records, latest) ==> IsChoice(records, latest, floor, |grid|, s)
  }

  ghost predicate IsChoice(records: seq<Record>, latest: map<Coord, Record>, floor: real, d: nat, s: Selection) {
    var points := PlateauSet(records, latest, floor);
    match s
    case FallbackPositive(r) => points == {} && IsBest(records, r) && r.metric > floor
    case FallbackArgmax(r) => points == {} && IsBest(records, r) && r.metric <= floor
    case PlateauCenter(r, size) => exists keys, items ::
      && Collected(records, latest, floor, |records|, keys, items) && Elements(keys) == points
      && r.coords in items && items[r.coords] == r && IsCentre(keys, items, d, r.coords, size)
    case _ => false
  }

  /** The first record with the highest metric. */
  ghost predicate IsBest(records: seq<Record>, r: Record) {
    exists i :: 0 <= i < |records| && records[i] == r && FirstMax(records, i)
  }

  ghost predicate FirstMax(records: seq<Record>, i: int) {
    && 0 <= i < |records|
    && (forall j :: 0 <= j < |records| ==> records[j].metric <= records[i].metric)
    && (forall j :: 0 <= j < i ==> records[j].metric < records[i].metric)
  }

  method Best(records: seq<Record>) returns (r: Record)
    requires records != []
    ensures IsBest(records, r)
  {
    var b := 0;
    for i := 1 to |records|
      invariant 0 <= b < i
      invariant forall j :: 0 <= j < i ==> records[j].metric <= records[b].metric
      invariant forall j :: 0 <= j < b ==> records[j].metric < records[b].metric
    {
      if records[i].metric > records[b].metric {
        b := i;
      }
    }
    r := records[b];
    assert FirstMax(records, b);
  }

  /** The point of the plateau that the code settles on. */
  method Centre(keys: seq<Coord>, items: map<Coord, Record>, d: nat) returns (c: Coord, size: nat)
    requires keys != [] && (forall x :: x in keys <==> x in items) && Dimension(keys, d)
    ensures c in items && IsCentre(keys, items, d, c, size)
  {
    hide Component, Searched, FirstBest, AreComponents, FoundInOrder, IsFirstOfLargest;
    var components, starts := Components(keys);
    assert Covered(components, keys[0]);
    var w := Widest(components);
    var cluster := components[w];
    WidestIsLargest(keys, components, w, d);
    var b := Nearest(cluster, d, Metrics(items));
    c, size := cluster[b], |cluster|;
    FirstIsFound(keys, components, starts, w);
    CentreIs(keys, components, starts, w, d, items, b);
  }

  lemma FirstIsFound(keys: seq<Coord>, components: seq<seq<Coord>>, starts: seq<nat>, w: nat)
    requires AreComponents(Elements(keys), components) && (forall x :: x in keys <==> Covered(components, x))
    requires FoundInOrder(keys, components, starts, |keys|) && w < |components|
    requires forall j :: 0 <= j < w ==> |components[j]| < |components[w]|
    ensures starts[w] < |keys| && IsFirstOfLargest(keys, |components[w]|, starts[w])
  {
    hide Component, Searched;
    var p := starts[w];
    assert IsComponent(Elements(keys), components[w]) && IsFirstKey(keys, components[w], p);
    DistinctSize(components[w]);
    forall k | 0 <= k < p ensures |Component(Elements(keys), keys[k])| < |components[w]| {
      assert keys[k] in keys && Covered(components, keys[k]);
      var j :| 0 <= j < |components| && keys[k] in components[j];
      assert IsComponent(Elements(keys), components[j]) && IsFirstKey(keys, components[j], starts[j]);
      assert starts[j] <= k;
      DistinctSize(components[j]);
    }
  }

  lemma WidestIsLargest(keys: seq<Coord>, components: seq<seq<Coord>>, w: nat, d: nat)
    requires AreComponents(Elements(keys), components) && (forall x :: x in keys <==> Covered(components, x)) &&
      Dimension(keys, d)
    requires w < |components| && forall j :: 0 <= j < |components| ==> |components[j]| <= |components[w]|
    ensures forall y :: y in Elements(keys) ==> |Component(Elements(keys), y)| <= |components[w]|
    ensures components[w] != [] && Dimension(components[w], d) && forall x :: x in components[w] ==> x in keys
  {
    hide Component;
    assert IsComponent(Elements(keys), components[w]);
    forall x | x in components[w] ensures x in keys {
      assert Covered(components, x);
    }
    assert forall i :: 0 <= i < |components[w]| ==> components[w][i] in components[w];
    forall y | y in Elements(keys) ensures |Component(Elements(keys), y)| <= |components[w]| {
      assert Covered(components, y);
      var j :| 0 <= j < |components| && y in components[j];
      assert IsComponent(Elements(keys), components[j]);
      DistinctSize(components[j]);
    }
  }

  lemma CentreIs(
    keys: seq<Coord>, components: seq<seq<Coord>>, starts: seq<nat>, w: nat, d: nat, items: map<Coord, Record>, b: nat)
    requires AreComponents(Elements(keys), components) && FoundInOrder(keys, components, starts, |keys|) &&
      w < |components|
    requires forall y :: y in Elements(keys) ==> |Component(Elements(keys), y)| <= |components[w]|
    requires Dimension(components[w], d) && forall x :: x in components[w] ==> x in items
    requires FirstBest(components[w], d, Metrics(items), b) && b < |components[w]|
    requires starts[w] < |keys| && IsFirstOfLargest(keys, |components[w]|, starts[w])
    ensures IsCentre(keys, items, d, components[w][b], |components[w]|)
  {
    hide Component, FirstBest, IsFirstOfLargest, Searched;
    var start := keys[starts[w]];
    assert IsComponent(Elements(keys), components[w]) && IsFirstKey(keys, components[w], starts[w]);
    assert IsCentreOf(Elements(keys), Metrics(items), d, components[w][b], Searched(Elements(keys), start), start);
  }

  method SelectPlateauConfig(grid: seq<seq<string>>, rows: seq<Row>, floor: real) returns (s: Selection)
    ensures IsSelection(grid, rows, floor, s)
  {
    hide HoldsLatest, IsChoice, InGrid;
    if rows == [] {
      return NoRows;
    }
    var records, latest := BuildRecords(grid, rows);
    if records == [] {
      return OffGrid;
    }
    s := Choose(grid, records, latest, floor);
    LatestIsUnique(records, latest);
  }

  /** The rows and the threshold determine what is selected. */
  lemma SelectionIsUnique(grid: seq<seq<string>>, rows: seq<Row>, floor: real, s: Selection, t: Selection)
    requires IsSelection(grid, rows, floor, s) && IsSelection(grid, rows, floor, t)
    ensures s == t
  {
    var records := Records(grid, rows, |rows|);
    if rows != [] && records != [] {
      var latest := LatestExists(records);
      hide HoldsLatest, IsChoice;
      ChoiceIsUnique(records, latest, floor, |grid|, s, t);
    }
  }

  lemma {:induction false} LatestExists(records: seq<Record>) returns (latest: map<Coord, Record>)
    ensures HoldsLatest(records, latest)
  {
    latest := map[];
    if records != [] {
      var rest, r := records[..|records| - 1], records[|records| - 1];
      assert records == rest + [r];
      latest := LatestExists(rest);
      PutKeepsLatest(rest, latest, r);
      latest := latest[r.coords := r];
    }
  }

  lemma ChoiceIsUnique(
    records: seq<Record>, latest: map<Coord, Record>, floor: real, d: nat, s: Selection, t: Selection)
    requires IsChoice(records, latest, floor, d, s) && IsChoice(records, latest, floor, d, t)
    ensures s == t
  {
    hide IsCentre, Collected, PlateauSet, IsBest;
    if PlateauSet(records, latest, floor) == {} {
      CentreIsSomewhere(records, latest, floor, d, s);
      CentreIsSomewhere(records, latest, floor, d, t);
      BestIsUnique(records, s.record, t.record);
    } else {
      var keys, items :| Collected(records, latest, floor, |records|, keys, items)
        && s.record.coords in items && items[s.record.coords] == s.record &&
          IsCentre(keys, items, d, s.record.coords, s.size);
      var keys2, items2 :| Collected(records, latest, floor, |records|, keys2, items2)
        && t.record.coords in items2 && items2[t.record.coords] == t.record &&
          IsCentre(keys2, items2, d, t.record.coords, t.size);
      CollectedIsUnique(records, latest, floor, keys, items, keys2, items2);
      CentreIsUnique(keys, items, d, s.record.coords, s.size, t.record.coords, t.size);
    }
  }

  lemma CentreIsSomewhere(records: seq<Record>, latest: map<Coord, Record>, floor: real, d: nat, s: Selection)
    requires IsChoice(records, latest, floor, d, s) && PlateauSet(records, latest, floor) == {}
    ensures s.FallbackPositive? || s.FallbackArgmax?
    ensures IsBest(records, s.record) && (s.FallbackPositive? <==> s.record.metric > floor)
  {
    hide Collected, PlateauSet, IsCentre;
    if s.PlateauCenter? {
      var keys, items :| Elements(keys) == {} && IsCentre(keys, items, d, s.record.coords, s.size);
      CentreIsAmongKeys(keys, items, d, s.record.coords, s.size);
    }
  }

  lemma CentreIsAmongKeys(keys: seq<Coord>, items: map<Coord, Record>, d: nat, c: Coord, size: nat)
    requires IsCentre(keys, items, d, c, size)
    ensures Elements(keys) != {}
  {
    hide Component, Searched, FirstBest;
    var p :| 0 <= p < |keys| && IsFirstOfLargest(keys, size, p);
    assert keys[p] in Elements(keys);
  }

  lemma BestIsUnique(records: seq<Record>, r: Record, q: Record)
    requires IsBest(records, r) && IsBest(records, q)
    ensures r == q
  {
  }

  lemma CentreIsUnique(keys: seq<Coord>, items: map<Coord, Record>, d: nat, a: Coord, m: nat, b: Coord, n: nat)
    requires IsCentre(keys, items, d, a, m) && IsCentre(keys, items, d, b, n)
    ensures a == b && m == n
  {
    hide Component, FirstBest, Searched;
    var points := Elements(keys);
    var p :|
      0 <= p < |keys| && IsFirstOfLargest(keys, m, p) &&
      IsCentreOf(points, Metrics(items), d, a, Searched(points, keys[p]), keys[p]);
    var q :|
      0 <= q < |keys| && IsFirstOfLargest(keys, n, q) &&
      IsCentreOf(points, Metrics(items), d, b, Searched(points, keys[q]), keys[q]);
    assert keys[p] in points && keys[q] in points;
    assert p == q;
    var cluster := Searched(points, keys[p]);
    var i :| 0 <= i < |cluster| && cluster[i] == a && FirstBest(cluster, d, Metrics(items), i);
    var j :| 0 <= j < |cluster| && cluster[j] == b && FirstBest(cluster, d, Metrics(items), j);
    FirstBestIsUnique(cluster, d, Metrics(items), i, j);
  }

  lemma FirstBestIsUnique(cluster: seq<Coord>, d: nat, metric: map<Coord, real>, i: nat, j: nat)
    requires Dimension(cluster, d) && forall x :: x in cluster ==> x in metric
    requires FirstBest(cluster, d, metric, i) && FirstBest(cluster, d, metric, j)
    ensures i == j
  {
    if i < j {
      NoneBestBefore(cluster, d, metric, i, j);
    } else if j < i {
      NoneBestBefore(cluster, d, metric, j, i);
    }
  }

  lemma NoneBestBefore(cluster: seq<Coord>, d: nat, metric: map<Coord, real>, i: nat, j: nat)
    requires Dimension(cluster, d) && forall x :: x in cluster ==> x in metric
    requires FirstBest(cluster, d, metric, j) && i < j
    ensures !FirstBest(cluster, d, metric, i)
  {
    assert !AtLeastAsGood(cluster, d, metric, cluster[i], cluster[j]);
    hide AtLeastAsGood;
  }

  lemma CollectedIsUnique(
    records: seq<Record>, latest: map<Coord, Record>, floor: real, keys: seq<Coord>, items: map<Coord, Record>,
    keys2: seq<Coord>, items2: map<Coord, Record>)
    requires Collected(records, latest, floor, |records|, keys, items) &&
      Collected(records, latest, floor, |records|, keys2, items2)
    ensures keys == keys2 && items == items2
  {
    hide OnPlateau;
    assert records[..|records|] == records;
    KeysInTurn(records, latest, floor, keys, keys2, if |keys| <= |keys2| then |keys| else |keys2|);
    SamePrefix(keys, keys2);
    forall c | c in items ensures items[c] == items2[c] {
      assert IsLastPlateauRecord(records, latest, floor, items[c]) &&
        IsLastPlateauRecord(records, latest, floor, items2[c]);
    }
  }

  lemma SamePrefix(a: seq<Coord>, b: seq<Coord>)
    requires Distinct(a) && Distinct(b) && (forall c :: c in a <==> c in b)
    requires a <= b || b <= a
    ensures a == b
  {
    if |a| < |b| {
      LongerHasMore(a, b);
    } else if |b| < |a| {
      LongerHasMore(b, a);
    }
  }

  lemma LongerHasMore(a: seq<Coord>, b: seq<Coord>)
    requires Distinct(b) && a <= b && |a| < |b|
    ensures exists c :: c in b && c !in a
  {
    assert b[|a|] in b;
  }

  /** Two lists of keys that appear in turn agree as far as both go. */
  lemma {:induction false} KeysInTurn(
    records: seq<Record>, latest: map<Coord, Record>, floor: real, a: seq<Coord>, b: seq<Coord>, n: nat)
    requires n <= |a| && n <= |b| && Distinct(a) && Distinct(b)
    requires forall p :: 0 <= p < n ==>
      AppearsInTurn(records, latest, floor, a, p) && AppearsInTurn(records, latest, floor, b, p)
    ensures a[..n] == b[..n]
  {
    if n > 0 {
      var p := n - 1;
      KeysInTurn(records, latest, floor, a, b, p);
      assert AppearsInTurn(records, latest, floor, a, p) && AppearsInTurn(records, latest, floor, b, p);
      NextInTurn(records, latest, floor, a, b, p);
      assert a[..n] == a[..p] + [a[p]] && b[..n] == b[..p] + [b[p]];
    }
  }

  lemma NextInTurn(records: seq<Record>, latest: map<Coord, Record>, floor: real, a: seq<Coord>, b: seq<Coord>, p: nat)
    requires p < |a| && p < |b| && a[..p] == b[..p] && a[p] !in a[..p] && b[p] !in b[..p]
    requires AppearsInTurn(records, latest, floor, a, p) && AppearsInTurn(records, latest, floor, b, p)
    ensures a[p] == b[p]
  {
    hide OnPlateau;
  }

  /** Collects and clusters the plateau, or falls back to the best record. */
  method Choose(grid: seq<seq<string>>, records: seq<Record>, latest: map<Coord, Record>, floor: real)
    returns (s: Selection)
    requires records != [] && HoldsLatest(records, latest) &&
      forall i :: 0 <= i < |records| ==> InGrid(grid, records[i].coords)
    ensures IsChoice(records, latest, floor, |grid|, s)
  {
    hide OnPlateau, HoldsLatest, InGrid, IsCentre, IsBest, IsPlateauPoint, PlateauSet, AppearsInTurn,
      IsLastPlateauRecord;
    var keys, items := CollectPlateau(grid, records, latest, floor);
    assert records[..|records|] == records;
    PlateauKeys(grid, records, latest, floor, keys);
    if keys == [] {
      var best := Best(records);
      s := if best.metric > floor then FallbackPositive(best) else FallbackArgmax(best);
    } else {
      var c, size := Centre(keys, items, |grid|);
      s := PlateauCenter(items[c], size);
    }
  }

  lemma PlateauKeys(
    grid: seq<seq<string>>, records: seq<Record>, latest: map<Coord, Record>, floor: real, keys: seq<Coord>)
    requires forall i :: 0 <= i < |records| ==> InGrid(grid, records[i].coords)
    requires forall c :: c in keys <==> IsPlateauPoint(records, latest, floor, c)
    ensures Elements(keys) == PlateauSet(records, latest, floor) && Dimension(keys, |grid|)
  {
    hide OnPlateau;
    forall c ensures c in keys <==> c in PlateauSet(records, latest, floor) {
      if c in keys {
        assert IsPlateauPoint(records, latest, floor, c);
      }
    }
    forall i | 0 <= i < |keys| ensures |keys[i]| == |grid| {
      assert keys[i] in keys && IsPlateauPoint(records, latest, floor, keys[i]);
    }
  }

  /** The map of last records is determined by the records. */
  lemma LatestIsUnique(records: seq<Record>, latest: map<Coord, Record>)
    requires HoldsLatest(records, latest)
    ensures forall other :: HoldsLatest(records, other) ==> other == latest
  {
    forall other | HoldsLatest(records, other) ensures other == latest {
      forall c ensures c in other <==> c in latest {
        assert c in other ==> IsLatest(records, other[c]);
        assert c in latest ==> IsLatest(records, latest[c]);
      }
      forall c | c in latest ensures other[c] == latest[c] {
        SameLatest(records, other[c], latest[c]);
      }
    }
  }

  lemma SameLatest(records: seq<Record>, x: Record, y: Record)
    requires IsLatest(records, x) && IsLatest(records, y) && x.coords == y.coords
    ensures x == y
  {
    var i :| 0 <= i < |records| && records[i] == x && forall j :: i < j < |records| ==> records[j].coords != x.coords;
    var k :| 0 <= k < |records| && records[k] == y && forall j :: k < j < |records| ==> records[j].coords != y.coords;
  }

  /** A point is on the plateau by any of its records: an early good one outlives the later bad one
      that replaced it in the map of last records. */
  lemma StaleRecordKeepsPlateau()
    ensures var records := [Record(0, [0], 1.0), Record(1, [0], -1.0)];
      var latest := map[[0] := records[1]];
      HoldsLatest(records, latest) && [0] in PlateauSet(records, latest, 0.0) && latest[[0]].metric <= 0.0
  {
    var records := [Record(0, [0], 1.0), Record(1, [0], -1.0)];
    var latest: map<Coord, Record> := map[[0] := records[1]];
    assert IsLatest(records, records[1]);
    assert OnPlateau(latest, 0.0, records[0]);
    assert records[0].coords in PlateauSet(records, latest, 0.0);
  }

  /** A point keeps its place by a record that a later one replaced: its last record is not above the
      threshold, all its evaluated neighbours are, and some earlier record of it is. */
  ghost predicate KeptByStaleRecord(records: seq<Record>, latest: map<Coord, Record>, floor: real, c: Coord) {
    && c in latest && latest[c].metric <= floor
    && (forall n :: n in latest && Adjacent(c, n) ==> latest[n].metric > floor)
    && exists i :: 0 <= i < |records| && records[i].coords == c && records[i].metric > floor
  }

  /** The collected plateau is right at a point, that is, it holds the point exactly when its last
      record and those of its evaluated neighbours are above the threshold, if and only if the point
      is not kept by a stale record. */
  lemma PlateauIsRightIff(records: seq<Record>, latest: map<Coord, Record>, floor: real, c: Coord)
    requires HoldsLatest(records, latest)
    ensures (c in PlateauSet(records, latest, floor) <==> c in latest && OnPlateau(latest, floor, latest[c])) <==>
      !KeptByStaleRecord(records, latest, floor, c)
  {
    if c in latest {
      assert IsLatest(records, latest[c]);
    }
  }
}
