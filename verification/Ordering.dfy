/** The order in which the dashboard lists the nodes of an execution: Kahn's
    algorithm with ties broken by id, and whatever sits on or below a cycle last. */
module Ordering {
  import opened Graphs

  /** JavaScript compares strings by UTF-16 code unit. */
  newtype CodeUnit = x: int | 0 <= x < 0x1_0000
  type Id = seq<CodeUnit>

  predicate Less(a: Id, b: Id) {
    if b == [] then false
    else if a == [] then true
    else a[0] < b[0] || (a[0] == b[0] && Less(a[1..], b[1..]))
  }

  lemma {:induction false} LessTotal(a: Id, b: Id)
    ensures a == b || Less(a, b) || Less(b, a)
    ensures Less(a, b) ==> !Less(b, a) && a != b
  {
    if a != [] && b != [] {
      LessTotal(a[1..], b[1..]);
      assert a == [a[0]] + a[1..] && b == [b[0]] + b[1..];
    }
  }

  lemma {:induction false} LessTransitive(a: Id, b: Id, c: Id)
    requires Less(a, b) && Less(b, c)
    ensures Less(a, c)
  {
    if a != [] && a[0] == b[0] && b[0] == c[0] {
      LessTransitive(a[1..], b[1..], c[1..]);
    }
  }

  // ----- sorting

  predicate AtMost(a: Id, b: Id) {
    a == b || Less(a, b)
  }

  ghost predicate Sorted(s: seq<Id>) {
    forall i, j | 0 <= i < j < |s| :: AtMost(s[i], s[j])
  }

  function Insert(x: Id, s: seq<Id>): (r: seq<Id>)
    ensures multiset(r) == multiset(s) + multiset{x}
  {
    if s == [] then [x]
    else if AtMost(x, s[0]) then [x] + s
    else
      assert s == [s[0]] + s[1..];
      [s[0]] + Insert(x, s[1..])
  }

  lemma {:induction false} InsertSorted(x: Id, s: seq<Id>)
    requires Sorted(s)
    ensures Sorted(Insert(x, s))
  {
    if s != [] {
      if AtMost(x, s[0]) {
        forall i | 0 <= i < |s|
          ensures AtMost(x, s[i])
        {
          if i > 0 && x != s[0] && s[0] != s[i] {
            LessTransitive(x, s[0], s[i]);
          }
        }
      } else {
        LessTotal(x, s[0]);
        InsertSorted(x, s[1..]);
        var rest := Insert(x, s[1..]);
        forall i | 0 <= i < |rest|
          ensures AtMost(s[0], rest[i])
        {
          assert rest[i] in multiset(rest);
        }
      }
    }
  }

  function Sort(s: seq<Id>): (r: seq<Id>)
    ensures multiset(r) == multiset(s)
  {
    if s == [] then []
    else
      assert s == [s[0]] + s[1..];
      Insert(s[0], Sort(s[1..]))
  }

  lemma {:induction false} SortSorted(s: seq<Id>)
    ensures Sorted(Sort(s))
  {
    if s != [] {
      SortSorted(s[1..]);
      InsertSorted(s[0], Sort(s[1..]));
    }
  }

  lemma SameMembers(a: seq<Id>, b: seq<Id>)
    requires multiset(a) == multiset(b)
    ensures |a| == |b| && forall x :: x in a <==> x in b
    ensures NoDuplicates(a) ==> NoDuplicates(b)
  {
    forall x
      ensures x in a <==> x in b
    {
      assert x in multiset(a) <==> x in multiset(b);
    }
    if NoDuplicates(a) {
      forall i, j | 0 <= i < j < |b|
        ensures b[i] != b[j]
      {
        Occurrences(b, i, j);
        NoDuplicatesOnce(a, b[i]);
      }
    }
    assert |multiset(a)| == |multiset(b)|;
  }

  lemma Occurrences(s: seq<Id>, i: int, j: int)
    requires 0 <= i < j < |s|
    ensures s[i] == s[j] ==> multiset(s)[s[i]] >= 2
  {
    assert s == s[..i] + [s[i]] + s[i + 1..j] + [s[j]] + s[j + 1..];
  }

  lemma {:induction false} NoDuplicatesOnce(s: seq<Id>, x: Id)
    requires NoDuplicates(s)
    ensures multiset(s)[x] <= 1
  {
    if s != [] {
      NoDuplicatesOnce(s[1..], x);
      assert s == [s[0]] + s[1..];
      if x == s[0] {
        assert x !in s[1..];
      }
    }
  }

  // ----- what the order has to be

  ghost predicate Placeable(g: Graph<Id>, placed: seq<Id>, x: Id) {
    x in g.nodes && x !in placed && forall u | (u, x) in g.edges :: u in placed
  }

  /** The smallest node whose predecessors have all been placed. */
  ghost predicate LeastPlaceable(g: Graph<Id>, placed: seq<Id>, x: Id) {
    Placeable(g, placed, x) && forall y | Placeable(g, placed, y) :: AtMost(x, y)
  }

  ghost predicate Greedy(g: Graph<Id>, order: seq<Id>) {
    forall i | 0 <= i < |order| :: LeastPlaceable(g, order[..i], order[i])
  }

  /** On a cycle, or after one. */
  ghost predicate Downstream(g: Graph<Id>, x: Id) {
    exists c :: IsCycle(g, c) && Reaches(g, c[0], x)
  }

  /** Split at k: first the nodes clear of cycles, greedily; then the rest, sorted. */
  ghost predicate SplitsAt(g: Graph<Id>, r: seq<Id>, k: nat) {
    && k <= |r| && Greedy(g, r[..k]) && Sorted(r[k..])
    && forall i | 0 <= i < |r| :: Downstream(g, r[i]) <==> i >= k
  }

  ghost predicate Ordered(g: Graph<Id>, r: seq<Id>) {
    && NoDuplicates(r)
    && (forall x :: x in r <==> x in g.nodes)
    && exists k: nat :: SplitsAt(g, r, k)
  }

  // ----- it determines the order

  lemma {:induction false} GreedyUnique(g: Graph<Id>, a: seq<Id>, b: seq<Id>, n: nat)
    requires Greedy(g, a) && Greedy(g, b) && n <= |a| && n <= |b|
    ensures a[..n] == b[..n]
  {
    if n > 0 {
      GreedyUnique(g, a, b, n - 1);
      var x, y := a[n - 1], b[n - 1];
      assert LeastPlaceable(g, a[..n - 1], x) && LeastPlaceable(g, b[..n - 1], y);
      LessTotal(x, y);
      assert a[..n] == a[..n - 1] + [x] && b[..n] == b[..n - 1] + [y];
    }
  }

  lemma {:induction false} SortedUnique(a: seq<Id>, b: seq<Id>)
    requires Sorted(a) && Sorted(b) && NoDuplicates(a) && NoDuplicates(b)
    requires forall x :: x in a <==> x in b
    ensures a == b
  {
    if a == [] {
      assert forall i | 0 <= i < |b| :: b[i] in a;
    } else {
      assert a[0] in b && b != [];
      assert b[0] in a;
      LessTotal(a[0], b[0]);
      assert a[0] == b[0];
      assert a == [a[0]] + a[1..] && b == [b[0]] + b[1..];
      forall x
        ensures x in a[1..] <==> x in b[1..]
      {
        assert x in a <==> x in b;
        assert a[0] !in a[1..] && b[0] !in b[1..];
      }
      SortedUnique(a[1..], b[1..]);
    }
  }

  lemma DistinctSameLength(a: seq<Id>, b: seq<Id>)
    requires NoDuplicates(a) && NoDuplicates(b)
    requires forall x :: x in a <==> x in b
    ensures |a| == |b|
  {
    forall x
      ensures multiset(a)[x] == multiset(b)[x]
    {
      NoDuplicatesOnce(a, x);
      NoDuplicatesOnce(b, x);
      assert x in multiset(a) <==> x in a;
      assert x in multiset(b) <==> x in b;
    }
    assert multiset(a) == multiset(b);
    SameMembers(a, b);
  }

  lemma SplitMembers(g: Graph<Id>, r: seq<Id>, k: nat, x: Id)
    requires SplitsAt(g, r, k)
    ensures x in r[..k] <==> x in r && !Downstream(g, x)
    ensures x in r[k..] <==> x in r && Downstream(g, x)
  {
  }

  /** At most one sequence is ordered: the specification leaves no choice. */
  lemma OrderedUnique(g: Graph<Id>, a: seq<Id>, b: seq<Id>)
    requires Ordered(g, a) && Ordered(g, b)
    ensures a == b
  {
    var k: nat :| SplitsAt(g, a, k);
    var m: nat :| SplitsAt(g, b, m);
    forall x
      ensures x in a[..k] <==> x in b[..m]
      ensures x in a[k..] <==> x in b[m..]
    {
      SplitMembers(g, a, k, x);
      SplitMembers(g, b, m, x);
    }
    DistinctSameLength(a[..k], b[..m]);
    GreedyUnique(g, a[..k], b[..m], k);
    SortedUnique(a[k..], b[m..]);
    assert a == a[..k] + a[k..] && b == b[..m] + b[m..];
  }

  /** In an acyclic graph each position holds the least id whose predecessors are all
      placed, and every edge points forward. */
  lemma AcyclicOrder(g: Graph<Id>, r: seq<Id>)
    requires Ordered(g, r) && !HasCycle(g)
    ensures Greedy(g, r)
    ensures forall i, j | 0 <= i < |r| && 0 <= j < |r| && (r[i], r[j]) in g.edges :: i < j
  {
    var k: nat :| SplitsAt(g, r, k);
    assert k < |r| ==> Downstream(g, r[k]);
    assert r[..k] == r;
    forall i, j | 0 <= i < |r| && 0 <= j < |r| && (r[i], r[j]) in g.edges
      ensures i < j
    {
      assert LeastPlaceable(g, r[..j], r[j]);
      assert r[i] in r[..j];
      var m :| 0 <= m < j && r[m] == r[i];
    }
  }

  // ----- placed nodes are clear of cycles, unplaced ones are not

  ghost predicate PredecessorsFirst(g: Graph<Id>, order: seq<Id>) {
    forall i, u | 0 <= i < |order| && (u, order[i]) in g.edges :: u in order[..i]
  }

  lemma {:induction false} PathWithin(g: Graph<Id>, order: seq<Id>, p: seq<Id>, j: nat) returns (i: nat)
    requires PredecessorsFirst(g, order) && IsPath(g, p)
    requires j < |order| && order[j] == p[|p| - 1]
    ensures i <= j && order[i] == p[0] && (|p| > 1 ==> i < j)
  {
    i := j;
    if |p| > 1 {
      var n := |p| - 1;
      assert (p[n - 1], order[j]) in g.edges;
      assert p[n - 1] in order[..j];
      var m: nat :| m < j && order[m] == p[n - 1];
      i := PathWithin(g, order, p[..n], m);
    }
  }

  lemma PlacedClear(g: Graph<Id>, order: seq<Id>, x: Id)
    requires PredecessorsFirst(g, order) && NoDuplicates(order) && x in order
    ensures !Downstream(g, x)
  {
    if Downstream(g, x) {
      var c :| IsCycle(g, c) && Reaches(g, c[0], x);
      var p :| Joins(g, p, c[0], x);
      var j: nat :| j < |order| && order[j] == x;
      var i := PathWithin(g, order, p, j);
      var k := PathWithin(g, order, c, i);
    }
  }

  lemma StuckDownstream(g: Graph<Id>, order: seq<Id>, x: Id)
    requires Closed(g) && x in g.nodes && x !in order
    requires forall y :: !Placeable(g, order, y)
    ensures Downstream(g, x)
  {
    var left := set y | y in g.nodes && y !in order;
    forall y | y in left
      ensures FedBy(g, left, y)
    {
      assert !Placeable(g, order, y);
      var u :| (u, y) in g.edges && u !in order;
      assert u in left;
    }
    var c := FedSetHasCycle(g, left, x);
  }

  // ----- the algorithm

  function Dedup(ids: seq<Id>): (r: seq<Id>)
    ensures NoDuplicates(r) && forall x :: x in r <==> x in ids
  {
    if ids == [] then []
    else
      var rest := Dedup(ids[..|ids| - 1]);
      assert ids == ids[..|ids| - 1] + [ids[|ids| - 1]];
      if ids[|ids| - 1] in rest then rest else rest + [ids[|ids| - 1]]
  }

  function GraphFrom(ids: seq<Id>, edges: seq<(Id, Id)>): (g: Graph<Id>)
    ensures Closed(g)
  {
    Graph(set x | x in ids, set e | e in edges && e.0 in ids && e.1 in ids)
  }

  /** How many listed edges lead from outside `placed` to x; duplicates count. */
  function Waiting(ids: seq<Id>, edges: seq<(Id, Id)>, placed: seq<Id>, x: Id): nat {
    if edges == [] then 0
    else
      var e := edges[|edges| - 1];
      Waiting(ids, edges[..|edges| - 1], placed, x)
      + (if e.0 in ids && e.1 == x && x in ids && e.0 !in placed then 1 else 0)
  }

  /** The listed edges from a to x. */
  function Between(ids: seq<Id>, edges: seq<(Id, Id)>, a: Id, x: Id): nat {
    if edges == [] then 0
    else
      var e := edges[|edges| - 1];
      Between(ids, edges[..|edges| - 1], a, x) + (if e == (a, x) && a in ids && x in ids then 1 else 0)
  }

  lemma {:induction false} PlacingOne(ids: seq<Id>, edges: seq<(Id, Id)>, placed: seq<Id>, a: Id, x: Id)
    requires a !in placed
    ensures Waiting(ids, edges, placed + [a], x) == Waiting(ids, edges, placed, x) - Between(ids, edges, a, x)
  {
    if edges != [] {
      PlacingOne(ids, edges[..|edges| - 1], placed, a, x);
    }
  }

  lemma {:induction false} WaitingZero(ids: seq<Id>, edges: seq<(Id, Id)>, placed: seq<Id>, x: Id)
    requires x in ids
    ensures Waiting(ids, edges, placed, x) == 0 <==> forall u | (u, x) in GraphFrom(ids, edges).edges :: u in placed
  {
    if edges != [] {
      var n := |edges| - 1;
      WaitingZero(ids, edges[..n], placed, x);
      assert edges == edges[..n] + [edges[n]];
      var g, h := GraphFrom(ids, edges), GraphFrom(ids, edges[..n]);
      assert forall u :: (u, x) in g.edges <==> (u, x) in h.edges || (edges[n] == (u, x) && u in ids);
    }
  }

  ghost predicate Counts(ids: seq<Id>, edges: seq<(Id, Id)>, placed: seq<Id>, incoming: map<Id, int>) {
    forall x | x in ids :: x in incoming && incoming[x] == Waiting(ids, edges, placed, x)
  }

  ghost predicate Targets(ids: seq<Id>, edges: seq<(Id, Id)>, outgoing: map<Id, seq<Id>>) {
    forall a | a in ids :: a in outgoing && forall x :: multiset(outgoing[a])[x] == Between(ids, edges, a, x)
  }

  method CountEdges(ids: seq<Id>, edges: seq<(Id, Id)>) returns (incoming: map<Id, int>, outgoing: map<Id, seq<Id>>)
    ensures Counts(ids, edges, [], incoming) && Targets(ids, edges, outgoing)
  {
    incoming := map x | x in ids :: 0;
    outgoing := map x | x in ids :: [];
    assert edges[..0] == [];
    for k := 0 to |edges|
      invariant Counts(ids, edges[..k], [], incoming) && Targets(ids, edges[..k], outgoing)
    {
      var (a, b) := edges[k];
      assert edges[..k + 1][..k] == edges[..k];
      if a in ids && b in ids {
        outgoing := outgoing[a := outgoing[a] + [b]];
        incoming := incoming[b := incoming[b] + 1];
      }
    }
    assert edges[..|edges|] == edges;
  }

  lemma {:induction false} BetweenEdge(ids: seq<Id>, edges: seq<(Id, Id)>, a: Id, x: Id)
    ensures Between(ids, edges, a, x) > 0 <==> (a, x) in GraphFrom(ids, edges).edges
  {
    if edges != [] {
      var n := |edges| - 1;
      BetweenEdge(ids, edges[..n], a, x);
      assert edges == edges[..n] + [edges[n]];
    }
  }

  ghost predicate Midway(ids: seq<Id>, edges: seq<(Id, Id)>, placed: seq<Id>, done: seq<Id>, incoming: map<Id, int>) {
    forall x | x in ids :: x in incoming && incoming[x] == Waiting(ids, edges, placed, x) - multiset(done)[x]
  }

  ghost predicate QueuedFrom(ids: seq<Id>, done: seq<Id>, incoming: map<Id, int>, ready0: seq<Id>, ready: seq<Id>) {
    forall x :: x in ready <==> x in ready0 || (x in ids && x in done && x in incoming && incoming[x] == 0)
  }

  /** Takes the released edges off the counts and queues the targets that reach zero. */
  method Release(ids: seq<Id>, edges: seq<(Id, Id)>, ghost placed: seq<Id>, id: Id, targets: seq<Id>,
                 incoming0: map<Id, int>, ready0: seq<Id>)
    returns (incoming: map<Id, int>, ready: seq<Id>)
    requires id !in placed && Counts(ids, edges, placed, incoming0)
    requires forall x :: multiset(targets)[x] == Between(ids, edges, id, x)
    requires Sorted(ready0) && NoDuplicates(ready0)
    requires forall x | x in ready0 :: x in ids && Waiting(ids, edges, placed, x) == 0
    ensures Counts(ids, edges, placed + [id], incoming)
    ensures Sorted(ready) && NoDuplicates(ready)
    ensures forall x :: x in ready <==>
              x in ready0 || (x in ids && Between(ids, edges, id, x) > 0 && Waiting(ids, edges, placed + [id], x) == 0)
  {
    incoming, ready := incoming0, ready0;
    for k := 0 to |targets|
      invariant Midway(ids, edges, placed, targets[..k], incoming)
      invariant Sorted(ready) && NoDuplicates(ready)
      invariant QueuedFrom(ids, targets[..k], incoming, ready0, ready)
    {
      TargetFacts(ids, edges, placed, id, targets, k);
      assert targets[..k + 1] == targets[..k] + [targets[k]];
      incoming, ready := ReleaseOne(ids, edges, placed, targets[..k], targets[k], incoming, ready0, ready);
    }
    assert targets[..|targets|] == targets;
    forall x
      ensures x in ids ==> Waiting(ids, edges, placed + [id], x) == Waiting(ids, edges, placed, x) - multiset(targets)[x]
      ensures x in targets <==> Between(ids, edges, id, x) > 0
    {
      Released(ids, edges, placed, id, targets, x);
    }
  }

  lemma Released(ids: seq<Id>, edges: seq<(Id, Id)>, placed: seq<Id>, id: Id, targets: seq<Id>, x: Id)
    requires id !in placed && multiset(targets)[x] == Between(ids, edges, id, x)
    ensures x in ids ==> Waiting(ids, edges, placed + [id], x) == Waiting(ids, edges, placed, x) - multiset(targets)[x]
    ensures x in targets <==> Between(ids, edges, id, x) > 0
  {
    assert x in targets <==> multiset(targets)[x] > 0;
    PlacingOne(ids, edges, placed, id, x);
  }

  method ReleaseOne(ids: seq<Id>, ghost edges: seq<(Id, Id)>, ghost placed: seq<Id>, ghost done: seq<Id>, target: Id,
                    incoming0: map<Id, int>, ghost ready0: seq<Id>, ready1: seq<Id>)
    returns (incoming: map<Id, int>, ready: seq<Id>)
    requires Midway(ids, edges, placed, done, incoming0) && QueuedFrom(ids, done, incoming0, ready0, ready1)
    requires Sorted(ready1) && NoDuplicates(ready1)
    requires target in ids && Waiting(ids, edges, placed, target) > multiset(done)[target]
    requires forall x | x in ready0 :: Waiting(ids, edges, placed, x) == 0
    ensures Midway(ids, edges, placed, done + [target], incoming)
    ensures QueuedFrom(ids, done + [target], incoming, ready0, ready)
    ensures Sorted(ready) && NoDuplicates(ready)
  {
    ready := ready1;
    var next := (if target in incoming0 then incoming0[target] else 1) - 1;
    incoming := incoming0[target := next];
    assert target !in ready0 && target !in ready1;
    if next == 0 {
      SortSorted(ready + [target]);
      SameMembers(ready + [target], Sort(ready + [target]));
      ready := Sort(ready + [target]);
    }
  }

  lemma TargetFacts(ids: seq<Id>, edges: seq<(Id, Id)>, placed: seq<Id>, id: Id, targets: seq<Id>, k: nat)
    requires id !in placed && k < |targets|
    requires forall x :: multiset(targets)[x] == Between(ids, edges, id, x)
    ensures targets[k] in ids
    ensures Waiting(ids, edges, placed, targets[k]) > multiset(targets[..k])[targets[k]]
  {
    var t := targets[k];
    assert targets == targets[..k] + [t] + targets[k + 1..];
    assert multiset(targets)[t] >= multiset(targets[..k])[t] + 1;
    BetweenEdge(ids, edges, id, t);
    PlacingOne(ids, edges, placed, id, t);
  }

  ghost predicate Frontier(g: Graph<Id>, placed: seq<Id>, ready: seq<Id>) {
    forall x :: x in ready <==> Placeable(g, placed, x)
  }

  lemma FrontierMoves(ids: seq<Id>, edges: seq<(Id, Id)>, placed: seq<Id>, id: Id, rest: seq<Id>, ready: seq<Id>)
    requires PredecessorsFirst(GraphFrom(ids, edges), placed) && id !in rest
    requires Frontier(GraphFrom(ids, edges), placed, [id] + rest)
    requires forall x :: x in ready <==>
               x in rest || (x in ids && Between(ids, edges, id, x) > 0 && Waiting(ids, edges, placed + [id], x) == 0)
    ensures Frontier(GraphFrom(ids, edges), placed + [id], ready)
  {
    var g := GraphFrom(ids, edges);
    assert id in [id] + rest && Placeable(g, placed, id);
    forall x
      ensures x in ready <==> Placeable(g, placed + [id], x)
    {
      BetweenEdge(ids, edges, id, x);
      assert x in [id] + rest <==> x == id || x in rest;
      if x in ids {
        WaitingZero(ids, edges, placed, x);
        WaitingZero(ids, edges, placed + [id], x);
        PlacingOne(ids, edges, placed, id, x);
      }
    }
  }

  function Unblocked(ids: seq<Id>, incoming: map<Id, int>): (r: seq<Id>)
    ensures forall x :: x in r <==> x in ids && x in incoming && incoming[x] == 0
    ensures NoDuplicates(ids) ==> NoDuplicates(r)
  {
    if ids == [] then []
    else
      var rest := Unblocked(ids[1..], incoming);
      if ids[0] in incoming && incoming[ids[0]] == 0 then [ids[0]] + rest else rest
  }

  function Excluding(ids: seq<Id>, placed: seq<Id>): (r: seq<Id>)
    ensures forall x :: x in r <==> x in ids && x !in placed
    ensures NoDuplicates(ids) ==> NoDuplicates(r)
  {
    if ids == [] then []
    else
      var rest := Excluding(ids[1..], placed);
      if ids[0] in placed then rest else [ids[0]] + rest
  }

  lemma PlaceLeast(g: Graph<Id>, placed: seq<Id>, id: Id, rest: seq<Id>)
    requires Greedy(g, placed) && Frontier(g, placed, [id] + rest) && Sorted([id] + rest)
    ensures Greedy(g, placed + [id]) && id !in placed
  {
    assert id in [id] + rest;
    forall y | Placeable(g, placed, y)
      ensures AtMost(id, y)
    {
      assert y in [id] + rest;
      var i :| 0 <= i < |[id] + rest| && ([id] + rest)[i] == y;
      assert ([id] + rest)[0] == id;
    }
    forall i | 0 <= i < |placed + [id]|
      ensures LeastPlaceable(g, (placed + [id])[..i], (placed + [id])[i])
    {
      assert i < |placed| ==> (placed + [id])[..i] == placed[..i];
      assert (placed + [id])[..|placed|] == placed;
    }
  }

  lemma GreedyFacts(g: Graph<Id>, order: seq<Id>)
    requires Greedy(g, order)
    ensures PredecessorsFirst(g, order) && NoDuplicates(order)
    ensures forall x | x in order :: x in g.nodes
  {
    forall i | 0 <= i < |order|
      ensures Placeable(g, order[..i], order[i])
    {
      assert LeastPlaceable(g, order[..i], order[i]);
    }
    forall i, j | 0 <= i < j < |order|
      ensures order[i] != order[j]
    {
      assert Placeable(g, order[..j], order[j]);
      assert order[i] in order[..j];
    }
  }

  lemma Finished(g: Graph<Id>, order: seq<Id>, rest: seq<Id>)
    requires Closed(g) && Greedy(g, order) && Frontier(g, order, [])
    requires Sorted(rest) && NoDuplicates(rest) && forall x :: x in rest <==> x in g.nodes && x !in order
    ensures Ordered(g, order + rest)
  {
    GreedyFacts(g, order);
    var r, k := order + rest, |order|;
    assert r[..k] == order && r[k..] == rest;
    forall y
      ensures !Placeable(g, order, y)
    {
      assert y !in [];
    }
    forall i | 0 <= i < |r|
      ensures Downstream(g, r[i]) <==> i >= k
    {
      if i < k {
        assert r[i] in order;
        PlacedClear(g, order, r[i]);
      } else {
        assert r[i] in rest;
        StuckDownstream(g, order, r[i]);
      }
    }
    assert SplitsAt(g, r, k);
    forall i, j | 0 <= i < j < |r|
      ensures r[i] != r[j]
    {
      assert i < k <= j ==> r[i] in order && r[j] in rest;
    }
  }

  method StartReady(ids: seq<Id>, edges: seq<(Id, Id)>, incoming: map<Id, int>) returns (ready: seq<Id>)
    requires NoDuplicates(ids) && Counts(ids, edges, [], incoming)
    ensures Sorted(ready) && NoDuplicates(ready) && Frontier(GraphFrom(ids, edges), [], ready)
  {
    var free := Unblocked(ids, incoming);
    ready := Sort(free);
    SortSorted(free);
    SameMembers(free, ready);
    forall x | x in ids {
      WaitingZero(ids, edges, [], x);
    }
  }

  /** Places the head of the ready list and releases its outgoing edges. */
  method PlaceNext(ids: seq<Id>, edges: seq<(Id, Id)>, ghost placed: seq<Id>, incoming0: map<Id, int>,
                   targets: seq<Id>, ready0: seq<Id>)
    returns (incoming: map<Id, int>, ready: seq<Id>)
    requires ready0 != [] && Sorted(ready0) && NoDuplicates(ready0)
    requires Greedy(GraphFrom(ids, edges), placed) && Frontier(GraphFrom(ids, edges), placed, ready0)
    requires Counts(ids, edges, placed, incoming0)
    requires forall x :: multiset(targets)[x] == Between(ids, edges, ready0[0], x)
    ensures Greedy(GraphFrom(ids, edges), placed + [ready0[0]])
    ensures Frontier(GraphFrom(ids, edges), placed + [ready0[0]], ready)
    ensures Sorted(ready) && NoDuplicates(ready)
    ensures Counts(ids, edges, placed + [ready0[0]], incoming)
  {
    var id, rest := ready0[0], ready0[1..];
    assert ready0 == [id] + rest;
    PlaceLeast(GraphFrom(ids, edges), placed, id, rest);
    GreedyFacts(GraphFrom(ids, edges), placed);
    ReadyWaitsForNothing(ids, edges, placed, ready0);
    incoming, ready := Release(ids, edges, placed, id, targets, incoming0, rest);
    FrontierMoves(ids, edges, placed, id, rest, ready);
  }

  lemma ReadyWaitsForNothing(ids: seq<Id>, edges: seq<(Id, Id)>, placed: seq<Id>, ready: seq<Id>)
    requires Frontier(GraphFrom(ids, edges), placed, ready)
    ensures forall x | x in ready :: x in ids && Waiting(ids, edges, placed, x) == 0
  {
    forall x | x in ready
      ensures x in ids && Waiting(ids, edges, placed, x) == 0
    {
      assert Placeable(GraphFrom(ids, edges), placed, x);
      WaitingZero(ids, edges, placed, x);
    }
  }

  lemma FitsIn(ids: seq<Id>, edges: seq<(Id, Id)>, order: seq<Id>)
    requires Greedy(GraphFrom(ids, edges), order)
    ensures |order| <= |ids|
  {
    GreedyFacts(GraphFrom(ids, edges), order);
    DistinctFits(order, set x | x in ids);
    SetSmaller(ids);
  }

  lemma {:induction false} SetSmaller(s: seq<Id>)
    ensures |set x | x in s| <= |s|
  {
    if s != [] {
      SetSmaller(s[1..]);
      assert (set x | x in s) == (set x | x in s[1..]) + {s[0]};
    }
  }

  /** The dashboard's order of the node ids of a definition. */
  method TopologicalNodeIDs(nodes: seq<Id>, edges: seq<(Id, Id)>) returns (r: seq<Id>)
    ensures Ordered(GraphFrom(nodes, edges), r)
  {
    var ids := Dedup(nodes);
    ghost var g := GraphFrom(ids, edges);
    assert g == GraphFrom(nodes, edges);
    var incoming, outgoing := CountEdges(ids, edges);
    var ready := StartReady(ids, edges, incoming);
    var ordered: seq<Id> := [];
    while |ready| > 0
      invariant Greedy(g, ordered) && Frontier(g, ordered, ready)
      invariant Sorted(ready) && NoDuplicates(ready)
      invariant Counts(ids, edges, ordered, incoming)
      decreases |ids| - |ordered|
    {
      var id := ready[0];
      assert Placeable(g, ordered, id);
      incoming, ready := PlaceNext(ids, edges, ordered, incoming, Sort(outgoing[id]), ready);
      ordered := ordered + [id];
      FitsIn(ids, edges, ordered);
    }
    assert Frontier(g, ordered, []);
    var unresolved := Sort(Excluding(ids, ordered));
    SortSorted(Excluding(ids, ordered));
    SameMembers(Excluding(ids, ordered), unresolved);
    Finished(g, ordered, unresolved);
    r := ordered + unresolved;
  }
}
