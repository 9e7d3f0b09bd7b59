/** Finite directed graphs: paths, cycles and ranks.

    The validator, the executor and the dashboard's ordering all talk about the
    same graphs, so the two views of "acyclic" they need (no cyclic path, and a
    rank that grows along every edge) are defined and proved equivalent here. */
module Graphs {

  datatype Graph<T(==)> = Graph(nodes: set<T>, edges: set<(T, T)>)

  ghost predicate Closed<T(!new)>(g: Graph<T>) {
    forall e | e in g.edges :: e.0 in g.nodes && e.1 in g.nodes
  }

  /** A non-empty walk along edges. */
  ghost predicate IsPath<T(!new)>(g: Graph<T>, p: seq<T>) {
    |p| > 0 && forall i, j | 0 <= i < j < |p| && j == i + 1 :: (p[i], p[j]) in g.edges
  }

  ghost predicate IsCycle<T(!new)>(g: Graph<T>, p: seq<T>) {
    IsPath(g, p) && |p| >= 2 && p[0] == p[|p| - 1]
  }

  ghost predicate HasCycle<T(!new)>(g: Graph<T>) {
    exists p :: IsCycle(g, p)
  }

  ghost predicate Joins<T(!new)>(g: Graph<T>, p: seq<T>, a: T, b: T) {
    IsPath(g, p) && p[0] == a && p[|p| - 1] == b
  }

  ghost predicate Reaches<T(!new)>(g: Graph<T>, a: T, b: T) {
    exists p :: Joins(g, p, a, b)
  }

  /** A rank that strictly grows along every edge. */
  ghost predicate Ranks<T(!new)>(g: Graph<T>, rank: map<T, nat>) {
    && g.nodes <= rank.Keys
    && forall e | e in g.edges && e.0 in rank && e.1 in rank :: rank[e.0] < rank[e.1]
  }

  lemma ReachesSelf<T(!new)>(g: Graph<T>, a: T)
    ensures Reaches(g, a, a)
  {
    assert Joins(g, [a], a, a);
  }

  lemma ReachesStep<T(!new)>(g: Graph<T>, a: T, b: T, c: T)
    requires Reaches(g, a, b)
    requires (b, c) in g.edges
    ensures Reaches(g, a, c)
  {
    var p :| Joins(g, p, a, b);
    assert Joins(g, p + [c], a, c);
  }

  lemma {:induction false} PathClimbs<T(!new)>(g: Graph<T>, rank: map<T, nat>, p: seq<T>)
    requires Closed(g) && Ranks(g, rank)
    requires IsPath(g, p) && |p| >= 2
    ensures p[0] in rank && p[|p| - 1] in rank
    ensures rank[p[0]] < rank[p[|p| - 1]]
  {
    var n := |p| - 1;
    assert (p[n - 1], p[n]) in g.edges;
    if n >= 2 {
      PathClimbs(g, rank, p[..n]);
    }
  }

  /** A ranked graph has no cycle. */
  lemma RankedAcyclic<T(!new)>(g: Graph<T>, rank: map<T, nat>)
    requires Closed(g) && Ranks(g, rank)
    ensures !HasCycle(g)
  {
    if p :| IsCycle(g, p) {
      PathClimbs(g, rank, p);
    }
  }

  ghost predicate NoDuplicates<T>(s: seq<T>) {
    forall i, j | 0 <= i < j < |s| :: s[i] != s[j]
  }

  lemma {:induction false} DistinctFits<T>(s: seq<T>, v: set<T>)
    requires NoDuplicates(s)
    requires forall x | x in s :: x in v
    ensures |s| <= |v|
  {
    if s != [] {
      var last := s[|s| - 1];
      DistinctFits(s[..|s| - 1], v - {last});
    }
  }

  ghost predicate FedBy<T(!new)>(g: Graph<T>, v: set<T>, x: T) {
    exists y | y in v :: (y, x) in g.edges
  }

  ghost predicate FedFromWithin<T(!new)>(g: Graph<T>, v: set<T>) {
    forall x {:trigger FedBy(g, v, x)} | x in v :: FedBy(g, v, x)
  }

  /** A walk of any length inside a set whose members all have a predecessor in it. */
  lemma {:induction false} WalkBack<T(!new)>(g: Graph<T>, v: set<T>, x: T, n: nat) returns (p: seq<T>)
    requires x in v && FedFromWithin(g, v)
    ensures |p| == n + 1 && IsPath(g, p) && p[n] == x
    ensures forall y | y in p :: y in v
  {
    if n == 0 {
      p := [x];
    } else {
      assert FedBy(g, v, x);
      var y :| y in v && (y, x) in g.edges;
      var q := WalkBack(g, v, y, n - 1);
      p := q + [x];
    }
  }

  /** Pigeonhole: a non-empty finite set in which everything has a predecessor
      holds a cycle, and every member is downstream of it. */
  lemma FedSetHasCycle<T(!new)>(g: Graph<T>, v: set<T>, x: T) returns (c: seq<T>)
    requires x in v && FedFromWithin(g, v)
    ensures IsCycle(g, c) && Reaches(g, c[0], x)
  {
    var p := WalkBack(g, v, x, |v|);
    if NoDuplicates(p) {
      DistinctFits(p, v);
    }
    var i, j :| 0 <= i < j < |p| && p[i] == p[j];
    c := p[i..j + 1];
    assert IsCycle(g, c);
    assert Joins(g, p[i..], c[0], x);
  }

  /** A graph without cycles can be ranked: strip a node with no predecessor
      left in the set and rank the rest above it. */
  lemma {:induction false} RankWithin<T(!new)>(g: Graph<T>, v: set<T>, base: nat) returns (rank: map<T, nat>)
    requires !HasCycle(g)
    ensures rank.Keys == v
    ensures forall x | x in v :: base <= rank[x]
    ensures forall e | e in g.edges && e.0 in v && e.1 in v :: rank[e.0] < rank[e.1]
    decreases |v|
  {
    if v == {} {
      rank := map[];
    } else {
      var any :| any in v;
      if FedFromWithin(g, v) {
        var c := FedSetHasCycle(g, v, any);
      }
      var x :| x in v && !FedBy(g, v, x);
      var rest := RankWithin(g, v - {x}, base + 1);
      rank := rest[x := base];
    }
  }

  /** The two views of "acyclic" agree. */
  lemma AcyclicIffRanked<T(!new)>(g: Graph<T>)
    requires Closed(g)
    ensures !HasCycle(g) <==> exists rank :: Ranks(g, rank)
  {
    if !HasCycle(g) {
      var rank := RankWithin(g, g.nodes, 0);
      assert Ranks(g, rank);
    }
    if rank :| Ranks(g, rank) {
      RankedAcyclic(g, rank);
    }
  }
}
