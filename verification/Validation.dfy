/** The publish-time validator. `Faulty` says, rule by rule, what each reported
    fault means; `Sound` says what a publishable workflow is. */
module Validation {
  import opened Graphs
  import opened Common
  import opened Workflow

  datatype NodeFault =
    | IdRequired | DuplicateId | UnsupportedType | ConfigMissing | InvalidConfig
    | TriggerHasIncoming | Orphan | Unreachable
  datatype EdgeFault =
    | EdgeIdRequired | DuplicateEdgeId | UnknownSource | UnknownTarget | SelfLoop
    | DuplicatePair | ConditionShape | InvalidBranch
  datatype GraphFault = MissingTrigger | MissingAction | CycleDetected

  datatype Fault =
    | AtNode(node: nat, nodeFault: NodeFault)
    | AtEdge(edge: nat, edgeFault: EdgeFault)
    | InGraph(graphFault: GraphFault)

  // ----- what a publishable workflow is

  predicate KnownId(d: Definition, id: string) {
    id != "" && HasNode(d, id)
  }

  predicate Resolved(d: Definition, e: Edge) {
    KnownId(d, e.source) && KnownId(d, e.target)
  }

  ghost predicate NodesSound(d: Definition) {
    && (forall i | 0 <= i < |d.nodes| ::
          && d.nodes[i].id != ""
          && !d.nodes[i].kind.Unsupported?
          && !d.nodes[i].config.Absent?
          && Decoded(d.nodes[i].kind, d.nodes[i].config))
    && (forall i, j | 0 <= i < j < |d.nodes| :: d.nodes[i].id != d.nodes[j].id)
    && (exists i | 0 <= i < |d.nodes| :: d.nodes[i].kind.Trigger?)
    && (exists i | 0 <= i < |d.nodes| :: Action(d.nodes[i].kind))
  }

  ghost predicate EdgesSound(d: Definition) {
    && (forall i | 0 <= i < |d.edges| ::
          var e := d.edges[i];
          && e.id != ""
          && KnownId(d, e.source) && KnownId(d, e.target) && e.source != e.target
          && !e.condition.NotAnObject?
          && (NodeOf(d, e.source).kind.Condition? ==> BranchParses(e.condition)))
    && (forall i, j | 0 <= i < j < |d.edges| :: d.edges[i].id != d.edges[j].id)
    && (forall i, j | 0 <= i < j < |d.edges| ::
          d.edges[i].source != d.edges[j].source || d.edges[i].target != d.edges[j].target)
  }

  ghost predicate ShapeSound(d: Definition) {
    && (forall e {:trigger EntersTrigger(d, e)} | e in d.edges :: !EntersTrigger(d, e))
    && (forall n {:trigger Connected(d, n)} | n in d.nodes :: Connected(d, n))
    && (forall n {:trigger Reachable(d, n)} | n in d.nodes :: Reachable(d, n))
    && !HasCycle(GraphOf(d))
  }

  predicate EntersTrigger(d: Definition, e: Edge) {
    KnownId(d, e.target) && NodeOf(d, e.target).kind.Trigger?
  }

  predicate Connected(d: Definition, n: Node) {
    exists e | e in d.edges :: e.source == n.id || e.target == n.id
  }

  ghost predicate Reachable(d: Definition, n: Node) {
    n.kind.Trigger? || exists t | t in d.nodes && t.kind.Trigger? :: Reaches(GraphOf(d), t.id, n.id)
  }

  ghost predicate Sound(d: Definition) {
    NodesSound(d) && EdgesSound(d) && ShapeSound(d)
  }

  // ----- what each reported fault means

  predicate FirstWithId(d: Definition, i: nat)
    requires i < |d.nodes|
  {
    if d.nodes[i].id == "" then i == 0 else forall j | 0 <= j < i :: d.nodes[j].id != d.nodes[i].id
  }

  /** The validator's key for an ordered pair of node ids. */
  function PairKey(e: Edge): string {
    e.source + [0 as char] + e.target
  }

  ghost predicate NodeFaulty(d: Definition, i: nat, f: NodeFault) {
    && i < |d.nodes|
    && var n := d.nodes[i];
       match f
       case IdRequired => n.id == ""
       case DuplicateId => n.id != "" && exists j | 0 <= j < i :: d.nodes[j].id == n.id
       case UnsupportedType => n.kind.Unsupported?
       case ConfigMissing => n.config.Absent?
       case InvalidConfig => !n.config.Absent? && !Decoded(n.kind, n.config)
       case TriggerHasIncoming =>
         FirstWithId(d, i) && n.kind.Trigger? && exists e | e in d.edges :: Resolved(d, e) && e.target == n.id
       case Orphan =>
         FirstWithId(d, i) && forall e | e in d.edges && Resolved(d, e) :: e.source != n.id && e.target != n.id
       case Unreachable =>
         FirstWithId(d, i) && !n.kind.Trigger? && !ReachedFromFirstTrigger(d, n.id)
  }

  ghost predicate ReachedFromFirstTrigger(d: Definition, id: string) {
    exists k: nat | k < |d.nodes| :: d.nodes[k].kind.Trigger? && FirstWithId(d, k)
                                     && Reaches(GraphOf(d), d.nodes[k].id, id)
  }

  ghost predicate EdgeFaulty(d: Definition, i: nat, f: EdgeFault) {
    && i < |d.edges|
    && var e := d.edges[i];
       match f
       case EdgeIdRequired => e.id == ""
       case DuplicateEdgeId => e.id != "" && exists j | 0 <= j < i :: d.edges[j].id == e.id
       case UnknownSource => !KnownId(d, e.source)
       case UnknownTarget => !KnownId(d, e.target)
       case SelfLoop => e.source != "" && e.source == e.target
       case DuplicatePair => exists j | 0 <= j < i :: PairKey(d.edges[j]) == PairKey(e)
       case ConditionShape => e.condition.NotAnObject?
       case InvalidBranch =>
         KnownId(d, e.source) && NodeOf(d, e.source).kind.Condition? && !BranchParses(e.condition)
  }

  ghost predicate GraphFaulty(d: Definition, f: GraphFault) {
    match f
    case MissingTrigger => forall n | n in d.nodes :: !n.kind.Trigger?
    case MissingAction => forall n | n in d.nodes :: !Action(n.kind)
    case CycleDetected => HasCycle(GraphOf(d))
  }

  ghost predicate Faulty(d: Definition, f: Fault) {
    match f
    case AtNode(i, nf) => NodeFaulty(d, i, nf)
    case AtEdge(i, ef) => EdgeFaulty(d, i, ef)
    case InGraph(gf) => GraphFaulty(d, gf)
  }

  // ----- phase 1: the nodes one by one

  predicate LocalNodeFault(f: NodeFault) {
    !f.TriggerHasIncoming? && !f.Orphan? && !f.Unreachable?
  }

  ghost predicate Indexed(d: Definition, upTo: nat, index: map<string, nat>)
    requires upTo <= |d.nodes|
  {
    && (forall i | 0 <= i < upTo && d.nodes[i].id != "" :: d.nodes[i].id in index)
    && (forall id | id in index ::
          && id != "" && index[id] < upTo && d.nodes[index[id]].id == id
          && forall j | 0 <= j < index[id] :: d.nodes[j].id != id)
  }

  method CheckNodes(d: Definition) returns (faults: seq<Fault>, index: map<string, nat>)
    ensures forall f :: f in faults <==>
              ((f.AtNode? && LocalNodeFault(f.nodeFault)) || f == InGraph(MissingTrigger) || f == InGraph(MissingAction))
              && Faulty(d, f)
    ensures Indexed(d, |d.nodes|, index)
  {
    faults, index := [], map[];
    var triggers, actions := 0, 0;
    for i := 0 to |d.nodes|
      invariant forall f :: f in faults <==>
                  f.AtNode? && LocalNodeFault(f.nodeFault) && f.node < i && Faulty(d, f)
      invariant Indexed(d, i, index)
      invariant triggers >= 0 && (triggers == 0 <==> forall j | 0 <= j < i :: !d.nodes[j].kind.Trigger?)
      invariant actions >= 0 && (actions == 0 <==> forall j | 0 <= j < i :: !Action(d.nodes[j].kind))
    {
      var node := d.nodes[i];
      var more := CheckNode(d, i, index);
      IndexGrows(d, i, index);
      if node.id != "" && node.id !in index {
        index := index[node.id := i];
      }
      faults := faults + more;
      if node.kind.Trigger? {
        triggers := triggers + 1;
      }
      if Action(node.kind) {
        actions := actions + 1;
      }
    }
    if triggers == 0 {
      faults := faults + [InGraph(MissingTrigger)];
    }
    if actions == 0 {
      faults := faults + [InGraph(MissingAction)];
    }
  }

  lemma IndexGrows(d: Definition, i: nat, index: map<string, nat>)
    requires i < |d.nodes| && Indexed(d, i, index)
    ensures var id := d.nodes[i].id; Indexed(d, i + 1, if id != "" && id !in index then index[id := i] else index)
  {
  }

  method CheckNode(d: Definition, i: nat, index: map<string, nat>) returns (faults: seq<Fault>)
    requires i < |d.nodes| && Indexed(d, i, index)
    ensures forall f :: f in faults <==>
              f.AtNode? && LocalNodeFault(f.nodeFault) && f.node == i && Faulty(d, f)
  {
    faults := [];
    var node := d.nodes[i];
    if node.id == "" {
      faults := faults + [AtNode(i, IdRequired)];
    } else if node.id in index {
      faults := faults + [AtNode(i, DuplicateId)];
    }
    if node.kind.Unsupported? {
      faults := faults + [AtNode(i, UnsupportedType)];
    }
    if node.config.Absent? {
      faults := faults + [AtNode(i, ConfigMissing)];
    } else if !Decoded(node.kind, node.config) {
      faults := faults + [AtNode(i, InvalidConfig)];
    }
  }

  // ----- phase 2: the edges one by one

  ghost predicate Adjacency(d: Definition, upTo: nat, adjacency: map<string, seq<string>>)
    requires upTo <= |d.edges|
  {
    && (forall i | 0 <= i < upTo && Resolved(d, d.edges[i]) ::
          d.edges[i].source in adjacency && d.edges[i].target in adjacency[d.edges[i].source])
    && (forall a, k | a in adjacency && 0 <= k < |adjacency[a]| :: StepsTo(d, upTo, a, adjacency[a][k]))
  }

  ghost predicate StepsTo(d: Definition, upTo: nat, a: string, b: string)
    requires upTo <= |d.edges|
  {
    exists i | 0 <= i < upTo :: Resolved(d, d.edges[i]) && d.edges[i].source == a && d.edges[i].target == b
  }

  function CountOf(m: map<string, nat>, id: string): nat {
    if id in m then m[id] else 0
  }

  function Bump(m: map<string, nat>, id: string): map<string, nat> {
    m[id := CountOf(m, id) + 1]
  }

  ghost predicate Entered(d: Definition, upTo: nat, id: string)
    requires upTo <= |d.edges|
  {
    exists i | 0 <= i < upTo :: Resolved(d, d.edges[i]) && d.edges[i].target == id
  }

  ghost predicate Touched(d: Definition, upTo: nat, id: string)
    requires upTo <= |d.edges|
  {
    exists i | 0 <= i < upTo :: Resolved(d, d.edges[i]) && (d.edges[i].source == id || d.edges[i].target == id)
  }

  ghost predicate Counted(d: Definition, upTo: nat, incoming: map<string, nat>, degree: map<string, nat>)
    requires upTo <= |d.edges|
  {
    && (forall id :: CountOf(incoming, id) > 0 <==> Entered(d, upTo, id))
    && (forall id :: CountOf(degree, id) > 0 <==> Touched(d, upTo, id))
  }

  ghost function EdgeIdsBefore(d: Definition, i: nat): set<string>
    requires i <= |d.edges|
  {
    set j | 0 <= j < i && d.edges[j].id != "" :: d.edges[j].id
  }

  ghost function PairsBefore(d: Definition, i: nat): set<string>
    requires i <= |d.edges|
  {
    set j | 0 <= j < i :: PairKey(d.edges[j])
  }

  method CheckEdges(d: Definition, index: map<string, nat>)
    returns (faults: seq<Fault>, adjacency: map<string, seq<string>>, incoming: map<string, nat>, degree: map<string, nat>)
    requires Indexed(d, |d.nodes|, index)
    ensures forall f :: f in faults <==> f.AtEdge? && Faulty(d, f)
    ensures Adjacency(d, |d.edges|, adjacency)
    ensures Counted(d, |d.edges|, incoming, degree)
  {
    faults, adjacency, incoming, degree := [], map[], map[], map[];
    var edgeIds, pairs := {}, {};
    for i := 0 to |d.edges|
      invariant forall f :: f in faults <==> f.AtEdge? && f.edge < i && Faulty(d, f)
      invariant edgeIds == EdgeIdsBefore(d, i) && pairs == PairsBefore(d, i)
      invariant Adjacency(d, i, adjacency)
      invariant Counted(d, i, incoming, degree)
    {
      var more := CheckEdge(d, i, index, edgeIds, pairs);
      faults := faults + more;
      if d.edges[i].id != "" {
        edgeIds := edgeIds + {d.edges[i].id};
      }
      pairs := pairs + {PairKey(d.edges[i])};
      adjacency, incoming, degree := LinkEdge(d, i, index, adjacency, incoming, degree);
    }
  }

  /** Files one edge: both ends must exist for it to count. */
  method LinkEdge(d: Definition, i: nat, index: map<string, nat>,
                  adjacency0: map<string, seq<string>>, incoming0: map<string, nat>, degree0: map<string, nat>)
    returns (adjacency: map<string, seq<string>>, incoming: map<string, nat>, degree: map<string, nat>)
    requires i < |d.edges| && Indexed(d, |d.nodes|, index)
    requires Adjacency(d, i, adjacency0) && Counted(d, i, incoming0, degree0)
    ensures Adjacency(d, i + 1, adjacency) && Counted(d, i + 1, incoming, degree)
  {
    adjacency, incoming, degree := adjacency0, incoming0, degree0;
    var edge := d.edges[i];
    IndexKnows(d, index, edge.source);
    IndexKnows(d, index, edge.target);
    if edge.source in index && edge.target in index {
      AdjacencyGrows(d, i, adjacency);
      adjacency := adjacency[edge.source :=
        (if edge.source in adjacency then adjacency[edge.source] else []) + [edge.target]];
      CountedGrows(d, i, incoming, degree);
      incoming := Bump(incoming, edge.target);
      degree := Bump(Bump(degree, edge.source), edge.target);
    } else {
      CountedIdle(d, i, incoming, degree);
      forall a, k | a in adjacency && 0 <= k < |adjacency[a]|
        ensures StepsTo(d, i + 1, a, adjacency[a][k])
      {
        assert StepsTo(d, i, a, adjacency[a][k]);
      }
    }
  }

  lemma CountsGrow(d: Definition, i: nat, id: string)
    requires i < |d.edges|
    ensures Entered(d, i + 1, id) <==>
              Entered(d, i, id) || (Resolved(d, d.edges[i]) && d.edges[i].target == id)
    ensures Touched(d, i + 1, id) <==>
              Touched(d, i, id)
              || (Resolved(d, d.edges[i]) && (d.edges[i].source == id || d.edges[i].target == id))
  {
  }

  lemma CountedGrows(d: Definition, i: nat, incoming: map<string, nat>, degree: map<string, nat>)
    requires i < |d.edges| && Counted(d, i, incoming, degree) && Resolved(d, d.edges[i])
    ensures var e := d.edges[i];
            Counted(d, i + 1, Bump(incoming, e.target), Bump(Bump(degree, e.source), e.target))
  {
    var e := d.edges[i];
    var incoming1, degree1 := Bump(incoming, e.target), Bump(Bump(degree, e.source), e.target);
    forall id
      ensures CountOf(incoming1, id) > 0 <==> Entered(d, i + 1, id)
      ensures CountOf(degree1, id) > 0 <==> Touched(d, i + 1, id)
    {
      CountsGrow(d, i, id);
      assert CountOf(incoming, id) > 0 <==> Entered(d, i, id);
      assert CountOf(degree, id) > 0 <==> Touched(d, i, id);
    }
  }

  lemma CountedIdle(d: Definition, i: nat, incoming: map<string, nat>, degree: map<string, nat>)
    requires i < |d.edges| && Counted(d, i, incoming, degree) && !Resolved(d, d.edges[i])
    ensures Counted(d, i + 1, incoming, degree)
  {
    forall id {
      CountsGrow(d, i, id);
    }
  }

  lemma SeenBefore(d: Definition, i: nat)
    requires i < |d.edges|
    ensures d.edges[i].id in EdgeIdsBefore(d, i) <==> EdgeFaulty(d, i, DuplicateEdgeId)
    ensures PairKey(d.edges[i]) in PairsBefore(d, i) <==> EdgeFaulty(d, i, DuplicatePair)
  {
  }

  lemma IndexKnows(d: Definition, index: map<string, nat>, id: string)
    requires Indexed(d, |d.nodes|, index)
    ensures id in index <==> KnownId(d, id)
    ensures id in index ==> NodeOf(d, id) == d.nodes[index[id]]
  {
  }

  lemma StepsLater(d: Definition, i: nat, a: string, b: string)
    requires i < |d.edges| && StepsTo(d, i, a, b)
    ensures StepsTo(d, i + 1, a, b)
  {
  }

  lemma AdjacencyGrows(d: Definition, i: nat, adjacency: map<string, seq<string>>)
    requires i < |d.edges| && Adjacency(d, i, adjacency) && Resolved(d, d.edges[i])
    ensures var e := d.edges[i];
            Adjacency(d, i + 1, adjacency[e.source :=
              (if e.source in adjacency then adjacency[e.source] else []) + [e.target]])
  {
    var e := d.edges[i];
    var before := if e.source in adjacency then adjacency[e.source] else [];
    var after := adjacency[e.source := before + [e.target]];
    assert StepsTo(d, i + 1, e.source, e.target);
    forall a, k | a in after && 0 <= k < |after[a]|
      ensures StepsTo(d, i + 1, a, after[a][k])
    {
      if !(a == e.source && k == |before|) {
        StepsLater(d, i, a, adjacency[a][k]);
      }
    }
    assert after[e.source][|before|] == e.target;
    forall j | 0 <= j < i + 1 && Resolved(d, d.edges[j])
      ensures d.edges[j].source in after && d.edges[j].target in after[d.edges[j].source]
    {
    }
  }

  method CheckEdge(d: Definition, i: nat, index: map<string, nat>, edgeIds: set<string>, pairs: set<string>)
    returns (faults: seq<Fault>)
    requires i < |d.edges| && Indexed(d, |d.nodes|, index)
    requires edgeIds == EdgeIdsBefore(d, i) && pairs == PairsBefore(d, i)
    ensures forall f :: f in faults <==> f.AtEdge? && f.edge == i && Faulty(d, f)
  {
    var identity := CheckEdgeIdentity(d, i, edgeIds, pairs);
    var ends := CheckEdgeEnds(d, i, index);
    faults := identity + ends;
  }

  predicate IdentityFault(f: EdgeFault) {
    f.EdgeIdRequired? || f.DuplicateEdgeId? || f.DuplicatePair? || f.SelfLoop? || f.ConditionShape?
  }

  method CheckEdgeIdentity(d: Definition, i: nat, edgeIds: set<string>, pairs: set<string>)
    returns (faults: seq<Fault>)
    requires i < |d.edges|
    requires edgeIds == EdgeIdsBefore(d, i) && pairs == PairsBefore(d, i)
    ensures forall f :: f in faults <==> f.AtEdge? && f.edge == i && IdentityFault(f.edgeFault) && Faulty(d, f)
  {
    var edge := d.edges[i];
    SeenBefore(d, i);
    faults := [];
    if edge.id == "" {
      faults := faults + [AtEdge(i, EdgeIdRequired)];
    } else if edge.id in edgeIds {
      faults := faults + [AtEdge(i, DuplicateEdgeId)];
    }
    if edge.source != "" && edge.source == edge.target {
      faults := faults + [AtEdge(i, SelfLoop)];
    }
    if PairKey(edge) in pairs {
      faults := faults + [AtEdge(i, DuplicatePair)];
    }
    if edge.condition.NotAnObject? {
      faults := faults + [AtEdge(i, ConditionShape)];
    }
  }

  method CheckEdgeEnds(d: Definition, i: nat, index: map<string, nat>) returns (faults: seq<Fault>)
    requires i < |d.edges| && Indexed(d, |d.nodes|, index)
    ensures forall f :: f in faults <==> f.AtEdge? && f.edge == i && !IdentityFault(f.edgeFault) && Faulty(d, f)
  {
    var edge := d.edges[i];
    IndexKnows(d, index, edge.source);
    IndexKnows(d, index, edge.target);
    faults := [];
    if edge.source !in index {
      faults := faults + [AtEdge(i, UnknownSource)];
    }
    if edge.target !in index {
      faults := faults + [AtEdge(i, UnknownTarget)];
    }
    if edge.source in index && d.nodes[index[edge.source]].kind.Condition? && !BranchParses(edge.condition) {
      faults := faults + [AtEdge(i, InvalidBranch)];
    }
  }

  // ----- phase 3: degrees

  /** The index lookup that makes every later loop consider an id once: a missing
      entry reads as position 0, as a Go map read does. */
  predicate Considered(index: map<string, nat>, d: Definition, i: nat)
    requires i < |d.nodes|
  {
    (if d.nodes[i].id in index then index[d.nodes[i].id] else 0) == i
  }

  lemma ConsideredIsFirst(d: Definition, index: map<string, nat>, i: nat)
    requires i < |d.nodes| && Indexed(d, |d.nodes|, index)
    ensures Considered(index, d, i) <==> FirstWithId(d, i)
  {
  }

  method CheckDegrees(d: Definition, index: map<string, nat>, incoming: map<string, nat>, degree: map<string, nat>)
    returns (faults: seq<Fault>)
    requires Indexed(d, |d.nodes|, index) && Counted(d, |d.edges|, incoming, degree)
    ensures forall f :: f in faults <==>
              f.AtNode? && (f.nodeFault.TriggerHasIncoming? || f.nodeFault.Orphan?) && Faulty(d, f)
  {
    faults := [];
    for i := 0 to |d.nodes|
      invariant forall f :: f in faults <==>
                  f.AtNode? && (f.nodeFault.TriggerHasIncoming? || f.nodeFault.Orphan?) && f.node < i && Faulty(d, f)
    {
      DegreeMeaning(d, i, index, incoming, degree);
      if Considered(index, d, i) {
        if d.nodes[i].kind.Trigger? && CountOf(incoming, d.nodes[i].id) > 0 {
          faults := faults + [AtNode(i, TriggerHasIncoming)];
        }
        if CountOf(degree, d.nodes[i].id) == 0 {
          faults := faults + [AtNode(i, Orphan)];
        }
      }
    }
  }

  lemma DegreeMeaning(d: Definition, i: nat, index: map<string, nat>, incoming: map<string, nat>, degree: map<string, nat>)
    requires i < |d.nodes| && Indexed(d, |d.nodes|, index) && Counted(d, |d.edges|, incoming, degree)
    ensures NodeFaulty(d, i, TriggerHasIncoming) <==>
              Considered(index, d, i) && d.nodes[i].kind.Trigger? && CountOf(incoming, d.nodes[i].id) > 0
    ensures NodeFaulty(d, i, Orphan) <==> Considered(index, d, i) && CountOf(degree, d.nodes[i].id) == 0
  {
    var id := d.nodes[i].id;
    ConsideredIsFirst(d, index, i);
    assert CountOf(incoming, id) > 0 <==> Entered(d, |d.edges|, id);
    assert CountOf(degree, id) > 0 <==> Touched(d, |d.edges|, id);
  }

  // ----- phase 4: breadth-first reachability

  ghost predicate Follows(g: Graph<string>, adjacency: map<string, seq<string>>) {
    forall a, b :: (a, b) in g.edges <==> a in adjacency && b in adjacency[a]
  }

  lemma AdjacencyFollows(d: Definition, adjacency: map<string, seq<string>>)
    requires Adjacency(d, |d.edges|, adjacency)
    ensures Follows(GraphOf(d), adjacency)
  {
    var g := GraphOf(d);
    forall a, b
      ensures (a, b) in g.edges <==> a in adjacency && b in adjacency[a]
    {
      if (a, b) in g.edges {
        var e :| e in d.edges && e.source == a && e.target == b && a != "" && b != "" && a in Ids(d) && b in Ids(d);
        IdsHasNode(d, a);
        IdsHasNode(d, b);
        var i :| 0 <= i < |d.edges| && d.edges[i] == e;
      }
      if a in adjacency && b in adjacency[a] {
        var k :| 0 <= k < |adjacency[a]| && adjacency[a][k] == b;
        assert StepsTo(d, |d.edges|, a, b);
        var i :| 0 <= i < |d.edges| && Resolved(d, d.edges[i]) && d.edges[i].source == a && d.edges[i].target == b;
        IdsHasNode(d, a);
        IdsHasNode(d, b);
        assert d.edges[i] in d.edges;
      }
    }
  }

  function Successors(adjacency: map<string, seq<string>>, id: string): seq<string> {
    if id in adjacency then adjacency[id] else []
  }

  ghost predicate ReachedFrom(g: Graph<string>, starts: seq<string>, id: string) {
    exists s | s in starts :: Reaches(g, s, id)
  }

  ghost predicate ExpandedBut(g: Graph<string>, reachable: set<string>, waiting: seq<string>) {
    forall a, b | (a, b) in g.edges && a in reachable && a !in waiting :: b in reachable
  }

  /** What a queue-driven search marks is exactly what the starts reach. */
  method Search(ghost g: Graph<string>, adjacency: map<string, seq<string>>, starts: seq<string>)
    returns (reachable: set<string>)
    requires Follows(g, adjacency) && Closed(g)
    ensures forall id :: id in reachable <==> ReachedFrom(g, starts, id)
  {
    ghost var all := g.nodes + set s | s in starts;
    reachable := set s | s in starts;
    var queue := starts;
    forall s | s in starts {
      ReachesSelf(g, s);
    }
    while |queue| > 0
      invariant forall q | q in queue :: q in reachable
      invariant (forall s | s in starts :: s in reachable) && reachable <= all
      invariant forall id | id in reachable :: ReachedFrom(g, starts, id)
      invariant ExpandedBut(g, reachable, queue)
      decreases all - reachable, |queue|
    {
      reachable, queue := Expand(g, adjacency, starts, reachable, queue);
    }
    SearchComplete(g, starts, reachable);
  }

  lemma SearchComplete(g: Graph<string>, starts: seq<string>, reachable: set<string>)
    requires (forall s | s in starts :: s in reachable) && ExpandedBut(g, reachable, [])
    ensures forall id | ReachedFrom(g, starts, id) :: id in reachable
  {
    forall id | ReachedFrom(g, starts, id)
      ensures id in reachable
    {
      var s :| s in starts && Reaches(g, s, id);
      var p :| Joins(g, p, s, id);
      ClosedUnderPaths(g, reachable, p);
    }
  }

  /** One turn of the search: pop the queue's head, mark and queue its unmarked successors. */
  method Expand(ghost g: Graph<string>, adjacency: map<string, seq<string>>, ghost roots: seq<string>,
                reachable0: set<string>, queue0: seq<string>)
    returns (reachable: set<string>, queue: seq<string>)
    requires Follows(g, adjacency) && Closed(g) && queue0 != []
    requires forall q | q in queue0 :: q in reachable0
    requires forall id | id in reachable0 :: ReachedFrom(g, roots, id)
    requires ExpandedBut(g, reachable0, queue0)
    ensures forall q | q in queue :: q in reachable
    ensures reachable0 <= reachable <= reachable0 + g.nodes
    ensures forall id | id in reachable :: ReachedFrom(g, roots, id)
    ensures ExpandedBut(g, reachable, queue)
    ensures reachable0 < reachable || (reachable == reachable0 && |queue| < |queue0|)
  {
    var current := queue0[0];
    reachable, queue := reachable0, queue0[1..];
    var targets := Successors(adjacency, current);
    for k := 0 to |targets|
      invariant forall q | q in queue :: q in reachable
      invariant reachable0 <= reachable <= reachable0 + g.nodes
      invariant forall id | id in reachable :: ReachedFrom(g, roots, id)
      invariant ExpandedBut(g, reachable, [current] + queue)
      invariant forall j | 0 <= j < k :: targets[j] in reachable
      invariant reachable0 < reachable || (reachable == reachable0 && |queue| < |queue0|)
    {
      var next := targets[k];
      assert (current, next) in g.edges;
      if next !in reachable {
        ReachedStep(g, roots, current, next);
        reachable := reachable + {next};
        queue := queue + [next];
      }
    }
  }

  lemma ReachedStep(g: Graph<string>, roots: seq<string>, a: string, b: string)
    requires ReachedFrom(g, roots, a) && (a, b) in g.edges
    ensures ReachedFrom(g, roots, b)
  {
    var s :| s in roots && Reaches(g, s, a);
    ReachesStep(g, s, a, b);
  }

  lemma {:induction false} ClosedUnderPaths(g: Graph<string>, r: set<string>, p: seq<string>)
    requires IsPath(g, p) && p[0] in r && ExpandedBut(g, r, [])
    ensures p[|p| - 1] in r
  {
    if |p| > 1 {
      var n := |p| - 1;
      ClosedUnderPaths(g, r, p[..n]);
      assert (p[n - 1], p[n]) in g.edges;
    }
  }

  method CheckReachability(d: Definition, index: map<string, nat>, adjacency: map<string, seq<string>>)
    returns (faults: seq<Fault>)
    requires Indexed(d, |d.nodes|, index) && Follows(GraphOf(d), adjacency)
    ensures forall f :: f in faults <==> f.AtNode? && f.nodeFault.Unreachable? && Faulty(d, f)
  {
    var starts: seq<string> := [];
    for i := 0 to |d.nodes|
      invariant forall id :: id in starts <==>
                  exists k: nat | k < i :: d.nodes[k].id == id && d.nodes[k].kind.Trigger? && FirstWithId(d, k)
    {
      ConsideredIsFirst(d, index, i);
      if Considered(index, d, i) && d.nodes[i].kind.Trigger? {
        starts := starts + [d.nodes[i].id];
      }
    }
    var reachable := Search(GraphOf(d), adjacency, starts);
    faults := [];
    for i := 0 to |d.nodes|
      invariant forall f :: f in faults <==> f.AtNode? && f.nodeFault.Unreachable? && f.node < i && Faulty(d, f)
    {
      ConsideredIsFirst(d, index, i);
      StartsMeaning(d, starts, d.nodes[i].id);
      if Considered(index, d, i) && !d.nodes[i].kind.Trigger? && d.nodes[i].id !in reachable {
        faults := faults + [AtNode(i, Unreachable)];
      }
    }
  }

  lemma StartsMeaning(d: Definition, starts: seq<string>, id: string)
    requires forall s :: s in starts <==>
               exists k: nat | k < |d.nodes| :: d.nodes[k].id == s && d.nodes[k].kind.Trigger? && FirstWithId(d, k)
    ensures ReachedFrom(GraphOf(d), starts, id) <==> ReachedFromFirstTrigger(d, id)
  {
    if ReachedFromFirstTrigger(d, id) {
      var k: nat :| k < |d.nodes| && d.nodes[k].kind.Trigger? && FirstWithId(d, k)
                    && Reaches(GraphOf(d), d.nodes[k].id, id);
      assert d.nodes[k].id in starts;
    }
  }

  // ----- phase 5: depth-first cycle search

  /** Absent from the state means unvisited. */
  datatype Colour = Visiting | Visited

  /** While no cycle has been seen: the ids being visited are the stack, and every
      finished id sits above all its successors, which are finished too. */
  ghost predicate Coloured(g: Graph<string>, state: map<string, Colour>, stack: seq<string>, depth: map<string, nat>) {
    && (forall x :: x in state && state[x].Visiting? <==> x in stack)
    && (forall x :: x in state && state[x].Visited? <==> x in depth)
    && (forall a, b | (a, b) in g.edges && a in depth :: b in depth && depth[b] < depth[a])
    && (forall x | x in depth :: depth[x] < |depth|)
  }

  ghost predicate AllFinished(ids: seq<string>, depth: map<string, nat>) {
    forall id | id in ids :: id in depth
  }

  method Visit(ghost g: Graph<string>, ghost universe: set<string>, adjacency: map<string, seq<string>>, id: string,
               state0: map<string, Colour>, cyclic0: bool, ghost stack: seq<string>, ghost depth0: map<string, nat>)
    returns (state: map<string, Colour>, cyclic: bool, ghost depth: map<string, nat>)
    requires Follows(g, adjacency) && Closed(g) && g.nodes <= universe
    requires id in universe && id !in state0
    requires cyclic0 ==> HasCycle(g)
    requires !cyclic0 ==> Coloured(g, state0, stack, depth0) && IsPath(g, stack + [id])
    ensures cyclic ==> HasCycle(g)
    ensures cyclic0 ==> cyclic
    ensures !cyclic ==> Coloured(g, state, stack, depth) && id in depth && depth0.Keys <= depth.Keys
    ensures state0.Keys <= state.Keys
    decreases universe - state0.Keys, 0
  {
    state, cyclic, depth := state0, cyclic0, depth0;
    if cyclic {
      return;
    }
    Enter(g, state, stack, depth, id);
    state := state[id := Visiting];
    var back;
    state, cyclic, back, depth := VisitTargets(g, universe, adjacency, id, state, stack + [id], depth);
    if back {
      return;
    }
    if !cyclic {
      depth := Finish(g, adjacency, id, state, stack, depth);
    }
    state := state[id := Visited];
  }

  /** All edges out of the id on top of the stack, until one leads back into it. */
  method VisitTargets(ghost g: Graph<string>, ghost universe: set<string>, adjacency: map<string, seq<string>>, id: string,
                      state0: map<string, Colour>, ghost path: seq<string>, ghost depth0: map<string, nat>)
    returns (state: map<string, Colour>, cyclic: bool, back: bool, ghost depth: map<string, nat>)
    requires Follows(g, adjacency) && Closed(g) && g.nodes <= universe
    requires Coloured(g, state0, path, depth0) && IsPath(g, path) && path[|path| - 1] == id
    ensures cyclic ==> HasCycle(g)
    ensures back ==> cyclic
    ensures !cyclic ==> Coloured(g, state, path, depth) && AllFinished(Successors(adjacency, id), depth) && depth0.Keys <= depth.Keys
    ensures state0.Keys <= state.Keys
    decreases universe - state0.Keys, 2
  {
    state, cyclic, back, depth := state0, false, false, depth0;
    var targets := Successors(adjacency, id);
    for k := 0 to |targets|
      invariant state0.Keys <= state.Keys
      invariant cyclic ==> HasCycle(g)
      invariant !cyclic ==> Coloured(g, state, path, depth) && depth0.Keys <= depth.Keys && AllFinished(targets[..k], depth)
    {
      assert (id, targets[k]) in g.edges && targets[..k + 1] == targets[..k] + [targets[k]];
      state, cyclic, back, depth := VisitTarget(g, universe, adjacency, targets[k], state, cyclic, path, depth);
      if back {
        return;
      }
    }
    assert targets[..|targets|] == targets;
  }

  /** One edge out of the id on top of the stack; `back` if it leads into the stack. */
  method VisitTarget(ghost g: Graph<string>, ghost universe: set<string>, adjacency: map<string, seq<string>>, next: string,
                     state0: map<string, Colour>, cyclic0: bool, ghost path: seq<string>, ghost depth0: map<string, nat>)
    returns (state: map<string, Colour>, cyclic: bool, back: bool, ghost depth: map<string, nat>)
    requires Follows(g, adjacency) && Closed(g) && g.nodes <= universe
    requires path != [] && (path[|path| - 1], next) in g.edges
    requires cyclic0 ==> HasCycle(g)
    requires !cyclic0 ==> Coloured(g, state0, path, depth0) && IsPath(g, path)
    ensures cyclic ==> HasCycle(g)
    ensures back || cyclic0 ==> cyclic
    ensures !cyclic ==> Coloured(g, state, path, depth) && next in depth && depth0.Keys <= depth.Keys
    ensures state0.Keys <= state.Keys
    decreases universe - state0.Keys, 1
  {
    state, cyclic, back, depth := state0, cyclic0, false, depth0;
    if next in state && state[next].Visiting? {
      if !cyclic {
        BackEdge(g, path, next);
      }
      cyclic, back := true, true;
    } else if next !in state {
      assert !cyclic ==> IsPath(g, path + [next]);
      state, cyclic, depth := Visit(g, universe, adjacency, next, state, cyclic, path, depth);
    }
  }

  lemma Enter(g: Graph<string>, state: map<string, Colour>, stack: seq<string>, depth: map<string, nat>, id: string)
    requires Coloured(g, state, stack, depth) && id !in state
    ensures Coloured(g, state[id := Visiting], stack + [id], depth) && id !in stack
  {
  }

  lemma BackEdge(g: Graph<string>, path: seq<string>, next: string)
    requires IsPath(g, path) && next in path && (path[|path| - 1], next) in g.edges
    ensures HasCycle(g)
  {
    var i :| 0 <= i < |path| && path[i] == next;
    assert IsCycle(g, path[i..] + [next]);
  }

  lemma Finish(g: Graph<string>, adjacency: map<string, seq<string>>, id: string,
               state: map<string, Colour>, stack: seq<string>, depth: map<string, nat>)
    returns (depth1: map<string, nat>)
    requires Follows(g, adjacency) && id !in stack
    requires Coloured(g, state, stack + [id], depth)
    requires forall t | t in Successors(adjacency, id) :: t in depth
    ensures Coloured(g, state[id := Visited], stack, depth1)
    ensures depth1.Keys == depth.Keys + {id}
  {
    assert id in stack + [id];
    depth1 := depth[id := |depth|];
    assert |depth1| == |depth| + 1;
  }

  method SearchCycle(ghost g: Graph<string>, ids: seq<string>, adjacency: map<string, seq<string>>) returns (cyclic: bool)
    requires Follows(g, adjacency) && Closed(g) && forall id | id in g.nodes :: id in ids
    ensures cyclic <==> HasCycle(g)
  {
    var state: map<string, Colour> := map[];
    ghost var depth: map<string, nat> := map[];
    ghost var universe := set id | id in ids;
    cyclic := false;
    for i := 0 to |ids|
      invariant cyclic ==> HasCycle(g)
      invariant !cyclic ==> Coloured(g, state, [], depth)
      invariant !cyclic ==> AllFinished(ids[..i], depth)
    {
      var id := ids[i];
      assert ids[..i + 1] == ids[..i] + [id];
      if id !in state {
        state, cyclic, depth := Visit(g, universe, adjacency, id, state, cyclic, [], depth);
      } else {
        assert !cyclic ==> id !in [] && state[id].Visited?;
      }
    }
    if !cyclic {
      assert ids[..|ids|] == ids;
      FinishedAcyclic(g, depth);
    }
  }

  method FindCycle(d: Definition, adjacency: map<string, seq<string>>) returns (cyclic: bool)
    requires Follows(GraphOf(d), adjacency)
    ensures cyclic <==> HasCycle(GraphOf(d))
  {
    var ids := seq(|d.nodes|, i requires 0 <= i < |d.nodes| => d.nodes[i].id);
    forall id | id in GraphOf(d).nodes
      ensures id in ids
    {
      var i :| 0 <= i < |d.nodes| && d.nodes[i].id == id;
      assert ids[i] == id;
    }
    cyclic := SearchCycle(GraphOf(d), ids, adjacency);
  }

  lemma FinishedAcyclic(g: Graph<string>, depth: map<string, nat>)
    requires Closed(g) && g.nodes <= depth.Keys
    requires forall a, b | (a, b) in g.edges && a in depth :: b in depth && depth[b] < depth[a]
    requires forall x | x in depth :: depth[x] < |depth|
    ensures !HasCycle(g)
  {
    RankedAcyclic(g, map x | x in depth :: |depth| - depth[x]);
  }

  // ----- the whole validator

  /** Reports exactly the faults the definition has. */
  method ValidateDefinition(d: Definition) returns (valid: bool, faults: seq<Fault>)
    ensures forall f :: f in faults <==> Faulty(d, f)
    ensures valid <==> faults == []
  {
    var nodeFaults, index := CheckNodes(d);
    var edgeFaults, adjacency, incoming, degree := CheckEdges(d, index);
    var degreeFaults := CheckDegrees(d, index, incoming, degree);
    AdjacencyFollows(d, adjacency);
    var reachFaults := CheckReachability(d, index, adjacency);
    var cyclic := FindCycle(d, adjacency);
    var cycleFaults := if cyclic then [InGraph(CycleDetected)] else [];
    faults := nodeFaults + edgeFaults + degreeFaults + reachFaults + cycleFaults;
    valid := faults == [];
  }

  // ----- exactness

  predicate KeysDistinct(d: Definition) {
    forall i, j | 0 <= i < j < |d.edges| :: PairKey(d.edges[i]) != PairKey(d.edges[j])
  }

  ghost predicate FaultFree(d: Definition) {
    forall f :: !Faulty(d, f)
  }

  lemma FaultFreeNodes(d: Definition)
    requires FaultFree(d)
    ensures NodesSound(d)
  {
    forall i: nat | i < |d.nodes|
      ensures d.nodes[i].id != "" && !d.nodes[i].kind.Unsupported? && !d.nodes[i].config.Absent?
      ensures Decoded(d.nodes[i].kind, d.nodes[i].config)
      ensures forall j | 0 <= j < i :: d.nodes[j].id != d.nodes[i].id
    {
      assert !Faulty(d, AtNode(i, IdRequired)) && !Faulty(d, AtNode(i, UnsupportedType));
      assert !Faulty(d, AtNode(i, ConfigMissing)) && !Faulty(d, AtNode(i, InvalidConfig));
      assert !Faulty(d, AtNode(i, DuplicateId));
    }
    assert !Faulty(d, InGraph(MissingTrigger)) && !Faulty(d, InGraph(MissingAction));
  }

  lemma FaultFreeEdges(d: Definition)
    requires FaultFree(d)
    ensures EdgesSound(d) && KeysDistinct(d)
  {
    forall i: nat | i < |d.edges|
      ensures d.edges[i].id != ""
      ensures KnownId(d, d.edges[i].source) && KnownId(d, d.edges[i].target) && d.edges[i].source != d.edges[i].target
      ensures !d.edges[i].condition.NotAnObject?
      ensures NodeOf(d, d.edges[i].source).kind.Condition? ==> BranchParses(d.edges[i].condition)
      ensures forall j | 0 <= j < i :: d.edges[j].id != d.edges[i].id
      ensures forall j | 0 <= j < i :: PairKey(d.edges[j]) != PairKey(d.edges[i])
    {
      assert !Faulty(d, AtEdge(i, EdgeIdRequired)) && !Faulty(d, AtEdge(i, DuplicateEdgeId));
      assert !Faulty(d, AtEdge(i, UnknownSource)) && !Faulty(d, AtEdge(i, UnknownTarget));
      assert !Faulty(d, AtEdge(i, SelfLoop)) && !Faulty(d, AtEdge(i, DuplicatePair));
      assert !Faulty(d, AtEdge(i, ConditionShape)) && !Faulty(d, AtEdge(i, InvalidBranch));
    }
  }

  /** With distinct ids, a node is the one its id names. */
  lemma UniqueNode(d: Definition, i: nat)
    requires NodesSound(d) && i < |d.nodes|
    ensures HasNode(d, d.nodes[i].id) && NodeOf(d, d.nodes[i].id) == d.nodes[i]
    ensures FirstWithId(d, i)
  {
    var k := FirstIndex(d.nodes, d.nodes[i].id);
    assert d.nodes[k].id == d.nodes[i].id;
  }

  lemma EdgeResolved(d: Definition, e: Edge)
    requires EdgesSound(d) && e in d.edges
    ensures Resolved(d, e)
  {
    var i :| 0 <= i < |d.edges| && d.edges[i] == e;
  }

  lemma FaultFreeTriggers(d: Definition, e: Edge)
    requires FaultFree(d) && NodesSound(d) && EdgesSound(d) && e in d.edges
    ensures !EntersTrigger(d, e)
  {
    EdgeResolved(d, e);
    var k := FirstIndex(d.nodes, e.target);
    UniqueNode(d, k);
    assert !Faulty(d, AtNode(k, TriggerHasIncoming));
  }

  lemma FaultFreeConnected(d: Definition, n: Node)
    requires FaultFree(d) && NodesSound(d) && EdgesSound(d) && n in d.nodes
    ensures Connected(d, n)
    ensures Reachable(d, n)
  {
    var i :| 0 <= i < |d.nodes| && d.nodes[i] == n;
    UniqueNode(d, i);
    assert !Faulty(d, AtNode(i, Orphan)) && !Faulty(d, AtNode(i, Unreachable));
    if !n.kind.Trigger? {
      var k: nat :| k < |d.nodes| && d.nodes[k].kind.Trigger? && FirstWithId(d, k)
                    && Reaches(GraphOf(d), d.nodes[k].id, n.id);
      assert d.nodes[k] in d.nodes;
    }
  }

  lemma FaultFreeShape(d: Definition)
    requires FaultFree(d) && NodesSound(d) && EdgesSound(d)
    ensures ShapeSound(d)
  {
    forall e | e in d.edges
      ensures !EntersTrigger(d, e)
    {
      FaultFreeTriggers(d, e);
    }
    forall n | n in d.nodes
      ensures Connected(d, n)
      ensures Reachable(d, n)
    {
      FaultFreeConnected(d, n);
    }
    assert !Faulty(d, InGraph(CycleDetected));
  }

  lemma SoundTriggerEntry(d: Definition, i: nat)
    requires Sound(d) && i < |d.nodes|
    ensures !NodeFaulty(d, i, TriggerHasIncoming)
  {
    UniqueNode(d, i);
    if NodeFaulty(d, i, TriggerHasIncoming) {
      var e :| e in d.edges && Resolved(d, e) && e.target == d.nodes[i].id;
      assert EntersTrigger(d, e);
    }
  }

  lemma SoundConnected(d: Definition, i: nat)
    requires Sound(d) && i < |d.nodes|
    ensures !NodeFaulty(d, i, Orphan)
  {
    var n := d.nodes[i];
    assert n in d.nodes && Connected(d, n);
    var e :| e in d.edges && (e.source == n.id || e.target == n.id);
    EdgeResolved(d, e);
    TouchedNotOrphan(d, i, e);
  }

  lemma TouchedNotOrphan(d: Definition, i: nat, e: Edge)
    requires i < |d.nodes| && e in d.edges && Resolved(d, e) && (e.source == d.nodes[i].id || e.target == d.nodes[i].id)
    ensures !NodeFaulty(d, i, Orphan)
  {
  }

  lemma SoundReached(d: Definition, i: nat)
    requires Sound(d) && i < |d.nodes|
    ensures !NodeFaulty(d, i, Unreachable)
  {
    var n := d.nodes[i];
    assert n in d.nodes && Reachable(d, n);
    if !n.kind.Trigger? {
      var t :| t in d.nodes && t.kind.Trigger? && Reaches(GraphOf(d), t.id, n.id);
      var k: nat :| k < |d.nodes| && d.nodes[k] == t;
      UniqueNode(d, k);
      assert ReachedFromFirstTrigger(d, n.id);
    }
  }

  lemma SoundNodeFaultFree(d: Definition, i: nat, f: NodeFault)
    requires Sound(d)
    ensures !NodeFaulty(d, i, f)
  {
    if i < |d.nodes| {
      if f.TriggerHasIncoming? {
        SoundTriggerEntry(d, i);
      } else if f.Orphan? {
        SoundConnected(d, i);
      } else if f.Unreachable? {
        SoundReached(d, i);
      } else if f.DuplicateId? {
        UniqueNode(d, i);
      }
    }
  }

  lemma SoundEdgeFaultFree(d: Definition, i: nat, f: EdgeFault)
    requires EdgesSound(d) && KeysDistinct(d)
    ensures !EdgeFaulty(d, i, f)
  {
  }

  lemma SoundGraphFaultFree(d: Definition, f: GraphFault)
    requires Sound(d)
    ensures !GraphFaulty(d, f)
  {
    var t :| 0 <= t < |d.nodes| && d.nodes[t].kind.Trigger?;
    var a :| 0 <= a < |d.nodes| && Action(d.nodes[a].kind);
    assert d.nodes[t] in d.nodes && d.nodes[a] in d.nodes;
  }

  lemma SoundFaultFree(d: Definition)
    requires Sound(d) && KeysDistinct(d)
    ensures FaultFree(d)
  {
    forall f
      ensures !Faulty(d, f)
    {
      match f
      case AtNode(i, nf) => SoundNodeFaultFree(d, i, nf);
      case AtEdge(i, ef) => SoundEdgeFaultFree(d, i, ef);
      case InGraph(gf) => SoundGraphFaultFree(d, gf);
    }
  }

  /** The validator accepts a definition exactly when it is sound and no two of
      its edges share a pair key. */
  lemma AcceptedIffSound(d: Definition)
    ensures FaultFree(d) <==> Sound(d) && KeysDistinct(d)
  {
    if FaultFree(d) {
      FaultFreeNodes(d);
      FaultFreeEdges(d);
      FaultFreeShape(d);
    }
    if Sound(d) && KeysDistinct(d) {
      SoundFaultFree(d);
    }
  }

  // ----- documents: either array may be absent

  datatype Document = Document(nodes: Option<seq<Node>>, edges: Option<seq<Edge>>)

  datatype DocumentFault = NodesAbsent | EdgesAbsent | Inside(fault: Fault)

  /** An absent array reads as an empty one. */
  function DefinitionOf(doc: Document): Definition {
    Definition(if doc.nodes.Some? then doc.nodes.value else [], if doc.edges.Some? then doc.edges.value else [])
  }

  ghost predicate DocumentFaulty(doc: Document, f: DocumentFault) {
    match f
    case NodesAbsent => doc.nodes.None?
    case EdgesAbsent => doc.edges.None?
    case Inside(g) => Faulty(DefinitionOf(doc), g)
  }

  /** Reports exactly the faults of a document; it is accepted if and only if its
      definition is sound and its edge keys are distinct. */
  method ValidateWorkflowDefinition(doc: Document) returns (valid: bool, faults: seq<DocumentFault>)
    ensures forall f :: f in faults <==> DocumentFaulty(doc, f)
    ensures valid <==> faults == []
    ensures valid <==> Sound(DefinitionOf(doc)) && KeysDistinct(DefinitionOf(doc))
  {
    faults := if doc.nodes.None? then [NodesAbsent] else [];
    if doc.edges.None? {
      faults := faults + [EdgesAbsent];
    }
    var ok, inside := ValidateDefinition(DefinitionOf(doc));
    var lifted := LiftFaults(inside);
    faults := faults + lifted;
    valid := faults == [];
    DocumentAccepted(doc, inside);
  }

  method LiftFaults(inside: seq<Fault>) returns (faults: seq<DocumentFault>)
    ensures forall f :: f in faults <==> f.Inside? && f.fault in inside
    ensures faults == [] <==> inside == []
  {
    faults := [];
    for k := 0 to |inside|
      invariant |faults| == k && forall f :: f in faults <==> f.Inside? && f.fault in inside[..k]
    {
      assert inside[..k + 1] == inside[..k] + [inside[k]];
      faults := faults + [Inside(inside[k])];
    }
    assert inside[..|inside|] == inside;
  }

  lemma DocumentAccepted(doc: Document, inside: seq<Fault>)
    requires forall f :: f in inside <==> Faulty(DefinitionOf(doc), f)
    ensures doc.nodes.Some? && doc.edges.Some? && inside == []
            <==> Sound(DefinitionOf(doc)) && KeysDistinct(DefinitionOf(doc))
  {
    ValidMeansFaultFree(DefinitionOf(doc), inside);
    AcceptedIffSound(DefinitionOf(doc));
    if Sound(DefinitionOf(doc)) {
      SoundIsPresent(doc);
    }
  }

  lemma ValidMeansFaultFree(d: Definition, faults: seq<Fault>)
    requires forall f :: f in faults <==> Faulty(d, f)
    ensures faults == [] <==> FaultFree(d)
  {
    assert faults != [] ==> faults[0] in faults;
  }

  /** A sound definition comes from a document with both arrays. */
  lemma SoundIsPresent(doc: Document)
    requires Sound(DefinitionOf(doc))
    ensures doc.nodes.Some? && doc.edges.Some?
  {
    var d := DefinitionOf(doc);
    var i :| 0 <= i < |d.nodes| && d.nodes[i].kind.Trigger?;
    assert Connected(d, d.nodes[i]);
  }

  predicate NulFree(s: string) {
    forall k | 0 <= k < |s| :: s[k] != 0 as char
  }

  lemma PairKeyInjective(a: Edge, b: Edge)
    requires NulFree(a.source) && NulFree(b.source)
    ensures PairKey(a) == PairKey(b) <==> a.source == b.source && a.target == b.target
  {
    if PairKey(a) == PairKey(b) {
      var i, j := |a.source|, |b.source|;
      assert PairKey(a)[i] == 0 as char && PairKey(b)[j] == 0 as char;
      assert PairKey(b)[..j] == b.source && PairKey(a)[..i] == a.source;
      assert a.source == PairKey(a)[..i] && b.source == PairKey(b)[..j];
      assert a.target == PairKey(a)[i + 1..] && b.target == PairKey(b)[j + 1..];
    }
  }

  /** Without NUL bytes in node ids the validator is exact. */
  lemma ExactWithoutNul(d: Definition)
    requires forall e | e in d.edges :: NulFree(e.source)
    ensures FaultFree(d) <==> Sound(d)
  {
    forall i, j | 0 <= i < j < |d.edges|
      ensures PairKey(d.edges[i]) == PairKey(d.edges[j]) <==>
                d.edges[i].source == d.edges[j].source && d.edges[i].target == d.edges[j].target
    {
      PairKeyInjective(d.edges[i], d.edges[j]);
    }
    AcceptedIffSound(d);
  }

  /** Two edges whose pairs differ but whose keys coincide when `left` and `right` hold a NUL. */
  predicate Colliding(d: Definition, left: string, right: string) {
    && |left| == 3 && |right| == 3 && left[0] == 'b' && right[0] == 'a'
    && d.nodes == [Node("a", Trigger, Opaque), Node(right, Trigger, Opaque),
                   Node(left, Delay, DelayConfig(0)), Node("c", Delay, DelayConfig(0))]
    && d.edges == [Edge("1", "a", left, Unlabelled), Edge("2", right, "c", Unlabelled)]
  }

  /** With NUL bytes it can turn a sound workflow away. */
  lemma NulCollision() returns (d: Definition)
    ensures Sound(d) && !FaultFree(d)
  {
    var nul := [0 as char];
    var left, right := "b" + nul + "c", "a" + nul + "b";
    d := Definition(
      [Node("a", Trigger, Opaque), Node(right, Trigger, Opaque),
       Node(left, Delay, DelayConfig(0)), Node("c", Delay, DelayConfig(0))],
      [Edge("1", "a", left, Unlabelled), Edge("2", right, "c", Unlabelled)]);
    assert "a" + nul + left == right + nul + "c";
    assert PairKey(d.edges[0]) == PairKey(d.edges[1]);
    assert Faulty(d, AtEdge(1, DuplicatePair));
    CollidingNodes(d, left, right);
    assert "1"[0] != "2"[0];
    assert EdgesSound(d);
    CollidingConnected(d, left, right);
    CollidingReachable(d, left, right);
  }

  lemma CollidingNodes(d: Definition, left: string, right: string)
    requires Colliding(d, left, right)
    ensures NodesSound(d)
    ensures KnownId(d, "a") && KnownId(d, right) && NodeOf(d, "a") == d.nodes[0] && NodeOf(d, right) == d.nodes[1]
    ensures KnownId(d, left) && KnownId(d, "c") && NodeOf(d, left) == d.nodes[2] && NodeOf(d, "c") == d.nodes[3]
  {
    assert d.nodes[0].kind.Trigger? && Action(d.nodes[2].kind);
    assert "a"[0] != "c"[0];
    assert NodesSound(d);
    UniqueNode(d, 0);
    UniqueNode(d, 1);
    UniqueNode(d, 2);
    UniqueNode(d, 3);
  }

  lemma CollidingConnected(d: Definition, left: string, right: string)
    requires Colliding(d, left, right)
    ensures forall n | n in d.nodes :: Connected(d, n)
    ensures forall e | e in d.edges :: !EntersTrigger(d, e)
  {
    CollidingNodes(d, left, right);
    var e0, e1 := d.edges[0], d.edges[1];
    assert e0 in d.edges && e1 in d.edges;
  }

  lemma CollidingReachable(d: Definition, left: string, right: string)
    requires Colliding(d, left, right)
    ensures forall n | n in d.nodes :: Reachable(d, n)
    ensures !HasCycle(GraphOf(d))
  {
    var g := GraphOf(d);
    CollidingGraph(d, left, right);
    assert d.nodes[0] in d.nodes && d.nodes[1] in d.nodes;
    assert Joins(g, ["a", left], "a", left) && Joins(g, [right, "c"], right, "c");
    ReachesSelf(g, "a");
    ReachesSelf(g, right);
    RankedAcyclic(g, map["a" := 0, right := 0, left := 1, "c" := 1]);
  }

  lemma CollidingGraph(d: Definition, left: string, right: string)
    requires Colliding(d, left, right)
    ensures GraphOf(d) == Graph({"a", right, left, "c"}, {("a", left), (right, "c")})
  {
    var g := GraphOf(d);
    assert d.edges[0] in d.edges && d.edges[1] in d.edges;
    assert d.nodes[0] in d.nodes && d.nodes[1] in d.nodes && d.nodes[2] in d.nodes && d.nodes[3] in d.nodes;
    assert g.nodes == Ids(d) == {"a", right, left, "c"};
    assert g.edges == {("a", left), (right, "c")};
  }
}
