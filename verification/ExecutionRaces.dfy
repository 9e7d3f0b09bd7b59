/** Two runs from a fresh execution in which a reconciler recovers a claim that its
    holder is still about to write: a node runs that was to be skipped, and an execution
    fails without a failed node. */
module ExecutionRaces {
  import opened Common
  import opened Graphs
  import opened Workflow
  import opened Validation
  import opened ExecutionStore
  import opened ExecutionSteps
  import opened ExecutionRuns
  import opened ExecutionMeaning
  import opened ExecutionConfluence

  // ----- stretches of a run

  /** No step of the call leaves the set. */
  ghost predicate StepsClosed(p: Plan, r: iset<World>, id: nat) {
    forall v, d {:trigger Next(p, v, Step(id, d))} | v in r :: Next(p, v, Step(id, d)) in r
  }

  predicate Idle(s: NodeStatus) {
    !s.Queued? && !s.Running?
  }

  /** A mirroring call passes over rows that are not in flight. */
  lemma {:induction false} PassIdle(p: Plan, r: iset<World>, w: World, id: nat, iteration: nat, idle: seq<Item>, rest: seq<Item>)
    requires w in r && StepsClosed(p, r, id) && id in w.calls && w.calls[id] == Mirror(iteration, idle + rest, false)
    requires forall item | item in idle :: Idle(item.row.status)
    ensures w.(calls := w.calls[id := Mirror(iteration, rest, false)]) in r
    decreases |idle|
  {
    if idle == [] {
      assert idle + rest == rest;
      assert w.(calls := w.calls[id := Mirror(iteration, rest, false)]) == w;
    } else {
      assert idle[0] in idle && (idle + rest)[0] == idle[0] && (idle + rest)[1..] == idle[1..] + rest;
      var v := w.(calls := w.calls[id := Mirror(iteration, idle[1..] + rest, false)]);
      assert Next(p, w, Step(id, Refused)) == v;
      PassIdle(p, r, v, id, iteration, idle[1..], rest);
      assert v.(calls := v.calls[id := Mirror(iteration, rest, false)]) == w.(calls := w.calls[id := Mirror(iteration, rest, false)]);
    }
  }

  /** With nothing in flight and nothing failed, a call that loads the rows comes to
      schedule them. */
  lemma ComeToSchedule(p: Plan, r: iset<World>, w: World, id: nat, iteration: nat)
    requires w in r && StepsClosed(p, r, id) && id in w.calls && w.calls[id] == Load(iteration) && iteration <= |p.def.nodes| + 1
    requires forall n | n in w.store.rows :: Idle(w.store.rows[n].status) && !w.store.rows[n].status.Failed?
    ensures w.(calls := w.calls[id := Schedule(iteration, w.store.rows, 0)]) in r
  {
    var listed := Listed(p.listing, w.store.rows);
    var w1 := w.(calls := w.calls[id := Mirror(iteration, listed, false)]);
    assert Next(p, w, Step(id, Refused)) == w1;
    ListedIdle(p.listing, w.store.rows);
    assert listed + [] == listed;
    PassIdle(p, r, w1, id, iteration, listed, []);
    var w2 := w1.(calls := w1.calls[id := Mirror(iteration, [], false)]);
    var w3 := w2.(calls := w2.calls[id := Reload(iteration)]);
    assert Next(p, w2, Step(id, Refused)) == w3;
    assert Next(p, w3, Step(id, Refused)) == w.(calls := w.calls[id := Schedule(iteration, w.store.rows, 0)]);
  }

  lemma {:induction false} ListedIdle(listing: seq<string>, rows: map<string, Row>)
    requires forall n | n in rows :: Idle(rows[n].status)
    ensures forall item | item in Listed(listing, rows) :: Idle(item.row.status)
  {
    if listing != [] {
      ListedIdle(listing[1..], rows);
    }
  }

  /** A scheduling call passes over nodes that are not ready. */
  lemma {:induction false} PassUnready(p: Plan, r: iset<World>, w: World, id: nat, iteration: nat, snapshot: map<string, Row>,
                                       from: nat, to: nat)
    requires w in r && StepsClosed(p, r, id) && id in w.calls && w.calls[id] == Schedule(iteration, snapshot, from)
    requires from <= to <= |p.def.nodes| && forall i | from <= i < to :: Judged(p, snapshot, p.def.nodes[i].id).NotReady?
    ensures w.(calls := w.calls[id := Schedule(iteration, snapshot, to)]) in r
    decreases |p.def.nodes| - from
  {
    if from == to {
      assert w.(calls := w.calls[id := Schedule(iteration, snapshot, to)]) == w;
    } else {
      var v := w.(calls := w.calls[id := Schedule(iteration, snapshot, from + 1)]);
      assert Next(p, w, Step(id, Refused)) == v;
      PassUnready(p, r, v, id, iteration, snapshot, from + 1, to);
      assert v.(calls := v.calls[id := Schedule(iteration, snapshot, to)]) == w.(calls := w.calls[id := Schedule(iteration, snapshot, to)]);
    }
  }

  /** The first ready node is claimed. */
  lemma ClaimFirst(p: Plan, r: iset<World>, w: World, id: nat, iteration: nat, k: nat)
    requires w in r && StepsClosed(p, r, id) && id in w.calls && w.calls[id] == Load(iteration) && iteration <= |p.def.nodes| + 1
    requires forall n | n in w.store.rows :: Idle(w.store.rows[n].status) && !w.store.rows[n].status.Failed?
    requires k < |p.def.nodes| && CanClaim(w.store, p.def.nodes[k].id)
    requires forall i | 0 <= i < k :: Judged(p, w.store.rows, p.def.nodes[i].id).NotReady?
    requires var ready := Judged(p, w.store.rows, p.def.nodes[k].id); ready.Runnable? || ready.Skippable?
    ensures var node := p.def.nodes[k].id;
            var claimed := Item(node, ClaimedRow(w.store.rows[node], w.now));
            w.(store := Claim(w.store, node, w.now),
                            calls := w.calls[id := if Judged(p, w.store.rows, node).Runnable?
                                                   then Execute(claimed, ToLoop(iteration))
                                                   else SkipWrite(iteration, claimed)]) in r
  {
    ComeToSchedule(p, r, w, id, iteration);
    var w1 := w.(calls := w.calls[id := Schedule(iteration, w.store.rows, 0)]);
    PassUnready(p, r, w1, id, iteration, w.store.rows, 0, k);
    var w2 := w1.(calls := w1.calls[id := Schedule(iteration, w.store.rows, k)]);
    var node := p.def.nodes[k].id;
    var claimed := Item(node, ClaimedRow(w.store.rows[node], w.now));
    assert Next(p, w2, Step(id, Refused)) ==
           w.(store := Claim(w.store, node, w.now),
              calls := w.calls[id := if Judged(p, w.store.rows, node).Runnable?
                                     then Execute(claimed, ToLoop(iteration)) else SkipWrite(iteration, claimed)]);
  }

  /** The row of a trigger or condition executed at once. */
  function SettledRow(p: Plan, node: string, row: Row, now: int): Row {
    ClaimedRow(row, now).(status := Succeeded, output := Computed(p, node))
  }

  /** The first ready node, if it needs no outside work, is settled. */
  lemma SettleFirst(p: Plan, r: iset<World>, w: World, id: nat, iteration: nat, k: nat)
    requires w in r && StepsClosed(p, r, id) && id in w.calls && w.calls[id] == Load(iteration) && iteration <= |p.def.nodes| + 1
    requires forall n | n in w.store.rows :: Idle(w.store.rows[n].status) && !w.store.rows[n].status.Failed?
    requires k < |p.def.nodes| && CanClaim(w.store, p.def.nodes[k].id)
    requires forall i | 0 <= i < k :: Judged(p, w.store.rows, p.def.nodes[i].id).NotReady?
    requires Judged(p, w.store.rows, p.def.nodes[k].id).Runnable?
    requires var node := p.def.nodes[k].id; var kind := KindOf(p.def, node);
             (kind.Trigger? || kind.Condition?) && Decoded(kind, ConfigOf(p.def, node))
    ensures var node := p.def.nodes[k].id;
            w.(store := w.store.(rows := w.store.rows[node := SettledRow(p, node, w.store.rows[node], w.now)]),
                            calls := w.calls[id := Load(iteration + 1)]) in r
  {
    ClaimFirst(p, r, w, id, iteration, k);
    var node := p.def.nodes[k].id;
    var claimed := Item(node, ClaimedRow(w.store.rows[node], w.now));
    var w1 := w.(store := Claim(w.store, node, w.now), calls := w.calls[id := Execute(claimed, ToLoop(iteration))]);
    var w2 := w1.(calls := w1.calls[id := Write(Item(node, SettledRow(p, node, w.store.rows[node], w.now)), ToLoop(iteration))]);
    assert Next(p, w1, Step(id, Refused)) == w2;
    assert Next(p, w2, Step(id, Refused)) ==
           w.(store := w.store.(rows := w.store.rows[node := SettledRow(p, node, w.store.rows[node], w.now)]),
              calls := w.calls[id := Load(iteration + 1)]);
  }

  /** Any call begins by coming to load the rows of an execution marked running. */
  lemma BeginCall(p: Plan, r: iset<World>, w: World, id: nat)
    requires w in r && ClosedUnder(p, r) && id !in w.calls && !Finished(w.store.status)
    ensures w.(store := w.store.(status := ExecRunning), calls := w.calls[id := Load(0)]) in r
  {
    var w1 := w.(calls := w.calls[id := Fetch]);
    assert Next(p, w, Begin(id)) == w1;
    var target := w.(store := w.store.(status := ExecRunning), calls := w.calls[id := Load(0)]);
    if w.store.status.ExecPending? {
      var w2 := w1.(calls := w1.calls[id := Start]);
      assert Next(p, w1, Step(id, Refused)) == w2;
      assert Next(p, w2, Step(id, Refused)) == target;
    } else {
      assert Next(p, w1, Step(id, Refused)) == target;
    }
  }

  /** With all rows settled, a call that loads them completes the execution. */
  lemma CompleteAll(p: Plan, r: iset<World>, w: World, id: nat, iteration: nat)
    requires w in r && StepsClosed(p, r, id) && id in w.calls && w.calls[id] == Load(iteration) && iteration <= |p.def.nodes| + 1
    requires CompleteRows(p.def, w.store.rows) && !Finished(w.store.status)
    ensures w.(store := FinalizeSucceeded(w.store, OutputsOf(w.store.rows)), calls := w.calls[id := Done]) in r
  {
    ComeToSchedule(p, r, w, id, iteration);
    var w1 := w.(calls := w.calls[id := Schedule(iteration, w.store.rows, 0)]);
    PassUnready(p, r, w1, id, iteration, w.store.rows, 0, |p.def.nodes|);
    var w2 := w1.(calls := w1.calls[id := Schedule(iteration, w.store.rows, |p.def.nodes|)]);
    Finalize(p, r, w2, id, iteration, w.store.rows);
    assert w2.calls[id := Done] == w.calls[id := Done];
  }

  lemma Finalize(p: Plan, r: iset<World>, w: World, id: nat, iteration: nat, rows: map<string, Row>)
    requires w in r && StepsClosed(p, r, id) && id in w.calls && w.calls[id] == Schedule(iteration, rows, |p.def.nodes|)
    requires CompleteRows(p.def, rows) && !Finished(w.store.status)
    ensures w.(store := FinalizeSucceeded(w.store, OutputsOf(rows)), calls := w.calls[id := Done]) in r
  {
    var w1 := w.(calls := w.calls[id := Complete(OutputsOf(rows))]);
    assert Next(p, w, Step(id, Refused)) == w1;
    assert w1.calls[id := Done] == w.calls[id := Done];
    assert Next(p, w1, Step(id, Refused)) == w.(store := FinalizeSucceeded(w.store, OutputsOf(rows)), calls := w.calls[id := Done]);
  }

  /** A reconciler that lists an overdue bare claim last comes to execute it. */
  lemma RecoverLast(p: Plan, r: iset<World>, w: World, id: nat, idle: seq<Item>, item: Item)
    requires w in r && StepsClosed(p, r, id) && id in w.calls && w.calls[id] == Load(0)
    requires Listed(p.listing, w.store.rows) == idle + [item]
    requires (forall i | i in idle :: Idle(i.row.status)) && BareClaim(item.row) && w.now - item.row.updatedAt >= LEASE
    ensures w.(calls := w.calls[id := Execute(item, ToMirror(0, []))]) in r
  {
    var w1 := w.(calls := w.calls[id := Mirror(0, idle + [item], false)]);
    assert Next(p, w, Step(id, Refused)) == w1;
    PassIdle(p, r, w1, id, 0, idle, [item]);
    var w2 := w1.(calls := w1.calls[id := Mirror(0, [item], false)]);
    assert Stale(p, w2.now, item) && [item][1..] == [];
    assert Next(p, w2, Step(id, Refused)) == w.(calls := w.calls[id := Execute(item, ToMirror(0, []))]);
  }

  // ----- a late skip: the node runs although no edge into it is active

  /** A trigger, a condition that answers false, and a condition behind its true branch,
      listed in this order. */
  ghost predicate Chain(p: Plan, t: string, c: string, x: string) {
    && t != c && t != x && c != x && t != "" && c != "" && x != ""
    && p.listing == [t, c, x]
    && |p.def.nodes| == 3 && |p.def.edges| == 2
    && p.def.nodes[0] == Node(t, Trigger, Opaque)
    && (p.def.nodes[1].id == c && p.def.nodes[1].kind.Condition? && Decoded(Condition, p.def.nodes[1].config))
    && (p.def.nodes[2].id == x && p.def.nodes[2].kind.Condition? && Decoded(Condition, p.def.nodes[2].config))
    && (p.def.edges[0].source == t && p.def.edges[0].target == c && p.def.edges[0].condition.Unlabelled?)
    && (p.def.edges[1].source == c && p.def.edges[1].target == x && p.def.edges[1].condition == Branch(true))
    && p.def.edges[0].id != "" && p.def.edges[1].id != "" && p.def.edges[0].id != p.def.edges[1].id
    && !Evaluate(p.def.nodes[1].config, p.input)
  }

  /** What the run needs to know of it. */
  ghost predicate Links(p: Plan, t: string, c: string, x: string) {
    && t != c && t != x && c != x && p.listing == [t, c, x]
    && |p.def.nodes| == 3 && p.def.nodes[0].id == t && p.def.nodes[1].id == c && p.def.nodes[2].id == x
    && Ids(p.def) == {t, c, x}
    && KindOf(p.def, t).Trigger? && KindOf(p.def, c).Condition? && KindOf(p.def, x).Condition?
    && Decoded(Condition, ConfigOf(p.def, c)) && Decoded(Condition, ConfigOf(p.def, x)) && !Answer(p, c)
    && |p.def.edges| == 2
    && Incoming(p.def.edges, c) == [p.def.edges[0]] && Incoming(p.def.edges, x) == [p.def.edges[1]]
    && p.def.edges[0].source == t && p.def.edges[1].source == c && p.def.edges[1].condition == Branch(true)
  }

  lemma ChainLinks(p: Plan, t: string, c: string, x: string)
    requires Chain(p, t, c, x)
    ensures Links(p, t, c, x)
  {
    var n, e := p.def.nodes, p.def.edges;
    assert n[0] in n && n[1] in n && n[2] in n;
    assert Ids(p.def) == {t, c, x};
    assert Find(n[1..], c) == Some(n[1]);
    assert n[1..][1..][0] == n[2] && Find(n[1..][1..], x) == Some(n[2]) && Find(n[1..], x) == Some(n[2]);
    assert e[1..] == [e[1]] && e[1..][1..] == [];
    assert Incoming(e[1..], c) == [] && Incoming(e[1..], x) == [e[1]];
  }

  lemma ChainNodes(p: Plan, t: string, c: string, x: string)
    requires Chain(p, t, c, x)
    ensures NodesSound(p.def)
  {
    assert p.def.nodes[0].kind.Trigger? && Action(p.def.nodes[1].kind);
  }

  lemma ChainEdges(p: Plan, t: string, c: string, x: string)
    requires Chain(p, t, c, x)
    ensures EdgesSound(p.def)
  {
    ChainKnown(p, t, c, x);
  }

  lemma ChainTriggers(p: Plan, t: string, c: string, x: string)
    requires Chain(p, t, c, x)
    ensures forall e | e in p.def.edges :: !EntersTrigger(p.def, e)
  {
    ChainKnown(p, t, c, x);
  }

  lemma ChainKnown(p: Plan, t: string, c: string, x: string)
    requires Chain(p, t, c, x)
    ensures KnownId(p.def, t) && KnownId(p.def, c) && KnownId(p.def, x)
    ensures NodeOf(p.def, t).kind.Trigger? && NodeOf(p.def, c).kind.Condition? && NodeOf(p.def, x).kind.Condition?
  {
    ChainNodes(p, t, c, x);
    UniqueNode(p.def, 0);
    UniqueNode(p.def, 1);
    UniqueNode(p.def, 2);
  }

  lemma ChainConnected(p: Plan, t: string, c: string, x: string)
    requires Chain(p, t, c, x)
    ensures forall n | n in p.def.nodes :: Connected(p.def, n)
  {
    assert p.def.edges[0] in p.def.edges && p.def.edges[1] in p.def.edges;
  }

  lemma ChainReachable(p: Plan, t: string, c: string, x: string)
    requires Chain(p, t, c, x)
    ensures !HasCycle(GraphOf(p.def)) && forall n | n in p.def.nodes :: Validation.Reachable(p.def, n)
  {
    var g, n, e := GraphOf(p.def), p.def.nodes, p.def.edges;
    assert n[0] in n && n[1] in n && n[2] in n && e[0] in e && e[1] in e;
    assert g.nodes == {t, c, x};
    assert g.edges == {(t, c), (c, x)};
    assert Joins(g, [t, c], t, c) && Joins(g, [t, c, x], t, x);
    assert n[0].kind.Trigger? && Reaches(g, n[0].id, c) && Reaches(g, n[0].id, x);
    RankedAcyclic(g, map[t := 0, c := 1, x := 2]);
  }

  lemma ChainSound(p: Plan, t: string, c: string, x: string)
    requires Chain(p, t, c, x)
    ensures Sound(p.def)
  {
    ChainNodes(p, t, c, x);
    ChainEdges(p, t, c, x);
    ChainTriggers(p, t, c, x);
    ChainConnected(p, t, c, x);
    ChainReachable(p, t, c, x);
  }

  lemma ReadyNext(p: Plan, rows: map<string, Row>, t: string, c: string, x: string)
    requires Links(p, t, c, x) && t in rows && rows[t].status.Succeeded?
    ensures ReadinessOf(p.def, rows, c).Runnable?
  {
    var e := p.def.edges[0];
    assert EdgeVerdict(p.def, rows, e).Active? && [e][1..] == [];
    assert Judge(p.def, rows, [], true).Runnable? && Judge(p.def, rows, [e], false).Runnable?;
  }

  lemma SkipLast(p: Plan, rows: map<string, Row>, t: string, c: string, x: string)
    requires Links(p, t, c, x)
    requires c in rows && rows[c].status.Succeeded? && rows[c].output == Some(ConditionResult(false))
    ensures ReadinessOf(p.def, rows, x).Skippable? && !NodeRuns(p, rows, x)
  {
    var e := p.def.edges[1];
    assert EdgeVerdict(p.def, rows, e).Inactive? && [e][1..] == [];
    assert Judge(p.def, rows, [], false).Skippable? && Judge(p.def, rows, [e], false).Skippable?;
    assert forall f | f in p.def.edges && f.target == x :: f in Incoming(p.def.edges, x);
  }

  function DoneRow(output: Option<Output>, at: int): Row {
    Row(Succeeded, 1, output, None, None, None, at)
  }

  const CLAIMED := Row(Running, 1, None, None, None, None, 0)

  ghost function ChainRows(p: Plan, t: string, c: string, x: string, last: Row): map<string, Row> {
    map[t := DoneRow(Computed(p, t), 0), c := DoneRow(Computed(p, c), 0), x := last]
  }

  /** The first call settles the trigger and the condition. */
  lemma TwoSettled(p: Plan, r: iset<World>, t: string, c: string, x: string)
    requires Links(p, t, c, x) && ClosedUnder(p, r) && Initial(p, 0) in r
    ensures World(0, Store(ExecRunning, ChainRows(p, t, c, x, FreshRow(0)), None), map[], map[], map[0 := Load(2)]) in r
  {
    OneSettled(p, r, t, c, x);
    var rows := map[t := DoneRow(Computed(p, t), 0), c := FreshRow(0), x := FreshRow(0)];
    var w := World(0, Store(ExecRunning, rows, None), map[], map[], map[0 := Load(1)]);
    ReadyNext(p, rows, t, c, x);
    SettleFirst(p, r, w, 0, 1, 1);
    var row := SettledRow(p, c, FreshRow(0), 0);
    assert rows[c := row] == ChainRows(p, t, c, x, FreshRow(0));
    assert w.(store := w.store.(rows := rows[c := row]), calls := w.calls[0 := Load(2)]) ==
           World(0, Store(ExecRunning, ChainRows(p, t, c, x, FreshRow(0)), None), map[], map[], map[0 := Load(2)]);
  }

  lemma OneSettled(p: Plan, r: iset<World>, t: string, c: string, x: string)
    requires Links(p, t, c, x) && ClosedUnder(p, r) && Initial(p, 0) in r
    ensures World(0, Store(ExecRunning, map[t := DoneRow(Computed(p, t), 0), c := FreshRow(0), x := FreshRow(0)], None),
                        map[], map[], map[0 := Load(1)]) in r
  {
    var w0 := Initial(p, 0);
    BeginCall(p, r, w0, 0);
    var rows := map[t := FreshRow(0), c := FreshRow(0), x := FreshRow(0)];
    assert w0.store.rows == rows;
    var w := World(0, Store(ExecRunning, rows, None), map[], map[], map[0 := Load(0)]);
    assert w0.(store := w0.store.(status := ExecRunning), calls := w0.calls[0 := Load(0)]) == w;
    SettleFirst(p, r, w, 0, 0, 0);
    var row := SettledRow(p, t, FreshRow(0), 0);
    assert w.(store := w.store.(rows := rows[t := row]), calls := w.calls[0 := Load(1)]) ==
           World(0, Store(ExecRunning, map[t := DoneRow(Computed(p, t), 0), c := FreshRow(0), x := FreshRow(0)], None),
                 map[], map[], map[0 := Load(1)]);
  }

  /** It claims the last node for skipping, and does not come to write it before another
      call looks, a lease later. */
  lemma HeldTooLong(p: Plan, r: iset<World>, t: string, c: string, x: string)
    requires Links(p, t, c, x) && ClosedUnder(p, r) && Initial(p, 0) in r
    ensures World(LEASE, Store(ExecRunning, ChainRows(p, t, c, x, CLAIMED), None), map[], map[],
                        map[0 := SkipWrite(2, Item(x, CLAIMED)), 1 := Load(0)]) in r
  {
    TwoSettled(p, r, t, c, x);
    var w := World(0, Store(ExecRunning, ChainRows(p, t, c, x, FreshRow(0)), None), map[], map[], map[0 := Load(2)]);
    SkipLast(p, w.store.rows, t, c, x);
    ClaimFirst(p, r, w, 0, 2, 2);
    var held := SkipWrite(2, Item(x, CLAIMED));
    var w1 := World(0, Store(ExecRunning, ChainRows(p, t, c, x, CLAIMED), None), map[], map[], map[0 := held]);
    assert w.store.rows[x := CLAIMED] == ChainRows(p, t, c, x, CLAIMED);
    assert w.(store := Claim(w.store, x, 0), calls := w.calls[0 := held]) == w1;
    var w2 := w1.(now := LEASE);
    assert Next(p, w1, Tick(LEASE)) == w2;
    BeginCall(p, r, w2, 1);
    assert w2.(store := w2.store.(status := ExecRunning), calls := w2.calls[1 := Load(0)]) ==
           World(LEASE, Store(ExecRunning, ChainRows(p, t, c, x, CLAIMED), None), map[], map[], map[0 := held, 1 := Load(0)]);
  }

  lemma ChainListed(p: Plan, t: string, c: string, x: string, rows: map<string, Row>)
    requires Links(p, t, c, x) && t in rows && c in rows && x in rows
    ensures Listed(p.listing, rows) == [Item(t, rows[t]), Item(c, rows[c])] + [Item(x, rows[x])]
  {
    var l := p.listing;
    assert l[1..] == [c, x] && l[1..][1..] == [x] && l[1..][1..][1..] == [];
    assert Listed(l[1..][1..], rows) == [Item(x, rows[x])];
  }

  /** The second call recovers the claim and executes the node. */
  lemma Recovered(p: Plan, r: iset<World>, t: string, c: string, x: string)
    requires Links(p, t, c, x) && ClosedUnder(p, r) && Initial(p, 0) in r
    ensures World(LEASE, Store(ExecRunning, ChainRows(p, t, c, x, DoneRow(Computed(p, x), LEASE)), None), map[], map[],
                        map[0 := SkipWrite(2, Item(x, CLAIMED)), 1 := Load(1)]) in r
  {
    HeldTooLong(p, r, t, c, x);
    var held := SkipWrite(2, Item(x, CLAIMED));
    var rows := ChainRows(p, t, c, x, CLAIMED);
    var w := World(LEASE, Store(ExecRunning, rows, None), map[], map[], map[0 := held, 1 := Load(0)]);
    ChainListed(p, t, c, x, rows);
    RecoverLast(p, r, w, 1, [Item(t, rows[t]), Item(c, rows[c])], Item(x, CLAIMED));
    var w1 := w.(calls := w.calls[1 := Execute(Item(x, CLAIMED), ToMirror(0, []))]);
    var done := DoneRow(Computed(p, x), LEASE);
    ExecutedNow(p, r, w1, 1, Item(x, CLAIMED), done);
    assert rows[x := done] == ChainRows(p, t, c, x, done);
    assert w1.(store := w1.store.(rows := rows[x := done]), calls := w1.calls[1 := Load(1)]) ==
           World(LEASE, Store(ExecRunning, ChainRows(p, t, c, x, done), None), map[], map[], map[0 := held, 1 := Load(1)]);
  }

  lemma ExecutedNow(p: Plan, r: iset<World>, w: World, id: nat, item: Item, done: Row)
    requires w in r && StepsClosed(p, r, id) && id in w.calls && w.calls[id] == Execute(item, ToMirror(0, []))
    requires KindOf(p.def, item.node).Condition? && Decoded(Condition, ConfigOf(p.def, item.node))
    requires CanSwap(w.store, item.node, Running)
    requires done == item.row.(status := Succeeded, output := Computed(p, item.node), updatedAt := w.now)
    ensures w.(store := w.store.(rows := w.store.rows[item.node := done]), calls := w.calls[id := Load(1)]) in r
  {
    var w1 := w.(calls := w.calls[id := Write(Item(item.node, done), ToMirror(0, []))]);
    assert Next(p, w, Step(id, Refused)) == w1;
    var w2 := w.(store := w.store.(rows := w.store.rows[item.node := done]), calls := w.calls[id := Mirror(0, [], true)]);
    assert Next(p, w1, Step(id, Refused)) == w2;
    assert Next(p, w2, Step(id, Refused)) == w2.(calls := w2.calls[id := Load(1)]);
    assert w2.(calls := w2.calls[id := Load(1)]) ==
           w.(store := w.store.(rows := w.store.rows[item.node := done]), calls := w.calls[id := Load(1)]);
  }

  ghost predicate EndsWith(p: Plan, es: seq<Event>, rows: map<string, Row>) {
    var s := Run(p, Initial(p, 0), es).store; s.status.ExecSucceeded? && s.rows == rows
  }

  lemma RecoveredCompletes(p: Plan, t: string, c: string, x: string) returns (es: seq<Event>)
    requires Links(p, t, c, x)
    ensures EndsWith(p, es, ChainRows(p, t, c, x, DoneRow(Computed(p, x), LEASE)))
  {
    var r := ReachableFrom(p, Initial(p, 0));
    ReachableClosed(p, Initial(p, 0));
    Recovered(p, r, t, c, x);
    var rows := ChainRows(p, t, c, x, DoneRow(Computed(p, x), LEASE));
    var w := World(LEASE, Store(ExecRunning, rows, None), map[], map[],
                   map[0 := SkipWrite(2, Item(x, CLAIMED)), 1 := Load(1)]);
    assert rows.Keys == {t, c, x} && |rows| == |rows.Keys| == 3;
    CompleteAll(p, r, w, 1, 1);
    var v := w.(store := FinalizeSucceeded(w.store, OutputsOf(rows)), calls := w.calls[1 := Done]);
    es :| Run(p, Initial(p, 0), es) == v;
  }

  lemma ChainMeaning(p: Plan, t: string, c: string, x: string)
    requires Chain(p, t, c, x) && Sound(p.def)
    ensures x in Meaning(p) && Meaning(p)[x].Skipped?
  {
    ChainLinks(p, t, c, x);
    MeaningEquation(p, x);
    forall e | e in p.def.edges && e.target == x
      ensures e.source in Meaning(p) && !Selects(p, e)
    {
      assert e == p.def.edges[1];
    }
  }

  /** For every such definition there is a run from a fresh execution that succeeds and
      does not end in the meaning: the skip claim outlived its lease and was recovered. */
  lemma LateSkipChangesMeaning(p: Plan, t: string, c: string, x: string) returns (es: seq<Event>)
    requires Chain(p, t, c, x)
    ensures Sound(p.def) && Run(p, Initial(p, 0), es).store.status.ExecSucceeded?
    ensures Statuses(Run(p, Initial(p, 0), es).store) != Meaning(p)
    ensures Stolen(p, Initial(p, 0), es, x)
  {
    ChainSound(p, t, c, x);
    ChainLinks(p, t, c, x);
    ChainMeaning(p, t, c, x);
    es := RecoveredCompletes(p, t, c, x);
    var rows := Run(p, Initial(p, 0), es).store.rows;
    assert Statuses(Run(p, Initial(p, 0), es).store)[x].Succeeded?;
    SkipLast(p, rows, t, c, x);
    if !Stolen(p, Initial(p, 0), es, x) {
      UnstolenMeans(p, 0, es, x);
    }
  }

  /** One such definition: the branch asks for a field the input does not have. */
  lemma SomeChain() returns (p: Plan)
    ensures Chain(p, "a", "b", "c")
  {
    var config := ConditionConfig("input.x", "exists", None);
    p := Plan(Definition([Node("a", Trigger, Opaque), Node("b", Condition, config), Node("c", Condition, config)],
                         [Edge("e", "a", "b", Unlabelled), Edge("f", "b", "c", Branch(true))]),
              ["a", "b", "c"], None);
    assert config.field[..|FIELD_PREFIX|] == FIELD_PREFIX && config.field[|FIELD_PREFIX|..] == "x";
    assert "x"[1..] == "" && Parts("") == [""] && ["x"[0]] + Parts("")[0] == "x";
    assert Parts("x") == ["x"];
    assert "a"[0] != "b"[0] && "a"[0] != "c"[0] && "b"[0] != "c"[0] && "e"[0] != "f"[0];
  }
}
