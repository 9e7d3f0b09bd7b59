/** A validated execution is never stuck, and what a late skip costs. */
module ExecutionProgress {
  import opened Graphs
  import opened Workflow
  import opened Validation
  import opened ExecutionStore
  import opened ExecutionSteps
  import opened ExecutionSafety
  import opened ExecutionRuns
  import opened ExecutionMeaning
  import opened ExecutionConfluence

  ghost predicate RowsFit(p: Plan, rows: map<string, Row>) {
    forall n | n in rows :: RowFits(p, n, rows[n])
  }

  // ----- readiness never errors

  lemma VerdictReadable(p: Plan, rows: map<string, Row>, e: Edge)
    requires Sound(p.def) && e in p.def.edges && RowsFit(p, rows)
    ensures !EdgeVerdict(p.def, rows, e).Unreadable?
  {
    SoundBranch(p.def, e);
  }

  lemma {:induction false} JudgeReadable(p: Plan, rows: map<string, Row>, edges: seq<Edge>, active: bool)
    requires Sound(p.def) && RowsFit(p, rows) && forall e | e in edges :: e in p.def.edges
    ensures !Judge(p.def, rows, edges, active).Broken?
    ensures (forall e | e in edges :: SourceSettled(rows, e)) ==>
              Judge(p.def, rows, edges, active).Runnable? || Judge(p.def, rows, edges, active).Skippable?
  {
    if edges != [] {
      assert edges[0] in edges;
      VerdictReadable(p, rows, edges[0]);
      JudgeReadable(p, rows, edges[1..], active || EdgeVerdict(p.def, rows, edges[0]).Active?);
    }
  }

  lemma ReadinessReadable(p: Plan, rows: map<string, Row>, n: string)
    requires Sound(p.def) && RowsFit(p, rows)
    ensures !ReadinessOf(p.def, rows, n).Broken?
  {
    JudgeReadable(p, rows, Incoming(p.def.edges, n), false);
  }

  // ----- some node can always move

  /** A node other than a trigger has an incoming edge, because a trigger reaches it. */
  lemma SoundEntry(d: Definition, n: string)
    requires Sound(d) && n in Ids(d) && !KindOf(d, n).Trigger?
    ensures Incoming(d.edges, n) != []
  {
    IdsHasNode(d, n);
    FindIs(d.nodes, n);
    var node := NodeOf(d, n);
    assert node in d.nodes && Validation.Reachable(d, node);
    var t :| t in d.nodes && t.kind.Trigger? && Reaches(GraphOf(d), t.id, n);
    var i :| 0 <= i < |d.nodes| && d.nodes[i] == t;
    UniqueNode(d, i);
    var path :| Joins(GraphOf(d), path, t.id, n);
    var k := |path| - 1;
    assert k > 0;
    assert (path[k - 1], path[k]) in GraphOf(d).edges;
    var e :| e in d.edges && e.source == path[k - 1] && e.target == n;
    assert e in Incoming(d.edges, n);
  }

  lemma {:induction false} Lowest(rank: map<string, nat>, s: set<string>) returns (n: string)
    requires s != {} && forall x | x in s :: x in rank
    ensures n in s && forall x | x in s :: rank[n] <= rank[x]
    decreases |s|
  {
    n :| n in s;
    if s != {n} {
      var m := Lowest(rank, s - {n});
      if rank[m] < rank[n] {
        n := m;
      }
    }
  }

  predicate Busy(s: NodeStatus) {
    s.Queued? || s.Running?
  }

  /** Among pending nodes only, the lowest one is decided. */
  lemma LowestPendingReady(p: Plan, rows: map<string, Row>, pending: set<string>) returns (n: string)
    requires Sound(p.def) && RowsFit(p, rows) && rows.Keys == Ids(p.def)
    requires pending == set x | x in rows && rows[x].status.Pending?
    requires pending != {}
    requires forall x | x in rows :: Settled(rows[x].status) || rows[x].status.Pending?
    ensures n in pending
    ensures ReadinessOf(p.def, rows, n).Runnable? || ReadinessOf(p.def, rows, n).Skippable?
  {
    var g := GraphOf(p.def);
    var rank := RankWithin(g, g.nodes, 0);
    forall x | x in pending
      ensures x in rank
    {
      var node :| node in p.def.nodes && node.id == x;
      var i :| 0 <= i < |p.def.nodes| && p.def.nodes[i] == node;
    }
    n := Lowest(rank, pending);
    if !KindOf(p.def, n).Trigger? {
      SoundEntry(p.def, n);
      forall e | e in Incoming(p.def.edges, n)
        ensures SourceSettled(rows, e)
      {
        EdgeResolved(p.def, e);
        IdsHasNode(p.def, e.source);
        IdsHasNode(p.def, e.target);
        assert (e.source, e.target) in g.edges;
        assert e.source !in pending;
      }
      JudgeReadable(p, rows, Incoming(p.def.edges, n), false);
    }
  }

  ghost predicate CanMove(p: Plan, rows: map<string, Row>) {
    || (exists n :: n in rows && rows[n].status.Failed?)
    || (exists n :: n in rows && Busy(rows[n].status))
    || (exists n :: n in rows && rows[n].status.Pending?
                    && (ReadinessOf(p.def, rows, n).Runnable? || ReadinessOf(p.def, rows, n).Skippable?))
    || CompleteRows(p.def, rows)
  }

  lemma {:induction false} DistinctCount(nodes: seq<Node>)
    requires forall i, j | 0 <= i < j < |nodes| :: nodes[i].id != nodes[j].id
    ensures |set n | n in nodes :: n.id| == |nodes|
  {
    if nodes != [] {
      var rest := nodes[..|nodes| - 1];
      var last := nodes[|nodes| - 1];
      DistinctCount(rest);
      assert (set n | n in nodes :: n.id) == (set n | n in rest :: n.id) + {last.id};
    }
  }

  /** A sound definition has one row per node. */
  lemma SoundCount(d: Definition)
    requires Sound(d)
    ensures |Ids(d)| == |d.nodes|
  {
    DistinctCount(d.nodes);
  }

  lemma RowsCanMove(p: Plan, rows: map<string, Row>)
    requires Sound(p.def) && RowsFit(p, rows) && rows.Keys == Ids(p.def)
    requires forall n | n in rows :: !rows[n].status.Cancelled?
    ensures CanMove(p, rows)
  {
    var pending := set x | x in rows && rows[x].status.Pending?;
    if x :| x in rows && !Settled(rows[x].status) && !rows[x].status.Pending? {
      assert rows[x].status.Failed? || Busy(rows[x].status);
    } else if pending != {} {
      var n := LowestPendingReady(p, rows, pending);
    } else {
      assert forall x | x in rows :: x !in pending;
      SoundCount(p.def);
      assert |rows| == |rows.Keys|;
    }
  }

  /** Progress: for a definition the validator accepts, in every reachable state of
      an execution that is not over, no readiness test errors, and some node has
      failed, or is in flight, or can be started or skipped, or all are settled. */
  lemma Progress(p: Plan, now: int, es: seq<Event>)
    requires Sound(p.def)
    requires !Finished(Run(p, Initial(p, now), es).store.status)
    ensures var rows := Run(p, Initial(p, now), es).store.rows;
            CanMove(p, rows) && forall n | n in rows :: !ReadinessOf(p.def, rows, n).Broken?
  {
    TerminalAgreement(p, now, es);
    InitialInvariant(p, now);
    RunInvariant(p, Initial(p, now), es);
    var rows := Run(p, Initial(p, now), es).store.rows;
    RowsCanMove(p, rows);
    forall n | n in rows
      ensures !ReadinessOf(p.def, rows, n).Broken?
    {
      ReadinessReadable(p, rows, n);
    }
  }

  /** Nor does any call ever meet a readiness error, however old its snapshot. */
  lemma NoCallBreaks(p: Plan, now: int, es: seq<Event>, id: nat, n: string)
    requires Sound(p.def)
    requires var w := Run(p, Initial(p, now), es); id in w.calls && w.calls[id].Schedule?
    ensures !Judged(p, Run(p, Initial(p, now), es).calls[id].snapshot, n).Broken?
  {
    InitialInvariant(p, now);
    RunInvariant(p, Initial(p, now), es);
    var w := Run(p, Initial(p, now), es);
    var snapshot := w.calls[id].snapshot;
    assert CallFits(p, w.store, w.calls[id]);
    forall m | m in snapshot
      ensures RowFits(p, m, snapshot[m])
    {
      assert CopyFits(p, w.store, Item(m, snapshot[m]));
    }
    ReadinessReadable(p, snapshot, n);
  }

  // ----- a skip claim past its lease

  /** A reconciler that comes to a bare claim takes it over exactly if its lease has run
      out: it cannot tell what the claim was made for. */
  lemma TakesOverIffOverdue(p: Plan, w: World, id: nat, iteration: nat, item: Item, rest: seq<Item>, changed: bool, dispatch: Dispatch)
    requires id in w.calls && w.calls[id] == Mirror(iteration, [item] + rest, changed) && BareClaim(item.row)
    ensures Next(p, w, Step(id, dispatch)) ==
              w.(calls := w.calls[id := if w.now - item.row.updatedAt >= LEASE then Execute(item, ToMirror(iteration, rest))
                                        else Mirror(iteration, rest, changed)])
  {
    assert ([item] + rest)[1..] == rest;
  }

  /** Nor does it look at the stored row: a task is dispatched exactly if the listed copy is
      overdue, even for a node that was skipped in time since. */
  lemma DispatchesIffOverdue(p: Plan, w: World, id: nat, iteration: nat, item: Item, rest: seq<Item>, changed: bool, x: nat)
    requires id in w.calls && w.calls[id] == Mirror(iteration, [item] + rest, changed) && BareClaim(item.row)
    requires KindOf(p.def, item.node).Task? && Decoded(Task, ConfigOf(p.def, item.node)) && !TaskExists(w.tasks, item.node) && x !in w.tasks
    ensures var v := Next(p, Next(p, w, Step(id, Refused)), Step(id, Accepted(x)));
            v.store == w.store && (TaskExists(v.tasks, item.node) <==> w.now - item.row.updatedAt >= LEASE)
  {
    TakesOverIffOverdue(p, w, id, iteration, item, rest, changed, Refused);
    var u := Next(p, w, Step(id, Refused));
    if w.now - item.row.updatedAt >= LEASE {
      var f := ExecuteStep(p, u, item, ToMirror(iteration, rest), Accepted(x));
      assert f.update.NoUpdate? && x in f.tasks && f.tasks[x].node == item.node;
    } else {
      assert Next(p, u, Step(id, Accepted(x))).tasks == w.tasks;
    }
  }

  /** A claim taken over is stolen if it is still held for skipping when the executed row
      is written. */
  lemma TakeoverSteals(p: Plan, w: World, id: nat, item: Item, back: Back, dispatch: Dispatch, next: Dispatch)
    requires id in w.calls && w.calls[id] == Execute(item, back) && BareClaim(item.row)
    requires item.node in w.store.rows && w.store.rows[item.node] == item.row && HeldForSkip(w, item.node)
    ensures Steals(p, Next(p, w, Step(id, dispatch)), Step(id, next), item.node)
  {
    var v := Next(p, w, Step(id, dispatch));
    var f := ExecuteStep(p, w, item, back, dispatch);
    ExecuteShows(w, item, KindOf(p.def, item.node), ConfigOf(p.def, item.node), Computed(p, item.node), back, dispatch);
    assert f.update.NoUpdate? && (f.call.Write? || f.call.FailWrite?) && f.call.item.node == item.node;
    var holder :| holder in w.calls && w.calls[holder].SkipWrite? && w.calls[holder].item == Item(item.node, w.store.rows[item.node]);
    assert v.calls[holder] == w.calls[holder];
  }

  /** A dispatched task costs a second round: the claim counted an attempt the fresh task
      has not made, so mirroring changes the row once, and then finds nothing to change. */
  lemma FreshTaskMirroredOnce(p: Plan, now: int, tasks: map<nat, TaskRecord>, deliveries: map<string, DeliveryState>, item: Item)
    requires item.row.task.Some? && item.row.status.Queued? && item.row.task.value in tasks
    requires tasks[item.row.task.value].state == TaskState(TaskPending, 0, false)
    ensures var seen := Mirrored(p, now, tasks, deliveries, item);
            && (seen.Some? <==> item.row.attempt != 0)
            && (seen.Some? ==> Mirrored(p, now, tasks, deliveries, Item(item.node, seen.value)).None?)
  {
  }
}
