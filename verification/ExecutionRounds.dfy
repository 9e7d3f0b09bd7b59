/** How far one undisturbed call gets when many tasks are ready at once. */
module ExecutionRounds {
  import opened Common
  import opened Graphs
  import opened Workflow
  import opened ExecutionStore
  import opened ExecutionSteps
  import opened ExecutionLinks
  import opened ExecutionRuns
  import opened ExecutionRaces
  import opened ExecutionCalls

  /** A trigger with tasks behind it, and nothing else. */
  ghost predicate Fan(p: Plan, t: string, ks: seq<string>) {
    && NoDuplicates(ks) && t !in ks && (forall n :: n in p.listing <==> n == t || n in ks)
    && |p.def.nodes| == |ks| + 1 && p.def.nodes[0].id == t && KindOf(p.def, t).Trigger?
    && (forall i {:trigger Branch(p, t, ks, i)} | 0 <= i < |ks| :: Branch(p, t, ks, i))
  }

  ghost predicate Branch(p: Plan, t: string, ks: seq<string>, i: int)
    requires 0 <= i < |ks| && |p.def.nodes| == |ks| + 1
  {
    var k := ks[i];
    && p.def.nodes[i + 1].id == k && KindOf(p.def, k).Task? && Decoded(Task, ConfigOf(p.def, k))
    && |Incoming(p.def.edges, k)| == 1 && Incoming(p.def.edges, k)[0].source == t
  }

  function Linked(x: nat, attempt: nat): Row {
    Row(Queued, attempt, None, Some(x), None, None, 0)
  }

  /** The row of a dispatched task. */
  predicate IsLinked(tasks: map<nat, TaskRecord>, k: string, row: Row) {
    row.task.Some? && row.attempt <= 1 && row == Linked(row.task.value, row.attempt)
    && row.task.value in tasks && tasks[row.task.value].node == k
  }

  predicate RowFitsFan(w: World, k: string) {
    k in w.store.rows && (w.store.rows[k] == FreshRow(0) || IsLinked(w.tasks, k, w.store.rows[k]))
  }

  ghost predicate TaskFits(ks: seq<string>, rows: map<string, Row>, x: nat, record: TaskRecord, busy: Option<string>) {
    && record.state == TaskState(TaskPending, 0, false) && record.node in ks && record.node in rows
    && (rows[record.node].task == Some(x) || busy == Some(record.node))
  }

  /** The trigger is settled; a task node is fresh or dispatched, but for the one that is
      being executed. */
  ghost predicate FanFits(p: Plan, t: string, ks: seq<string>, w: World, busy: Option<string>) {
    var rows := w.store.rows;
    && w.now == 0 && w.store.status.ExecRunning? && rows.Keys == {t} + (set k | k in ks)
    && rows[t] == DoneRow(Computed(p, t), 0)
    && (forall k | k in ks && Some(k) != busy :: RowFitsFan(w, k))
    && (busy.Some? ==> busy.value in ks && rows[busy.value] == CLAIMED)
    && (forall x | x in w.tasks :: TaskFits(ks, rows, x, w.tasks[x], busy))
  }

  /** The call is about to start its second round, and no task is dispatched. */
  ghost predicate FanAt(p: Plan, t: string, ks: seq<string>, w: World, id: nat) {
    && FanFits(p, t, ks, w, None) && id in w.calls && w.calls[id] == Load(1)
    && w.tasks == map[] && w.deliveries == map[]
  }

  // ----- at most so many

  /** How many of m ready tasks one call dispatches: the first at once, and one in every
      second round after, as long as rounds are left. */
  function Started(m: nat): nat {
    if (m + 1) / 2 + 1 < m then (m + 1) / 2 + 1 else m
  }

  ghost predicate TasksSuit(p: Plan, tasks: map<nat, TaskRecord>) {
    forall x | x in tasks :: KindOf(p.def, tasks[x].node).Task?
  }

  lemma StepSuits(p: Plan, w: World, id: nat, dispatch: Dispatch)
    requires TasksSuit(p, w.tasks)
    ensures TasksSuit(p, Next(p, w, Step(id, dispatch)).tasks)
  {
    if id in w.calls && w.calls[id].Execute? {
      var c := w.calls[id];
      var f := ExecuteStep(p, w, c.item, c.back, dispatch);
      if !KindOf(p.def, c.item.node).Task? {
        assert f.tasks == w.tasks;
      }
    }
  }

  lemma {:induction false} RunSuits(p: Plan, w: World, es: seq<Event>, id: nat)
    requires TasksSuit(p, w.tasks) && Alone(es, id)
    ensures TasksSuit(p, Run(p, w, es).tasks)
  {
    if es != [] {
      RunSuits(p, w, es[..|es| - 1], id);
      StepSuits(p, Run(p, w, es[..|es| - 1]), id, es[|es| - 1].dispatch);
    }
  }

  lemma {:induction false} FewTasks(tasks: map<nat, TaskRecord>, v: set<string>)
    requires OneTaskPerNode(tasks) && forall x | x in tasks :: tasks[x].node in v
    ensures |tasks| <= |v|
    decreases |tasks|
  {
    if tasks != map[] {
      var x :| x in tasks;
      FewTasks(tasks - {x}, v - {tasks[x].node});
      assert |tasks - {x}| == |tasks| - 1 by {
        assert (tasks - {x}).Keys == tasks.Keys - {x};
      }
    }
  }

  lemma {:induction false} ManyTasks(tasks: map<nat, TaskRecord>, v: set<string>)
    requires forall k | k in v :: TaskExists(tasks, k)
    ensures |v| <= |tasks|
    decreases |v|
  {
    if v != {} {
      var k :| k in v;
      var x :| x in tasks && tasks[x].node == k;
      var rest := tasks - {x};
      forall n | n in v - {k}
        ensures TaskExists(rest, n)
      {
        var y :| y in tasks && tasks[y].node == n;
        assert y in rest;
      }
      ManyTasks(rest, v - {k});
      assert rest.Keys == tasks.Keys - {x};
    }
  }

  lemma {:induction false} SetOf(ks: seq<string>)
    requires NoDuplicates(ks)
    ensures |set k | k in ks| == |ks|
  {
    if ks != [] {
      var n := |ks| - 1;
      SetOf(ks[..n]);
      assert (set k | k in ks) == (set k | k in ks[..n]) + {ks[n]};
    }
  }

  lemma {:induction false} FindAmong(nodes: seq<Node>, n: string)
    requires Find(nodes, n).Some?
    ensures exists i :: 0 <= i < |nodes| && nodes[i].id == n
  {
    if nodes[0].id != n {
      FindAmong(nodes[1..], n);
      var i :| 0 <= i < |nodes[1..]| && nodes[1..][i].id == n;
      assert nodes[i + 1].id == n;
    }
  }

  lemma FanTask(p: Plan, t: string, ks: seq<string>, n: string)
    requires Fan(p, t, ks) && KindOf(p.def, n).Task?
    ensures n in ks
  {
    FindAmong(p.def.nodes, n);
    var i :| 0 <= i < |p.def.nodes| && p.def.nodes[i].id == n;
    if i > 0 {
      assert Branch(p, t, ks, i - 1);
    }
  }

  lemma FanFew(p: Plan, t: string, ks: seq<string>, tasks: map<nat, TaskRecord>)
    requires Fan(p, t, ks) && OneTaskPerNode(tasks) && TasksSuit(p, tasks)
    ensures |tasks| <= |ks|
  {
    forall x | x in tasks
      ensures tasks[x].node in (set k | k in ks)
    {
      FanTask(p, t, ks, tasks[x].node);
    }
    FewTasks(tasks, set k | k in ks);
    SetOf(ks);
  }

  lemma FanCalm(p: Plan, t: string, ks: seq<string>, w: World)
    requires Fan(p, t, ks) && FanFits(p, t, ks, w, None)
    ensures NoneOverdue(p, w) && forall n | n in w.store.rows :: n in p.listing
  {
    forall n | n in w.store.rows
      ensures !w.store.rows[n].status.Running? && n in p.listing
    {
      assert n == t || n in ks;
    }
  }

  lemma FanBound(p: Plan, t: string, ks: seq<string>, w: World, es: seq<Event>, id: nat)
    requires Fan(p, t, ks) && Invariant(p, w) && FanAt(p, t, ks, w, id) && Alone(es, id)
    ensures |Run(p, w, es).tasks| <= Started(|ks|)
  {
    FanCalm(p, t, ks, w);
    UndisturbedCallBound(p, w, es, id, 1);
    assert Work(w) == 0;
    RunSuits(p, w, es, id);
    RunInvariant(p, w, es);
    FanFew(p, t, ks, Run(p, w, es).tasks);
  }

  // ----- and no fewer

  /** Every dispatch of the run is accepted. */
  ghost predicate Accepting(p: Plan, w: World, es: seq<Event>) {
    es == [] ||
    (Accepting(p, w, es[..|es| - 1]) && es[|es| - 1].Step? && Fresh(Run(p, w, es[..|es| - 1]), es[|es| - 1].dispatch))
  }

  /** A listed copy differs from the stored row at most in the attempts. */
  predicate Copied(w: World, item: Item) {
    item.node in w.store.rows && item.row == w.store.rows[item.node].(attempt := item.row.attempt)
  }

  ghost predicate NewsIn(p: Plan, w: World, todo: seq<Item>, but: Option<string>) {
    forall n | IsNews(p, w, n) && Some(n) != but :: Item(n, w.store.rows[n]) in todo
  }

  /** A call none of whose rounds was idle. */
  ghost predicate Exact(p: Plan, t: string, ks: seq<string>, w: World, call: Call) {
    var d := |w.tasks|;
    match call
    case Load(it) => FanFits(p, t, ks, w, None) && 2 * d >= it - 1 + Grace(p, w)
    case Mirror(it, todo, changed) =>
      && FanFits(p, t, ks, w, None) && it <= |ks| + 2 && 2 * d >= it - 1 + (if changed then 1 else Grace(p, w))
      && (forall item | item in todo :: Copied(w, item)) && NewsIn(p, w, todo, None)
      && (!changed ==> forall item | item in todo :: Current(w, item))
    case MirrorWrite(it, item, expected, todo, changed) =>
      && FanFits(p, t, ks, w, None) && it <= |ks| + 2 && 2 * d >= it
      && Copied(w, item) && item.row.attempt == 0 && item.row.status.Queued? && expected.Queued?
      && (forall other | other in todo :: Copied(w, other)) && NewsIn(p, w, todo, Some(item.node))
    case Reload(it) => FanFits(p, t, ks, w, None) && it <= |ks| + 2 && 2 * d >= it - 1
    case Schedule(it, snapshot, index) =>
      && FanFits(p, t, ks, w, None) && it <= |ks| + 2 && 2 * d >= it - 1 && snapshot == w.store.rows
      && (forall i | 0 <= i < index && i < |p.def.nodes| && p.def.nodes[i].id in snapshot :: !snapshot[p.def.nodes[i].id].status.Pending?)
    case Execute(item, ToLoop(it)) =>
      && FanFits(p, t, ks, w, Some(item.node)) && it <= |ks| + 2 && 2 * d >= it - 1
      && item.row == CLAIMED && !TaskExists(w.tasks, item.node)
    case Write(item, ToLoop(it)) =>
      && FanFits(p, t, ks, w, Some(item.node)) && it <= |ks| + 2 && 2 * d >= it + 1
      && IsLinked(w.tasks, item.node, item.row) && item.row.attempt == 1
      && (forall x | x in w.tasks && w.tasks[x].node == item.node :: item.row.task == Some(x))
    case Done => 2 * d >= |ks| + 2 || d >= |ks|
    case _ => false
  }

  ghost predicate ExactAt(p: Plan, t: string, ks: seq<string>, w: World, id: nat) {
    id in w.calls && Exact(p, t, ks, w, w.calls[id])
  }

  lemma QuietExact(p: Plan, t: string, ks: seq<string>, w: World, id: nat, call: Call)
    requires Exact(p, t, ks, w, call)
    ensures ExactAt(p, t, ks, w.(calls := w.calls[id := call]), id)
  {
    var v := w.(calls := w.calls[id := call]);
    assert forall n :: IsNews(p, v, n) <==> IsNews(p, w, n);
    assert News(p, v) <==> News(p, w);
    assert forall busy :: FanFits(p, t, ks, v, busy) <==> FanFits(p, t, ks, w, busy);
    assert forall item :: (Copied(v, item) <==> Copied(w, item)) && (Current(v, item) <==> Current(w, item));
  }

  /** A step that only moves the call on. */
  lemma MovesOn(p: Plan, t: string, ks: seq<string>, w: World, id: nat, dispatch: Dispatch, next: Call)
    requires id in w.calls && StepCall(p, w, w.calls[id], dispatch) == Quiet(w, next) && Exact(p, t, ks, w, next)
    ensures ExactAt(p, t, ks, Next(p, w, Step(id, dispatch)), id)
  {
    QuietExact(p, t, ks, w, id, next);
    assert Next(p, w, Step(id, dispatch)) == w.(calls := w.calls[id := next]);
  }

  lemma LoadExact(p: Plan, t: string, ks: seq<string>, w: World, id: nat, dispatch: Dispatch)
    requires Fan(p, t, ks) && ExactAt(p, t, ks, w, id) && w.calls[id].Load?
    ensures ExactAt(p, t, ks, Next(p, w, Step(id, dispatch)), id)
  {
    ListedRows(p.listing, w.store.rows);
    FanCalm(p, t, ks, w);
    MovesOn(p, t, ks, w, id, dispatch, StepCall(p, w, w.calls[id], dispatch).call);
  }

  /** Mirroring has nothing to say about a row that is not queued, and of a queued one
      only that the task made no attempt. */
  lemma FanMirror(p: Plan, t: string, ks: seq<string>, w: World, item: Item)
    requires FanFits(p, t, ks, w, None) && Copied(w, item)
    ensures !item.row.status.Running?
    ensures item.row.status.Queued? ==>
              Mirrored(p, w.now, w.tasks, w.deliveries, item) == if item.row.attempt == 0 then None else Some(item.row.(attempt := 0))
  {
    assert item.node == t || item.node in ks;
    if item.row.status.Queued? {
      assert IsLinked(w.tasks, item.node, w.store.rows[item.node]);
      var x := item.row.task.value;
      assert TaskFits(ks, w.store.rows, x, w.tasks[x], None);
    }
  }

  lemma MirrorOnExact(p: Plan, t: string, ks: seq<string>, w: World, it: nat, todo: seq<Item>, changed: bool)
    requires Exact(p, t, ks, w, Mirror(it, todo, changed))
    ensures Exact(p, t, ks, w, MirrorStep(p, w, it, todo, changed).call)
  {
    if todo == [] {
      assert !News(p, w);
    } else {
      var item := todo[0];
      assert item in todo && forall other | other in todo :: other == item || other in todo[1..];
      FanMirror(p, t, ks, w, item);
      if item.row.status.Queued? && item.row.attempt != 0 {
        assert !changed ==> IsNews(p, w, item.node);
      }
    }
  }

  lemma MirrorExact(p: Plan, t: string, ks: seq<string>, w: World, id: nat, dispatch: Dispatch)
    requires ExactAt(p, t, ks, w, id) && w.calls[id].Mirror?
    ensures ExactAt(p, t, ks, Next(p, w, Step(id, dispatch)), id)
  {
    var c := w.calls[id];
    MirrorOnExact(p, t, ks, w, c.iteration, c.todo, c.changed);
    MirrorQuiet(p, w, id, dispatch);
    MovesOn(p, t, ks, w, id, dispatch, MirrorStep(p, w, c.iteration, c.todo, c.changed).call);
  }

  /** Storing the row of a dispatched task. */
  lemma StoreLinked(p: Plan, t: string, ks: seq<string>, w: World, k: string, row: Row, busy: Option<string>, calls: map<nat, Call>)
    requires FanFits(p, t, ks, w, busy) && t !in ks && k in ks && (busy == None || busy == Some(k)) && IsLinked(w.tasks, k, row)
    requires forall x | x in w.tasks && w.tasks[x].node == k :: row.task == Some(x)
    ensures FanFits(p, t, ks, w.(store := w.store.(rows := w.store.rows[k := row]), calls := calls), None)
  {
    var v := w.(store := w.store.(rows := w.store.rows[k := row]), calls := calls);
    forall x | x in v.tasks
      ensures TaskFits(ks, v.store.rows, x, v.tasks[x], None)
    {
      assert TaskFits(ks, w.store.rows, x, w.tasks[x], busy);
    }
    forall n | n in ks
      ensures RowFitsFan(v, n)
    {
      assert n != k ==> RowFitsFan(w, n);
    }
  }

  /** A queued row is that of a task node, linked to its only task. */
  lemma FanQueued(p: Plan, t: string, ks: seq<string>, w: World, k: string)
    requires FanFits(p, t, ks, w, None) && k in w.store.rows && w.store.rows[k].status.Queued?
    ensures k in ks && IsLinked(w.tasks, k, w.store.rows[k])
    ensures forall x | x in w.tasks && w.tasks[x].node == k :: w.store.rows[k].task == Some(x)
  {
    assert k == t || RowFitsFan(w, k);
    forall x | x in w.tasks && w.tasks[x].node == k
      ensures w.store.rows[k].task == Some(x)
    {
      assert TaskFits(ks, w.store.rows, x, w.tasks[x], None);
    }
  }

  /** Once a row is stored as mirrored, it is no news. */
  lemma SeenIsOld(p: Plan, t: string, ks: seq<string>, w: World, v: World, n: string)
    requires FanFits(p, t, ks, v, None) && n in v.store.rows && v.store.rows[n].attempt == 0
    requires v.now == w.now && v.tasks == w.tasks && v.deliveries == w.deliveries
    requires n in w.store.rows && v.store.rows == w.store.rows[n := v.store.rows[n]]
    ensures !IsNews(p, v, n) && forall m | m != n :: IsNews(p, v, m) ==> IsNews(p, w, m) && v.store.rows[m] == w.store.rows[m]
  {
    assert Copied(v, Item(n, v.store.rows[n]));
    FanMirror(p, t, ks, v, Item(n, v.store.rows[n]));
  }

  lemma MirrorWriteExact(p: Plan, t: string, ks: seq<string>, w: World, id: nat, dispatch: Dispatch)
    requires t !in ks && ExactAt(p, t, ks, w, id) && w.calls[id].MirrorWrite?
    ensures ExactAt(p, t, ks, Next(p, w, Step(id, dispatch)), id)
  {
    var c, v := w.calls[id], Next(p, w, Step(id, dispatch));
    var n := c.item.node;
    FanQueued(p, t, ks, w, n);
    StoreLinked(p, t, ks, w, n, c.item.row, None, v.calls);
    assert v == w.(store := w.store.(rows := w.store.rows[n := c.item.row]), calls := w.calls[id := Mirror(c.iteration, c.todo, true)]);
    SeenIsOld(p, t, ks, w, v, n);
    assert forall item | Copied(w, item) :: Copied(v, item);
  }

  lemma FanNoFailure(p: Plan, t: string, ks: seq<string>, w: World)
    requires FanFits(p, t, ks, w, None)
    ensures !AnyFailed(w.store.rows)
  {
    forall n | n in w.store.rows
      ensures !w.store.rows[n].status.Failed?
    {
      assert n == t || n in ks;
    }
  }

  /** A pending task node is ready. */
  lemma FanReady(p: Plan, t: string, ks: seq<string>, rows: map<string, Row>, i: nat)
    requires Fan(p, t, ks) && i < |ks| && t in rows && rows[t].status.Succeeded? && ks[i] in rows && rows[ks[i]].status.Pending?
    ensures Judged(p, rows, ks[i]).Runnable?
  {
    assert Branch(p, t, ks, i);
    var e := Incoming(p.def.edges, ks[i])[0];
    assert Incoming(p.def.edges, ks[i]) == [e] && [e][1..] == [];
    assert EdgeVerdict(p.def, rows, e).Active?;
    assert Judge(p.def, rows, [], true).Runnable? && Judge(p.def, rows, [e], false).Runnable?;
  }

  lemma FanStarted(p: Plan, t: string, ks: seq<string>, w: World, i: nat)
    requires Fan(p, t, ks) && FanFits(p, t, ks, w, None) && i < |ks|
    requires forall i | 0 <= i < |p.def.nodes| && p.def.nodes[i].id in w.store.rows :: !w.store.rows[p.def.nodes[i].id].status.Pending?
    ensures TaskExists(w.tasks, ks[i]) && ks[i] in w.store.rows && w.store.rows[ks[i]].status.Queued?
  {
    assert Branch(p, t, ks, i) && p.def.nodes[i + 1].id == ks[i];
    assert RowFitsFan(w, ks[i]);
  }

  /** A call that finds no node pending has started them all. */
  lemma AllStarted(p: Plan, t: string, ks: seq<string>, w: World)
    requires Fan(p, t, ks) && FanFits(p, t, ks, w, None)
    requires forall i | 0 <= i < |p.def.nodes| && p.def.nodes[i].id in w.store.rows :: !w.store.rows[p.def.nodes[i].id].status.Pending?
    ensures |w.tasks| >= |ks| && (ks != [] ==> !AllSettled(w.store.rows))
  {
    forall k | k in (set k | k in ks)
      ensures TaskExists(w.tasks, k)
    {
      var i :| 0 <= i < |ks| && ks[i] == k;
      FanStarted(p, t, ks, w, i);
    }
    ManyTasks(w.tasks, set k | k in ks);
    SetOf(ks);
    if ks != [] {
      FanStarted(p, t, ks, w, 0);
    }
  }

  lemma ClaimExact(p: Plan, t: string, ks: seq<string>, w: World, id: nat, it: nat, k: string)
    requires FanFits(p, t, ks, w, None) && k in ks && t !in ks && CanClaim(w.store, k) && it <= |ks| + 2 && 2 * |w.tasks| >= it - 1
    ensures var v := w.(store := Claim(w.store, k, 0), calls := w.calls[id := Execute(Item(k, ClaimedRow(w.store.rows[k], 0)), ToLoop(it))]);
            ExactAt(p, t, ks, v, id)
  {
    var v := w.(store := Claim(w.store, k, 0), calls := w.calls[id := Execute(Item(k, ClaimedRow(w.store.rows[k], 0)), ToLoop(it))]);
    assert RowFitsFan(w, k);
    assert w.store.rows[k] == FreshRow(0) && v.store.rows == w.store.rows[k := CLAIMED];
    forall x | x in v.tasks
      ensures TaskFits(ks, v.store.rows, x, v.tasks[x], Some(k)) && v.tasks[x].node != k
    {
      assert TaskFits(ks, w.store.rows, x, w.tasks[x], None);
    }
    forall n | n in ks && n != k
      ensures RowFitsFan(v, n)
    {
      assert RowFitsFan(w, n);
    }
    assert FanFits(p, t, ks, v, Some(k));
  }

  /** The scheduling call stops behind the last node. */
  lemma EndExact(p: Plan, t: string, ks: seq<string>, w: World, it: nat, index: nat)
    requires Fan(p, t, ks) && ks != [] && Exact(p, t, ks, w, Schedule(it, w.store.rows, index)) && index >= |p.def.nodes|
    ensures ScheduleStep(p, w, it, w.store.rows, index) == Quiet(w, Done) && Exact(p, t, ks, w, Done)
  {
    AllStarted(p, t, ks, w);
  }

  /** It passes the trigger and dispatched tasks. */
  lemma PassExact(p: Plan, t: string, ks: seq<string>, w: World, it: nat, index: nat)
    requires Exact(p, t, ks, w, Schedule(it, w.store.rows, index)) && index < |p.def.nodes|
    requires p.def.nodes[index].id in w.store.rows && !w.store.rows[p.def.nodes[index].id].status.Pending?
    ensures ScheduleStep(p, w, it, w.store.rows, index) == Quiet(w, Schedule(it, w.store.rows, index + 1))
    ensures Exact(p, t, ks, w, Schedule(it, w.store.rows, index + 1))
  {
  }

  lemma FanNode(p: Plan, t: string, ks: seq<string>, w: World, index: nat)
    requires Fan(p, t, ks) && FanFits(p, t, ks, w, None) && index < |p.def.nodes|
    ensures var node := p.def.nodes[index].id;
            && node in w.store.rows
            && (w.store.rows[node].status.Pending? ==> node in ks && Judged(p, w.store.rows, node).Runnable?)
  {
    if index > 0 {
      assert Branch(p, t, ks, index - 1);
      if w.store.rows[ks[index - 1]].status.Pending? {
        FanReady(p, t, ks, w.store.rows, index - 1);
      }
    }
  }

  lemma ClaimsNext(p: Plan, w: World, id: nat, dispatch: Dispatch, it: nat, index: nat)
    requires id in w.calls && w.calls[id] == Schedule(it, w.store.rows, index) && index < |p.def.nodes|
    requires var node := p.def.nodes[index].id; CanClaim(w.store, node) && Judged(p, w.store.rows, node).Runnable?
    ensures var node := p.def.nodes[index].id;
            Next(p, w, Step(id, dispatch)) ==
              w.(store := Claim(w.store, node, w.now),
                 calls := w.calls[id := Execute(Item(node, ClaimedRow(w.store.rows[node], w.now)), ToLoop(it))])
  {
  }

  lemma ScheduleExact(p: Plan, t: string, ks: seq<string>, w: World, id: nat, dispatch: Dispatch)
    requires Fan(p, t, ks) && ks != [] && ExactAt(p, t, ks, w, id) && w.calls[id].Schedule?
    ensures ExactAt(p, t, ks, Next(p, w, Step(id, dispatch)), id)
  {
    var c := w.calls[id];
    if c.index >= |p.def.nodes| {
      EndExact(p, t, ks, w, c.iteration, c.index);
      MovesOn(p, t, ks, w, id, dispatch, Done);
    } else {
      FanNode(p, t, ks, w, c.index);
      var node := p.def.nodes[c.index].id;
      if w.store.rows[node].status.Pending? {
        ClaimExact(p, t, ks, w, id, c.iteration, node);
        ClaimsNext(p, w, id, dispatch, c.iteration, c.index);
      } else {
        PassExact(p, t, ks, w, c.iteration, c.index);
        MovesOn(p, t, ks, w, id, dispatch, Schedule(c.iteration, w.store.rows, c.index + 1));
      }
    }
  }

  lemma AddTask(p: Plan, t: string, ks: seq<string>, w: World, k: string, x: nat, calls: map<nat, Call>)
    requires FanFits(p, t, ks, w, Some(k)) && x !in w.tasks
    ensures FanFits(p, t, ks, w.(tasks := w.tasks[x := TaskRecord(k, TaskState(TaskPending, 0, false))], calls := calls), Some(k))
  {
    var v := w.(tasks := w.tasks[x := TaskRecord(k, TaskState(TaskPending, 0, false))], calls := calls);
    forall y | y in v.tasks
      ensures TaskFits(ks, v.store.rows, y, v.tasks[y], Some(k))
    {
      if y != x {
        assert TaskFits(ks, w.store.rows, y, w.tasks[y], Some(k));
      }
    }
    forall n | n in ks && n != k
      ensures RowFitsFan(v, n)
    {
      assert RowFitsFan(w, n);
    }
  }

  /** An accepted dispatch creates the task of the claimed node. */
  lemma FanDispatch(p: Plan, t: string, ks: seq<string>, w: World, k: string, back: Back, dispatch: Dispatch)
    requires Fan(p, t, ks) && k in ks && w.now == 0 && !TaskExists(w.tasks, k) && Fresh(w, dispatch)
    ensures var x := dispatch.newId;
            ExecuteStep(p, w, Item(k, CLAIMED), back, dispatch) ==
              Effect(NoUpdate, w.tasks[x := TaskRecord(k, TaskState(TaskPending, 0, false))], w.deliveries,
                     Write(Item(k, Linked(x, 1)), back))
  {
    var i :| 0 <= i < |ks| && ks[i] == k;
    assert Branch(p, t, ks, i);
  }

  lemma ExecuteExact(p: Plan, t: string, ks: seq<string>, w: World, id: nat, dispatch: Dispatch)
    requires Fan(p, t, ks) && ExactAt(p, t, ks, w, id) && w.calls[id].Execute? && Fresh(w, dispatch)
    ensures ExactAt(p, t, ks, Next(p, w, Step(id, dispatch)), id)
  {
    var c, v := w.calls[id], Next(p, w, Step(id, dispatch));
    FanDispatch(p, t, ks, w, c.item.node, c.back, dispatch);
    AddTask(p, t, ks, w, c.item.node, dispatch.newId, v.calls);
  }

  lemma WriteExact(p: Plan, t: string, ks: seq<string>, w: World, id: nat, dispatch: Dispatch)
    requires Fan(p, t, ks) && ExactAt(p, t, ks, w, id) && w.calls[id].Write?
    ensures ExactAt(p, t, ks, Next(p, w, Step(id, dispatch)), id)
  {
    var c, v := w.calls[id], Next(p, w, Step(id, dispatch));
    StoreLinked(p, t, ks, w, c.item.node, c.item.row, Some(c.item.node), v.calls);
  }

  lemma ReloadExact(p: Plan, t: string, ks: seq<string>, w: World, id: nat, dispatch: Dispatch)
    requires ExactAt(p, t, ks, w, id) && w.calls[id].Reload?
    ensures ExactAt(p, t, ks, Next(p, w, Step(id, dispatch)), id)
  {
    FanNoFailure(p, t, ks, w);
    MovesOn(p, t, ks, w, id, dispatch, Schedule(w.calls[id].iteration, w.store.rows, 0));
  }

  lemma StepExact(p: Plan, t: string, ks: seq<string>, w: World, id: nat, dispatch: Dispatch)
    requires Fan(p, t, ks) && ks != [] && ExactAt(p, t, ks, w, id) && Fresh(w, dispatch)
    ensures ExactAt(p, t, ks, Next(p, w, Step(id, dispatch)), id)
  {
    var c := w.calls[id];
    if c.Load? {
      LoadExact(p, t, ks, w, id, dispatch);
    } else if c.Mirror? {
      MirrorExact(p, t, ks, w, id, dispatch);
    } else if c.MirrorWrite? {
      MirrorWriteExact(p, t, ks, w, id, dispatch);
    } else if c.Reload? {
      ReloadExact(p, t, ks, w, id, dispatch);
    } else if c.Schedule? {
      ScheduleExact(p, t, ks, w, id, dispatch);
    } else if c.Execute? {
      ExecuteExact(p, t, ks, w, id, dispatch);
    } else if c.Write? {
      WriteExact(p, t, ks, w, id, dispatch);
    } else {
      MovesOn(p, t, ks, w, id, dispatch, Done);
    }
  }

  lemma {:induction false} RunExact(p: Plan, t: string, ks: seq<string>, w: World, es: seq<Event>, id: nat)
    requires Fan(p, t, ks) && ks != [] && FanAt(p, t, ks, w, id) && Alone(es, id) && Accepting(p, w, es)
    ensures ExactAt(p, t, ks, Run(p, w, es), id)
  {
    if es == [] {
      assert !News(p, w);
    } else {
      RunExact(p, t, ks, w, es[..|es| - 1], id);
      StepExact(p, t, ks, Run(p, w, es[..|es| - 1]), id, es[|es| - 1].dispatch);
    }
  }

  predicate Over(w: World, id: nat) {
    id in w.calls && w.calls[id].Done?
  }

  /** Every undisturbed run of the call, from the point where the trigger is settled and m
      tasks are ready: at most min(m, (m + 1) / 2 + 1) are started, whatever the
      dispatcher answers, and exactly so many when the call ends and every dispatch was
      accepted. For m > 3 that is not all of them. */
  lemma UndisturbedCallStarts(p: Plan, t: string, ks: seq<string>, w: World, es: seq<Event>, id: nat)
    requires Fan(p, t, ks) && ks != [] && Invariant(p, w) && FanAt(p, t, ks, w, id) && Alone(es, id)
    ensures |Run(p, w, es).tasks| <= Started(|ks|)
    ensures Accepting(p, w, es) && Over(Run(p, w, es), id) ==> |Run(p, w, es).tasks| == Started(|ks|)
    ensures Started(|ks|) < |ks| <==> |ks| > 3
  {
    FanBound(p, t, ks, w, es, id);
    if Accepting(p, w, es) {
      RunExact(p, t, ks, w, es, id);
    }
  }

  ghost predicate LeadsAlone(p: Plan, w: World, v: World, id: nat) {
    exists es :: Alone(es, id) && Accepting(p, w, es) && Run(p, w, es) == v
  }

  ghost function AloneFrom(p: Plan, w: World, id: nat): iset<World> {
    iset v | LeadsAlone(p, w, v, id)
  }

  lemma LeadsAloneOn(p: Plan, w: World, v: World, id: nat, d: Dispatch)
    requires LeadsAlone(p, w, v, id) && Fresh(v, d)
    ensures LeadsAlone(p, w, Next(p, v, Step(id, d)), id)
  {
    var es :| Alone(es, id) && Accepting(p, w, es) && Run(p, w, es) == v;
    var more := es + [Step(id, d)];
    RunThen(p, w, es, Step(id, d));
    assert more[..|more| - 1] == es;
    assert Alone(more, id) && Accepting(p, w, more) && Run(p, w, more) == Next(p, v, Step(id, d));
  }

  lemma AloneDrivable(p: Plan, w: World, id: nat)
    ensures w in AloneFrom(p, w, id) && Drivable(p, AloneFrom(p, w, id), id)
  {
    var none: seq<Event> := [];
    assert Alone(none, id) && Accepting(p, w, none) && Run(p, w, none) == w;
    var r := AloneFrom(p, w, id);
    forall v | v in r
      ensures CanStep(p, r, id, v)
    {
      var x := Beyond(v.tasks.Keys);
      LeadsAloneOn(p, w, v, id, Accepted(x));
      assert Next(p, v, Step(id, Accepted(x))) in r;
    }
  }

  /** There is such a run, and it ends. */
  lemma SomeCallStarts(p: Plan, t: string, ks: seq<string>, w: World, id: nat) returns (es: seq<Event>)
    requires Fan(p, t, ks) && ks != [] && Invariant(p, w) && FanAt(p, t, ks, w, id)
    ensures Alone(es, id) && Accepting(p, w, es) && Over(Run(p, w, es), id) && |Run(p, w, es).tasks| == Started(|ks|)
  {
    AloneDrivable(p, w, id);
    var v := Drive(p, AloneFrom(p, w, id), w, id);
    es :| Alone(es, id) && Accepting(p, w, es) && Run(p, w, es) == v;
    UndisturbedCallStarts(p, t, ks, w, es, id);
  }

  /** Such a point is reached from a fresh execution. */
  lemma FanBegins(p: Plan, t: string, ks: seq<string>) returns (w: World)
    requires Fan(p, t, ks) && Ids(p.def) == {t} + (set k | k in ks)
    ensures Leads(p, Initial(p, 0), w) && Invariant(p, w) && FanAt(p, t, ks, w, 0)
  {
    var w0 := Initial(p, 0);
    var r := ReachableFrom(p, w0);
    ReachableClosed(p, w0);
    BeginCall(p, r, w0, 0);
    var w1 := w0.(store := w0.store.(status := ExecRunning), calls := w0.calls[0 := Load(0)]);
    SettleFirst(p, r, w1, 0, 0, 0);
    w := w1.(store := w1.store.(rows := w1.store.rows[t := SettledRow(p, t, w1.store.rows[t], 0)]), calls := w1.calls[0 := Load(1)]);
    InitialInvariant(p, 0);
    ReachableInvariant(p, w0);
  }
}
