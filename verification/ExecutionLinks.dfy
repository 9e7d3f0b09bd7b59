/** Each node has at most one task and one delivery, however often its claim is
    recovered, and every link anywhere points to it. */
module ExecutionLinks {
  import opened Common
  import opened Workflow
  import opened ExecutionStore
  import opened ExecutionSteps

  /** The call still holds this copy of a node row. */
  predicate Holds(call: Call, item: Item) {
    match call
    case Mirror(_, todo, _) => item in todo
    case MirrorWrite(_, it, _, todo, _) => item == it || item in todo
    case Schedule(_, snapshot, _) => item.node in snapshot && snapshot[item.node] == item.row
    case SkipWrite(_, it) => item == it
    case Execute(it, back) => item == it || HeldBack(back, item)
    case Write(it, back) => item == it || HeldBack(back, item)
    case FailWrite(it, back) => item == it || HeldBack(back, item)
    case FailExecution(back) => HeldBack(back, item)
    case _ => false
  }

  predicate HeldBack(back: Back, item: Item) {
    back.ToMirror? && item in back.todo
  }

  predicate Linked(tasks: map<nat, TaskRecord>, deliveries: map<string, DeliveryState>, item: Item) {
    && (item.row.task.Some? ==> item.row.task.value in tasks && tasks[item.row.task.value].node == item.node)
    && (item.row.delivery.Some? ==> item.row.delivery.value == item.node && item.node in deliveries)
  }

  ghost predicate OneTaskPerNode(tasks: map<nat, TaskRecord>) {
    forall a, b | a in tasks && b in tasks && tasks[a].node == tasks[b].node :: a == b
  }

  ghost predicate LinksFit(w: World) {
    && OneTaskPerNode(w.tasks)
    && (forall n | n in w.store.rows :: Linked(w.tasks, w.deliveries, Item(n, w.store.rows[n])))
    && (forall id, item | id in w.calls && Holds(w.calls[id], item) :: Linked(w.tasks, w.deliveries, item))
  }

  predicate SameLinks(a: Item, b: Item) {
    a.node == b.node && a.row.task == b.row.task && a.row.delivery == b.row.delivery
  }

  /** Tasks and deliveries are only ever added, and keep their node. */
  ghost predicate WorkGrows(w: World, f: Effect) {
    && (forall t | t in w.tasks :: t in f.tasks && f.tasks[t].node == w.tasks[t].node)
    && (forall v | v in w.deliveries :: v in f.deliveries)
  }

  lemma {:induction false} ListedStored(listing: seq<string>, rows: map<string, Row>, item: Item)
    requires item in Listed(listing, rows)
    ensures item.node in rows && rows[item.node] == item.row
  {
    if listing != [] && item !in (if listing[0] in rows then [Item(listing[0], rows[listing[0]])] else []) {
      ListedStored(listing[1..], rows, item);
    }
  }

  lemma MirrorLinks(p: Plan, w: World, iteration: nat, todo: seq<Item>, changed: bool, item: Item)
    requires forall it | it in todo :: Linked(w.tasks, w.deliveries, it)
    requires Holds(MirrorStep(p, w, iteration, todo, changed).call, item)
    ensures Linked(w.tasks, w.deliveries, item)
  {
    assert todo[0] in todo;
  }

  lemma DispatchTaskGrows(w: World, it: Item, back: Back, dispatch: Dispatch)
    requires OneTaskPerNode(w.tasks)
    ensures var f := DispatchTask(w, it, back, dispatch); WorkGrows(w, f) && OneTaskPerNode(f.tasks)
  {
  }

  lemma DispatchTaskLinks(w: World, it: Item, back: Back, dispatch: Dispatch, item: Item)
    requires OneTaskPerNode(w.tasks)
    requires Linked(w.tasks, w.deliveries, it)
    requires forall i | HeldBack(back, i) :: Linked(w.tasks, w.deliveries, i)
    ensures var f := DispatchTask(w, it, back, dispatch);
            && WorkGrows(w, f) && OneTaskPerNode(f.tasks)
            && (Holds(f.call, item) ==> Linked(f.tasks, f.deliveries, item))
  {
    DispatchTaskGrows(w, it, back, dispatch);
    if HeldBack(back, item) {
      assert Linked(w.tasks, w.deliveries, item);
    }
  }

  lemma ExecuteLinks(w: World, it: Item, kind: NodeKind, config: Config, computed: Option<Output>, back: Back, dispatch: Dispatch, item: Item)
    requires OneTaskPerNode(w.tasks)
    requires Linked(w.tasks, w.deliveries, it)
    requires forall i | HeldBack(back, i) :: Linked(w.tasks, w.deliveries, i)
    ensures var f := ExecuteNode(w, it, kind, config, computed, back, dispatch);
            && WorkGrows(w, f) && OneTaskPerNode(f.tasks)
            && (Holds(f.call, item) ==> Linked(f.tasks, f.deliveries, item))
  {
    if kind.Task? {
      DispatchTaskLinks(w, it.(row := it.row.(updatedAt := w.now)), back, dispatch, item);
    }
  }

  lemma ScheduleLinks(w: World, iteration: nat, node: string, ready: Readiness, next: Call, item: Item)
    requires forall n | n in w.store.rows :: Linked(w.tasks, w.deliveries, Item(n, w.store.rows[n]))
    requires Holds(next, item) ==> Linked(w.tasks, w.deliveries, item)
    requires Holds(ScheduleNode(w, iteration, node, ready, next).call, item)
    ensures Linked(w.tasks, w.deliveries, item)
  {
    if !Holds(next, item) {
      assert Linked(w.tasks, w.deliveries, Item(node, w.store.rows[node]));
    }
  }

  lemma StepWork(p: Plan, w: World, id: nat, dispatch: Dispatch)
    requires LinksFit(w) && id in w.calls
    ensures var f := StepCall(p, w, w.calls[id], dispatch); WorkGrows(w, f) && OneTaskPerNode(f.tasks)
  {
    var call := w.calls[id];
    if call.Execute? {
      var it := call.item;
      assert forall i | HeldBack(call.back, i) :: Holds(call, i);
      ExecuteLinks(w, it, KindOf(p.def, it.node), ConfigOf(p.def, it.node), Computed(p, it.node), call.back, dispatch, it);
    }
  }

  lemma ScheduleHeld(p: Plan, w: World, iteration: nat, snapshot: map<string, Row>, index: nat, item: Item)
    requires forall n | n in w.store.rows :: Linked(w.tasks, w.deliveries, Item(n, w.store.rows[n]))
    requires forall n | n in snapshot :: Linked(w.tasks, w.deliveries, Item(n, snapshot[n]))
    requires Holds(ScheduleStep(p, w, iteration, snapshot, index).call, item)
    ensures var f := ScheduleStep(p, w, iteration, snapshot, index); Linked(f.tasks, f.deliveries, item)
  {
    var node, next := p.def.nodes[index].id, Schedule(iteration, snapshot, index + 1);
    assert Holds(next, item) ==> item == Item(item.node, snapshot[item.node]);
    ScheduleLinks(w, iteration, node, Judged(p, snapshot, node), next, item);
  }

  /** Steps that neither read rows nor execute a node hold nothing new. */
  lemma StepHoldsNothingNew(p: Plan, w: World, call: Call, dispatch: Dispatch, item: Item)
    requires !call.Load? && !call.Mirror? && !call.Reload? && !call.Execute? && !call.Schedule?
    requires Holds(StepCall(p, w, call, dispatch).call, item)
    ensures Holds(call, item)
    ensures StepCall(p, w, call, dispatch).tasks == w.tasks
    ensures StepCall(p, w, call, dispatch).deliveries == w.deliveries
  {
  }

  lemma StepHeld(p: Plan, w: World, id: nat, dispatch: Dispatch, item: Item)
    requires LinksFit(w) && id in w.calls
    requires Holds(StepCall(p, w, w.calls[id], dispatch).call, item)
    ensures var f := StepCall(p, w, w.calls[id], dispatch); Linked(f.tasks, f.deliveries, item)
  {
    var call := w.calls[id];
    assert forall i | Holds(call, i) :: Linked(w.tasks, w.deliveries, i);
    match call
    case Load(_) => ListedStored(p.listing, w.store.rows, item);
    case Mirror(iteration, todo, changed) =>
      assert forall i | i in todo :: Holds(call, i);
      MirrorLinks(p, w, iteration, todo, changed, item);
    case Execute(it, back) =>
      assert Holds(call, it) && forall i | HeldBack(back, i) :: Holds(call, i);
      ExecuteLinks(w, it, KindOf(p.def, it.node), ConfigOf(p.def, it.node), Computed(p, it.node), back, dispatch, item);
    case Schedule(iteration, snapshot, index) =>
      assert forall n | n in snapshot :: Holds(call, Item(n, snapshot[n]));
      ScheduleHeld(p, w, iteration, snapshot, index, item);
    case Reload(_) => assert item == Item(item.node, w.store.rows[item.node]);
    case _ => StepHoldsNothingNew(p, w, call, dispatch, item);
  }

  /** Applying an update stores a row some call held, or keeps the links of the stored one. */
  lemma ApplyLinked(w: World, u: Update, n: string)
    requires n in w.store.rows && Linked(w.tasks, w.deliveries, Item(n, w.store.rows[n]))
    requires u.SwapNode? ==> Linked(w.tasks, w.deliveries, u.item)
    ensures var t := Apply(w.store, u, w.now);
            n in t.rows && Linked(w.tasks, w.deliveries, Item(n, t.rows[n]))
  {
  }

  lemma SwapHeld(p: Plan, w: World, call: Call, dispatch: Dispatch)
    ensures var u := StepCall(p, w, call, dispatch).update;
            u.SwapNode? ==> exists item :: Holds(call, item) && SameLinks(item, u.item)
  {
    match call
    case MirrorWrite(_, item, _, _, _) => assert Holds(call, item) && SameLinks(item, item);
    case SkipWrite(_, item) =>
      assert Holds(call, item) && SameLinks(item, StepCall(p, w, call, dispatch).update.item);
    case Write(item, _) => assert Holds(call, item) && SameLinks(item, item);
    case FailWrite(item, _) => assert Holds(call, item) && SameLinks(item, item);
    case _ =>
  }

  lemma NextLinkedRow(p: Plan, w: World, e: Event, n: string)
    requires LinksFit(w) && n in w.store.rows
    ensures n in Next(p, w, e).store.rows
    ensures Linked(w.tasks, w.deliveries, Item(n, Next(p, w, e).store.rows[n]))
  {
    if e.Step? && e.call in w.calls {
      var u := StepCall(p, w, w.calls[e.call], e.dispatch).update;
      SwapHeld(p, w, w.calls[e.call], e.dispatch);
      if u.SwapNode? {
        var item :| Holds(w.calls[e.call], item) && SameLinks(item, u.item);
        assert Linked(w.tasks, w.deliveries, item);
      }
      ApplyLinked(w, u, n);
    } else {
      ApplyLinked(w, CancelAll, n);
    }
  }

  lemma NextWork(p: Plan, w: World, e: Event)
    requires LinksFit(w)
    ensures var w' := Next(p, w, e);
            && OneTaskPerNode(w'.tasks)
            && (forall t | t in w.tasks :: t in w'.tasks && w'.tasks[t].node == w.tasks[t].node)
            && (forall v | v in w.deliveries :: v in w'.deliveries)
  {
    if e.Step? && e.call in w.calls {
      StepWork(p, w, e.call, e.dispatch);
    }
  }

  lemma NextLinks(p: Plan, w: World, e: Event)
    requires LinksFit(w)
    ensures LinksFit(Next(p, w, e))
  {
    var w' := Next(p, w, e);
    NextWork(p, w, e);
    forall n | n in w'.store.rows
      ensures Linked(w'.tasks, w'.deliveries, Item(n, w'.store.rows[n]))
    {
      assert w'.store.rows.Keys == w.store.rows.Keys;
      NextLinkedRow(p, w, e, n);
    }
    forall id, item | id in w'.calls && Holds(w'.calls[id], item)
      ensures Linked(w'.tasks, w'.deliveries, item)
    {
      if e.Step? && e.call == id {
        StepHeld(p, w, id, e.dispatch, item);
      } else {
        assert id in w.calls && Holds(w.calls[id], item);
        assert Linked(w.tasks, w.deliveries, item);
      }
    }
  }
}
