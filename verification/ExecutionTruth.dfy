/** What a succeeded node row says is so: its task is completed, its webhook delivered,
    its delay over, its condition evaluated. */
module ExecutionTruth {
  import opened Common
  import opened Workflow
  import opened ExecutionStore
  import opened ExecutionSteps
  import opened ExecutionLinks

  /** The outside world: a clock, tasks and deliveries. */
  datatype Outside = Outside(now: int, tasks: map<nat, TaskRecord>, deliveries: map<string, DeliveryState>)

  function OutsideOf(w: World): Outside {
    Outside(w.now, w.tasks, w.deliveries)
  }

  /** Only task nodes link tasks, only webhook nodes deliveries, only delays a time. */
  predicate LinksSuit(kind: NodeKind, row: Row) {
    && (row.task.Some? ==> kind.Task?)
    && (row.delivery.Some? ==> kind.Webhook?)
    && (row.availableAt.Some? ==> kind.Delay?)
  }

  predicate WorkDone(kind: NodeKind, computed: Option<Output>, o: Outside, row: Row) {
    match kind
    case Trigger => row.output == computed
    case Condition => row.output == computed
    case Task =>
      && row.task.Some? && row.output == Some(TaskReference(row.task.value))
      && row.task.value in o.tasks && o.tasks[row.task.value].state.status.TaskCompleted?
    case Webhook =>
      && row.delivery.Some? && row.output == Some(DeliveryReference(row.delivery.value))
      && row.delivery.value in o.deliveries && o.deliveries[row.delivery.value].status.Delivered?
    case Delay =>
      && row.availableAt.Some? && row.output.Some? && row.output.value.ResumedAt?
      && row.availableAt.value <= row.output.value.time <= o.now
    case Unsupported => false
  }

  predicate HonestRow(kind: NodeKind, computed: Option<Output>, o: Outside, row: Row) {
    LinksSuit(kind, row) && (row.status.Succeeded? ==> WorkDone(kind, computed, o, row))
  }

  predicate Honest(p: Plan, o: Outside, item: Item) {
    HonestRow(KindOf(p.def, item.node), Computed(p, item.node), o, item.row)
  }

  /** Completed and delivered work stays so, and time moves forward. */
  ghost predicate Lasts(a: Outside, b: Outside) {
    && a.now <= b.now
    && (forall t | t in a.tasks && a.tasks[t].state.status.TaskCompleted? ::
          t in b.tasks && b.tasks[t].state.status.TaskCompleted?)
    && (forall v | v in a.deliveries && a.deliveries[v].status.Delivered? ::
          v in b.deliveries && b.deliveries[v].status.Delivered?)
  }

  lemma HonestLater(p: Plan, a: Outside, b: Outside, item: Item)
    requires Honest(p, a, item) && Lasts(a, b)
    ensures Honest(p, b, item)
  {
  }

  lemma MirroredHonest(p: Plan, o: Outside, item: Item)
    requires Honest(p, o, item) && !item.row.status.Succeeded?
    ensures var seen := Mirrored(p, o.now, o.tasks, o.deliveries, item);
            seen.Some? ==> Honest(p, o, Item(item.node, seen.value))
  {
  }

  lemma MirrorHonest(p: Plan, w: World, iteration: nat, todo: seq<Item>, changed: bool, item: Item)
    requires forall it | it in todo :: Honest(p, OutsideOf(w), it)
    requires Holds(MirrorStep(p, w, iteration, todo, changed).call, item)
    ensures Honest(p, OutsideOf(w), item)
  {
    assert todo[0] in todo;
    if !todo[0].row.status.Succeeded? {
      MirroredHonest(p, OutsideOf(w), todo[0]);
    }
  }

  function After(w: World, f: Effect): Outside {
    Outside(w.now, f.tasks, f.deliveries)
  }

  lemma ExecuteHonest(w: World, it: Item, kind: NodeKind, config: Config, computed: Option<Output>, back: Back, dispatch: Dispatch)
    requires HonestRow(kind, computed, OutsideOf(w), it.row)
    ensures var f := ExecuteNode(w, it, kind, config, computed, back, dispatch);
            && Lasts(OutsideOf(w), After(w, f))
            && (f.call.Write? || f.call.FailWrite?) && f.call.back == back
            && f.call.item.node == it.node && HonestRow(kind, computed, After(w, f), f.call.item.row)
  {
  }

  ghost predicate AllHonest(p: Plan, w: World) {
    && (forall n | n in w.store.rows :: Honest(p, OutsideOf(w), Item(n, w.store.rows[n])))
    && (forall id, item | id in w.calls && Holds(w.calls[id], item) :: Honest(p, OutsideOf(w), item))
  }

  ghost predicate CallHonest(p: Plan, w: World, call: Call) {
    forall item | Holds(call, item) :: Honest(p, OutsideOf(w), item)
  }

  lemma StepLasts(p: Plan, w: World, call: Call, dispatch: Dispatch)
    requires CallHonest(p, w, call)
    ensures Lasts(OutsideOf(w), After(w, StepCall(p, w, call, dispatch)))
  {
    if call.Execute? {
      var it := call.item;
      assert Holds(call, it);
      ExecuteHonest(w, it, KindOf(p.def, it.node), ConfigOf(p.def, it.node), Computed(p, it.node), call.back, dispatch);
    }
  }

  lemma ExecuteStepHonest(p: Plan, w: World, call: Call, dispatch: Dispatch, item: Item)
    requires CallHonest(p, w, call) && call.Execute?
    requires Holds(StepCall(p, w, call, dispatch).call, item)
    ensures Honest(p, After(w, StepCall(p, w, call, dispatch)), item)
  {
    var it, f := call.item, StepCall(p, w, call, dispatch);
    assert Holds(call, it);
    ExecuteHonest(w, it, KindOf(p.def, it.node), ConfigOf(p.def, it.node), Computed(p, it.node), call.back, dispatch);
    if item != f.call.item {
      assert Holds(call, item);
      HonestLater(p, OutsideOf(w), After(w, f), item);
    }
  }

  lemma ScheduleHonest(p: Plan, w: World, iteration: nat, node: string, ready: Readiness, next: Call, item: Item)
    requires forall n | n in w.store.rows :: Honest(p, OutsideOf(w), Item(n, w.store.rows[n]))
    requires Holds(next, item) ==> Honest(p, OutsideOf(w), item)
    requires Holds(ScheduleNode(w, iteration, node, ready, next).call, item)
    ensures Honest(p, OutsideOf(w), item)
  {
    if !Holds(next, item) {
      assert Honest(p, OutsideOf(w), Item(node, w.store.rows[node]));
    }
  }

  lemma ScheduleStepHonest(p: Plan, w: World, iteration: nat, snapshot: map<string, Row>, index: nat, item: Item)
    requires forall n | n in w.store.rows :: Honest(p, OutsideOf(w), Item(n, w.store.rows[n]))
    requires forall n | n in snapshot :: Honest(p, OutsideOf(w), Item(n, snapshot[n]))
    requires Holds(ScheduleStep(p, w, iteration, snapshot, index).call, item)
    ensures Honest(p, After(w, ScheduleStep(p, w, iteration, snapshot, index)), item)
  {
    var node, next := p.def.nodes[index].id, Schedule(iteration, snapshot, index + 1);
    assert Holds(next, item) ==> item == Item(item.node, snapshot[item.node]);
    ScheduleHonest(p, w, iteration, node, Judged(p, snapshot, node), next, item);
  }

  lemma StepHonest(p: Plan, w: World, id: nat, dispatch: Dispatch, item: Item)
    requires AllHonest(p, w) && id in w.calls
    requires Holds(StepCall(p, w, w.calls[id], dispatch).call, item)
    ensures Honest(p, After(w, StepCall(p, w, w.calls[id], dispatch)), item)
  {
    var call := w.calls[id];
    assert CallHonest(p, w, call);
    match call
    case Load(_) => ListedStored(p.listing, w.store.rows, item);
    case Mirror(iteration, todo, changed) =>
      assert forall i | i in todo :: Holds(call, i);
      MirrorHonest(p, w, iteration, todo, changed, item);
    case Execute(_, _) => ExecuteStepHonest(p, w, call, dispatch, item);
    case Schedule(iteration, snapshot, index) =>
      assert forall n | n in snapshot :: Holds(call, Item(n, snapshot[n]));
      ScheduleStepHonest(p, w, iteration, snapshot, index, item);
    case Reload(_) => assert item == Item(item.node, w.store.rows[item.node]);
    case _ => StepHoldsNothingNew(p, w, call, dispatch, item);
  }

  /** What an update stores is honest: a held row, or a stored one cancelled or claimed. */
  lemma UpdateHonest(p: Plan, w: World, call: Call, dispatch: Dispatch)
    requires CallHonest(p, w, call)
    ensures var u := StepCall(p, w, call, dispatch).update;
            u.SwapNode? ==> Honest(p, OutsideOf(w), u.item)
  {
    match call
    case MirrorWrite(_, item, _, _, _) => assert Holds(call, item);
    case SkipWrite(_, item) => assert Holds(call, item);
    case Write(item, _) => assert Holds(call, item);
    case FailWrite(item, _) => assert Holds(call, item);
    case _ =>
  }

  lemma ApplyHonest(p: Plan, o: Outside, s: Store, u: Update, now: int, n: string)
    requires n in s.rows && Honest(p, o, Item(n, s.rows[n]))
    requires u.SwapNode? ==> Honest(p, o, u.item)
    ensures var t := Apply(s, u, now); n in t.rows && Honest(p, o, Item(n, t.rows[n]))
  {
  }

  /** Outside moves never undo completed or delivered work. */
  predicate Lasting(w: World, e: Event) {
    && (e.TaskMoves? && e.task in w.tasks && w.tasks[e.task].state.status.TaskCompleted? ==>
          e.taskState.status.TaskCompleted?)
    && (e.DeliveryMoves? && e.delivery in w.deliveries && w.deliveries[e.delivery].status.Delivered? ==>
          e.deliveryState.status.Delivered?)
  }

  ghost predicate LastingRun(p: Plan, w: World, es: seq<Event>) {
    es == [] || (LastingRun(p, w, es[..|es| - 1]) && Lasting(Run(p, w, es[..|es| - 1]), es[|es| - 1]))
  }

  lemma NextLasts(p: Plan, w: World, e: Event)
    requires AllHonest(p, w) && Lasting(w, e)
    ensures Lasts(OutsideOf(w), OutsideOf(Next(p, w, e)))
  {
    if e.Step? && e.call in w.calls {
      assert CallHonest(p, w, w.calls[e.call]);
      StepLasts(p, w, w.calls[e.call], e.dispatch);
    }
  }

  lemma NextRowHonest(p: Plan, w: World, e: Event, n: string)
    requires AllHonest(p, w) && n in w.store.rows
    ensures n in Next(p, w, e).store.rows && Honest(p, OutsideOf(w), Item(n, Next(p, w, e).store.rows[n]))
  {
    if e.Step? && e.call in w.calls {
      var call := w.calls[e.call];
      assert CallHonest(p, w, call);
      UpdateHonest(p, w, call, e.dispatch);
      ApplyHonest(p, OutsideOf(w), w.store, StepCall(p, w, call, e.dispatch).update, w.now, n);
    } else if e.Cancel? {
      ApplyHonest(p, OutsideOf(w), w.store, CancelAll, w.now, n);
    }
  }

  lemma NextHonest(p: Plan, w: World, e: Event)
    requires AllHonest(p, w) && Lasting(w, e)
    ensures AllHonest(p, Next(p, w, e))
  {
    var v := Next(p, w, e);
    NextLasts(p, w, e);
    forall n | n in v.store.rows
      ensures Honest(p, OutsideOf(v), Item(n, v.store.rows[n]))
    {
      assert v.store.rows.Keys == w.store.rows.Keys;
      NextRowHonest(p, w, e, n);
      HonestLater(p, OutsideOf(w), OutsideOf(v), Item(n, v.store.rows[n]));
    }
    forall id, item | id in v.calls && Holds(v.calls[id], item)
      ensures Honest(p, OutsideOf(v), item)
    {
      if e.Step? && e.call == id {
        StepHonest(p, w, id, e.dispatch, item);
      } else {
        assert id in w.calls && Holds(w.calls[id], item);
        HonestLater(p, OutsideOf(w), OutsideOf(v), item);
      }
    }
  }

  lemma {:induction false} RunHonest(p: Plan, now: int, es: seq<Event>)
    requires LastingRun(p, Initial(p, now), es)
    ensures AllHonest(p, Run(p, Initial(p, now), es))
  {
    if es != [] {
      RunHonest(p, now, es[..|es| - 1]);
      NextHonest(p, Run(p, Initial(p, now), es[..|es| - 1]), es[|es| - 1]);
    }
  }

  /** If completed tasks stay completed and delivered webhooks delivered, then in every
      run a succeeded row is backed by work that is done: a stale mirror, a recovery or a
      lost race never records success for work that did not succeed. */
  lemma SucceededWorkIsDone(p: Plan, now: int, es: seq<Event>, node: string)
    requires LastingRun(p, Initial(p, now), es)
    requires var w := Run(p, Initial(p, now), es); node in w.store.rows && w.store.rows[node].status.Succeeded?
    ensures var w := Run(p, Initial(p, now), es);
            WorkDone(KindOf(p.def, node), Computed(p, node), OutsideOf(w), w.store.rows[node])
  {
    RunHonest(p, now, es);
    var w := Run(p, Initial(p, now), es);
    assert Honest(p, OutsideOf(w), Item(node, w.store.rows[node]));
  }
}
