/** The outside work of an execution is the task and delivery machines at work: moves of
    tasks and deliveries that are steps of those machines never undo finished work. */
module ExecutionBacking {
  import opened ExecutionLinks
  import opened ExecutionSafety
  import opened ExecutionRuns
  import opened ExecutionCalls
  import opened ExecutionSteps
  import opened ExecutionStore
  import opened ExecutionTruth
  import TaskLease
  import WebhookDelivery

  function StateOf(t: TaskLease.Task): TaskState {
    var status :=
      match t.status
      case Pending => TaskPending
      case Processing => TaskProcessing
      case Completed => TaskCompleted
      case Failed => TaskFailed
      case DeadLetter => TaskDeadLetter
      case Cancelled => TaskCancelled;
    TaskState(status, t.attempts, t.deleted)
  }

  function DeliveryOf(d: WebhookDelivery.Delivery): DeliveryState {
    var status :=
      match d.status
      case Pending => DeliveryPending
      case Delivering => Delivering
      case Retrying => Retrying
      case Delivered => Delivered
      case Failed => DeliveryFailed;
    DeliveryState(status, d.attempts)
  }

  /** A run of the task machine for every task and one of the delivery machine, and how
      far each has come after so many events of the executor. */
  datatype Backing = Backing(
    tasks: nat -> seq<TaskLease.World>, taskEvents: nat -> seq<TaskLease.Event>, taskAt: (nat, nat) -> nat,
    policy: WebhookDelivery.Policy, deliveries: seq<WebhookDelivery.World>, deliveryEvents: seq<WebhookDelivery.Event>,
    idOf: string -> WebhookDelivery.Id, deliveryAt: nat -> nat)

  ghost predicate TaskShown(b: Backing, w: World, k: nat, t: nat) {
    t in w.tasks ==> b.taskAt(k, t) < |b.tasks(t)| && w.tasks[t].state == StateOf(b.tasks(t)[b.taskAt(k, t)].task)
  }

  ghost predicate DeliveryShown(b: Backing, w: World, k: nat, v: string) {
    v in w.deliveries ==>
      && b.deliveryAt(k) < |b.deliveries| && b.idOf(v) in b.deliveries[b.deliveryAt(k)].rows
      && w.deliveries[v] == DeliveryOf(b.deliveries[b.deliveryAt(k)].rows[b.idOf(v)])
  }

  /** At every moment the executor sees the machines where they are. */
  ghost predicate Backed(p: Plan, w: World, es: seq<Event>, b: Backing) {
    && (forall t :: TaskLease.Run(b.tasks(t), b.taskEvents(t)))
    && WebhookDelivery.Run(b.policy, b.deliveries, b.deliveryEvents)
    && (forall k: nat, t: nat | k <= |es| :: TaskShown(b, Run(p, w, es[..k]), k, t))
    && (forall k: nat, v: string | k <= |es| :: DeliveryShown(b, Run(p, w, es[..k]), k, v))
    && (forall k: nat, t: nat | k < |es| :: b.taskAt(k, t) <= b.taskAt(k + 1, t))
    && (forall k: nat | k < |es| :: b.deliveryAt(k) <= b.deliveryAt(k + 1))
  }

  lemma BackedLastsAt(p: Plan, w0: World, es: seq<Event>, b: Backing, k: nat)
    requires Backed(p, w0, es, b) && k < |es|
    ensures Lasting(Run(p, w0, es[..k]), es[k])
  {
    var w, v := Run(p, w0, es[..k]), Run(p, w0, es[..k + 1]);
    assert es[..k + 1][..k] == es[..k] && v == Next(p, w, es[k]);
    match es[k]
    case TaskMoves(t, state) =>
      assert TaskShown(b, w, k, t) && TaskShown(b, v, k + 1, t) && b.taskAt(k, t) <= b.taskAt(k + 1, t);
      if t in w.tasks && w.tasks[t].state.status.TaskCompleted? {
        TaskLease.CompletedForever(b.tasks(t), b.taskEvents(t), b.taskAt(k, t), b.taskAt(k + 1, t));
      }
    case DeliveryMoves(d, state) =>
      assert DeliveryShown(b, w, k, d) && DeliveryShown(b, v, k + 1, d) && b.deliveryAt(k) <= b.deliveryAt(k + 1);
      if d in w.deliveries && w.deliveries[d].status.Delivered? {
        WebhookDelivery.DeliveredForever(b.policy, b.deliveries, b.deliveryEvents, b.deliveryAt(k), b.deliveryAt(k + 1), b.idOf(d));
      }
    case _ =>
  }

  lemma {:induction false} BackedLasts(p: Plan, w0: World, es: seq<Event>, b: Backing, n: nat)
    requires Backed(p, w0, es, b) && n <= |es|
    ensures LastingRun(p, w0, es[..n])
  {
    if n > 0 {
      BackedLasts(p, w0, es, b, n - 1);
      BackedLastsAt(p, w0, es, b, n - 1);
      assert es[..n][..n - 1] == es[..n - 1];
    }
  }

  /** In every run beside the task and delivery machines, a succeeded row is backed by
      work that is done. */
  lemma SucceededIsBacked(p: Plan, now: int, es: seq<Event>, b: Backing, node: string)
    requires Backed(p, Initial(p, now), es, b)
    requires var w := Run(p, Initial(p, now), es); node in w.store.rows && w.store.rows[node].status.Succeeded?
    ensures var w := Run(p, Initial(p, now), es);
            WorkDone(KindOf(p.def, node), Computed(p, node), OutsideOf(w), w.store.rows[node])
  {
    BackedLasts(p, Initial(p, now), es, b, |es|);
    assert es[..|es|] == es;
    SucceededWorkIsDone(p, now, es, node);
  }

  lemma {:induction false} DeliveriesMoveOn(p: Plan, w0: World, es: seq<Event>, b: Backing, k: nat, n: nat)
    requires Backed(p, w0, es, b) && k <= n <= |es|
    ensures b.deliveryAt(k) <= b.deliveryAt(n)
    decreases n
  {
    if k < n {
      DeliveriesMoveOn(p, w0, es, b, k, n - 1);
      assert b.deliveryAt(n - 1) <= b.deliveryAt(n - 1 + 1);
    }
  }

  /** The delivery is being delivered, and nobody is at it. */
  ghost predicate Stranded(b: Backing, k: nat, node: string) {
    && b.deliveryAt(k) < |b.deliveries|
    && var d := b.deliveries[b.deliveryAt(k)];
       b.idOf(node) in d.rows && d.rows[b.idOf(node)].status == WebhookDelivery.Delivering && !WebhookDelivery.Held(d, b.idOf(node))
  }

  /** A stranded delivery strands its node: it does not succeed in any continuation. */
  lemma StrandedNeverSucceeds(p: Plan, now: int, es: seq<Event>, b: Backing, k: nat, node: string)
    requires Backed(p, Initial(p, now), es, b) && k <= |es| && KindOf(p.def, node).Webhook? && Stranded(b, k, node)
    ensures var rows := Run(p, Initial(p, now), es).store.rows; node in rows ==> !rows[node].status.Succeeded?
  {
    var w := Run(p, Initial(p, now), es);
    if node in w.store.rows && w.store.rows[node].status.Succeeded? {
      SucceededIsBacked(p, now, es, b, node);
      InitialInvariant(p, now);
      RunInvariant(p, Initial(p, now), es);
      assert Linked(w.tasks, w.deliveries, Item(node, w.store.rows[node]));
      assert es[..|es|] == es && DeliveryShown(b, w, |es|, node);
      DeliveriesMoveOn(p, Initial(p, now), es, b, k, |es|);
      WebhookDelivery.StrandedForever(b.policy, b.deliveries, b.deliveryEvents, b.deliveryAt(k), b.deliveryAt(|es|), b.idOf(node));
      assert false;
    }
  }

  // ----- a task deleted before it was mirrored

  predicate AboutToSucceed(call: Call, node: string) {
    match call
    case MirrorWrite(_, item, _, _, _) => item.node == node && item.row.status.Succeeded?
    case Write(item, _) => item.node == node && item.row.status.Succeeded?
    case FailWrite(item, _) => item.node == node && item.row.status.Succeeded?
    case _ => false
  }

  /** The node's task is deleted, and nobody has seen its success yet. */
  ghost predicate Hidden(w: World, node: string, t: nat) {
    && node in w.store.rows && !w.store.rows[node].status.Succeeded?
    && t in w.tasks && w.tasks[t].node == node && w.tasks[t].state.deleted
    && forall id | id in w.calls :: !AboutToSucceed(w.calls[id], node)
  }

  lemma MirrorHidden(p: Plan, w: World, call: Call, node: string, t: nat)
    requires OneTaskPerNode(w.tasks) && KindOf(p.def, node).Task? && Hidden(w, node, t)
    requires call.Mirror? && CallFits(p, w.store, call)
    requires forall item | item in call.todo :: Linked(w.tasks, w.deliveries, item)
    ensures !AboutToSucceed(MirrorStep(p, w, call.iteration, call.todo, call.changed).call, node)
  {
    if call.todo != [] && call.todo[0].node == node {
      assert call.todo[0] in call.todo && CopyFits(p, w.store, call.todo[0]);
    }
  }

  lemma ExecuteHidden(p: Plan, w: World, item: Item, back: Back, dispatch: Dispatch, node: string)
    requires KindOf(p.def, node).Task?
    ensures !AboutToSucceed(ExecuteStep(p, w, item, back, dispatch).call, node)
  {
    if item.node == node {
      assert ExecuteStep(p, w, item, back, dispatch).call.item.row.status.Queued? || ExecuteStep(p, w, item, back, dispatch).call.FailWrite?;
    } else {
      ExecuteStores(p, w, item, back, dispatch);
    }
  }

  lemma LookHidden(p: Plan, w: World, id: nat, dispatch: Dispatch, node: string, t: nat)
    requires Invariant(p, w) && KindOf(p.def, node).Task? && Hidden(w, node, t) && id in w.calls && w.calls[id].Mirror?
    ensures !AboutToSucceed(StepCall(p, w, w.calls[id], dispatch).call, node)
  {
    var c := w.calls[id];
    assert CallFits(p, w.store, c);
    assert forall item | item in c.todo :: Holds(c, item);
    MirrorHidden(p, w, c, node, t);
  }

  lemma OtherHidden(p: Plan, w: World, c: Call, dispatch: Dispatch, node: string)
    requires !c.Mirror? && !c.Execute? && !c.Schedule?
    ensures !AboutToSucceed(StepCall(p, w, c, dispatch).call, node)
  {
  }

  lemma ScheduleHidden(p: Plan, w: World, c: Call, dispatch: Dispatch, node: string)
    requires c.Schedule?
    ensures !AboutToSucceed(StepCall(p, w, c, dispatch).call, node)
  {
    ScheduleEffect(p, w, c.iteration, c.snapshot, c.index);
  }

  lemma StepHidden(p: Plan, w: World, id: nat, dispatch: Dispatch, node: string, t: nat)
    requires Invariant(p, w) && KindOf(p.def, node).Task? && Hidden(w, node, t) && id in w.calls
    ensures !AboutToSucceed(StepCall(p, w, w.calls[id], dispatch).call, node)
  {
    var c := w.calls[id];
    if c.Mirror? {
      LookHidden(p, w, id, dispatch, node, t);
    } else if c.Execute? {
      ExecuteHidden(p, w, c.item, c.back, dispatch, node);
    } else if c.Schedule? {
      ScheduleHidden(p, w, c, dispatch, node);
    } else {
      OtherHidden(p, w, c, dispatch, node);
    }
  }

  lemma NextHidden(p: Plan, w: World, e: Event, node: string, t: nat)
    requires Invariant(p, w) && KindOf(p.def, node).Task? && Hidden(w, node, t)
    requires t in Next(p, w, e).tasks && Next(p, w, e).tasks[t].state.deleted && Next(p, w, e).tasks[t].node == node
    ensures Hidden(Next(p, w, e), node, t)
  {
    UpdateOfFits(p, w, e);
    if e.Step? && e.call in w.calls {
      StepHidden(p, w, e.call, e.dispatch, node, t);
      StoresNoSuccess(p, w, e, node);
    }
  }

  lemma StoresNoSuccess(p: Plan, w: World, e: Event, node: string)
    requires e.Step? && e.call in w.calls && !AboutToSucceed(w.calls[e.call], node)
    ensures var u := UpdateOf(p, w, e); u.SwapNode? && u.item.node == node ==> !u.item.row.status.Succeeded?
  {
    match w.calls[e.call]
    case Execute(item, back) => ExecuteStores(p, w, item, back, e.dispatch);
    case Schedule(it, snapshot, index) => ScheduleEffect(p, w, it, snapshot, index);
    case Mirror(_, _, _) => MirrorQuiet(p, w, e.call, e.dispatch);
    case _ =>
  }

  lemma {:induction false} HiddenForever(p: Plan, now: int, es: seq<Event>, b: Backing, k: nat, n: nat, node: string, t: nat)
    requires Backed(p, Initial(p, now), es, b) && k <= n <= |es| && KindOf(p.def, node).Task?
    requires Hidden(Run(p, Initial(p, now), es[..k]), node, t)
    ensures Hidden(Run(p, Initial(p, now), es[..n]), node, t)
    decreases n
  {
    if k < n {
      var w, v := Run(p, Initial(p, now), es[..n - 1]), Run(p, Initial(p, now), es[..n]);
      HiddenForever(p, now, es, b, k, n - 1, node, t);
      assert es[..n][..n - 1] == es[..n - 1] && v == Next(p, w, es[n - 1]);
      InitialInvariant(p, now);
      RunInvariant(p, Initial(p, now), es[..n - 1]);
      NextWork(p, w, es[n - 1]);
      assert TaskShown(b, w, n - 1, t) && TaskShown(b, v, n, t) && b.taskAt(n - 1, t) <= b.taskAt(n - 1 + 1, t);
      TaskLease.DeletedForever(b.tasks(t), b.taskEvents(t), b.taskAt(n - 1, t), b.taskAt(n, t));
      NextHidden(p, w, es[n - 1], node, t);
    }
  }

  /** A task deleted before its completion was mirrored strands its node too: the lookup
      hides it, and the node does not succeed in any continuation. */
  lemma DeletedNeverSucceeds(p: Plan, now: int, es: seq<Event>, b: Backing, k: nat, node: string, t: nat)
    requires Backed(p, Initial(p, now), es, b) && k <= |es| && KindOf(p.def, node).Task?
    requires Hidden(Run(p, Initial(p, now), es[..k]), node, t)
    ensures var rows := Run(p, Initial(p, now), es).store.rows; node in rows && !rows[node].status.Succeeded?
  {
    assert es[..|es|] == es;
    HiddenForever(p, now, es, b, k, |es|, node, t);
  }
}
