/** AdvanceExecution as a step machine.

    Any number of calls run at once. A call keeps only what it has read (its
    snapshot, the row it claimed) and each step performs one repository or
    dispatcher operation on the shared state, so a run is any interleaving of
    calls, cancellations, clock ticks and moves of the external work. A crashed
    call is one that takes no further step. */
module ExecutionSteps {
  import opened Common
  import opened Workflow
  import opened ExecutionStore

  const LEASE := 30

  /** One execution: its immutable definition, the order in which the repository
      lists node rows, and the execution input. */
  datatype Plan = Plan(def: Definition, listing: seq<string>, input: Option<Json>)

  datatype TaskStatus = TaskPending | TaskProcessing | TaskCompleted | TaskFailed | TaskDeadLetter | TaskCancelled
  datatype TaskState = TaskState(status: TaskStatus, attempts: nat, deleted: bool)
  datatype TaskRecord = TaskRecord(node: string, state: TaskState)

  datatype DeliveryStatus = DeliveryPending | Delivering | Delivered | Retrying | DeliveryFailed
  datatype DeliveryState = DeliveryState(status: DeliveryStatus, attempts: nat)

  /** Where a call goes on after executing a claimed node. */
  datatype Back = ToMirror(iteration: nat, todo: seq<Item>) | ToLoop(iteration: nat) | ToEnd

  datatype Call =
    | Fetch                                              // read the execution row
    | Start                                              // mark it running
    | Load(iteration: nat)                               // read the node rows
    | Mirror(iteration: nat, todo: seq<Item>, changed: bool)
    | MirrorWrite(iteration: nat, item: Item, expected: NodeStatus, todo: seq<Item>, changed: bool)
    | Reload(iteration: nat)                             // read the node rows again
    | Schedule(iteration: nat, snapshot: map<string, Row>, index: nat)
    | SkipWrite(iteration: nat, item: Item)              // holds a claim made for skipping
    | Execute(item: Item, back: Back)                    // about to execute a claimed node
    | Write(item: Item, back: Back)                      // about to store the executed row
    | FailWrite(item: Item, back: Back)                  // about to store the failed row
    | FailExecution(back: Back)
    | Complete(outputs: Outputs)
    | Done

  datatype World = World(
    now: int,
    store: Store,
    tasks: map<nat, TaskRecord>,
    deliveries: map<string, DeliveryState>,
    calls: map<nat, Call>)

  /** What the dispatcher answers: work is linked (created under the fresh id
      unless it already exists), or dispatch fails. */
  datatype Dispatch = Accepted(newId: nat) | Refused

  datatype Event =
    | Begin(call: nat)
    | Step(call: nat, dispatch: Dispatch)
    | Cancel
    | Tick(seconds: nat)
    | TaskMoves(task: nat, taskState: TaskState)
    | DeliveryMoves(delivery: string, deliveryState: DeliveryState)

  // ----- readiness

  function Find(nodes: seq<Node>, id: string): Option<Node> {
    if nodes == [] then None else if nodes[0].id == id then Some(nodes[0]) else Find(nodes[1..], id)
  }

  function KindOf(d: Definition, node: string): NodeKind {
    var found := Find(d.nodes, node);
    if found.Some? then found.value.kind else Unsupported
  }

  function ConfigOf(d: Definition, node: string): Config {
    var found := Find(d.nodes, node);
    if found.Some? then found.value.config else Absent
  }

  function Incoming(edges: seq<Edge>, node: string): (r: seq<Edge>)
    ensures forall e :: e in r <==> e in edges && e.target == node
  {
    if edges == [] then []
    else (if edges[0].target == node then [edges[0]] else []) + Incoming(edges[1..], node)
  }

  /** What one incoming edge says about its target. */
  datatype Verdict = Waiting | Inactive | Active | Unreadable

  function EdgeVerdict(d: Definition, rows: map<string, Row>, e: Edge): Verdict {
    if e.source !in rows || !Settled(rows[e.source].status) then Waiting
    else if rows[e.source].status.Skipped? then Inactive
    else if !KindOf(d, e.source).Condition? then Active
    else if !BranchParses(e.condition) then Unreadable
    else if e.condition.Unlabelled? then Active
    else if rows[e.source].output.Some? && rows[e.source].output.value.ConditionResult? then
      if rows[e.source].output.value.result == e.condition.on then Active else Inactive
    else Unreadable
  }

  datatype Readiness = NotReady | Runnable | Skippable | Broken

  /** The first edge that is not decided decides; otherwise one active edge is enough. */
  function Judge(d: Definition, rows: map<string, Row>, edges: seq<Edge>, active: bool): Readiness {
    if edges == [] then (if active then Runnable else Skippable)
    else
      var v := EdgeVerdict(d, rows, edges[0]);
      if v.Waiting? then NotReady
      else if v.Unreadable? then Broken
      else Judge(d, rows, edges[1..], active || v.Active?)
  }

  function ReadinessOf(d: Definition, rows: map<string, Row>, node: string): Readiness {
    if KindOf(d, node).Trigger? then Runnable
    else
      var incoming := Incoming(d.edges, node);
      if incoming == [] then NotReady else Judge(d, rows, incoming, false)
  }

  // ----- mirroring external work

  function MirrorTask(row: Row, task: nat, state: TaskState, now: int): Row {
    var seen := row.(attempt := state.attempts, updatedAt := now);
    match state.status
    case TaskPending => seen.(status := Queued)
    case TaskProcessing => seen.(status := Running)
    case TaskCompleted => seen.(status := Succeeded, output := Some(TaskReference(task)))
    case TaskFailed => seen.(status := Failed)
    case TaskDeadLetter => seen.(status := Failed)
    case TaskCancelled => seen.(status := Failed)
  }

  function MirrorDelivery(row: Row, delivery: string, state: DeliveryState, now: int): Row {
    var seen := row.(attempt := state.attempts, updatedAt := now);
    match state.status
    case DeliveryPending => seen.(status := Queued)
    case Retrying => seen.(status := Queued)
    case Delivering => seen.(status := Running)
    case Delivered => seen.(status := Succeeded, output := Some(DeliveryReference(delivery)))
    case DeliveryFailed => seen.(status := Failed)
  }

  function ResumeDelay(row: Row, now: int): Row {
    row.(status := Succeeded, output := Some(ResumedAt(now)), updatedAt := now)
  }

  /** The row a mirroring pass wants to store for an open row, if any. */
  function Mirrored(p: Plan, now: int, tasks: map<nat, TaskRecord>, deliveries: map<string, DeliveryState>,
                    item: Item): Option<Row>
  {
    var row := item.row;
    if row.task.Some? then
      var t := row.task.value;
      if t !in tasks || tasks[t].state.deleted then None
      else Differs(row, MirrorTask(row, t, tasks[t].state, now))
    else if row.delivery.Some? then
      var v := row.delivery.value;
      if v !in deliveries then None
      else Differs(row, MirrorDelivery(row, v, deliveries[v], now))
    else if KindOf(p.def, item.node).Delay? && row.availableAt.Some? then
      if row.availableAt.value <= now then Some(ResumeDelay(row, now)) else None
    else None
  }

  function Differs(row: Row, seen: Row): Option<Row> {
    if seen.status != row.status || seen.attempt != row.attempt then Some(seen) else None
  }

  /** An unlinked running claim whose lease has run out. */
  predicate Stale(p: Plan, now: int, item: Item) {
    && item.row.status.Running?
    && item.row.task.None? && item.row.delivery.None?
    && !(KindOf(p.def, item.node).Delay? && item.row.availableAt.Some?)
    && now - item.row.updatedAt >= LEASE
  }

  // ----- one step of one call

  /** What one step does: at most one guarded repository update, possibly new
      external work, and the call's next position. */
  datatype Effect = Effect(
    update: Update,
    tasks: map<nat, TaskRecord>,
    deliveries: map<string, DeliveryState>,
    call: Call)

  function Quiet(w: World, call: Call): Effect {
    Effect(NoUpdate, w.tasks, w.deliveries, call)
  }

  function Updating(w: World, update: Update, call: Call): Effect {
    Effect(update, w.tasks, w.deliveries, call)
  }

  function Resume(back: Back): Call {
    match back
    case ToMirror(iteration, todo) => Mirror(iteration, todo, true)
    case ToLoop(iteration) => Load(iteration + 1)
    case ToEnd => Done
  }

  function Listed(listing: seq<string>, rows: map<string, Row>): seq<Item> {
    if listing == [] then []
    else (if listing[0] in rows then [Item(listing[0], rows[listing[0]])] else []) + Listed(listing[1..], rows)
  }

  function MirrorStep(p: Plan, w: World, iteration: nat, todo: seq<Item>, changed: bool): Effect {
    if todo == [] then Quiet(w, if changed then Load(iteration + 1) else Reload(iteration))
    else
      var item, rest := todo[0], todo[1..];
      if !item.row.status.Queued? && !item.row.status.Running? then Quiet(w, Mirror(iteration, rest, changed))
      else if Stale(p, w.now, item) then Quiet(w, Execute(item, ToMirror(iteration, rest)))
      else
        var seen := Mirrored(p, w.now, w.tasks, w.deliveries, item);
        if seen.None? then Quiet(w, Mirror(iteration, rest, changed))
        else Quiet(w, MirrorWrite(iteration, item.(row := seen.value), item.row.status, rest, changed))
  }

  ghost predicate TaskExists(tasks: map<nat, TaskRecord>, node: string) {
    exists t :: t in tasks && tasks[t].node == node
  }

  /** Creating a task is idempotent per node: the existing one is returned. */
  ghost function TaskFor(tasks: map<nat, TaskRecord>, node: string, newId: nat): nat {
    if TaskExists(tasks, node) then var t :| t in tasks && tasks[t].node == node; t else newId
  }

  function Refuse(w: World, item: Item, back: Back): Effect {
    Quiet(w, FailWrite(item.(row := item.row.(status := Failed)), back))
  }

  ghost function DispatchTask(w: World, item: Item, back: Back, dispatch: Dispatch): Effect {
    if dispatch.Refused? || (!TaskExists(w.tasks, item.node) && dispatch.newId in w.tasks) then Refuse(w, item, back)
    else
      var t := TaskFor(w.tasks, item.node, dispatch.newId);
      var record := TaskRecord(item.node, TaskState(TaskPending, 0, false));
      Effect(NoUpdate, if t in w.tasks then w.tasks else w.tasks[t := record], w.deliveries,
             Write(item.(row := item.row.(status := Queued, task := Some(t))), back))
  }

  /** A delivery's id is derived from the execution and the node, so the node names it. */
  function DispatchWebhook(w: World, item: Item, back: Back, dispatch: Dispatch): Effect {
    if dispatch.Refused? then Refuse(w, item, back)
    else
      Effect(NoUpdate, w.tasks,
             if item.node in w.deliveries then w.deliveries
             else w.deliveries[item.node := DeliveryState(DeliveryPending, 0)],
             Write(item.(row := item.row.(status := Queued, delivery := Some(item.node))), back))
  }

  /** What a condition node answers for this execution's input. */
  function Answer(p: Plan, node: string): bool {
    var config := ConfigOf(p.def, node);
    Decoded(Condition, config) && Evaluate(config, p.input)
  }

  /** The output a node computes on the spot: a trigger passes the input on, if there
      is one. */
  function Computed(p: Plan, node: string): Option<Output> {
    match KindOf(p.def, node)
    case Trigger => if p.input.Some? then Some(InputEcho) else None
    case Condition => Some(ConditionResult(Answer(p, node)))
    case _ => None
  }

  ghost function ExecuteNode(w: World, item: Item, kind: NodeKind, config: Config, computed: Option<Output>, back: Back,
                             dispatch: Dispatch): Effect
  {
    var row := item.row.(updatedAt := w.now);
    if !Decoded(kind, config) then Refuse(w, item.(row := row), back)
    else match kind
      case Trigger => Quiet(w, Write(item.(row := row.(status := Succeeded, output := computed)), back))
      case Condition => Quiet(w, Write(item.(row := row.(status := Succeeded, output := computed)), back))
      case Delay =>
        var due := w.now + config.durationSeconds;
        Quiet(w, Write(item.(row := row.(status := Queued, availableAt := Some(due))), back))
      case Task => DispatchTask(w, item.(row := row), back, dispatch)
      case Webhook => DispatchWebhook(w, item.(row := row), back, dispatch)
      case Unsupported => Refuse(w, item.(row := row), back)
  }

  ghost function ExecuteStep(p: Plan, w: World, item: Item, back: Back, dispatch: Dispatch): Effect {
    ExecuteNode(w, item, KindOf(p.def, item.node), ConfigOf(p.def, item.node), Computed(p, item.node), back, dispatch)
  }

  predicate AnyFailed(rows: map<string, Row>) {
    exists n :: n in rows && rows[n].status.Failed?
  }

  predicate AllSettled(rows: map<string, Row>) {
    forall n | n in rows :: Settled(rows[n].status)
  }

  /** There is a row for every node, and all are settled. */
  predicate CompleteRows(d: Definition, rows: map<string, Row>) {
    |rows| == |d.nodes| && AllSettled(rows)
  }

  function OutputsOf(rows: map<string, Row>): Outputs {
    map n | n in rows && rows[n].output.Some? :: rows[n].output.value
  }

  /** A scheduling call looks at one definition node, judged by its snapshot, and
      tries to claim it in the stored rows. */
  function ScheduleNode(w: World, iteration: nat, node: string, ready: Readiness, next: Call): Effect {
    if ready.Broken? then Quiet(w, Done)
    else if ready.NotReady? || !CanClaim(w.store, node) then Quiet(w, next)
    else
      var claimed := Item(node, ClaimedRow(w.store.rows[node], w.now));
      Updating(w, ClaimNode(node),
               if ready.Runnable? then Execute(claimed, ToLoop(iteration)) else SkipWrite(iteration, claimed))
  }

  function Judged(p: Plan, snapshot: map<string, Row>, node: string): Readiness {
    if node !in snapshot || !snapshot[node].status.Pending? then NotReady else ReadinessOf(p.def, snapshot, node)
  }

  function ScheduleStep(p: Plan, w: World, iteration: nat, snapshot: map<string, Row>, index: nat): Effect {
    if index >= |p.def.nodes| then
      Quiet(w, if CompleteRows(p.def, snapshot) then Complete(OutputsOf(snapshot)) else Done)
    else
      var node := p.def.nodes[index].id;
      ScheduleNode(w, iteration, node, Judged(p, snapshot, node), Schedule(iteration, snapshot, index + 1))
  }

  ghost function StepCall(p: Plan, w: World, call: Call, dispatch: Dispatch): Effect {
    match call
    case Fetch =>
      Quiet(w, if Finished(w.store.status) then Done else if w.store.status.ExecPending? then Start else Load(0))
    case Start => Updating(w, StartExecution, Load(0))
    case Load(iteration) =>
      Quiet(w, if iteration > |p.def.nodes| + 1 then Done else Mirror(iteration, Listed(p.listing, w.store.rows), false))
    case Mirror(iteration, todo, changed) => MirrorStep(p, w, iteration, todo, changed)
    case MirrorWrite(iteration, item, expected, todo, changed) =>
      Updating(w, SwapNode(item, expected),
               Mirror(iteration, todo, changed || CanSwap(w.store, item.node, expected)))
    case Reload(iteration) =>
      Quiet(w, if AnyFailed(w.store.rows) then FailExecution(ToEnd) else Schedule(iteration, w.store.rows, 0))
    case Schedule(iteration, snapshot, index) => ScheduleStep(p, w, iteration, snapshot, index)
    case SkipWrite(iteration, item) =>
      Updating(w, SwapNode(Item(item.node, item.row.(status := Skipped, updatedAt := w.now)), Running), Load(iteration + 1))
    case Execute(item, back) => ExecuteStep(p, w, item, back, dispatch)
    case Write(item, back) => Updating(w, SwapNode(item, Running), Resume(back))
    case FailWrite(item, back) => Updating(w, SwapNode(item, Running), FailExecution(back))
    case FailExecution(back) => Updating(w, Fail, Resume(back))
    case Complete(outputs) => Updating(w, Succeed(outputs), Done)
    case Done => Quiet(w, Done)
  }

  // ----- runs

  ghost function Next(p: Plan, w: World, e: Event): World {
    match e
    case Begin(id) => if id in w.calls then w else w.(calls := w.calls[id := Fetch])
    case Step(id, dispatch) =>
      if id !in w.calls then w
      else
        var f := StepCall(p, w, w.calls[id], dispatch);
        World(w.now, Apply(w.store, f.update, w.now), f.tasks, f.deliveries, w.calls[id := f.call])
    case Cancel => w.(store := Apply(w.store, CancelAll, w.now))
    case Tick(seconds) => w.(now := w.now + seconds)
    case TaskMoves(t, state) =>
      if t in w.tasks then w.(tasks := w.tasks[t := w.tasks[t].(state := state)]) else w
    case DeliveryMoves(v, state) =>
      if v in w.deliveries then w.(deliveries := w.deliveries[v := state]) else w
  }

  ghost function Run(p: Plan, w: World, es: seq<Event>): World {
    if es == [] then w else Next(p, Run(p, w, es[..|es| - 1]), es[|es| - 1])
  }

  function Initial(p: Plan, now: int): World {
    World(now, Store(ExecPending, map n | n in Ids(p.def) :: FreshRow(now), None), map[], map[], map[])
  }
}
