/** Mirroring shows the work it looks at: status for status, attempt for attempt, and
    once it has, there is nothing more to store. */
module ExecutionMirrors {
  import opened Common
  import opened ExecutionStore
  import opened ExecutionSteps
  import opened ExecutionCalls

  /** The row of a node says of its task what is so. */
  predicate ShowsTask(row: Row, t: nat, state: TaskState) {
    && row.task == Some(t) && row.attempt == state.attempts
    && (row.status.Queued? <==> state.status.TaskPending?)
    && (row.status.Running? <==> state.status.TaskProcessing?)
    && (row.status.Succeeded? <==> state.status.TaskCompleted?)
    && (row.status.Failed? <==> state.status.TaskFailed? || state.status.TaskDeadLetter? || state.status.TaskCancelled?)
    && (row.status.Succeeded? ==> row.output == Some(TaskReference(t)))
  }

  predicate ShowsDelivery(row: Row, v: string, state: DeliveryState) {
    && row.delivery == Some(v) && row.attempt == state.attempts
    && (row.status.Queued? <==> state.status.DeliveryPending? || state.status.Retrying?)
    && (row.status.Running? <==> state.status.Delivering?)
    && (row.status.Succeeded? <==> state.status.Delivered?)
    && (row.status.Failed? <==> state.status.DeliveryFailed?)
    && (row.status.Succeeded? ==> row.output == Some(DeliveryReference(v)))
  }

  /** The call looks at the next listed row, and stores what it decided to. */
  ghost function Looked(p: Plan, w: World, id: nat): World {
    var v := Next(p, w, Step(id, Refused));
    if id in v.calls && v.calls[id].MirrorWrite? then Next(p, v, Step(id, Refused)) else v
  }

  /** A mirroring call comes to a row in flight that is still the stored one. */
  predicate ComesTo(w: World, id: nat, iteration: nat, item: Item, rest: seq<Item>, changed: bool) {
    && id in w.calls && w.calls[id] == Mirror(iteration, [item] + rest, changed)
    && Current(w, item) && (item.row.status.Queued? || item.row.status.Running?)
  }

  /** Nothing but this row has changed, and the call knows whether it has. */
  ghost predicate OnlyRow(w: World, v: World, id: nat, iteration: nat, item: Item, rest: seq<Item>, changed: bool) {
    && item.node in v.store.rows && v.store == w.store.(rows := w.store.rows[item.node := v.store.rows[item.node]])
    && v == w.(store := v.store, calls := w.calls[id := Mirror(iteration, rest, changed || v.store.rows[item.node] != item.row)])
    && var row := v.store.rows[item.node]; row.task == item.row.task && row.delivery == item.row.delivery && row.availableAt == item.row.availableAt
  }

  /** Undisturbed, the row comes to show its task; it is stored anew exactly if it did not. */
  lemma TaskMirrored(p: Plan, w: World, id: nat, iteration: nat, item: Item, rest: seq<Item>, changed: bool, t: nat)
    requires ComesTo(w, id, iteration, item, rest, changed) && item.row.task == Some(t) && t in w.tasks && !w.tasks[t].state.deleted
    ensures var v := Looked(p, w, id);
            && OnlyRow(w, v, id, iteration, item, rest, changed)
            && ShowsTask(v.store.rows[item.node], t, w.tasks[t].state)
            && (v.store.rows[item.node] == item.row <==> ShowsTask(item.row, t, w.tasks[t].state))
  {
    assert ([item] + rest)[1..] == rest;
    var v := Next(p, w, Step(id, Refused));
    assert v.store == w.store;
    if !v.calls[id].MirrorWrite? {
      assert w.store.rows[item.node := item.row] == w.store.rows;
    }
  }

  lemma DeliveryMirrored(p: Plan, w: World, id: nat, iteration: nat, item: Item, rest: seq<Item>, changed: bool, d: string)
    requires ComesTo(w, id, iteration, item, rest, changed) && item.row.task.None? && item.row.delivery == Some(d) && d in w.deliveries
    ensures var v := Looked(p, w, id);
            && OnlyRow(w, v, id, iteration, item, rest, changed)
            && ShowsDelivery(v.store.rows[item.node], d, w.deliveries[d])
            && (v.store.rows[item.node] == item.row <==> ShowsDelivery(item.row, d, w.deliveries[d]))
  {
    assert ([item] + rest)[1..] == rest;
    var v := Next(p, w, Step(id, Refused));
    assert v.store == w.store;
    if !v.calls[id].MirrorWrite? {
      assert w.store.rows[item.node := item.row] == w.store.rows;
    }
  }

  /** A deleted task, and work that is not there, is passed over. */
  lemma MissingPassedOver(p: Plan, w: World, id: nat, iteration: nat, item: Item, rest: seq<Item>, changed: bool)
    requires ComesTo(w, id, iteration, item, rest, changed)
    requires || (item.row.task.Some? && (item.row.task.value in w.tasks ==> w.tasks[item.row.task.value].state.deleted))
             || (item.row.task.None? && item.row.delivery.Some? && item.row.delivery.value !in w.deliveries)
    ensures Looked(p, w, id) == w.(calls := w.calls[id := Mirror(iteration, rest, changed)])
  {
    assert ([item] + rest)[1..] == rest;
  }

  /** A row that shows its task is passed over by every call, at any later time. */
  lemma MirroredAgain(p: Plan, w: World, id: nat, iteration: nat, item: Item, rest: seq<Item>, changed: bool, t: nat)
    requires id in w.calls && w.calls[id] == Mirror(iteration, [item] + rest, changed)
    requires t in w.tasks && ShowsTask(item.row, t, w.tasks[t].state)
    ensures Next(p, w, Step(id, Refused)) == w.(calls := w.calls[id := Mirror(iteration, rest, changed)])
  {
    assert ([item] + rest)[1..] == rest;
  }

  lemma DeliveryMirroredAgain(p: Plan, w: World, id: nat, iteration: nat, item: Item, rest: seq<Item>, changed: bool, d: string)
    requires id in w.calls && w.calls[id] == Mirror(iteration, [item] + rest, changed)
    requires item.row.task.None? && d in w.deliveries && ShowsDelivery(item.row, d, w.deliveries[d])
    ensures Next(p, w, Step(id, Refused)) == w.(calls := w.calls[id := Mirror(iteration, rest, changed)])
  {
    assert ([item] + rest)[1..] == rest;
  }

  // ----- work that a call creates

  lemma DispatchIsNew(w: World, item: Item, back: Back, dispatch: Dispatch)
    ensures var f := DispatchTask(w, item, back, dispatch);
            && f.deliveries == w.deliveries && (forall t | t in w.tasks :: t in f.tasks && f.tasks[t] == w.tasks[t])
            && (forall t | t in f.tasks && t !in w.tasks :: f.tasks[t] == TaskRecord(item.node, TaskState(TaskPending, 0, false)))
    ensures var f := DispatchWebhook(w, item, back, dispatch);
            && f.tasks == w.tasks && (forall v | v in w.deliveries :: v in f.deliveries && f.deliveries[v] == w.deliveries[v])
            && (forall v | v in f.deliveries && v !in w.deliveries :: v == item.node && f.deliveries[v] == DeliveryState(DeliveryPending, 0))
  {
  }

  /** A step leaves the work there is as it is, and what it adds waits for its first
      attempt. */
  ghost predicate OnlyAdds(w: World, v: World) {
    && (forall t | t in w.tasks :: t in v.tasks && v.tasks[t] == w.tasks[t])
    && (forall d | d in w.deliveries :: d in v.deliveries && v.deliveries[d] == w.deliveries[d])
    && (forall t | t in v.tasks && t !in w.tasks :: v.tasks[t].state == TaskState(TaskPending, 0, false))
    && (forall d | d in v.deliveries && d !in w.deliveries :: v.deliveries[d] == DeliveryState(DeliveryPending, 0))
  }

  lemma ExecuteWork(p: Plan, w: World, item: Item, back: Back, dispatch: Dispatch)
    ensures var f, now := ExecuteStep(p, w, item, back, dispatch), item.(row := item.row.(updatedAt := w.now));
            || (f.tasks == w.tasks && f.deliveries == w.deliveries)
            || f == DispatchTask(w, now, back, dispatch) || f == DispatchWebhook(w, now, back, dispatch)
  {
  }

  lemma ExecuteOnlyAdds(p: Plan, w: World, id: nat, dispatch: Dispatch)
    requires id in w.calls && w.calls[id].Execute?
    ensures OnlyAdds(w, Next(p, w, Step(id, dispatch)))
  {
    var item, back := w.calls[id].item, w.calls[id].back;
    ExecuteWork(p, w, item, back, dispatch);
    DispatchIsNew(w, item.(row := item.row.(updatedAt := w.now)), back, dispatch);
  }

  lemma StepOnlyAdds(p: Plan, w: World, id: nat, dispatch: Dispatch)
    ensures OnlyAdds(w, Next(p, w, Step(id, dispatch)))
  {
    if id in w.calls {
      var c := w.calls[id];
      if c.Execute? {
        ExecuteOnlyAdds(p, w, id, dispatch);
      } else if c.Schedule? {
        ScheduleEffect(p, w, c.iteration, c.snapshot, c.index);
      } else if c.Mirror? {
        MirrorQuiet(p, w, id, dispatch);
      }
    }
  }
}
