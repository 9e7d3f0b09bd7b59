/** A delay waits: its resume time is the clock at which its node was executed plus the
    duration of its config, and so is later than its claim by at least as much. */
module ExecutionDelays {
  import opened Common
  import opened Workflow
  import opened ExecutionStore
  import opened ExecutionSteps
  import opened ExecutionSafety
  import opened ExecutionLinks
  import opened ExecutionRuns
  import opened ExecutionTruth

  // ----- what happened when

  /** The event is a call executing its claim on the node. */
  predicate Executes(w: World, e: Event, node: string) {
    e.Step? && e.call in w.calls && w.calls[e.call].Execute? && w.calls[e.call].item.node == node
  }

  ghost predicate Claims(p: Plan, w: World, e: Event, node: string) {
    UpdateOf(p, w, e) == ClaimNode(node) && CanClaim(w.store, node)
  }

  /** Some event executed the node when the clock showed this time. */
  ghost predicate ExecutedAt(p: Plan, w: World, es: seq<Event>, node: string, time: int) {
    es != [] &&
    var before := Run(p, w, es[..|es| - 1]);
    ExecutedAt(p, w, es[..|es| - 1], node, time) || (Executes(before, es[|es| - 1], node) && before.now == time)
  }

  /** Every claim on the node was made when the clock showed this time or less. */
  ghost predicate ClaimedBy(p: Plan, w: World, es: seq<Event>, node: string, time: int) {
    es == [] ||
    var before := Run(p, w, es[..|es| - 1]);
    ClaimedBy(p, w, es[..|es| - 1], node, time) && (Claims(p, before, es[|es| - 1], node) ==> before.now <= time)
  }

  // ----- the times in the rows

  /** Nodes and the times they were executed at. */
  type History = iset<(string, int)>

  ghost function HistoryOf(p: Plan, w: World, es: seq<Event>): History {
    iset n: string, t: int | ExecutedAt(p, w, es, n, t) :: (n, t)
  }

  /** A due time is one duration after an execution; a queued delay shows which, and a
      succeeded one was resumed no earlier. */
  ghost predicate RowWaits(kind: NodeKind, config: Config, h: History, now: int, node: string, row: Row) {
    && LinksSuit(kind, row)
    && (kind.Delay? ==>
          && (row.availableAt.Some? ==> config.DelayConfig? && (node, row.availableAt.value - config.durationSeconds) in h)
          && (row.status.Queued? ==> config.DelayConfig? && row.availableAt == Some(row.updatedAt + config.durationSeconds))
          && (row.status.Succeeded? ==>
                && row.availableAt.Some? && row.output.Some? && row.output.value.ResumedAt?
                && row.availableAt.value <= row.output.value.time <= now))
  }

  ghost predicate Waits(p: Plan, h: History, now: int, item: Item) {
    RowWaits(KindOf(p.def, item.node), ConfigOf(p.def, item.node), h, now, item.node, item.row)
  }

  lemma WaitsLater(p: Plan, h: History, g: History, now: int, later: int, item: Item)
    requires Waits(p, h, now, item) && h <= g && now <= later
    ensures Waits(p, g, later, item)
  {
  }

  lemma MirrorWaits(p: Plan, w: World, h: History, iteration: nat, todo: seq<Item>, changed: bool, item: Item)
    requires forall it | it in todo :: Waits(p, h, w.now, it)
    requires Holds(MirrorStep(p, w, iteration, todo, changed).call, item)
    ensures Waits(p, h, w.now, item)
  {
    assert todo[0] in todo;
  }

  lemma DispatchWaits(w: World, h: History, it: Item, kind: NodeKind, config: Config, back: Back, dispatch: Dispatch)
    requires RowWaits(kind, config, h, w.now, it.node, it.row) && !kind.Delay?
    ensures kind.Task? ==> RowWaits(kind, config, h, w.now, it.node, DispatchTask(w, it, back, dispatch).call.item.row)
    ensures kind.Webhook? ==> RowWaits(kind, config, h, w.now, it.node, DispatchWebhook(w, it, back, dispatch).call.item.row)
  {
  }

  lemma ExecuteWaits(w: World, h: History, it: Item, kind: NodeKind, config: Config, computed: Option<Output>, back: Back, dispatch: Dispatch)
    requires RowWaits(kind, config, h, w.now, it.node, it.row) && it.row.status.Running? && (it.node, w.now) in h
    ensures var f := ExecuteNode(w, it, kind, config, computed, back, dispatch);
            && (f.call.Write? || f.call.FailWrite?) && f.call.back == back && f.call.item.node == it.node
            && RowWaits(kind, config, h, w.now, it.node, f.call.item.row)
  {
    if kind.Task? || kind.Webhook? {
      DispatchWaits(w, h, it.(row := it.row.(updatedAt := w.now)), kind, config, back, dispatch);
    }
  }

  ghost predicate AllWait(p: Plan, w: World, h: History) {
    && (forall n | n in w.store.rows :: Waits(p, h, w.now, Item(n, w.store.rows[n])))
    && (forall id, item | id in w.calls && Holds(w.calls[id], item) :: Waits(p, h, w.now, item))
  }

  lemma ExecuteStepWaits(p: Plan, w: World, h: History, call: Call, dispatch: Dispatch, item: Item)
    requires call.Execute? && CallFits(p, w.store, call) && (call.item.node, w.now) in h
    requires forall held | Holds(call, held) :: Waits(p, h, w.now, held)
    requires Holds(StepCall(p, w, call, dispatch).call, item)
    ensures Waits(p, h, w.now, item)
  {
    var it, f := call.item, StepCall(p, w, call, dispatch);
    assert Holds(call, it);
    ExecuteWaits(w, h, it, KindOf(p.def, it.node), ConfigOf(p.def, it.node), Computed(p, it.node), call.back, dispatch);
    if item != f.call.item {
      assert Holds(call, item);
    }
  }

  lemma ScheduleWaits(p: Plan, w: World, h: History, iteration: nat, snapshot: map<string, Row>, index: nat, item: Item)
    requires forall n | n in w.store.rows :: Waits(p, h, w.now, Item(n, w.store.rows[n]))
    requires forall n | n in snapshot :: Waits(p, h, w.now, Item(n, snapshot[n]))
    requires Holds(ScheduleStep(p, w, iteration, snapshot, index).call, item)
    ensures Waits(p, h, w.now, item)
  {
    var node := p.def.nodes[index].id;
    if node in w.store.rows {
      assert Waits(p, h, w.now, Item(node, w.store.rows[node]));
    }
    assert Holds(Schedule(iteration, snapshot, index + 1), item) ==> item == Item(item.node, snapshot[item.node]);
  }

  lemma StepWaits(p: Plan, w: World, h: History, id: nat, dispatch: Dispatch, item: Item)
    requires Consistent(p, w) && AllWait(p, w, h) && id in w.calls
    requires w.calls[id].Execute? ==> (w.calls[id].item.node, w.now) in h
    requires Holds(StepCall(p, w, w.calls[id], dispatch).call, item)
    ensures Waits(p, h, w.now, item)
  {
    var call := w.calls[id];
    assert forall held | Holds(call, held) :: Waits(p, h, w.now, held);
    match call
    case Load(_) => ListedStored(p.listing, w.store.rows, item);
    case Mirror(iteration, todo, changed) =>
      assert forall i | i in todo :: Holds(call, i);
      MirrorWaits(p, w, h, iteration, todo, changed, item);
    case Execute(_, _) => ExecuteStepWaits(p, w, h, call, dispatch, item);
    case Schedule(iteration, snapshot, index) =>
      assert forall n | n in snapshot :: Holds(call, Item(n, snapshot[n]));
      ScheduleWaits(p, w, h, iteration, snapshot, index, item);
    case Reload(_) => assert item == Item(item.node, w.store.rows[item.node]);
    case _ => StepHoldsNothingNew(p, w, call, dispatch, item);
  }

  /** What is stored is a held row, skipped perhaps. */
  lemma UpdateWaits(p: Plan, w: World, h: History, call: Call, dispatch: Dispatch)
    requires forall held | Holds(call, held) :: Waits(p, h, w.now, held)
    ensures var u := StepCall(p, w, call, dispatch).update; u.SwapNode? ==> Waits(p, h, w.now, u.item)
  {
    match call
    case MirrorWrite(_, item, _, _, _) => assert Holds(call, item);
    case SkipWrite(_, item) => assert Holds(call, item);
    case Write(item, _) => assert Holds(call, item);
    case FailWrite(item, _) => assert Holds(call, item);
    case _ =>
  }

  lemma ApplyWaits(p: Plan, h: History, s: Store, u: Update, now: int, n: string)
    requires n in s.rows && Waits(p, h, now, Item(n, s.rows[n]))
    requires u.SwapNode? ==> Waits(p, h, now, u.item)
    ensures var t := Apply(s, u, now); n in t.rows && Waits(p, h, now, Item(n, t.rows[n]))
  {
  }

  lemma NextRowWaits(p: Plan, w: World, h: History, e: Event, n: string)
    requires Consistent(p, w) && AllWait(p, w, h) && n in w.store.rows
    ensures n in Next(p, w, e).store.rows && Waits(p, h, w.now, Item(n, Next(p, w, e).store.rows[n]))
  {
    UpdateOfFits(p, w, e);
    if e.Step? && e.call in w.calls {
      assert forall held | Holds(w.calls[e.call], held) :: Waits(p, h, w.now, held);
      UpdateWaits(p, w, h, w.calls[e.call], e.dispatch);
    }
    ApplyWaits(p, h, w.store, UpdateOf(p, w, e), w.now, n);
  }

  lemma NextWaits(p: Plan, w: World, h: History, g: History, e: Event)
    requires Consistent(p, w) && AllWait(p, w, h) && h <= g
    requires forall n | Executes(w, e, n) :: (n, w.now) in g
    ensures AllWait(p, Next(p, w, e), g)
  {
    var v := Next(p, w, e);
    forall item | Waits(p, h, w.now, item)
      ensures Waits(p, g, w.now, item) && Waits(p, g, v.now, item)
    {
      WaitsLater(p, h, g, w.now, w.now, item);
      WaitsLater(p, h, g, w.now, v.now, item);
    }
    UpdateOfFits(p, w, e);
    forall n | n in v.store.rows
      ensures Waits(p, g, v.now, Item(n, v.store.rows[n]))
    {
      NextRowWaits(p, w, h, e, n);
    }
    forall id, item | id in v.calls && Holds(v.calls[id], item)
      ensures Waits(p, g, v.now, item)
    {
      if e.Step? && e.call == id {
        assert w.calls[id].Execute? ==> Executes(w, e, w.calls[id].item.node);
        StepWaits(p, w, g, id, e.dispatch, item);
      } else {
        assert id in w.calls && Holds(w.calls[id], item);
      }
    }
  }

  lemma {:induction false} RunWaits(p: Plan, now: int, es: seq<Event>)
    ensures AllWait(p, Run(p, Initial(p, now), es), HistoryOf(p, Initial(p, now), es))
  {
    if es != [] {
      var before, last := es[..|es| - 1], es[|es| - 1];
      var w := Run(p, Initial(p, now), before);
      RunWaits(p, now, before);
      InitialInvariant(p, now);
      RunInvariant(p, Initial(p, now), before);
      var h, g := HistoryOf(p, Initial(p, now), before), HistoryOf(p, Initial(p, now), es);
      forall n | Executes(w, last, n)
        ensures (n, w.now) in g
      {
        assert ExecutedAt(p, Initial(p, now), es, n, w.now);
      }
      NextWaits(p, w, h, g, last);
    }
  }

  // ----- executions come after the claim

  lemma {:induction false} ClaimedByNow(p: Plan, now: int, es: seq<Event>, node: string, time: int)
    requires Run(p, Initial(p, now), es).now <= time
    ensures ClaimedBy(p, Initial(p, now), es, node, time)
  {
    if es != [] {
      ClaimedByNow(p, now, es[..|es| - 1], node, time);
    }
  }

  /** A call about to execute a node holds a claim that was made. */
  predicate ClaimStands(s: Store, call: Call) {
    call.Execute? ==> call.item.node in s.rows && !s.rows[call.item.node].status.Pending?
  }

  lemma StepStands(p: Plan, w: World, call: Call, dispatch: Dispatch)
    requires CallFits(p, w.store, call)
    ensures var f := StepCall(p, w, call, dispatch); ClaimStands(Apply(w.store, f.update, w.now), f.call)
  {
    match call
    case Mirror(iteration, todo, changed) =>
      if todo != [] {
        assert CopyFits(p, w.store, todo[0]);
      }
    case Execute(item, back) =>
      ExecuteNodeFits(p, w, item, KindOf(p.def, item.node), ConfigOf(p.def, item.node), Computed(p, item.node), back, dispatch);
      assert !StepCall(p, w, call, dispatch).call.Execute?;
    case _ =>
  }

  ghost predicate ClaimsStand(w: World) {
    forall id | id in w.calls :: ClaimStands(w.store, w.calls[id])
  }

  lemma {:induction false} RunStands(p: Plan, now: int, es: seq<Event>)
    ensures ClaimsStand(Run(p, Initial(p, now), es))
  {
    if es != [] {
      var w, e := Run(p, Initial(p, now), es[..|es| - 1]), es[|es| - 1];
      RunStands(p, now, es[..|es| - 1]);
      InitialInvariant(p, now);
      RunInvariant(p, Initial(p, now), es[..|es| - 1]);
      NextStands(p, w, e);
    }
  }

  lemma NextStands(p: Plan, w: World, e: Event)
    requires Consistent(p, w) && ClaimsStand(w)
    ensures ClaimsStand(Next(p, w, e))
  {
    var v := Next(p, w, e);
    UpdateOfFits(p, w, e);
    forall id | id in v.calls
      ensures ClaimStands(v.store, v.calls[id])
    {
      if e.Step? && e.call == id {
        assert CallFits(p, w.store, w.calls[id]);
        StepStands(p, w, w.calls[id], e.dispatch);
      } else if v.calls[id].Execute? {
        assert ClaimStands(w.store, w.calls[id]);
        assert RowEvolves(w.store.rows[v.calls[id].item.node], v.store.rows[v.calls[id].item.node]);
      }
    }
  }

  lemma NotPendingNext(p: Plan, w: World, e: Event, node: string)
    requires Consistent(p, w) && node in w.store.rows && !w.store.rows[node].status.Pending?
    ensures var v := Next(p, w, e); node in v.store.rows && !v.store.rows[node].status.Pending? && w.now <= v.now
    ensures !Claims(p, w, e, node)
  {
    UpdateOfFits(p, w, e);
    assert RowEvolves(w.store.rows[node], Next(p, w, e).store.rows[node]);
  }

  /** No claim is made after an execution: the row never returns to pending. */
  lemma {:induction false} ExecutedAfterClaim(p: Plan, now: int, es: seq<Event>, node: string, time: int)
    requires ExecutedAt(p, Initial(p, now), es, node, time)
    ensures var w := Run(p, Initial(p, now), es); node in w.store.rows && !w.store.rows[node].status.Pending? && time <= w.now
    ensures ClaimedBy(p, Initial(p, now), es, node, time)
  {
    var before, e := es[..|es| - 1], es[|es| - 1];
    var w := Run(p, Initial(p, now), before);
    InitialInvariant(p, now);
    RunInvariant(p, Initial(p, now), before);
    if ExecutedAt(p, Initial(p, now), before, node, time) {
      ExecutedAfterClaim(p, now, before, node, time);
    } else {
      RunStands(p, now, before);
      assert ClaimStands(w.store, w.calls[e.call]);
      ClaimedByNow(p, now, before, node, time);
    }
    NotPendingNext(p, w, e, node);
  }

  /** What a run's rows say about delays, and what their history means. */
  lemma DelayRow(p: Plan, now: int, es: seq<Event>, node: string)
    requires KindOf(p.def, node).Delay? && node in Run(p, Initial(p, now), es).store.rows
    ensures var w := Run(p, Initial(p, now), es);
            Waits(p, HistoryOf(p, Initial(p, now), es), w.now, Item(node, w.store.rows[node]))
  {
    RunWaits(p, now, es);
  }

  lemma InHistory(p: Plan, now: int, es: seq<Event>, node: string, time: int)
    requires (node, time) in HistoryOf(p, Initial(p, now), es)
    ensures ExecutedAt(p, Initial(p, now), es, node, time) && ClaimedBy(p, Initial(p, now), es, node, time)
  {
    ExecutedAfterClaim(p, now, es, node, time);
  }

  // ----- the results

  /** In every run a queued delay is due exactly its duration after the clock at which it
      was executed and queued. */
  lemma QueuedDelayIsDue(p: Plan, now: int, es: seq<Event>, node: string) returns (executed: int)
    requires KindOf(p.def, node).Delay?
    requires var rows := Run(p, Initial(p, now), es).store.rows; node in rows && rows[node].status.Queued?
    ensures ExecutedAt(p, Initial(p, now), es, node, executed) && ClaimedBy(p, Initial(p, now), es, node, executed)
    ensures ConfigOf(p.def, node).DelayConfig?
    ensures var row := Run(p, Initial(p, now), es).store.rows[node];
            row.updatedAt == executed && row.availableAt == Some(executed + ConfigOf(p.def, node).durationSeconds)
  {
    DelayRow(p, now, es, node);
    var row := Run(p, Initial(p, now), es).store.rows[node];
    executed := row.availableAt.value - ConfigOf(p.def, node).durationSeconds;
    InHistory(p, now, es, node, executed);
  }

  /** In every run a delay that has succeeded was resumed at a time that has come, and no
      earlier than its duration after it was executed, which was after every claim on it. */
  lemma DelayWaits(p: Plan, now: int, es: seq<Event>, node: string) returns (executed: int, resumed: int)
    requires KindOf(p.def, node).Delay?
    requires var rows := Run(p, Initial(p, now), es).store.rows; node in rows && rows[node].status.Succeeded?
    ensures ConfigOf(p.def, node).DelayConfig?
    ensures ExecutedAt(p, Initial(p, now), es, node, executed) && ClaimedBy(p, Initial(p, now), es, node, executed)
    ensures Run(p, Initial(p, now), es).store.rows[node].output == Some(ResumedAt(resumed))
    ensures executed + ConfigOf(p.def, node).durationSeconds <= resumed <= Run(p, Initial(p, now), es).now
  {
    DelayRow(p, now, es, node);
    var row := Run(p, Initial(p, now), es).store.rows[node];
    executed := row.availableAt.value - ConfigOf(p.def, node).durationSeconds;
    resumed := row.output.value.time;
    InHistory(p, now, es, node, executed);
  }

  /** And a mirroring call resumes a queued delay if and only if that time has come. */
  lemma ResumedIffDue(p: Plan, w: World, id: nat, iteration: nat, item: Item, rest: seq<Item>, changed: bool, dispatch: Dispatch)
    requires id in w.calls && w.calls[id] == Mirror(iteration, [item] + rest, changed)
    requires KindOf(p.def, item.node).Delay? && item.row.status.Queued? && item.row.task.None? && item.row.delivery.None?
    requires item.row.availableAt.Some?
    ensures var next := Next(p, w, Step(id, dispatch)).calls[id];
            if item.row.availableAt.value <= w.now
            then next.MirrorWrite? && next.item.node == item.node && next.item.row.status.Succeeded?
                 && next.item.row.output == Some(ResumedAt(w.now)) && next.expected == Queued
            else next == Mirror(iteration, rest, changed)
  {
    assert ([item] + rest)[1..] == rest;
  }
}
