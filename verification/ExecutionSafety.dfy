/** What holds in every run of the executor, whatever calls are in flight and
    however stale their copies are. */
module ExecutionSafety {
  import opened Common
  import opened Workflow
  import opened ExecutionStore
  import opened ExecutionSteps

  // ----- rows and local copies

  /** The output a succeeded condition node must carry. */
  predicate Decided(p: Plan, node: string, row: Row) {
    Decoded(Condition, ConfigOf(p.def, node)) && row.output == Some(ConditionResult(Answer(p, node)))
  }

  /** A trigger passes the input on, if there is one. */
  function PassedOn(input: Option<Json>): Option<Output> {
    if input.Some? then Some(InputEcho) else None
  }

  predicate RowFits(p: Plan, node: string, row: Row) {
    && (row.status.Pending? ==>
          row.output.None? && row.task.None? && row.delivery.None? && row.availableAt.None?)
    && (row.status.Succeeded? && KindOf(p.def, node).Condition? ==> Decided(p, node, row))
    && (row.status.Succeeded? && KindOf(p.def, node).Trigger? ==> row.output == PassedOn(p.input))
    && (row.task.Some? ==> KindOf(p.def, node).Task?)
    && (row.delivery.Some? ==> KindOf(p.def, node).Webhook?)
    && (row.availableAt.Some? ==> KindOf(p.def, node).Delay?)
  }

  /** A copy read some time ago: the stored row may only have moved on since. */
  predicate CopyFits(p: Plan, s: Store, item: Item) {
    && item.node in s.rows
    && RowFits(p, item.node, item.row)
    && RowEvolves(item.row, s.rows[item.node])
  }

  predicate CopiesFit(p: Plan, s: Store, items: seq<Item>) {
    forall i | 0 <= i < |items| :: CopyFits(p, s, items[i])
  }

  predicate SnapshotFits(p: Plan, s: Store, snapshot: map<string, Row>) {
    && snapshot.Keys == s.rows.Keys
    && forall n | n in snapshot :: CopyFits(p, s, Item(n, snapshot[n]))
  }

  predicate BackFits(p: Plan, s: Store, back: Back) {
    back.ToMirror? ==> CopiesFit(p, s, back.todo)
  }

  predicate Storable(p: Plan, s: Store, item: Item) {
    && item.node in s.rows && RowFits(p, item.node, item.row)
    && !item.row.status.Pending? && !item.row.status.Cancelled?
  }

  predicate WriteFits(p: Plan, s: Store, item: Item) {
    Storable(p, s, item) && !item.row.status.Skipped?
  }

  predicate CallFits(p: Plan, s: Store, call: Call) {
    match call
    case Mirror(_, todo, _) => CopiesFit(p, s, todo)
    case MirrorWrite(_, item, expected, todo, _) =>
      WriteFits(p, s, item) && (expected.Queued? || expected.Running?) && CopiesFit(p, s, todo)
    case Schedule(_, snapshot, _) => SnapshotFits(p, s, snapshot)
    case SkipWrite(_, item) => WriteFits(p, s, item) && item.row.status.Running?
    case Execute(item, back) => WriteFits(p, s, item) && item.row.status.Running? && BackFits(p, s, back)
    case Write(item, back) => WriteFits(p, s, item) && BackFits(p, s, back)
    case FailWrite(item, back) => WriteFits(p, s, item) && BackFits(p, s, back)
    case FailExecution(back) => BackFits(p, s, back)
    case Complete(outputs) => AllSettled(s.rows) && outputs == OutputsOf(s.rows)
    case _ => true
  }

  /** The bookkeeping every other invariant rests on. */
  ghost predicate Consistent(p: Plan, w: World) {
    && w.store.rows.Keys == Ids(p.def)
    && (forall n | n in w.store.rows :: RowFits(p, n, w.store.rows[n]))
    && (forall id | id in w.calls :: CallFits(p, w.store, w.calls[id]))
  }

  // ----- stored rows only move forward

  /** What an update may carry, so that applying it keeps the rows consistent. */
  predicate UpdateFits(p: Plan, s: Store, u: Update) {
    match u
    case SwapNode(item, expected) => Storable(p, s, item) && (expected.Queued? || expected.Running?)
    case Succeed(outputs) => AllSettled(s.rows) && outputs == OutputsOf(s.rows)
    case _ => true
  }

  lemma ApplyEvolves(p: Plan, s: Store, u: Update, now: int)
    requires UpdateFits(p, s, u)
    ensures Evolves(s, Apply(s, u, now))
  {
  }

  lemma ApplyRowFits(p: Plan, s: Store, u: Update, now: int, n: string)
    requires UpdateFits(p, s, u) && n in s.rows && RowFits(p, n, s.rows[n])
    ensures n in Apply(s, u, now).rows && RowFits(p, n, Apply(s, u, now).rows[n])
  {
  }

  lemma CopiesFitLater(p: Plan, s: Store, t: Store, items: seq<Item>)
    requires CopiesFit(p, s, items) && Evolves(s, t)
    ensures CopiesFit(p, t, items)
  {
    forall i | 0 <= i < |items|
      ensures CopyFits(p, t, items[i])
    {
      assert CopyFits(p, s, items[i]);
      assert RowEvolves(s.rows[items[i].node], t.rows[items[i].node]);
    }
  }

  lemma SettledFrozen(s: Store, t: Store)
    requires AllSettled(s.rows) && Evolves(s, t)
    ensures t.rows == s.rows
  {
    forall n | n in s.rows
      ensures s.rows[n] == t.rows[n]
    {
      assert RowEvolves(s.rows[n], t.rows[n]);
    }
  }

  lemma SnapshotFitsLater(p: Plan, s: Store, t: Store, snapshot: map<string, Row>)
    requires SnapshotFits(p, s, snapshot) && Evolves(s, t)
    ensures SnapshotFits(p, t, snapshot)
  {
    forall n | n in snapshot
      ensures CopyFits(p, t, Item(n, snapshot[n]))
    {
      assert CopyFits(p, s, Item(n, snapshot[n])) && RowEvolves(s.rows[n], t.rows[n]);
    }
  }

  lemma BackFitsLater(p: Plan, s: Store, t: Store, back: Back)
    requires BackFits(p, s, back) && Evolves(s, t)
    ensures BackFits(p, t, back)
  {
    if back.ToMirror? {
      CopiesFitLater(p, s, t, back.todo);
    }
  }

  /** What a call holds stays usable while others write. */
  lemma CallFitsLater(p: Plan, s: Store, t: Store, call: Call)
    requires CallFits(p, s, call) && Evolves(s, t)
    ensures CallFits(p, t, call)
  {
    match call
    case Mirror(_, todo, _) => CopiesFitLater(p, s, t, todo);
    case MirrorWrite(_, _, _, todo, _) => CopiesFitLater(p, s, t, todo);
    case Schedule(_, snapshot, _) => SnapshotFitsLater(p, s, t, snapshot);
    case Execute(_, back) => BackFitsLater(p, s, t, back);
    case Write(_, back) => BackFitsLater(p, s, t, back);
    case FailWrite(_, back) => BackFitsLater(p, s, t, back);
    case FailExecution(back) => BackFitsLater(p, s, t, back);
    case Complete(_) => SettledFrozen(s, t);
    case _ =>
  }

  // ----- the acting call

  lemma {:induction false} ListedFits(p: Plan, s: Store)
    requires forall n | n in s.rows :: RowFits(p, n, s.rows[n])
    ensures CopiesFit(p, s, Listed(p.listing, s.rows))
    decreases |p.listing|
  {
    if p.listing != [] {
      var rest := p.(listing := p.listing[1..]);
      ListedFits(rest, s);
      assert forall i | 0 <= i < |Listed(rest.listing, s.rows)| :: CopyFits(rest, s, Listed(rest.listing, s.rows)[i]);
    }
  }

  lemma MirrorFits(p: Plan, w: World, iteration: nat, todo: seq<Item>, changed: bool)
    requires CopiesFit(p, w.store, todo)
    ensures CallFits(p, w.store, MirrorStep(p, w, iteration, todo, changed).call)
  {
    if todo != [] {
      assert CopyFits(p, w.store, todo[0]);
      assert CopiesFit(p, w.store, todo[1..]);
    }
  }

  lemma ExecuteNodeFits(p: Plan, w: World, item: Item, kind: NodeKind, config: Config, computed: Option<Output>, back: Back, dispatch: Dispatch)
    requires WriteFits(p, w.store, item) && item.row.status.Running? && BackFits(p, w.store, back)
    requires kind == KindOf(p.def, item.node) && config == ConfigOf(p.def, item.node) && computed == Computed(p, item.node)
    ensures CallFits(p, w.store, ExecuteNode(w, item, kind, config, computed, back, dispatch).call)
    ensures ExecuteNode(w, item, kind, config, computed, back, dispatch).update.NoUpdate?
  {
    if kind.Task? {
      DispatchTaskFits(p, w, item.(row := item.row.(updatedAt := w.now)), back, dispatch);
    }
  }

  lemma DispatchTaskFits(p: Plan, w: World, item: Item, back: Back, dispatch: Dispatch)
    requires WriteFits(p, w.store, item) && item.row.status.Running? && BackFits(p, w.store, back) && KindOf(p.def, item.node).Task?
    ensures CallFits(p, w.store, DispatchTask(w, item, back, dispatch).call)
    ensures DispatchTask(w, item, back, dispatch).update.NoUpdate?
  {
  }

  lemma ScheduleNodeFits(p: Plan, w: World, iteration: nat, node: string, ready: Readiness, next: Call)
    requires forall n | n in w.store.rows :: RowFits(p, n, w.store.rows[n])
    requires CallFits(p, w.store, next)
    ensures CallFits(p, w.store, ScheduleNode(w, iteration, node, ready, next).call)
  {
  }

  lemma ScheduleFits(p: Plan, w: World, iteration: nat, snapshot: map<string, Row>, index: nat)
    requires SnapshotFits(p, w.store, snapshot)
    requires forall n | n in w.store.rows :: RowFits(p, n, w.store.rows[n])
    ensures CallFits(p, w.store, ScheduleStep(p, w, iteration, snapshot, index).call)
  {
    if index < |p.def.nodes| {
      var node := p.def.nodes[index].id;
      ScheduleNodeFits(p, w, iteration, node, Judged(p, snapshot, node), Schedule(iteration, snapshot, index + 1));
    } else if CompleteRows(p.def, snapshot) {
      forall n | n in snapshot
        ensures snapshot[n] == w.store.rows[n]
      {
        assert CopyFits(p, w.store, Item(n, snapshot[n]));
      }
      assert snapshot == w.store.rows;
    }
  }

  lemma StepFits(p: Plan, w: World, call: Call, dispatch: Dispatch)
    requires CallFits(p, w.store, call)
    requires forall n | n in w.store.rows :: RowFits(p, n, w.store.rows[n])
    ensures UpdateFits(p, w.store, StepCall(p, w, call, dispatch).update)
    ensures CallFits(p, w.store, StepCall(p, w, call, dispatch).call)
  {
    match call
    case Load(_) => ListedFits(p, w.store);
    case Mirror(iteration, todo, changed) => MirrorFits(p, w, iteration, todo, changed);
    case Schedule(iteration, snapshot, index) => ScheduleFits(p, w, iteration, snapshot, index);
    case Execute(item, back) =>
      ExecuteNodeFits(p, w, item, KindOf(p.def, item.node), ConfigOf(p.def, item.node), Computed(p, item.node), back, dispatch);
    case _ =>
  }

  /** The update an event applies to the stored rows. */
  ghost function UpdateOf(p: Plan, w: World, e: Event): Update {
    if e.Step? && e.call in w.calls then StepCall(p, w, w.calls[e.call], e.dispatch).update
    else if e.Cancel? then CancelAll
    else NoUpdate
  }

  lemma UpdateOfFits(p: Plan, w: World, e: Event)
    requires Consistent(p, w)
    ensures UpdateFits(p, w.store, UpdateOf(p, w, e))
    ensures Next(p, w, e).store == Apply(w.store, UpdateOf(p, w, e), w.now)
    ensures Evolves(w.store, Next(p, w, e).store)
  {
    if e.Step? && e.call in w.calls {
      StepFits(p, w, w.calls[e.call], e.dispatch);
    }
    ApplyEvolves(p, w.store, UpdateOf(p, w, e), w.now);
  }

  lemma NextCallFits(p: Plan, w: World, e: Event, id: nat)
    requires Consistent(p, w) && id in Next(p, w, e).calls
    ensures CallFits(p, Next(p, w, e).store, Next(p, w, e).calls[id])
  {
    UpdateOfFits(p, w, e);
    var w' := Next(p, w, e);
    if e.Step? && e.call == id {
      StepFits(p, w, w.calls[id], e.dispatch);
      CallFitsLater(p, w.store, w'.store, w'.calls[id]);
    } else if id in w.calls {
      CallFitsLater(p, w.store, w'.store, w.calls[id]);
    }
  }

  lemma NextConsistent(p: Plan, w: World, e: Event)
    requires Consistent(p, w)
    ensures Consistent(p, Next(p, w, e))
  {
    var w' := Next(p, w, e);
    UpdateOfFits(p, w, e);
    forall n | n in w'.store.rows
      ensures RowFits(p, n, w'.store.rows[n])
    {
      ApplyRowFits(p, w.store, UpdateOf(p, w, e), w.now, n);
    }
    forall id | id in w'.calls
      ensures CallFits(p, w'.store, w'.calls[id])
    {
      NextCallFits(p, w, e, id);
    }
  }

  // ----- the execution status and its node rows agree

  ghost predicate StatusFits(s: Store) {
    && (s.status.ExecSucceeded? ==> AllSettled(s.rows) && s.outputs == Some(OutputsOf(s.rows)))
    && (s.status.ExecFailed? || s.status.ExecCancelled? ==> forall n | n in s.rows :: Terminal(s.rows[n].status))
    && (!Finished(s.status) ==> forall n | n in s.rows :: !s.rows[n].status.Cancelled?)
  }

  lemma ApplyStatusFits(p: Plan, s: Store, u: Update, now: int)
    requires StatusFits(s) && UpdateFits(p, s, u)
    ensures StatusFits(Apply(s, u, now))
  {
    if Finished(s.status) {
      ApplyEvolves(p, s, u, now);
      assert forall n | n in s.rows :: RowEvolves(s.rows[n], Apply(s, u, now).rows[n]);
      assert Apply(s, u, now).rows == s.rows;
    }
  }

  // ----- no node starts before its predecessors are settled

  predicate Entered(s: NodeStatus) {
    !s.Pending? && !s.Cancelled?
  }

  ghost predicate SourceSettled(rows: map<string, Row>, e: Edge) {
    e.source in rows && Settled(rows[e.source].status)
  }

  ghost predicate Causal(p: Plan, rows: map<string, Row>) {
    forall e | e in p.def.edges && !KindOf(p.def, e.target).Trigger? && e.target in rows && Entered(rows[e.target].status) ::
      SourceSettled(rows, e)
  }

  /** A claim is made only for a node whose incoming edges are all decided. */
  ghost predicate ClaimDue(p: Plan, s: Store, u: Update) {
    u.ClaimNode? && !KindOf(p.def, u.node).Trigger? ==>
      forall e | e in p.def.edges && e.target == u.node :: SourceSettled(s.rows, e)
  }

  lemma {:induction false} JudgeSettled(d: Definition, rows: map<string, Row>, edges: seq<Edge>, active: bool)
    requires var r := Judge(d, rows, edges, active); r.Runnable? || r.Skippable?
    ensures forall e | e in edges :: SourceSettled(rows, e)
  {
    if edges != [] {
      JudgeSettled(d, rows, edges[1..], active || EdgeVerdict(d, rows, edges[0]).Active?);
    }
  }

  lemma SettledLater(p: Plan, s: Store, snapshot: map<string, Row>, e: Edge)
    requires SnapshotFits(p, s, snapshot) && SourceSettled(snapshot, e)
    ensures SourceSettled(s.rows, e) && s.rows[e.source] == snapshot[e.source]
  {
    assert CopyFits(p, s, Item(e.source, snapshot[e.source]));
  }

  /** The stale snapshot a scheduling call judged by is still right about settled sources. */
  lemma JudgedClaimDue(p: Plan, s: Store, snapshot: map<string, Row>, node: string)
    requires SnapshotFits(p, s, snapshot)
    requires Judged(p, snapshot, node).Runnable? || Judged(p, snapshot, node).Skippable?
    ensures ClaimDue(p, s, ClaimNode(node))
  {
    if !KindOf(p.def, node).Trigger? {
      JudgeSettled(p.def, snapshot, Incoming(p.def.edges, node), false);
      forall e | e in p.def.edges && e.target == node
        ensures SourceSettled(s.rows, e)
      {
        assert e in Incoming(p.def.edges, node);
        SettledLater(p, s, snapshot, e);
      }
    }
  }

  lemma StepClaimDue(p: Plan, w: World, call: Call, dispatch: Dispatch)
    requires CallFits(p, w.store, call)
    ensures ClaimDue(p, w.store, StepCall(p, w, call, dispatch).update)
  {
    if call.Schedule? && call.index < |p.def.nodes| {
      var node := p.def.nodes[call.index].id;
      var ready := Judged(p, call.snapshot, node);
      if ready.Runnable? || ready.Skippable? {
        JudgedClaimDue(p, w.store, call.snapshot, node);
      }
    }
  }

  lemma ApplyCausal(p: Plan, s: Store, u: Update, now: int)
    requires Causal(p, s.rows) && UpdateFits(p, s, u) && ClaimDue(p, s, u)
    ensures Causal(p, Apply(s, u, now).rows)
  {
    ApplyEvolves(p, s, u, now);
    var t := Apply(s, u, now);
    forall e | e in p.def.edges && !KindOf(p.def, e.target).Trigger? && e.target in t.rows && Entered(t.rows[e.target].status)
      ensures SourceSettled(t.rows, e)
    {
      assert SourceSettled(s.rows, e);
      assert RowEvolves(s.rows[e.source], t.rows[e.source]);
    }
  }
}
