/** An open execution can always still be finished: fresh calls bring it to its end once
    the outside work that is under way is done. */
module ExecutionFinish {
  import opened Common
  import opened Workflow
  import opened Validation
  import opened ExecutionStore
  import opened ExecutionSteps
  import opened ExecutionSafety
  import ExecutionLinks
  import opened ExecutionRuns
  import opened ExecutionConfluence
  import opened ExecutionProgress
  import opened ExecutionCalls

  // ----- a queued row points to what it waits for

  predicate HasLink(row: Row) {
    row.task.Some? || row.delivery.Some? || row.availableAt.Some?
  }

  /** A row to be stored: in flight only with a link. */
  predicate Anchored(row: Row) {
    row.status.Queued? || row.status.Running? ==> HasLink(row)
  }

  predicate CallAnchored(call: Call) {
    match call
    case Write(item, _) => Anchored(item.row)
    case FailWrite(item, _) => Anchored(item.row)
    case MirrorWrite(_, item, _, _, _) => Anchored(item.row)
    case _ => true
  }

  ghost predicate AllAnchored(w: World) {
    && (forall n | n in w.store.rows :: w.store.rows[n].status.Queued? ==> HasLink(w.store.rows[n]))
    && (forall id | id in w.calls :: CallAnchored(w.calls[id]))
  }

  lemma MirrorAnchored(p: Plan, w: World, it: nat, todo: seq<Item>, changed: bool)
    ensures CallAnchored(MirrorStep(p, w, it, todo, changed).call)
  {
  }

  lemma DispatchAnchored(w: World, item: Item, back: Back, dispatch: Dispatch)
    ensures CallAnchored(DispatchTask(w, item, back, dispatch).call) && CallAnchored(DispatchWebhook(w, item, back, dispatch).call)
  {
  }

  lemma ComputeAnchored(w: World, item: Item, kind: NodeKind, config: Config, computed: Option<Output>, back: Back, dispatch: Dispatch)
    requires !kind.Task? && !kind.Webhook?
    ensures CallAnchored(ExecuteNode(w, item, kind, config, computed, back, dispatch).call)
  {
  }

  lemma ExecuteAnchored(p: Plan, w: World, item: Item, back: Back, dispatch: Dispatch)
    ensures CallAnchored(ExecuteStep(p, w, item, back, dispatch).call)
  {
    var kind, config := KindOf(p.def, item.node), ConfigOf(p.def, item.node);
    if kind.Task? || kind.Webhook? {
      DispatchAnchored(w, item.(row := item.row.(updatedAt := w.now)), back, dispatch);
    } else {
      ComputeAnchored(w, item, kind, config, Computed(p, item.node), back, dispatch);
    }
  }

  lemma ScheduleAnchored(p: Plan, w: World, it: nat, snapshot: map<string, Row>, index: nat)
    ensures CallAnchored(ScheduleStep(p, w, it, snapshot, index).call)
  {
    ScheduleEffect(p, w, it, snapshot, index);
  }

  lemma StepAnchored(p: Plan, w: World, call: Call, dispatch: Dispatch)
    ensures CallAnchored(StepCall(p, w, call, dispatch).call)
  {
    match call
    case Mirror(it, todo, changed) => MirrorAnchored(p, w, it, todo, changed);
    case Execute(item, back) => ExecuteAnchored(p, w, item, back, dispatch);
    case Schedule(it, snapshot, index) => ScheduleAnchored(p, w, it, snapshot, index);
    case _ =>
  }

  // ----- every event brings the rows closer to their end

  function PendingRows(rows: map<string, Row>): set<string> {
    set n | n in rows && rows[n].status.Pending?
  }

  function UnlinkedRows(rows: map<string, Row>): set<string> {
    set n | n in rows && (rows[n].status.Pending? || (rows[n].status.Running? && !HasLink(rows[n])))
  }

  function OpenRows(rows: map<string, Row>): set<string> {
    set n | n in rows && !Terminal(rows[n].status)
  }

  /** A pending row counts three, a bare claim two, a row in flight one. */
  function Ahead(rows: map<string, Row>): nat {
    |PendingRows(rows)| + |UnlinkedRows(rows)| + |OpenRows(rows)|
  }

  predicate Lighter(a: Row, b: Row) {
    && (b.status.Pending? ==> a.status.Pending?)
    && (b.status.Running? && !HasLink(b) ==> a.status.Pending? || (a.status.Running? && !HasLink(a)))
    && (!Terminal(b.status) ==> !Terminal(a.status))
  }

  ghost predicate AllLighter(a: map<string, Row>, b: map<string, Row>) {
    a.Keys == b.Keys && forall n | n in a :: Lighter(a[n], b[n])
  }

  /** What an update stores is anchored. */
  predicate UpdateAnchored(u: Update) {
    u.SwapNode? ==> Anchored(u.item.row)
  }

  lemma ApplyLighter(p: Plan, s: Store, u: Update, now: int)
    requires UpdateFits(p, s, u) && UpdateAnchored(u)
    ensures AllLighter(s.rows, Apply(s, u, now).rows)
  {
  }

  lemma StepStoresAnchored(p: Plan, w: World, call: Call, dispatch: Dispatch)
    requires CallAnchored(call)
    ensures UpdateAnchored(StepCall(p, w, call, dispatch).update)
  {
    match call
    case Execute(item, back) => ExecuteStores(p, w, item, back, dispatch);
    case Schedule(it, snapshot, index) => ScheduleEffect(p, w, it, snapshot, index);
    case _ =>
  }

  lemma NextAnchored(p: Plan, w: World, e: Event)
    requires Consistent(p, w) && AllAnchored(w)
    ensures AllAnchored(Next(p, w, e)) && AllLighter(w.store.rows, Next(p, w, e).store.rows)
  {
    UpdateOfFits(p, w, e);
    if e.Step? && e.call in w.calls {
      assert CallAnchored(w.calls[e.call]);
      StepAnchored(p, w, w.calls[e.call], e.dispatch);
      StepStoresAnchored(p, w, w.calls[e.call], e.dispatch);
    }
    ApplyLighter(p, w.store, UpdateOf(p, w, e), w.now);
  }

  lemma NotHeavier(a: map<string, Row>, b: map<string, Row>)
    requires AllLighter(a, b)
    ensures Ahead(b) <= Ahead(a)
    ensures PendingRows(a) != PendingRows(b) || UnlinkedRows(a) != UnlinkedRows(b) || OpenRows(a) != OpenRows(b) ==> Ahead(b) < Ahead(a)
  {
    Smaller(PendingRows(b), PendingRows(a));
    Smaller(UnlinkedRows(b), UnlinkedRows(a));
    Smaller(OpenRows(b), OpenRows(a));
  }

  lemma Smaller(s: set<string>, v: set<string>)
    requires s <= v
    ensures |s| <= |v| && (s != v ==> |s| < |v|)
  {
    assert v == s + (v - s);
  }

  // ----- one call gets something done

  /** Mirroring will settle the row, or take the claim over. */
  predicate DueItem(p: Plan, w: World, item: Item) {
    || Stale(p, w.now, item)
    || (var seen := Mirrored(p, w.now, w.tasks, w.deliveries, item); seen.Some? && Terminal(seen.value.status))
  }

  ghost predicate AllDue(p: Plan, w: World) {
    forall n | n in w.store.rows && Busy(w.store.rows[n].status) :: DueItem(p, w, Item(n, w.store.rows[n]))
  }

  ghost predicate NoneBusy(rows: map<string, Row>) {
    forall n | n in rows :: !Busy(rows[n].status)
  }

  /** A call that has changed no row yet, and is about to. */
  ghost predicate Watches(p: Plan, w: World, call: Call) {
    match call
    case Fetch => AllDue(p, w)
    case Start => AllDue(p, w)
    case Load(it) => it == 0 && AllDue(p, w)
    case Mirror(it, todo, changed) =>
      && it == 0 && !changed && AllDue(p, w)
      && (forall item | item in todo :: Current(w, item))
      && (forall n | n in w.store.rows && Busy(w.store.rows[n].status) :: Item(n, w.store.rows[n]) in todo)
    case MirrorWrite(_, item, expected, _, _) =>
      CanSwap(w.store, item.node, expected) && Busy(expected) && Terminal(item.row.status)
    case Execute(item, _) => Current(w, item) && item.row.status.Running? && !HasLink(item.row)
    case Write(item, _) => CanSwap(w.store, item.node, Running) && !HasLink(w.store.rows[item.node]) && !item.row.status.Running?
    case FailWrite(item, _) => CanSwap(w.store, item.node, Running) && !HasLink(w.store.rows[item.node]) && !item.row.status.Running?
    case Reload(it) => it == 0 && NoneBusy(w.store.rows)
    case Schedule(_, snapshot, index) =>
      && snapshot == w.store.rows && NoneBusy(snapshot) && !AnyFailed(snapshot)
      && (forall i | 0 <= i < index && i < |p.def.nodes| :: Judged(p, snapshot, p.def.nodes[i].id).NotReady?)
    case FailExecution(_) => true
    case Complete(_) => true
    case _ => false
  }

  /** The execution is over, or a row has come closer to its end since, or the call is
      about to see to it. */
  ghost predicate Pushes(p: Plan, since: map<string, Row>, w: World, id: nat) {
    && id in w.calls
    && (Finished(w.store.status) || Ahead(w.store.rows) < Ahead(since)
        || (w.store.rows == since && Watches(p, w, w.calls[id])))
  }

  lemma QuietPushes(p: Plan, w: World, id: nat, call: Call)
    requires Watches(p, w, call)
    ensures Pushes(p, w.store.rows, w.(calls := w.calls[id := call]), id)
  {
    var v := w.(calls := w.calls[id := call]);
    assert forall item :: (DueItem(p, v, item) <==> DueItem(p, w, item)) && (Current(v, item) <==> Current(w, item));
  }

  lemma LoadPushes(p: Plan, w: World, id: nat, dispatch: Dispatch)
    requires id in w.calls && w.calls[id].Load? && Watches(p, w, w.calls[id]) && forall n | n in w.store.rows :: n in p.listing
    ensures Pushes(p, w.store.rows, Next(p, w, Step(id, dispatch)), id)
  {
    ListedRows(p.listing, w.store.rows);
    QuietPushes(p, w, id, Mirror(0, Listed(p.listing, w.store.rows), false));
  }

  lemma MirrorWatches(p: Plan, w: World, todo: seq<Item>)
    requires Watches(p, w, Mirror(0, todo, false)) && (forall n | n in w.store.rows :: RowFits(p, n, w.store.rows[n]))
    ensures Watches(p, w, MirrorStep(p, w, 0, todo, false).call)
  {
    if todo != [] {
      assert todo[0] in todo && Current(w, todo[0]);
      assert forall item | item in todo :: item == todo[0] || item in todo[1..];
      assert forall item | item in todo[1..] :: item in todo;
      if Busy(todo[0].row.status) {
        assert DueItem(p, w, Item(todo[0].node, w.store.rows[todo[0].node]));
        assert RowFits(p, todo[0].node, todo[0].row);
      }
    }
  }

  lemma MirrorPushes(p: Plan, w: World, id: nat, dispatch: Dispatch)
    requires Consistent(p, w) && id in w.calls && w.calls[id].Mirror? && Watches(p, w, w.calls[id])
    ensures Pushes(p, w.store.rows, Next(p, w, Step(id, dispatch)), id)
  {
    MirrorQuiet(p, w, id, dispatch);
    MirrorWatches(p, w, w.calls[id].todo);
    QuietPushes(p, w, id, MirrorStep(p, w, 0, w.calls[id].todo, false).call);
  }

  lemma ExecutePushes(p: Plan, w: World, id: nat, dispatch: Dispatch)
    requires id in w.calls && w.calls[id].Execute? && Watches(p, w, w.calls[id])
    ensures Pushes(p, w.store.rows, Next(p, w, Step(id, dispatch)), id)
  {
    ExecuteStores(p, w, w.calls[id].item, w.calls[id].back, dispatch);
  }

  /** The three updates that take a row further. */
  lemma SwapAhead(rows: map<string, Row>, n: string, row: Row)
    requires n in rows && AllLighter(rows, rows[n := row])
    requires (Terminal(row.status) && !Terminal(rows[n].status)) ||
             (rows[n].status.Running? && !HasLink(rows[n]) && !row.status.Pending? && (row.status.Running? ==> HasLink(row)))
    ensures Ahead(rows[n := row]) < Ahead(rows)
  {
    var after := rows[n := row];
    if Terminal(row.status) && !Terminal(rows[n].status) {
      assert n in OpenRows(rows) && n !in OpenRows(after);
    } else {
      assert n in UnlinkedRows(rows) && n !in UnlinkedRows(after);
    }
    NotHeavier(rows, after);
  }

  lemma StorePushes(p: Plan, w: World, id: nat, dispatch: Dispatch)
    requires Consistent(p, w) && AllAnchored(w) && id in w.calls && Watches(p, w, w.calls[id])
    requires w.calls[id].MirrorWrite? || w.calls[id].Write? || w.calls[id].FailWrite?
    ensures Pushes(p, w.store.rows, Next(p, w, Step(id, dispatch)), id)
  {
    var item := w.calls[id].item;
    assert CallFits(p, w.store, w.calls[id]);
    NextAnchored(p, w, Step(id, dispatch));
    SwapAhead(w.store.rows, item.node, item.row);
  }

  lemma ReloadPushes(p: Plan, w: World, id: nat, dispatch: Dispatch)
    requires id in w.calls && w.calls[id].Reload? && Watches(p, w, w.calls[id])
    ensures Pushes(p, w.store.rows, Next(p, w, Step(id, dispatch)), id)
  {
    QuietPushes(p, w, id, if AnyFailed(w.store.rows) then FailExecution(ToEnd) else Schedule(0, w.store.rows, 0));
  }

  lemma ClaimAhead(p: Plan, w: World, e: Event, node: string)
    requires Consistent(p, w) && AllAnchored(w) && CanClaim(w.store, node) && UpdateOf(p, w, e) == ClaimNode(node)
    ensures Ahead(Next(p, w, e).store.rows) < Ahead(w.store.rows)
  {
    NextAnchored(p, w, e);
    UpdateOfFits(p, w, e);
    assert node in PendingRows(w.store.rows) && node !in PendingRows(Next(p, w, e).store.rows);
    NotHeavier(w.store.rows, Next(p, w, e).store.rows);
  }

  /** Behind the last node, a call that found nothing ready completes the execution. */
  lemma NothingReady(p: Plan, w: World, it: nat, index: nat)
    requires Sound(p.def) && Consistent(p, w) && (forall n | n in w.store.rows :: !w.store.rows[n].status.Cancelled?)
    requires index >= |p.def.nodes| && Watches(p, w, Schedule(it, w.store.rows, index))
    ensures CompleteRows(p.def, w.store.rows)
  {
    var rows := w.store.rows;
    RowsCanMove(p, rows);
  }

  lemma PassWatches(p: Plan, w: World, it: nat, index: nat)
    requires index < |p.def.nodes| && Watches(p, w, Schedule(it, w.store.rows, index))
    requires Judged(p, w.store.rows, p.def.nodes[index].id).NotReady?
    ensures ScheduleStep(p, w, it, w.store.rows, index) == Quiet(w, Schedule(it, w.store.rows, index + 1))
    ensures Watches(p, w, Schedule(it, w.store.rows, index + 1))
  {
  }

  lemma ReadyClaims(p: Plan, w: World, it: nat, index: nat)
    requires index < |p.def.nodes|
    requires var ready := Judged(p, w.store.rows, p.def.nodes[index].id); !ready.NotReady? && !ready.Broken?
    ensures var node := p.def.nodes[index].id;
            ScheduleStep(p, w, it, w.store.rows, index).update == ClaimNode(node) && CanClaim(w.store, node)
  {
  }

  lemma EndPushes(p: Plan, w: World, id: nat, dispatch: Dispatch)
    requires Sound(p.def) && Consistent(p, w) && id in w.calls && w.calls[id].Schedule? && w.calls[id].index >= |p.def.nodes|
    requires Watches(p, w, w.calls[id]) && (forall n | n in w.store.rows :: !w.store.rows[n].status.Cancelled?)
    ensures Pushes(p, w.store.rows, Next(p, w, Step(id, dispatch)), id)
  {
    NothingReady(p, w, w.calls[id].iteration, w.calls[id].index);
    QuietPushes(p, w, id, Complete(OutputsOf(w.store.rows)));
  }

  lemma PassPushes(p: Plan, w: World, id: nat, dispatch: Dispatch)
    requires id in w.calls && w.calls[id].Schedule? && w.calls[id].index < |p.def.nodes| && Watches(p, w, w.calls[id])
    requires Judged(p, w.store.rows, p.def.nodes[w.calls[id].index].id).NotReady?
    ensures Pushes(p, w.store.rows, Next(p, w, Step(id, dispatch)), id)
  {
    var c := w.calls[id];
    PassWatches(p, w, c.iteration, c.index);
    QuietPushes(p, w, id, Schedule(c.iteration, w.store.rows, c.index + 1));
  }

  lemma SchedulePushes(p: Plan, w: World, id: nat, dispatch: Dispatch)
    requires Sound(p.def) && Consistent(p, w) && AllAnchored(w) && id in w.calls && w.calls[id].Schedule?
    requires Watches(p, w, w.calls[id]) && (forall n | n in w.store.rows :: !w.store.rows[n].status.Cancelled?)
    ensures Pushes(p, w.store.rows, Next(p, w, Step(id, dispatch)), id)
  {
    var c := w.calls[id];
    if c.index >= |p.def.nodes| {
      EndPushes(p, w, id, dispatch);
    } else {
      var node := p.def.nodes[c.index].id;
      ReadinessReadable(p, w.store.rows, node);
      if Judged(p, w.store.rows, node).NotReady? {
        PassPushes(p, w, id, dispatch);
      } else {
        ReadyClaims(p, w, c.iteration, c.index);
        ClaimAhead(p, w, Step(id, dispatch), node);
      }
    }
  }

  /** Fetching, failing and completing. */
  lemma OtherPushes(p: Plan, w: World, id: nat, dispatch: Dispatch)
    requires id in w.calls && Watches(p, w, w.calls[id]) && !Finished(w.store.status)
    requires var c := w.calls[id]; c.Fetch? || c.Start? || c.FailExecution? || c.Complete?
    ensures Pushes(p, w.store.rows, Next(p, w, Step(id, dispatch)), id)
  {
    var v := Next(p, w, Step(id, dispatch));
    assert v.store.rows == w.store.rows ==> forall item :: DueItem(p, v, item) <==> DueItem(p, w, item);
  }

  /** Once an event has happened, nothing is farther from its end than before. */
  lemma StillPushes(p: Plan, since: map<string, Row>, w: World, id: nat, dispatch: Dispatch)
    requires Consistent(p, w) && AllAnchored(w) && id in w.calls
    requires Finished(w.store.status) || Ahead(w.store.rows) < Ahead(since)
    ensures Pushes(p, since, Next(p, w, Step(id, dispatch)), id)
  {
    NextAnchored(p, w, Step(id, dispatch));
    NotHeavier(w.store.rows, Next(p, w, Step(id, dispatch)).store.rows);
    UpdateOfFits(p, w, Step(id, dispatch));
  }

  lemma StepPushes(p: Plan, since: map<string, Row>, w: World, id: nat, dispatch: Dispatch)
    requires Sound(p.def) && Invariant(p, w) && AllAnchored(w) && (forall n | n in w.store.rows :: n in p.listing)
    requires Pushes(p, since, w, id)
    ensures Pushes(p, since, Next(p, w, Step(id, dispatch)), id)
  {
    if Finished(w.store.status) || Ahead(w.store.rows) < Ahead(since) {
      StillPushes(p, since, w, id, dispatch);
    } else {
      var c := w.calls[id];
      if c.Load? {
        LoadPushes(p, w, id, dispatch);
      } else if c.Mirror? {
        MirrorPushes(p, w, id, dispatch);
      } else if c.MirrorWrite? || c.Write? || c.FailWrite? {
        StorePushes(p, w, id, dispatch);
      } else if c.Execute? {
        ExecutePushes(p, w, id, dispatch);
      } else if c.Reload? {
        ReloadPushes(p, w, id, dispatch);
      } else if c.Schedule? {
        SchedulePushes(p, w, id, dispatch);
      } else {
        OtherPushes(p, w, id, dispatch);
      }
    }
  }

  // ----- and nothing fails on the way

  predicate Lost(s: TaskStatus) {
    s.TaskFailed? || s.TaskDeadLetter? || s.TaskCancelled?
  }

  /** No node has failed, and no outside work. */
  ghost predicate Unfailed(w: World) {
    && (forall n | n in w.store.rows :: !w.store.rows[n].status.Failed?)
    && (forall t | t in w.tasks :: !Lost(w.tasks[t].state.status))
    && (forall v | v in w.deliveries :: !w.deliveries[v].status.DeliveryFailed?)
  }

  predicate Clean(call: Call) {
    match call
    case MirrorWrite(_, item, _, _, _) => !item.row.status.Failed?
    case Write(item, _) => !item.row.status.Failed?
    case FailWrite(_, _) => false
    case FailExecution(_) => false
    case _ => true
  }

  /** A call under which the execution does not fail. */
  ghost predicate Smooth(w: World, id: nat) {
    Unfailed(w) && id in w.calls && Clean(w.calls[id]) && !w.store.status.ExecFailed? && !w.store.status.ExecCancelled?
  }

  lemma SoundNode(d: Definition, n: string)
    requires Sound(d) && n in Ids(d)
    ensures !KindOf(d, n).Unsupported? && Decoded(KindOf(d, n), ConfigOf(d, n))
  {
    IdsHasNode(d, n);
    FindIs(d.nodes, n);
    assert NodeOf(d, n) in d.nodes;
  }

  lemma DispatchSmooth(w: World, item: Item, back: Back, dispatch: Dispatch)
    requires Unfailed(w) && Fresh(w, dispatch)
    ensures var f := DispatchTask(w, item, back, dispatch);
            Clean(f.call) && f.deliveries == w.deliveries && forall t | t in f.tasks :: !Lost(f.tasks[t].state.status)
    ensures var f := DispatchWebhook(w, item, back, dispatch);
            Clean(f.call) && f.tasks == w.tasks && forall v | v in f.deliveries :: !f.deliveries[v].status.DeliveryFailed?
  {
  }

  lemma ExecuteSmooth(p: Plan, w: World, id: nat, dispatch: Dispatch)
    requires Sound(p.def) && Consistent(p, w) && Smooth(w, id) && w.calls[id].Execute? && Fresh(w, dispatch)
    ensures Smooth(Next(p, w, Step(id, dispatch)), id)
  {
    var c := w.calls[id];
    assert CallFits(p, w.store, c);
    SoundNode(p.def, c.item.node);
    DispatchSmooth(w, c.item.(row := c.item.row.(updatedAt := w.now)), c.back, dispatch);
  }

  lemma MirrorSmooth(p: Plan, w: World, id: nat, dispatch: Dispatch)
    requires Smooth(w, id) && w.calls[id].Mirror?
    ensures Smooth(Next(p, w, Step(id, dispatch)), id)
  {
    MirrorQuiet(p, w, id, dispatch);
  }

  lemma ScheduleSmooth(p: Plan, w: World, id: nat, dispatch: Dispatch)
    requires Smooth(w, id) && w.calls[id].Schedule?
    ensures Smooth(Next(p, w, Step(id, dispatch)), id)
  {
    var c := w.calls[id];
    ScheduleEffect(p, w, c.iteration, c.snapshot, c.index);
    var v := Next(p, w, Step(id, dispatch));
    assert forall n | n in v.store.rows :: n in w.store.rows && (v.store.rows[n] == w.store.rows[n] || v.store.rows[n].status.Running?);
  }

  lemma StoreSmooth(p: Plan, w: World, id: nat, dispatch: Dispatch)
    requires Smooth(w, id) && (w.calls[id].MirrorWrite? || w.calls[id].Write? || w.calls[id].SkipWrite?)
    ensures Smooth(Next(p, w, Step(id, dispatch)), id)
  {
  }

  lemma OtherSmooth(p: Plan, w: World, id: nat, dispatch: Dispatch)
    requires Smooth(w, id)
    requires var c := w.calls[id]; c.Fetch? || c.Start? || c.Load? || c.Reload? || c.Complete? || c.Done?
    ensures Smooth(Next(p, w, Step(id, dispatch)), id)
  {
  }

  lemma StepSmooth(p: Plan, w: World, id: nat, dispatch: Dispatch)
    requires Sound(p.def) && Consistent(p, w) && Smooth(w, id) && Fresh(w, dispatch)
    ensures Smooth(Next(p, w, Step(id, dispatch)), id)
  {
    if w.calls[id].Execute? {
      ExecuteSmooth(p, w, id, dispatch);
    } else if w.calls[id].Mirror? {
      MirrorSmooth(p, w, id, dispatch);
    } else if w.calls[id].Schedule? {
      ScheduleSmooth(p, w, id, dispatch);
    } else if w.calls[id].MirrorWrite? || w.calls[id].Write? || w.calls[id].SkipWrite? {
      StoreSmooth(p, w, id, dispatch);
    } else {
      OtherSmooth(p, w, id, dispatch);
    }
  }

  // ----- continuations in which everybody does their part

  predicate Open(s: TaskState) {
    s.status.TaskPending? || s.status.TaskProcessing?
  }

  predicate OnItsWay(d: DeliveryState) {
    d.status.DeliveryPending? || d.status.Delivering? || d.status.Retrying?
  }

  /** Calls other than those given up act and their dispatches are accepted, open work is
      done, time passes; nobody cancels. */
  predicate OrderlyEvent(w: World, dead: set<nat>, e: Event) {
    match e
    case Begin(id) => id !in dead
    case Step(id, d) => id !in dead && Fresh(w, d)
    case Tick(_) => true
    case TaskMoves(t, state) => t in w.tasks && Open(w.tasks[t].state) && state == w.tasks[t].state.(status := TaskCompleted)
    case DeliveryMoves(v, state) => v in w.deliveries && OnItsWay(w.deliveries[v]) && state == w.deliveries[v].(status := Delivered)
    case Cancel => false
  }

  ghost predicate Orderly(p: Plan, w: World, es: seq<Event>, dead: set<nat>) {
    es == [] ||
    (Orderly(p, w, es[..|es| - 1], dead) && OrderlyEvent(Run(p, w, es[..|es| - 1]), dead, es[|es| - 1]))
  }

  ghost predicate OrderlyLeads(p: Plan, w: World, v: World, dead: set<nat>) {
    exists es :: Orderly(p, w, es, dead) && Run(p, w, es) == v
  }

  ghost predicate OrderlyClosed(p: Plan, r: iset<World>, dead: set<nat>) {
    forall v, e {:trigger Next(p, v, e)} | v in r && OrderlyEvent(v, dead, e) :: Next(p, v, e) in r
  }

  lemma OrderlyLeadsOn(p: Plan, w: World, v: World, dead: set<nat>, e: Event)
    requires OrderlyLeads(p, w, v, dead) && OrderlyEvent(v, dead, e)
    ensures OrderlyLeads(p, w, Next(p, v, e), dead)
  {
    var es :| Orderly(p, w, es, dead) && Run(p, w, es) == v;
    var more := es + [e];
    RunThen(p, w, es, e);
    assert more[..|more| - 1] == es;
    assert Orderly(p, w, more, dead) && Run(p, w, more) == Next(p, v, e);
  }

  /** The facts every world of such a continuation keeps. */
  ghost predicate Fine(p: Plan, w: World, unfailed: bool) {
    && Invariant(p, w) && AllAnchored(w) && (forall n | n in w.store.rows :: n in p.listing)
    && (forall t | t in w.tasks :: !w.tasks[t].state.deleted)
    && (unfailed ==> Unfailed(w))
  }

  lemma MoveFine(p: Plan, w: World, e: Event, dead: set<nat>, unfailed: bool)
    requires Fine(p, w, unfailed) && OrderlyEvent(w, dead, e) && !e.Step?
    ensures Fine(p, Next(p, w, e), unfailed)
  {
    NextInvariant(p, w, e);
    NextAnchored(p, w, e);
  }

  lemma DispatchUndeleted(w: World, item: Item, back: Back, dispatch: Dispatch)
    requires forall t | t in w.tasks :: !w.tasks[t].state.deleted
    ensures var f := DispatchTask(w, item, back, dispatch); forall t | t in f.tasks :: !f.tasks[t].state.deleted
  {
  }

  lemma StepUndeleted(p: Plan, w: World, id: nat, dispatch: Dispatch)
    requires forall t | t in w.tasks :: !w.tasks[t].state.deleted
    ensures var v := Next(p, w, Step(id, dispatch)); forall t | t in v.tasks :: !v.tasks[t].state.deleted
  {
    if id in w.calls {
      match w.calls[id]
      case Execute(item, back) =>
        var now, f := item.(row := item.row.(updatedAt := w.now)), ExecuteStep(p, w, item, back, dispatch);
        DispatchUndeleted(w, now, back, dispatch);
        assert f.tasks == w.tasks || f == DispatchTask(w, now, back, dispatch);
      case Schedule(it, snapshot, index) => ScheduleEffect(p, w, it, snapshot, index);
      case Mirror(_, _, _) => MirrorQuiet(p, w, id, dispatch);
      case _ =>
    }
  }

  lemma StepFine(p: Plan, w: World, id: nat, dispatch: Dispatch)
    requires Fine(p, w, false)
    ensures Fine(p, Next(p, w, Step(id, dispatch)), false)
  {
    NextInvariant(p, w, Step(id, dispatch));
    NextAnchored(p, w, Step(id, dispatch));
    StepUndeleted(p, w, id, dispatch);
  }

  // ----- the work under way is done

  /** Tasks, deliveries and the clock as far as they go by themselves. */
  ghost predicate Forward(w: World, v: World) {
    && v.store == w.store && v.calls == w.calls && w.now <= v.now
    && v.tasks.Keys == w.tasks.Keys && v.deliveries.Keys == w.deliveries.Keys
  }

  lemma {:induction false} DoTasks(p: Plan, r: iset<World>, dead: set<nat>, w: World, s: set<nat>, unfailed: bool) returns (v: World)
    requires OrderlyClosed(p, r, dead) && w in r && Fine(p, w, unfailed)
    requires forall t | t in w.tasks && Open(w.tasks[t].state) :: t in s
    ensures v in r && Fine(p, v, unfailed) && Forward(w, v)
    ensures forall t | t in v.tasks :: !Open(v.tasks[t].state)
    decreases |s|
  {
    if s == {} {
      v := w;
    } else {
      var t :| t in s;
      var u := w;
      if t in w.tasks && Open(w.tasks[t].state) {
        var e := TaskMoves(t, w.tasks[t].state.(status := TaskCompleted));
        MoveFine(p, w, e, dead, unfailed);
        u := Next(p, w, e);
      }
      v := DoTasks(p, r, dead, u, s - {t}, unfailed);
    }
  }

  lemma {:induction false} DoDeliveries(p: Plan, r: iset<World>, dead: set<nat>, w: World, s: set<string>, unfailed: bool) returns (v: World)
    requires OrderlyClosed(p, r, dead) && w in r && Fine(p, w, unfailed)
    requires forall d | d in w.deliveries && OnItsWay(w.deliveries[d]) :: d in s
    ensures v in r && Fine(p, v, unfailed) && Forward(w, v) && v.tasks == w.tasks
    ensures forall d | d in v.deliveries :: !OnItsWay(v.deliveries[d])
    decreases |s|
  {
    if s == {} {
      v := w;
    } else {
      var d :| d in s;
      var u := w;
      if d in w.deliveries && OnItsWay(w.deliveries[d]) {
        var e := DeliveryMoves(d, w.deliveries[d].(status := Delivered));
        MoveFine(p, w, e, dead, unfailed);
        u := Next(p, w, e);
      }
      v := DoDeliveries(p, r, dead, u, s - {d}, unfailed);
    }
  }

  predicate OverBy(row: Row, time: int) {
    row.updatedAt + LEASE <= time && (row.availableAt.Some? ==> row.availableAt.value <= time)
  }

  /** A time by which every lease and every delay is over. */
  lemma {:induction false} LateEnough(rows: map<string, Row>, s: set<string>) returns (time: int)
    requires s <= rows.Keys
    ensures forall n | n in s :: OverBy(rows[n], time)
    decreases |s|
  {
    if s == {} {
      time := 0;
    } else {
      var n :| n in s;
      time := LateEnough(rows, s - {n});
      time := if rows[n].updatedAt + LEASE <= time then time else rows[n].updatedAt + LEASE;
      if rows[n].availableAt.Some? && time < rows[n].availableAt.value {
        time := rows[n].availableAt.value;
      }
    }
  }

  /** Then mirroring will settle every row in flight, or take its claim over. */
  lemma DueThen(p: Plan, w: World, n: string)
    requires Fine(p, w, false) && n in w.store.rows && Busy(w.store.rows[n].status) && OverBy(w.store.rows[n], w.now)
    requires (forall t | t in w.tasks :: !Open(w.tasks[t].state)) && (forall d | d in w.deliveries :: !OnItsWay(w.deliveries[d]))
    ensures DueItem(p, w, Item(n, w.store.rows[n]))
  {
    var row := w.store.rows[n];
    assert RowFits(p, n, row) && ExecutionLinks.Linked(w.tasks, w.deliveries, Item(n, row));
    assert row.status.Queued? ==> HasLink(row);
  }

  lemma Prepare(p: Plan, r: iset<World>, dead: set<nat>, w: World, unfailed: bool) returns (v: World)
    requires OrderlyClosed(p, r, dead) && w in r && Fine(p, w, unfailed)
    ensures v in r && Fine(p, v, unfailed) && Forward(w, v) && AllDue(p, v)
  {
    var a := DoTasks(p, r, dead, w, w.tasks.Keys, unfailed);
    var b := DoDeliveries(p, r, dead, a, a.deliveries.Keys, unfailed);
    var time := LateEnough(b.store.rows, b.store.rows.Keys);
    var e := Tick(if b.now < time then time - b.now else 0);
    MoveFine(p, b, e, dead, unfailed);
    v := Next(p, b, e);
    forall n | n in v.store.rows && Busy(v.store.rows[n].status)
      ensures DueItem(p, v, Item(n, v.store.rows[n]))
    {
      DueThen(p, v, n);
    }
  }

  // ----- the end

  /** The worlds one fresh call passes through. */
  ghost predicate Driven(p: Plan, r: iset<World>, since: map<string, Row>, v: World, id: nat, unfailed: bool) {
    v in r && Fine(p, v, unfailed) && Pushes(p, since, v, id) && (unfailed ==> Smooth(v, id))
  }

  lemma DrivenOn(p: Plan, r: iset<World>, dead: set<nat>, since: map<string, Row>, v: World, id: nat, unfailed: bool, d: Dispatch)
    requires Sound(p.def) && OrderlyClosed(p, r, dead) && id !in dead && Fresh(v, d)
    requires Driven(p, r, since, v, id, unfailed)
    ensures Driven(p, r, since, Next(p, v, Step(id, d)), id, unfailed)
  {
    assert OrderlyEvent(v, dead, Step(id, d));
    StepFine(p, v, id, d);
    StepPushes(p, since, v, id, d);
    if unfailed {
      StepSmooth(p, v, id, d);
    }
  }

  /** A fresh call begins once the work under way is done. */
  lemma BeginDriven(p: Plan, r: iset<World>, dead: set<nat>, w: World, unfailed: bool) returns (v: World, id: nat)
    requires OrderlyClosed(p, r, dead) && w in r && Fine(p, w, unfailed) && !Finished(w.store.status)
    ensures id !in dead && id in v.calls && v.calls[id] == Fetch && Driven(p, r, w.store.rows, v, id, unfailed)
  {
    var a := Prepare(p, r, dead, w, unfailed);
    id := Beyond(a.calls.Keys + dead);
    v := a.(calls := a.calls[id := Fetch]);
    assert Next(p, a, Begin(id)) == v;
    MoveFine(p, a, Begin(id), dead, unfailed);
    QuietPushes(p, a, id, Fetch);
  }

  ghost function DrivenSet(p: Plan, r: iset<World>, since: map<string, Row>, id: nat, unfailed: bool): iset<World> {
    iset v | Driven(p, r, since, v, id, unfailed)
  }

  lemma DrivenDrivable(p: Plan, r: iset<World>, dead: set<nat>, since: map<string, Row>, id: nat, unfailed: bool)
    requires Sound(p.def) && OrderlyClosed(p, r, dead) && id !in dead
    ensures Drivable(p, DrivenSet(p, r, since, id, unfailed), id)
  {
    var driven := DrivenSet(p, r, since, id, unfailed);
    forall v | v in driven
      ensures CanStep(p, driven, id, v)
    {
      var x := Beyond(v.tasks.Keys);
      DrivenOn(p, r, dead, since, v, id, unfailed, Accepted(x));
      assert Next(p, v, Step(id, Accepted(x))) in driven;
    }
  }

  lemma DriveOut(p: Plan, r: iset<World>, since: map<string, Row>, w: World, id: nat, unfailed: bool) returns (v: World)
    requires Driven(p, r, since, w, id, unfailed) && w.calls[id] == Fetch
    requires Drivable(p, DrivenSet(p, r, since, id, unfailed), id)
    ensures Driven(p, r, since, v, id, unfailed) && v.calls[id].Done?
  {
    var driven := DrivenSet(p, r, since, id, unfailed);
    v := Drive(p, driven, w, id);
  }

  /** A call that is through leaves nothing to be seen to. */
  lemma DrivenEnds(p: Plan, r: iset<World>, since: map<string, Row>, v: World, id: nat, unfailed: bool)
    requires Driven(p, r, since, v, id, unfailed) && v.calls[id].Done?
    ensures v in r && Fine(p, v, unfailed) && (Finished(v.store.status) || Ahead(v.store.rows) < Ahead(since))
    ensures unfailed ==> !v.store.status.ExecFailed? && !v.store.status.ExecCancelled?
  {
  }

  /** One fresh call finishes the execution, or brings a row closer to its end. */
  lemma OneCall(p: Plan, r: iset<World>, dead: set<nat>, w: World, unfailed: bool) returns (v: World)
    requires Sound(p.def) && OrderlyClosed(p, r, dead) && w in r && Fine(p, w, unfailed) && !Finished(w.store.status)
    ensures v in r && Fine(p, v, unfailed)
    ensures Finished(v.store.status) || Ahead(v.store.rows) < Ahead(w.store.rows)
    ensures unfailed ==> !v.store.status.ExecFailed? && !v.store.status.ExecCancelled?
  {
    var b, id := BeginDriven(p, r, dead, w, unfailed);
    DrivenDrivable(p, r, dead, w.store.rows, id, unfailed);
    v := DriveOut(p, r, w.store.rows, b, id, unfailed);
    DrivenEnds(p, r, w.store.rows, v, id, unfailed);
  }

  lemma {:induction false} FinishFrom(p: Plan, r: iset<World>, dead: set<nat>, w: World, unfailed: bool) returns (v: World)
    requires Sound(p.def) && OrderlyClosed(p, r, dead) && w in r && Fine(p, w, unfailed)
    requires unfailed ==> !w.store.status.ExecFailed? && !w.store.status.ExecCancelled?
    ensures v in r && Finished(v.store.status) && (unfailed ==> v.store.status.ExecSucceeded?)
    decreases Ahead(w.store.rows)
  {
    if Finished(w.store.status) {
      v := w;
    } else {
      v := OneCall(p, r, dead, w, unfailed);
      if !Finished(v.store.status) {
        v := FinishFrom(p, r, dead, v, unfailed);
      }
    }
  }

  lemma {:induction false} RunAnchored(p: Plan, now: int, es: seq<Event>)
    ensures AllAnchored(Run(p, Initial(p, now), es))
  {
    if es != [] {
      var before := es[..|es| - 1];
      RunAnchored(p, now, before);
      InitialInvariant(p, now);
      RunInvariant(p, Initial(p, now), before);
      NextAnchored(p, Run(p, Initial(p, now), before), es[|es| - 1]);
    }
  }

  /** From every reachable open state of a sound definition with no deleted task, however
      many calls have stopped halfway, some continuation without cancellation and without
      any of those calls finishes the execution; if nothing has failed so far, it
      succeeds. */
  lemma CanFinish(p: Plan, now: int, es: seq<Event>) returns (more: seq<Event>)
    requires Sound(p.def) && (forall n | n in Ids(p.def) :: n in p.listing)
    requires var w := Run(p, Initial(p, now), es);
             !Finished(w.store.status) && forall t | t in w.tasks :: !w.tasks[t].state.deleted
    ensures var w := Run(p, Initial(p, now), es);
            && Orderly(p, w, more, w.calls.Keys)
            && Finished(Run(p, w, more).store.status)
            && (Unfailed(w) ==> Run(p, w, more).store.status.ExecSucceeded?)
  {
    var w := Run(p, Initial(p, now), es);
    InitialInvariant(p, now);
    RunInvariant(p, Initial(p, now), es);
    RunAnchored(p, now, es);
    var dead := w.calls.Keys;
    var r := iset v | OrderlyLeads(p, w, v, dead);
    var none: seq<Event> := [];
    assert Orderly(p, w, none, dead) && Run(p, w, none) == w;
    forall v, e | v in r && OrderlyEvent(v, dead, e)
      ensures Next(p, v, e) in r
    {
      OrderlyLeadsOn(p, w, v, dead, e);
    }
    var v := FinishFrom(p, r, dead, w, Unfailed(w));
    more :| Orderly(p, w, more, dead) && Run(p, w, more) == v;
  }
}
