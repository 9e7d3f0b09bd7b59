/** Which nodes run and which are skipped does not depend on the interleaving:
    it is the meaning of the definition for the execution's input. */
module ExecutionMeaning {
  import opened Common
  import opened Workflow
  import opened ExecutionStore
  import opened ExecutionSteps
  import opened ExecutionSafety

  // ----- what the settled rows say about a node

  /** Some incoming edge is active (or the node is a trigger). */
  ghost predicate NodeRuns(p: Plan, rows: map<string, Row>, node: string) {
    KindOf(p.def, node).Trigger?
    || exists e | e in p.def.edges && e.target == node :: EdgeVerdict(p.def, rows, e).Active?
  }

  /** Every incoming edge is decided and none is active. */
  ghost predicate NodeSkips(p: Plan, rows: map<string, Row>, node: string) {
    && !KindOf(p.def, node).Trigger?
    && forall e | e in p.def.edges && e.target == node :: EdgeVerdict(p.def, rows, e).Inactive?
  }

  lemma VerdictKept(p: Plan, s: Store, t: Store, e: Edge)
    requires Evolves(s, t) && !EdgeVerdict(p.def, s.rows, e).Waiting?
    ensures EdgeVerdict(p.def, t.rows, e) == EdgeVerdict(p.def, s.rows, e)
  {
    assert RowEvolves(s.rows[e.source], t.rows[e.source]);
  }

  lemma RunsKept(p: Plan, s: Store, t: Store, node: string)
    requires Evolves(s, t) && NodeRuns(p, s.rows, node)
    ensures NodeRuns(p, t.rows, node)
  {
    if !KindOf(p.def, node).Trigger? {
      var e :| e in p.def.edges && e.target == node && EdgeVerdict(p.def, s.rows, e).Active?;
      VerdictKept(p, s, t, e);
    }
  }

  lemma SkipsKept(p: Plan, s: Store, t: Store, node: string)
    requires Evolves(s, t) && NodeSkips(p, s.rows, node)
    ensures NodeSkips(p, t.rows, node)
  {
    forall e | e in p.def.edges && e.target == node
      ensures EdgeVerdict(p.def, t.rows, e).Inactive?
    {
      VerdictKept(p, s, t, e);
    }
  }

  lemma {:induction false} JudgeMeans(d: Definition, rows: map<string, Row>, edges: seq<Edge>, active: bool)
    ensures Judge(d, rows, edges, active).Runnable? ==>
              active || exists e | e in edges :: EdgeVerdict(d, rows, e).Active?
    ensures Judge(d, rows, edges, active).Skippable? ==>
              !active && forall e | e in edges :: EdgeVerdict(d, rows, e).Inactive?
  {
    if edges != [] {
      JudgeMeans(d, rows, edges[1..], active || EdgeVerdict(d, rows, edges[0]).Active?);
    }
  }

  /** What a scheduling call decides from its snapshot holds of the stored rows. */
  lemma JudgedMeans(p: Plan, s: Store, snapshot: map<string, Row>, node: string)
    requires SnapshotFits(p, s, snapshot)
    ensures Judged(p, snapshot, node).Runnable? ==> NodeRuns(p, s.rows, node)
    ensures Judged(p, snapshot, node).Skippable? ==> NodeSkips(p, s.rows, node)
  {
    var incoming := Incoming(p.def.edges, node);
    var ready := Judged(p, snapshot, node);
    if !KindOf(p.def, node).Trigger? && (ready.Runnable? || ready.Skippable?) {
      JudgeMeans(p.def, snapshot, incoming, false);
      JudgeSettled(p.def, snapshot, incoming, false);
      forall e | e in incoming
        ensures EdgeVerdict(p.def, s.rows, e) == EdgeVerdict(p.def, snapshot, e)
      {
        SettledLater(p, s, snapshot, e);
      }
    }
  }

  // ----- skipped nodes: in every run

  ghost predicate SkipsRight(p: Plan, w: World) {
    && (forall n | n in w.store.rows && w.store.rows[n].status.Skipped? :: NodeSkips(p, w.store.rows, n))
    && (forall id | id in w.calls && w.calls[id].SkipWrite? :: NodeSkips(p, w.store.rows, w.calls[id].item.node))
  }

  lemma StepSkips(p: Plan, w: World, call: Call, dispatch: Dispatch)
    requires CallFits(p, w.store, call)
    requires call.SkipWrite? ==> NodeSkips(p, w.store.rows, call.item.node)
    ensures var f := StepCall(p, w, call, dispatch);
            && (f.call.SkipWrite? ==> NodeSkips(p, w.store.rows, f.call.item.node))
            && (f.update.SwapNode? && f.update.item.row.status.Skipped? ==> NodeSkips(p, w.store.rows, f.update.item.node))
  {
    if call.Schedule? && call.index < |p.def.nodes| {
      var node := p.def.nodes[call.index].id;
      JudgedMeans(p, w.store, call.snapshot, node);
      ScheduleNodeSkips(p, w, call.iteration, node, Judged(p, call.snapshot, node),
                        Schedule(call.iteration, call.snapshot, call.index + 1));
    }
  }

  lemma ScheduleNodeSkips(p: Plan, w: World, iteration: nat, node: string, ready: Readiness, next: Call)
    requires next.Schedule? && (ready.Skippable? ==> NodeSkips(p, w.store.rows, node))
    ensures var f := ScheduleNode(w, iteration, node, ready, next);
            !f.update.SwapNode? && (f.call.SkipWrite? ==> NodeSkips(p, w.store.rows, f.call.item.node))
  {
  }

  lemma NextSkipsRight(p: Plan, w: World, e: Event)
    requires Consistent(p, w) && SkipsRight(p, w)
    ensures SkipsRight(p, Next(p, w, e))
  {
    var w' := Next(p, w, e);
    UpdateOfFits(p, w, e);
    if e.Step? && e.call in w.calls {
      StepSkips(p, w, w.calls[e.call], e.dispatch);
    }
    forall n | n in w'.store.rows && w'.store.rows[n].status.Skipped?
      ensures NodeSkips(p, w'.store.rows, n)
    {
      assert NodeSkips(p, w.store.rows, n);
      SkipsKept(p, w.store, w'.store, n);
    }
    forall id | id in w'.calls && w'.calls[id].SkipWrite?
      ensures NodeSkips(p, w'.store.rows, w'.calls[id].item.node)
    {
      assert NodeSkips(p, w.store.rows, w'.calls[id].item.node);
      SkipsKept(p, w.store, w'.store, w'.calls[id].item.node);
    }
  }

  // ----- executed nodes: until a skip claim is taken over

  /** The row shows that the node was executed. */
  predicate Committed(row: Row) {
    || row.status.Queued? || row.status.Succeeded? || row.status.Failed?
    || row.task.Some? || row.delivery.Some? || row.availableAt.Some?
  }

  predicate BareClaim(row: Row) {
    row.status.Running? && !Committed(row)
  }

  /** A call holds the stored row for skipping. */
  ghost predicate HeldForSkip(w: World, node: string) {
    exists id :: id in w.calls && w.calls[id].SkipWrite? && node in w.store.rows
                 && w.calls[id].item == Item(node, w.store.rows[node])
  }

  /** The event stores an executed row over a claim held for skipping. */
  ghost predicate Steals(p: Plan, w: World, e: Event, node: string) {
    var u := UpdateOf(p, w, e);
    && u.SwapNode? && u.item.node == node && !u.item.row.status.Skipped?
    && CanSwap(w.store, node, u.expected) && HeldForSkip(w, node)
  }

  ghost predicate RowMeans(p: Plan, w: World, node: string)
    requires node in w.store.rows
  {
    && (Committed(w.store.rows[node]) ==> NodeRuns(p, w.store.rows, node))
    && (BareClaim(w.store.rows[node]) ==> NodeRuns(p, w.store.rows, node) || HeldForSkip(w, node))
  }

  /** What calls are about to store: a claim held for skipping shows no execution, and
      anything else does. */
  predicate WriteShows(call: Call) {
    match call
    case SkipWrite(_, item) => BareClaim(item.row)
    case Write(item, _) => Committed(item.row) && !item.row.status.Skipped?
    case FailWrite(item, _) => Committed(item.row) && !item.row.status.Skipped?
    case MirrorWrite(_, item, _, _, _) => Committed(item.row) && !item.row.status.Skipped?
    case _ => true
  }

  ghost predicate WritesShow(w: World) {
    forall id | id in w.calls :: WriteShows(w.calls[id])
  }

  lemma ExecuteShows(w: World, item: Item, kind: NodeKind, config: Config, computed: Option<Output>, back: Back, dispatch: Dispatch)
    ensures WriteShows(ExecuteNode(w, item, kind, config, computed, back, dispatch).call)
  {
  }

  lemma ScheduleShows(w: World, iteration: nat, node: string, ready: Readiness, next: Call)
    requires next.Schedule? && (CanClaim(w.store, node) ==> !Committed(w.store.rows[node]))
    ensures WriteShows(ScheduleNode(w, iteration, node, ready, next).call)
  {
  }

  lemma MirrorShows(p: Plan, w: World, iteration: nat, todo: seq<Item>, changed: bool)
    ensures WriteShows(MirrorStep(p, w, iteration, todo, changed).call)
  {
  }

  lemma ScheduleStepShows(p: Plan, w: World, iteration: nat, snapshot: map<string, Row>, index: nat)
    requires Consistent(p, w)
    ensures WriteShows(ScheduleStep(p, w, iteration, snapshot, index).call)
  {
    if index < |p.def.nodes| {
      var node := p.def.nodes[index].id;
      if CanClaim(w.store, node) {
        assert RowFits(p, node, w.store.rows[node]);
      }
      ScheduleShows(w, iteration, node, Judged(p, snapshot, node), Schedule(iteration, snapshot, index + 1));
    }
  }

  lemma StepShows(p: Plan, w: World, call: Call, dispatch: Dispatch)
    requires Consistent(p, w)
    ensures WriteShows(StepCall(p, w, call, dispatch).call)
  {
    match call
    case Execute(item, back) =>
      ExecuteShows(w, item, KindOf(p.def, item.node), ConfigOf(p.def, item.node), Computed(p, item.node), back, dispatch);
    case Mirror(iteration, todo, changed) => MirrorShows(p, w, iteration, todo, changed);
    case Schedule(iteration, snapshot, index) => ScheduleStepShows(p, w, iteration, snapshot, index);
    case _ =>
  }

  lemma NextWritesShow(p: Plan, w: World, e: Event)
    requires Consistent(p, w) && WritesShow(w)
    ensures WritesShow(Next(p, w, e))
  {
    if e.Step? && e.call in w.calls {
      StepShows(p, w, w.calls[e.call], e.dispatch);
    }
  }

  /** A swap stores a skip, or an execution that shows. */
  lemma SwapShows(p: Plan, w: World, e: Event)
    requires WritesShow(w)
    ensures var u := UpdateOf(p, w, e);
            u.SwapNode? ==> (Committed(u.item.row) <==> !u.item.row.status.Skipped?)
  {
    if e.Step? && e.call in w.calls {
      assert WriteShows(w.calls[e.call]);
    }
  }

  /** A claim is made by a scheduling call, which then runs the node or holds it for skipping. */
  lemma StepClaims(p: Plan, w: World, call: Call, dispatch: Dispatch)
    requires CallFits(p, w.store, call)
    ensures var f := StepCall(p, w, call, dispatch);
            f.update.ClaimNode? && CanClaim(w.store, f.update.node) ==>
              || NodeRuns(p, w.store.rows, f.update.node)
              || (f.call.SkipWrite? && f.call.item == Item(f.update.node, ClaimedRow(w.store.rows[f.update.node], w.now)))
  {
    if call.Schedule? && call.index < |p.def.nodes| {
      var node := p.def.nodes[call.index].id;
      JudgedMeans(p, w.store, call.snapshot, node);
      ScheduleNodeClaims(p, w, call.iteration, node, Judged(p, call.snapshot, node),
                         Schedule(call.iteration, call.snapshot, call.index + 1));
    }
  }

  lemma ScheduleNodeClaims(p: Plan, w: World, iteration: nat, node: string, ready: Readiness, next: Call)
    requires ready.Runnable? ==> NodeRuns(p, w.store.rows, node)
    ensures var f := ScheduleNode(w, iteration, node, ready, next);
            f.update.ClaimNode? ==>
              && f.update.node == node && CanClaim(w.store, node)
              && (NodeRuns(p, w.store.rows, node)
                  || f.call == SkipWrite(iteration, Item(node, ClaimedRow(w.store.rows[node], w.now))))
  {
  }

  /** A node claimed by this event runs, or is held for skipping by the claimant. */
  lemma NextClaimMeans(p: Plan, w: World, e: Event, n: string)
    requires Consistent(p, w) && UpdateOf(p, w, e) == ClaimNode(n) && CanClaim(w.store, n)
    ensures NodeRuns(p, w.store.rows, n) || HeldForSkip(Next(p, w, e), n)
  {
    StepClaims(p, w, w.calls[e.call], e.dispatch);
    if !NodeRuns(p, w.store.rows, n) {
      assert Next(p, w, e).calls[e.call].SkipWrite?;
    }
  }

  /** A bare claim left alone keeps its holder. */
  lemma HolderStays(p: Plan, w: World, e: Event, n: string)
    requires HeldForSkip(w, n) && n in Next(p, w, e).store.rows && Next(p, w, e).store.rows[n] == w.store.rows[n]
    requires BareClaim(w.store.rows[n])
    ensures HeldForSkip(Next(p, w, e), n)
  {
    var id :| id in w.calls && w.calls[id].SkipWrite? && w.calls[id].item == Item(n, w.store.rows[n]);
    assert !(e.Step? && e.call == id);
    assert Next(p, w, e).calls[id] == w.calls[id];
  }

  /** Unless a skip claim on it is taken over, a row that shows execution belongs to a
      node that runs. */
  lemma NextRowMeans(p: Plan, w: World, e: Event, n: string)
    requires Consistent(p, w) && WritesShow(w) && n in w.store.rows
    requires RowMeans(p, w, n) && !Steals(p, w, e, n)
    ensures n in Next(p, w, e).store.rows && RowMeans(p, Next(p, w, e), n)
  {
    var w', u := Next(p, w, e), UpdateOf(p, w, e);
    UpdateOfFits(p, w, e);
    SwapShows(p, w, e);
    if NodeRuns(p, w.store.rows, n) {
      RunsKept(p, w.store, w'.store, n);
    } else if u == ClaimNode(n) && CanClaim(w.store, n) {
      assert RowFits(p, n, w.store.rows[n]);
      NextClaimMeans(p, w, e, n);
    } else if w'.store.rows[n] == w.store.rows[n] && BareClaim(w.store.rows[n]) {
      HolderStays(p, w, e, n);
    }
  }

  /** A stolen node was to be skipped; now its row shows execution. */
  lemma StealBreaks(p: Plan, w: World, e: Event, n: string)
    requires Consistent(p, w) && WritesShow(w) && SkipsRight(p, w) && Steals(p, w, e, n)
    ensures NodeSkips(p, w.store.rows, n) && !NodeRuns(p, Next(p, w, e).store.rows, n)
    ensures n in Next(p, w, e).store.rows && Committed(Next(p, w, e).store.rows[n])
  {
    UpdateOfFits(p, w, e);
    SwapShows(p, w, e);
    SkipsKept(p, w.store, Next(p, w, e).store, n);
  }

  // ----- skip claims written within their lease are not taken over

  /** No executed row for this node can be stored any more unless the node runs. */
  ghost predicate RunsOrOver(p: Plan, rows: map<string, Row>, node: string) {
    NodeRuns(p, rows, node) || (node in rows && Terminal(rows[node].status))
  }

  ghost predicate CopyMeans(p: Plan, rows: map<string, Row>, item: Item) {
    && (Committed(item.row) ==> NodeRuns(p, rows, item.node))
    && (BareClaim(item.row) ==>
          RunsOrOver(p, rows, item.node) || (item.node in rows && rows[item.node] == item.row))
  }

  ghost predicate CopiesMean(p: Plan, rows: map<string, Row>, items: seq<Item>) {
    forall i | 0 <= i < |items| :: CopyMeans(p, rows, items[i])
  }

  ghost predicate BackMeans(p: Plan, rows: map<string, Row>, back: Back) {
    back.ToMirror? ==> CopiesMean(p, rows, back.todo)
  }

  ghost predicate CallMeans(p: Plan, rows: map<string, Row>, call: Call) {
    match call
    case Mirror(_, todo, _) => CopiesMean(p, rows, todo)
    case MirrorWrite(_, item, _, todo, _) => NodeRuns(p, rows, item.node) && CopiesMean(p, rows, todo)
    case Execute(item, back) => RunsOrOver(p, rows, item.node) && BackMeans(p, rows, back)
    case Write(item, back) => RunsOrOver(p, rows, item.node) && BackMeans(p, rows, back)
    case FailWrite(item, back) => RunsOrOver(p, rows, item.node) && BackMeans(p, rows, back)
    case FailExecution(back) => BackMeans(p, rows, back)
    case SkipWrite(_, item) => BareClaim(item.row)
    case _ => true
  }

  ghost predicate RunsRight(p: Plan, w: World) {
    && (forall n | n in w.store.rows :: RowMeans(p, w, n))
    && (forall id | id in w.calls :: CallMeans(p, w.store.rows, w.calls[id]))
    && WritesShow(w)
  }

  /** Every skip claim still to be written is inside its lease. */
  ghost predicate SkipsInTime(w: World) {
    forall id | id in w.calls && w.calls[id].SkipWrite? :: w.now < w.calls[id].item.row.updatedAt + LEASE
  }

  /** The update stores an executed row only for a node that runs. */
  ghost predicate UpdateMeans(p: Plan, s: Store, u: Update) {
    u.SwapNode? ==>
      if u.item.row.status.Skipped? then !Committed(u.item.row) else RunsOrOver(p, s.rows, u.item.node)
  }

  /** A bare claim on a node that does not run is only ever skipped or cancelled. */
  lemma BareClaimKept(p: Plan, s: Store, u: Update, now: int, node: string)
    requires UpdateFits(p, s, u) && UpdateMeans(p, s, u)
    requires node in s.rows && BareClaim(s.rows[node]) && !NodeRuns(p, s.rows, node)
    ensures var t := Apply(s, u, now);
            node in t.rows && (t.rows[node] == s.rows[node] || Terminal(t.rows[node].status))
  {
  }

  lemma RunsOrOverKept(p: Plan, s: Store, t: Store, node: string)
    requires Evolves(s, t) && RunsOrOver(p, s.rows, node)
    ensures RunsOrOver(p, t.rows, node)
  {
    if NodeRuns(p, s.rows, node) {
      RunsKept(p, s, t, node);
    } else {
      assert RowEvolves(s.rows[node], t.rows[node]);
    }
  }

  lemma CopyMeansKept(p: Plan, s: Store, u: Update, now: int, item: Item)
    requires UpdateFits(p, s, u) && UpdateMeans(p, s, u) && CopyMeans(p, s.rows, item)
    ensures CopyMeans(p, Apply(s, u, now).rows, item)
  {
    ApplyEvolves(p, s, u, now);
    var t := Apply(s, u, now);
    if NodeRuns(p, s.rows, item.node) {
      RunsKept(p, s, t, item.node);
    } else if BareClaim(item.row) {
      if RunsOrOver(p, s.rows, item.node) {
        RunsOrOverKept(p, s, t, item.node);
      } else {
        BareClaimKept(p, s, u, now, item.node);
      }
    }
  }

  lemma CopiesMeanKept(p: Plan, s: Store, u: Update, now: int, items: seq<Item>)
    requires UpdateFits(p, s, u) && UpdateMeans(p, s, u) && CopiesMean(p, s.rows, items)
    ensures CopiesMean(p, Apply(s, u, now).rows, items)
  {
    forall i | 0 <= i < |items|
      ensures CopyMeans(p, Apply(s, u, now).rows, items[i])
    {
      CopyMeansKept(p, s, u, now, items[i]);
    }
  }

  lemma BackMeansKept(p: Plan, s: Store, u: Update, now: int, back: Back)
    requires UpdateFits(p, s, u) && UpdateMeans(p, s, u) && BackMeans(p, s.rows, back)
    ensures BackMeans(p, Apply(s, u, now).rows, back)
  {
    if back.ToMirror? {
      CopiesMeanKept(p, s, u, now, back.todo);
    }
  }

  lemma CallMeansKept(p: Plan, s: Store, u: Update, now: int, call: Call)
    requires UpdateFits(p, s, u) && UpdateMeans(p, s, u) && CallMeans(p, s.rows, call)
    ensures CallMeans(p, Apply(s, u, now).rows, call)
  {
    ApplyEvolves(p, s, u, now);
    var t := Apply(s, u, now);
    match call
    case Mirror(_, todo, _) => CopiesMeanKept(p, s, u, now, todo);
    case MirrorWrite(_, item, _, todo, _) => RunsKept(p, s, t, item.node); CopiesMeanKept(p, s, u, now, todo);
    case Execute(item, back) => RunsOrOverKept(p, s, t, item.node); BackMeansKept(p, s, u, now, back);
    case Write(item, back) => RunsOrOverKept(p, s, t, item.node); BackMeansKept(p, s, u, now, back);
    case FailWrite(item, back) => RunsOrOverKept(p, s, t, item.node); BackMeansKept(p, s, u, now, back);
    case FailExecution(back) => BackMeansKept(p, s, u, now, back);
    case _ =>
  }

  lemma {:induction false} ListedMeans(p: Plan, w: World, listing: seq<string>)
    requires forall n | n in w.store.rows :: RowMeans(p, w, n)
    ensures CopiesMean(p, w.store.rows, Listed(listing, w.store.rows))
  {
    if listing != [] {
      ListedMeans(p, w, listing[1..]);
    }
  }

  /** A reconciler that finds a claim past its lease can execute it: the claim was
      not made for skipping, or it has been dealt with since. */
  lemma StaleMeans(p: Plan, w: World, item: Item)
    requires RunsRight(p, w) && SkipsInTime(w)
    requires CopyFits(p, w.store, item) && CopyMeans(p, w.store.rows, item) && Stale(p, w.now, item)
    ensures RunsOrOver(p, w.store.rows, item.node)
  {
    assert RowMeans(p, w, item.node);
  }

  lemma MirrorMeans(p: Plan, w: World, iteration: nat, todo: seq<Item>, changed: bool)
    requires RunsRight(p, w) && SkipsInTime(w)
    requires CopiesFit(p, w.store, todo) && CopiesMean(p, w.store.rows, todo)
    ensures CallMeans(p, w.store.rows, MirrorStep(p, w, iteration, todo, changed).call)
  {
    if todo != [] {
      assert CopyFits(p, w.store, todo[0]) && CopyMeans(p, w.store.rows, todo[0]);
      assert CopiesMean(p, w.store.rows, todo[1..]);
      if Stale(p, w.now, todo[0]) {
        StaleMeans(p, w, todo[0]);
      }
    }
  }

  lemma ExecuteMeans(p: Plan, w: World, item: Item, kind: NodeKind, config: Config, computed: Option<Output>, back: Back, dispatch: Dispatch)
    requires RunsOrOver(p, w.store.rows, item.node) && BackMeans(p, w.store.rows, back)
    ensures var f := ExecuteNode(w, item, kind, config, computed, back, dispatch);
            f.update.NoUpdate? && CallMeans(p, w.store.rows, f.call)
  {
  }

  lemma ScheduleMeans(p: Plan, w: World, iteration: nat, snapshot: map<string, Row>, index: nat)
    requires Consistent(p, w) && SnapshotFits(p, w.store, snapshot)
    ensures var f := ScheduleStep(p, w, iteration, snapshot, index);
            !f.update.SwapNode? && CallMeans(p, w.store.rows, f.call)
  {
    if index < |p.def.nodes| {
      var node := p.def.nodes[index].id;
      JudgedMeans(p, w.store, snapshot, node);
      ScheduleNodeMeans(p, w, iteration, node, Judged(p, snapshot, node), Schedule(iteration, snapshot, index + 1));
    }
  }

  lemma ScheduleNodeMeans(p: Plan, w: World, iteration: nat, node: string, ready: Readiness, next: Call)
    requires Consistent(p, w) && next.Schedule?
    requires ready.Runnable? ==> NodeRuns(p, w.store.rows, node)
    ensures var f := ScheduleNode(w, iteration, node, ready, next);
            !f.update.SwapNode? && CallMeans(p, w.store.rows, f.call)
  {
    if CanClaim(w.store, node) {
      assert RowFits(p, node, w.store.rows[node]);
    }
  }

  /** What a step stores, and what its call then holds, belongs to nodes that run. */
  ghost predicate StepRight(p: Plan, w: World, call: Call, dispatch: Dispatch) {
    && UpdateMeans(p, w.store, StepCall(p, w, call, dispatch).update)
    && CallMeans(p, w.store.rows, StepCall(p, w, call, dispatch).call)
  }

  lemma ReadMeans(p: Plan, w: World, call: Call, dispatch: Dispatch)
    requires RunsRight(p, w) && SkipsInTime(w) && (call.Load? || call.Mirror?)
    requires CallFits(p, w.store, call) && CallMeans(p, w.store.rows, call)
    ensures StepRight(p, w, call, dispatch)
  {
    match call
    case Load(_) => ListedMeans(p, w, p.listing);
    case Mirror(iteration, todo, changed) => MirrorMeans(p, w, iteration, todo, changed);
  }

  lemma ExecuteStepMeans(p: Plan, w: World, call: Call, dispatch: Dispatch)
    requires call.Execute? && CallMeans(p, w.store.rows, call)
    ensures StepRight(p, w, call, dispatch)
  {
    var item := call.item;
    ExecuteMeans(p, w, item, KindOf(p.def, item.node), ConfigOf(p.def, item.node), Computed(p, item.node), call.back, dispatch);
  }

  lemma WriteMeans(p: Plan, w: World, call: Call, dispatch: Dispatch)
    requires !call.Load? && !call.Mirror? && !call.Schedule? && !call.Execute?
    requires CallFits(p, w.store, call) && CallMeans(p, w.store.rows, call)
    ensures StepRight(p, w, call, dispatch)
  {
  }

  lemma StepMeans(p: Plan, w: World, call: Call, dispatch: Dispatch)
    requires Consistent(p, w) && RunsRight(p, w) && SkipsInTime(w)
    requires CallFits(p, w.store, call) && CallMeans(p, w.store.rows, call)
    ensures StepRight(p, w, call, dispatch)
  {
    if call.Load? || call.Mirror? {
      ReadMeans(p, w, call, dispatch);
    } else if call.Execute? {
      ExecuteStepMeans(p, w, call, dispatch);
    } else if call.Schedule? {
      ScheduleMeans(p, w, call.iteration, call.snapshot, call.index);
    } else {
      WriteMeans(p, w, call, dispatch);
    }
  }

  lemma NextUpdateMeans(p: Plan, w: World, e: Event)
    requires Consistent(p, w) && RunsRight(p, w) && SkipsInTime(w)
    ensures UpdateMeans(p, w.store, UpdateOf(p, w, e))
  {
    if e.Step? && e.call in w.calls {
      StepMeans(p, w, w.calls[e.call], e.dispatch);
    }
  }

  lemma TimelyNotStolen(p: Plan, w: World, e: Event, n: string)
    requires Consistent(p, w) && SkipsRight(p, w) && RunsRight(p, w) && SkipsInTime(w)
    ensures !Steals(p, w, e, n)
  {
    UpdateOfFits(p, w, e);
    NextUpdateMeans(p, w, e);
  }

  lemma NextRunsRight(p: Plan, w: World, e: Event)
    requires Consistent(p, w) && SkipsRight(p, w) && RunsRight(p, w) && SkipsInTime(w)
    ensures RunsRight(p, Next(p, w, e))
  {
    var w', u := Next(p, w, e), UpdateOf(p, w, e);
    UpdateOfFits(p, w, e);
    NextWritesShow(p, w, e);
    NextUpdateMeans(p, w, e);
    forall n | n in w'.store.rows
      ensures RowMeans(p, w', n)
    {
      TimelyNotStolen(p, w, e, n);
      NextRowMeans(p, w, e, n);
    }
    forall id | id in w'.calls
      ensures CallMeans(p, w'.store.rows, w'.calls[id])
    {
      NextCallMeans(p, w, e, id);
    }
  }

  lemma NextCallMeans(p: Plan, w: World, e: Event, id: nat)
    requires Consistent(p, w) && RunsRight(p, w) && SkipsInTime(w) && id in Next(p, w, e).calls
    ensures CallMeans(p, Next(p, w, e).store.rows, Next(p, w, e).calls[id])
  {
    var w', u := Next(p, w, e), UpdateOf(p, w, e);
    UpdateOfFits(p, w, e);
    NextUpdateMeans(p, w, e);
    if e.Step? && e.call in w.calls {
      StepMeans(p, w, w.calls[e.call], e.dispatch);
    }
    CallMeansKept(p, w.store, u, w.now, w'.calls[id]);
  }
}
