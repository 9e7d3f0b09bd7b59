/** One call left to itself: it always ends, and it starts at most one piece of outside
    work in every second round. */
module ExecutionCalls {
  import opened Workflow
  import opened ExecutionStore
  import opened ExecutionSteps
  import opened ExecutionSafety
  import opened ExecutionRuns

  /** Only this call takes steps. */
  predicate Alone(es: seq<Event>, id: nat) {
    forall i | 0 <= i < |es| :: es[i].Step? && es[i].call == id
  }

  /** The dispatcher accepts, under an id not used before. */
  predicate Fresh(w: World, d: Dispatch) {
    d.Accepted? && d.newId !in w.tasks
  }

  // ----- every call ends

  function Left(p: Plan, iteration: nat): nat {
    if iteration <= |p.def.nodes| + 1 then |p.def.nodes| + 2 - iteration else 0
  }

  function LeftAfter(p: Plan, back: Back): nat {
    if back.ToEnd? then 0 else Left(p, back.iteration)
  }

  /** Rounds, then the phase of a round, then what is left of the phase. */
  function RoundsLeft(p: Plan, call: Call): nat {
    match call
    case Fetch => |p.def.nodes| + 4
    case Start => |p.def.nodes| + 3
    case Load(it) => Left(p, it)
    case Mirror(it, _, _) => Left(p, it)
    case MirrorWrite(it, _, _, _, _) => Left(p, it)
    case Reload(it) => Left(p, it)
    case Schedule(it, _, _) => Left(p, it)
    case SkipWrite(it, _) => Left(p, it)
    case Execute(_, back) => LeftAfter(p, back)
    case Write(_, back) => LeftAfter(p, back)
    case FailWrite(_, back) => LeftAfter(p, back)
    case FailExecution(back) => LeftAfter(p, back)
    case Complete(_) => 0
    case Done => 0
  }

  function Phase(call: Call): nat {
    match call
    case Fetch => 6
    case Start => 6
    case Load(_) => 6
    case Mirror(_, _, _) => 5
    case MirrorWrite(_, _, _, _, _) => 5
    case Reload(_) => 4
    case Schedule(_, _, _) => 3
    case SkipWrite(_, _) => 2
    case Execute(_, back) => if back.ToMirror? then 5 else 2
    case Write(_, back) => if back.ToMirror? then 5 else 2
    case FailWrite(_, back) => if back.ToMirror? then 5 else 2
    case FailExecution(back) => if back.ToMirror? then 5 else 2
    case Complete(_) => 1
    case Done => 0
  }

  function Todo(back: Back): nat {
    if back.ToMirror? then 4 * |back.todo| else 0
  }

  function PhaseLeft(p: Plan, call: Call): nat {
    match call
    case Mirror(_, todo, _) => 4 * |todo|
    case MirrorWrite(_, _, _, todo, _) => 4 * |todo| + 1
    case Schedule(_, _, index) => if index < |p.def.nodes| then |p.def.nodes| - index else 0
    case Execute(_, back) => Todo(back) + 3
    case Write(_, back) => Todo(back) + 1
    case FailWrite(_, back) => Todo(back) + 2
    case FailExecution(back) => Todo(back) + 1
    case _ => 0
  }

  predicate BackInRounds(p: Plan, back: Back) {
    !back.ToEnd? ==> back.iteration <= |p.def.nodes| + 1
  }

  /** Past its load, a round is one the loop allows. */
  predicate InRounds(p: Plan, call: Call) {
    match call
    case Mirror(it, _, _) => it <= |p.def.nodes| + 1
    case MirrorWrite(it, _, _, _, _) => it <= |p.def.nodes| + 1
    case Reload(it) => it <= |p.def.nodes| + 1
    case Schedule(it, _, _) => it <= |p.def.nodes| + 1
    case SkipWrite(it, _) => it <= |p.def.nodes| + 1
    case Execute(_, back) => BackInRounds(p, back)
    case Write(_, back) => BackInRounds(p, back)
    case FailWrite(_, back) => BackInRounds(p, back)
    case FailExecution(back) => BackInRounds(p, back)
    case _ => true
  }

  ghost predicate Descends(p: Plan, a: Call, b: Call) {
    || RoundsLeft(p, b) < RoundsLeft(p, a)
    || (RoundsLeft(p, b) == RoundsLeft(p, a) && Phase(b) < Phase(a))
    || (RoundsLeft(p, b) == RoundsLeft(p, a) && Phase(b) == Phase(a) && PhaseLeft(p, b) < PhaseLeft(p, a))
  }

  lemma ExecuteDescends(p: Plan, w: World, item: Item, back: Back, dispatch: Dispatch)
    requires BackInRounds(p, back)
    ensures var next := ExecuteStep(p, w, item, back, dispatch).call;
            InRounds(p, next) && Descends(p, Execute(item, back), next)
  {
    ExecuteStores(p, w, item, back, dispatch);
  }

  lemma MirrorDescends(p: Plan, w: World, it: nat, todo: seq<Item>, changed: bool)
    requires it <= |p.def.nodes| + 1
    ensures var next := MirrorStep(p, w, it, todo, changed).call;
            InRounds(p, next) && Descends(p, Mirror(it, todo, changed), next)
  {
  }

  lemma ScheduleDescends(p: Plan, w: World, it: nat, snapshot: map<string, Row>, index: nat)
    requires it <= |p.def.nodes| + 1
    ensures var next := ScheduleStep(p, w, it, snapshot, index).call;
            InRounds(p, next) && Descends(p, Schedule(it, snapshot, index), next)
  {
  }

  lemma ResumeDescends(p: Plan, back: Back)
    requires BackInRounds(p, back)
    ensures InRounds(p, Resume(back)) && forall item :: Descends(p, Write(item, back), Resume(back))
    ensures Descends(p, FailExecution(back), Resume(back))
  {
  }

  lemma StepDescends(p: Plan, w: World, call: Call, dispatch: Dispatch)
    requires InRounds(p, call) && !call.Done?
    ensures var next := StepCall(p, w, call, dispatch).call; InRounds(p, next) && Descends(p, call, next)
  {
    match call
    case Execute(item, back) => ExecuteDescends(p, w, item, back, dispatch);
    case Mirror(it, todo, changed) => MirrorDescends(p, w, it, todo, changed);
    case Schedule(it, snapshot, index) => ScheduleDescends(p, w, it, snapshot, index);
    case Write(item, back) => ResumeDescends(p, back);
    case FailExecution(back) => ResumeDescends(p, back);
    case _ =>
  }

  ghost predicate CanStep(p: Plan, r: iset<World>, id: nat, v: World) {
    exists d :: Next(p, v, Step(id, d)) in r
  }

  /** From every world of the set, some step of the call stays in it. */
  ghost predicate Drivable(p: Plan, r: iset<World>, id: nat) {
    forall v | v in r :: CanStep(p, r, id, v)
  }

  /** So the call can be brought to its end without leaving the set. */
  lemma {:induction false} Drive(p: Plan, r: iset<World>, w: World, id: nat) returns (v: World)
    requires Drivable(p, r, id) && w in r && id in w.calls && InRounds(p, w.calls[id])
    ensures v in r && id in v.calls && v.calls[id].Done?
    decreases RoundsLeft(p, w.calls[id]), Phase(w.calls[id]), PhaseLeft(p, w.calls[id])
  {
    if w.calls[id].Done? {
      v := w;
    } else {
      assert CanStep(p, r, id, w);
      var d :| Next(p, w, Step(id, d)) in r;
      StepDescends(p, w, w.calls[id], d);
      v := Drive(p, r, Next(p, w, Step(id, d)), id);
    }
  }

  // ----- how much one call starts

  /** The outside work created so far. */
  function Work(w: World): nat {
    |w.tasks| + |w.deliveries|
  }

  /** Mirroring has something to store for a queued row. */
  predicate IsNews(p: Plan, w: World, n: string) {
    n in w.store.rows && w.store.rows[n].status.Queued? && Mirrored(p, w.now, w.tasks, w.deliveries, Item(n, w.store.rows[n])).Some?
  }

  ghost predicate News(p: Plan, w: World) {
    exists n :: IsNews(p, w, n)
  }

  ghost function Grace(p: Plan, w: World): nat {
    if News(p, w) then 1 else 0
  }

  /** No claim is old enough to be taken over. */
  ghost predicate NoneOverdue(p: Plan, w: World) {
    forall n | n in w.store.rows :: !Stale(p, w.now, Item(n, w.store.rows[n]))
  }

  predicate Current(w: World, item: Item) {
    item.node in w.store.rows && w.store.rows[item.node] == item.row
  }

  /** What a call that started `d` pieces of work since round `first` looks like. */
  ghost predicate Paced(p: Plan, w: World, call: Call, d: int, first: nat) {
    match call
    case Fetch => d == 0 && first == 0
    case Start => d == 0 && first == 0
    case Load(it) => 2 * d <= it - first + Grace(p, w)
    case Mirror(it, todo, changed) =>
      && it <= |p.def.nodes| + 1 && 2 * d <= it - first + 1
      && (forall item | item in todo :: !Stale(p, w.now, item))
      && (!changed ==> 2 * d <= it - first + Grace(p, w))
      && (!changed ==> forall item | item in todo :: Current(w, item))
      && (!changed ==> forall n | IsNews(p, w, n) :: Item(n, w.store.rows[n]) in todo)
    case MirrorWrite(it, item, expected, todo, changed) =>
      && it <= |p.def.nodes| + 1 && 2 * d <= it - first + 1
      && (forall other | other in todo :: !Stale(p, w.now, other))
      && !Stale(p, w.now, item) && (changed || CanSwap(w.store, item.node, expected))
    case Reload(it) => it <= |p.def.nodes| + 1 && 2 * d <= it - first
    case Schedule(it, _, _) => it <= |p.def.nodes| + 1 && 2 * d <= it - first
    case SkipWrite(it, _) => it <= |p.def.nodes| + 1 && 2 * d <= it - first
    case Execute(item, ToLoop(it)) =>
      && it <= |p.def.nodes| + 1 && 2 * d <= it - first
      && CanSwap(w.store, item.node, Running) && item.row.attempt > 0 && RowFits(p, item.node, item.row)
    case Write(item, ToLoop(it)) =>
      && it <= |p.def.nodes| + 1 && CanSwap(w.store, item.node, Running) && !item.row.status.Running?
      && if item.row.status.Queued? && Mirrored(p, w.now, w.tasks, w.deliveries, item).Some? then 2 * d <= it - first + 2
         else 2 * d <= it - first
    case FailWrite(item, ToLoop(it)) => it <= |p.def.nodes| + 1 && 2 * d <= it - first && item.row.status.Failed?
    case FailExecution(ToLoop(it)) => it <= |p.def.nodes| + 1 && 2 * d <= it - first
    case FailExecution(ToEnd) => true
    case Complete(_) => true
    case Done => true
    case _ => false
  }

  /** The pace of the whole call. */
  ghost predicate Keeps(p: Plan, w: World, id: nat, base: nat, first: nat) {
    && id in w.calls && base <= Work(w) && NoneOverdue(p, w)
    && (forall n | n in w.store.rows :: n in p.listing)
    && 2 * (Work(w) - base) <= |p.def.nodes| + 3 - first
    && Paced(p, w, w.calls[id], Work(w) - base, first)
  }

  ghost predicate KeepsAfter(p: Plan, w: World, id: nat, dispatch: Dispatch, base: nat, first: nat) {
    Keeps(p, Next(p, w, Step(id, dispatch)), id, base, first)
  }

  /** What mirroring stores is linked or finished, so nobody takes it over. */
  lemma MirroredNotStale(p: Plan, w: World, item: Item)
    requires Mirrored(p, w.now, w.tasks, w.deliveries, item).Some?
    ensures !Stale(p, w.now, Item(item.node, Mirrored(p, w.now, w.tasks, w.deliveries, item).value))
  {
  }

  lemma {:induction false} ListedRows(listing: seq<string>, rows: map<string, Row>)
    ensures forall n | n in listing && n in rows :: Item(n, rows[n]) in Listed(listing, rows)
    ensures forall item | item in Listed(listing, rows) :: item.node in rows && rows[item.node] == item.row
  {
    if listing != [] {
      ListedRows(listing[1..], rows);
    }
  }

  /** A step that only moves the call on. */
  lemma QuietPaced(p: Plan, w: World, id: nat, call: Call, base: nat, first: nat)
    requires Keeps(p, w, id, base, first) && Paced(p, w, call, Work(w) - base, first)
    ensures Keeps(p, w.(calls := w.calls[id := call]), id, base, first)
  {
    var v := w.(calls := w.calls[id := call]);
    assert forall n :: IsNews(p, v, n) <==> IsNews(p, w, n);
    assert News(p, v) <==> News(p, w);
    assert forall item :: Current(v, item) <==> Current(w, item);
  }

  lemma LoadPaced(p: Plan, w: World, id: nat, dispatch: Dispatch, base: nat, first: nat)
    requires Keeps(p, w, id, base, first) && w.calls[id].Load?
    ensures KeepsAfter(p, w, id, dispatch, base, first)
  {
    ListedRows(p.listing, w.store.rows);
    var next := StepCall(p, w, w.calls[id], dispatch).call;
    assert Next(p, w, Step(id, dispatch)) == w.(calls := w.calls[id := next]);
    QuietPaced(p, w, id, next, base, first);
  }

  /** A listed row that is no news is passed over. */
  lemma MirrorPasses(p: Plan, w: World, it: nat, todo: seq<Item>, changed: bool, d: int, first: nat)
    requires Paced(p, w, Mirror(it, todo, changed), d, first) && todo != [] && (!changed ==> !IsNews(p, w, todo[0].node))
    ensures Paced(p, w, Mirror(it, todo[1..], changed), d, first)
  {
    assert forall item | item in todo :: item == todo[0] || item in todo[1..];
  }

  lemma MirrorStores(p: Plan, w: World, it: nat, todo: seq<Item>, changed: bool, d: int, first: nat)
    requires Paced(p, w, Mirror(it, todo, changed), d, first) && todo != []
    requires Mirrored(p, w.now, w.tasks, w.deliveries, todo[0]).Some?
    ensures var seen := Mirrored(p, w.now, w.tasks, w.deliveries, todo[0]).value;
            Paced(p, w, MirrorWrite(it, todo[0].(row := seen), todo[0].row.status, todo[1..], changed), d, first)
  {
    MirroredNotStale(p, w, todo[0]);
    assert todo[0] in todo;
  }

  lemma MirrorOn(p: Plan, w: World, it: nat, todo: seq<Item>, changed: bool, d: int, first: nat)
    requires Paced(p, w, Mirror(it, todo, changed), d, first)
    ensures Paced(p, w, MirrorStep(p, w, it, todo, changed).call, d, first)
  {
    if todo == [] {
    } else {
      assert todo[0] in todo && !Stale(p, w.now, todo[0]) && (!changed ==> Current(w, todo[0]));
      var seen := Mirrored(p, w.now, w.tasks, w.deliveries, todo[0]);
      if (todo[0].row.status.Queued? || todo[0].row.status.Running?) && seen.Some? {
        MirrorStores(p, w, it, todo, changed, d, first);
      } else {
        MirrorPasses(p, w, it, todo, changed, d, first);
      }
    }
  }

  lemma MirrorQuiet(p: Plan, w: World, id: nat, dispatch: Dispatch)
    requires id in w.calls && w.calls[id].Mirror?
    ensures var c := w.calls[id];
            StepCall(p, w, c, dispatch) == Quiet(w, MirrorStep(p, w, c.iteration, c.todo, c.changed).call)
  {
  }

  lemma MirrorPaced(p: Plan, w: World, id: nat, dispatch: Dispatch, base: nat, first: nat)
    requires Keeps(p, w, id, base, first) && w.calls[id].Mirror?
    ensures KeepsAfter(p, w, id, dispatch, base, first)
  {
    var c := w.calls[id];
    MirrorOn(p, w, c.iteration, c.todo, c.changed, Work(w) - base, first);
    MirrorQuiet(p, w, id, dispatch);
    var next := MirrorStep(p, w, c.iteration, c.todo, c.changed).call;
    assert Next(p, w, Step(id, dispatch)) == w.(calls := w.calls[id := next]);
    QuietPaced(p, w, id, next, base, first);
  }

  lemma MirrorWritePaced(p: Plan, w: World, id: nat, dispatch: Dispatch, base: nat, first: nat)
    requires Keeps(p, w, id, base, first) && w.calls[id].MirrorWrite?
    ensures KeepsAfter(p, w, id, dispatch, base, first)
  {
  }

  /** A claim is young, and the claimed row counts an attempt. */
  lemma ClaimPaced(p: Plan, w: World, id: nat, node: string, call: Call, base: nat, first: nat)
    requires Keeps(p, w, id, base, first) && CanClaim(w.store, node)
    requires Paced(p, w.(store := Claim(w.store, node, w.now)), call, Work(w) - base, first)
    ensures Keeps(p, w.(store := Claim(w.store, node, w.now), calls := w.calls[id := call]), id, base, first)
  {
    var v := w.(store := Claim(w.store, node, w.now));
    forall n | n in v.store.rows
      ensures !Stale(p, v.now, Item(n, v.store.rows[n])) && n in p.listing
    {
      assert n in w.store.rows && !Stale(p, w.now, Item(n, w.store.rows[n]));
    }
    var u := v.(calls := w.calls[id := call]);
    assert forall n :: IsNews(p, u, n) <==> IsNews(p, v, n);
    assert News(p, u) <==> News(p, v);
    assert forall item :: Current(u, item) <==> Current(v, item);
  }

  lemma ScheduleEffect(p: Plan, w: World, it: nat, snapshot: map<string, Row>, index: nat)
    ensures var f := ScheduleStep(p, w, it, snapshot, index);
            && f.tasks == w.tasks && f.deliveries == w.deliveries
            && if f.update.NoUpdate? then f.call.Done? || f.call.Complete? || f.call == Schedule(it, snapshot, index + 1)
               else index < |p.def.nodes| && var node := p.def.nodes[index].id;
                    && f.update == ClaimNode(node) && CanClaim(w.store, node)
                    && var claimed := Item(node, ClaimedRow(w.store.rows[node], w.now));
                       f.call == Execute(claimed, ToLoop(it)) || f.call == SkipWrite(it, claimed)
  {
  }

  lemma SchedulePaced(p: Plan, w: World, id: nat, dispatch: Dispatch, base: nat, first: nat)
    requires Consistent(p, w) && Keeps(p, w, id, base, first) && w.calls[id].Schedule?
    ensures KeepsAfter(p, w, id, dispatch, base, first)
  {
    var c := w.calls[id];
    ScheduleEffect(p, w, c.iteration, c.snapshot, c.index);
    var f := ScheduleStep(p, w, c.iteration, c.snapshot, c.index);
    var v := Next(p, w, Step(id, dispatch));
    assert v == w.(store := Apply(w.store, f.update, w.now), calls := w.calls[id := f.call]);
    if f.update.NoUpdate? {
      QuietPaced(p, w, id, f.call, base, first);
    } else {
      var node := p.def.nodes[c.index].id;
      assert RowFits(p, node, w.store.rows[node]);
      ClaimPaced(p, w, id, node, f.call, base, first);
    }
  }

  /** What executing a claim may do: nothing outside, or one piece of work whose row is
      news. */
  ghost predicate StartsOne(p: Plan, w: World, f: Effect) {
    || (f.tasks == w.tasks && f.deliveries == w.deliveries)
    || (&& f.call.Write? && |f.tasks| + |f.deliveries| == Work(w) + 1 && f.call.item.row.status.Queued?
        && Mirrored(p, w.now, f.tasks, f.deliveries, f.call.item).Some?)
  }

  lemma TaskStarts(p: Plan, w: World, item: Item, back: Back, dispatch: Dispatch)
    requires item.row.attempt > 0
    ensures StartsOne(p, w, DispatchTask(w, item, back, dispatch))
  {
  }

  lemma WebhookStarts(p: Plan, w: World, item: Item, back: Back, dispatch: Dispatch)
    requires item.row.attempt > 0 && item.row.task.None?
    ensures StartsOne(p, w, DispatchWebhook(w, item, back, dispatch))
  {
  }

  lemma ExecuteStarts(p: Plan, w: World, item: Item, back: Back, dispatch: Dispatch)
    requires item.row.attempt > 0 && RowFits(p, item.node, item.row)
    ensures StartsOne(p, w, ExecuteStep(p, w, item, back, dispatch))
  {
    var now := item.(row := item.row.(updatedAt := w.now));
    var kind, f := KindOf(p.def, item.node), ExecuteStep(p, w, item, back, dispatch);
    if !Decoded(kind, ConfigOf(p.def, item.node)) {
      assert f.tasks == w.tasks && f.deliveries == w.deliveries;
    } else if kind.Task? {
      assert f == DispatchTask(w, now, back, dispatch);
      TaskStarts(p, w, now, back, dispatch);
    } else if kind.Webhook? {
      assert f == DispatchWebhook(w, now, back, dispatch);
      WebhookStarts(p, w, now, back, dispatch);
    } else {
      assert f.tasks == w.tasks && f.deliveries == w.deliveries;
    }
  }

  /** The claimed node's row is to be stored, executed or failed. */
  ghost predicate Stores(w: World, f: Effect, node: string, back: Back) {
    && f.update.NoUpdate? && (f.call.Write? || f.call.FailWrite?) && f.call.back == back && f.call.item.node == node
    && (f.call.FailWrite? ==> f.call.item.row.status.Failed? && f.tasks == w.tasks && f.deliveries == w.deliveries)
    && (f.call.Write? ==> !f.call.item.row.status.Running?)
  }

  lemma DispatchStores(w: World, item: Item, back: Back, dispatch: Dispatch)
    ensures Stores(w, DispatchTask(w, item, back, dispatch), item.node, back)
    ensures Stores(w, DispatchWebhook(w, item, back, dispatch), item.node, back)
  {
  }

  lemma ExecuteStores(p: Plan, w: World, item: Item, back: Back, dispatch: Dispatch)
    ensures Stores(w, ExecuteStep(p, w, item, back, dispatch), item.node, back)
  {
    DispatchStores(w, item.(row := item.row.(updatedAt := w.now)), back, dispatch);
  }

  lemma ExecutePaced(p: Plan, w: World, id: nat, dispatch: Dispatch, base: nat, first: nat)
    requires Keeps(p, w, id, base, first) && w.calls[id].Execute?
    ensures KeepsAfter(p, w, id, dispatch, base, first)
  {
    var c := w.calls[id];
    ExecuteStarts(p, w, c.item, c.back, dispatch);
    ExecuteStores(p, w, c.item, c.back, dispatch);
    var f := ExecuteStep(p, w, c.item, c.back, dispatch);
    var v := Next(p, w, Step(id, dispatch));
    assert v == w.(tasks := f.tasks, deliveries := f.deliveries, calls := w.calls[id := f.call]);
  }

  lemma WritePaced(p: Plan, w: World, id: nat, dispatch: Dispatch, base: nat, first: nat)
    requires Keeps(p, w, id, base, first) && w.calls[id].Write?
    ensures KeepsAfter(p, w, id, dispatch, base, first)
  {
    var v, item := Next(p, w, Step(id, dispatch)), w.calls[id].item;
    if item.row.status.Queued? && Mirrored(p, w.now, w.tasks, w.deliveries, item).Some? {
      assert IsNews(p, v, item.node);
    }
  }

  lemma FailPaced(p: Plan, w: World, id: nat, dispatch: Dispatch, base: nat, first: nat)
    requires Keeps(p, w, id, base, first) && (w.calls[id].FailWrite? || w.calls[id].FailExecution?)
    ensures KeepsAfter(p, w, id, dispatch, base, first)
  {
  }

  lemma OtherPaced(p: Plan, w: World, id: nat, dispatch: Dispatch, base: nat, first: nat)
    requires Keeps(p, w, id, base, first)
    requires var c := w.calls[id]; c.Fetch? || c.Start? || c.Reload? || c.SkipWrite? || c.Complete? || c.Done?
    ensures KeepsAfter(p, w, id, dispatch, base, first)
  {
    var f := StepCall(p, w, w.calls[id], dispatch);
    if f.update.NoUpdate? {
      assert Next(p, w, Step(id, dispatch)) == w.(calls := w.calls[id := f.call]);
      QuietPaced(p, w, id, f.call, base, first);
    }
  }

  lemma StepPaced(p: Plan, w: World, id: nat, dispatch: Dispatch, base: nat, first: nat)
    requires Consistent(p, w) && Keeps(p, w, id, base, first)
    ensures KeepsAfter(p, w, id, dispatch, base, first)
  {
    match w.calls[id]
    case Load(_) => LoadPaced(p, w, id, dispatch, base, first);
    case Mirror(_, _, _) => MirrorPaced(p, w, id, dispatch, base, first);
    case MirrorWrite(_, _, _, _, _) => MirrorWritePaced(p, w, id, dispatch, base, first);
    case Schedule(_, _, _) => SchedulePaced(p, w, id, dispatch, base, first);
    case Execute(_, _) => ExecutePaced(p, w, id, dispatch, base, first);
    case Write(_, _) => WritePaced(p, w, id, dispatch, base, first);
    case FailWrite(_, _) => FailPaced(p, w, id, dispatch, base, first);
    case FailExecution(_) => FailPaced(p, w, id, dispatch, base, first);
    case _ => OtherPaced(p, w, id, dispatch, base, first);
  }

  predicate Begins(call: Call, first: nat) {
    call == Load(first) || (call.Fetch? && first == 0)
  }

  lemma {:induction false} RunPaced(p: Plan, w: World, es: seq<Event>, id: nat, first: nat)
    requires Invariant(p, w) && Alone(es, id) && Keeps(p, w, id, Work(w), first)
    ensures Keeps(p, Run(p, w, es), id, Work(w), first)
  {
    if es != [] {
      var before, last := es[..|es| - 1], es[|es| - 1];
      RunPaced(p, w, before, id, first);
      RunInvariant(p, w, before);
      StepPaced(p, Run(p, w, before), id, last.dispatch, Work(w), first);
    }
  }

  /** Whatever the definition and whatever the dispatcher answers: from the start of
      round `first` on, one undisturbed call with no claim to take over starts at most
      one piece of outside work in every second of the rounds that are left. */
  lemma UndisturbedCallBound(p: Plan, w: World, es: seq<Event>, id: nat, first: nat)
    requires Invariant(p, w) && NoneOverdue(p, w) && (forall n | n in w.store.rows :: n in p.listing)
    requires id in w.calls && Begins(w.calls[id], first) && first <= |p.def.nodes| + 2 && Alone(es, id)
    ensures Work(w) <= Work(Run(p, w, es)) <= Work(w) + (|p.def.nodes| + 3 - first) / 2
  {
    RunPaced(p, w, es, id, first);
  }
}
