/** One call of AdvanceExecution as the service runs it, undisturbed: loops over
    the listed rows and the definition nodes, mutating the repository. Every
    method is shown to be a run of the step machine, and on graphs without
    external work the iteration bound is shown to suffice. */
module AdvanceExecution {
  import opened Common
  import opened Workflow
  import opened Conditions
  import opened Validation
  import opened ExecutionStore
  import opened ExecutionSteps
  import opened ExecutionLinks
  import opened ExecutionRuns
  import opened ExecutionConfluence
  import opened ExecutionProgress

  /** The next position of a mirroring call that looks at one listed row. */
  function MirrorTarget(iteration: nat, item: Item, rest: seq<Item>, changed: bool, stale: bool, seen: Option<Row>): Call {
    if Busy(item.row.status) && stale then Execute(item, ToMirror(iteration, rest))
    else if Busy(item.row.status) && seen.Some? then
      MirrorWrite(iteration, Item(item.node, seen.value), item.row.status, rest, changed)
    else Mirror(iteration, rest, changed)
  }

  /** The readiness test as the service computes it: a loop over the incoming edges
      that counts the active ones and stops at the first undecided one. */
  method WorkflowNodeReadiness(d: Definition, rows: map<string, Row>, node: string) returns (ready: Readiness)
    ensures ready == ReadinessOf(d, rows, node)
  {
    if KindOf(d, node).Trigger? {
      return Runnable;
    }
    var incoming := Incoming(d.edges, node);
    if incoming == [] {
      return NotReady;
    }
    ready := JudgeEdges(d, rows, incoming);
  }

  method JudgeEdges(d: Definition, rows: map<string, Row>, incoming: seq<Edge>) returns (ready: Readiness)
    ensures ready == Judge(d, rows, incoming, false)
  {
    var active := 0;
    for k := 0 to |incoming|
      invariant active >= 0
      invariant Judge(d, rows, incoming, false) == Judge(d, rows, incoming[k..], active > 0)
    {
      assert incoming[k..][0] == incoming[k] && incoming[k..][1..] == incoming[k + 1..];
      match EdgeVerdict(d, rows, incoming[k]) {
        case Waiting => return NotReady;
        case Unreadable => return Broken;
        case Inactive =>
        case Active => active := active + 1;
      }
    }
    assert incoming[|incoming|..] == [];
    ready := if active == 0 then Skippable else Runnable;
  }

  /** No node needs external work. */
  ghost predicate Immediate(d: Definition) {
    forall n | n in d.nodes :: n.kind.Trigger? || n.kind.Condition?
  }

  lemma ImmediateKind(d: Definition, n: string)
    requires Sound(d) && Immediate(d) && n in Ids(d)
    ensures KindOf(d, n).Trigger? || KindOf(d, n).Condition?
    ensures Decoded(KindOf(d, n), ConfigOf(d, n))
  {
    IdsHasNode(d, n);
    FindIs(d.nodes, n);
    assert NodeOf(d, n) in d.nodes;
  }

  /** Exactly one pending node has been settled. */
  ghost predicate SettlesOne(s: Store, t: Store, n: string) {
    && n in s.rows && s.rows[n].status.Pending? && n in t.rows && Settled(t.rows[n].status)
    && t == s.(rows := s.rows[n := t.rows[n]])
  }

  /** The next position of a scheduling call that judged one node. */
  function ScheduleTarget(iteration: nat, ready: Readiness, won: bool, claimed: Item, next: Call): Call {
    if ready.Broken? then Done
    else if !won then next
    else if ready.Runnable? then Execute(claimed, ToLoop(iteration))
    else SkipWrite(iteration, claimed)
  }

  /** Only pending and settled rows: nothing in flight, nothing failed. */
  predicate Calm(rows: map<string, Row>) {
    forall n | n in rows :: rows[n].status.Pending? || Settled(rows[n].status)
  }

  ghost function PendingOf(rows: map<string, Row>): set<string> {
    set n | n in rows && rows[n].status.Pending?
  }

  lemma SettlingShrinks(s: Store, t: Store, n: string)
    requires SettlesOne(s, t, n) && Calm(s.rows)
    ensures Calm(t.rows) && |PendingOf(t.rows)| + 1 == |PendingOf(s.rows)|
    ensures t.rows.Keys == s.rows.Keys
  {
    assert PendingOf(t.rows) == PendingOf(s.rows) - {n};
  }

  lemma ListedCalm(listing: seq<string>, rows: map<string, Row>)
    requires Calm(rows)
    ensures forall item | item in Listed(listing, rows) :: !Busy(item.row.status)
  {
    forall item | item in Listed(listing, rows)
      ensures !Busy(item.row.status)
    {
      ListedStored(listing, rows, item);
    }
  }

  lemma {:induction false} FewIds(nodes: seq<Node>)
    ensures |set n | n in nodes :: n.id| <= |nodes|
  {
    if nodes != [] {
      FewIds(nodes[1..]);
      var tail := set n | n in nodes[1..] :: n.id;
      assert (set n | n in nodes :: n.id) == tail + {nodes[0].id};
    }
  }

  lemma FewPending(d: Definition, rows: map<string, Row>)
    requires rows.Keys == Ids(d)
    ensures |PendingOf(rows)| <= |d.nodes|
  {
    FewIds(d.nodes);
    SubsetSmaller(PendingOf(rows), Ids(d));
  }

  lemma {:induction false} SubsetSmaller<T>(a: set<T>, b: set<T>)
    requires a <= b
    ensures |a| <= |b|
  {
    if a != {} {
      var x :| x in a;
      SubsetSmaller(a - {x}, b - {x});
    }
  }

  ghost predicate NoneReady(p: Plan, snapshot: map<string, Row>, nodes: seq<Node>) {
    forall n | n in nodes :: Judged(p, snapshot, n.id).NotReady?
  }

  /** Nothing is ready among calm rows only when nothing is pending. */
  lemma CalmReady(p: Plan, rows: map<string, Row>)
    requires Sound(p.def) && RowsFit(p, rows) && rows.Keys == Ids(p.def) && Calm(rows)
    ensures forall n :: !Judged(p, rows, n).Broken?
    ensures NoneReady(p, rows, p.def.nodes) ==> PendingOf(rows) == {} && CompleteRows(p.def, rows)
  {
    forall n
      ensures !Judged(p, rows, n).Broken?
    {
      ReadinessReadable(p, rows, n);
    }
    if PendingOf(rows) != {} {
      var n := LowestPendingReady(p, rows, PendingOf(rows));
      var node :| node in p.def.nodes && node.id == n;
    } else {
      assert forall n | n in rows :: n !in PendingOf(rows);
      SoundCount(p.def);
      assert |rows| == |rows.Keys|;
    }
  }

  datatype Outcome = Passed | Errored | Advanced

  lemma FreshCallInvariant(plan: Plan, w: World, me: nat)
    requires Invariant(plan, w)
    ensures Invariant(plan, w.(calls := w.calls[me := Fetch]))
  {
  }

  class WorkflowExecutionService {
    const plan: Plan
    const me: nat
    const repo: WorkflowExecutionRepository
    var now: int
    var tasks: map<nat, TaskRecord>
    var deliveries: map<string, DeliveryState>

    ghost var others: map<nat, Call>
    ghost const worlds: iset<World>   // what the machine can reach from where this call started

    ghost function WorldAt(call: Call): World
      reads this, repo
    {
      World(now, repo.View(), tasks, deliveries, others[me := call])
    }

    /** Reachable worlds are closed under every event and satisfy the invariant. */
    ghost predicate Valid() {
      && ClosedUnder(plan, worlds)
      && (forall w {:trigger Invariant(plan, w)} | w in worlds :: Invariant(plan, w))
    }

    /** The machine can be in this state, with this call here. */
    ghost predicate At(call: Call)
      reads this, repo
    {
      WorldAt(call) in worlds && Valid()
    }

    /** A new call on a consistent world; the calls already in flight stay idle. */
    constructor (plan: Plan, me: nat, repo: WorkflowExecutionRepository, now: int,
                 tasks: map<nat, TaskRecord>, deliveries: map<string, DeliveryState>, ghost others: map<nat, Call>)
      requires Invariant(plan, World(now, repo.View(), tasks, deliveries, others))
      ensures this.plan == plan && this.repo == repo && this.me == me && this.others == others && this.now == now
      ensures this.tasks == tasks && this.deliveries == deliveries
      ensures worlds == ReachableFrom(plan, World(now, repo.View(), tasks, deliveries, others[me := Fetch]))
      ensures At(Fetch)
    {
      this.plan, this.me, this.repo, this.now := plan, me, repo, now;
      this.tasks, this.deliveries, this.others := tasks, deliveries, others;
      ghost var start := World(now, repo.View(), tasks, deliveries, others[me := Fetch]);
      this.worlds := ReachableFrom(plan, start);
      new;
      FreshCallInvariant(plan, World(now, repo.View(), tasks, deliveries, others), me);
      ReachableClosed(plan, start);
      ReachableInvariant(plan, start);
    }

    lemma AtInvariant(call: Call)
      requires At(call)
      ensures Invariant(plan, WorldAt(call))
    {
    }

    lemma OneTaskAt(call: Call)
      requires At(call)
      ensures OneTaskPerNode(tasks)
    {
      AtInvariant(call);
    }

    /** Records that the machine took one step from `before`. */
    ghost method Log(before: World, dispatch: Dispatch, call: Call)
      requires before in worlds && Valid()
      requires Next(plan, before, Step(me, dispatch)) == WorldAt(call)
      ensures At(call)
    {
    }

    method ReadClock(ghost call: Call)
      requires At(call)
      modifies this`now
      ensures At(call) && now >= old(now)
    {
      var passed: nat :| passed >= 0;
      assert Next(plan, WorldAt(call), Tick(passed)) == WorldAt(call).(now := now + passed);
      now := now + passed;
    }

    /** Creates the task for a node, or finds the one it already has. */
    method CreateTask(node: string) returns (linked: Option<nat>, ghost dispatch: Dispatch)
      requires OneTaskPerNode(tasks)
      modifies this`tasks
      ensures if dispatch.Refused? || (!TaskExists(old(tasks), node) && dispatch.newId in old(tasks))
              then linked.None? && tasks == old(tasks)
              else
                && linked == Some(TaskFor(old(tasks), node, dispatch.newId))
                && tasks == if linked.value in old(tasks) then old(tasks)
                            else old(tasks)[linked.value := TaskRecord(node, TaskState(TaskPending, 0, false))]
    {
      var available: bool, newId: nat := *, *;
      if !available {
        return None, Refused;
      }
      dispatch := Accepted(newId);
      var existing := set t | t in tasks && tasks[t].node == node;
      if existing != {} {
        var t :| t in existing;
        assert TaskExists(tasks, node) && t == TaskFor(tasks, node, newId);
        linked := Some(t);
      } else if newId in tasks {
        assert forall t | t in tasks :: t !in existing;
        linked := None;
      } else {
        assert forall t | t in tasks :: t !in existing;
        linked := Some(newId);
        tasks := tasks[newId := TaskRecord(node, TaskState(TaskPending, 0, false))];
      }
    }

    /** The row to store for an executed node; none if its config or its dispatch fails. */
    method RunNode(item: Item, kind: NodeKind, config: Config, ghost w: World, ghost back: Back)
      returns (stored: Option<Row>, ghost dispatch: Dispatch)
      requires w.now == now && w.tasks == tasks && w.deliveries == deliveries && OneTaskPerNode(tasks)
      requires kind == KindOf(plan.def, item.node) && config == ConfigOf(plan.def, item.node)
      modifies this`tasks, this`deliveries
      ensures var f := ExecuteNode(w, item, kind, config, Computed(plan, item.node), back, dispatch);
              && f.update.NoUpdate? && f.tasks == tasks && f.deliveries == deliveries
              && f.call == (if stored.Some? then Write(Item(item.node, stored.value), back)
                            else FailWrite(Item(item.node, item.row.(updatedAt := now, status := Failed)), back))
      ensures Decoded(kind, config) && (kind.Trigger? || kind.Condition?) ==>
                stored.Some? && stored.value.status.Succeeded?
    {
      var row := item.row.(updatedAt := now);
      stored, dispatch := None, Refused;
      if Decoded(kind, config) {
        match kind {
          case Trigger =>
            stored := Some(row.(status := Succeeded, output := if plan.input.Some? then Some(InputEcho) else None));
          case Condition =>
            var answer := EvaluateWorkflowCondition(config, plan.input);
            stored := Some(row.(status := Succeeded, output := Some(ConditionResult(answer))));
          case Delay =>
            stored := Some(row.(status := Queued, availableAt := Some(now + config.durationSeconds)));
          case Task =>
            var linked;
            linked, dispatch := CreateTask(item.node);
            if linked.Some? {
              stored := Some(row.(status := Queued, task := linked));
            }
          case Webhook =>
            var accepted: bool := *;
            if accepted {
              dispatch := Accepted(0);
              if item.node !in deliveries {
                deliveries := deliveries[item.node := DeliveryState(DeliveryPending, 0)];
              }
              stored := Some(row.(status := Queued, delivery := Some(item.node)));
            }
          case Unsupported =>
        }
      }
    }

    method ExecuteClaimedNode(item: Item, ghost back: Back)
      requires At(Execute(item, back))
      modifies this, repo
      ensures At(Resume(back)) && others == old(others)
      ensures var kind := KindOf(plan.def, item.node);
              (kind.Trigger? || kind.Condition?) && Decoded(kind, ConfigOf(plan.def, item.node))
              && old(CanSwap(repo.View(), item.node, Running)) ==>
                exists row: Row :: row.status.Succeeded? && repo.View() == Swap(old(repo.View()), item.node, row, Running)
    {
      var stored := PerformNode(item, back);
      if stored.None? {
        FailClaimedNode(Item(item.node, item.row.(updatedAt := now, status := Failed)), back);
      } else {
        StoreExecuted(Item(item.node, stored.value), back);
      }
    }

    /** Reads the clock and executes the node, up to the write of its row. */
    method PerformNode(item: Item, ghost back: Back) returns (stored: Option<Row>)
      requires At(Execute(item, back))
      modifies this
      ensures others == old(others)
      ensures At(if stored.Some? then Write(Item(item.node, stored.value), back)
                 else FailWrite(Item(item.node, item.row.(updatedAt := now, status := Failed)), back))
      ensures var kind := KindOf(plan.def, item.node);
              (kind.Trigger? || kind.Condition?) && Decoded(kind, ConfigOf(plan.def, item.node)) ==>
                stored.Some? && stored.value.status.Succeeded?
    {
      ReadClock(Execute(item, back));
      stored := PerformNow(item, back);
    }

    method PerformNow(item: Item, ghost back: Back) returns (stored: Option<Row>)
      requires At(Execute(item, back))
      modifies this`tasks, this`deliveries
      ensures At(if stored.Some? then Write(Item(item.node, stored.value), back)
                 else FailWrite(Item(item.node, item.row.(updatedAt := now, status := Failed)), back))
      ensures var kind := KindOf(plan.def, item.node);
              (kind.Trigger? || kind.Condition?) && Decoded(kind, ConfigOf(plan.def, item.node)) ==>
                stored.Some? && stored.value.status.Succeeded?
    {
      ghost var w := WorldAt(Execute(item, back));
      OneTaskAt(Execute(item, back));
      var kind, config := KindOf(plan.def, item.node), ConfigOf(plan.def, item.node);
      ghost var dispatch;
      stored, dispatch := RunNode(item, kind, config, w, back);
      Log(w, dispatch, if stored.Some? then Write(Item(item.node, stored.value), back)
                       else FailWrite(Item(item.node, item.row.(updatedAt := now, status := Failed)), back));
    }

    method StoreExecuted(item: Item, ghost back: Back)
      requires At(Write(item, back))
      modifies repo
      ensures At(Resume(back)) && repo.View() == Swap(old(repo.View()), item.node, item.row, Running)
    {
      ghost var w := WorldAt(Write(item, back));
      var updated := repo.UpdateWorkflowNodeExecution(item.node, item.row, Running);
      Log(w, Refused, Resume(back));
    }

    /** Stores the failed row if the claim still stands, and fails the execution
        whether or not it did. */
    method FailClaimedNode(failed: Item, ghost back: Back)
      requires At(FailWrite(failed, back))
      modifies repo
      ensures At(Resume(back))
    {
      ghost var w1 := WorldAt(FailWrite(failed, back));
      var updated := repo.UpdateWorkflowNodeExecution(failed.node, failed.row, Running);
      Log(w1, Refused, FailExecution(back));
      FailRunningExecution(back);
    }

    method FailRunningExecution(ghost back: Back)
      requires At(FailExecution(back))
      modifies repo
      ensures At(Resume(back))
    {
      ghost var w := WorldAt(FailExecution(back));
      var updated := repo.FinalizeWithFailure(now);
      Log(w, Refused, Resume(back));
    }

    method ReconcileExternalNodes(iteration: nat, items: seq<Item>) returns (changed: bool)
      requires At(Mirror(iteration, items, false))
      modifies this, repo
      ensures At(if changed then Load(iteration + 1) else Reload(iteration)) && others == old(others)
      ensures (forall item | item in items :: !Busy(item.row.status)) ==> !changed && repo.View() == old(repo.View())
    {
      changed := false;
      for k := 0 to |items|
        invariant At(Mirror(iteration, items[k..], changed)) && others == old(others)
        invariant (forall item | item in items :: !Busy(item.row.status)) ==>
                    !changed && repo.View() == old(repo.View())
      {
        assert items[k..] == [items[k]] + items[k + 1..];
        changed := ReconcileNode(iteration, items[k], items[k + 1..], changed);
      }
      ghost var w := WorldAt(Mirror(iteration, [], changed));
      Log(w, Refused, if changed then Load(iteration + 1) else Reload(iteration));
    }

    method StoreMirrored(ghost iteration: nat, item: Item, expected: NodeStatus, ghost rest: seq<Item>, ghost changed: bool)
      returns (updated: bool)
      requires At(MirrorWrite(iteration, item, expected, rest, changed))
      modifies repo
      ensures At(Mirror(iteration, rest, changed || updated))
    {
      ghost var w := WorldAt(MirrorWrite(iteration, item, expected, rest, changed));
      updated := repo.UpdateWorkflowNodeExecution(item.node, item.row, expected);
      Log(w, Refused, Mirror(iteration, rest, changed || updated));
    }

    /** The mirroring call looks at one listed row and decides what to do about it. */
    ghost method LookAt(iteration: nat, item: Item, rest: seq<Item>, changed: bool)
      requires At(Mirror(iteration, [item] + rest, changed))
      ensures At(MirrorTarget(iteration, item, rest, changed, Stale(plan, now, item),
                              Mirrored(plan, now, tasks, deliveries, item)))
    {
      var w := WorldAt(Mirror(iteration, [item] + rest, changed));
      Log(w, Refused, MirrorTarget(iteration, item, rest, changed, Stale(plan, now, item),
                                   Mirrored(plan, now, tasks, deliveries, item)));
    }

    method ReconcileNode(iteration: nat, item: Item, ghost rest: seq<Item>, changed0: bool) returns (changed: bool)
      requires At(Mirror(iteration, [item] + rest, changed0))
      modifies this, repo
      ensures At(Mirror(iteration, rest, changed)) && others == old(others)
      ensures !Busy(item.row.status) ==> changed == changed0 && repo.View() == old(repo.View())
    {
      changed := changed0;
      ReadClock(Mirror(iteration, [item] + rest, changed0));
      var stale, seen := Stale(plan, now, item), Mirrored(plan, now, tasks, deliveries, item);
      LookAt(iteration, item, rest, changed0);
      if Busy(item.row.status) && stale {
        ExecuteClaimedNode(item, ToMirror(iteration, rest));
        changed := true;
      } else if Busy(item.row.status) && seen.Some? {
        var updated := StoreMirrored(iteration, Item(item.node, seen.value), item.row.status, rest, changed0);
        changed := changed || updated;
      }
    }

    method TryNode(iteration: nat, snapshot: map<string, Row>, index: nat) returns (outcome: Outcome)
      requires At(Schedule(iteration, snapshot, index)) && index < |plan.def.nodes|
      modifies this, repo
      ensures others == old(others)
      ensures At(match outcome
                 case Passed => Schedule(iteration, snapshot, index + 1)
                 case Errored => Done
                 case Advanced => Load(iteration + 1))
      ensures outcome.Errored? ==> Judged(plan, snapshot, plan.def.nodes[index].id).Broken?
      ensures outcome.Passed? ==> repo.View() == old(repo.View())
      ensures outcome.Passed? && snapshot == old(repo.rows) ==> Judged(plan, snapshot, plan.def.nodes[index].id).NotReady?
      ensures outcome.Advanced? && Sound(plan.def) && Immediate(plan.def) ==>
                SettlesOne(old(repo.View()), repo.View(), plan.def.nodes[index].id)
    {
      var node := plan.def.nodes[index].id;
      var ready := NotReady;
      if node in snapshot && snapshot[node].status.Pending? {
        ready := WorkflowNodeReadiness(plan.def, snapshot, node);
      }
      var won, claimed := ClaimReady(iteration, snapshot, index, ready);
      if ready.Broken? {
        return Errored;
      }
      if !won {
        return Passed;
      }
      outcome := Advanced;
      if ready.Skippable? {
        SkipClaimed(iteration, claimed);
      } else {
        RunClaimed(iteration, claimed);
      }
    }

    /** Claims the node if it was judged ready; somebody else may have it already. */
    method ClaimReady(iteration: nat, ghost snapshot: map<string, Row>, index: nat, ready: Readiness)
      returns (won: bool, claimed: Item)
      requires At(Schedule(iteration, snapshot, index)) && index < |plan.def.nodes|
      requires ready == Judged(plan, snapshot, plan.def.nodes[index].id)
      modifies this, repo
      ensures others == old(others)
      ensures At(ScheduleTarget(iteration, ready, won, claimed, Schedule(iteration, snapshot, index + 1)))
      ensures won == (old(CanClaim(repo.View(), plan.def.nodes[index].id)) && (ready.Runnable? || ready.Skippable?))
      ensures !won ==> repo.View() == old(repo.View())
      ensures won ==> repo.View() == Claim(old(repo.View()), plan.def.nodes[index].id, now)
                      && claimed.node == plan.def.nodes[index].id
    {
      ReadClock(Schedule(iteration, snapshot, index));
      var node := plan.def.nodes[index].id;
      ghost var w := WorldAt(Schedule(iteration, snapshot, index));
      won, claimed := false, Item(node, FreshRow(now));
      if ready.Runnable? || ready.Skippable? {
        won := repo.ClaimWorkflowNode(node, now);
        if won {
          claimed := Item(node, repo.rows[node]);
        }
      }
      Log(w, Refused, ScheduleTarget(iteration, ready, won, claimed, Schedule(iteration, snapshot, index + 1)));
    }

    method RunClaimed(iteration: nat, claimed: Item)
      requires At(Execute(claimed, ToLoop(iteration)))
      modifies this, repo
      ensures others == old(others) && At(Load(iteration + 1))
      ensures Sound(plan.def) && Immediate(plan.def) && old(CanSwap(repo.View(), claimed.node, Running)) ==>
                exists row: Row :: row.status.Succeeded? && repo.View() == Swap(old(repo.View()), claimed.node, row, Running)
    {
      AtInvariant(Execute(claimed, ToLoop(iteration)));
      ghost var known := repo.rows.Keys;
      ExecuteClaimedNode(claimed, ToLoop(iteration));
      if Sound(plan.def) && Immediate(plan.def) && claimed.node in known {
        ImmediateKind(plan.def, claimed.node);
      }
    }

    method SkipClaimed(ghost iteration: nat, claimed: Item)
      requires At(SkipWrite(iteration, claimed))
      modifies this, repo
      ensures others == old(others) && At(Load(iteration + 1))
      ensures exists row: Row :: row.status.Skipped? && repo.View() == Swap(old(repo.View()), claimed.node, row, Running)
    {
      ReadClock(SkipWrite(iteration, claimed));
      ghost var w := WorldAt(SkipWrite(iteration, claimed));
      var skipped := claimed.row.(status := Skipped, updatedAt := now);
      var updated := repo.UpdateWorkflowNodeExecution(claimed.node, skipped, Running);
      Log(w, Refused, Load(iteration + 1));
    }

    method ScheduleRunnableNodes(iteration: nat, snapshot: map<string, Row>) returns (outcome: Outcome)
      requires At(Schedule(iteration, snapshot, 0))
      modifies this, repo
      ensures others == old(others)
      ensures At(match outcome
                 case Passed => Schedule(iteration, snapshot, |plan.def.nodes|)
                 case Errored => Done
                 case Advanced => Load(iteration + 1))
      ensures outcome.Errored? ==> exists n :: Judged(plan, snapshot, n).Broken?
      ensures outcome.Passed? ==> repo.View() == old(repo.View())
      ensures outcome.Passed? && snapshot == old(repo.rows) ==> NoneReady(plan, snapshot, plan.def.nodes)
      ensures outcome.Advanced? && Sound(plan.def) && Immediate(plan.def) ==>
                exists n :: SettlesOne(old(repo.View()), repo.View(), n)
    {
      for k := 0 to |plan.def.nodes|
        invariant At(Schedule(iteration, snapshot, k)) && others == old(others)
        invariant repo.View() == old(repo.View())
        invariant snapshot == old(repo.rows) ==> NoneReady(plan, snapshot, plan.def.nodes[..k])
      {
        assert plan.def.nodes[..k + 1] == plan.def.nodes[..k] + [plan.def.nodes[k]];
        outcome := TryNode(iteration, snapshot, k);
        if !outcome.Passed? {
          return;
        }
      }
      assert plan.def.nodes[..|plan.def.nodes|] == plan.def.nodes;
      outcome := Passed;
    }

    /** Succeeds the execution if it read a settled row for every node; otherwise only
        its timestamp would change. */
    method FinalizeExecutionIfComplete(ghost iteration: nat, snapshot: map<string, Row>)
      requires At(Schedule(iteration, snapshot, |plan.def.nodes|))
      modifies this, repo
      ensures others == old(others) && At(Done)
      ensures CompleteRows(plan.def, snapshot) && !Finished(old(repo.status)) ==> repo.status.ExecSucceeded?
    {
      ghost var w := WorldAt(Schedule(iteration, snapshot, |plan.def.nodes|));
      if CompleteRows(plan.def, snapshot) {
        Log(w, Refused, Complete(OutputsOf(snapshot)));
        SucceedWith(OutputsOf(snapshot));
      } else {
        var touched := repo.UpdateWorkflowExecution(ExecRunning, {ExecRunning});
        Log(w, Refused, Done);
      }
    }

    method SucceedWith(outputs: Outputs)
      requires At(Complete(outputs))
      modifies repo
      ensures At(Done)
      ensures !Finished(old(repo.status)) ==> repo.status.ExecSucceeded?
    {
      ghost var w := WorldAt(Complete(outputs));
      var updated := repo.FinalizeWithOutputs(outputs);
      Log(w, Refused, Done);
    }

    /** Reads the execution row and marks a pending execution running. */
    method BeginExecution() returns (over: bool)
      requires At(Fetch)
      modifies this, repo
      ensures others == old(others) && repo.rows == old(repo.rows)
      ensures over == Finished(old(repo.status)) && Finished(repo.status) == Finished(old(repo.status))
      ensures At(if over then Done else Load(0))
    {
      over := Finished(repo.status);
      ghost var w := WorldAt(Fetch);
      if over {
        Log(w, Refused, Done);
      } else if repo.status.ExecPending? {
        Log(w, Refused, Start);
        ghost var w1 := WorldAt(Start);
        var updated := repo.UpdateWorkflowExecution(ExecRunning, {ExecPending});
        Log(w1, Refused, Load(0));
      } else {
        Log(w, Refused, Load(0));
      }
    }

    /** One turn of the loop. */
    method RunRound(iteration: nat) returns (more: bool)
      requires At(Load(iteration)) && iteration <= |plan.def.nodes| + 1
      modifies this, repo
      ensures others == old(others) && At(if more then Load(iteration + 1) else Done)
      ensures old(Smooth()) ==>
                if more
                then Smooth() && |PendingOf(repo.rows)| + 1 == |PendingOf(old(repo.rows))|
                else repo.status.ExecSucceeded?
    {
      AtInvariant(Load(iteration));
      ghost var rows := repo.rows;
      var items := ListRows(iteration);
      var changed := ReconcileExternalNodes(iteration, items);
      if Calm(rows) {
        ListedCalm(plan.listing, rows);
      }
      if changed {
        return true;
      }
      more := ScheduleRound(iteration);
    }

    method ListRows(iteration: nat) returns (items: seq<Item>)
      requires At(Load(iteration)) && iteration <= |plan.def.nodes| + 1
      ensures items == Listed(plan.listing, repo.rows) && At(Mirror(iteration, items, false))
    {
      ghost var w := WorldAt(Load(iteration));
      items := Listed(plan.listing, repo.rows);
      Log(w, Refused, Mirror(iteration, items, false));
    }

    /** The second half of a turn: fail on a failed node, schedule one node, or finish. */
    method ScheduleRound(iteration: nat) returns (more: bool)
      requires At(Reload(iteration))
      modifies this, repo
      ensures others == old(others) && At(if more then Load(iteration + 1) else Done)
      ensures old(Smooth()) ==>
                if more
                then Smooth() && |PendingOf(repo.rows)| + 1 == |PendingOf(old(repo.rows))|
                else repo.status.ExecSucceeded?
    {
      AtInvariant(Reload(iteration));
      ghost var before := repo.View();
      var snapshot := repo.rows;
      var failed := Reread(iteration);
      if failed {
        FailRunningExecution(ToEnd);
        return false;
      }
      if Sound(plan.def) && Calm(snapshot) {
        CalmReady(plan, snapshot);
      }
      var outcome := ScheduleRunnableNodes(iteration, snapshot);
      more := outcome.Advanced?;
      if outcome.Passed? {
        FinalizeExecutionIfComplete(iteration, snapshot);
      } else if more && Sound(plan.def) && Immediate(plan.def) && Calm(snapshot) {
        ghost var n :| SettlesOne(before, repo.View(), n);
        SettlingShrinks(before, repo.View(), n);
      }
    }

    method Reread(iteration: nat) returns (failed: bool)
      requires At(Reload(iteration))
      ensures failed == AnyFailed(repo.rows)
      ensures At(if failed then FailExecution(ToEnd) else Schedule(iteration, repo.rows, 0))
    {
      ghost var w := WorldAt(Reload(iteration));
      failed := exists n :: n in repo.rows && repo.rows[n].status.Failed?;
      Log(w, Refused, if failed then FailExecution(ToEnd) else Schedule(iteration, repo.rows, 0));
    }

    /** Nothing external is awaited and the execution is still open. */
    ghost predicate Smooth()
      reads this, repo
    {
      Sound(plan.def) && Immediate(plan.def) && Calm(repo.rows) && !Finished(repo.status)
    }

    /** A whole call, run undisturbed, is a run of the step machine. On a sound
        definition without external work, from any state whose nodes are pending or
        settled, it leaves the execution succeeded after at most one iteration more
        than there are pending nodes, out of the allowed nodes + 2. */
    method AdvanceExecution() returns (rounds: nat)
      requires At(Fetch)
      modifies this, repo
      ensures others == old(others) && At(Done)
      ensures rounds <= |plan.def.nodes| + 2
      ensures old(Smooth()) ==> repo.status.ExecSucceeded? && rounds <= |PendingOf(old(repo.rows))| + 1
    {
      AtInvariant(Fetch);
      FewPending(plan.def, repo.rows);
      var over := BeginExecution();
      if over {
        return 0;
      }
      rounds := RunRounds();
    }

    method RunRounds() returns (rounds: nat)
      requires At(Load(0)) && (Smooth() ==> |PendingOf(repo.rows)| <= |plan.def.nodes|)
      modifies this, repo
      ensures others == old(others) && At(Done)
      ensures rounds <= |plan.def.nodes| + 2
      ensures old(Smooth()) ==> repo.status.ExecSucceeded? && rounds <= |PendingOf(old(repo.rows))| + 1
    {
      rounds := 0;
      ghost var pending := |PendingOf(repo.rows)|;
      ghost var smooth := Smooth();
      while rounds <= |plan.def.nodes| + 1
        invariant rounds <= |plan.def.nodes| + 2
        invariant At(Load(rounds)) && others == old(others)
        invariant smooth ==> Smooth() && rounds + |PendingOf(repo.rows)| == pending
      {
        var more := RunRound(rounds);
        rounds := rounds + 1;
        if !more {
          return;
        }
      }
      GiveUp(rounds);
    }

    ghost method GiveUp(iteration: nat)
      requires At(Load(iteration)) && iteration > |plan.def.nodes| + 1
      ensures At(Done)
    {
      var w := WorldAt(Load(iteration));
      Log(w, Refused, Done);
    }
  }

  /** What a caller of the service sees: a finished call is a run of the step machine
      from the world it started in, so every property of runs holds of it. */
  method Advance(plan: Plan, me: nat, repo: WorkflowExecutionRepository, now: int,
                 tasks: map<nat, TaskRecord>, deliveries: map<string, DeliveryState>, ghost others: map<nat, Call>)
    returns (service: WorkflowExecutionService, rounds: nat)
    requires Invariant(plan, World(now, repo.View(), tasks, deliveries, others))
    modifies repo
    ensures fresh(service) && service.repo == repo && rounds <= |plan.def.nodes| + 2
    ensures Leads(plan, World(now, old(repo.View()), tasks, deliveries, others[me := Fetch]), service.WorldAt(Done))
    ensures service.others == others && service.me == me
  {
    service := new WorkflowExecutionService(plan, me, repo, now, tasks, deliveries, others);
    rounds := service.AdvanceExecution();
  }
}
