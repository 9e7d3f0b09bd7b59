/** Task rows and the leases workers hold on them: claim, heartbeat, outcome,
    reclaim and requeue, interleaved in any order by any number of workers. */
module TaskLease {
  import opened Common
  import opened Graphs

  type Worker = nat

  datatype Status = Pending | Processing | Completed | Failed | DeadLetter | Cancelled

  datatype Strategy = Fixed | Linear | Exponential

  datatype Task = Task(
    scope: Scope, priority: int, strategy: Strategy, status: Status, lockedBy: Option<Worker>, attempts: nat, maxAttempts: nat, timeout: int,
    visibleAt: int, heartbeatAt: Option<int>, dispatchedAt: Option<int>, deleted: bool)

  // ----- one row under each statement

  predicate Claimable(t: Task, now: int) {
    !t.deleted && t.visibleAt <= now && (t.status == Pending || (t.status == Processing && t.visibleAt < now))
  }

  function Claimed(t: Task, worker: Worker, now: int): Task {
    t.(status := Processing, lockedBy := Some(worker), attempts := t.attempts + 1,
       visibleAt := now + t.timeout, heartbeatAt := Some(now))
  }

  predicate Beats(t: Task, worker: Worker) {
    t.lockedBy == Some(worker) && t.status == Processing
  }

  function Beaten(t: Task, timeout: int, now: int): Task {
    t.(visibleAt := now + timeout, heartbeatAt := Some(now))
  }

  /** Complete and MoveToDeadLetter. */
  function Ended(t: Task, status: Status): Task {
    t.(status := status, lockedBy := None, heartbeatAt := None)
  }

  function Returned(t: Task, status: Status, visibleAt: int): Task {
    t.(status := status, visibleAt := visibleAt, lockedBy := None, heartbeatAt := None, dispatchedAt := None)
  }

  predicate Expired(t: Task, now: int) {
    t.status == Processing && t.visibleAt < now
  }

  predicate Requeueable(t: Task) {
    !t.deleted && (t.status == Failed || t.status == DeadLetter || t.status == Cancelled)
  }

  function Requeued(t: Task, now: int): Task {
    t.(status := Pending, attempts := 0, lockedBy := None, heartbeatAt := None, visibleAt := now, dispatchedAt := None)
  }

  predicate Terminal(t: Task) {
    t.status != Pending && t.status != Processing
  }

  predicate Exhausted(t: Task) {
    t.attempts >= t.maxAttempts
  }

  // ----- the storage, in place

  type TaskId = nat
  type Tasks = map<TaskId, Task>

  predicate ExpiredIn(tasks: Tasks, scope: Scope, now: int, id: TaskId) {
    id in tasks && tasks[id].scope == scope && Expired(tasks[id], now)
  }

  /** The expired rows of a scope by visibility, up to a limit. */
  ghost predicate IsExpiredBatch(tasks: Tasks, scope: Scope, now: int, limit: nat, ids: seq<TaskId>) {
    && NoDuplicates(ids) && |ids| <= limit
    && (forall id | id in ids :: ExpiredIn(tasks, scope, now, id))
    && (forall i, j | 0 <= i < j < |ids| && ids[i] in tasks && ids[j] in tasks :: tasks[ids[i]].visibleAt <= tasks[ids[j]].visibleAt)
    && (forall id | ExpiredIn(tasks, scope, now, id) && id !in ids ::
          |ids| == limit && forall i | 0 <= i < |ids| && ids[i] in tasks :: tasks[ids[i]].visibleAt <= tasks[id].visibleAt)
  }

  method FirstVisible(tasks: Tasks, left: set<TaskId>) returns (id: TaskId)
    requires left != {} && left <= tasks.Keys
    ensures id in left && forall other | other in left :: tasks[id].visibleAt <= tasks[other].visibleAt
  {
    id :| id in left;
    var rest := left - {id};
    while rest != {}
      invariant id in left && rest <= left
      invariant forall other | other in left && other !in rest :: tasks[id].visibleAt <= tasks[other].visibleAt
      decreases rest
    {
      var other :| other in rest;
      rest := rest - {other};
      if tasks[other].visibleAt < tasks[id].visibleAt {
        id := other;
      }
    }
  }

  method ListExpired(tasks: Tasks, scope: Scope, now: int, limit: nat) returns (ids: seq<TaskId>)
    ensures IsExpiredBatch(tasks, scope, now, limit, ids)
  {
    ids := [];
    var left := set id | id in tasks && ExpiredIn(tasks, scope, now, id);
    while left != {} && |ids| < limit
      invariant |ids| <= limit && NoDuplicates(ids) && left <= tasks.Keys
      invariant forall id :: id in left || id in ids <==> ExpiredIn(tasks, scope, now, id)
      invariant forall id | id in left :: id !in ids
      invariant forall i, j | 0 <= i < j < |ids| && ids[i] in tasks && ids[j] in tasks ::
                  tasks[ids[i]].visibleAt <= tasks[ids[j]].visibleAt
      invariant forall i, id | 0 <= i < |ids| && ids[i] in tasks && id in left :: tasks[ids[i]].visibleAt <= tasks[id].visibleAt
      decreases left
    {
      var id := FirstVisible(tasks, left);
      ids, left := ids + [id], left - {id};
    }
  }

  class TaskStorage {
    var tasks: Tasks

    method ClaimForProcessing(id: TaskId, worker: Worker, now: int) returns (claimed: Option<Task>)
      modifies this
      ensures claimed.Some? <==> id in old(tasks) && Claimable(old(tasks)[id], now)
      ensures claimed.Some? ==> claimed.value == Claimed(old(tasks)[id], worker, now)
      ensures tasks == if claimed.Some? then old(tasks)[id := claimed.value] else old(tasks)
    {
      if id !in tasks || !Claimable(tasks[id], now) {
        return None;
      }
      var t := tasks[id];
      t := t.(status := Processing, lockedBy := Some(worker));
      t := t.(attempts := t.attempts + 1);
      t := t.(visibleAt := now + t.timeout, heartbeatAt := Some(now));
      tasks := tasks[id := t];
      claimed := Some(t);
    }

    method Heartbeat(id: TaskId, worker: Worker, timeout: int, now: int) returns (ok: bool)
      modifies this
      ensures ok <==> id in old(tasks) && Beats(old(tasks)[id], worker)
      ensures tasks == if ok then old(tasks)[id := Beaten(old(tasks)[id], timeout, now)] else old(tasks)
    {
      ok := id in tasks && tasks[id].lockedBy == Some(worker) && tasks[id].status == Processing;
      if ok {
        tasks := tasks[id := tasks[id].(visibleAt := now + timeout, heartbeatAt := Some(now))];
      }
    }

    method Complete(id: TaskId) returns (ok: bool)
      modifies this
      ensures ok <==> id in old(tasks) && old(tasks)[id].status == Processing
      ensures tasks == if ok then old(tasks)[id := Ended(old(tasks)[id], Completed)] else old(tasks)
    {
      ok := id in tasks && tasks[id].status == Processing;
      if ok {
        tasks := tasks[id := tasks[id].(status := Completed, lockedBy := None, heartbeatAt := None)];
      }
    }

    method Fail(id: TaskId, next: Status, visibleAt: int) returns (ok: bool)
      modifies this
      ensures ok <==> id in old(tasks) && old(tasks)[id].status == Processing
      ensures tasks == if ok then old(tasks)[id := Returned(old(tasks)[id], next, visibleAt)] else old(tasks)
    {
      ok := id in tasks && tasks[id].status == Processing;
      if ok {
        tasks := tasks[id := tasks[id].(status := next, visibleAt := visibleAt, lockedBy := None,
                                        heartbeatAt := None, dispatchedAt := None)];
      }
    }

    method MoveToDeadLetter(id: TaskId) returns (ok: bool)
      modifies this
      ensures ok <==> id in old(tasks) && old(tasks)[id].status == Processing
      ensures tasks == if ok then old(tasks)[id := Ended(old(tasks)[id], DeadLetter)] else old(tasks)
    {
      ok := id in tasks && tasks[id].status == Processing;
      if ok {
        tasks := tasks[id := tasks[id].(status := DeadLetter, lockedBy := None, heartbeatAt := None)];
      }
    }

    /** Returns up to `limit` expired rows of a scope to pending, those longest expired
        first. */
    method ReclaimExpired(scope: Scope, now: int, limit: nat) returns (ids: seq<TaskId>)
      modifies this
      ensures IsExpiredBatch(old(tasks), scope, now, limit, ids)
      ensures tasks.Keys == old(tasks).Keys
      ensures forall id | id in tasks ::
                tasks[id] == if id in ids then Returned(old(tasks)[id], Pending, now) else old(tasks)[id]
    {
      ids := ListExpired(tasks, scope, now, limit);
      tasks := map id | id in tasks :: if id in ids then Returned(tasks[id], Pending, now) else tasks[id];
    }

    method Requeue(id: TaskId, now: int) returns (ok: bool)
      modifies this
      ensures ok <==> id in old(tasks) && Requeueable(old(tasks)[id])
      ensures tasks == if ok then old(tasks)[id := Requeued(old(tasks)[id], now)] else old(tasks)
    {
      ok := id in tasks && Requeueable(tasks[id]);
      if ok {
        tasks := tasks[id := tasks[id].(status := Pending, attempts := 0, lockedBy := None, heartbeatAt := None,
                                        visibleAt := now, dispatchedAt := None)];
      }
    }

    method Cancel(id: TaskId) returns (ok: bool)
      modifies this
      ensures ok <==> id in old(tasks) && old(tasks)[id].status == Pending && !old(tasks)[id].deleted
      ensures tasks == if ok then old(tasks)[id := Ended(old(tasks)[id], Cancelled)] else old(tasks)
    {
      ok := id in tasks && tasks[id].status == Pending && !tasks[id].deleted;
      if ok {
        tasks := tasks[id := tasks[id].(status := Cancelled, lockedBy := None, heartbeatAt := None)];
      }
    }

    method SoftDelete(id: TaskId) returns (ok: bool)
      modifies this
      ensures ok <==> id in old(tasks) && Terminal(old(tasks)[id]) && !old(tasks)[id].deleted
      ensures tasks == if ok then old(tasks)[id := old(tasks)[id].(deleted := true)] else old(tasks)
    {
      ok := id in tasks && !tasks[id].deleted && tasks[id].status != Pending && tasks[id].status != Processing;
      if ok {
        tasks := tasks[id := tasks[id].(deleted := true)];
      }
    }

    method MarkDispatched(id: TaskId, now: int) returns (ok: bool)
      modifies this
      ensures ok <==> id in old(tasks) && old(tasks)[id].status == Pending
      ensures tasks == if ok then old(tasks)[id := old(tasks)[id].(dispatchedAt := Some(now))] else old(tasks)
    {
      ok := id in tasks && tasks[id].status == Pending;
      if ok {
        tasks := tasks[id := tasks[id].(dispatchedAt := Some(now))];
      }
    }
  }

  // ----- workers

  /** The outcome a worker writes: done, or dead-lettered if its copy of the row is
      out of attempts, or returned after a delay. The row need only be processing. */
  function Outcome(t: Task, spent: bool, succeeded: bool, retryAt: int): Task {
    if t.status != Processing then t
    else if succeeded then Ended(t, Completed)
    else if spent then Ended(t, DeadLetter)
    else Returned(t, Pending, retryAt)
  }

  /** What a worker keeps of a claim: its copy of the row, and how long the lease it
      knows of lasts. `open` until it has reported an outcome. */
  datatype Lease = Lease(worker: Worker, attempts: nat, until: int, open: bool)

  /** One task, every claim ever made on it, and the leases lost since the last requeue. */
  datatype World = World(now: int, task: Task, leases: seq<Lease>, expiries: nat)

  datatype Action =
    | Claim(worker: Worker)
    | Heartbeat(lease: nat)
    | Succeed(lease: nat)
    | GiveBack(lease: nat, backoff: int)
    | Reclaim
    | Requeue
    | Cancel
    | Delete
    | Mark

  datatype Event = Event(at: int, action: Action)

  function Current(w: World): int {
    |w.leases| - 1
  }

  function Closed(w: World, g: nat): World
    requires g < |w.leases|
  {
    w.(leases := w.leases[g := w.leases[g].(open := false)])
  }

  predicate Acts(a: Action) {
    a.Heartbeat? || a.Succeed? || a.GiveBack?
  }

  predicate Reports(a: Action) {
    a.Succeed? || a.GiveBack?
  }

  /** A worker acts only on a claim it holds and has not reported on. */
  predicate Enabled(w: World, e: Event) {
    Acts(e.action) ==> e.action.lease < |w.leases| && w.leases[e.action.lease].open
  }

  function Next(w0: World, e: Event): World
    requires Enabled(w0, e)
  {
    var w := w0.(now := e.at);
    var t := w.task;
    match e.action
    case Claim(worker) =>
      if !Claimable(t, e.at) then w
      else
        var c := Claimed(t, worker, e.at);
        w.(task := c, leases := w.leases + [Lease(worker, c.attempts, c.visibleAt, true)],
           expiries := w.expiries + if t.status == Processing then 1 else 0)
    case Heartbeat(g) =>
      if !Beats(t, w.leases[g].worker) then w
      else
        w.(task := Beaten(t, t.timeout, e.at), leases := w.leases[g := w.leases[g].(until := e.at + t.timeout)])
    case Succeed(g) => Closed(w, g).(task := Outcome(t, w.leases[g].attempts >= t.maxAttempts, true, 0))
    case GiveBack(g, backoff) => Closed(w, g).(task := Outcome(t, w.leases[g].attempts >= t.maxAttempts, false, e.at + backoff))
    case Reclaim => if Expired(t, e.at) then w.(task := Returned(t, Pending, e.at), expiries := w.expiries + 1) else w
    case Requeue => if Requeueable(t) then w.(task := Requeued(t, e.at), expiries := 0) else w
    case Cancel => if t.status == Pending && !t.deleted then w.(task := Ended(t, Cancelled)) else w
    case Delete => if Terminal(t) && !t.deleted then w.(task := t.(deleted := true)) else w
    case Mark => if t.status == Pending then w.(task := t.(dispatchedAt := Some(e.at))) else w
  }

  ghost predicate Initial(w: World) {
    && w.task.status == Pending && w.task.lockedBy == None && w.task.heartbeatAt == None
    && w.task.attempts == 0 && w.task.maxAttempts >= 1 && !w.task.deleted
    && w.leases == [] && w.expiries == 0
  }

  ghost predicate Step(w: World, e: Event, v: World) {
    Enabled(w, e) && v == Next(w, e)
  }

  /** Worlds passed through and the events between them. */
  ghost predicate Run(ws: seq<World>, events: seq<Event>) {
    && |ws| == |events| + 1 && Initial(ws[0])
    && forall i, j | 0 <= i < j < |ws| && j == i + 1 :: Step(ws[i], events[i], ws[j])
  }

  // ----- leases

  /** A row is locked exactly while it is processing, and then visible again one
      timeout after its last claim or heartbeat. */
  ghost predicate LeaseFits(t: Task) {
    && (t.lockedBy.Some? <==> t.status == Processing)
    && (t.heartbeatAt.Some? <==> t.status == Processing)
    && (t.status == Processing ==> t.visibleAt == t.heartbeatAt.value + t.timeout)
  }

  lemma {:induction false} LeaseAlwaysFits(ws: seq<World>, events: seq<Event>, k: nat)
    requires Run(ws, events) && k < |ws|
    ensures LeaseFits(ws[k].task)
    ensures ws[k].task.timeout == ws[0].task.timeout && ws[k].task.maxAttempts == ws[0].task.maxAttempts
  {
    if k > 0 {
      LeaseAlwaysFits(ws, events, k - 1);
      assert Step(ws[k - 1], events[k - 1], ws[k]);
    }
  }

  /** The row is given to a new claimant although an earlier lease was never ended. */
  predicate TakesOver(w: World, e: Event) {
    e.action.Claim? && w.task.status == Processing && Claimable(w.task, e.at)
  }

  /** A claim over an existing lease comes strictly after the last claim or heartbeat
      plus the visibility timeout. */
  lemma TakeoverOnlyAfterTimeout(ws: seq<World>, events: seq<Event>, k: nat)
    requires Run(ws, events) && k < |events| && TakesOver(ws[k], events[k])
    ensures ws[k].task.heartbeatAt.Some? && events[k].at > ws[k].task.heartbeatAt.value + ws[0].task.timeout
    ensures ws[k + 1].leases[..|ws[k].leases|] == ws[k].leases && |ws[k + 1].leases| == |ws[k].leases| + 1
  {
    LeaseAlwaysFits(ws, events, k);
    assert Step(ws[k], events[k], ws[k + 1]);
  }

  /** Completed is never left, whoever acts. */
  lemma {:induction false} CompletedForever(ws: seq<World>, events: seq<Event>, i: nat, k: nat)
    requires Run(ws, events) && i <= k < |ws| && ws[i].task.status == Completed
    ensures ws[k].task.status == Completed && ws[k].task.attempts == ws[i].task.attempts
  {
    if i < k {
      CompletedForever(ws, events, i, k - 1);
      assert Step(ws[k - 1], events[k - 1], ws[k]);
    }
  }

  /** Nor is deletion undone. */
  lemma {:induction false} DeletedForever(ws: seq<World>, events: seq<Event>, i: nat, k: nat)
    requires Run(ws, events) && i <= k < |ws| && ws[i].task.deleted
    ensures ws[k].task == ws[i].task
  {
    DeletedTerminal(ws, events, i);
    if i < k {
      DeletedForever(ws, events, i, k - 1);
      assert Step(ws[k - 1], events[k - 1], ws[k]);
    }
  }

  lemma {:induction false} DeletedTerminal(ws: seq<World>, events: seq<Event>, k: nat)
    requires Run(ws, events) && k < |ws|
    ensures ws[k].task.deleted ==> Terminal(ws[k].task)
  {
    if k > 0 {
      DeletedTerminal(ws, events, k - 1);
      assert Step(ws[k - 1], events[k - 1], ws[k]);
    }
  }

  // ----- what a row goes through

  /** The moves of a task: a claim takes it from waiting, or over from a lost lease;
      outcomes and expiry end the processing; only a requeue leads back from the end. */
  predicate Moves(a: Status, action: Action, b: Status) {
    match action
    case Claim(_) => (a == Pending || a == Processing) && b == Processing
    case Heartbeat(_) => a == b
    case Succeed(_) => a == Processing && b == Completed
    case GiveBack(_, _) => a == Processing && (b == Pending || b == DeadLetter)
    case Reclaim => a == Processing && b == Pending
    case Requeue => (a == Failed || a == DeadLetter || a == Cancelled) && b == Pending
    case Cancel => a == Pending && b == Cancelled
    case Delete => a == b
    case Mark => a == b
  }

  /** In every run a status changes only by a move, and a deleted row not at all. */
  lemma StatusMoves(ws: seq<World>, events: seq<Event>, k: nat)
    requires Run(ws, events) && k < |events| && ws[k + 1].task.status != ws[k].task.status
    ensures Moves(ws[k].task.status, events[k].action, ws[k + 1].task.status) && !ws[k].task.deleted
  {
    assert Step(ws[k], events[k], ws[k + 1]);
    DeletedTerminal(ws, events, k);
  }

  /** The lock is the latest claimant's. */
  ghost predicate LockFits(w: World) {
    w.task.status == Processing ==> Current(w) >= 0 && w.task.lockedBy == Some(w.leases[Current(w)].worker)
  }

  lemma {:induction false} LockAlwaysFits(ws: seq<World>, events: seq<Event>, k: nat)
    requires Run(ws, events) && k < |ws|
    ensures LockFits(ws[k])
  {
    if k > 0 {
      LockAlwaysFits(ws, events, k - 1);
      assert Step(ws[k - 1], events[k - 1], ws[k]);
    }
  }

  /** A heartbeat prolongs the lease to one timeout from now if the row is being processed
      and the latest claim is by the same worker, and otherwise does nothing. */
  lemma BeatIffLatest(ws: seq<World>, events: seq<Event>, k: nat)
    requires Run(ws, events) && k < |events| && events[k].action.Heartbeat?
    ensures var g, t, u := events[k].action.lease, ws[k].task, ws[k + 1].task;
            && g < |ws[k].leases|
            && if t.status == Processing && ws[k].leases[g].worker == ws[k].leases[Current(ws[k])].worker
               then u == t.(visibleAt := events[k].at + t.timeout, heartbeatAt := Some(events[k].at))
               else u == t
  {
    assert Step(ws[k], events[k], ws[k + 1]);
    LockAlwaysFits(ws, events, k);
  }

  /** Between two states of a run the row was pending all the time. */
  ghost predicate PendingThrough(ws: seq<World>, i: nat, k: nat)
    requires i <= k < |ws|
  {
    forall j | i <= j <= k :: ws[j].task.status == Pending
  }

  lemma {:induction false} VisibleStays(ws: seq<World>, events: seq<Event>, i: nat, k: nat)
    requires Run(ws, events) && i <= k < |ws| && PendingThrough(ws, i, k)
    ensures ws[k].task.visibleAt == ws[i].task.visibleAt
    decreases k
  {
    if i < k {
      VisibleStays(ws, events, i, k - 1);
      assert Step(ws[k - 1], events[k - 1], ws[k]);
    }
  }

  /** A retry waits: a task returned with a delay is not claimed again before the delay
      has passed, and can be from then on. */
  lemma RetryWaits(ws: seq<World>, events: seq<Event>, i: nat, k: nat)
    requires Run(ws, events) && i < k < |events| && events[i].action.GiveBack? && events[k].action.Claim?
    requires ws[i].task.status == Processing && PendingThrough(ws, i + 1, k)
    ensures ws[k + 1].task.status == Processing <==> events[k].at >= events[i].at + events[i].action.backoff && !ws[k].task.deleted
  {
    assert Step(ws[i], events[i], ws[i + 1]) && Step(ws[k], events[k], ws[k + 1]);
    VisibleStays(ws, events, i + 1, k);
  }

  /** A task reclaimed or requeued can be claimed at once, and a requeued one has all its
      attempts before it. */
  lemma ReturnsAtOnce(ws: seq<World>, events: seq<Event>, k: nat)
    requires Run(ws, events) && k < |events| && (events[k].action.Reclaim? || events[k].action.Requeue?)
    requires ws[k + 1].task.status != ws[k].task.status
    ensures Claimable(ws[k + 1].task, events[k].at)
    ensures ws[k + 1].task.attempts == if events[k].action.Requeue? then 0 else ws[k].task.attempts
  {
    assert Step(ws[k], events[k], ws[k + 1]);
    DeletedTerminal(ws, events, k);
  }

  // ----- the attempt budget

  /** Attempts stay within the budget plus the leases lost since the last requeue, and
      a dead-lettered task has used its budget. */
  ghost predicate WithinBudget(w: World) {
    var t := w.task;
    && t.attempts <= t.maxAttempts + w.expiries
    && (t.status == DeadLetter ==> t.attempts >= t.maxAttempts)
  }

  /** A pending row is claimed only if the budget allows another attempt, and a worker
      whose copy says the budget is spent dead-letters the row only if it is. */
  predicate Safe(w: World, e: Event)
    requires Enabled(w, e)
  {
    && (e.action.Claim? && w.task.status == Pending && Claimable(w.task, e.at) ==>
          w.task.attempts < w.task.maxAttempts + w.expiries)
    && (e.action.GiveBack? && w.task.status == Processing && w.leases[e.action.lease].attempts >= w.task.maxAttempts ==>
          w.task.attempts >= w.task.maxAttempts)
  }

  ghost predicate StepSafe(ws: seq<World>, events: seq<Event>, i: nat)
    requires i < |events| && i < |ws|
  {
    Enabled(ws[i], events[i]) && Safe(ws[i], events[i])
  }

  ghost predicate AlwaysSafe(ws: seq<World>, events: seq<Event>)
    requires |ws| == |events| + 1
  {
    forall i: nat | i < |events| :: StepSafe(ws, events, i)
  }

  lemma BudgetStep(w: World, e: Event)
    requires Enabled(w, e) && WithinBudget(w)
    ensures WithinBudget(Next(w, e)) <==> Safe(w, e)
  {
  }

  lemma {:induction false} SafeBudget(ws: seq<World>, events: seq<Event>, k: nat)
    requires Run(ws, events) && k < |ws| && AlwaysSafe(ws, events)
    ensures WithinBudget(ws[k])
  {
    if k > 0 {
      SafeBudget(ws, events, k - 1);
      assert StepSafe(ws, events, k - 1);
      assert Step(ws[k - 1], events[k - 1], ws[k]);
      BudgetStep(ws[k - 1], events[k - 1]);
    }
  }

  /** The exact condition: a run stays within the budget throughout if and only if every
      event of it is safe. */
  lemma WithinBudgetIffSafe(ws: seq<World>, events: seq<Event>)
    requires Run(ws, events)
    ensures (forall k | 0 <= k < |ws| :: WithinBudget(ws[k])) <==> AlwaysSafe(ws, events)
  {
    if AlwaysSafe(ws, events) {
      forall k | 0 <= k < |ws|
        ensures WithinBudget(ws[k])
      {
        SafeBudget(ws, events, k);
      }
    }
    if forall k | 0 <= k < |ws| :: WithinBudget(ws[k]) {
      forall i: nat | i < |events|
        ensures StepSafe(ws, events, i)
      {
        assert Step(ws[i], events[i], ws[i + 1]) && WithinBudget(ws[i]) && WithinBudget(ws[i + 1]);
        BudgetStep(ws[i], events[i]);
      }
    }
  }

  /** The budget, and a spare attempt for every pending row: whatever is claimed next
      stays within it too. */
  ghost predicate SparesAttempt(w: World) {
    WithinBudget(w) && (w.task.status == Pending ==> w.task.attempts < w.task.maxAttempts + w.expiries)
  }

  /** A failure reported on a processing row: the worker's copy says the budget is spent
      only if it is, and that attempts are left only if the budget allows another. */
  predicate Harmless(w: World, e: Event)
    requires Enabled(w, e)
  {
    e.action.GiveBack? && w.task.status == Processing ==>
      if w.leases[e.action.lease].attempts >= w.task.maxAttempts then w.task.attempts >= w.task.maxAttempts
      else w.task.attempts < w.task.maxAttempts + w.expiries
  }

  ghost predicate StepHarmless(ws: seq<World>, events: seq<Event>, i: nat)
    requires i < |events| && i < |ws|
  {
    Enabled(ws[i], events[i]) && Harmless(ws[i], events[i])
  }

  ghost predicate AlwaysHarmless(ws: seq<World>, events: seq<Event>)
    requires |ws| == |events| + 1
  {
    forall i: nat | i < |events| :: StepHarmless(ws, events, i)
  }

  lemma SpareStep(w: World, e: Event)
    requires Enabled(w, e) && w.task.maxAttempts >= 1 && SparesAttempt(w)
    ensures SparesAttempt(Next(w, e)) <==> Harmless(w, e)
    ensures Next(w, e).task.maxAttempts == w.task.maxAttempts
  {
  }

  lemma {:induction false} HarmlessSpares(ws: seq<World>, events: seq<Event>, k: nat)
    requires Run(ws, events) && k < |ws| && AlwaysHarmless(ws, events)
    ensures SparesAttempt(ws[k]) && ws[k].task.maxAttempts >= 1
  {
    if k > 0 {
      HarmlessSpares(ws, events, k - 1);
      assert StepHarmless(ws, events, k - 1);
      assert Step(ws[k - 1], events[k - 1], ws[k]);
      SpareStep(ws[k - 1], events[k - 1]);
    }
  }

  /** A run keeps the budget and the spare attempt throughout if and only if every failure
      it reports is harmless. */
  lemma SparesAttemptIffHarmless(ws: seq<World>, events: seq<Event>)
    requires Run(ws, events)
    ensures (forall k | 0 <= k < |ws| :: SparesAttempt(ws[k])) <==> AlwaysHarmless(ws, events)
  {
    if AlwaysHarmless(ws, events) {
      forall k | 0 <= k < |ws|
        ensures SparesAttempt(ws[k])
      {
        HarmlessSpares(ws, events, k);
      }
    }
    if forall k | 0 <= k < |ws| :: SparesAttempt(ws[k]) {
      forall i: nat | i < |events|
        ensures StepHarmless(ws, events, i)
      {
        assert Step(ws[i], events[i], ws[i + 1]) && SparesAttempt(ws[i]) && SparesAttempt(ws[i + 1]);
        LeaseAlwaysFits(ws, events, i);
        SpareStep(ws[i], events[i]);
      }
    }
  }

  /** Only the latest claimant's outcome reaches the row. */
  predicate Fenced(w: World, e: Event) {
    Reports(e.action) && w.task.status == Processing ==> e.action.lease == Current(w)
  }

  ghost predicate AlwaysFenced(ws: seq<World>, events: seq<Event>)
    requires Run(ws, events)
  {
    forall i | 0 <= i < |events| :: Fenced(ws[i], events[i])
  }

  /** The latest claimant's copy has the row's attempts while the row is processing. */
  ghost predicate CopyFits(w: World) {
    w.task.status == Processing ==> Current(w) >= 0 && w.leases[Current(w)].attempts == w.task.attempts
  }

  lemma {:induction false} CopyAlwaysFits(ws: seq<World>, events: seq<Event>, k: nat)
    requires Run(ws, events) && k < |ws|
    ensures CopyFits(ws[k])
  {
    if k > 0 {
      CopyAlwaysFits(ws, events, k - 1);
      assert Step(ws[k - 1], events[k - 1], ws[k]);
    }
  }

  /** If only the latest claimant writes outcomes, every failure is harmless. */
  lemma FencedRunsStayWithinBudget(ws: seq<World>, events: seq<Event>, k: nat)
    requires Run(ws, events) && AlwaysFenced(ws, events) && k < |ws|
    ensures SparesAttempt(ws[k])
  {
    forall i: nat | i < |events|
      ensures StepHarmless(ws, events, i)
    {
      assert Step(ws[i], events[i], ws[i + 1]) && Fenced(ws[i], events[i]);
      CopyAlwaysFits(ws, events, i);
    }
    SparesAttemptIffHarmless(ws, events);
  }

  // ----- when the fence is there without a check

  /** Time does not run backwards, and a worker acts on its lease only while the last
      claim or heartbeat it made on it still covers the moment. */
  predicate Timely(w: World, e: Event) {
    && w.now <= e.at
    && (Acts(e.action) && e.action.lease < |w.leases| ==> e.at <= w.leases[e.action.lease].until)
  }

  ghost predicate AlwaysTimely(ws: seq<World>, events: seq<Event>)
    requires Run(ws, events)
  {
    forall i | 0 <= i < |events| :: Timely(ws[i], events[i])
  }

  /** An open lease either is the latest and in force, or has run out. */
  ghost predicate InForceOrOut(w: World, g: nat)
    requires g < |w.leases|
  {
    w.leases[g].open ==>
      w.leases[g].until < w.now || (g == Current(w) && w.task.status == Processing && w.leases[g].until <= w.task.visibleAt)
  }

  ghost predicate LeasesInForce(w: World) {
    forall g: nat | g < |w.leases| :: InForceOrOut(w, g)
  }

  lemma TimelyStep(w: World, e: Event)
    requires Enabled(w, e) && Timely(w, e) && LeasesInForce(w)
    ensures Fenced(w, e) && LeasesInForce(Next(w, e))
  {
    if Acts(e.action) {
      assert InForceOrOut(w, e.action.lease);
    }
    var v := Next(w, e);
    forall g: nat | g < |v.leases|
      ensures InForceOrOut(v, g)
    {
      if g < |w.leases| {
        assert InForceOrOut(w, g);
      }
    }
  }

  lemma {:induction false} TimelyLeases(ws: seq<World>, events: seq<Event>, k: nat)
    requires Run(ws, events) && AlwaysTimely(ws, events) && k < |ws|
    ensures LeasesInForce(ws[k])
  {
    if k > 0 {
      TimelyLeases(ws, events, k - 1);
      assert Step(ws[k - 1], events[k - 1], ws[k]);
      TimelyStep(ws[k - 1], events[k - 1]);
    }
  }

  /** Workers that respect their leases need no fence: the budget holds in every run. */
  lemma TimelyRunsStayWithinBudget(ws: seq<World>, events: seq<Event>, k: nat)
    requires Run(ws, events) && AlwaysTimely(ws, events) && k < |ws|
    ensures AlwaysFenced(ws, events) && SparesAttempt(ws[k])
  {
    forall i: nat | i < |events|
      ensures Fenced(ws[i], events[i])
    {
      TimelyLeases(ws, events, i);
      assert Step(ws[i], events[i], ws[i + 1]);
      TimelyStep(ws[i], events[i]);
    }
    FencedRunsStayWithinBudget(ws, events, k);
  }

  // ----- without the assumption

  /** A task that may be tried twice, with a lease of ten seconds. */
  function Fresh(): World {
    World(0, Task(Scope(0, ""), 0, Fixed, Pending, None, 0, 2, 10, 0, None, None, false), [], 0)
  }

  /** An outcome written by a worker whose lease was lost can dead-letter a task that has
      used one attempt of two: the outcome statements look at the status, not at the
      lock. */
  lemma StaleOutcomeBreaksBudget() returns (ws: seq<World>, events: seq<Event>)
    ensures Run(ws, events) && |events| == 8 && !StepSafe(ws, events, 7)
    ensures var t := ws[|ws| - 1].task; t.status == DeadLetter && t.attempts < t.maxAttempts
  {
    var w0 := Fresh();
    events := [
      Event(0, Claim(1)), Event(1, GiveBack(0, 0)), Event(1, Claim(1)),
      Event(12, Reclaim), Event(12, Cancel), Event(12, Requeue), Event(12, Claim(2)),
      Event(13, GiveBack(1, 0))];
    var w1 := Next(w0, events[0]);
    var w2 := Next(w1, events[1]);
    var w3 := Next(w2, events[2]);
    var w4 := Next(w3, events[3]);
    var w5 := Next(w4, events[4]);
    var w6 := Next(w5, events[5]);
    var w7 := Next(w6, events[6]);
    var w8 := Next(w7, events[7]);
    ws := [w0, w1, w2, w3, w4, w5, w6, w7, w8];
  }

  /** A task whose first claim was lost, and that was requeued. */
  lemma LostAndRequeued() returns (ws: seq<World>, events: seq<Event>)
    ensures Run(ws, events) && |events| == 4
    ensures ws[4] == Fresh().(now := 11, task := Fresh().task.(visibleAt := 11), leases := [Lease(1, 1, 10, true)])
  {
    events := [Event(0, Claim(1)), Event(11, Reclaim), Event(11, Cancel), Event(11, Requeue)];
    var w1 := Next(Fresh(), events[0]);
    var w2 := Next(w1, events[1]);
    var w3 := Next(w2, events[2]);
    ws := [Fresh(), w1, w2, w3, Next(w3, events[3])];
  }

  lemma RunOn(ws: seq<World>, events: seq<Event>, e: Event)
    requires Run(ws, events) && Enabled(ws[|events|], e)
    ensures Run(ws + [Next(ws[|events|], e)], events + [e])
  {
  }

  /** It can also return a task that has used its whole budget: the run is within the
      budget until somebody claims it again. */
  lemma StaleReturnBreaksBudget() returns (ws: seq<World>, events: seq<Event>)
    ensures Run(ws, events) && |events| == 9 && !StepHarmless(ws, events, 7) && !StepSafe(ws, events, 8)
    ensures WithinBudget(ws[8]) && !SparesAttempt(ws[8]) && !WithinBudget(ws[9])
  {
    var us, es := LostAndRequeued();
    var a, b, c, d, e := Event(11, Claim(2)), Event(11, GiveBack(1, 0)), Event(11, Claim(2)), Event(12, GiveBack(0, 0)), Event(12, Claim(2));
    var w5 := Next(us[4], a);
    RunOn(us, es, a);
    var w6 := Next(w5, b);
    RunOn(us + [w5], es + [a], b);
    var w7 := Next(w6, c);
    RunOn(us + [w5] + [w6], es + [a] + [b], c);
    var w8 := Next(w7, d);
    RunOn(us + [w5] + [w6] + [w7], es + [a] + [b] + [c], d);
    RunOn(us + [w5] + [w6] + [w7] + [w8], es + [a] + [b] + [c] + [d], e);
    ws, events := us + [w5] + [w6] + [w7] + [w8] + [Next(w8, e)], es + [a] + [b] + [c] + [d] + [e];
  }
}
