/** Rebuilding the Redis transport from the task table: a paging loop over every
    dispatchable task. */
module Rebuild {
  import opened Common
  import opened Broker
  import opened RedisBroker
  import TaskLease

  type TaskRow = TaskLease.Task

  /** Tasks by id; 0 is the nil id. */
  type Table = TaskLease.Tasks

  const PAGE := 250

  predicate Dispatchable(t: Table, id: Member) {
    id in t && t[id].status.Pending? && !t[id].deleted
  }

  /** One page: the next dispatchable ids above a cursor, ascending. */
  ghost predicate IsPage(t: Table, after: Member, limit: nat, page: seq<Member>) {
    && |page| <= limit
    && (forall i | 0 <= i < |page| :: Dispatchable(t, page[i]) && page[i] > after)
    && (forall i, j | 0 <= i < j < |page| :: page[i] < page[j])
    && (forall id: Member | Dispatchable(t, id) && id > after && id !in page ::
          |page| == limit && forall i | 0 <= i < |page| :: page[i] < id)
  }

  method ListDispatchableTasks(t: Table, after: Member, limit: nat) returns (page: seq<Member>)
    ensures IsPage(t, after, limit, page)
  {
    page := [];
    var left := set id | id in t && Dispatchable(t, id) && id > after;
    while left != {} && |page| < limit
      invariant |page| <= limit && left <= set id | id in t && Dispatchable(t, id) && id > after
      invariant forall i | 0 <= i < |page| :: Dispatchable(t, page[i]) && page[i] > after
      invariant forall i, j | 0 <= i < j < |page| :: page[i] < page[j]
      invariant forall id: Member | Dispatchable(t, id) && id > after :: id in page || id in left
      invariant forall id, i | id in left && 0 <= i < |page| :: page[i] < id
      decreases left
    {
      var least := LeastOf(left);
      page := page + [least];
      left := left - {least};
    }
  }

  method LeastOf(s: set<Member>) returns (least: Member)
    requires s != {}
    ensures least in s && forall x | x in s :: least <= x
  {
    least :| least in s;
    var left := s - {least};
    while left != {}
      invariant least in s && left <= s
      invariant forall x | x in s && x !in left :: least <= x
      decreases left
    {
      var x :| x in left;
      left := left - {x};
      if x < least {
        least := x;
      }
    }
  }

  // ----- what a rebuild leaves behind

  /** A dispatchable task belongs in exactly one of pending and delayed. */
  ghost predicate InPlace(s: State, id: Member, row: TaskRow, now: int) {
    && (id in s.delayed <==> row.visibleAt > now)
    && (id in s.pending <==> row.visibleAt <= now)
    && (id in s.delayed ==> s.delayed[id] == row.visibleAt)
    && id !in s.processing && id !in s.deadLetters
    && id in s.priorities && s.priorities[id] == Clamp(row.priority)
  }

  /** A member's entries in two states of a scope agree, scores aside. */
  ghost predicate SamePlace(a: State, b: State, m: Member) {
    && (m in a.pending <==> m in b.pending) && (m in a.processing <==> m in b.processing)
    && (m in a.delayed <==> m in b.delayed) && (m in a.delayed ==> a.delayed[m] == b.delayed[m])
    && (m in a.priorities <==> m in b.priorities) && (m in a.priorities ==> a.priorities[m] == b.priorities[m])
    && (m in a.deadLetters <==> m in b.deadLetters)
  }

  lemma {:induction false} DroppedOthers(letters: seq<Member>, m: Member, x: Member)
    ensures x in Dropped(letters, m) <==> x in letters && x != m
  {
    if letters != [] {
      DroppedOthers(letters[1..], m, x);
      assert letters == [letters[0]] + letters[1..];
    }
  }

  function Replaced(s: State, id: Member, row: TaskRow, now: int): State {
    var cleared := Remove(s, id);
    if row.visibleAt > now then Broker.EnqueueDelayed(cleared, id, row.priority, row.visibleAt)
    else Broker.Enqueue(cleared, id, row.priority)
  }

  /** Clearing a task and enqueuing it again puts it where it belongs, whatever was
      there before, and leaves every other member alone. */
  lemma ReplacedInPlace(s: State, id: Member, row: TaskRow, now: int)
    ensures InPlace(Replaced(s, id, row, now), id, row, now)
    ensures forall x | x != id :: SamePlace(s, Replaced(s, id, row, now), x)
  {
    forall x | x != id
      ensures x in Dropped(s.deadLetters, id) <==> x in s.deadLetters
    {
      DroppedOthers(s.deadLetters, id, x);
    }
  }

  /** Only the dispatch marks differ. */
  ghost predicate SameButDispatched(a: Table, b: Table) {
    && a.Keys == b.Keys
    && forall id | id in a :: b[id] == a[id].(dispatchedAt := b[id].dispatchedAt)
  }

  ghost predicate Ascending(ids: seq<Member>) {
    forall i, j | 0 <= i < j < |ids| :: ids[i] < ids[j]
  }

  /** A member of a scope the run had no business with. */
  ghost predicate Bystander(t: Table, handled: seq<Member>, scope: Scope, x: Member) {
    x !in handled || (x in t && t[x].scope != scope)
  }

  ghost predicate TaskDone(t0: Table, t: Table, after: Scopes, id: Member, now: int) {
    && id in t0 && id in t
    && InPlace(Read(after, t0[id].scope), id, t0[id], now)
    && t[id].dispatchedAt == Some(now)
  }

  /** Tasks `handled` were placed, the k-th at time `clock(k)`, and nothing else moved. */
  ghost predicate Rebuilt(t0: Table, before: Scopes, t: Table, after: Scopes, handled: seq<Member>, clock: nat -> int) {
    && SameButDispatched(t0, t)
    && (forall k: nat | k < |handled| :: TaskDone(t0, t, after, handled[k], clock(k)))
    && (forall scope, x | Bystander(t0, handled, scope, x) :: SamePlace(Read(before, scope), Read(after, scope), x))
    && (forall x | x in t0 && x !in handled :: t[x] == t0[x])
  }

  /** Every dispatchable task after the nil id, once, in order. */
  ghost predicate Complete(t: Table, handled: seq<Member>) {
    Ascending(handled) && forall id: Member :: id in handled <==> Dispatchable(t, id) && id > 0
  }

  /** One task of one scope was placed. */
  ghost predicate PlacedAlone(mid: Scopes, after: Scopes, id: Member, row: TaskRow, now: int) {
    && InPlace(Read(after, row.scope), id, row, now)
    && (forall x | x != id :: SamePlace(Read(mid, row.scope), Read(after, row.scope), x))
    && forall other | other != row.scope :: Read(after, other) == Read(mid, other)
  }

  lemma TaskStaysDone(t0: Table, t: Table, mid: Scopes, done: Member, since: int, id: Member, now: int, after: Scopes)
    requires TaskDone(t0, t, mid, done, since) && id in t0 && id in t && id != done
    requires PlacedAlone(mid, after, id, t0[id], now)
    ensures TaskDone(t0, t[id := t[id].(dispatchedAt := Some(now))], after, done, since)
  {
    assert SamePlace(Read(mid, t0[done].scope), Read(after, t0[done].scope), done);
    KeepsInPlace(Read(mid, t0[done].scope), Read(after, t0[done].scope), done, t0[done], since);
  }

  lemma BystanderStays(t0: Table, before: Scopes, mid: Scopes, handled: seq<Member>, id: Member, now: int,
                       after: Scopes, scope: Scope, x: Member)
    requires id in t0 && PlacedAlone(mid, after, id, t0[id], now)
    requires SamePlace(Read(before, scope), Read(mid, scope), x)
    requires Bystander(t0, handled + [id], scope, x)
    ensures SamePlace(Read(before, scope), Read(after, scope), x)
  {
    assert x == id ==> x in handled + [id];
    assert SamePlace(Read(mid, scope), Read(after, scope), x);
  }

  lemma RebuiltStep(t0: Table, before: Scopes, t: Table, mid: Scopes, handled: seq<Member>, clock: nat -> int,
                    id: Member, after: Scopes)
    requires Rebuilt(t0, before, t, mid, handled, clock)
    requires id in t0 && id !in handled && PlacedAlone(mid, after, id, t0[id], clock(|handled|))
    ensures Rebuilt(t0, before, t[id := t[id].(dispatchedAt := Some(clock(|handled|)))], after, handled + [id], clock)
  {
    var now := clock(|handled|);
    var t1 := t[id := t[id].(dispatchedAt := Some(now))];
    forall k: nat | k < |handled + [id]|
      ensures TaskDone(t0, t1, after, (handled + [id])[k], clock(k))
    {
      if k < |handled| {
        TaskStaysDone(t0, t, mid, handled[k], clock(k), id, now, after);
      }
    }
    forall scope, x | Bystander(t0, handled + [id], scope, x)
      ensures SamePlace(Read(before, scope), Read(after, scope), x)
    {
      assert Bystander(t0, handled, scope, x);
      BystanderStays(t0, before, mid, handled, id, now, after, scope, x);
    }
  }

  lemma KeepsInPlace(a: State, b: State, id: Member, row: TaskRow, now: int)
    ensures InPlace(a, id, row, now) && SamePlace(a, b, id) ==> InPlace(b, id, row, now)
  {
  }

  lemma NotYet(handled: seq<Member>, tasks: seq<Member>, k: nat)
    requires k < |tasks| && Ascending(handled + tasks)
    ensures tasks[k] !in handled + tasks[..k]
  {
    var all := handled + tasks;
    assert all[|handled| + k] == tasks[k];
    assert forall i | 0 <= i < |handled| + k :: (handled + tasks[..k])[i] == all[i];
  }

  class RedisRebuilder {
    const storage: TaskLease.TaskStorage
    const broker: RedisBroker

    constructor (storage: TaskLease.TaskStorage, broker: RedisBroker)
      ensures this.storage == storage && this.broker == broker
    {
      this.storage, this.broker := storage, broker;
    }

    /** Clears one task's broker state and enqueues it again. */
    method Place(id: Member, row: TaskRow, now: int) returns (delayed: bool)
      modifies broker
      ensures PlacedAlone(old(broker.scopes), broker.scopes, id, row, now)
      ensures delayed <==> row.visibleAt > now
    {
      broker.Remove(row.scope, id);
      delayed := row.visibleAt > now;
      if delayed {
        broker.EnqueueDelayed(row.scope, id, row.priority, row.visibleAt - now, now);
      } else {
        broker.Enqueue(row.scope, id, row.priority);
      }
      assert broker.At(row.scope) == Replaced(old(broker.At(row.scope)), id, row, now);
      ReplacedInPlace(old(broker.At(row.scope)), id, row, now);
      forall other | other != row.scope
        ensures Read(broker.scopes, other) == Read(old(broker.scopes), other)
      {
        assert broker.At(other) == old(broker.At(other));
      }
    }

    /** One turn of the inner loop. */
    method RebuildTask(id: Member, row: TaskRow, now: int,
                       ghost t0: Table, ghost before: Scopes, ghost handled: seq<Member>, ghost clock: nat -> int)
      returns (delayed: bool)
      requires Rebuilt(t0, before, storage.tasks, broker.scopes, handled, clock)
      requires id in t0 && t0[id].status.Pending? && row == t0[id].(dispatchedAt := row.dispatchedAt) && id !in handled
      requires now == clock(|handled|)
      modifies storage, broker
      ensures Rebuilt(t0, before, storage.tasks, broker.scopes, handled + [id], clock)
    {
      ghost var mid := broker.scopes;
      delayed := Place(id, row, now);
      RebuiltStep(t0, before, storage.tasks, mid, handled, clock, id, broker.scopes);
      var ok := storage.MarkDispatched(id, now);
    }

    /** One page, in order. */
    method RebuildPage(rows: Table, tasks: seq<Member>, scanned0: nat, clock: nat -> int,
                       ghost t0: Table, ghost before: Scopes, ghost handled0: seq<Member>)
      returns (scanned: nat, pending: nat, delayed: nat, ghost handled: seq<Member>)
      requires Rebuilt(t0, before, storage.tasks, broker.scopes, handled0, clock)
      requires SameButDispatched(t0, rows) && scanned0 == |handled0|
      requires Ascending(handled0 + tasks) && forall id | id in tasks :: Dispatchable(rows, id)
      modifies storage, broker
      ensures handled == handled0 + tasks
      ensures Rebuilt(t0, before, storage.tasks, broker.scopes, handled, clock)
      ensures scanned == |handled| == scanned0 + pending + delayed
    {
      scanned, pending, delayed, handled := scanned0, 0, 0, handled0;
      assert handled0 + tasks[..0] == handled0;
      for k := 0 to |tasks|
        invariant handled == handled0 + tasks[..k]
        invariant Rebuilt(t0, before, storage.tasks, broker.scopes, handled, clock)
        invariant scanned == |handled| == scanned0 + pending + delayed
      {
        var id := tasks[k];
        assert Dispatchable(rows, id);
        NotYet(handled0, tasks, k);
        var late := RebuildTask(id, rows[id], clock(scanned), t0, before, handled, clock);
        scanned := scanned + 1;
        if late {
          delayed := delayed + 1;
        } else {
          pending := pending + 1;
        }
        assert handled0 + tasks[..k + 1] == handled + [id];
        handled := handled + [id];
      }
      assert tasks[..|tasks|] == tasks;
    }

    method Rebuild(clock: nat -> int) returns (scanned: nat, pending: nat, delayed: nat, ghost handled: seq<Member>)
      modifies storage, broker
      ensures Complete(old(storage.tasks), handled)
      ensures Rebuilt(old(storage.tasks), old(broker.scopes), storage.tasks, broker.scopes, handled, clock)
      ensures scanned == pending + delayed == |handled|
    {
      scanned, pending, delayed, handled := 0, 0, 0, [];
      var after: Member := 0;
      while true
        invariant Rebuilt(old(storage.tasks), old(broker.scopes), storage.tasks, broker.scopes, handled, clock)
        invariant ScannedTo(old(storage.tasks), handled, after)
        invariant scanned == pending + delayed == |handled|
        decreases Ahead(old(storage.tasks), after)
      {
        var rows := storage.tasks;
        var tasks := ListDispatchableTasks(rows, after, PAGE);
        NextPage(old(storage.tasks), rows, handled, after, tasks);
        if tasks == [] {
          return;
        }
        var more, later;
        scanned, more, later, handled := RebuildPage(rows, tasks, scanned, clock, old(storage.tasks), old(broker.scopes), handled);
        pending, delayed := pending + more, delayed + later;
        after := tasks[|tasks| - 1];
        if |tasks| < PAGE {
          return;
        }
      }
    }
  }

  /** Exactly the dispatchable tasks up to a cursor are handled. */
  ghost predicate ScannedTo(t: Table, handled: seq<Member>, after: Member) {
    && Ascending(handled)
    && forall id: Member :: id in handled <==> Dispatchable(t, id) && 0 < id <= after
  }

  /** A page extends the scan to its last id; a short page ends it. */
  lemma NextPage(t0: Table, t: Table, handled: seq<Member>, after: Member, page: seq<Member>)
    requires SameButDispatched(t0, t) && ScannedTo(t0, handled, after) && IsPage(t, after, PAGE, page)
    ensures Ascending(handled + page)
    ensures |page| < PAGE ==> Complete(t0, handled + page)
    ensures |page| > 0 ==> ScannedTo(t0, handled + page, page[|page| - 1])
    ensures |page| > 0 ==> Ahead(t0, page[|page| - 1]) < Ahead(t0, after)
  {
    var all := handled + page;
    assert forall id: Member :: Dispatchable(t, id) <==> Dispatchable(t0, id);
    forall i, j | 0 <= i < j < |all|
      ensures all[i] < all[j]
    {
      assert i < |handled| ==> all[i] in handled;
      assert j >= |handled| ==> all[j] == page[j - |handled|];
    }
    assert forall id: Member :: id in all <==> id in handled || id in page;
    if |page| > 0 {
      var last := page[|page| - 1];
      assert last in Ahead(t0, after) && last !in Ahead(t0, last);
      assert forall i | 0 <= i < |page| :: page[i] <= last;
    }
  }

  ghost function Ahead(t: Table, after: Member): set<Member> {
    set id | id in t && Dispatchable(t, id) && id > after
  }

  lemma {:induction false} AscendingUnique(a: seq<Member>, b: seq<Member>)
    requires Ascending(a) && Ascending(b)
    requires forall id :: id in a <==> id in b
    ensures a == b
  {
    assert |a| > 0 ==> a[0] in b;
    assert |b| > 0 ==> b[0] in a;
    if a != [] {
      var i, j := |a| - 1, |b| - 1;
      assert a[i] in b && b[j] in a;
      assert a[i] == b[j];
      forall id
        ensures id in a[..i] <==> id in b[..j]
      {
        assert id in a[..i] <==> id in a && id != a[i];
        assert id in b[..j] <==> id in b && id != b[j];
      }
      AscendingUnique(a[..i], b[..j]);
    }
  }

  /** A second run that reads the same times handles the same tasks in the same order
      and leaves every member of every scope where the first run put it. */
  lemma RebuildTwice(t0: Table, s0: Scopes, t1: Table, s1: Scopes, first: seq<Member>,
                     t2: Table, s2: Scopes, second: seq<Member>, clock: nat -> int)
    requires Complete(t0, first) && Rebuilt(t0, s0, t1, s1, first, clock)
    requires Complete(t1, second) && Rebuilt(t1, s1, t2, s2, second, clock)
    ensures first == second && t1 == t2
    ensures forall scope, x :: SamePlace(Read(s1, scope), Read(s2, scope), x)
  {
    AscendingUnique(first, second);
    forall id | id in t1
      ensures t2[id] == t1[id]
    {
      if id in first {
        var k: nat :| k < |first| && first[k] == id;
        assert TaskDone(t0, t1, s1, first[k], clock(k)) && TaskDone(t1, t2, s2, second[k], clock(k));
      }
    }
    forall scope, x
      ensures SamePlace(Read(s1, scope), Read(s2, scope), x)
    {
      if !Bystander(t1, second, scope, x) {
        var k: nat :| k < |first| && first[k] == x;
        assert TaskDone(t0, t1, s1, first[k], clock(k)) && TaskDone(t1, t2, s2, second[k], clock(k));
      }
    }
  }
}
