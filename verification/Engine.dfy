/** The engine that settles a claimed task after its handler has run: storage first,
    then the broker. */
module Engine {
  import opened Common
  import opened TaskLease
  import Broker
  import opened RedisBroker

  // ----- backoff

  datatype RetryPolicy = RetryPolicy(initial: nat, most: nat, multiplier: real)

  /** The first delay multiplied n times. */
  function Grown(p: RetryPolicy, n: nat): real {
    if n == 0 then p.initial as real else Grown(p, n - 1) * p.multiplier
  }

  /** One of the first n products passes the cap. */
  ghost predicate Passes(p: RetryPolicy, n: nat) {
    exists i: nat | 1 <= i <= n :: Grown(p, i) > p.most as real
  }

  ghost function Exponentially(p: RetryPolicy, n: nat): int {
    if Passes(p, n) then p.most else Grown(p, n).Floor
  }

  method NextBackoff(p: RetryPolicy, attempt: nat) returns (r: int)
    ensures r == Exponentially(p, attempt)
  {
    var backoff := p.initial as real;
    for i := 0 to attempt
      invariant backoff == Grown(p, i) && !Passes(p, i)
    {
      backoff := backoff * p.multiplier;
      assert backoff == Grown(p, i + 1);
      if backoff > p.most as real {
        return p.most;
      }
      assert forall k: nat | 1 <= k <= i + 1 && Grown(p, k) > p.most as real :: k <= i;
    }
    r := backoff.Floor;
  }

  lemma {:induction false} GrownGrows(p: RetryPolicy, i: nat, n: nat)
    requires p.multiplier >= 1.0 && i <= n
    ensures 0.0 <= Grown(p, i) <= Grown(p, n)
    decreases n
  {
    if i < n {
      GrownGrows(p, i, n - 1);
      TimesGrows(Grown(p, n - 1), p.multiplier);
    } else if n > 0 {
      GrownGrows(p, n - 1, n - 1);
      TimesGrows(Grown(p, n - 1), p.multiplier);
    }
  }

  lemma TimesGrows(x: real, m: real)
    requires x >= 0.0 && m >= 1.0
    ensures x <= x * m
  {
  }

  /** With a multiplier of at least one, the delay after a failed attempt is the product
      or the cap, whichever is smaller. */
  lemma ExponentialIsCapped(p: RetryPolicy, n: nat)
    requires p.multiplier >= 1.0 && n > 0
    ensures Exponentially(p, n) == if Grown(p, n) > p.most as real then p.most else Grown(p, n).Floor
  {
    if Passes(p, n) {
      var i: nat :| 1 <= i <= n && Grown(p, i) > p.most as real;
      GrownGrows(p, i, n);
    }
  }

  ghost function Delay(p: RetryPolicy, copy: Task): int {
    match copy.strategy
    case Fixed => p.initial
    case Linear => if copy.attempts * p.initial > p.most then p.most else copy.attempts * p.initial
    case Exponential => Exponentially(p, copy.attempts)
  }

  /** How the delay goes on with one more attempt: it stays, it grows by the first delay,
      or it is multiplied, the last two up to the cap. */
  lemma DelayGrows(p: RetryPolicy, copy: Task)
    requires p.multiplier >= 1.0
    ensures var next := Delay(p, copy.(attempts := copy.attempts + 1));
            match copy.strategy
            case Fixed => Delay(p, copy) == next == p.initial
            case Linear =>
              && (copy.attempts == 0 ==> Delay(p, copy) == 0)
              && next == if Delay(p, copy) + p.initial > p.most then p.most else Delay(p, copy) + p.initial
            case Exponential =>
              && (copy.attempts == 0 ==> Delay(p, copy) == p.initial)
              && next <= p.most && (Delay(p, copy) <= p.most ==> Delay(p, copy) <= next)
  {
    match copy.strategy
    case Fixed =>
    case Linear => assert (copy.attempts + 1) * p.initial == copy.attempts * p.initial + p.initial;
    case Exponential =>
      ExponentialIsCapped(p, copy.attempts + 1);
      if copy.attempts > 0 {
        ExponentialIsCapped(p, copy.attempts);
      }
      GrownGrows(p, copy.attempts, copy.attempts + 1);
  }

  // ----- settling a task

  datatype Verdict = WasCompleted | WasRetried | WasDeadLettered

  /** The row after the engine is through with it: a returned task is marked dispatched
      once the broker has it. */
  function Settled(t: Task, spent: bool, succeeded: bool, retryAt: int, now: int): Task {
    var written := Outcome(t, spent, succeeded, retryAt);
    if t.status == Processing && !succeeded && !spent then written.(dispatchedAt := Some(now)) else written
  }

  /** The broker's share, after the storage accepted the outcome. */
  function Transported(s: Broker.State, id: TaskId, spent: bool, succeeded: bool, delay: int, now: int): Broker.State {
    if succeeded then Broker.Ack(s, id)
    else if spent then Broker.MoveToDeadLetter(s, id)
    else if delay <= 0 then Broker.NackNow(s, id)
    else Broker.NackLater(s, id, now + delay)
  }

  // ----- row and message together

  ghost predicate Nowhere(s: Broker.State, m: TaskId) {
    m !in s.pending && m !in s.processing && m !in s.delayed && m !in s.priorities
  }

  /** Every other message is where it was. */
  ghost predicate OthersStay(a: Broker.State, b: Broker.State, m: TaskId) {
    && a.pending - {m} == b.pending - {m} && a.processing - {m} == b.processing - {m}
    && a.delayed - {m} == b.delayed - {m} && a.priorities - {m} == b.priorities - {m}
  }

  /** The message says what the row says. A completed task has none, a dead-lettered one
      heads the dead letters, and a returned one waits in one set only, with its priority:
      until the row is visible if that is later, and otherwise in line. */
  ghost predicate MessageFits(row: Task, a: Broker.State, b: Broker.State, m: TaskId, now: int) {
    match row.status
    case Completed => Nowhere(b, m) && b.deadLetters == a.deadLetters
    case DeadLetter => Nowhere(b, m) && b.deadLetters == [m] + a.deadLetters
    case Pending =>
      && m !in b.processing && b.priorities == a.priorities && b.deadLetters == a.deadLetters
      && if row.visibleAt > now then m !in b.pending && m in b.delayed && b.delayed[m] == row.visibleAt
         else m in b.pending && m !in b.delayed
    case _ => false
  }

  /** Whoever takes the message from now on, from the line or when it is due, finds a row
      it can claim. */
  ghost predicate TakenIsClaimable(row: Task, s: Broker.State, m: TaskId, now: int) {
    forall later {:trigger Claimable(row, later)} | now <= later ::
      m in s.pending || (m in s.delayed && s.delayed[m] <= later) ==> Claimable(row, later)
  }

  lemma MessageSettled(s: Broker.State, id: TaskId)
    requires Broker.Placed(s) && id in s.processing
    ensures Nowhere(Broker.Ack(s, id), id) && OthersStay(s, Broker.Ack(s, id), id)
    ensures Nowhere(Broker.MoveToDeadLetter(s, id), id) && OthersStay(s, Broker.MoveToDeadLetter(s, id), id)
  {
  }

  lemma MessageReturned(s: Broker.State, id: TaskId, due: int)
    requires Broker.Placed(s) && id in s.processing
    ensures var b := Broker.NackLater(s, id, due);
            && id !in b.processing && id !in b.pending && id in b.delayed && b.delayed[id] == due
            && b.priorities == s.priorities && OthersStay(s, b, id)
    ensures var b := Broker.NackNow(s, id);
            && id !in b.processing && id in b.pending && id !in b.delayed
            && b.priorities == s.priorities && OthersStay(s, b, id)
  {
  }

  lemma OutcomePlaced(s: Broker.State, id: TaskId, spent: bool, succeeded: bool, delay: int, now: int)
    requires Broker.Placed(s) && id in s.processing
    ensures Broker.Placed(Transported(s, id, spent, succeeded, delay, now))
  {
    var op := if succeeded then Broker.OpAck(id) else if spent then Broker.OpDeadLetter(id)
              else if delay <= 0 then Broker.OpNackNow(id) else Broker.OpNackLater(id, now + delay);
    Broker.DoPlaced(s, op);
  }

  lemma OutcomeFits(t: Task, copy: Task, s: Broker.State, id: TaskId, succeeded: bool, delay: int, now: int)
    requires t.status == Processing && Broker.Placed(s) && id in s.processing
    ensures var row := Settled(t, Exhausted(copy), succeeded, now + delay, now);
            var after := Transported(s, id, Exhausted(copy), succeeded, delay, now);
            && MessageFits(row, s, after, id, now) && OthersStay(s, after, id)
            && (!t.deleted ==> TakenIsClaimable(row, after, id, now))
  {
    MessageSettled(s, id);
    MessageReturned(s, id, now + delay);
  }

  lemma OutcomeFitsAt(tasks: Tasks, copy: Task, s: Broker.State, id: TaskId, succeeded: bool, delay: int, now: int)
    ensures id in tasks && tasks[id].status == Processing && Broker.Placed(s) && id in s.processing ==>
              var row := Settled(tasks[id], Exhausted(copy), succeeded, now + delay, now);
              var after := Transported(s, id, Exhausted(copy), succeeded, delay, now);
              && MessageFits(row, s, after, id, now) && OthersStay(s, after, id) && Broker.Placed(after)
              && (!row.deleted ==> TakenIsClaimable(row, after, id, now))
  {
    if id in tasks && tasks[id].status == Processing && Broker.Placed(s) && id in s.processing {
      OutcomeFits(tasks[id], copy, s, id, succeeded, delay, now);
      OutcomePlaced(s, id, Exhausted(copy), succeeded, delay, now);
    }
  }

  class Engine {
    const storage: TaskStorage
    const broker: RedisBroker
    const policy: RetryPolicy

    constructor (storage: TaskStorage, broker: RedisBroker, policy: RetryPolicy)
      ensures this.storage == storage && this.broker == broker && this.policy == policy
    {
      this.storage, this.broker, this.policy := storage, broker, policy;
    }

    method NextDelay(copy: Task) returns (delay: int)
      ensures delay == Delay(policy, copy)
    {
      match copy.strategy
      case Fixed => delay := policy.initial;
      case Linear =>
        delay := copy.attempts * policy.initial;
        if delay > policy.most {
          delay := policy.most;
        }
      case Exponential => delay := NextBackoff(policy, copy.attempts);
    }

    /** Runs after the handler: `copy` is the row as claimed. The outcome and the message
        change if and only if the row is still processing, whoever holds it by then. */
    method Execute(id: TaskId, copy: Task, succeeded: bool, now: int) returns (r: Verdict, ok: bool)
      modifies storage, broker
      ensures r == if succeeded then WasCompleted else if Exhausted(copy) then WasDeadLettered else WasRetried
      ensures ok <==> id in old(storage.tasks) && old(storage.tasks)[id].status == Processing
      ensures var retryAt := now + Delay(policy, copy);
              storage.tasks == if ok then old(storage.tasks)[id := Settled(old(storage.tasks)[id], Exhausted(copy), succeeded, retryAt, now)]
                               else old(storage.tasks)
      ensures broker.At(copy.scope) ==
                if ok then Transported(old(broker.At(copy.scope)), id, Exhausted(copy), succeeded, Delay(policy, copy), now)
                else old(broker.At(copy.scope))
      ensures broker.OnlyScope(copy.scope)
      ensures ok ==>
                && id in storage.tasks && storage.tasks[id].attempts == old(storage.tasks)[id].attempts
                && storage.tasks[id].status == (if succeeded then Completed else if copy.attempts >= copy.maxAttempts then DeadLetter else Pending)
                && (storage.tasks[id].status == Pending ==>
                      storage.tasks[id].visibleAt == now + Delay(policy, copy) && storage.tasks[id].dispatchedAt == Some(now))
      ensures ok && old(Broker.Placed(broker.At(copy.scope))) && id in old(broker.At(copy.scope)).processing ==>
                && id in storage.tasks
                && MessageFits(storage.tasks[id], old(broker.At(copy.scope)), broker.At(copy.scope), id, now)
                && OthersStay(old(broker.At(copy.scope)), broker.At(copy.scope), id) && Broker.Placed(broker.At(copy.scope))
                && (!storage.tasks[id].deleted ==> TakenIsClaimable(storage.tasks[id], broker.At(copy.scope), id, now))
    {
      OutcomeFitsAt(storage.tasks, copy, broker.At(copy.scope), id, succeeded, Delay(policy, copy), now);
      if succeeded {
        r := WasCompleted;
        ok := storage.Complete(id);
        if ok {
          broker.Ack(copy.scope, id);
        }
        return;
      }
      r, ok := HandleFailure(id, copy, now);
    }

    method HandleFailure(id: TaskId, copy: Task, now: int) returns (r: Verdict, ok: bool)
      modifies storage, broker
      ensures r == if Exhausted(copy) then WasDeadLettered else WasRetried
      ensures ok <==> id in old(storage.tasks) && old(storage.tasks)[id].status == Processing
      ensures var retryAt := now + Delay(policy, copy);
              storage.tasks == if ok then old(storage.tasks)[id := Settled(old(storage.tasks)[id], Exhausted(copy), false, retryAt, now)]
                               else old(storage.tasks)
      ensures broker.At(copy.scope) ==
                if ok then Transported(old(broker.At(copy.scope)), id, Exhausted(copy), false, Delay(policy, copy), now)
                else old(broker.At(copy.scope))
      ensures broker.OnlyScope(copy.scope)
      ensures ok ==>
                && id in storage.tasks && storage.tasks[id].attempts == old(storage.tasks)[id].attempts
                && storage.tasks[id].status == (if copy.attempts >= copy.maxAttempts then DeadLetter else Pending)
                && (storage.tasks[id].status == Pending ==>
                      storage.tasks[id].visibleAt == now + Delay(policy, copy) && storage.tasks[id].dispatchedAt == Some(now))
      ensures ok && old(Broker.Placed(broker.At(copy.scope))) && id in old(broker.At(copy.scope)).processing ==>
                && id in storage.tasks
                && MessageFits(storage.tasks[id], old(broker.At(copy.scope)), broker.At(copy.scope), id, now)
                && OthersStay(old(broker.At(copy.scope)), broker.At(copy.scope), id) && Broker.Placed(broker.At(copy.scope))
                && (!storage.tasks[id].deleted ==> TakenIsClaimable(storage.tasks[id], broker.At(copy.scope), id, now))
    {
      OutcomeFitsAt(storage.tasks, copy, broker.At(copy.scope), id, false, Delay(policy, copy), now);
      if copy.attempts >= copy.maxAttempts {
        r := WasDeadLettered;
        ok := storage.MoveToDeadLetter(id);
        if ok {
          broker.MoveToDeadLetter(copy.scope, id);
        }
        return;
      }
      r := WasRetried;
      var delay := NextDelay(copy);
      ok := storage.Fail(id, Pending, now + delay);
      if ok {
        broker.Nack(copy.scope, id, delay, now);
        var marked := storage.MarkDispatched(id, now);
      }
    }
  }
}
