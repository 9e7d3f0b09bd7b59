/** Webhook deliveries: claimed in batches, attempted, and recorded by an update that
    checks nothing, with a manual retry beside it. */
module WebhookDelivery {
  import opened Common
  import opened Graphs

  type Id = nat

  datatype Status = Pending | Delivering | Retrying | Delivered | Failed

  datatype Delivery = Delivery(
    status: Status, attempts: nat, maxAttempts: nat, nextAttemptAt: Option<int>, lastAttemptAt: Option<int>,
    response: Option<Response>, lastError: Option<string>, createdAt: int)

  /** What the endpoint answered. */
  datatype Response = Response(code: int, body: string)

  type Rows = map<Id, Delivery>

  // ----- backoff

  /** A 64-bit count of nanoseconds. */
  newtype Duration = x: int | -0x8000_0000_0000_0000 <= x < 0x8000_0000_0000_0000

  const SECOND: Duration := 1_000_000_000

  function Pow2(n: nat): (p: nat)
    ensures p >= 1
  {
    if n == 0 then 1 else 2 * Pow2(n - 1)
  }

  function Min(a: int, b: int): int {
    if a < b then a else b
  }

  /** Doubling from the first delay, capped. */
  function Capped(initial: Duration, most: Duration, attempt: nat): int {
    Min(initial as int * Pow2(if attempt == 0 then 0 else attempt - 1), most as int)
  }

  lemma Doubles(initial: int, n: nat)
    ensures initial * Pow2(n + 1) == 2 * (initial * Pow2(n))
  {
  }

  lemma {:induction false} CapReached(initial: int, most: int, n: nat, m: nat)
    requires initial > 0 && n <= m && initial * Pow2(n) >= most > 0
    ensures initial * Pow2(m) >= most
  {
    if n < m {
      CapReached(initial, most, n, m - 1);
      Doubles(initial, m - 1);
    }
  }

  /** The loop computes the capped power without ever leaving 64 bits or passing the
      larger of its two settings. */
  method Backoff(initial: Duration, most: Duration, attempt: nat) returns (backoff: Duration, ghost values: seq<Duration>)
    requires initial > 0 && most > 0
    ensures backoff as int == Capped(initial, most, attempt)
    ensures forall v | v in values :: 0 < v && (v <= initial || v <= most)
    ensures backoff == most || (values != [] && backoff == values[|values| - 1])
  {
    backoff := initial;
    values := [initial];
    var current := 1;
    while current < attempt && backoff < most
      invariant 1 <= current && (current <= attempt || current == 1)
      invariant backoff as int == initial as int * Pow2(current - 1)
      invariant values != [] && values[|values| - 1] == backoff
      invariant forall v | v in values :: 0 < v && (v <= initial || v <= most)
      decreases attempt - current
    {
      if backoff > most / 2 {
        Doubles(initial as int, current - 1);
        CapReached(initial as int, most as int, current, attempt - 1);
        return most, values;
      }
      Doubles(initial as int, current - 1);
      backoff := backoff * 2;
      values := values + [backoff];
      current := current + 1;
    }
    if backoff >= most && current < attempt {
      CapReached(initial as int, most as int, current - 1, attempt - 1);
    }
    if backoff > most {
      return most, values;
    }
  }

  // ----- one row under each statement

  predicate Due(d: Delivery, now: int) {
    && (d.status == Pending || d.status == Retrying)
    && d.attempts < d.maxAttempts
    && (d.nextAttemptAt.None? || d.nextAttemptAt.value <= now)
  }

  function Claimed(d: Delivery, now: int): Delivery {
    d.(status := Delivering, attempts := d.attempts + 1, lastAttemptAt := Some(now), nextAttemptAt := None)
  }

  predicate Retryable(d: Delivery) {
    d.status == Failed || d.status == Retrying
  }

  function Retried(d: Delivery, now: int): Delivery {
    d.(status := Pending, attempts := 0, nextAttemptAt := Some(now), lastAttemptAt := None,
       response := None, lastError := None)
  }

  /** What came of an attempt: an HTTP answer, or an error before one. */
  datatype Answer = Http(response: Response) | Error(message: string)

  predicate Accepted(a: Answer) {
    a.Http? && 200 <= a.response.code < 300
  }

  function Decimal(n: int): string
    decreases if n < 0 then 1 - n else n
  {
    if n < 0 then "-" + Decimal(-n)
    else if n < 10 then [('0' as int + n) as char]
    else Decimal(n / 10) + [('0' as int + n % 10) as char]
  }

  function Message(a: Answer): string {
    if a.Http? then "webhook returned HTTP " + Decimal(a.response.code) else a.message
  }

  /** The steps of an attempt, each with its error: finding the endpoint, decrypting its
      secret, sending. */
  datatype Attempt = Attempt(lookupError: Option<string>, active: bool, decryptError: Option<string>, sent: Answer)

  /** The first step that fails decides. */
  function AnswerOf(t: Attempt): Answer {
    if t.lookupError.Some? then Error(t.lookupError.value)
    else if !t.active then Error("webhook endpoint is inactive")
    else if t.decryptError.Some? then Error(t.decryptError.value)
    else t.sent
  }

  datatype Policy = Policy(initial: Duration, most: Duration)

  /** The copy a worker writes back. */
  function Recorded(p: Policy, d: Delivery, a: Answer, now: int): Delivery {
    var answered := d.(response := if a.Http? then Some(a.response) else None);
    if Accepted(a) then answered.(status := Delivered, nextAttemptAt := None, lastError := None)
    else if d.attempts >= d.maxAttempts then
      answered.(status := Failed, nextAttemptAt := None, lastError := Some(Message(a)))
    else
      answered.(status := Retrying, nextAttemptAt := Some(now + Capped(p.initial, p.most, d.attempts)),
                lastError := Some(Message(a)))
  }

  // ----- the store and the worker, in place

  /** NULLS FIRST on the due time, then age. */
  predicate Sooner(d: Delivery, e: Delivery) {
    if d.nextAttemptAt.None? then e.nextAttemptAt.Some? || d.createdAt <= e.createdAt
    else
      && e.nextAttemptAt.Some?
      && (d.nextAttemptAt.value < e.nextAttemptAt.value
          || (d.nextAttemptAt.value == e.nextAttemptAt.value && d.createdAt <= e.createdAt))
  }

  function ClaimEach(rows: Rows, ids: seq<Id>, now: int): Rows {
    if ids == [] then rows
    else
      var before := ClaimEach(rows, ids[..|ids| - 1], now);
      var id := ids[|ids| - 1];
      if id in before then before[id := Claimed(before[id], now)] else before
  }

  /** The rows due, soonest first, up to a limit. */
  ghost predicate IsBatch(rows: Rows, ids: seq<Id>, now: int, limit: nat) {
    && NoDuplicates(ids) && |ids| <= limit
    && (forall id | id in ids :: id in rows && Due(rows[id], now))
    && (forall id, other | id in ids && other in rows && Due(rows[other], now) && other !in ids ::
          |ids| == limit && Sooner(rows[id], rows[other]))
    && (|ids| < limit ==> forall other | other in rows && Due(rows[other], now) :: other in ids)
  }

  lemma {:induction false} ClaimEachAt(rows: Rows, ids: seq<Id>, now: int)
    requires NoDuplicates(ids)
    ensures ClaimEach(rows, ids, now).Keys == rows.Keys
    ensures forall id | id in rows ::
              ClaimEach(rows, ids, now)[id] == if id in ids then Claimed(rows[id], now) else rows[id]
  {
    if ids != [] {
      var n := |ids| - 1;
      ClaimEachAt(rows, ids[..n], now);
      assert forall id :: id in ids <==> id in ids[..n] || id == ids[n];
      assert ids[n] !in ids[..n];
    }
  }

  function BatchLimit(limit: int): nat {
    if limit <= 0 || limit > 1000 then 100 else limit
  }

  method PickSoonest(rows: Rows, left: set<Id>) returns (id: Id)
    requires left != {} && left <= rows.Keys
    ensures id in left && forall other | other in left :: Sooner(rows[id], rows[other])
  {
    id :| id in left;
    var rest := left - {id};
    while rest != {}
      invariant id in left && rest <= left
      invariant forall other | other in left && other !in rest :: Sooner(rows[id], rows[other])
      decreases rest
    {
      var other :| other in rest;
      rest := rest - {other};
      if !Sooner(rows[id], rows[other]) {
        id := other;
      }
    }
  }

  class DeliveryRepository {
    var rows: Rows

    method ClaimDueWebhookDeliveries(now: int, limit: int) returns (ids: seq<Id>, copies: seq<Delivery>)
      modifies this
      ensures IsBatch(old(rows), ids, now, BatchLimit(limit))
      ensures rows == ClaimEach(old(rows), ids, now)
      ensures |copies| == |ids|
      ensures forall i | 0 <= i < |ids| :: copies[i] == Claimed(old(rows)[ids[i]], now)
    {
      ids, copies := [], [];
      var snapshot := rows;
      var left := set id | id in rows && Due(rows[id], now);
      while left != {} && |ids| < BatchLimit(limit)
        invariant |copies| == |ids| <= BatchLimit(limit) && NoDuplicates(ids)
        invariant forall id :: id in left || id in ids <==> id in old(rows) && Due(old(rows)[id], now)
        invariant forall id | id in left :: id !in ids
        invariant forall id, other | id in ids && other in left :: Sooner(old(rows)[id], old(rows)[other])
        invariant rows == ClaimEach(old(rows), ids, now)
        invariant forall i | 0 <= i < |ids| :: copies[i] == Claimed(old(rows)[ids[i]], now)
        decreases left
      {
        var id := PickSoonest(snapshot, left);
        ClaimEachAt(old(rows), ids, now);
        var copy := Claimed(rows[id], now);
        assert (ids + [id])[..|ids|] == ids;
        rows := rows[id := copy];
        ids, copies, left := ids + [id], copies + [copy], left - {id};
      }
    }

    method UpdateWebhookDelivery(id: Id, d: Delivery) returns (ok: bool)
      modifies this
      ensures ok <==> id in old(rows)
      ensures rows == if ok then old(rows)[id := d] else old(rows)
    {
      ok := id in rows;
      if ok {
        rows := rows[id := d];
      }
    }

    method RetryWebhookDelivery(id: Id, now: int) returns (ok: bool)
      modifies this
      ensures ok <==> id in old(rows) && Retryable(old(rows)[id])
      ensures rows == if ok then old(rows)[id := Retried(old(rows)[id], now)] else old(rows)
    {
      ok := id in rows && (rows[id].status == Failed || rows[id].status == Retrying);
      if ok {
        var d := rows[id];
        d := d.(status := Pending, attempts := 0, nextAttemptAt := Some(now));
        d := d.(lastAttemptAt := None, response := None, lastError := None);
        rows := rows[id := d];
      }
    }
  }

  class WebhookDeliveryWorker {
    const deliveries: DeliveryRepository
    const policy: Policy
    const batchSize: int

    ghost predicate Valid() {
      policy.initial > 0 && policy.most > 0
    }

    constructor (deliveries: DeliveryRepository, batchSize: int, initial: Duration, most: Duration)
      ensures Valid() && this.deliveries == deliveries
      ensures this.batchSize == (if batchSize <= 0 then 50 else batchSize)
      ensures policy.initial == (if initial > 0 then initial else 5 * SECOND)
      ensures policy.most == (if most > 0 then most else 3600 * SECOND)
    {
      this.deliveries := deliveries;
      this.batchSize := if batchSize <= 0 then 50 else batchSize;
      this.policy := Policy(if initial <= 0 then 5 * SECOND else initial, if most <= 0 then 3600 * SECOND else most);
    }

    /** One claimed delivery and the course of its attempt. */
    method Process(id: Id, copy: Delivery, t: Attempt, now: int) returns (ok: bool)
      requires Valid()
      modifies deliveries
      ensures ok <==> id in old(deliveries.rows)
      ensures deliveries.rows ==
                if ok then old(deliveries.rows)[id := Recorded(policy, copy, AnswerOf(t), now)] else old(deliveries.rows)
    {
      if t.lookupError.Some? {
        ok := RecordFailure(id, copy, Error(t.lookupError.value), now);
      } else if !t.active {
        ok := RecordFailure(id, copy, Error("webhook endpoint is inactive"), now);
      } else if t.decryptError.Some? {
        ok := RecordFailure(id, copy, Error(t.decryptError.value), now);
      } else if t.sent.Error? || t.sent.response.code < 200 || t.sent.response.code >= 300 {
        ok := RecordFailure(id, copy, t.sent, now);
      } else {
        var d := copy.(status := Delivered, nextAttemptAt := None, response := Some(t.sent.response), lastError := None);
        ok := deliveries.UpdateWebhookDelivery(id, d);
      }
    }

    method RecordFailure(id: Id, copy: Delivery, a: Answer, now: int) returns (ok: bool)
      requires Valid() && !Accepted(a)
      modifies deliveries
      ensures ok <==> id in old(deliveries.rows)
      ensures deliveries.rows == if ok then old(deliveries.rows)[id := Recorded(policy, copy, a, now)] else old(deliveries.rows)
    {
      var d := copy.(lastError := Some(Message(a)), response := if a.Http? then Some(a.response) else None);
      if d.attempts >= d.maxAttempts {
        d := d.(status := Failed, nextAttemptAt := None);
      } else {
        var delay, _ := Backoff(policy.initial, policy.most, d.attempts);
        d := d.(status := Retrying, nextAttemptAt := Some(now + delay as int));
      }
      ok := deliveries.UpdateWebhookDelivery(id, d);
    }

    method ProcessEach(ids: seq<Id>, copies: seq<Delivery>, now: int, attempts: Id -> Attempt)
      requires Valid() && NoDuplicates(ids) && |copies| == |ids|
      requires forall id | id in ids :: id in deliveries.rows
      modifies deliveries
      ensures deliveries.rows.Keys == old(deliveries.rows).Keys
      ensures forall i | 0 <= i < |ids| :: deliveries.rows[ids[i]] == Recorded(policy, copies[i], AnswerOf(attempts(ids[i])), now)
      ensures forall id | id in deliveries.rows && id !in ids :: deliveries.rows[id] == old(deliveries.rows)[id]
    {
      for k := 0 to |ids|
        invariant deliveries.rows.Keys == old(deliveries.rows).Keys
        invariant forall i | 0 <= i < k :: deliveries.rows[ids[i]] == Recorded(policy, copies[i], AnswerOf(attempts(ids[i])), now)
        invariant forall id | id in deliveries.rows && id !in ids :: deliveries.rows[id] == old(deliveries.rows)[id]
      {
        var ok := Process(ids[k], copies[k], attempts(ids[k]), now);
      }
    }

    /** Undisturbed, one call settles every delivery it claimed and no other. */
    method ProcessDue(now: int, attempts: Id -> Attempt) returns (count: nat, ghost ids: seq<Id>)
      requires Valid()
      modifies deliveries
      ensures IsBatch(old(deliveries.rows), ids, now, BatchLimit(batchSize)) && count == |ids|
      ensures deliveries.rows.Keys == old(deliveries.rows).Keys
      ensures forall i | 0 <= i < |ids| ::
                deliveries.rows[ids[i]] == Recorded(policy, Claimed(old(deliveries.rows)[ids[i]], now), AnswerOf(attempts(ids[i])), now)
      ensures forall id | id in deliveries.rows && id !in ids :: deliveries.rows[id] == old(deliveries.rows)[id]
    {
      ghost var before := deliveries.rows;
      var claimed, copies := deliveries.ClaimDueWebhookDeliveries(now, batchSize);
      ids, count := claimed, |claimed|;
      ClaimEachAt(before, ids, now);
      ProcessEach(claimed, copies, now, attempts);
    }
  }

  // ----- any number of workers

  /** A worker's copy of a row it claimed, until it writes or dies. */
  datatype Holder = Holder(id: Id, copy: Delivery, claimedAt: int, open: bool)

  datatype World = World(rows: Rows, holders: seq<Holder>)

  datatype Event =
    | Create(id: Id, maxAttempts: nat, dueAt: Option<int>, at: int)
    | Claim(id: Id, at: int)
    | Record(holder: nat, answer: Answer)
    | Crash(holder: nat)
    | Retry(id: Id, at: int)

  predicate Enabled(w: World, e: Event) {
    match e
    case Create(id, most, _, _) => id !in w.rows && most > 0
    case Claim(id, at) => id in w.rows && Due(w.rows[id], at)
    case Record(h, _) => h < |w.holders| && w.holders[h].open
    case Crash(h) => h < |w.holders| && w.holders[h].open
    case Retry(id, _) => id in w.rows && Retryable(w.rows[id])
  }

  function Next(p: Policy, w: World, e: Event): World
    requires Enabled(w, e)
  {
    match e
    case Create(id, most, due, at) => w.(rows := w.rows[id := Delivery(Pending, 0, most, due, None, None, None, at)])
    case Claim(id, at) =>
      var d := Claimed(w.rows[id], at);
      World(w.rows[id := d], w.holders + [Holder(id, d, at, true)])
    case Record(h, a) =>
      var holder := w.holders[h];
      var closed := w.holders[h := holder.(open := false)];
      if holder.id !in w.rows then w.(holders := closed)
      else World(w.rows[holder.id := Recorded(p, holder.copy, a, holder.claimedAt)], closed)
    case Crash(h) => w.(holders := w.holders[h := w.holders[h].(open := false)])
    case Retry(id, at) => w.(rows := w.rows[id := Retried(w.rows[id], at)])
  }

  ghost predicate Step(p: Policy, w: World, e: Event, v: World) {
    Enabled(w, e) && v == Next(p, w, e)
  }

  ghost predicate Run(p: Policy, ws: seq<World>, events: seq<Event>) {
    && |ws| == |events| + 1 && ws[0] == World(map[], [])
    && forall i, j | 0 <= i < j < |ws| && j == i + 1 :: Step(p, ws[i], events[i], ws[j])
  }

  /** The attempt budget, and the delay before the next attempt. */
  ghost predicate RowFits(p: Policy, d: Delivery) {
    && d.attempts <= d.maxAttempts && d.maxAttempts > 0
    && match d.status
       case Pending => d.attempts == 0
       case Delivering => d.attempts > 0 && d.lastAttemptAt.Some? && d.nextAttemptAt.None?
       case Retrying =>
         && 0 < d.attempts < d.maxAttempts && d.lastAttemptAt.Some?
         && d.nextAttemptAt == Some(d.lastAttemptAt.value + Capped(p.initial, p.most, d.attempts))
       case Delivered => d.attempts > 0 && d.nextAttemptAt.None?
       case Failed => d.attempts == d.maxAttempts && d.nextAttemptAt.None?
  }

  /** An open holder's row is delivering and still what the holder read. */
  ghost predicate HolderFits(w: World, h: Holder) {
    h.open ==>
      && h.id in w.rows && w.rows[h.id] == h.copy && h.copy.status == Delivering
      && h.copy.lastAttemptAt == Some(h.claimedAt)
  }

  ghost predicate HoldersApart(w: World) {
    forall g, h | 0 <= g < h < |w.holders| && w.holders[g].open && w.holders[h].open ::
      w.holders[g].id != w.holders[h].id
  }

  ghost predicate Fits(p: Policy, w: World) {
    && (forall id | id in w.rows :: RowFits(p, w.rows[id]))
    && (forall h | 0 <= h < |w.holders| :: HolderFits(w, w.holders[h]))
    && HoldersApart(w)
  }

  lemma StepFits(p: Policy, w: World, e: Event)
    requires Fits(p, w) && Enabled(w, e)
    ensures Fits(p, Next(p, w, e))
  {
    var v := Next(p, w, e);
    if e.Record? || e.Crash? {
      assert HolderFits(w, w.holders[e.holder]);
    }
    forall h | 0 <= h < |v.holders|
      ensures HolderFits(v, v.holders[h])
    {
      if h < |w.holders| {
        assert HolderFits(w, w.holders[h]);
      }
    }
    forall g, h | 0 <= g < h < |v.holders| && v.holders[g].open && v.holders[h].open
      ensures v.holders[g].id != v.holders[h].id
    {
      assert HolderFits(w, w.holders[g]);
    }
  }

  /** In every run each row keeps its budget and its schedule, a delivering row has at
      most one holder, and the unguarded update overwrites exactly what its holder read. */
  lemma {:induction false} DeliveriesFit(p: Policy, ws: seq<World>, events: seq<Event>, k: nat)
    requires Run(p, ws, events) && k < |ws|
    ensures Fits(p, ws[k])
  {
    if k > 0 {
      DeliveriesFit(p, ws, events, k - 1);
      assert Step(p, ws[k - 1], events[k - 1], ws[k]);
      StepFits(p, ws[k - 1], events[k - 1]);
    }
  }

  /** When a worker records an outcome, nobody else holds the row and nobody has changed
      it, so the unguarded update does what a compare-and-set would. */
  lemma UpdateLosesNothing(p: Policy, ws: seq<World>, events: seq<Event>, k: nat)
    requires Run(p, ws, events) && k < |events| && events[k].Record?
    ensures events[k].holder < |ws[k].holders|
    ensures var h := ws[k].holders[events[k].holder];
            && h.id in ws[k].rows && ws[k].rows[h.id] == h.copy
            && ws[k + 1].rows == ws[k].rows[h.id := Recorded(p, h.copy, events[k].answer, h.claimedAt)]
            && forall g | 0 <= g < |ws[k].holders| && g != events[k].holder && ws[k].holders[g].open :: ws[k].holders[g].id != h.id
  {
    DeliveriesFit(p, ws, events, k);
    assert Step(p, ws[k], events[k], ws[k + 1]);
    assert HolderFits(ws[k], ws[k].holders[events[k].holder]);
  }

  /** Delivered is never left. */
  lemma {:induction false} DeliveredForever(p: Policy, ws: seq<World>, events: seq<Event>, i: nat, k: nat, id: Id)
    requires Run(p, ws, events) && i <= k < |ws| && id in ws[i].rows && ws[i].rows[id].status == Delivered
    ensures id in ws[k].rows && ws[k].rows[id] == ws[i].rows[id]
  {
    if i < k {
      DeliveredForever(p, ws, events, i, k - 1, id);
      DeliveriesFit(p, ws, events, k - 1);
      assert Step(p, ws[k - 1], events[k - 1], ws[k]);
      if events[k - 1].Record? {
        assert HolderFits(ws[k - 1], ws[k - 1].holders[events[k - 1].holder]);
      }
    }
  }

  // ----- what an attempt needs, and what its result means

  /** Delivered is an endpoint that was found, active, with its secret decrypted, and that
      answered with a code of the two hundreds; anything else is not. */
  lemma DeliveredIffAnswered(p: Policy, d: Delivery, t: Attempt, now: int)
    ensures Recorded(p, d, AnswerOf(t), now).status == Delivered <==>
              t.lookupError.None? && t.active && t.decryptError.None? && t.sent.Http? && 200 <= t.sent.response.code <= 299
    ensures Recorded(p, d, AnswerOf(t), now).lastError.None? <==> Recorded(p, d, AnswerOf(t), now).status == Delivered
    ensures Recorded(p, d, AnswerOf(t), now).response ==
              if t.lookupError.None? && t.active && t.decryptError.None? && t.sent.Http? then Some(t.sent.response) else None
  {
  }

  predicate Succeeds(r: Response) {
    200 <= r.code <= 299
  }

  /** What the row says about its last attempt. */
  predicate ResultFits(d: Delivery) {
    match d.status
    case Delivered => d.response.Some? && Succeeds(d.response.value) && d.lastError.None?
    case Failed => d.lastError.Some? && (d.response.Some? ==> !Succeeds(d.response.value))
    case Retrying => d.lastError.Some? && (d.response.Some? ==> !Succeeds(d.response.value))
    case _ => true
  }

  lemma {:induction false} ResultsFit(p: Policy, ws: seq<World>, events: seq<Event>, k: nat, id: Id)
    requires Run(p, ws, events) && k < |ws| && id in ws[k].rows
    ensures ResultFits(ws[k].rows[id])
  {
    if k > 0 {
      assert Step(p, ws[k - 1], events[k - 1], ws[k]);
      if id in ws[k - 1].rows {
        ResultsFit(p, ws, events, k - 1, id);
      }
    }
  }

  /** In every run an attempt on a delivery to be retried comes no earlier than the capped
      delay after the last attempt, one scheduled for later no earlier than that, and no
      delivery is attempted more often than its budget allows. */
  lemma AttemptsWait(p: Policy, ws: seq<World>, events: seq<Event>, k: nat)
    requires Run(p, ws, events) && k < |events| && events[k].Claim?
    ensures events[k].id in ws[k].rows && events[k].id in ws[k + 1].rows
    ensures var d := ws[k].rows[events[k].id];
            && (d.status == Pending || d.status == Retrying)
            && (d.status == Retrying ==>
                  d.lastAttemptAt.Some? && events[k].at >= d.lastAttemptAt.value + Capped(p.initial, p.most, d.attempts))
            && (d.nextAttemptAt.Some? ==> events[k].at >= d.nextAttemptAt.value)
    ensures var d := ws[k + 1].rows[events[k].id]; d.status == Delivering && d.attempts <= d.maxAttempts
  {
    DeliveriesFit(p, ws, events, k);
    DeliveriesFit(p, ws, events, k + 1);
    assert Step(p, ws[k], events[k], ws[k + 1]);
    assert RowFits(p, ws[k].rows[events[k].id]) && RowFits(p, ws[k + 1].rows[events[k].id]);
  }

  /** A manual retry can be claimed at once, with its whole budget. */
  lemma RetryIsDue(p: Policy, ws: seq<World>, events: seq<Event>, k: nat)
    requires Run(p, ws, events) && k < |events| && events[k].Retry?
    ensures Enabled(ws[k + 1], Claim(events[k].id, events[k].at)) && ws[k + 1].rows[events[k].id].attempts == 0
  {
    DeliveriesFit(p, ws, events, k + 1);
    assert Step(p, ws[k], events[k], ws[k + 1]);
    assert RowFits(p, ws[k + 1].rows[events[k].id]);
  }

  function ReadDecimal(digits: string): int {
    if digits == "" then 0 else 10 * ReadDecimal(digits[..|digits| - 1]) + (digits[|digits| - 1] as int - '0' as int)
  }

  lemma {:induction false} DecimalReads(n: nat)
    ensures ReadDecimal(Decimal(n)) == n
  {
    if n < 10 {
      var one := Decimal(n);
      assert one[..0] == "";
    } else {
      DecimalReads(n / 10);
      var digits := Decimal(n);
      assert digits[..|digits| - 1] == Decimal(n / 10);
    }
  }

  ghost predicate Held(w: World, id: Id) {
    exists h :: 0 <= h < |w.holders| && w.holders[h].open && w.holders[h].id == id
  }

  /** Nothing reclaims a delivering row: once its holder is gone it stays as it is. */
  lemma {:induction false} StrandedForever(p: Policy, ws: seq<World>, events: seq<Event>, i: nat, k: nat, id: Id)
    requires Run(p, ws, events) && i <= k < |ws|
    requires id in ws[i].rows && ws[i].rows[id].status == Delivering && !Held(ws[i], id)
    ensures id in ws[k].rows && ws[k].rows[id] == ws[i].rows[id] && !Held(ws[k], id)
  {
    if i < k {
      StrandedForever(p, ws, events, i, k - 1, id);
      assert Step(p, ws[k - 1], events[k - 1], ws[k]);
      forall h | 0 <= h < |ws[k].holders| && ws[k].holders[h].open
        ensures ws[k].holders[h].id != id
      {
        if h < |ws[k - 1].holders| {
          assert ws[k - 1].holders[h].open && ws[k - 1].holders[h].id == ws[k].holders[h].id;
        }
      }
    }
  }

  /** Exactly a holder keeps a delivering row alive: it can still change if and only if
      a worker has it. */
  lemma HeldIffCanChange(p: Policy, ws: seq<World>, events: seq<Event>, k: nat, id: Id)
    requires Run(p, ws, events) && k < |ws| && id in ws[k].rows && ws[k].rows[id].status == Delivering
    ensures Held(ws[k], id) <==> exists e :: Changes(p, ws[k], e, id)
  {
    var w := ws[k];
    DeliveriesFit(p, ws, events, k);
    if Held(w, id) {
      var h :| 0 <= h < |w.holders| && w.holders[h].open && w.holders[h].id == id;
      assert HolderFits(w, w.holders[h]);
      assert Changes(p, w, Record(h, Error("")), id);
    }
  }

  /** The event can happen, and leaves another row. */
  ghost predicate Changes(p: Policy, w: World, e: Event, id: Id)
    requires id in w.rows
  {
    Enabled(w, e) && (id in Next(p, w, e).rows ==> Next(p, w, e).rows[id] != w.rows[id])
  }

  /** A worker that dies between claim and update strands its delivery. */
  lemma CrashStrands(p: Policy, id: Id, most: nat, now: int) returns (ws: seq<World>, events: seq<Event>)
    requires most > 0
    ensures Run(p, ws, events) && |ws| == 4
    ensures id in ws[3].rows && ws[3].rows[id].status == Delivering && !Held(ws[3], id)
  {
    var w0 := World(map[], []);
    events := [Create(id, most, None, now), Claim(id, now), Crash(0)];
    var w1 := Next(p, w0, events[0]);
    var w2 := Next(p, w1, events[1]);
    ws := [w0, w1, w2, Next(p, w2, events[2])];
  }
}
