/** The Redis transport of one (organisation, queue) scope. A sorted set orders the
    pending messages by one number that packs priority and arrival; a second,
    abstract broker keeps them in a plain list, and the two are shown to agree. */
module Broker {
  import opened Common
  import opened Graphs

  /** A message, named by its task id. Messages of one scope differ only in the
      task id, so sorted sets break score ties in task id order. */
  type Member = nat

  const BUCKET := 1_000_000_000_000
  const BATCH := 100

  /** Sorted set: member to score. */
  type ZSet = map<Member, int>

  datatype State = State(
    pending: ZSet,
    processing: ZSet,
    delayed: ZSet,
    priorities: map<Member, int>,
    sequence: nat,
    deadLetters: seq<Member>)

  const EMPTY := State(map[], map[], map[], map[], 0, [])

  function Clamp(priority: int): (p: int)
    ensures 0 <= p <= 9 && (0 <= priority <= 9 ==> p == priority)
    ensures (priority < 0 ==> p == 0) && (priority > 9 ==> p == 9)
  {
    if priority < 0 then 0 else if priority > 9 then 9 else priority
  }

  function Score(priority: int, sequence: int): int {
    (9 - priority) * BUCKET + sequence
  }

  predicate Before(z: ZSet, a: Member, b: Member)
    requires a in z && b in z
  {
    z[a] < z[b] || (z[a] == z[b] && a <= b)
  }

  ghost predicate IsFirst(z: ZSet, x: Member) {
    x in z && forall y | y in z :: Before(z, x, y)
  }

  lemma {:induction false} FirstExists(z: ZSet)
    requires z != map[]
    ensures exists x :: IsFirst(z, x)
    decreases |z|
  {
    var x :| x in z;
    var rest := z - {x};
    if rest == map[] {
      assert forall y | y in z :: y == x by {
        forall y | y in z
          ensures y == x
        {
          assert y != x ==> y in rest;
        }
      }
      assert IsFirst(z, x);
    } else {
      FirstExists(rest);
      var y :| IsFirst(rest, y);
      assert forall v | v in z :: v == x || v in rest;
      assert IsFirst(z, if Before(z, x, y) then x else y);
    }
  }

  ghost function First(z: ZSet): (x: Member)
    requires z != map[]
    ensures IsFirst(z, x)
  {
    FirstExists(z);
    var x :| IsFirst(z, x);
    x
  }

  /** The first `limit` members scored no later than `now`, in order. */
  ghost function Due(z: ZSet, now: int, limit: nat): (r: seq<Member>)
    ensures |r| <= limit && forall x | x in r :: x in z && z[x] <= now
    decreases limit
  {
    if limit == 0 || z == map[] || z[First(z)] > now then []
    else [First(z)] + Due(z - {First(z)}, now, limit - 1)
  }

  // ----- the scripts and pipelines

  /** Scores a member into pending under the next sequence number. */
  function Push(s: State, m: Member, priority: int): State {
    s.(sequence := s.sequence + 1, pending := s.pending[m := Score(priority, s.sequence + 1)])
  }

  function StoredPriority(s: State, m: Member): int {
    if m in s.priorities then s.priorities[m] else 0
  }

  function Enqueue(s: State, m: Member, priority: int): State {
    Push(s.(priorities := s.priorities[m := Clamp(priority)]), m, Clamp(priority))
  }

  ghost function Dequeue(s: State): (State, Option<Member>) {
    if s.pending == map[] then (s, None)
    else
      var m := First(s.pending);
      (s.(pending := s.pending - {m}, processing := s.processing[m := s.pending[m]]), Some(m))
  }

  function Ack(s: State, m: Member): State {
    s.(processing := s.processing - {m}, priorities := s.priorities - {m})
  }

  function NackNow(s: State, m: Member): State {
    Push(s.(processing := s.processing - {m}), m, StoredPriority(s, m))
  }

  function NackLater(s: State, m: Member, due: int): State {
    s.(processing := s.processing - {m}, delayed := s.delayed[m := due])
  }

  function EnqueueDelayed(s: State, m: Member, priority: int, due: int): State {
    s.(priorities := s.priorities[m := Clamp(priority)], delayed := s.delayed[m := due])
  }

  function Forget(s: State, m: Member): State {
    s.(pending := s.pending - {m}, processing := s.processing - {m}, delayed := s.delayed - {m},
       priorities := s.priorities - {m})
  }

  function MoveToDeadLetter(s: State, m: Member): State {
    Forget(s, m).(deadLetters := [m] + s.deadLetters)
  }

  function Dropped(letters: seq<Member>, m: Member): (r: seq<Member>)
    ensures m !in r
  {
    if letters == [] then []
    else (if letters[0] == m then [] else [letters[0]]) + Dropped(letters[1..], m)
  }

  /** Dropping keeps every other letter, as often and in the order it was there. */
  lemma {:induction false} DroppedSplits(a: seq<Member>, b: seq<Member>, m: Member)
    ensures Dropped(a + b, m) == Dropped(a, m) + Dropped(b, m)
    ensures forall x :: multiset(Dropped(a, m))[x] == if x == m then 0 else multiset(a)[x]
  {
    if a == [] {
      assert a + b == b;
    } else {
      assert (a + b)[0] == a[0] && (a + b)[1..] == a[1..] + b;
      DroppedSplits(a[1..], b, m);
      assert a == [a[0]] + a[1..];
    }
  }

  function Remove(s: State, m: Member): State {
    Forget(s, m).(deadLetters := Dropped(s.deadLetters, m))
  }

  function Promote(s: State, m: Member): State {
    Push(s.(delayed := s.delayed - {m}), m, StoredPriority(s, m))
  }

  function PromoteEach(s: State, members: seq<Member>): State {
    if members == [] then s
    else
      var n := |members| - 1;
      Promote(PromoteEach(s, members[..n]), members[n])
  }

  ghost function PromoteDue(s: State, now: int): (State, nat) {
    var members := Due(s.delayed, now, BATCH);
    (PromoteEach(s, members), |members|)
  }

  // ----- operations as data

  datatype Op =
    | OpEnqueue(m: Member, priority: int)
    | OpDequeue
    | OpAck(m: Member)
    | OpNackNow(m: Member)
    | OpNackLater(m: Member, due: int)
    | OpEnqueueDelayed(m: Member, priority: int, due: int)
    | OpDeadLetter(m: Member)
    | OpRemove(m: Member)
    | OpPromote(now: int)

  datatype Answer = Silent | Taken(member: Option<Member>) | Promoted(count: nat)

  ghost function Do(s: State, op: Op): (State, Answer) {
    match op
    case OpEnqueue(m, p) => (Enqueue(s, m, p), Silent)
    case OpDequeue => var (t, m) := Dequeue(s); (t, Taken(m))
    case OpAck(m) => (Ack(s, m), Silent)
    case OpNackNow(m) => (NackNow(s, m), Silent)
    case OpNackLater(m, due) => (NackLater(s, m, due), Silent)
    case OpEnqueueDelayed(m, p, due) => (EnqueueDelayed(s, m, p, due), Silent)
    case OpDeadLetter(m) => (MoveToDeadLetter(s, m), Silent)
    case OpRemove(m) => (Remove(s, m), Silent)
    case OpPromote(now) => var (t, n) := PromoteDue(s, now); (t, Promoted(n))
  }

  ghost function After(ops: seq<Op>): State {
    if ops == [] then EMPTY else Do(After(ops[..|ops| - 1]), ops[|ops| - 1]).0
  }

  ghost function Answers(ops: seq<Op>): seq<Answer> {
    if ops == [] then []
    else Answers(ops[..|ops| - 1]) + [Do(After(ops[..|ops| - 1]), ops[|ops| - 1]).1]
  }

  // ----- the abstract broker

  datatype Entry = Entry(member: Member, priority: int)

  /** Pending messages in the order they were scored; no numbers. */
  datatype Abstract = Abstract(
    queue: seq<Entry>,
    processing: set<Member>,
    delayed: ZSet,
    priorities: map<Member, int>)

  function Without(q: seq<Entry>, m: Member): (r: seq<Entry>)
    ensures forall e :: e in r <==> e in q && e.member != m
  {
    if q == [] then []
    else (if q[0].member == m then [] else [q[0]]) + Without(q[1..], m)
  }

  function AbstractPush(a: Abstract, m: Member, priority: int): Abstract {
    a.(queue := Without(a.queue, m) + [Entry(m, priority)])
  }

  /** The position of the first entry of the highest priority. */
  ghost predicate IsNext(q: seq<Entry>, i: int) {
    && 0 <= i < |q|
    && (forall j | 0 <= j < |q| :: q[j].priority <= q[i].priority)
    && (forall j | 0 <= j < i :: q[j].priority < q[i].priority)
  }

  function NextIndex(q: seq<Entry>): (i: int)
    requires q != []
    ensures IsNext(q, i)
  {
    if |q| == 1 then 0
    else
      var i := NextIndex(q[..|q| - 1]);
      if q[|q| - 1].priority > q[i].priority then |q| - 1 else i
  }

  function AbstractStored(a: Abstract, m: Member): int {
    if m in a.priorities then a.priorities[m] else 0
  }

  function AbstractPromote(a: Abstract, m: Member): Abstract {
    AbstractPush(a.(delayed := a.delayed - {m}), m, AbstractStored(a, m))
  }

  function AbstractPromoteEach(a: Abstract, members: seq<Member>): Abstract {
    if members == [] then a
    else
      var n := |members| - 1;
      AbstractPromote(AbstractPromoteEach(a, members[..n]), members[n])
  }

  function AbstractForget(a: Abstract, m: Member): Abstract {
    Abstract(Without(a.queue, m), a.processing - {m}, a.delayed - {m}, a.priorities - {m})
  }

  ghost function AbstractDo(a: Abstract, op: Op): (Abstract, Answer) {
    match op
    case OpEnqueue(m, p) =>
      (AbstractPush(a.(priorities := a.priorities[m := Clamp(p)]), m, Clamp(p)), Silent)
    case OpDequeue =>
      if a.queue == [] then (a, Taken(None))
      else
        var m := a.queue[NextIndex(a.queue)].member;
        (a.(queue := Without(a.queue, m), processing := a.processing + {m}), Taken(Some(m)))
    case OpAck(m) => (a.(processing := a.processing - {m}, priorities := a.priorities - {m}), Silent)
    case OpNackNow(m) => (AbstractPush(a.(processing := a.processing - {m}), m, AbstractStored(a, m)), Silent)
    case OpNackLater(m, due) => (a.(processing := a.processing - {m}, delayed := a.delayed[m := due]), Silent)
    case OpEnqueueDelayed(m, p, due) =>
      (a.(priorities := a.priorities[m := Clamp(p)], delayed := a.delayed[m := due]), Silent)
    case OpDeadLetter(m) => (AbstractForget(a, m), Silent)
    case OpRemove(m) => (AbstractForget(a, m), Silent)
    case OpPromote(now) =>
      var members := Due(a.delayed, now, BATCH);
      (AbstractPromoteEach(a, members), Promoted(|members|))
  }

  ghost function AbstractAfter(ops: seq<Op>): Abstract {
    if ops == [] then Abstract([], {}, map[], map[])
    else AbstractDo(AbstractAfter(ops[..|ops| - 1]), ops[|ops| - 1]).0
  }

  ghost function AbstractAnswers(ops: seq<Op>): seq<Answer> {
    if ops == [] then []
    else AbstractAnswers(ops[..|ops| - 1]) + [AbstractDo(AbstractAfter(ops[..|ops| - 1]), ops[|ops| - 1]).1]
  }

  // ----- refinement

  /** The sequence number inside an entry's score. */
  function Arrival(z: ZSet, e: Entry): int
    requires e.member in z
  {
    z[e.member] - Score(e.priority, 0)
  }

  ghost predicate Coded(z: ZSet, sequence: nat, e: Entry) {
    e.member in z && 0 <= e.priority <= 9 && 1 <= Arrival(z, e) <= sequence
  }

  ghost predicate Earlier(z: ZSet, e: Entry, f: Entry) {
    e.member in z && f.member in z && e.member != f.member && Arrival(z, e) < Arrival(z, f)
  }

  /** Scores encode the list: priority in the bucket, position in the remainder. */
  ghost predicate Encodes(z: ZSet, sequence: nat, q: seq<Entry>) {
    && (forall i | 0 <= i < |q| :: Coded(z, sequence, q[i]))
    && (forall i, j | 0 <= i < j < |q| :: Earlier(z, q[i], q[j]))
  }

  ghost predicate Lists(z: ZSet, q: seq<Entry>) {
    forall m | m in z :: exists e :: e in q && e.member == m
  }

  ghost predicate PrioritiesInRange(s: State) {
    forall m | m in s.priorities :: 0 <= s.priorities[m] <= 9
  }

  ghost predicate Refines(s: State, a: Abstract) {
    && Encodes(s.pending, s.sequence, a.queue) && Lists(s.pending, a.queue)
    && a.processing == s.processing.Keys && a.delayed == s.delayed && a.priorities == s.priorities
    && PrioritiesInRange(s)
  }

  lemma {:induction false} WithoutEncodes(z: ZSet, sequence: nat, q: seq<Entry>, m: Member)
    requires Encodes(z, sequence, q)
    ensures Encodes(z, sequence, Without(q, m))
  {
    if q != [] {
      WithoutEncodes(z, sequence, q[1..], m);
      forall e | e in Without(q[1..], m)
        ensures Earlier(z, q[0], e)
      {
        var k :| 0 <= k < |q[1..]| && q[1..][k] == e;
        assert q[k + 1] == e;
      }
    }
  }

  lemma EncodesElsewhere(z: ZSet, y: ZSet, sequence: nat, q: seq<Entry>)
    requires Encodes(z, sequence, q)
    requires forall e | e in q && e.member in z :: e.member in y && y[e.member] == z[e.member]
    ensures Encodes(y, sequence, q)
  {
    assert forall i | 0 <= i < |q| :: q[i] in q && Coded(z, sequence, q[i]);
  }

  lemma PushEncodes(z: ZSet, sequence: nat, q: seq<Entry>, m: Member, priority: int)
    requires Encodes(z, sequence, q) && 0 <= priority <= 9
    ensures Encodes(z[m := Score(priority, sequence + 1)], sequence + 1, Without(q, m) + [Entry(m, priority)])
  {
    var y, kept := z[m := Score(priority, sequence + 1)], Without(q, m);
    WithoutEncodes(z, sequence, q, m);
    EncodesElsewhere(z, y, sequence, kept);
    assert Arrival(y, Entry(m, priority)) == sequence + 1;
    assert forall i | 0 <= i < |kept| :: kept[i] in kept && kept[i].member != m;
  }

  lemma PushLists(z: ZSet, q: seq<Entry>, m: Member, priority: int, score: int)
    requires Lists(z, q)
    ensures Lists(z[m := score], Without(q, m) + [Entry(m, priority)])
  {
    var r := Without(q, m) + [Entry(m, priority)];
    assert Entry(m, priority) in r;
    forall x | x in z && x != m
      ensures exists e :: e in r && e.member == x
    {
      var e :| e in q && e.member == x;
      assert e in Without(q, m) && e in r;
    }
  }

  lemma PushRefines(s: State, a: Abstract, m: Member, priority: int)
    requires Refines(s, a) && 0 <= priority <= 9
    ensures Refines(Push(s, m, priority), AbstractPush(a, m, priority))
  {
    PushEncodes(s.pending, s.sequence, a.queue, m, priority);
    PushLists(s.pending, a.queue, m, priority, Score(priority, s.sequence + 1));
  }

  lemma ForgetRefines(z: ZSet, sequence: nat, q: seq<Entry>, m: Member)
    requires Encodes(z, sequence, q) && Lists(z, q)
    ensures Encodes(z - {m}, sequence, Without(q, m)) && Lists(z - {m}, Without(q, m))
  {
    WithoutEncodes(z, sequence, q, m);
    EncodesElsewhere(z, z - {m}, sequence, Without(q, m));
    forall x | x in z - {m}
      ensures exists e :: e in Without(q, m) && e.member == x
    {
      var e :| e in q && e.member == x;
      assert e in Without(q, m);
    }
  }

  /** Comparing scores is comparing priorities, then arrivals. */
  lemma ScoreOrder(p: int, t: int, q: int, u: int)
    requires p <= 9 && q <= 9 && 1 <= t <= BUCKET && 1 <= u <= BUCKET
    ensures Score(p, t) < Score(q, u) <==> p > q || (p == q && t < u)
  {
    if p > q {
      assert (9 - q) * BUCKET >= (9 - p) * BUCKET + BUCKET;
    } else if p < q {
      assert (9 - p) * BUCKET >= (9 - q) * BUCKET + BUCKET;
    }
  }

  /** The lowest score belongs to the earliest entry of the highest priority. */
  lemma NextScoresLowest(z: ZSet, sequence: nat, q: seq<Entry>, i: nat, j: nat)
    requires Encodes(z, sequence, q) && sequence <= BUCKET
    requires IsNext(q, i) && j < |q| && i != j
    ensures q[i].member in z && q[j].member in z && z[q[i].member] < z[q[j].member]
  {
    var n, e := q[i], q[j];
    assert i < j ==> Earlier(z, n, e);
    assert Coded(z, sequence, n) && Coded(z, sequence, e);
    assert e.priority <= n.priority && (j < i ==> e.priority < n.priority);
    ScoreOrder(n.priority, Arrival(z, n), e.priority, Arrival(z, e));
  }

  lemma FirstIsNext(z: ZSet, sequence: nat, q: seq<Entry>)
    requires Encodes(z, sequence, q) && Lists(z, q) && sequence <= BUCKET && z != map[]
    ensures q != [] && First(z) == q[NextIndex(q)].member
  {
    var x := First(z);
    var e :| e in q && e.member == x;
    var j: nat :| j < |q| && q[j] == e;
    var i := NextIndex(q);
    assert Coded(z, sequence, q[i]) && Before(z, x, q[i].member);
    if i != j {
      NextScoresLowest(z, sequence, q, i, j);
    }
  }

  /** Below the counter's limit a score is exact in a double. */
  lemma ScoreExact(s: State, a: Abstract, x: Member)
    requires Refines(s, a) && s.sequence <= BUCKET && x in s.pending
    ensures 0 < s.pending[x] < 0x20_0000_0000_0000
  {
    var e :| e in a.queue && e.member == x;
    var i :| 0 <= i < |a.queue| && a.queue[i] == e;
    assert Coded(s.pending, s.sequence, e);
  }

  /** Below the counter's limit all pending scores are distinct. */
  lemma ScoresDistinct(s: State, a: Abstract, x: Member, y: Member)
    requires Refines(s, a) && s.sequence <= BUCKET
    requires x in s.pending && y in s.pending && x != y
    ensures s.pending[x] != s.pending[y]
  {
    var e :| e in a.queue && e.member == x;
    var f :| f in a.queue && f.member == y;
    var i :| 0 <= i < |a.queue| && a.queue[i] == e;
    var j :| 0 <= j < |a.queue| && a.queue[j] == f;
    assert i < j ==> Earlier(s.pending, e, f);
    assert j < i ==> Earlier(s.pending, f, e);
    assert Coded(s.pending, s.sequence, e) && Coded(s.pending, s.sequence, f);
    ScoreOrder(e.priority, Arrival(s.pending, e), f.priority, Arrival(s.pending, f));
    ScoreOrder(f.priority, Arrival(s.pending, f), e.priority, Arrival(s.pending, e));
  }

  lemma {:induction false} PromoteEachRefines(s: State, a: Abstract, members: seq<Member>)
    requires Refines(s, a)
    ensures Refines(PromoteEach(s, members), AbstractPromoteEach(a, members))
    ensures PromoteEach(s, members).sequence == s.sequence + |members|
  {
    if members != [] {
      var n := |members| - 1;
      PromoteEachRefines(s, a, members[..n]);
      var t, b := PromoteEach(s, members[..n]), AbstractPromoteEach(a, members[..n]);
      var m := members[n];
      PushRefines(t.(delayed := t.delayed - {m}), b.(delayed := b.delayed - {m}), m, StoredPriority(t, m));
    }
  }

  lemma DequeueRefines(s: State, a: Abstract)
    requires Refines(s, a) && s.sequence <= BUCKET
    ensures Refines(Do(s, OpDequeue).0, AbstractDo(a, OpDequeue).0)
    ensures Do(s, OpDequeue).1 == AbstractDo(a, OpDequeue).1
  {
    if s.pending == map[] {
      assert |a.queue| > 0 ==> Coded(s.pending, s.sequence, a.queue[0]);
    } else {
      FirstIsNext(s.pending, s.sequence, a.queue);
      ForgetRefines(s.pending, s.sequence, a.queue, First(s.pending));
      TakeRefines(s, a, First(s.pending), Without(a.queue, First(s.pending)));
    }
  }

  lemma TakeRefines(s: State, a: Abstract, m: Member, left: seq<Entry>)
    requires m in s.pending && Encodes(s.pending - {m}, s.sequence, left) && Lists(s.pending - {m}, left)
    requires a.processing == s.processing.Keys && a.delayed == s.delayed && a.priorities == s.priorities && PrioritiesInRange(s)
    ensures Refines(s.(pending := s.pending - {m}, processing := s.processing[m := s.pending[m]]),
                    a.(queue := left, processing := a.processing + {m}))
  {
  }

  lemma DoRefines(s: State, a: Abstract, op: Op)
    requires Refines(s, a) && s.sequence <= BUCKET
    ensures Refines(Do(s, op).0, AbstractDo(a, op).0) && Do(s, op).1 == AbstractDo(a, op).1
    ensures Do(s, op).0.sequence >= s.sequence
  {
    match op
    case OpEnqueue(m, p) =>
      PushRefines(s.(priorities := s.priorities[m := Clamp(p)]), a.(priorities := a.priorities[m := Clamp(p)]), m, Clamp(p));
    case OpDequeue => DequeueRefines(s, a);
    case OpNackNow(m) =>
      PushRefines(s.(processing := s.processing - {m}), a.(processing := a.processing - {m}), m, StoredPriority(s, m));
    case OpDeadLetter(m) => ForgetRefines(s.pending, s.sequence, a.queue, m);
    case OpRemove(m) => ForgetRefines(s.pending, s.sequence, a.queue, m);
    case OpPromote(now) => PromoteEachRefines(s, a, Due(s.delayed, now, BATCH));
    case _ =>
  }

  lemma {:induction false} AfterRefines(ops: seq<Op>)
    requires After(ops).sequence <= BUCKET
    ensures Refines(After(ops), AbstractAfter(ops)) && Answers(ops) == AbstractAnswers(ops)
  {
    if ops != [] {
      var before := ops[..|ops| - 1];
      SequenceGrows(After(before), ops[|ops| - 1]);
      AfterRefines(before);
      DoRefines(After(before), AbstractAfter(before), ops[|ops| - 1]);
    }
  }

  lemma {:induction false} PromoteEachCounts(s: State, members: seq<Member>)
    ensures PromoteEach(s, members).sequence == s.sequence + |members|
  {
    if members != [] {
      PromoteEachCounts(s, members[..|members| - 1]);
    }
  }

  lemma SequenceGrows(s: State, op: Op)
    ensures Do(s, op).0.sequence >= s.sequence
  {
    if op.OpPromote? {
      PromoteEachCounts(s, Due(s.delayed, op.now, BATCH));
    }
  }

  /** Refinement: for every sequence of operations within the counter's limit, the
      broker answers exactly as the list that serves the highest priority first
      and, within a priority, the member scored earliest. */
  lemma BrokerRefinesPriorityQueue(ops: seq<Op>)
    requires After(ops).sequence <= BUCKET
    ensures Answers(ops) == AbstractAnswers(ops)
    ensures forall x, y | x in After(ops).pending && y in After(ops).pending && x != y ::
              After(ops).pending[x] != After(ops).pending[y]
    ensures forall x | x in After(ops).pending :: 0 < After(ops).pending[x] < 0x20_0000_0000_0000
  {
    AfterRefines(ops);
    forall x | x in After(ops).pending
      ensures 0 < After(ops).pending[x] < 0x20_0000_0000_0000
    {
      ScoreExact(After(ops), AbstractAfter(ops), x);
    }
    forall x, y | x in After(ops).pending && y in After(ops).pending && x != y
      ensures After(ops).pending[x] != After(ops).pending[y]
    {
      ScoresDistinct(After(ops), AbstractAfter(ops), x, y);
    }
  }

  // ----- placement

  ghost function Members(s: State): set<Member> {
    s.pending.Keys + s.processing.Keys + s.delayed.Keys
  }

  /** What the callers keep to: a task is enqueued only when it is nowhere, and an
      outcome is reported only for a task being processed. */
  predicate Allowed(s: State, op: Op) {
    match op
    case OpEnqueue(m, _) => m !in s.pending && m !in s.processing && m !in s.delayed
    case OpEnqueueDelayed(m, _, _) => m !in s.pending && m !in s.processing && m !in s.delayed
    case OpAck(m) => m in s.processing
    case OpNackNow(m) => m in s.processing
    case OpNackLater(m, _) => m in s.processing
    case OpDeadLetter(m) => m in s.processing
    case _ => true
  }

  /** Each message is in one set, has a stored priority while it is in one, and a
      pending message is scored under that priority. */
  ghost predicate Placed(s: State) {
    && s.pending.Keys !! s.processing.Keys && s.pending.Keys !! s.delayed.Keys && s.processing.Keys !! s.delayed.Keys
    && s.priorities.Keys == Members(s) && PrioritiesInRange(s)
    && forall m | m in s.pending ::
         Score(s.priorities[m], 1) <= s.pending[m] <= Score(s.priorities[m], s.sequence)
  }

  lemma PushPlaced(s: State, m: Member)
    requires Placed(s.(delayed := s.delayed[m := 0])) && m !in s.delayed
    ensures Placed(Push(s, m, StoredPriority(s, m)))
    ensures Members(Push(s, m, StoredPriority(s, m))) == Members(s) + {m}
  {
    assert m in Members(s.(delayed := s.delayed[m := 0]));
  }

  lemma MovedPlaced(s: State, t: State, m: Member)
    requires Placed(s) && m in Members(s) && m !in s.pending
    requires t == s.(processing := s.processing - {m}, delayed := s.delayed - {m})
    ensures Placed(Push(t, m, StoredPriority(s, m))) && Members(Push(t, m, StoredPriority(s, m))) == Members(s)
    ensures Push(t, m, StoredPriority(s, m)).priorities == s.priorities
    ensures Push(t, m, StoredPriority(s, m)).delayed == s.delayed - {m}
  {
    var u := t.(delayed := t.delayed[m := 0]);
    assert Members(u) == Members(s);
    assert Placed(u);
    PushPlaced(t, m);
  }

  lemma PromotePlaced(s: State, m: Member)
    requires Placed(s) && m in s.delayed
    ensures Placed(Promote(s, m)) && Members(Promote(s, m)) == Members(s)
    ensures Promote(s, m).priorities == s.priorities && Promote(s, m).delayed == s.delayed - {m}
  {
    assert m in Members(s) && m !in s.processing;
    assert s.processing - {m} == s.processing;
    MovedPlaced(s, s.(processing := s.processing - {m}, delayed := s.delayed - {m}), m);
  }

  lemma {:induction false} DueDistinct(z: ZSet, now: int, limit: nat)
    ensures NoDuplicates(Due(z, now, limit))
    decreases limit
  {
    if limit > 0 && z != map[] && z[First(z)] <= now {
      DueDistinct(z - {First(z)}, now, limit - 1);
    }
  }

  /** What is due, independently of how it is found: in order, and if anything due is left
      out the limit is used up by members that come before it. */
  ghost predicate IsDue(z: ZSet, now: int, limit: nat, r: seq<Member>) {
    && |r| <= limit && (forall x | x in r :: x in z && z[x] <= now) && InOrder(z, r)
    && (forall x | x in z && z[x] <= now && x !in r :: |r| == limit && AllBefore(z, r, x))
  }

  ghost predicate InOrder(z: ZSet, r: seq<Member>) {
    forall i, j | 0 <= i < j < |r| && r[i] in z && r[j] in z :: r[i] != r[j] && Before(z, r[i], r[j])
  }

  ghost predicate AllBefore(z: ZSet, r: seq<Member>, x: Member)
    requires x in z
  {
    forall y | y in r && y in z :: Before(z, y, x)
  }

  lemma DueFirst(z: ZSet, first: Member, now: int, limit: nat, rest: seq<Member>)
    requires IsFirst(z, first) && z[first] <= now && limit > 0 && IsDue(z - {first}, now, limit - 1, rest)
    ensures IsDue(z, now, limit, [first] + rest)
  {
    var r, left := [first] + rest, z - {first};
    assert forall x | x in r :: x == first || x in rest;
    forall x | x in z && z[x] <= now && x !in r
      ensures |r| == limit && AllBefore(z, r, x)
    {
      assert r[0] == first && forall i | 0 <= i < |rest| :: r[i + 1] == rest[i];
      assert x in left && x !in rest && AllBefore(left, rest, x);
      forall y | y in r && y in z
        ensures Before(z, y, x)
      {
        assert y != first ==> Before(left, y, x);
      }
    }
    forall i, j | 0 <= i < j < |r|
      ensures r[i] in z && r[j] in z && r[i] != r[j] && Before(z, r[i], r[j])
    {
      assert r[j] == rest[j - 1] && r[j] in rest && r[j] in left;
      if i > 0 {
        assert r[i] == rest[i - 1] && r[i] in rest && r[i] in left;
        assert Before(left, rest[i - 1], rest[j - 1]);
      }
    }
  }

  lemma {:induction false} DueIsDue(z: ZSet, now: int, limit: nat)
    ensures IsDue(z, now, limit, Due(z, now, limit))
    decreases limit
  {
    if limit > 0 && z != map[] && z[First(z)] <= now {
      DueIsDue(z - {First(z)}, now, limit - 1);
      DueFirst(z, First(z), now, limit, Due(z - {First(z)}, now, limit - 1));
    } else if limit > 0 && z != map[] {
      assert forall x | x in z :: Before(z, First(z), x);
    }
  }

  /** Promotion moves every due member into line, up to the batch, those due first before
      the others, and none that is not due. */
  lemma PromotedIffDue(s: State, now: int, m: Member)
    requires m in s.delayed
    ensures m !in PromoteDue(s, now).0.delayed ==> s.delayed[m] <= now
    ensures s.delayed[m] <= now && PromoteDue(s, now).1 < BATCH ==> m !in PromoteDue(s, now).0.delayed
    ensures forall x | x in s.delayed && x !in PromoteDue(s, now).0.delayed && s.delayed[m] <= now && m in PromoteDue(s, now).0.delayed ::
              Before(s.delayed, x, m)
  {
    var members := Due(s.delayed, now, BATCH);
    DueIsDue(s.delayed, now, BATCH);
    PromoteEachTakes(s, members);
    if s.delayed[m] <= now && m !in members {
      assert AllBefore(s.delayed, members, m);
    }
  }

  lemma {:induction false} PromoteEachTakes(s: State, members: seq<Member>)
    ensures forall m :: m in PromoteEach(s, members).delayed <==> m in s.delayed && m !in members
  {
    if members != [] {
      var n := |members| - 1;
      PromoteEachTakes(s, members[..n]);
      assert forall m :: m in members <==> m in members[..n] || m == members[n];
    }
  }

  lemma {:induction false} PromoteEachPlaced(s: State, members: seq<Member>)
    requires Placed(s) && NoDuplicates(members) && forall m | m in members :: m in s.delayed
    ensures Placed(PromoteEach(s, members)) && Members(PromoteEach(s, members)) == Members(s)
    ensures PromoteEach(s, members).priorities == s.priorities
  {
    if members != [] {
      var n := |members| - 1;
      assert members[n] in members && members[n] !in members[..n];
      PromoteEachPlaced(s, members[..n]);
      PromoteEachTakes(s, members[..n]);
      PromotePlaced(PromoteEach(s, members[..n]), members[n]);
    }
  }

  /** Dequeue, both nacks and promotion move messages without losing one or
      touching its priority. */
  lemma MovesConserve(s: State, op: Op)
    requires Placed(s) && Allowed(s, op)
    requires op.OpDequeue? || op.OpNackNow? || op.OpNackLater? || op.OpPromote?
    ensures Placed(Do(s, op).0)
    ensures Members(Do(s, op).0) == Members(s) && Do(s, op).0.priorities == s.priorities
  {
    match op
    case OpDequeue =>
    case OpNackNow(m) =>
      assert s.delayed - {m} == s.delayed;
      MovedPlaced(s, s.(processing := s.processing - {m}, delayed := s.delayed - {m}), m);
    case OpNackLater(m, due) =>
    case OpPromote(now) =>
      DueDistinct(s.delayed, now, BATCH);
      PromoteEachPlaced(s, Due(s.delayed, now, BATCH));
  }

  lemma DoPlaced(s: State, op: Op)
    requires Placed(s) && Allowed(s, op)
    ensures Placed(Do(s, op).0)
  {
    if op.OpDequeue? || op.OpNackNow? || op.OpNackLater? || op.OpPromote? {
      MovesConserve(s, op);
    } else if op.OpEnqueue? {
      var t := s.(priorities := s.priorities[op.m := Clamp(op.priority)]);
      PushPlaced(t, op.m);
    }
  }

  ghost predicate AllAllowed(ops: seq<Op>) {
    forall k | 0 <= k < |ops| :: Allowed(After(ops[..k]), ops[k])
  }

  /** In every sequence of allowed operations each message is in at most one set,
      and has a priority in 0..9 exactly while it is in one. */
  lemma {:induction false} PlacedInEveryRun(ops: seq<Op>)
    requires AllAllowed(ops)
    ensures Placed(After(ops))
  {
    if ops != [] {
      var n := |ops| - 1;
      forall k | 0 <= k < n
        ensures Allowed(After(ops[..n][..k]), ops[..n][k])
      {
        assert ops[..n][..k] == ops[..k];
      }
      PlacedInEveryRun(ops[..n]);
      DoPlaced(After(ops[..n]), ops[n]);
    }
  }
}
