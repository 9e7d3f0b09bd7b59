/** Get-or-create under an idempotency key: look the key up, insert, and look again if
    somebody else was faster. Tasks, workflow executions and workflow deliveries are all
    created this way, by any number of callers at once. */
module Dispatch {
  import opened Common

  type Handle = nat

  /** The unique indexes: tasks by organisation, queue and key, executions by
      organisation and key, deliveries by their derived id. */
  datatype Key =
    | TaskKey(org: nat, queue: string, key: string)
    | ExecutionKey(org: nat, key: string)
    | DeliveryKey(id: nat)

  /** A row without a key has a NULL there: it matches no lookup and violates no index. */
  datatype Row = Row(key: Option<Key>, fingerprint: string)

  type Table = map<Handle, Row>

  predicate Holds(t: Table, key: Option<Key>, id: Handle) {
    key.Some? && id in t && t[id].key == key
  }

  ghost predicate Taken(t: Table, key: Option<Key>) {
    exists id :: Holds(t, key, id)
  }

  ghost predicate Unique(t: Table) {
    forall a, b, key | Holds(t, key, a) && Holds(t, key, b) :: a == b
  }

  ghost predicate Finds(t: Table, key: Option<Key>, found: Option<Handle>) {
    if found.Some? then Holds(t, key, found.value) else !Taken(t, key)
  }

  datatype Result = Reused(id: Handle) | Created(id: Handle) | Conflict | Refused

  /** What a caller makes of the row it found. */
  function Compare(t: Table, id: Handle, fingerprint: string): Result
    requires id in t
  {
    if t[id].fingerprint == fingerprint then Reused(id) else Conflict
  }

  // ----- the store and one caller, in place

  /** Rows are added, never changed or removed. */
  ghost predicate Grows(s: Table, t: Table) {
    forall id | id in s :: id in t && t[id] == s[id]
  }

  lemma InsertUnique(t: Table, id: Handle, row: Row)
    requires id !in t && !Taken(t, row.key)
    ensures Unique(t) ==> Unique(t[id := row])
  {
    var u := t[id := row];
    forall a, b, key | Holds(u, key, a) && Holds(u, key, b) && Unique(t)
      ensures a == b
    {
      assert a != id ==> Holds(t, key, a);
      assert b != id ==> Holds(t, key, b);
    }
  }

  class RowStore {
    var rows: Table

    method Find(key: Option<Key>) returns (found: Option<Handle>)
      ensures Finds(rows, key, found)
    {
      if key.None? {
        return None;
      }
      var left := rows.Keys;
      while left != {}
        invariant left <= rows.Keys && forall id | Holds(rows, key, id) :: id in left
        decreases left
      {
        var id :| id in left;
        if rows[id].key == key {
          return Some(id);
        }
        left := left - {id};
      }
      return None;
    }

    /** An insert that trips over the primary key or the unique index does nothing. */
    method Insert(id: Handle, row: Row) returns (ok: bool)
      modifies this
      ensures ok <==> id !in old(rows) && !Taken(old(rows), row.key)
      ensures rows == if ok then old(rows)[id := row] else old(rows)
      ensures Unique(old(rows)) ==> Unique(rows)
    {
      var found := Find(row.key);
      ok := id !in rows && found.None?;
      if ok {
        InsertUnique(rows, id, row);
        rows := rows[id := row];
      }
    }

    /** Other callers at work: any number of inserts. */
    method Others()
      requires Unique(rows)
      modifies this
      ensures Unique(rows) && Grows(old(rows), rows)
    {
      var inserts: nat := *;
      while inserts > 0
        invariant Unique(rows) && Grows(old(rows), rows)
      {
        var id: Handle := *;
        var row: Row := *;
        var ok := Insert(id, row);
        inserts := inserts - 1;
      }
    }
  }

  class Service {
    const store: RowStore

    constructor (store: RowStore)
      ensures this.store == store
    {
      this.store := store;
    }

    /** Whatever others insert in between, the caller ends with the one row of its key
        if that row has its fingerprint, and with a conflict if it has another; it is
        refused only if the id it drew was already in use. */
    method GetOrCreate(key: Option<Key>, fingerprint: string, id: Handle) returns (r: Result)
      requires Unique(store.rows)
      modifies store
      ensures Unique(store.rows) && Grows(old(store.rows), store.rows)
      ensures match r
              case Reused(other) => Holds(store.rows, key, other) && store.rows[other].fingerprint == fingerprint
              case Created(mine) => mine == id && id !in old(store.rows) && Grows(map[id := Row(key, fingerprint)], store.rows)
              case Conflict => exists other :: Holds(store.rows, key, other) && store.rows[other].fingerprint != fingerprint
              case Refused => id in store.rows
    {
      var found := store.Find(key);
      if found.Some? {
        return Compare(store.rows, found.value, fingerprint);
      }
      store.Others();
      var ok := store.Insert(id, Row(key, fingerprint));
      if ok {
        return Created(id);
      }
      ghost var blocked := store.rows;
      store.Others();
      found := store.Find(key);
      if found.Some? {
        return Compare(store.rows, found.value, fingerprint);
      }
      assert forall other | Holds(blocked, key, other) :: Holds(store.rows, key, other);
      return Refused;
    }
  }

  // ----- any number of callers

  datatype Phase = Looking | Inserting | LookingAgain | Done(result: Result)

  datatype Caller = Caller(key: Option<Key>, fingerprint: string, id: Handle, phase: Phase)

  datatype World = World(table: Table, callers: seq<Caller>)

  datatype Event = Call(caller: Caller) | Move(index: nat)

  /** One atomic step of a caller. */
  ghost predicate Moves(s: Table, c: Caller, t: Table, phase: Phase) {
    match c.phase
    case Looking =>
      exists found :: Finds(s, c.key, found) && t == s
        && phase == if found.Some? then Done(Compare(s, found.value, c.fingerprint)) else Inserting
    case Inserting =>
      if c.id in s || Taken(s, c.key) then t == s && phase == LookingAgain
      else t == s[c.id := Row(c.key, c.fingerprint)] && phase == Done(Created(c.id))
    case LookingAgain =>
      exists found :: Finds(s, c.key, found) && t == s
        && phase == Done(if found.Some? then Compare(s, found.value, c.fingerprint) else Refused)
    case Done(_) => false
  }

  ghost predicate Step(w: World, e: Event, v: World) {
    match e
    case Call(c) => c.phase == Looking && v == w.(callers := w.callers + [c])
    case Move(i) =>
      && i < |w.callers| == |v.callers|
      && Moves(w.table, w.callers[i], v.table, v.callers[i].phase)
      && v.callers == w.callers[i := w.callers[i].(phase := v.callers[i].phase)]
  }

  ghost predicate Run(ws: seq<World>, events: seq<Event>) {
    && |ws| == |events| + 1 && ws[0] == World(map[], [])
    && forall i, j | 0 <= i < j < |ws| && j == i + 1 :: Step(ws[i], events[i], ws[j])
  }

  /** What a caller's phase says about the table. */
  ghost predicate CallerFits(t: Table, c: Caller) {
    match c.phase
    case Looking => true
    case Inserting => true
    case LookingAgain => c.id in t || Taken(t, c.key)
    case Done(r) =>
      match r
      case Reused(id) => Holds(t, c.key, id) && t[id].fingerprint == c.fingerprint
      case Created(id) => id == c.id && id in t && t[id] == Row(c.key, c.fingerprint)
      case Conflict => exists id :: Holds(t, c.key, id) && t[id].fingerprint != c.fingerprint
      case Refused => c.id in t
  }

  ghost predicate CreatedApart(callers: seq<Caller>) {
    forall i, j | 0 <= i < j < |callers| && callers[i].phase.Done? && callers[j].phase.Done?
                  && callers[i].phase.result.Created? && callers[j].phase.result.Created? ::
      callers[i].id != callers[j].id
  }

  ghost predicate Fits(w: World) {
    && Unique(w.table) && CreatedApart(w.callers)
    && forall i | 0 <= i < |w.callers| :: CallerFits(w.table, w.callers[i])
  }

  lemma FitsGrown(s: Table, t: Table, c: Caller)
    requires Grows(s, t) && CallerFits(s, c)
    ensures CallerFits(t, c)
  {
    assert forall id | Holds(s, c.key, id) :: Holds(t, c.key, id);
  }

  lemma MoveFits(s: Table, c: Caller, t: Table, phase: Phase)
    requires Unique(s) && CallerFits(s, c) && Moves(s, c, t, phase)
    ensures Unique(t) && Grows(s, t) && CallerFits(t, c.(phase := phase))
    ensures phase.Done? && phase.result.Created? ==> c.id !in s
  {
    if c.phase.Inserting? && !(c.id in s || Taken(s, c.key)) {
      InsertUnique(s, c.id, Row(c.key, c.fingerprint));
    }
  }

  lemma StepFits(w: World, e: Event, v: World)
    requires Fits(w) && Step(w, e, v)
    ensures Fits(v)
  {
    if e.Move? {
      MoveFits(w.table, w.callers[e.index], v.table, v.callers[e.index].phase);
      forall i | 0 <= i < |v.callers|
        ensures CallerFits(v.table, v.callers[i])
      {
        FitsGrown(w.table, v.table, w.callers[i]);
      }
      assert forall i | 0 <= i < |w.callers| :: CallerFits(w.table, w.callers[i]);
    }
  }

  lemma {:induction false} RunFits(ws: seq<World>, events: seq<Event>, k: nat)
    requires Run(ws, events) && k < |ws|
    ensures Fits(ws[k])
  {
    if k > 0 {
      RunFits(ws, events, k - 1);
      assert Step(ws[k - 1], events[k - 1], ws[k]);
      StepFits(ws[k - 1], events[k - 1], ws[k]);
    }
  }

  /** Get-or-create in one step. */
  ghost predicate AtOnce(s: Table, c: Caller, t: Table, r: Result) {
    if Taken(s, c.key) then t == s && exists id :: Holds(s, c.key, id) && r == Compare(s, id, c.fingerprint)
    else if c.id in s then t == s && r == Refused
    else t == s[c.id := Row(c.key, c.fingerprint)] && r == Created(c.id)
  }

  /** The three steps act like one: in every run, the step with which a caller finishes is
      a get-or-create at once, and no other step changes the table. So all answers are
      those of atomic calls, each taken between call and return. */
  lemma FinishesAtOnce(ws: seq<World>, events: seq<Event>, k: nat)
    requires Run(ws, events) && k < |events|
    ensures events[k].Move? ==> events[k].index < |ws[k].callers| == |ws[k + 1].callers|
    ensures if events[k].Move? && ws[k + 1].callers[events[k].index].phase.Done?
            then AtOnce(ws[k].table, ws[k].callers[events[k].index], ws[k + 1].table, ws[k + 1].callers[events[k].index].phase.result)
            else ws[k + 1].table == ws[k].table
  {
    RunFits(ws, events, k);
    assert Step(ws[k], events[k], ws[k + 1]);
    if events[k].Move? {
      MoveAtOnce(ws[k].table, ws[k].callers[events[k].index], ws[k + 1].table, ws[k + 1].callers[events[k].index].phase);
    }
  }

  lemma MoveAtOnce(s: Table, c: Caller, t: Table, phase: Phase)
    requires Moves(s, c, t, phase) && CallerFits(s, c)
    ensures if phase.Done? then AtOnce(s, c, t, phase.result) else t == s
  {
    if !c.phase.Inserting? {
      var found :| Finds(s, c.key, found) && t == s;
      assert found.Some? ==> Holds(s, c.key, found.value);
    }
  }

  /** The row a caller was answered with, if any. */
  function Answer(r: Result): Option<Handle> {
    if r.Reused? || r.Created? then Some(r.id) else None
  }

  ghost predicate Answered(w: World, i: nat) {
    i < |w.callers| && w.callers[i].phase.Done? && !w.callers[i].phase.result.Refused?
  }

  /** All callers of one key with one fingerprint get the same answer, callers of one
      key with different fingerprints never both get a row, and only one of them
      created it. */
  lemma SameKeySameRow(ws: seq<World>, events: seq<Event>, k: nat, i: nat, j: nat)
    requires Run(ws, events) && k < |ws| && Answered(ws[k], i) && Answered(ws[k], j) && i != j
    requires ws[k].callers[i].key.Some? && ws[k].callers[i].key == ws[k].callers[j].key
    ensures var c, d := ws[k].callers[i], ws[k].callers[j];
            && (c.fingerprint == d.fingerprint ==> Answer(c.phase.result) == Answer(d.phase.result))
            && (c.fingerprint != d.fingerprint ==> c.phase.result.Conflict? || d.phase.result.Conflict?)
            && !(c.phase.result.Created? && d.phase.result.Created?)
  {
    RunFits(ws, events, k);
    var c, d := ws[k].callers[i], ws[k].callers[j];
    assert CallerFits(ws[k].table, c) && CallerFits(ws[k].table, d);
    assert c.phase.result.Created? ==> Holds(ws[k].table, c.key, c.id);
    assert d.phase.result.Created? ==> Holds(ws[k].table, d.key, d.id);
  }

  /** At most one row per key, ever. */
  lemma OneRowPerKey(ws: seq<World>, events: seq<Event>, k: nat, key: Key, a: Handle, b: Handle)
    requires Run(ws, events) && k < |ws|
    requires Holds(ws[k].table, Some(key), a) && Holds(ws[k].table, Some(key), b)
    ensures a == b
  {
    RunFits(ws, events, k);
  }

  /** A request without a key is never deduplicated: each answered caller made its own
      row. Sharing a row is exactly for requests that carry a key. */
  lemma UnkeyedAlwaysNew(ws: seq<World>, events: seq<Event>, k: nat, i: nat, j: nat)
    requires Run(ws, events) && k < |ws| && Answered(ws[k], i) && Answered(ws[k], j) && i != j
    requires ws[k].callers[i].key == None && ws[k].callers[j].key == None
    ensures var c, d := ws[k].callers[i], ws[k].callers[j];
            c.phase.result == Created(c.id) && d.phase.result == Created(d.id) && c.id != d.id
  {
    RunFits(ws, events, k);
    assert CallerFits(ws[k].table, ws[k].callers[i]) && CallerFits(ws[k].table, ws[k].callers[j]);
  }

  // ----- the keys of workflow nodes

  const UUID_LENGTH := 36

  /** The request key of `CreateTask`: an empty idempotency key is stored as NULL. */
  function TaskKeyOf(org: nat, queue: string, key: string): Option<Key> {
    if key == "" then None else Some(TaskKey(org, queue, key))
  }

  function NodeTaskKey(org: nat, queue: string, execution: string, node: string): Option<Key> {
    TaskKeyOf(org, queue, "workflow:" + execution + ":" + node)
  }

  function NodeDeliveryName(execution: string, node: string): string {
    execution + ":" + node
  }

  lemma NameInjective(e: string, n: string, f: string, m: string)
    requires |e| == UUID_LENGTH && |f| == UUID_LENGTH && NodeDeliveryName(e, n) == NodeDeliveryName(f, m)
    ensures e == f && n == m
  {
    var x, y := NodeDeliveryName(e, n), NodeDeliveryName(f, m);
    assert e == x[..UUID_LENGTH] && f == y[..UUID_LENGTH];
    assert n == x[UUID_LENGTH + 1..] && m == y[UUID_LENGTH + 1..];
  }

  /** Different nodes, or the same node of different executions, never share a task key. */
  lemma NodeTaskKeyInjective(org: nat, queue: string, e: string, n: string, other: string, f: string, m: string)
    requires |e| == UUID_LENGTH && |f| == UUID_LENGTH
    ensures NodeTaskKey(org, queue, e, n).Some?
    ensures NodeTaskKey(org, queue, e, n) == NodeTaskKey(org, other, f, m) <==> queue == other && e == f && n == m
  {
    var x, y := "workflow:" + e + ":" + n, "workflow:" + f + ":" + m;
    assert x[|"workflow:"|..] == NodeDeliveryName(e, n) && y[|"workflow:"|..] == NodeDeliveryName(f, m);
    if x == y {
      NameInjective(e, n, f, m);
    }
  }

  ghost predicate Injective(uuid5: string -> nat) {
    forall x, y :: uuid5(x) == uuid5(y) ==> x == y
  }

  /** With name-based ids taken as injective, two dispatches share a delivery exactly
      when they are for one node of one execution. */
  lemma NodeDeliveryKeyInjective(uuid5: string -> nat, e: string, n: string, f: string, m: string)
    requires Injective(uuid5) && |e| == UUID_LENGTH && |f| == UUID_LENGTH
    ensures DeliveryKey(uuid5(NodeDeliveryName(e, n))) == DeliveryKey(uuid5(NodeDeliveryName(f, m))) <==> e == f && n == m
  {
    if uuid5(NodeDeliveryName(e, n)) == uuid5(NodeDeliveryName(f, m)) {
      NameInjective(e, n, f, m);
    }
  }

  /** The answered callers of a run that got a row got the same row exactly if they asked
      under the same key. */
  lemma SameRowIffSameKey(ws: seq<World>, events: seq<Event>, k: nat, i: nat, j: nat)
    requires Run(ws, events) && k < |ws| && Answered(ws[k], i) && Answered(ws[k], j) && i != j
    requires !ws[k].callers[i].phase.result.Conflict? && !ws[k].callers[j].phase.result.Conflict?
    requires ws[k].callers[i].key.Some? && ws[k].callers[j].key.Some?
    ensures Answer(ws[k].callers[i].phase.result) == Answer(ws[k].callers[j].phase.result)
            <==> ws[k].callers[i].key == ws[k].callers[j].key
  {
    RunFits(ws, events, k);
    assert CallerFits(ws[k].table, ws[k].callers[i]) && CallerFits(ws[k].table, ws[k].callers[j]);
    if ws[k].callers[i].key == ws[k].callers[j].key {
      SameKeySameRow(ws, events, k, i, j);
    }
  }

  /** Dispatches share a task exactly if they are for one node of one execution. */
  lemma SameTaskIffSameNode(ws: seq<World>, events: seq<Event>, k: nat, i: nat, j: nat,
                            org: nat, queue: string, e: string, n: string, f: string, m: string)
    requires Run(ws, events) && k < |ws| && Answered(ws[k], i) && Answered(ws[k], j) && i != j
    requires !ws[k].callers[i].phase.result.Conflict? && !ws[k].callers[j].phase.result.Conflict?
    requires |e| == UUID_LENGTH && |f| == UUID_LENGTH
    requires ws[k].callers[i].key == NodeTaskKey(org, queue, e, n) && ws[k].callers[j].key == NodeTaskKey(org, queue, f, m)
    ensures Answer(ws[k].callers[i].phase.result) == Answer(ws[k].callers[j].phase.result) <==> e == f && n == m
  {
    NodeTaskKeyInjective(org, queue, e, n, queue, f, m);
    NodeTaskKeyInjective(org, queue, f, m, queue, e, n);
    SameRowIffSameKey(ws, events, k, i, j);
  }

  /** And a delivery, with name-based ids taken as injective. */
  lemma SameDeliveryIffSameNode(ws: seq<World>, events: seq<Event>, k: nat, i: nat, j: nat,
                                uuid5: string -> nat, e: string, n: string, f: string, m: string)
    requires Run(ws, events) && k < |ws| && Answered(ws[k], i) && Answered(ws[k], j) && i != j
    requires !ws[k].callers[i].phase.result.Conflict? && !ws[k].callers[j].phase.result.Conflict?
    requires Injective(uuid5) && |e| == UUID_LENGTH && |f| == UUID_LENGTH
    requires ws[k].callers[i].key == Some(DeliveryKey(uuid5(NodeDeliveryName(e, n))))
    requires ws[k].callers[j].key == Some(DeliveryKey(uuid5(NodeDeliveryName(f, m))))
    ensures Answer(ws[k].callers[i].phase.result) == Answer(ws[k].callers[j].phase.result) <==> e == f && n == m
  {
    NodeDeliveryKeyInjective(uuid5, e, n, f, m);
    SameRowIffSameKey(ws, events, k, i, j);
  }
}
