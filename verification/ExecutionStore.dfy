/** The stored rows of one workflow execution, and the guarded updates through
    which every reconciler writes them. Each update is one atomic statement or
    transaction of the repository. */
module ExecutionStore {
  import opened Common

  datatype ExecutionStatus = ExecPending | ExecRunning | ExecSucceeded | ExecFailed | ExecCancelled

  predicate Finished(s: ExecutionStatus) {
    s.ExecSucceeded? || s.ExecFailed? || s.ExecCancelled?
  }

  datatype NodeStatus = Pending | Queued | Running | Succeeded | Failed | Skipped | Cancelled

  predicate Terminal(s: NodeStatus) {
    s.Succeeded? || s.Failed? || s.Skipped? || s.Cancelled?
  }

  predicate Settled(s: NodeStatus) {
    s.Succeeded? || s.Skipped?
  }

  datatype Output =
    | InputEcho
    | ConditionResult(result: bool)
    | TaskReference(task: nat)
    | DeliveryReference(delivery: string)
    | ResumedAt(time: int)

  datatype Row = Row(
    status: NodeStatus,
    attempt: nat,
    output: Option<Output>,
    task: Option<nat>,
    delivery: Option<string>,
    availableAt: Option<int>,
    updatedAt: int)

  /** The outputs an execution reports when it succeeds, by node id. */
  type Outputs = map<string, Output>

  datatype Store = Store(status: ExecutionStatus, rows: map<string, Row>, outputs: Option<Outputs>)

  function FreshRow(now: int): Row {
    Row(Pending, 0, None, None, None, None, now)
  }

  predicate CanClaim(s: Store, node: string) {
    node in s.rows && s.rows[node].status.Pending?
  }

  function ClaimedRow(row: Row, now: int): Row {
    row.(status := Running, attempt := row.attempt + 1, updatedAt := now)
  }

  /** Pending to running, for whoever gets there first. */
  function Claim(s: Store, node: string, now: int): Store {
    if CanClaim(s, node) then s.(rows := s.rows[node := ClaimedRow(s.rows[node], now)]) else s
  }

  predicate CanSwap(s: Store, node: string, expected: NodeStatus) {
    node in s.rows && s.rows[node].status == expected
  }

  /** Overwrites the whole row if its status is still the expected one. */
  function Swap(s: Store, node: string, row: Row, expected: NodeStatus): Store {
    if CanSwap(s, node, expected) then s.(rows := s.rows[node := row]) else s
  }

  function MarkRunning(s: Store): Store {
    if s.status.ExecPending? then s.(status := ExecRunning) else s
  }

  function CancelRow(row: Row, now: int): Row {
    if Terminal(row.status) then row else row.(status := Cancelled, updatedAt := now)
  }

  function CancelOpen(rows: map<string, Row>, now: int): map<string, Row> {
    map n | n in rows :: CancelRow(rows[n], now)
  }

  function FinalizeSucceeded(s: Store, outputs: Outputs): Store {
    if Finished(s.status) then s else s.(status := ExecSucceeded, outputs := Some(outputs))
  }

  function FinalizeFailed(s: Store, now: int): Store {
    if Finished(s.status) then s else s.(status := ExecFailed, rows := CancelOpen(s.rows, now))
  }

  function CancelExecution(s: Store, now: int): Store {
    if Finished(s.status) then s else s.(status := ExecCancelled, rows := CancelOpen(s.rows, now))
  }

  datatype Item = Item(node: string, row: Row)

  /** The repository's guarded updates, as data. */
  datatype Update =
    | NoUpdate
    | ClaimNode(node: string)
    | SwapNode(item: Item, expected: NodeStatus)
    | StartExecution
    | Succeed(outputs: Outputs)
    | Fail
    | CancelAll

  function Apply(s: Store, u: Update, now: int): Store {
    match u
    case NoUpdate => s
    case ClaimNode(node) => Claim(s, node, now)
    case SwapNode(item, expected) => Swap(s, item.node, item.row, expected)
    case StartExecution => MarkRunning(s)
    case Succeed(outputs) => FinalizeSucceeded(s, outputs)
    case Fail => FinalizeFailed(s, now)
    case CancelAll => CancelExecution(s, now)
  }

  /** The repository: the same updates on rows held in place. */
  class WorkflowExecutionRepository {
    var status: ExecutionStatus
    var rows: map<string, Row>
    var outputs: Option<Outputs>

    ghost function View(): Store
      reads this
    {
      Store(status, rows, outputs)
    }

    /** Inserts the execution row and one pending row per node. */
    constructor (nodes: set<string>, now: int)
      ensures View() == Store(ExecPending, map n | n in nodes :: FreshRow(now), None)
    {
      status, outputs := ExecPending, None;
      rows := map n | n in nodes :: FreshRow(now);
    }

    method ClaimWorkflowNode(node: string, now: int) returns (won: bool)
      modifies this
      ensures won == old(CanClaim(View(), node))
      ensures View() == Claim(old(View()), node, now)
    {
      won := node in rows && rows[node].status.Pending?;
      if won {
        rows := rows[node := ClaimedRow(rows[node], now)];
      }
    }

    method UpdateWorkflowNodeExecution(node: string, row: Row, expected: NodeStatus) returns (updated: bool)
      modifies this
      ensures updated == old(CanSwap(View(), node, expected))
      ensures View() == Swap(old(View()), node, row, expected)
    {
      updated := node in rows && rows[node].status == expected;
      if updated {
        rows := rows[node := row];
      }
    }

    /** Sets the status if it is one of those expected. */
    method UpdateWorkflowExecution(next: ExecutionStatus, expected: set<ExecutionStatus>) returns (updated: bool)
      modifies this
      ensures updated == (old(status) in expected)
      ensures View() == if updated then old(View()).(status := next) else old(View())
    {
      updated := status in expected;
      if updated {
        status := next;
      }
    }

    method FinalizeWithOutputs(result: Outputs) returns (updated: bool)
      modifies this
      ensures updated == !Finished(old(status))
      ensures View() == FinalizeSucceeded(old(View()), result)
    {
      updated := !Finished(status);
      if updated {
        status, outputs := ExecSucceeded, Some(result);
      }
    }

    method FinalizeWithFailure(now: int) returns (updated: bool)
      modifies this
      ensures updated == !Finished(old(status))
      ensures View() == FinalizeFailed(old(View()), now)
    {
      updated := !Finished(status);
      if updated {
        status, rows := ExecFailed, CancelOpen(rows, now);
      }
    }

    /** False is the error for an execution that is already terminal. */
    method CancelWorkflowExecution(now: int) returns (accepted: bool)
      modifies this
      ensures accepted == !Finished(old(status))
      ensures View() == CancelExecution(old(View()), now)
    {
      accepted := !Finished(status);
      if accepted {
        status, rows := ExecCancelled, CancelOpen(rows, now);
      }
    }
  }

  // ----- what every update keeps

  /** One node row moves forward: terminal rows are frozen and nothing returns to pending. */
  predicate RowEvolves(a: Row, b: Row) {
    a == b || (!Terminal(a.status) && !b.status.Pending?)
  }

  ghost predicate Evolves(s: Store, t: Store) {
    && s.rows.Keys == t.rows.Keys
    && (forall n | n in s.rows :: RowEvolves(s.rows[n], t.rows[n]))
    && (Finished(s.status) ==> t.status == s.status && t.outputs == s.outputs)
  }

  lemma EvolvesTransitive(a: Store, b: Store, c: Store)
    requires Evolves(a, b) && Evolves(b, c)
    ensures Evolves(a, c)
  {
  }
}
