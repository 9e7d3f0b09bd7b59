# Windylane verification

A Dafny model of the concurrent core of Windylane: the TaskCanvas workflow executor,
its graph validator and publishing, the QueueFlow task queue on Postgres and Redis, the
EventForge webhook deliveries, and two small stateful pieces beside them. It proves what
every interleaving keeps, what a succeeded execution means, and that the fast forms
agree with simple ones.

`dafny verify dfyconfig.toml` checks everything.

## How it is laid out

| files | what they hold |
|---|---|
| `Common`, `Graphs`, `Workflow`, `Conditions`, `Validation` | graphs, workflow definitions and node configs, what a condition asks of the input, and the validator with its exact specification |
| `ExecutionStore`, `ExecutionSteps` | the executor's repository, and `AdvanceExecution` as a step machine: any number of calls at once, each holding only what it has read, each step one repository or dispatcher operation, plus cancellation, clock ticks and moves of external work |
| `ExecutionSafety`, `ExecutionLinks`, `ExecutionRuns` | the invariant and the safety results over whole runs |
| `ExecutionMeaning`, `ExecutionConfluence`, `ExecutionProgress`, `ExecutionTruth` | the meaning of a definition, when runs agree with it, progress, and that recorded success is backed by finished work |
| `ExecutionAnswers`, `ExecutionDelays`, `ExecutionMirrors` | what a run records of conditions, triggers, delays and outside work |
| `ExecutionCalls`, `ExecutionFinish` | one call left to itself: it ends, and how much it starts; and that an open execution can always still be finished |
| `ExecutionRaces`, `ExecutionFailure`, `ExecutionRounds` | runs from a fresh execution that show where an expected property ends, and the exact conditions for failures and rounds |
| `ExecutionBacking`, `WorkflowDispatch` | the executor's view of outside work joined to the task, delivery and get-or-create machines |
| `AdvanceExecution` | the service's methods in place, each proved to take exactly the machine's steps, and the loop bound |
| `Ordering` | the dashboard's topological order |
| `Broker`, `RedisBroker`, `Rebuild` | the sorted-set broker against an abstract priority queue, its methods in place, and the rebuild from Postgres |
| `TaskLease`, `Engine` | leased tasks, and the engine that settles them in storage and broker |
| `WebhookDelivery`, `Dispatch`, `Publishing` | webhook deliveries, get-or-create under idempotency keys, publishing |
| `TokenBucket`, `Recorder` | the rate limiter and the buffered metric recorder |

State that the source updates in place is a class whose methods are proved against
functions on values; the same functions drive the machines whose runs the lemmas are
about. Storage and broker methods of a single statement are not listed below: each
ensures that the new state is a named function of the old one. A run is
any finite sequence of enabled events, so a crash, or a call that ends with an error of
storage, is an actor that takes no further step.

## Where the code and an expected property part

- A claim made for skipping that outlives its 30 s lease can be executed by recovery, and
  the execution then succeeds with statuses its definition does not mean
  (`LateSkipChangesMeaning`). Runs execute only what readiness selects exactly if no
  executed row is stored over a claim held for skipping
  (`ExecutedRightIffNothingStolen`); writing skips in time is enough
  (`TimelyNothingStolen`).
- The executor fails the execution even if the failed row could not be stored
  (`FailsWithoutFailedNode`); `FailedNodeIff` says exactly when a failed node is shown.
- A dispatched task costs two rounds of the loop, whose bound counts one per node, so one
  undisturbed call starts outside work in at most every second round
  (`UndisturbedCallBound`): of more than three ready tasks it never starts all
  (`UndisturbedCallStarts`). A later call goes on.
- The outcome statements for tasks look at the status, not at the lock
  (`StaleOutcomeBreaksBudget`, `StaleReturnBreaksBudget`). The attempt budget holds exactly
  if every event is safe (`WithinBudgetIffSafe`), and leaves every pending row a spare
  attempt exactly if every reported failure is harmless (`SparesAttemptIffHarmless`); that
  only the latest claimant writes, or that workers act only within their lease, is enough.
- `docs/eventforge.md` promises delivery at least once, but nothing reclaims a delivery
  whose worker died while delivering. It can change exactly while a worker holds it
  (`HeldIffCanChange`, `StrandedForever`), and without one its workflow node never succeeds
  (`StrandedNeverSucceeds`). A task deleted before its completion was mirrored strands its
  node in the same way (`DeletedNeverSucceeds`). `Progress` counts such nodes as in flight;
  `CanFinish` asks that no task is deleted, and lets every open delivery be made.
- The validator joins an edge's ends with a NUL before comparing them, so a sound
  definition with NUL in an id can be rejected (`NulCollision`). Accepted definitions are
  always sound.
- An empty idempotency key is stored as NULL and never deduplicates (`UnkeyedAlwaysNew`).
- A snapshot escapes validation exactly when a publication meets other, rejected content
  under the microsecond stamp of the content it validated (`AcceptedIffNeverSlips`,
  `EditBehindValidation`).
- The token bucket's key expires after a minute, which breaks its bound exactly when a
  minute does not refill a full bucket (`BoundIffMinuteFills`). If clocks disagree about
  the order of calls, only an empty bucket is bounded (`AnyOrderBoundedIffEmpty`).

## Model

| member | source | states |
|---|---|---|
| ExecutionRuns.RunInvariant | internal/usecase/workflow_execution_service.go:239-693 | every event keeps the invariant of the executor: node rows, every snapshot and row copy a call still holds, links to external work and statuses fit together, in all interleavings |
| ExecutionRuns.PredecessorsSettled | internal/usecase/workflow_execution_service.go:441-528 | causality: in every run a non-trigger node that has been started has only succeeded or skipped predecessors, although readiness was read from a stale snapshot |
| ExecutionRuns.TerminalAgreement | internal/storage/postgres/workflow_execution_repository.go:284-381 | in every run a succeeded execution has every node succeeded or skipped and reports exactly the stored outputs, a failed or cancelled one has every node terminal, an open one has no cancelled node |
| ExecutionRuns.TerminalForever | internal/storage/postgres/workflow_execution_repository.go:214-381 | once the execution is terminal nothing in the store changes again; a terminal node row never changes and no row returns to pending, whatever stale calls still do |
| ExecutionRuns.ClaimedAndDispatchedOnce | internal/storage/postgres/workflow_execution_repository.go:214-236 | a node is claimed at most once in any run and has at most one task and one delivery, however often recovery dispatches it again; what its row links is its own (a task whose row could not be stored is linked by none); that a dispatch is one step is WorkflowDispatch.TaskDispatchIsOneStep |
| ExecutionRuns.CancelledForGood | internal/storage/postgres/workflow_execution_repository.go:332-381 | cancelling any reachable open execution: its open nodes are cancelled, its other rows and its outputs kept, and in no continuation does any of that change |
| ExecutionConfluence.Confluence | internal/usecase/workflow_execution_service.go:422-598 | any two runs of one definition and input that succeed, and in which no node whose skip claim was taken over has succeeded, end with the same status for every node, whatever the row order and interleaving |
| ExecutionConfluence.SucceededIsMeaning | internal/usecase/workflow_execution_service.go:422-598 | a run that succeeds ends in the recursive meaning of the definition if and only if no node whose skip claim was taken over has succeeded |
| ExecutionConfluence.ExecutedRightIffNothingStolen | internal/usecase/workflow_execution_service.go:394-471 | the exact guard, for every run: in all its states every node shown executed is one that readiness selects, if and only if no event stores an executed row over a claim held for skipping |
| ExecutionConfluence.StolenWasSkipped | internal/usecase/workflow_execution_service.go:394-471 | a node whose skip claim was taken over has no active incoming edge, at any later time |
| ExecutionConfluence.TimelyNothingStolen | internal/usecase/workflow_execution_service.go:394-409 | if every skip is written within its 30 s lease, no claim held for skipping is taken over |
| ExecutionConfluence.TimelyIsMeaning | internal/usecase/workflow_execution_service.go:394-598 | so with skips written in time every run that succeeds ends in the meaning |
| ExecutionConfluence.MeaningEquation | internal/usecase/workflow_execution_service.go:481-528 | the meaning: a non-trigger node is skipped exactly if no incoming edge comes from a node that ran and is selected by its result |
| ExecutionConfluence.EveryRunHolds | internal/usecase/workflow_execution_service.go:441-598 | in every run: the invariant, a skipped node has only settled predecessors and no active incoming edge, every executed row a call is about to write shows its execution |
| ExecutionConfluence.RunInEveryTimelyRun | internal/usecase/workflow_execution_service.go:394-409 | in every timely run a node that was executed is one that readiness selects |
| ExecutionConfluence.SettledNodesAgree | internal/usecase/workflow_execution_service.go:422-598 | already before the end, each settled node of a run in which nothing was taken over has the status its meaning gives it |
| ExecutionConfluence.ReachedIgnoresListing | internal/storage/postgres/workflow_execution_repository.go:187-212 | the meaning does not depend on the order in which rows are listed |
| ExecutionProgress.Progress | internal/usecase/workflow_execution_service.go:441-528 | for every definition the validator accepts, in every reachable open execution: readiness never errors, and some node failed, is in flight, can be started or skipped, or all are settled |
| ExecutionProgress.LowestPendingReady | internal/usecase/workflow_execution_service.go:481-528 | among pending nodes of a sound definition with nothing in flight, one of least rank is runnable or skippable |
| ExecutionProgress.NoCallBreaks | internal/usecase/workflow_execution_service.go:441-454 | on a sound definition no call of any run ends because readiness could not be read |
| ExecutionProgress.TakesOverIffOverdue | internal/usecase/workflow_execution_service.go:394-409 | a reconciler that comes to a bare claim executes it if and only if the claim is at least 30 s old, and otherwise passes on; nothing else changes |
| ExecutionProgress.DispatchesIffOverdue | internal/usecase/workflow_execution_service.go:394-409 | and for a task node dispatches a task if and only if the listed copy is overdue, whatever the stored row has become since; so even a node skipped in time may have an unlinked task |
| ExecutionProgress.TakeoverSteals | internal/usecase/workflow_execution_service.go:394-409 | a claim taken over while it is still held for skipping: the write that follows stores an executed row over it |
| ExecutionProgress.FreshTaskMirroredOnce | internal/usecase/workflow_execution_service.go:330-346 | the row of a task just dispatched is changed by mirroring exactly once, because the claim counted an attempt the task has not made |
| ExecutionRaces.LateSkipChangesMeaning | internal/usecase/workflow_execution_service.go:394-471 | for every chain of a trigger, a condition that answers false and a condition behind its true branch there is a run from a fresh execution that succeeds with statuses other than the meaning |
| ExecutionRaces.SomeChain | internal/usecase/workflow_execution_service.go:481-528 | such a definition exists, with its rows in the order of their ids |
| ExecutionFailure.FailedNodeIff | internal/usecase/workflow_execution_service.go:600-651 | a call about to store a failed row of an open execution: after its two steps the execution has failed, and some node is failed if and only if the row was still running or another node had failed |
| ExecutionFailure.FailedHasFailedNode | internal/usecase/workflow_execution_service.go:600-651 | a run in which no failed row is lost fails only with a failed node to show |
| ExecutionFailure.FailsWithoutFailedNode | internal/usecase/workflow_execution_service.go:600-616 | for every definition of a trigger and a task behind it there is a run from a fresh execution that ends failed without a failed node |
| ExecutionCalls.UndisturbedCallBound | internal/usecase/workflow_execution_service.go:277-309 | for every definition, every reachable state with no claim to take over, every answer of the dispatcher: from the start of round i on, one undisturbed call creates at most (nodes + 3 - i) / 2 tasks and deliveries |
| ExecutionCalls.Drive | internal/usecase/workflow_execution_service.go:277-309 | every call ends: in any set of worlds that some step of the call never leaves, the call comes to its end |
| ExecutionRounds.UndisturbedCallStarts | internal/usecase/workflow_execution_service.go:277-309 | m tasks ready behind a settled trigger, every undisturbed run of the call: at most min(m, (m + 1) / 2 + 1) are started, exactly so many if the call ends and every dispatch was accepted; that is fewer than m if and only if m > 3 |
| ExecutionRounds.SomeCallStarts | internal/usecase/workflow_execution_service.go:277-309 | there is such a run, and it ends |
| ExecutionFinish.CanFinish | internal/usecase/workflow_execution_service.go:239-310 | from every reachable open state of a sound definition with no deleted task, however many calls stopped halfway, fresh calls, finished work and time alone bring the execution to its end, without cancellation; if nothing has failed so far, it succeeds |
| ExecutionFinish.OneCall | internal/usecase/workflow_execution_service.go:239-310 | one fresh call, once the work under way is done, finishes the execution or brings a row closer to its end |
| ExecutionRounds.FanBegins | internal/usecase/workflow_execution_service.go:277-309 | that point is reached from a fresh execution |
| ExecutionSafety.NextConsistent | internal/usecase/workflow_execution_service.go:239-693 | one event keeps every row, held copy and snapshot consistent with the store |
| ExecutionSafety.JudgeSettled | internal/usecase/workflow_execution_service.go:481-528 | a verdict of runnable or skippable means every incoming edge has a settled source |
| ExecutionSafety.ApplyCausal | internal/storage/postgres/workflow_execution_repository.go:214-258 | guarded updates keep causality |
| ExecutionSafety.ApplyStatusFits | internal/storage/postgres/workflow_execution_repository.go:284-381 | guarded updates keep the agreement of execution and node statuses |
| ExecutionLinks.NextLinks | internal/usecase/workflow_execution_service.go:542-598 | one event keeps one task per node and every stored or held link pointing to existing work of its own node |
| ExecutionMeaning.NextSkipsRight | internal/usecase/workflow_execution_service.go:455-471 | one event keeps: every skipped node had no active incoming edge |
| ExecutionMeaning.NextRowMeans | internal/usecase/workflow_execution_service.go:394-479 | one event keeps: a row that shows execution belongs to a node that readiness selects, unless the event takes over a skip claim on it |
| ExecutionMeaning.StealBreaks | internal/usecase/workflow_execution_service.go:394-409 | an event that does take one over leaves an executed row on a node with no active incoming edge |
| ExecutionMeaning.NextRunsRight | internal/usecase/workflow_execution_service.go:394-479 | one event of a timely run keeps: every node executed or claimed for execution was selected |
| ExecutionTruth.SucceededWorkIsDone | internal/usecase/workflow_execution_service.go:312-420 | in every run in which completed tasks stay completed and delivered webhooks delivered: a succeeded row of a task node links a completed task and reports it, of a webhook node a delivered delivery, of a delay a time that has passed, of a condition its evaluation, of a trigger the input or nothing |
| ExecutionBacking.SucceededIsBacked | internal/usecase/workflow_execution_service.go:312-420 | the same without that hypothesis, in every run whose tasks and deliveries move as the task and delivery machines do |
| ExecutionBacking.BackedLasts | internal/storage/postgres/postgres_storage.go:149-162 | the moves of those machines keep completed and delivered work |
| Conditions.EvaluateWorkflowCondition | internal/usecase/workflow_node_config.go:150-180 | the loop answers what the operator asks of the input: exists iff the path leads to some value, equals iff it leads to the operand, not_equals iff it does not; a path leads to a value iff there is a chain of objects from the input, each holding the next dot-free name, whose names joined by dots are the field after input. |
| Conditions.EvaluateIffSatisfied | internal/usecase/workflow_node_config.go:150-180 | the same of the function the machine uses, for all configs and inputs |
| Conditions.LookupIffResolves | internal/usecase/workflow_node_config.go:157-170 | splitting the path and walking down finds a value iff the path leads to it |
| ExecutionAnswers.ConditionRecordsAnswer | internal/usecase/workflow_execution_service.go:543-556 | in every run a succeeded condition has recorded whether the input satisfies it |
| ExecutionAnswers.BranchFollowsAnswer | internal/usecase/workflow_execution_service.go:481-528 | an edge from a condition carries on iff it has no label or asks for the branch the input satisfies |
| ExecutionAnswers.TriggerPassesInput | internal/usecase/workflow_execution_service.go:539-542 | in every run a succeeded trigger has passed the input on, or nothing if there is none |
| ExecutionDelays.DelayWaits | internal/usecase/workflow_execution_service.go:555-563 | in every run a delay that has succeeded was resumed no later than now and no earlier than the duration of its config after the clock of the step that executed it, which no claim on it came after |
| ExecutionDelays.QueuedDelayIsDue | internal/usecase/workflow_execution_service.go:555-563 | in every run a queued delay is due exactly that duration after the clock of the step that executed it |
| ExecutionDelays.ResumedIffDue | internal/usecase/workflow_execution_service.go:387-392 | mirroring resumes a queued delay iff that time has come |
| ExecutionMirrors.TaskMirrored | internal/usecase/workflow_execution_service.go:330-356 | undisturbed, mirroring stores the state of the task it looks at: attempts, queued iff pending, running iff processing, succeeded iff completed, failed iff failed, dead-lettered or cancelled; the row changes iff it did not say so, and nothing else does |
| ExecutionMirrors.DeliveryMirrored | internal/usecase/workflow_execution_service.go:358-386 | the same of deliveries: queued iff pending or retrying, running iff delivering, succeeded iff delivered, failed iff failed |
| ExecutionMirrors.MirroredAgain | internal/usecase/workflow_execution_service.go:330-417 | a row that says what its task is like is passed over by every call, at any later time |
| ExecutionMirrors.DeliveryMirroredAgain | internal/usecase/workflow_execution_service.go:358-417 | the same of deliveries |
| ExecutionMirrors.MissingPassedOver | internal/usecase/workflow_execution_service.go:330-369 | a deleted task and missing work are passed over |
| ExecutionMirrors.StepOnlyAdds | internal/usecase/workflow_execution_service.go:564-592 | a step of a call leaves all outside work as it is, and what it adds waits for its first attempt |
| ExecutionBacking.StrandedNeverSucceeds | internal/usecase/workflow_execution_service.go:360-392 | a webhook node whose delivery is delivering with no worker at it does not succeed in any continuation |
| ExecutionBacking.DeletedNeverSucceeds | internal/usecase/workflow_execution_service.go:330-356 | nor does a task node whose task is deleted before anybody has mirrored its completion |
| TaskLease.DeletedForever | internal/storage/postgres/postgres_storage.go:342-355 | a deleted task never changes again |
| ExecutionTruth.NextHonest | internal/usecase/workflow_execution_service.go:312-598 | one event keeps this of every stored row and of every copy a call still holds |
| ExecutionTruth.MirroredHonest | internal/usecase/workflow_execution_service.go:330-392 | what mirroring wants to store is true of the work it looked at |
| AdvanceExecution.Advance | internal/usecase/workflow_execution_service.go:239-310 | a finished call, run undisturbed, is a run of the step machine from where it started, so every property of runs holds of it |
| AdvanceExecution.WorkflowExecutionService.AdvanceExecution | internal/usecase/workflow_execution_service.go:277-309 | on a sound definition of triggers and conditions, from any state whose nodes are pending or settled, ends succeeded after at most pending + 1 rounds; always stops within nodes + 2 |
| AdvanceExecution.WorkflowExecutionService.RunRounds | internal/usecase/workflow_execution_service.go:277-309 | the loop, with one pending node fewer after every round |
| AdvanceExecution.WorkflowExecutionService.RunRound | internal/usecase/workflow_execution_service.go:278-307 | one round settles one node or finishes |
| AdvanceExecution.WorkflowExecutionService.BeginExecution | internal/usecase/workflow_execution_service.go:243-275 | stops on a finished execution, marks a pending one running |
| AdvanceExecution.WorkflowExecutionService.ReconcileExternalNodes | internal/usecase/workflow_execution_service.go:312-420 | steps through the listed rows as the machine does; without external work changes nothing |
| AdvanceExecution.WorkflowExecutionService.ReconcileNode | internal/usecase/workflow_execution_service.go:323-417 | mirrors one row or recovers a stale claim |
| AdvanceExecution.WorkflowExecutionService.ScheduleRunnableNodes | internal/usecase/workflow_execution_service.go:422-479 | tries nodes in order until one is claimed; passes only if none is ready |
| AdvanceExecution.WorkflowExecutionService.TryNode | internal/usecase/workflow_execution_service.go:441-476 | one node: readiness, claim, then skip or execute |
| AdvanceExecution.WorkflowExecutionService.ExecuteClaimedNode | internal/usecase/workflow_execution_service.go:530-598 | executes a claimed node and stores its row, or fails the node and the execution |
| AdvanceExecution.WorkflowExecutionService.RunNode | internal/usecase/workflow_execution_service.go:542-597 | the row an executed node gets, by kind |
| AdvanceExecution.WorkflowExecutionService.CreateTask | internal/usecase/workflow_dispatchers.go:24-59 | creates the task of a node or finds the one it has |
| AdvanceExecution.WorkflowExecutionService.FailClaimedNode | internal/usecase/workflow_execution_service.go:600-616 | fails the execution whether or not the failed row could be stored |
| AdvanceExecution.WorkflowExecutionService.FinalizeExecutionIfComplete | internal/usecase/workflow_execution_service.go:653-693 | succeeds the execution if every row read is settled |
| AdvanceExecution.WorkflowNodeReadiness | internal/usecase/workflow_execution_service.go:481-528 | the edge loop computes the readiness that the machine uses |
| AdvanceExecution.JudgeEdges | internal/usecase/workflow_execution_service.go:481-528 | the loop over incoming edges stops at the first undecided one and otherwise needs one active edge |
| AdvanceExecution.CalmReady | internal/usecase/workflow_execution_service.go:481-528 | with nothing in flight on a sound definition, nothing is ready only if nothing is pending |
| Validation.ValidateWorkflowDefinition | internal/usecase/workflow_validation.go:13-216 | reports exactly the faults a document has, absent arrays among them; accepts it if and only if its definition is sound and its edge keys are distinct |
| Validation.ValidateDefinition | internal/usecase/workflow_validation.go:28-216 | reports exactly the faults a definition has, for all definitions |
| Validation.AcceptedIffSound | internal/usecase/workflow_validation.go:13-216 | a definition has no fault if and only if it is sound (ids, kinds, configs, references, degrees, reachability, no cycle) and its edge keys are distinct |
| Validation.ExactWithoutNul | internal/usecase/workflow_validation.go:110-115 | for ids without NUL, accepted if and only if sound |
| Validation.NulCollision | internal/usecase/workflow_validation.go:110-115 | a sound definition with NUL in its ids that the validator rejects: two different edges share one key |
| Validation.PairKeyInjective | internal/usecase/workflow_validation.go:110 | the edge key tells pairs apart when sources hold no NUL |
| Validation.CheckNodes | internal/usecase/workflow_validation.go:28-82 | per-node faults and the index of first occurrences |
| Validation.CheckEdges | internal/usecase/workflow_validation.go:84-133 | per-edge faults; adjacency, incoming and degree counts are those of the resolved edges |
| Validation.CheckDegrees | internal/usecase/workflow_validation.go:135-146 | trigger-entry and isolation faults |
| Validation.CheckReachability | internal/usecase/workflow_validation.go:148-178 | unreachable-node faults, exactly |
| Validation.Search | internal/usecase/workflow_validation.go:160-169 | the queue loop finds exactly the nodes reachable from its roots |
| Validation.Visit | internal/usecase/workflow_validation.go:188-204 | three-colour search: reports only real cycles, and otherwise ranks every node it finished |
| Validation.FindCycle | internal/usecase/workflow_validation.go:185-212 | cyclic if and only if the graph has a cycle |
| Graphs.AcyclicIffRanked | internal/usecase/workflow_validation.go:180-212 | no cycle if and only if some rank grows along every edge |
| Graphs.FedSetHasCycle | internal/usecase/workflow_validation.go:180-212 | a finite set in which everything has a predecessor holds a cycle upstream of each member |
| Ordering.TopologicalNodeIDs | apps/dashboard/src/lib/workflow-execution-model.ts:60-92 | a permutation of the distinct ids: first the nodes clear of cycles, each the least whose predecessors are placed, then those on or after a cycle, sorted |
| Ordering.OrderedUnique | apps/dashboard/src/lib/workflow-execution-model.ts:60-92 | that specification has only one solution |
| Ordering.AcyclicOrder | apps/dashboard/src/lib/workflow-execution-model.ts:78-89 | in an acyclic graph every edge points forward and the whole order is greedy |
| Ordering.PlacedClear | apps/dashboard/src/lib/workflow-execution-model.ts:78-89 | a placed node is neither on nor after a cycle |
| Ordering.StuckDownstream | apps/dashboard/src/lib/workflow-execution-model.ts:90-91 | a node left over is on or after a cycle |
| Ordering.PlaceNext | apps/dashboard/src/lib/workflow-execution-model.ts:79-88 | one turn of the loop: the least ready id is placed and exactly the nodes it frees become ready |
| Ordering.CountEdges | apps/dashboard/src/lib/workflow-execution-model.ts:62-73 | incoming counts and sorted targets of the known edges, with multiplicity |
| Broker.BrokerRefinesPriorityQueue | internal/broker/redis/redis_broker.go:24-110 | for every sequence of operations with the counter at most 10^12 the broker answers exactly like a list that serves the highest priority first and, within it, the member scored earliest; scores are distinct and below 2^53 |
| Broker.FirstIsNext | internal/broker/redis/redis_broker.go:80-86 | the lowest score belongs to the earliest entry of the highest priority |
| Broker.ScoreOrder | internal/broker/redis/redis_broker.go:75 | comparing scores is comparing priorities, then sequence numbers |
| Broker.PlacedInEveryRun | internal/broker/redis/redis_broker.go:88-213 | if callers enqueue only absent tasks and settle only processing ones, each member is always in at most one set and has a stored priority in 0..9 iff it is in one |
| Broker.MovesConserve | internal/broker/redis/redis_broker.go:88-213 | dequeue, both nacks and batched promotion conserve members and priorities |
| Broker.PromoteEachTakes | internal/broker/redis/redis_broker.go:100-108 | promotion removes exactly the promoted members from the delayed set |
| Broker.PromotedIffDue | internal/broker/redis/redis_broker.go:97-110 | promotion takes a delayed member only if it is due, takes every due one if fewer than 100 were promoted, and leaves none behind that was due before one it took |
| Broker.DueIsDue | internal/broker/redis/redis_broker.go:98 | the due members in order, up to the limit, stated without the way they are found |
| Broker.DroppedSplits | internal/broker/redis/redis_broker.go:219-229 | removing a dead letter keeps every other one, as often and in the order it was there |
| Broker.Clamp | internal/broker/redis/redis_broker.go:231-239 | the priority lands in 0..9 and is kept if it was there |
| RedisBroker.ZRangeFirst | internal/broker/redis/redis_broker.go:81 | finds the member of least score |
| RedisBroker.ZRangeDue | internal/broker/redis/redis_broker.go:98 | finds the due members in score order, up to the limit |
| RedisBroker.RedisBroker.PromoteDueDelayed | internal/broker/redis/redis_broker.go:97-110 | promotes up to 100 due members, in order |
| Rebuild.RedisRebuilder.Rebuild | internal/usecase/redis_rebuild.go:28-66 | for any table and any prior broker content: ends, handles every pending undeleted task exactly once and in id order, leaves each in exactly one of pending and delayed of its scope and in no other set, moves nothing else; scanned = pending + delayed |
| Rebuild.RebuildTwice | internal/usecase/redis_rebuild.go:28-66 | a second run at the same times handles the same tasks and leaves every member of every scope where the first put it |
| Rebuild.ListDispatchableTasks | internal/storage/postgres/postgres_storage.go:491-511 | the next page above a cursor, ascending, missing nothing |
| Rebuild.NextPage | internal/usecase/redis_rebuild.go:31-65 | a page extends the scan without gap or overlap, and a short page completes it |
| Rebuild.ReplacedInPlace | internal/usecase/redis_rebuild.go:42-56 | clearing and enqueuing again puts a task in place, whatever was there |
| Rebuild.RedisRebuilder.RebuildPage | internal/usecase/redis_rebuild.go:40-61 | one page |
| TaskLease.LeaseAlwaysFits | internal/storage/postgres/postgres_storage.go:94-271 | in every run a row is locked iff it is processing, and then becomes visible one timeout after its last claim or heartbeat |
| TaskLease.TakeoverOnlyAfterTimeout | internal/storage/postgres/postgres_storage.go:94-132 | a claim over an existing lease comes strictly after the last claim or heartbeat plus the timeout |
| TaskLease.WithinBudgetIffSafe | internal/storage/postgres/postgres_storage.go:94-192 | the exact condition, for every run: in all its states attempts stay within the budget plus the leases lost since the last requeue and dead_letter implies attempts >= max_attempts, if and only if no pending row is claimed that has used all of these, and no copy out of attempts dead-letters a row that is not |
| TaskLease.SparesAttemptIffHarmless | internal/storage/postgres/postgres_storage.go:149-192 | the same for the budget together with a spare attempt for every pending row: if and only if every failure reported on a processing row is harmless (the copy is out of attempts only if the row is, and has some left only if the row may use another) |
| TaskLease.BudgetStep | internal/storage/postgres/postgres_storage.go:94-192 | one step from within the budget stays within it if and only if it is safe |
| TaskLease.StatusMoves | internal/storage/postgres/postgres_storage.go:94-355 | in every run a status changes only along the moves of a task: claim, outcome, expiry, requeue, cancellation of a waiting task; a deleted row not at all |
| TaskLease.RetryWaits | internal/storage/postgres/postgres_storage.go:94-177 | in every run a task returned with a delay, and pending since, is claimed by a claim if and only if the delay has passed (and it was not deleted) |
| TaskLease.ReturnsAtOnce | internal/storage/postgres/postgres_storage.go:197-271 | a reclaimed or requeued task can be claimed at once; a requeued one has all its attempts before it |
| TaskLease.BeatIffLatest | internal/storage/postgres/postgres_storage.go:134-147 | a heartbeat prolongs the lease to one timeout from now if and only if the row is processing and the latest claim is by the same worker |
| TaskLease.FencedRunsStayWithinBudget | internal/engine/engine.go:57-156 | if only the latest claimant writes outcomes, every failure is harmless, and the budget and the spare attempt hold |
| TaskLease.TimelyRunsStayWithinBudget | internal/engine/engine.go:57-156 | workers that act only while their own lease covers the moment need no such assumption: their outcomes are always the latest claimant's |
| TaskLease.StaleOutcomeBreaksBudget | internal/storage/postgres/postgres_storage.go:149-192 | an unsafe run: a stale outcome dead-letters a task after one of two attempts |
| TaskLease.StaleReturnBreaksBudget | internal/storage/postgres/postgres_storage.go:149-192 | another: a stale outcome returns a task that has used both attempts, within the budget until it is claimed a third time |
| TaskLease.CompletedForever | internal/storage/postgres/postgres_storage.go:149-162 | completed is never left, whoever acts |
| TaskLease.TaskStorage.ReclaimExpired | internal/storage/postgres/postgres_storage.go:197-247 | returns the expired processing rows of one scope to pending, longest expired first, up to the limit, and touches no other |
| Engine.Engine.Execute | internal/engine/engine.go:57-85 | settles the row and then the message of the task, and nothing else, if and only if the row is still processing; row and message then agree: no message after completion, the head of the dead letters after dead-lettering, otherwise in one set only with its priority, delayed to exactly the time the row is visible if that is later than now and in line if not, so that whoever takes it finds a row to claim |
| Engine.NextBackoff | internal/domain/job.go:28-37 | the loop returns the first delay times multiplier^attempt, or the cap if a product on the way passes it |
| Engine.ExponentialIsCapped | internal/domain/job.go:28-37 | for multipliers of at least one that is the smaller of the product and the cap |
| Engine.Engine.HandleFailure | internal/engine/engine.go:113-156 | dead-letters row and message when the copy is out of attempts, otherwise returns both after the delay of the strategy and marks the row dispatched; they agree as above |
| Engine.OutcomeFits | internal/engine/engine.go:57-156 | that agreement, for every row, copy, delay and placed broker state |
| Engine.DelayGrows | internal/engine/engine.go:205-218 | with one more attempt the fixed delay stays, the linear one grows by the first delay and the exponential one does not shrink, up to the cap |
| WebhookDelivery.DeliveriesFit | internal/storage/postgres/webhook_repository.go:334-438 | in every run of any number of workers, crashes and manual retries: 0 <= attempts <= max, retrying has attempts left and is due exactly the capped delay after its last attempt, failed has spent its budget, a delivering row has at most one holder, whose copy equals the row |
| WebhookDelivery.UpdateLosesNothing | internal/storage/postgres/webhook_repository.go:389-407 | the unguarded update overwrites exactly what its holder read, as a compare-and-set would |
| WebhookDelivery.Backoff | internal/usecase/webhook_delivery_worker.go:175-187 | the loop returns min(initial * 2^(attempt-1), max) in 64 bits, no value on the way above both settings |
| WebhookDelivery.StepFits | internal/storage/postgres/webhook_repository.go:334-438 | each event keeps the delivery invariant |
| WebhookDelivery.AttemptsWait | internal/storage/postgres/webhook_repository.go:334-376 | in every run an attempt on a delivery to be retried comes no earlier than the capped delay after the last one, a scheduled one no earlier than scheduled, and none goes over the budget |
| WebhookDelivery.DeliveredIffAnswered | internal/usecase/webhook_delivery_worker.go:72-155 | an attempt ends delivered iff the endpoint was found and active, its secret decrypted, and it answered 200 to 299; its answer is kept whenever there was one, and an error unless delivered |
| WebhookDelivery.ResultsFit | internal/usecase/webhook_delivery_worker.go:72-155 | in every run a delivered row shows such an answer and no error, a failed or retrying one an error and no such answer |
| WebhookDelivery.RetryIsDue | internal/storage/postgres/webhook_repository.go:409-438 | after a manual retry the delivery can be claimed at once, with its whole budget |
| WebhookDelivery.DeliveredForever | internal/storage/postgres/webhook_repository.go:334-438 | a delivered row never changes again |
| WebhookDelivery.StrandedForever | internal/storage/postgres/webhook_repository.go:334-376 | a delivering row without a holder is unchanged in every continuation: nothing reclaims it |
| WebhookDelivery.HeldIffCanChange | internal/storage/postgres/webhook_repository.go:334-407 | exactly a holder keeps it alive: in every state of every run some event can change a delivering row if and only if a worker holds it |
| WebhookDelivery.CrashStrands | internal/storage/postgres/webhook_repository.go:334-376 | a run that strands any given delivery: claim, then crash |
| WebhookDelivery.DeliveryRepository.ClaimDueWebhookDeliveries | internal/storage/postgres/webhook_repository.go:334-376 | claims the due rows, soonest first, up to the limit |
| WebhookDelivery.WebhookDeliveryWorker.ProcessDue | internal/usecase/webhook_delivery_worker.go:57-70 | undisturbed, one call settles every delivery it claimed and no other |
| WebhookDelivery.WebhookDeliveryWorker.Process | internal/usecase/webhook_delivery_worker.go:72-118 | records the outcome of one attempt, whichever of its steps failed, with response code, body and message |
| WebhookDelivery.WebhookDeliveryWorker.RecordFailure | internal/usecase/webhook_delivery_worker.go:120-155 | fails or reschedules, keeping response and message |
| WebhookDelivery.WebhookDeliveryWorker.constructor | internal/usecase/webhook_delivery_worker.go:32-55 | fills in the default of every setting that is not positive |
| Dispatch.SameKeySameRow | internal/usecase/service.go:51-96 | in every interleaving: callers of one key and fingerprint get the same row, of different fingerprints never both get it, and only one created it |
| Dispatch.OneRowPerKey | internal/storage/postgres/postgres_storage.go:41-63 | at most one row per key, ever |
| Dispatch.UnkeyedAlwaysNew | internal/storage/postgres/postgres_storage.go:47 | an empty key is stored as NULL and never deduplicates: sharing is exactly for keyed requests |
| Dispatch.RunFits | internal/storage/postgres/workflow_execution_repository.go:40-112 | the protocol invariant; a caller is refused only if the id it drew was in use |
| Dispatch.Service.GetOrCreate | internal/usecase/service.go:51-96 | one caller against any number of inserts by others between its steps |
| Dispatch.FinishesAtOnce | internal/usecase/service.go:51-96 | find, insert and find again act like one step: in every interleaving the step with which a caller finishes is an atomic get-or-create on the table it meets, and no other step changes the table |
| Dispatch.SameTaskIffSameNode | internal/usecase/workflow_dispatchers.go:24-59 | in every interleaving two answered node dispatches share a task if and only if they are for the same node of the same execution |
| Dispatch.SameDeliveryIffSameNode | internal/usecase/workflow_dispatchers.go:97-130 | the same of deliveries |
| WorkflowDispatch.TaskDispatchIsOneStep | internal/usecase/workflow_dispatchers.go:24-59 | an atomic get-or-create under a node's key never conflicts, answers the task that the executor's step links, and keeps the task table and the executor's tasks in agreement |
| WorkflowDispatch.DeliveryDispatchIsOneStep | internal/usecase/workflow_dispatchers.go:97-130 | the same of deliveries: exactly the node's delivery is added, or was there |
| Dispatch.NodeTaskKeyInjective | internal/usecase/workflow_dispatchers.go:48 | task keys are equal iff queue, execution and node are, for 36-character execution ids |
| Dispatch.NodeDeliveryKeyInjective | internal/usecase/workflow_dispatchers.go:117-120 | with injective name-based UUIDs, delivery ids are equal iff execution and node are |
| Publishing.VersionsNumberedForever | internal/storage/postgres/workflow_repository.go:172-189 | in every run versions are exactly 1..n and a stored snapshot never changes |
| Publishing.AcceptedIffNeverSlips | internal/storage/postgres/workflow_repository.go:145-213 | the exact condition, for every run: all snapshots ever stored passed validation if and only if no publication meets, under the stamp of the content it validated, another content that validation rejects |
| Publishing.SnapshotsAccepted | internal/storage/postgres/workflow_repository.go:145-213 | so if different contents never share a stamp, every stored snapshot passed validation |
| Publishing.SnapshotsSound | internal/usecase/workflow_service.go:151-172 | and is therefore a sound definition, numbered by its position |
| Publishing.PublishedIsLatest | internal/usecase/workflow_service.go:131-172 | in every run that starts from a draft, a row that says published has the content of the latest version |
| Publishing.EditBehindValidation | internal/storage/postgres/workflow_repository.go:168-170 | a run that slips, for all accepted and rejected definitions and all times: an edit between validation and publication, stored iff its stamp repeats the validated one |
| Publishing.WorkflowService.PublishWorkflow | internal/usecase/workflow_service.go:151-172 | undisturbed, stores a snapshot exactly when the row exists, is not archived, and its definition is sound with distinct edge keys |
| Publishing.WorkflowRepository.PublishWorkflow | internal/storage/postgres/workflow_repository.go:145-213 | the transaction and its refusals |
| TokenBucket.BoundIffMinuteFills | internal/broker/redis/rate_limiter.go:28-56 | in every window of every sequence of calls in order the grants stamped inside are at most burst + rate * window, if and only if 60 * rate >= burst |
| TokenBucket.GrantedIffFits | internal/broker/redis/rate_limiter.go:43-53 | for calls in order, where a minute fills the bucket: a call is granted if and only if granting it keeps every stretch of calls that ends with it within burst + rate * length |
| TokenBucket.FittingGranted | internal/broker/redis/rate_limiter.go:43-53 | and such a call is granted for every rate and burst |
| TokenBucket.TokensConserved | internal/broker/redis/rate_limiter.go:43-53 | while the bucket is not full, tokens left plus calls granted are tokens at the start plus rate * time |
| TokenBucket.RefusedMeansSpent | internal/broker/redis/rate_limiter.go:43-53 | a refusal means the calls granted since exceed the level at the start plus rate * time, less one, unless the bucket was full in between |
| TokenBucket.BurstAfterSilence | internal/broker/redis/rate_limiter.go:43-53 | after burst / rate seconds of silence a whole burst of calls is granted |
| TokenBucket.WindowBound | internal/broker/redis/rate_limiter.go:43-53 | the bound, across key expiry, when a minute fills the bucket |
| TokenBucket.TokensInRange | internal/broker/redis/rate_limiter.go:43-50 | tokens stay within 0 and burst, for times in any order |
| TokenBucket.AnyOrderBoundedIffEmpty | internal/broker/redis/rate_limiter.go:43 | with stamps in any order the bound holds if and only if the burst is 0 |
| TokenBucket.RewindRefillsTwice | internal/broker/redis/rate_limiter.go:43 | for every positive rate and burst: burst calls at 1 s, one stamped 0 s and one at 1 s get burst + 1 grants at one instant |
| TokenBucket.GainIsProduct | internal/broker/redis/rate_limiter.go:43 | the refill is rate times elapsed time |
| TokenBucket.TokenBucketLimiter.Allow | internal/broker/redis/rate_limiter.go:28-66 | the script on one key, after the key has expired or not |
| Recorder.RecorderConserves | internal/metrics/recorder.go:52-128 | in every interleaving: what was sent is what was handed over, then the batch, then the buffer, in order; batches hold at most max(1, BatchSize); dropped counts the failed attempts; when done, everything sent before stop was handed over |
| Recorder.ExactlyOnePlace | internal/metrics/recorder.go:52-61 | an event whose attempt is complete is in exactly one of dropped, buffered, batch and handed over |
| Recorder.DoneForever | internal/metrics/recorder.go:113-125 | after done nothing more is handed over; what is left was sent after the drain saw the channel empty |
| Recorder.BufferedRecorder.Drain | internal/metrics/recorder.go:113-125 | the stop branch ends although producers still finish beside it, with everything sent before handed over |
| Recorder.BufferedRecorder.Receive | internal/metrics/recorder.go:106-110 | takes one event, flushing a full batch |

## Left out

- Errors of Postgres, Redis and the network, and error codes of the API: every storage
  or broker call is one atomic step that succeeds or is refused by its guard.
- HTTP handlers, streaming, authentication, the React pages and the editor.
- Encryption, signatures, hashing and JSON encoding. Request fingerprints are plain
  values and name-based UUIDs (section 5.5 of RFC 9562) an injective function; a string
  holds one character per byte, and surrounding blanks are taken as already trimmed.
- For an executed definition with repeated node ids the first node counts; published ones
  have none.
- `started_at`, `updated_at`-only touches of executions, and metric events.
- The choice of executions to reconcile, paging of lists, slugs and names.
- Blocking of the dequeue, and the choice between scopes by the worker pool.
- AdvanceExecution.WorkflowExecutionService.BeginExecution: the lookup of the version and
  its mismatch error; the definition is that of the execution's version, and a call that
  ends there takes no further step.
- ExecutionRounds.UndisturbedCallStarts: the exact number is for definitions of one trigger
  with tasks behind it; the bound holds for every definition.
- ExecutionRaces.LateSkipChangesMeaning: rows are listed in the order of the chain, as they
  are if its ids are sorted.
- Conditions.EvaluateWorkflowCondition: the input is decoded already, and a field is taken
  as trimmed; numbers are real numbers.
- Engine.NextBackoff: real numbers in place of floating point, and a first delay and cap
  that are not negative; the linear delay does not overflow.
- Engine.Engine.Execute: the handler and its time limit are one answer, and a broker call
  after a stored outcome does not fail; published task events are not modelled.
- Dispatch.Service.GetOrCreate: storage only; the enqueue and dispatch mark that follow
  are not modelled, and a delivery's organisation is taken to follow from its execution.
- TokenBucket.TokenBucketLimiter.Allow: tokens and times are real numbers, and rate and
  burst are not negative.
- Recorder.BufferedRecorder.Close: does not model the wait for `done` or its timeout.
- Rebuild.RedisRebuilder.Rebuild: workers are stopped meanwhile, as its documentation
  asks; the nil id is never listed.
