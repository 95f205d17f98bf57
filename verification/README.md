# NexusFlow: the execution protocol, verified

NexusFlow is a durable workflow engine. Three kinds of rows (workflow, task, attempt) are moved by about twenty
conditional-update transactions; HTTP handlers, a scheduler, a drain procedure and a startup-recovery engine compose
them without locks. This project models that protocol in Dafny and proves what it keeps, over every interleaving.

How it is built, bottom up:

- `Json`, `Graph`, `Spec`, `Normalizer`, `Validator`, `GraphBuilder`, `Codec`: the definition pipeline, from a document
  to a validated specification and to its stored form and back. The loops of the source are methods proved exact.
- `Rows`, `Transactions`: the tables as a value `Db`, and what each `commit_*` does to it as a function. A function
  takes the databases its guards were read from apart from the one its write lands on: under READ COMMITTED a guard
  may be stale when the UPDATE is evaluated. An early return keeps what was written before it.
- `Invariant`, `Preservation`, `Settlement`, `WorkflowMoves`: the invariant `Inv`, the evolution order `Evolves`, and
  that each transaction keeps both.
- `Protocol`: runs. A run is a sequence of databases and steps; a step names its transaction and the earlier databases
  its caller and its guards read. `Enabled` says only what the real callers do: what they look at, and in which order.
- `Effects`: what each transaction does to which rows when it does anything, column by column, of every step of every
  run; written out without the functions it is about.
- `Ownership`, `Outcomes`, `Causality`, `SuccessOrder`, `Audit`, `Progress`, `Fencing`, `RetryPolicy`, `Execution`:
  theorems about all runs. `SplitSettlement`: settlements with others committing between their two statements.
  `Witness`: runs that exist. `EarlyCancellation`: executions cancelled before their tasks exist.
- `Steps`, `Store`: the tables as mutable fields and one method per `commit_*`, each proved to do what its function
  says. The store carries its run as a ghost log; every commit extends it by its step, enabled, and so do the commits
  of others, which may come wherever `Others()` stands. A store created `quiet` has no other callers.
- `Registry`, `Promotion`, `Drain`, `Scheduler`, `Callbacks`, `Executions`, `RecoveryPhases`, `Recovery`: the callers,
  as methods over the store. Each ensures `Continues`: the log goes on by enabled steps, whatever others do, so that
  the theorems about runs hold of the store afterwards (`Guarantees`). And each says what it achieves undisturbed.
- `Quiescence`: when the scheduler owes a workflow nothing. `AllQuiescent` is kept by every API method and both sweeps,
  and an empty store has it. `Served` adds what an advance at a given time leaves: no due retry, and no RUNNABLE task
  an eligible session could take.

What the proofs brought out about the code:

- The order of reads in `report_callback` (attempt, then task) is what makes settlement both-or-neither. With the
  other order the early return after the first UPDATE would be reachable (`Fencing.TaskReadBeforeClaimIsStale`,
  `Fencing.SettlementNeedsCurrentRevision`).
- `Served` is not kept as time goes by: a due retry is woken only by the next advance of its workflow, and a RUNNABLE
  task is offered to a new session only then. Advances come from starts, from successes and from startup recovery;
  nothing in `src` calls the two sweeps.
- No statement ever writes `execution_timeout_utc`, so `EXECUTION_TIMEOUT` never fires (`Scheduler.NothingTimesOut`).
  The docstring of `sweep_timeouts_and_deadlines` also announces cancellation deadlines, which only the drain handles.
- `drain_workflow` returns nothing, so recovery's phase 2 never counts a mutation; phases 6 and 7 return 0.
- A RUNNING workflow with a FAILED task, left so between the two commits of a sweep, is not turned to FAILING by an
  advance (`Quiescence.Served`); recovery turns it only once all its tasks are terminal
  (`RecoveryPhases.TerminalizeOne`).
- Recovery's phase 8 gives a workflow that SUCCEEDED the empty object as output, which is never what an advance would
  have committed (`RecoveryPhases.RecoveredOutputDiffers`).
- Recovery's phase 1 writes without a condition. That is safe if and only if the row has not gone past RUNNING since
  it was read (`WorkflowMoves.RepairInitializingPreserves`); recovery runs before traffic for that.
- Taken one by one, the transactions let an execution be cancelled before it has tasks. It then stays CANCELLING until
  a population whose guard is older than the cancellation commits, and for ever if none does
  (`EarlyCancellation.EarlyCancellationAwaitsPopulation`; such a run: `Witness.EarlyCancellationEnds`). The API does
  not get there:
  `start_execution` makes creation, population and completion visible together
  (`EarlyCancellation.StartedHaveTheirTasks`).
- An internal failure with a cause code outside the engine's three is not fenced on a terminal attempt
  (`Fencing.UnknownCodeIsNotFenced`, both directions).
- Validation lets a blank `workflow_name` through (`Executions.BlankNamePassesValidation`). What stops it is the
  table's CHECK constraint alone, as an error the handler does not catch; the loader would refuse an empty name
  (`Codec.EmptyNameIsNotReadBack`).
- The cycle message names tasks that are only downstream of a cycle (`GraphBuilder.DownstreamOfCycleIsReported`).
- An empty candidate reports `EMPTY_WORKFLOW` alone, also when its output bindings are dangling.

## Model

| member | source | states |
|---|---|---|
| Protocol.RunsAreSound | src/nexusflow/persistence/transactions.py:60-1755 | every database of every interleaved run, however stale the reads and guards of its callers, satisfies the invariant Inv, and each evolved into the later ones (nothing deleted, terminal rows final, revisions monotone) |
| Protocol.StepAdvances | src/nexusflow/persistence/transactions.py:60-1755 | one transaction of any caller keeps the invariant and is an evolution step, whatever earlier databases its guards saw |
| Protocol.SettlementBothOrNeither | src/nexusflow/persistence/transactions.py:663-709 | in every sound history a settlement by a caller that read the attempt no later than its task writes both rows or neither, so the early return after the first UPDATE is never taken with that UPDATE done |
| Effects.StepsDoAsNamed | src/nexusflow/persistence/transactions.py:60-1755 | in every run each step changes nothing or has the effect of the transaction it names, written out apart from the model of that transaction: who may act, in which states of the rows and which state its guard read, what every column becomes (worker, deadline, cause, retry instant, ordinal, revision), and the one history entry |
| Effects.OnlyOwnersAct | src/nexusflow/persistence/transactions.py:576-603 | in every run a start, success, failure or acknowledgement changes something only if the attempt it names was given to the worker it comes from and is CLAIMED or RUNNING |
| SplitSettlement.SplitWritesBothRows | src/nexusflow/persistence/transactions.py:663-709 | statement by statement: once the UPDATE of the attempt has matched, the UPDATE of the task matches on whatever others have committed to other rows since, so both rows are written and the invariant is kept |
| Settlement.ActiveAttemptPinsTask | src/nexusflow/interfaces/http/routes/worker.py:266-289 | an attempt that is still active pins its task: at every earlier moment at which the attempt existed the task was RUNNING with the very row it has now |
| Settlement.TaskSuccessSettles | src/nexusflow/persistence/transactions.py:648-709 | under the pinned revision, a success writes attempt and task or nothing |
| Settlement.FailureWithRetrySettles | src/nexusflow/persistence/transactions.py:847-908 | the retry budget the caller saw is the one the UPDATE tests, so the retry predicate cannot fail after the attempt was written |
| Settlement.DefinitiveFailureSettles | src/nexusflow/persistence/transactions.py:936-985 | under the pinned revision, a definitive failure writes attempt and task or nothing |
| Settlement.CancellationAckSettles | src/nexusflow/persistence/transactions.py:1206-1268 | a cancellation acknowledgement guarded by a possibly stale draining state writes both rows or nothing, and cancels only under a workflow that is draining or terminal |
| Settlement.CancellationDeadlineSettles | src/nexusflow/persistence/transactions.py:1295-1357 | the internal cancellation deadline writes both rows or nothing |
| Settlement.InternalFailureSettles | src/nexusflow/persistence/transactions.py:1391-1508 | an internal failure with one of the engine's three cause codes writes both rows or nothing, whichever of RETRY_WAIT and FAILED it chooses |
| Settlement.SettlementPreserves | src/nexusflow/persistence/transactions.py:635-724 | any write of an attempt together with its task keeps the whole invariant |
| Preservation.ClaimPreserves | src/nexusflow/persistence/transactions.py:463-560 | a claim with stale guards keeps the invariant and is an evolution step |
| Preservation.ReadinessPreserves | src/nexusflow/persistence/transactions.py:398-456 | promoting a task with an input resolved over an older snapshot keeps the invariant, in particular that the input is what the bindings resolve to now |
| Preservation.RetryReadyPreserves | src/nexusflow/persistence/transactions.py:1526-1575 | waking a retry keeps the invariant |
| Preservation.DrainCancelPreserves | src/nexusflow/persistence/transactions.py:1129-1189 | cancelling an unstarted task keeps the invariant although the draining state was read earlier |
| WorkflowMoves.MembershipPreserves | src/nexusflow/persistence/transactions.py:304-391 | the four transitions that compare the task set with the definition keep the invariant although row and task set are read before the write, because terminal task states are absorbing |
| WorkflowMoves.PopulatePreserves | src/nexusflow/persistence/transactions.py:234-296 | populating a workflow, also one that is CANCELLING by then, keeps the invariant |
| WorkflowMoves.FailureDirectionPreserves | src/nexusflow/persistence/transactions.py:1002-1061 | directing a workflow to FAILING keeps the invariant once some task of it FAILED |
| WorkflowMoves.CancellationDirectionPreserves | src/nexusflow/persistence/transactions.py:1068-1122 | directing a workflow to CANCELLING keeps the invariant |
| WorkflowMoves.RepairInitializingPreserves | src/nexusflow/orchestration/recovery.py:114-128 | recovery phase 1 writes RUNNING over a row read INITIALIZING with some task, without a condition: the write is an evolution step that keeps the invariant if and only if the row is still INITIALIZING or RUNNING |
| Invariant.ResolutionStable | src/nexusflow/domain/readiness.py:79-135 | what a snapshot resolved, every later database resolves to the same input |
| Witness.SomeRunSucceeds | src/nexusflow/persistence/transactions.py:76-824 | there is a run from the empty database in which a workflow is registered, created, populated, started, claimed, executed and SUCCEEDED, so the statements about runs are not vacuous |
| Witness.EarlyCancellationEnds | src/nexusflow/persistence/transactions.py:1068-1122 | there is a run that goes through CANCELLING without tasks and ends CANCELLED, by a population whose guard read INITIALIZING before the cancellation |
| Guarantees.StoreIsARun | src/nexusflow/persistence/transactions.py:60-1755 | of every store, after whatever its callers did: its history replays to its rows, its success entries are ordered, its workflow states mean what they should, and every commit of its log refines the domain transitions |
| Guarantees.TerminalSince | src/nexusflow/persistence/transactions.py:576-607 | since any earlier moment of a store, transactions naming an attempt terminal by then did nothing, and terminal workflows kept their rows and tasks |
| Guarantees.CommitsSince | src/nexusflow/persistence/transactions.py:1554-1559 | while a store's callers insert nothing, their commits since any earlier moment number at most the potential there was |
| Ownership.RunningIsOwned | src/nexusflow/persistence/transactions.py:491-542 | a task is RUNNING exactly when it has an active attempt; that attempt is unique and carries the last ordinal |
| Ownership.LedgerIsExact | src/nexusflow/persistence/transactions.py:505-541 | the attempts of a task carry exactly the ordinals 1 .. next_attempt_ordinal - 1, at most max_attempts of them; all but the last FAILED, and one SUCCEEDED exactly when the task did |
| Ownership.BudgetRemains | src/nexusflow/persistence/transactions.py:887-902 | a RUNNABLE or RETRY_WAIT task has had fewer attempts than max_attempts |
| Ownership.FailuresAgree | src/nexusflow/persistence/transactions.py:960-985 | in every run the failure on a FAILED task is that of its latest attempt |
| RetryPolicy.RetriesFollowPolicy | src/nexusflow/persistence/transactions.py:1455-1509 | in every run a committed internal failure leaves its task in RETRY_WAIT if and only if it is retryable with an instant given, its guard read the workflow RUNNING and the task row before the write has attempts left, and FAILED else; a worker's retry commits only in that case; and this is what evaluate_retry_eligibility answers about these rows |
| RetryPolicy.InternalFailureIsPolicy | src/nexusflow/domain/failure.py:26-45 | on the internal path RETRY_WAIT comes exactly of a retryable failure under a workflow read RUNNING with attempts left, and evaluate_retry_eligibility says so too |
| Ownership.SchemaAlwaysHolds | migrations/versions/20260909_0001_initial_schema.py:31-190 | the partial unique indexes and CHECK constraints of the schema hold in every database of every run |
| Ownership.ClaimNeverViolates | src/nexusflow/persistence/transactions.py:463-560 | in no interleaving does a claim under a fresh attempt id trip a uniqueness constraint |
| Outcomes.OutcomesAreSound | src/nexusflow/persistence/transactions.py:771-805 | in every run a terminal workflow has every declared task terminal and no active attempt; SUCCEEDED means all SUCCEEDED, FAILING and FAILED carry the failure of some FAILED task, and no task is CANCELLED under a RUNNING or SUCCEEDED workflow |
| Outcomes.TerminalIsFinal | src/nexusflow/persistence/transactions.py:1620-1648 | the row and the tasks of a terminal workflow never change again, and none is added |
| Outcomes.RepairTestIsMembershipTest | src/nexusflow/orchestration/recovery.py:114-128 | on every reachable database an INITIALIZING workflow has no task or exactly the declared ones, so recovery's test for any task agrees with the full membership test |
| Causality.InputsAreCausal | src/nexusflow/orchestration/scheduler.py:159-207 | in every run a task with an input has all declared dependencies SUCCEEDED with output, and each parameter is the value its binding has over the outputs stored now |
| Causality.NoDeadlock | src/nexusflow/domain/readiness.py:58-135 | a RUNNING workflow without FAILED tasks has all tasks SUCCEEDED, or a task that is RUNNABLE, RUNNING, in RETRY_WAIT, or PENDING with an input that resolves |
| Causality.EvaluatorAnswers | src/nexusflow/domain/readiness.py:58-135 | about any task row of any database of any run, with the workflow row of any earlier one, the readiness evaluator can only answer ready, workflow not running, task not pending or dependency not succeeded: never a missing dependency row, a missing output or a corrupt input |
| SuccessOrder.SuccessesAreOrdered | src/nexusflow/persistence/transactions.py:711-721 | in the history of every run each success entry of a task comes after success entries of all its declared dependencies |
| Audit.HistoryReplays | src/nexusflow/persistence/transactions.py:443-453 | folding the history of any run in commit order gives the current state of every task, attempt and workflow, the workflows started by recovery phase 1 apart, which writes no entry |
| Audit.StepLogged | src/nexusflow/persistence/transactions.py:544-557 | a step that changes nothing appends nothing, and what a step appends replays its state changes |
| Progress.WorkShrinks | src/nexusflow/persistence/transactions.py:429-435 | while no rows are added evolution never adds to the work left, and any change of a task or workflow takes from it |
| Progress.RevisionBound | src/nexusflow/persistence/transactions.py:513-519 | a task revision never passes 3 * max_attempts + 1, and every change of the row raises it |
| Progress.StepSpends | src/nexusflow/persistence/transactions.py:896-901 | every transaction that changes the database, the insertions and the drain's deadline write apart, strictly lowers the potential |
| Progress.CommitsAreBounded | src/nexusflow/persistence/transactions.py:1554-1559 | while no rows are added, the productive commits of any interleaving number at most the potential it started with |
| Fencing.TerminalAttemptIsFenced | src/nexusflow/persistence/transactions.py:576-607 | once an attempt is terminal, every later start, success, failure or cancellation naming it leaves the whole database unchanged, also while a later attempt of the same task runs |
| Fencing.DuplicateSuccess | src/nexusflow/persistence/transactions.py:664-683 | a repeated success callback changes nothing and is accepted exactly when its output equals the stored one |
| Fencing.UnknownCodeIsNotFenced | src/nexusflow/persistence/transactions.py:1415-1450 | an internal failure naming a terminal attempt at its current revision changes nothing if and only if its cause code is one of the three the engine uses |
| Fencing.SettlementNeedsCurrentRevision | src/nexusflow/persistence/transactions.py:635-985 | success, retry and definitive failure, once guards and attempt matched, write both rows if and only if the expected task revision is current; otherwise they leave a finished attempt on a RUNNING task |
| Fencing.EngineSettlementNeedsCurrentRevision | src/nexusflow/persistence/transactions.py:1196-1519 | the same for both cancellations and the internal failure |
| Fencing.TaskReadBeforeClaimIsStale | src/nexusflow/interfaces/http/routes/worker.py:266-289 | a caller that read the task before the attempt was claimed holds a revision the task no longer has |
| Store.Store.CommitRegisteredDefinition | src/nexusflow/persistence/transactions.py:76-140 | the new database is RegisterTx of the old one, and its log goes on by that step, enabled, and by those of others (as in every method of the store below) |
| Store.Store.CommitWorkflowCreation | src/nexusflow/persistence/transactions.py:148-227 | the new database is CreateTx of the old one: an INITIALIZING row at revision 1 and its history entry, or IntegrityError |
| Store.Store.CommitTaskPopulation | src/nexusflow/persistence/transactions.py:234-296 | a PENDING row for every declared task that has none, guarded by the state read, as PopulateTx says |
| Store.Store.CommitInitializationComplete | src/nexusflow/persistence/transactions.py:304-391 | INITIALIZING to RUNNING when row, revision and full task set match, as InitializationCompleteTx says, with possibly stale reads |
| Store.Store.CommitTaskReadiness | src/nexusflow/persistence/transactions.py:398-456 | PENDING to RUNNABLE with the stable input, as ReadinessTx says |
| Store.Store.CommitAttemptOwnership | src/nexusflow/persistence/transactions.py:463-560 | RUNNABLE to RUNNING with a CLAIMED attempt under the next ordinal, as ClaimTx says |
| Store.Store.CommitWorkerExecutionStart | src/nexusflow/persistence/transactions.py:567-628 | CLAIMED to RUNNING for the session the attempt belongs to, within the start deadline; a repeat by it is accepted without effect (its effect and when it is accepted: Effects.StepsDoAsNamed, Callbacks.AcknowledgeStart) |
| Store.Store.CommitWorkerTaskSuccess | src/nexusflow/persistence/transactions.py:635-724 | the two UPDATEs in sequence with the early return between them, and the duplicate test, as TaskSuccessTx says |
| Store.Store.CommitWorkflowSuccess | src/nexusflow/persistence/transactions.py:731-824 | RUNNING to SUCCEEDED with an output when every declared task is SUCCEEDED |
| Store.Store.CommitWorkerFailureWithRetry | src/nexusflow/persistence/transactions.py:831-922 | attempt FAILED and task to RETRY_WAIT within budget, under a workflow read RUNNING, as FailureWithRetryTx says |
| Store.Store.CommitWorkerDefinitiveFailure | src/nexusflow/persistence/transactions.py:925-995 | attempt and task FAILED for the cause reported, as DefinitiveFailureTx says (every column: Effects.StepsDoAsNamed) |
| Store.Store.CommitWorkflowFailureDirection | src/nexusflow/persistence/transactions.py:1002-1061 | RUNNING to FAILING with the cause, which is that of a task read FAILED; read and written under one row lock |
| Store.Store.CommitWorkflowCancellationDirection | src/nexusflow/persistence/transactions.py:1068-1122 | INITIALIZING or RUNNING to CANCELLING |
| Store.Store.CommitDrainTaskCancellation | src/nexusflow/persistence/transactions.py:1129-1189 | an unstarted task of a workflow read draining is CANCELLED |
| Store.Store.CommitWorkerCancellationAck | src/nexusflow/persistence/transactions.py:1196-1278 | attempt and task CANCELLED by their worker under a workflow read draining |
| Store.Store.CommitInternalCancellationDeadline | src/nexusflow/persistence/transactions.py:1285-1367 | attempt and task CANCELLED once the cancellation deadline has passed |
| Store.Store.CommitInternalAttemptFailure | src/nexusflow/persistence/transactions.py:1374-1519 | the filters the cause code selects, then RETRY_WAIT if the failure is retryable, the workflow was read RUNNING and attempts are left, and FAILED otherwise, as InternalFailureTx says (every column: Effects.StepsDoAsNamed) |
| Store.Store.CommitRetryReady | src/nexusflow/persistence/transactions.py:1526-1575 | a due RETRY_WAIT task becomes RUNNABLE |
| Store.Store.CommitWorkflowFailure | src/nexusflow/persistence/transactions.py:1582-1663 | FAILING to FAILED when every declared task is terminal |
| Store.Store.CommitWorkflowCancellation | src/nexusflow/persistence/transactions.py:1670-1755 | CANCELLING to CANCELLED when every declared task is terminal |
| Store.Store.CommitStartedExecution | src/nexusflow/interfaces/http/routes/executions.py:110-173 | creation, population and completion in one transaction: the three steps together, or nothing |
| Store.Store.SetCancellationDeadline | src/nexusflow/orchestration/scheduler.py:398-408 | the drain's unconditional write of the cancellation deadline |
| Store.Store.RepairInitializing | src/nexusflow/orchestration/recovery.py:122-126 | recovery phase 1's assignment to a workflow row by primary key alone, which leaves no history |
| Registry.WorkerRegistry.FindEligibleWorker | src/nexusflow/orchestration/registry.py:118-138 | returns a session whose heartbeat is not overdue, that accepts work and has the capability, and none if and only if there is no such session |
| Registry.WorkerRegistry.FindLostSessions | src/nexusflow/orchestration/registry.py:163-171 | returns exactly the registered sessions whose heartbeat is overdue |
| Readiness.EvaluateTaskReadiness | src/nexusflow/domain/readiness.py:58-135 | answers only with a reason the snapshot admits (MayAnswer); ready exactly when the bindings resolve over the SUCCEEDED dependencies; a dependency reason exactly when some dependency is not ready |
| Readiness.CheckDependencies | src/nexusflow/domain/readiness.py:79-110 | no reason if and only if every declared dependency SUCCEEDED with an output, and otherwise the reason of one that blocks |
| Readiness.ResolveWorkflowOutputs | src/nexusflow/domain/readiness.py:138-159 | an error exactly when some source has no output; otherwise None for no bindings, or exactly the bound outputs |
| Promotion.EvaluateAndPromote | src/nexusflow/orchestration/scheduler.py:159-207 | with others committing, the log goes on by enabled steps only, and the evaluator's answer is one of the four possible ones; undisturbed, a PENDING task whose dependencies are done becomes RUNNABLE and nothing else moves |
| Promotion.PromoteDueRetries | src/nexusflow/orchestration/scheduler.py:134-149 | undisturbed, no task of a RUNNING workflow is left in RETRY_WAIT past its deadline, and nothing but due retries moves |
| Promotion.DispatchRunnable | src/nexusflow/orchestration/scheduler.py:209-290 | undisturbed, every new attempt is of a task of the workflow that was RUNNABLE when dispatch began, belongs to a session eligible for its activity, and has the given start deadline; no RUNNABLE task of a RUNNING workflow is left that some session is eligible for |
| Promotion.AdvanceTasks | src/nexusflow/orchestration/scheduler.py:134-157 | undisturbed, the attempts an advance gives out are of tasks that were RUNNABLE, due for a retry or PENDING before it, with all dependencies done, and go to sessions eligible for their activity, with the start deadline the given time ahead; no due retry, no promotable task and no task an eligible session could take is left |
| Promotion.ClaimSucceeds | src/nexusflow/persistence/transactions.py:463-560 | on a sound database a RUNNABLE task of a RUNNING workflow can be claimed: none of the guards and constraints stands in the way |
| Promotion.TrySucceedWorkflow | src/nexusflow/orchestration/scheduler.py:292-313 | undisturbed, commits SUCCEEDED with exactly the outputs the bindings name; a missing source cannot occur |
| Scheduler.AdvanceWorkflow | src/nexusflow/orchestration/scheduler.py:69-157 | with others committing, the log goes on by enabled steps only; undisturbed, the workflow is left SUCCEEDED with its bound outputs if all tasks had SUCCEEDED, and otherwise served: no due retry, no RUNNABLE task an eligible session could take, nothing promotable unless a task FAILED; new attempts went to eligible sessions for tasks whose turn it was, with the start deadline given; a draining one is drained, any other untouched |
| Drain.DrainWorkflow | src/nexusflow/orchestration/scheduler.py:315-463 | with others committing, the log goes on by enabled steps only; undisturbed, unstarted tasks end CANCELLED, elapsed attempts and their tasks CANCELLED, other active attempts get a deadline, no attempt starts, and the workflow is terminal exactly when all its tasks are |
| Drain.DrainedRests | src/nexusflow/orchestration/scheduler.py:350-463 | after a drain the workflow is terminal or one of its tasks is still RUNNING |
| Drain.DrainSettlesIff | src/nexusflow/orchestration/scheduler.py:350-463 | an undisturbed drain settles its workflow if and only if the cancellation deadlines of all its active attempts have passed |
| Drain.DrainsSettle | src/nexusflow/orchestration/scheduler.py:350-463 | from any database of any run, two undisturbed drains settle a draining workflow that has its tasks, if the second comes ten seconds after the first and after every drain before: FAILED or CANCELLED, finished tasks unchanged, all others CANCELLED |
| Drain.DeadlinesWereSet | src/nexusflow/orchestration/scheduler.py:394-406 | in every run the cancellation deadlines lie at most ten seconds beyond the latest clock a drain has read |
| EarlyCancellation.TerminalCommitIff | src/nexusflow/persistence/transactions.py:1582-1755 | on a sound database the terminal commit of a draining workflow succeeds if and only if all declared tasks exist and are terminal, and does nothing otherwise |
| EarlyCancellation.EmptyCancellationIsRefused | src/nexusflow/persistence/transactions.py:1708-1736 | with stale guards as well, an execution without tasks is not settled: the membership test compares an empty set with a definition that declares tasks |
| EarlyCancellation.EarlyCancellationAwaitsPopulation | src/nexusflow/persistence/transactions.py:234-296 | in every run an execution that is CANCELLING without tasks ends CANCELLED only if a population of it commits in between, whose guard had read it INITIALIZING before the cancellation |
| EarlyCancellation.TasksComeFromPopulation | src/nexusflow/persistence/transactions.py:266-296 | a task row comes from a committed population of its workflow and from no other transaction |
| EarlyCancellation.StartedHaveTheirTasks | src/nexusflow/interfaces/http/routes/executions.py:110-173 | where creation and population commit together, as start_execution does it, every workflow past INITIALIZING has all its tasks, in every run |
| Scheduler.SettleFailure | src/nexusflow/orchestration/scheduler.py:488-515 | undisturbed, settles an internal failure whenever its cause still applies; then the attempt has FAILED for that cause, and its task waits for a retry until the instant given if its workflow was RUNNING and attempts were left, and has FAILED for that cause else, its workflow turned for it and drained; no other attempt does more than be cancelled or get a deadline ten seconds ahead; nothing is left owed |
| Scheduler.SweepTimeoutsAndDeadlines | src/nexusflow/orchestration/scheduler.py:465-563 | undisturbed, every attempt of its batch of 50 expired claims has FAILED as START_DEADLINE_EXPIRED (TIME_BASED) with its task retried five seconds later or FAILED for that cause, or was cancelled by a drain an earlier failure led to; settles nothing exactly when no CLAIMED attempt is past its start deadline, and leaves none if there were at most 50; leaves nothing owed |
| Scheduler.NothingTimesOut | src/nexusflow/orchestration/scheduler.py:517-535 | no reachable attempt has an execution timeout, so the second half of the sweep finds nothing |
| Scheduler.SweepWorkerLoss | src/nexusflow/orchestration/scheduler.py:565-620 | the same for active attempts of registered sessions with overdue heartbeats, as WORKER_LOSS (WORKER_AVAILABILITY) |
| Quiescence.AllQuiescentAfter | src/nexusflow/orchestration/scheduler.py:69-157 | work on one workflow disturbs the resting state of no other |
| Quiescence.ServedKept | src/nexusflow/orchestration/scheduler.py:69-157 | a workflow whose rows did not change is as well served as it was |
| Callbacks.ReportCallback | src/nexusflow/interfaces/http/routes/worker.py:259-430 | undisturbed, a callback is accepted exactly when the attempt is the caller's and in a state that admits the report; it is then recorded on attempt and task: the output, or the cause with the task retried or FAILED (see ReportFailure), or CANCELLED; it changes nothing otherwise and leaves nothing owed; new attempts went to eligible sessions; the missing-task error cannot occur |
| Callbacks.ReportSuccess | src/nexusflow/interfaces/http/routes/worker.py:298-325 | reads attempt then task and settles success, then advances, leaving the workflow served; invalid JSON is refused without effect |
| Callbacks.ReportFailure | src/nexusflow/interfaces/http/routes/worker.py:327-405 | undisturbed, an accepted failure leaves the attempt FAILED with the cause reported; with the failure retryable, the workflow RUNNING and attempts left the task waits until five seconds from now, and with any of the three missing it has FAILED with that cause and the workflow is no longer RUNNING, failing for that cause if it was |
| Callbacks.RetryStep | src/nexusflow/domain/failure.py:26-45 | a caller that found the failure eligible on the rows it read is never refused by the UPDATE's own budget test with the attempt already written |
| Callbacks.ReportCancelAck | src/nexusflow/interfaces/http/routes/worker.py:407-427 | settles the cancellation of an active attempt of a draining workflow and drains again |
| Callbacks.AcknowledgeStart | src/nexusflow/interfaces/http/routes/worker.py:213-250 | undisturbed, accepted if and only if the session is registered and its heartbeat not overdue, the attempt exists and is its own, and it is RUNNING, or CLAIMED with the start deadline not passed; then it is RUNNING, and otherwise nothing changes |
| Executions.RegisterDefinition | src/nexusflow/interfaces/http/routes/definitions.py:117-168 | undisturbed and under a fresh id, a document is registered if and only if it normalises, meets ADR-004 and has a character that is no blank in its name; what is stored carries every field of the document |
| Executions.AcceptedIsCarried | src/nexusflow/definition/normalizer.py:24-70 | the specification made of an admissible document has its name, outputs and tasks, and each task its id, activity, attempts, set of dependencies and bindings, literals equal to those written |
| Executions.BlankNamePassesValidation | src/nexusflow/interfaces/http/routes/definitions.py:134-155 | there is a document with a blank name that every check before the table accepts, and registering it is an integrity error on every database |
| Executions.RegisteredIsReadBack | src/nexusflow/interfaces/http/routes/definitions.py:134-155 | a registered document is read back unchanged |
| Executions.StartExecution | src/nexusflow/interfaces/http/routes/executions.py:71-176 | whatever others do, initialisation fails for no reason but an id in use, and a started execution has its definition, its full task set and its input; undisturbed, it succeeds exactly when the definition exists, the input is JSON and the id is new, leaves the workflow served, its new attempts with eligible sessions, and nothing owed |
| Executions.StartDecides | src/nexusflow/interfaces/http/routes/executions.py:110-173 | on a sound database the start commits exactly when the id is new, adding one RUNNING workflow and touching no other, and otherwise does nothing |
| Executions.InitialisationSucceeds | src/nexusflow/interfaces/http/routes/executions.py:110-170 | undisturbed, creation, population and completion all commit and disturb no other workflow |
| Executions.CancelExecution | src/nexusflow/interfaces/http/routes/executions.py:318-393 | undisturbed, refused exactly for FAILING, FAILED and SUCCEEDED executions; accepted means CANCELLING or CANCELLED; a RUNNING one is drained: unstarted tasks CANCELLED, elapsed attempts too, deadlines ten seconds ahead on the others; a repeat changes nothing; nothing is owed afterwards |
| Recovery.RecoverSystem | src/nexusflow/orchestration/recovery.py:70-100 | with others committing, the log goes on by enabled steps only; undisturbed, the passes spend the work left, so a limit above it is never reached; with no session registered no attempt is added; leaving without mutations, no attempt is CLAIMED or RUNNING then, whatever the batch size, and nothing is left to recover if the batches hold all rows |
| Recovery.Pass | src/nexusflow/orchestration/recovery.py:82-91 | the mutations a pass counts are taken from the work left, and the attempts it adds go to eligible sessions with the start deadline given; if it counts none and the batches hold all rows, then every workflow is served, no INITIALIZING one has tasks, and none has terminal tasks only without being terminal |
| RecoveryPhases.Phase1RepairInitializing | src/nexusflow/orchestration/recovery.py:102-130 | undisturbed, starts and advances exactly the batch's INITIALIZING workflows that have tasks, and counts them |
| RecoveryPhases.Phase2ResumeDraining | src/nexusflow/orchestration/recovery.py:132-150 | undisturbed, leaves every draining workflow of the batch that has its tasks terminal or with a RUNNING task, touches no other, sets no deadline but ten seconds ahead, and counts zero |
| RecoveryPhases.Phase3SettleClaimedAttempts | src/nexusflow/orchestration/recovery.py:152-204 | undisturbed, every CLAIMED attempt of the batch ends as WORKER_LOSS if its session is not registered, as START_DEADLINE_EXPIRED exactly if it is and the deadline has passed, and is left alone else, unless a drain after an earlier failure cancelled it; the task of one that FAILED waits for the retry delay or FAILED for its cause; with no session registered and any such attempt it counts at least one; counting zero changes nothing |
| RecoveryPhases.Phase4SettleRunningAttempts | src/nexusflow/orchestration/recovery.py:206-260 | the same for RUNNING attempts: EXECUTION_TIMEOUT if the timeout has passed, and else WORKER_LOSS exactly if the session is not registered |
| RecoveryPhases.SettleOrphan | src/nexusflow/orchestration/recovery.py:166-202 | undisturbed, an attempt that is still as it was read is judged: CLAIMED ends for worker loss before the start deadline, RUNNING for the timeout before worker loss, by category and code, and without a reason it is left as it is; what is settled is settled as SettleFailure does, with the retry after the delay |
| RecoveryPhases.VerdictIsDue | src/nexusflow/orchestration/recovery.py:170-195 | the cause recovery chooses always fits the filters its own UPDATE applies |
| RecoveryPhases.VerdictBlames | src/nexusflow/orchestration/recovery.py:170-235 | which verdict there is on an attempt, by category and code, for every combination of state, deadline, timeout and session |
| RecoveryPhases.Phase5PromoteRetryWait | src/nexusflow/orchestration/recovery.py:262-293 | undisturbed, counts the RUNNING workflows that have a due retry in the batch and leaves each of them served and RUNNING: an advance wakes all due retries of its workflow, so none counts twice |
| RecoveryPhases.Phase6RediscoverRunnable | src/nexusflow/orchestration/recovery.py:295-309 | undisturbed, leaves the workflow of every RUNNABLE task of the batch served and all others as they were, and counts zero |
| RecoveryPhases.Phase7RepairPendingReadiness | src/nexusflow/orchestration/recovery.py:311-329 | the same for PENDING tasks, each workflow once |
| RecoveryPhases.Phase8RepairTerminalization | src/nexusflow/orchestration/recovery.py:331-425 | undisturbed, ends exactly the batch's workflows whose tasks, of which there are some, are all terminal, and counts them: FAILED, CANCELLED, or SUCCEEDED with the empty object as output; it adds no attempt |
| RecoveryPhases.TurnFailed | src/nexusflow/orchestration/recovery.py:392-413 | a RUNNING workflow of terminal tasks with a FAILED one is FAILED, with the failure of that task |
| RecoveryPhases.RecoveredOutputDiffers | src/nexusflow/orchestration/recovery.py:404-421 | the empty object phase 8 commits as output is never what the output bindings give |
| GraphBuilder.BuildCanonicalGraphAndVerifyAcyclic | src/nexusflow/domain/graph.py:35-87 | raises exactly for an unknown dependency; reports a cycle exactly when there is one, for any iteration order; adjacency maps are exact inverses; the reported tasks are the largest set each member of which waits for another |
| GraphBuilder.ComputeDeterministicTopologicalOrder | src/nexusflow/domain/graph.py:90-115 | the order is a function of the dependencies alone, has no task twice and every task after its dependencies, and has all tasks if and only if the graph is acyclic |
| GraphBuilder.ReductionEnds | src/nexusflow/domain/graph.py:64-85 | when Kahn's queue is empty, the tasks left are exactly those that can never become roots, and none is left exactly on an acyclic graph |
| GraphBuilder.OrderedIsAcyclic | src/nexusflow/domain/graph.py:64-85 | an order of all tasks with dependencies first exists only on an acyclic graph |
| GraphBuilder.DownstreamOfCycleIsReported | src/nexusflow/domain/graph.py:81-85 | a task downstream of a cycle but on none is among the tasks reported |
| GraphBuilder.SortedAscends | src/nexusflow/domain/graph.py:101-110 | the names sorted by code point ascend strictly |
| Graph.InescapableHasCycle | src/nexusflow/domain/graph.py:80-85 | a non-empty set each member of which depends on a member contains a cycle |
| Graph.HasSource | src/nexusflow/domain/graph.py:60-62 | in an acyclic graph every non-empty set of tasks has one with no dependency inside it |
| JsonCompat.FreezeJson | src/nexusflow/domain/json_compat.py:14-43 | succeeds exactly on compatible values and freezes them at every depth; otherwise raises for something the value contains |
| JsonCompat.ThawJson | src/nexusflow/domain/json_compat.py:46-67 | succeeds exactly on compatible values and thaws them at every depth; otherwise raises for something the value contains |
| JsonCompat.FreezingFreezes | src/nexusflow/domain/json_compat.py:14-43 | freezing leaves no mutable container and leaves frozen values as they are |
| JsonCompat.FreezeAfterThaw | src/nexusflow/domain/json_compat.py:14-67 | freezing undoes thawing |
| JsonCompat.ThawAfterFreeze | src/nexusflow/domain/json_compat.py:14-67 | thawing undoes freezing |
| JsonCompat.FreezingKeepsCompatibility | src/nexusflow/domain/json_compat.py:14-43 | freezing neither adds nor removes an offence |
| JsonCompat.ThawingKeepsCompatibility | src/nexusflow/domain/json_compat.py:46-67 | thawing neither adds nor removes an offence |
| JsonCompat.FreezingKeepsValue | src/nexusflow/domain/json_compat.py:14-43 | freezing does not change what a value is equal to |
| JsonCompat.ThawingKeepsValue | src/nexusflow/domain/json_compat.py:46-67 | thawing does not change what a value is equal to |
| JsonCompat.OffenceRejects | src/nexusflow/domain/json_compat.py:14-67 | the errors are raised for nothing a compatible value could contain |
| Normalizer.NormalizeWorkflowDto | src/nexusflow/definition/normalizer.py:24-70 | fails exactly on documents some constructor refuses; otherwise the candidate has each task once and the raw dependency lists verbatim |
| Validator.NormalisationNormalises | src/nexusflow/definition/normalizer.py:33-57 | in a normalised candidate the canonical dependencies are the set of the raw ones, and identifiers and literals are legal |
| Validator.Validate | src/nexusflow/definition/validator.py:78-201 | on normalised candidates accepts exactly the well-formed acyclic ones and never raises; reports only genuine faults, all of them below the cap, never more than a positive cap |
| Validator.FaultFree | src/nexusflow/definition/validator.py:98-175 | there is no fault to report exactly when the candidate is non-empty, duplicate-free, self-loop-free, reference-closed, binding-closed and within the attempt limit |
| Validator.CheckTask | src/nexusflow/definition/validator.py:100-163 | accumulates exactly the faults of one task unless the cap stops it |
| Validator.AcceptedIsValid | src/nexusflow/definition/validator.py:188-201 | what is accepted is a valid specification in the sense the runtime relies on |
| Codec.SerializeValidatedSpec | src/nexusflow/definition/codec.py:25-71 | writes the stored form, or fails exactly when some literal cannot be thawed |
| Codec.DeserializeValidatedSpec | src/nexusflow/definition/codec.py:74-268 | computes Decode: every check of the loader, with its one exception as None |
| Codec.RoundTrip | src/nexusflow/definition/codec.py:25-268 | a storable specification is read back as it was written |
| Codec.DecodesIff | src/nexusflow/definition/codec.py:74-268 | reading back is exact: stored data is read as a specification if and only if it says, under its own keys, what the specification says (a task's id, empty dependencies, bindings and outputs may be missing) and the specification is storable |
| Codec.StoredForm | src/nexusflow/definition/codec.py:25-71 | in the stored form every task and output has one object under its name, with every field under its own key, binding types tagged, and dependencies in ascending order |
| Codec.EncodeIsInjective | src/nexusflow/definition/codec.py:25-71 | no two storable specifications have the same stored form |
| Codec.DecodedIsStorable | src/nexusflow/definition/codec.py:74-268 | whatever is read back without error is valid, acyclic and storable |
| Codec.AcceptedIsStorable | src/nexusflow/definition/codec.py:25-71 | every specification the validator accepts with a non-empty name is storable |
| Codec.EmptyNameIsNotReadBack | src/nexusflow/definition/codec.py:86-88 | a specification with an empty name is never read back |
| Execution.RunsRefine | src/nexusflow/domain/execution.py:145-259 | in every interleaving, whatever entered a state the domain has a transition into moved by that transition, up to revision and ordinal |
| Execution.SuccessRefines | src/nexusflow/domain/execution.py:152-163 | a committed workflow success is complete_success, whose clearing of the failure cause is idle |
| Execution.ReadinessRefines | src/nexusflow/domain/execution.py:189-201 | a committed promotion is mark_initially_runnable |
| Execution.ClaimRefines | src/nexusflow/domain/execution.py:204-208 | a committed claim is mark_running, and numbers the attempt |
| Execution.AttemptStartRefines | src/nexusflow/domain/execution.py:244-252 | a start that changes anything is observe_attempt_start, within the deadline |
| Execution.TaskSuccessRefines | src/nexusflow/domain/execution.py:211-259 | a success that changes anything is mark_succeeded and complete_attempt_success together |

## Left out

- Audit.HistoryReplays: reads workflow state up to recovery phase 1, which writes no entry.
- Drain.DrainsSettle: the second drain comes after every deadline pending, which a caller gets by waiting; how clocks
  of different processes compare is not modelled.
- Store.Store.CommitRegisteredDefinition: the idempotency record, and the answer to a repeated key, are not modelled.
- Store.Store.CommitWorkflowCreation: the idempotency record, and the answer to a repeated key, are not modelled.
- Executions.StartExecution: the idempotency key is not modelled, nor the recovery gate; of the checks made on reading
  the definition back only that of the name appears, and it cannot fail.
- Executions.RegisterDefinition: starts from the structurally valid document; YAML parsing, the fingerprint and the
  idempotency key are not modelled.
- Recovery.RecoverSystem: reads the clock once a pass, and treats what the recovery session writes as committed at
  once. In the source that session keeps its transaction, and its row locks, from phase 3 on until the next commit,
  while the drains and advances it calls go through other sessions: those do not see its writes yet, and a drain that
  sets a deadline on an attempt it has just settled waits for it. Convergence is proved without that.
- RecoveryPhases.Phase1RepairInitializing: reads each row again right before it writes it; the source writes the row it
  read when the phase began. `WorkflowMoves.RepairInitializingPreserves` says when that makes a difference.
- Rows a transaction writes become visible together, and row locks are held to its end; between the two UPDATEs of a
  settlement others may commit (`SplitSettlement`), but a caller's interleaving is between statements that read and
  between transactions.
- A caller's transaction that is refused keeps what it wrote before the refusal, although the HTTP handlers roll back:
  the proofs show that nothing was written.
- Surrogate task keys: a task is keyed by workflow and task definition, which the schema keeps unique.
- Definitions are stored as specifications instead of JSONB; `Codec.RoundTrip` is what justifies it.
- JSON columns hold the frozen value; Python's equality on thawed JSON is `PyEqual`. Finite floats are reals.
- Identifier generation: new ids are parameters or fresh numbers; a collision is an integrity error.
- Failure classification of worker reports: the classified cause and its retryability are parameters.
- Created and updated timestamps, failure details, messages of outcomes and validation errors.
- History pagination, the read-only endpoints, polling and delivery queues, session registration and heartbeats.
- SQLAlchemy sessions, identity maps and savepoints, other than as said above.
- HTTP, Pydantic models, authentication, settings, logging, metrics, the worker runtime, benchmarks and demos.
