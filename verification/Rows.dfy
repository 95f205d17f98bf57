/**
  The durable rows (persistence/orm.py) and the database value they make up.

  A task row's surrogate key is replaced by its natural key (workflow, task definition), which the schema
  keeps unique. A nullable column is an Option; the pair (has_output, task_output) is one Option, and so is
  (has_input, stable_input).
  */
module Rows {
  import opened Wrappers
  import opened JsonCompat
  import opened Spec

  datatype WorkflowId = WorkflowId(value: nat)
  datatype TaskId = TaskId(workflow: WorkflowId, definition: string)
  datatype AttemptId = AttemptId(value: nat)
  datatype SessionId = SessionId(value: nat)
  datatype DefinitionId = DefinitionId(value: nat)

  /** Instants are integers, in seconds. */
  type Time = int

  datatype WorkflowState = Initializing | Running | Failing | Cancelling | Succeeded | Failed | Cancelled
  {
    predicate Terminal() { Succeeded? || Failed? || Cancelled? }
    predicate Draining() { Failing? || Cancelling? }
  }

  datatype TaskState = Pending | Runnable | Running | RetryWait | Succeeded | Failed | Cancelled
  {
    predicate Terminal() { Succeeded? || Failed? || Cancelled? }
    predicate Unstarted() { Pending? || Runnable? || RetryWait? }
  }

  datatype AttemptState = Claimed | Running | Succeeded | Failed | Cancelled
  {
    predicate Active() { Claimed? || Running? }
  }

  datatype FailureCategory =
    | ClientInput | Validation | DomainConflict | DomainExecution | TimeBased | WorkerAvailability
    | SystemTransient | SystemPermanent | Concurrency | Integrity | UnknownOutcome | Security

  datatype FailureCause = FailureCause(category: FailureCategory, code: string, message: string)

  datatype WorkflowRow = WorkflowRow(
    definition: DefinitionId,
    state: WorkflowState,
    revision: int,
    input: PyValue,
    output: Option<PyValue>,
    failure: Option<FailureCause>)

  datatype TaskRow = TaskRow(
    state: TaskState,
    revision: int,
    input: Option<JsonObject>,
    output: Option<PyValue>,
    maxAttempts: int,
    nextOrdinal: int,
    retryReadyAt: Option<Time>,
    failure: Option<FailureCause>)

  datatype AttemptRow = AttemptRow(
    task: TaskId,
    ordinal: int,
    worker: SessionId,
    state: AttemptState,
    revision: int,
    startDeadline: Time,
    executionTimeout: Option<Time>,
    cancellationDeadline: Option<Time>,
    failure: Option<FailureCause>)

  datatype Event =
    | WorkflowExecutionCreated(definition: DefinitionId)
    | TaskPopulationEstablished(taskCount: nat)
    | WorkflowExecutionStarted
    | TaskMarkedRunnable
    | TaskClaimedByWorker(worker: SessionId, ordinal: int)
    | AttemptExecutionStarted
    | TaskExecutionSucceeded
    | WorkflowExecutionSucceeded
    | TaskExecutionRetrying(readyAt: Time, code: string)
    | TaskExecutionFailed(category: FailureCategory, code: string)
    | WorkflowExecutionFailing(code: string)
    | WorkflowCancellationRequested
    | TaskExecutionCancelled
    | AttemptCancellationAcknowledged(worker: SessionId)
    | AttemptCancellationDeadlineExpired(expiredAt: Time)
    | InternalAttemptFailureSettled(code: string, taskState: TaskState)
    | WorkflowExecutionFailed
    | WorkflowExecutionCancelled

  datatype HistoryEntry = HistoryEntry(
    workflow: WorkflowId,
    task: Option<TaskId>,
    attempt: Option<AttemptId>,
    event: Event,
    occurredAt: Time)

  datatype Db = Db(
    definitions: map<DefinitionId, ValidatedWorkflowSpec>,
    workflows: map<WorkflowId, WorkflowRow>,
    tasks: map<TaskId, TaskRow>,
    attempts: map<AttemptId, AttemptRow>,
    history: seq<HistoryEntry>)

  const EmptyDb := Db(map[], map[], map[], map[], [])

  /** SELECT state FROM workflow_executions: None when there is no such row. */
  function StateOf(db: Db, w: WorkflowId): Option<WorkflowState> {
    if w in db.workflows then Some(db.workflows[w].state) else None
  }

  /** SELECT task_definition_id FROM task_executions for one workflow, filtered by state. */
  function TaskNames(db: Db, w: WorkflowId, states: set<TaskState>): set<string> {
    set t | t in db.tasks && t.workflow == w && db.tasks[t].state in states :: t.definition
  }

  const AnyTaskState: set<TaskState> :=
    {TaskState.Pending, TaskState.Runnable, TaskState.Running, TaskState.RetryWait,
     TaskState.Succeeded, TaskState.Failed, TaskState.Cancelled}
  const TerminalTaskStates: set<TaskState> := {TaskState.Succeeded, TaskState.Failed, TaskState.Cancelled}
}
