/**
  What each commit_* of persistence/transactions.py does to the database, as a function.

  Every function takes the database its guards were READ from (g, or g1 and g2 when two statements read)
  apart from the database db its UPDATE is evaluated on: under READ COMMITTED a guard may be stale when the
  write happens, while the WHERE clause of an UPDATE sees the row it locks. The rows a transaction writes
  become visible together, and early returns keep what was written before them.
  */
module Transactions {
  import opened Wrappers
  import opened JsonCompat
  import opened Spec
  import opened Rows

  /** IntegrityError is the exception a constraint violation raises; the transaction is rolled back. */
  datatype CommitStatus = Committed | PreconditionFailed | OccConflict | IntegrityError

  datatype TxResult = TxResult(status: CommitStatus, db: Db)

  function WorkflowEntry(w: WorkflowId, event: Event, now: Time): HistoryEntry {
    HistoryEntry(w, None, None, event, now)
  }

  function TaskEntry(t: TaskId, event: Event, now: Time): HistoryEntry {
    HistoryEntry(t.workflow, Some(t), None, event, now)
  }

  function AttemptEntry(t: TaskId, a: AttemptId, event: Event, now: Time): HistoryEntry {
    HistoryEntry(t.workflow, Some(t), Some(a), event, now)
  }

  // ------------------------------------------------------------------- creation and initialisation

  /** Primary key and chk_definitions_name_non_empty. */
  function RegisterTx(db: Db, d: DefinitionId, spec: ValidatedWorkflowSpec): TxResult {
    if d in db.definitions || Blank(spec.name) then TxResult(IntegrityError, db)
    else TxResult(Committed, db.(definitions := db.definitions[d := spec]))
  }

  function CreateTx(db: Db, w: WorkflowId, d: DefinitionId, input: PyValue, now: Time): TxResult {
    if w in db.workflows || d !in db.definitions then TxResult(IntegrityError, db)
    else
      TxResult(Committed, db.(
        workflows := db.workflows[w := WorkflowRow(d, WorkflowState.Initializing, 1, input, None, None)],
        history := db.history + [WorkflowEntry(w, WorkflowExecutionCreated(d), now)]))
  }

  function PendingRow(def: TaskDefinition): TaskRow {
    TaskRow(TaskState.Pending, 1, None, None, def.maxAttempts, 1, None, None)
  }

  function PendingRows(w: WorkflowId, definitions: map<string, TaskDefinition>): map<TaskId, TaskRow> {
    map k | k in definitions :: TaskId(w, k) := PendingRow(definitions[k])
  }

  /** INSERT ... ON CONFLICT DO NOTHING: a row that exists stays as it is. */
  function PopulateTx(g: Db, db: Db, w: WorkflowId, definitions: map<string, TaskDefinition>, now: Time): TxResult {
    if StateOf(g, w) != Some(WorkflowState.Initializing) then TxResult(PreconditionFailed, db)
    else
      TxResult(Committed, db.(
        tasks := PendingRows(w, definitions) + db.tasks,
        history := db.history + [WorkflowEntry(w, TaskPopulationEstablished(|definitions|), now)]))
  }

  // ------------------------------------------------------------------------- workflow transitions

  predicate WorkflowMatches(db: Db, w: WorkflowId, states: set<WorkflowState>) {
    w in db.workflows && db.workflows[w].state in states
  }

  function MoveWorkflow(db: Db, w: WorkflowId, row: WorkflowRow, event: Event, now: Time): Db {
    db.(workflows := db.workflows[w := row], history := db.history + [WorkflowEntry(w, event, now)])
  }

  function MovedRow(row: WorkflowRow, to: WorkflowState, output: Option<PyValue>): WorkflowRow {
    var row := row.(state := to, revision := row.revision + 1);
    if output.Some? then row.(output := output) else row
  }

  /** Committed when the guards pass: the row is read in g1, the task names in g2. */
  function MembershipGuard(
    g1: Db, g2: Db, w: WorkflowId, expected: int, from: WorkflowState, counted: set<TaskState>): CommitStatus
  {
    if w !in g1.workflows then PreconditionFailed
    else if g1.workflows[w].state != from || g1.workflows[w].revision != expected then OccConflict
    else if g1.workflows[w].definition !in g1.definitions then PreconditionFailed
    else if g1.definitions[g1.workflows[w].definition].tasks.Keys != TaskNames(g2, w, counted)
    then PreconditionFailed
    else Committed
  }

  /** The common shape of the four transitions that compare the task set with the definition. */
  function MembershipTx(
    g1: Db, g2: Db, db: Db, w: WorkflowId, expected: int, from: WorkflowState, counted: set<TaskState>,
    to: WorkflowState, output: Option<PyValue>, event: Event, now: Time): TxResult
  {
    var guard := MembershipGuard(g1, g2, w, expected, from, counted);
    if guard != Committed then TxResult(guard, db)
    else if !WorkflowMatches(db, w, {from}) || db.workflows[w].revision != expected then TxResult(OccConflict, db)
    else TxResult(Committed, MoveWorkflow(db, w, MovedRow(db.workflows[w], to, output), event, now))
  }

  function InitializationCompleteTx(g1: Db, g2: Db, db: Db, w: WorkflowId, expected: int, now: Time): TxResult {
    MembershipTx(g1, g2, db, w, expected, WorkflowState.Initializing, AnyTaskState,
                 WorkflowState.Running, None, WorkflowExecutionStarted, now)
  }

  function WorkflowSuccessTx(
    g1: Db, g2: Db, db: Db, w: WorkflowId, expected: int, output: PyValue, now: Time): TxResult
  {
    MembershipTx(g1, g2, db, w, expected, WorkflowState.Running, {TaskState.Succeeded},
                 WorkflowState.Succeeded, Some(output), WorkflowExecutionSucceeded, now)
  }

  function WorkflowFailureTx(g1: Db, g2: Db, db: Db, w: WorkflowId, expected: int, now: Time): TxResult {
    MembershipTx(g1, g2, db, w, expected, WorkflowState.Failing, TerminalTaskStates,
                 WorkflowState.Failed, None, WorkflowExecutionFailed, now)
  }

  function WorkflowCancellationTx(g1: Db, g2: Db, db: Db, w: WorkflowId, expected: int, now: Time): TxResult {
    MembershipTx(g1, g2, db, w, expected, WorkflowState.Cancelling, TerminalTaskStates,
                 WorkflowState.Cancelled, None, WorkflowExecutionCancelled, now)
  }

  /** start_execution keeps one transaction open over creation, population and completion: its guards read what it
      wrote itself, the three become visible together, and a refusal of any rolls all back. */
  function StartExecutionTx(
    db: Db, w: WorkflowId, d: DefinitionId, definitions: map<string, TaskDefinition>, input: PyValue,
    now: Time): TxResult
  {
    var created := CreateTx(db, w, d, input, now);
    if created.status != Committed then TxResult(created.status, db)
    else
      var populated := PopulateTx(created.db, created.db, w, definitions, now);
      if populated.status != Committed then TxResult(populated.status, db)
      else
        var completed := InitializationCompleteTx(populated.db, populated.db, populated.db, w, 1, now);
        if completed.status != Committed then TxResult(completed.status, db) else completed
  }

  /** The row is read FOR UPDATE, so guard and write see the same state. */
  function FailureDirectionTx(db: Db, w: WorkflowId, cause: FailureCause, now: Time): TxResult {
    if !WorkflowMatches(db, w, {WorkflowState.Running}) then TxResult(PreconditionFailed, db)
    else
      var row := db.workflows[w].(
        state := WorkflowState.Failing, failure := Some(cause), revision := db.workflows[w].revision + 1);
      TxResult(Committed, MoveWorkflow(db, w, row, WorkflowExecutionFailing(cause.code), now))
  }

  function CancellationDirectionTx(db: Db, w: WorkflowId, now: Time): TxResult {
    if !WorkflowMatches(db, w, {WorkflowState.Initializing, WorkflowState.Running})
    then TxResult(PreconditionFailed, db)
    else
      var row := db.workflows[w].(state := WorkflowState.Cancelling, revision := db.workflows[w].revision + 1);
      TxResult(Committed, MoveWorkflow(db, w, row, WorkflowCancellationRequested, now))
  }

  /** Startup recovery, phase 1, assigns the row it read at revision seen: an UPDATE by primary key alone, without a
      condition on state or revision and without history. */
  function RepairInitializingTx(db: Db, w: WorkflowId, seen: int): TxResult {
    if w !in db.workflows then TxResult(PreconditionFailed, db)
    else
      var row := db.workflows[w].(state := WorkflowState.Running, revision := seen + 1);
      TxResult(Committed, db.(workflows := db.workflows[w := row]))
  }

  // ----------------------------------------------------------------------------- task transitions

  predicate TaskMatches(db: Db, t: TaskId, states: set<TaskState>, expected: int) {
    t in db.tasks && db.tasks[t].state in states && db.tasks[t].revision == expected
  }

  function MoveTask(db: Db, t: TaskId, row: TaskRow, event: Event, now: Time): Db {
    db.(tasks := db.tasks[t := row], history := db.history + [TaskEntry(t, event, now)])
  }

  function ReadinessTx(g: Db, db: Db, t: TaskId, expected: int, input: JsonObject, now: Time): TxResult {
    if StateOf(g, t.workflow) != Some(WorkflowState.Running) then TxResult(PreconditionFailed, db)
    else if !TaskMatches(db, t, {TaskState.Pending}, expected) then TxResult(OccConflict, db)
    else
      var row := db.tasks[t].(
        state := TaskState.Runnable, input := Some(input), revision := db.tasks[t].revision + 1);
      TxResult(Committed, MoveTask(db, t, row, TaskMarkedRunnable, now))
  }

  function RetryReadyTx(g: Db, db: Db, t: TaskId, expected: int, now: Time): TxResult {
    if StateOf(g, t.workflow) != Some(WorkflowState.Running) then TxResult(PreconditionFailed, db)
    else if !TaskMatches(db, t, {TaskState.RetryWait}, expected)
            || db.tasks[t].retryReadyAt.None? || now < db.tasks[t].retryReadyAt.value
    then TxResult(OccConflict, db)
    else
      var row := db.tasks[t].(
        state := TaskState.Runnable, retryReadyAt := None, revision := db.tasks[t].revision + 1);
      TxResult(Committed, MoveTask(db, t, row, TaskMarkedRunnable, now))
  }

  /** g1: the task row read; g2: the workflow state read. */
  function DrainCancelTx(g1: Db, g2: Db, db: Db, t: TaskId, expected: int, now: Time): TxResult {
    var unstarted := {TaskState.Pending, TaskState.Runnable, TaskState.RetryWait};
    if t !in g1.tasks || g1.tasks[t].state !in unstarted then TxResult(PreconditionFailed, db)
    else if !WorkflowMatches(g2, t.workflow, {WorkflowState.Failing, WorkflowState.Cancelling})
    then TxResult(PreconditionFailed, db)
    else if !TaskMatches(db, t, unstarted, expected) then TxResult(OccConflict, db)
    else
      var row := db.tasks[t].(
        state := TaskState.Cancelled, retryReadyAt := None, revision := db.tasks[t].revision + 1);
      TxResult(Committed, MoveTask(db, t, row, TaskExecutionCancelled, now))
  }

  // ---------------------------------------------------------------------------- claims and starts

  predicate HasActiveAttempt(db: Db, t: TaskId) {
    exists a | a in db.attempts :: db.attempts[a].task == t && db.attempts[a].state.Active()
  }

  predicate HasOrdinal(db: Db, t: TaskId, ordinal: int) {
    exists a | a in db.attempts :: db.attempts[a].task == t && db.attempts[a].ordinal == ordinal
  }

  /** Primary key, uq_attempt_ordinal_per_task and uq_single_active_attempt_per_task. */
  predicate InsertViolates(db: Db, a: AttemptId, t: TaskId, ordinal: int) {
    a in db.attempts || HasOrdinal(db, t, ordinal) || HasActiveAttempt(db, t)
  }

  /** g1: the workflow state read; g2: the search for an active attempt. */
  function ClaimTx(
    g1: Db, g2: Db, db: Db, t: TaskId, expected: int, worker: SessionId, a: AttemptId, startDeadline: Time,
    now: Time): TxResult
  {
    if StateOf(g1, t.workflow) != Some(WorkflowState.Running) then TxResult(PreconditionFailed, db)
    else if HasActiveAttempt(g2, t) then TxResult(PreconditionFailed, db)
    else if !TaskMatches(db, t, {TaskState.Runnable}, expected) then TxResult(OccConflict, db)
    else if InsertViolates(db, a, t, db.tasks[t].nextOrdinal) then TxResult(IntegrityError, db)
    else
      var ordinal := db.tasks[t].nextOrdinal;
      var row := db.tasks[t].(
        state := TaskState.Running, revision := db.tasks[t].revision + 1, nextOrdinal := ordinal + 1);
      TxResult(Committed, db.(
        tasks := db.tasks[t := row],
        attempts := db.attempts[a := ClaimedRow(t, ordinal, worker, startDeadline)],
        history := db.history + [AttemptEntry(t, a, TaskClaimedByWorker(worker, ordinal), now)]))
  }

  function ClaimedRow(t: TaskId, ordinal: int, worker: SessionId, startDeadline: Time): AttemptRow {
    AttemptRow(t, ordinal, worker, AttemptState.Claimed, 1, startDeadline, None, None, None)
  }

  function StartTx(db: Db, a: AttemptId, worker: SessionId, expected: int, now: Time): TxResult {
    if a in db.attempts && db.attempts[a].worker == worker && db.attempts[a].state == AttemptState.Claimed
       && now <= db.attempts[a].startDeadline && db.attempts[a].revision == expected
    then
      var row := db.attempts[a].(state := AttemptState.Running, revision := db.attempts[a].revision + 1);
      TxResult(Committed, db.(
        attempts := db.attempts[a := row],
        history := db.history + [AttemptEntry(row.task, a, AttemptExecutionStarted, now)]))
    else if a in db.attempts && db.attempts[a].worker == worker && db.attempts[a].state == AttemptState.Running
    then TxResult(Committed, db)
    else TxResult(OccConflict, db)
  }

  /** How long after a drain notices it an active attempt is left to acknowledge its cancellation. */
  const CANCELLATION_GRACE: Time := 10

  /** The drain writes the deadline with no state or revision condition, and no history. */
  function CancelDeadlineTx(db: Db, a: AttemptId, deadline: Time): TxResult {
    if a !in db.attempts then TxResult(Committed, db)
    else
      TxResult(Committed, db.(attempts := db.attempts[a := db.attempts[a].(cancellationDeadline := Some(deadline))]))
  }

  // ----------------------------------------------------------------------------------- settlement

  function FinishAttempt(row: AttemptRow, state: AttemptState, failure: Option<FailureCause>): AttemptRow {
    var row := row.(state := state, revision := row.revision + 1);
    if failure.Some? then row.(failure := failure) else row
  }

  /** An active attempt of task t at the expected revision; settlements add their own conditions. */
  predicate AttemptMatches(db: Db, a: AttemptId, t: TaskId, states: set<AttemptState>, expected: int) {
    && a in db.attempts
    && db.attempts[a].task == t
    && db.attempts[a].state in states
    && db.attempts[a].revision == expected
  }

  /** UPDATE task_executions ... WHERE state = 'RUNNING' AND revision = expected, giving the new row. */
  function SucceededTask(db: Db, t: TaskId, expected: int, output: PyValue): Option<TaskRow> {
    if !TaskMatches(db, t, {TaskState.Running}, expected) then None
    else Some(db.tasks[t].(
      state := TaskState.Succeeded, output := Some(output), revision := db.tasks[t].revision + 1))
  }

  function RetryingTask(db: Db, t: TaskId, expected: int, readyAt: Time): Option<TaskRow> {
    if !TaskMatches(db, t, {TaskState.Running}, expected) || db.tasks[t].maxAttempts < db.tasks[t].nextOrdinal
    then None
    else Some(db.tasks[t].(
      state := TaskState.RetryWait, retryReadyAt := Some(readyAt), revision := db.tasks[t].revision + 1))
  }

  function FailedTask(db: Db, t: TaskId, expected: int, cause: FailureCause): Option<TaskRow> {
    if !TaskMatches(db, t, {TaskState.Running}, expected) then None
    else Some(db.tasks[t].(
      state := TaskState.Failed, failure := Some(cause), revision := db.tasks[t].revision + 1))
  }

  function CancelledTask(db: Db, t: TaskId, expected: int): Option<TaskRow> {
    if !TaskMatches(db, t, {TaskState.Running}, expected) then None
    else Some(db.tasks[t].(state := TaskState.Cancelled, revision := db.tasks[t].revision + 1))
  }

  function WriteAttempt(db: Db, a: AttemptId, attempt: AttemptRow): Db {
    db.(attempts := db.attempts[a := attempt])
  }

  /** The two UPDATEs of a settlement in sequence. When the second matches no row (task is None) the
      transaction returns with the first one kept and nothing in the history. */
  function SettlePair(
    db: Db, a: AttemptId, attempt: AttemptRow, t: TaskId, task: Option<TaskRow>,
    mismatch: CommitStatus, event: Event, now: Time): TxResult
  {
    if task.None? then TxResult(mismatch, WriteAttempt(db, a, attempt))
    else
      TxResult(Committed, WriteAttempt(db, a, attempt).(
        tasks := db.tasks[t := task.value],
        history := db.history + [AttemptEntry(t, a, event, now)]))
  }

  const ActiveStates: set<AttemptState> := {AttemptState.Claimed, AttemptState.Running}

  function TaskSuccessTx(
    db: Db, a: AttemptId, worker: SessionId, expectedAttempt: int, t: TaskId, expectedTask: int,
    output: PyValue, now: Time): TxResult
  {
    if AttemptMatches(db, a, t, {AttemptState.Running}, expectedAttempt) && db.attempts[a].worker == worker then
      SettlePair(db, a, FinishAttempt(db.attempts[a], AttemptState.Succeeded, None),
                 t, SucceededTask(db, t, expectedTask, output), OccConflict, TaskExecutionSucceeded, now)
    else if a in db.attempts && db.attempts[a].state == AttemptState.Succeeded
            && t in db.tasks && PyEqual(output, db.tasks[t].output.GetOr(PyNone))
    then TxResult(Committed, db)
    else TxResult(OccConflict, db)
  }

  function FailureWithRetryTx(
    g: Db, db: Db, a: AttemptId, worker: SessionId, expectedAttempt: int, t: TaskId, expectedTask: int,
    readyAt: Time, cause: FailureCause, now: Time): TxResult
  {
    if StateOf(g, t.workflow) != Some(WorkflowState.Running) then TxResult(PreconditionFailed, db)
    else if !AttemptMatches(db, a, t, ActiveStates, expectedAttempt) || db.attempts[a].worker != worker
    then TxResult(OccConflict, db)
    else
      SettlePair(db, a, FinishAttempt(db.attempts[a], AttemptState.Failed, Some(cause)),
                 t, RetryingTask(db, t, expectedTask, readyAt), PreconditionFailed,
                 TaskExecutionRetrying(readyAt, cause.code), now)
  }

  function DefinitiveFailureTx(
    db: Db, a: AttemptId, worker: SessionId, expectedAttempt: int, t: TaskId, expectedTask: int,
    cause: FailureCause, now: Time): TxResult
  {
    if !AttemptMatches(db, a, t, ActiveStates, expectedAttempt) || db.attempts[a].worker != worker
    then TxResult(OccConflict, db)
    else
      SettlePair(db, a, FinishAttempt(db.attempts[a], AttemptState.Failed, Some(cause)),
                 t, FailedTask(db, t, expectedTask, cause), OccConflict,
                 TaskExecutionFailed(cause.category, cause.code), now)
  }

  /** g1: the task's workflow id read; g2: the workflow state read. */
  function CancellationAckTx(
    g1: Db, g2: Db, db: Db, a: AttemptId, worker: SessionId, expectedAttempt: int, t: TaskId, expectedTask: int,
    now: Time): TxResult
  {
    if t !in g1.tasks || !WorkflowMatches(g2, t.workflow, {WorkflowState.Failing, WorkflowState.Cancelling})
    then TxResult(PreconditionFailed, db)
    else if !AttemptMatches(db, a, t, ActiveStates, expectedAttempt) || db.attempts[a].worker != worker
    then TxResult(OccConflict, db)
    else
      SettlePair(db, a, FinishAttempt(db.attempts[a], AttemptState.Cancelled, None),
                 t, CancelledTask(db, t, expectedTask), OccConflict, AttemptCancellationAcknowledged(worker), now)
  }

  function CancellationDeadlineTx(
    g1: Db, g2: Db, db: Db, a: AttemptId, expectedAttempt: int, t: TaskId, expectedTask: int, now: Time): TxResult
  {
    if t !in g1.tasks || !WorkflowMatches(g2, t.workflow, {WorkflowState.Failing, WorkflowState.Cancelling})
    then TxResult(PreconditionFailed, db)
    else if !AttemptMatches(db, a, t, ActiveStates, expectedAttempt)
            || db.attempts[a].cancellationDeadline.None? || now < db.attempts[a].cancellationDeadline.value
    then TxResult(OccConflict, db)
    else
      SettlePair(db, a, FinishAttempt(db.attempts[a], AttemptState.Cancelled, None),
                 t, CancelledTask(db, t, expectedTask), OccConflict, AttemptCancellationDeadlineExpired(now), now)
  }

  /** The extra conditions on the attempt that the cause code selects; a code outside the three adds none. */
  predicate FailureFilter(row: AttemptRow, code: string, lost: Option<SessionId>, now: Time) {
    if code == "START_DEADLINE_EXPIRED" then
      row.state == AttemptState.Claimed && row.startDeadline <= now
    else if code == "EXECUTION_TIMEOUT" then
      row.state == AttemptState.Running && row.executionTimeout.Some? && row.executionTimeout.value <= now
    else if code == "WORKER_LOSS" then
      (lost.Some? ==> row.worker == lost.value) && row.state.Active()
    else true
  }

  /** Retry when the workflow was read RUNNING, the failure is retryable and the budget allows; else fail. */
  function InternallyFailedTask(
    g: Db, db: Db, t: TaskId, expected: int, cause: FailureCause, retryable: bool,
    readyAt: Option<Time>): Option<TaskRow>
  {
    var retry :=
      if StateOf(g, t.workflow) == Some(WorkflowState.Running) && retryable && readyAt.Some?
      then RetryingTask(db, t, expected, readyAt.value) else None;
    if retry.Some? then retry else FailedTask(db, t, expected, cause)
  }

  /** g1: the task's workflow id read; g2: the workflow state read. */
  function InternalFailureTx(
    g1: Db, g2: Db, db: Db, a: AttemptId, expectedAttempt: int, t: TaskId, expectedTask: int, cause: FailureCause,
    retryable: bool, readyAt: Option<Time>, lost: Option<SessionId>, now: Time): TxResult
  {
    if t !in g1.tasks then TxResult(PreconditionFailed, db)
    else if !(a in db.attempts && db.attempts[a].task == t && db.attempts[a].revision == expectedAttempt
              && FailureFilter(db.attempts[a], cause.code, lost, now))
    then TxResult(OccConflict, db)
    else
      var task := InternallyFailedTask(g2, db, t, expectedTask, cause, retryable, readyAt);
      SettlePair(db, a, FinishAttempt(db.attempts[a], AttemptState.Failed, Some(cause)), t, task, OccConflict,
                 InternalAttemptFailureSettled(cause.code, if task.Some? then task.value.state else TaskState.Failed),
                 now)
  }
}
