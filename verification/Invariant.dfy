/**
  What every reachable database satisfies (Inv) and how a database may change over time (Evolves).
  */
module Invariant {
  import opened Wrappers
  import opened JsonCompat
  import opened Spec
  import opened Rows
  import opened Readiness

  // ------------------------------------------------------------------------------------- row shapes

  /** With n = next_attempt_ordinal the revision of a task is determined by its state, up to the state a
      CANCELLED task was in before; budget, input, output and retry deadline follow the state too. */
  ghost predicate TaskShape(r: TaskRow) {
    var n := r.nextOrdinal;
    && 1 <= r.maxAttempts && 1 <= n <= r.maxAttempts + 1
    && (r.output.Some? <==> r.state == TaskState.Succeeded)
    && match r.state
       case Pending => n == 1 && r.revision == 1 && r.input.None? && r.retryReadyAt.None?
       case Runnable => n <= r.maxAttempts && r.revision == 3 * n - 1 && r.input.Some?
       case Running => 2 <= n && r.revision == 3 * (n - 1) && r.input.Some?
       case RetryWait =>
         2 <= n <= r.maxAttempts && r.revision == 3 * (n - 1) + 1 && r.input.Some? && r.retryReadyAt.Some?
       case Succeeded => 2 <= n && r.revision == 3 * (n - 1) + 1 && r.input.Some?
       case Failed => 2 <= n && r.revision == 3 * (n - 1) + 1 && r.input.Some? && r.failure.Some?
       case Cancelled =>
         || (n == 1 && r.revision == 2 && r.input.None?)
         || (n <= r.maxAttempts && r.revision == 3 * n && r.input.Some?)
         || (2 <= n && r.revision == 3 * (n - 1) + 1 && r.input.Some?)
         || (2 <= n <= r.maxAttempts && r.revision == 3 * (n - 1) + 2 && r.input.Some?)
  }

  ghost predicate AttemptShape(r: AttemptRow) {
    && r.executionTimeout.None?
    && match r.state
       case Claimed => r.revision == 1
       case Running => r.revision == 2
       case Succeeded => r.revision == 3
       case Failed => 2 <= r.revision <= 3 && r.failure.Some?
       case Cancelled => 2 <= r.revision <= 3
  }

  ghost predicate WorkflowShape(r: WorkflowRow) {
    && (r.output.Some? <==> r.state == WorkflowState.Succeeded)
    && (r.state.Initializing? || r.state.Running? || r.state.Succeeded? ==> r.failure.None?)
    && match r.state
       case Initializing => r.revision == 1
       case Running => r.revision == 2
       case Failing => r.revision == 3
       case Cancelling => 2 <= r.revision <= 3
       case Succeeded => r.revision == 3
       case Failed => r.revision == 4
       case Cancelled => 3 <= r.revision <= 4
  }

  // ---------------------------------------------------------------------------------- cross-row rules

  /** The state of a task's latest attempt, given the state of the task. */
  ghost predicate LatestAttempt(task: TaskState, attempt: AttemptState) {
    match task
    case Running => attempt.Active()
    case Succeeded => attempt == AttemptState.Succeeded
    case Cancelled => attempt == AttemptState.Cancelled || attempt == AttemptState.Failed
    case _ => attempt == AttemptState.Failed
  }

  ghost predicate AttemptOk(db: Db, a: AttemptId)
    requires a in db.attempts
  {
    var r := db.attempts[a];
    && AttemptShape(r)
    && r.task in db.tasks
    && var task := db.tasks[r.task];
    && 1 <= r.ordinal < task.nextOrdinal
    && (if r.ordinal == task.nextOrdinal - 1
        then LatestAttempt(task.state, r.state) && (task.state.Failed? ==> task.failure == r.failure)
        else r.state == AttemptState.Failed)
  }

  ghost predicate Numbered(db: Db, a: AttemptId, t: TaskId, ordinal: int) {
    a in db.attempts && db.attempts[a].task == t && db.attempts[a].ordinal == ordinal
  }

  ghost predicate HasNumbered(db: Db, t: TaskId, ordinal: int) {
    exists a :: Numbered(db, a, t, ordinal)
  }

  /** The attempts of t carry exactly the ordinals 1 .. next_attempt_ordinal - 1. */
  ghost predicate LedgerOk(db: Db, t: TaskId)
    requires t in db.tasks
  {
    forall o | 1 <= o < db.tasks[t].nextOrdinal :: HasNumbered(db, t, o)
  }

  /** The outputs of those named tasks of w that have SUCCEEDED. */
  function OutputsOf(db: Db, w: WorkflowId, names: set<string>): map<string, PyValue> {
    map d | d in names && TaskId(w, d) in db.tasks && db.tasks[TaskId(w, d)].state == TaskState.Succeeded
            && db.tasks[TaskId(w, d)].output.Some? :: db.tasks[TaskId(w, d)].output.value
  }

  ghost predicate Declared(db: Db, t: TaskId) {
    && t.workflow in db.workflows
    && db.workflows[t.workflow].definition in db.definitions
    && t.definition in db.definitions[db.workflows[t.workflow].definition].tasks
  }

  function DefinitionOf(db: Db, t: TaskId): TaskDefinition
    requires Declared(db, t)
  {
    db.definitions[db.workflows[t.workflow].definition].tasks[t.definition]
  }

  /** A materialised input is what the bindings resolve to over the outputs stored now. */
  ghost predicate InputOk(db: Db, t: TaskId)
    requires t in db.tasks && Declared(db, t)
  {
    var def := DefinitionOf(db, t);
    db.tasks[t].input.Some? ==>
      db.tasks[t].input ==
      ReadyInput(def, db.workflows[t.workflow].input, OutputsOf(db, t.workflow, def.dependencies))
  }

  ghost predicate TaskOk(db: Db, t: TaskId)
    requires t in db.tasks
  {
    && Declared(db, t)
    && TaskShape(db.tasks[t])
    && db.tasks[t].maxAttempts == DefinitionOf(db, t).maxAttempts
    && InputOk(db, t)
    && var wf := db.workflows[t.workflow].state;
    && (db.tasks[t].state != TaskState.Pending ==> wf != WorkflowState.Initializing)
    && (db.tasks[t].state == TaskState.Cancelled ==>
          wf.Failing? || wf.Cancelling? || wf.Failed? || wf.Cancelled?)
  }

  /** Every task the definition declares has a row. */
  ghost predicate FullMembership(db: Db, w: WorkflowId)
    requires w in db.workflows && db.workflows[w].definition in db.definitions
  {
    forall d | d in db.definitions[db.workflows[w].definition].tasks :: TaskId(w, d) in db.tasks
  }

  ghost predicate NoTasks(db: Db, w: WorkflowId) {
    forall t | t in db.tasks :: t.workflow != w
  }

  ghost predicate FailedTaskOf(db: Db, w: WorkflowId, t: TaskId) {
    t in db.tasks && t.workflow == w && db.tasks[t].state == TaskState.Failed
  }

  ghost predicate SomeTaskFailed(db: Db, w: WorkflowId) {
    exists t :: FailedTaskOf(db, w, t)
  }

  /** Task t of w FAILED with the given failure. */
  ghost predicate FailedWith(db: Db, w: WorkflowId, t: TaskId, failure: Option<FailureCause>) {
    FailedTaskOf(db, w, t) && db.tasks[t].failure == failure
  }

  /** The given failure is that of some FAILED task of w. */
  ghost predicate FailureOfSome(db: Db, w: WorkflowId, failure: Option<FailureCause>) {
    exists t :: FailedWith(db, w, t, failure)
  }

  ghost predicate AllTasksIn(db: Db, w: WorkflowId, states: set<TaskState>) {
    forall t | t in db.tasks && t.workflow == w :: db.tasks[t].state in states
  }

  ghost predicate WorkflowOk(db: Db, w: WorkflowId)
    requires w in db.workflows
  {
    var r := db.workflows[w];
    && WorkflowShape(r)
    && r.definition in db.definitions
    && (FullMembership(db, w) || ((r.state.Initializing? || r.state.Cancelling?) && NoTasks(db, w)))
    && (r.state.Failing? || r.state.Failed? ==> FailureOfSome(db, w, r.failure))
    && (r.state.Succeeded? ==> AllTasksIn(db, w, {TaskState.Succeeded}))
    && (r.state.Terminal() ==> AllTasksIn(db, w, TerminalTaskStates))
  }

  ghost predicate DefinitionOk(spec: ValidatedWorkflowSpec) {
    ValidSpec(spec) && !Blank(spec.name)
  }

  ghost predicate Inv(db: Db) {
    && (forall d | d in db.definitions :: DefinitionOk(db.definitions[d]))
    && (forall w | w in db.workflows :: WorkflowOk(db, w))
    && (forall t | t in db.tasks :: TaskOk(db, t))
    && (forall t | t in db.tasks :: LedgerOk(db, t))
    && (forall a | a in db.attempts :: AttemptOk(db, a))
    && (forall a, b | a in db.attempts && b in db.attempts
                      && db.attempts[a].task == db.attempts[b].task
                      && db.attempts[a].ordinal == db.attempts[b].ordinal :: a == b)
  }

  // -------------------------------------------------------------------------------------- evolution

  predicate WorkflowReaches(s: WorkflowState, s': WorkflowState) {
    match s
    case Initializing => true
    case Running => !s'.Initializing?
    case Failing => s' == WorkflowState.Failing || s' == WorkflowState.Failed
    case Cancelling => s' == WorkflowState.Cancelling || s' == WorkflowState.Cancelled
    case _ => s' == s
  }

  ghost predicate WorkflowEvolves(r: WorkflowRow, r': WorkflowRow) {
    && r'.definition == r.definition && r'.input == r.input
    && WorkflowReaches(r.state, r'.state)
    && (r.state.Failing? ==> r'.failure == r.failure)
    && r.revision <= r'.revision
    && (r.revision == r'.revision || r.state.Terminal() ==> r' == r)
  }

  ghost predicate TaskEvolves(r: TaskRow, r': TaskRow) {
    && r'.maxAttempts == r.maxAttempts
    && r.revision <= r'.revision && r.nextOrdinal <= r'.nextOrdinal
    && (r.input.Some? ==> r'.input == r.input)
    && (r.state != TaskState.Pending ==> r'.state != TaskState.Pending)
    && (r.revision == r'.revision || r.state.Terminal() ==> r' == r)
  }

  ghost predicate AttemptEvolves(r: AttemptRow, r': AttemptRow) {
    && r'.task == r.task && r'.ordinal == r.ordinal && r'.worker == r.worker
    && r'.startDeadline == r.startDeadline
    && r.revision <= r'.revision
    && (r'.state.Claimed? ==> r.state.Claimed?)
    && (r.revision == r'.revision || !r.state.Active() ==>
          r'.(cancellationDeadline := r.cancellationDeadline) == r)
  }

  /** No row is ever deleted, terminal rows are final, histories only grow. */
  ghost predicate Evolves(db: Db, db': Db) {
    && (forall d | d in db.definitions :: d in db'.definitions && db'.definitions[d] == db.definitions[d])
    && (forall w | w in db.workflows :: w in db'.workflows && WorkflowEvolves(db.workflows[w], db'.workflows[w]))
    && (forall t | t in db.tasks :: t in db'.tasks && TaskEvolves(db.tasks[t], db'.tasks[t]))
    && (forall a | a in db.attempts :: a in db'.attempts && AttemptEvolves(db.attempts[a], db'.attempts[a]))
    && db.history <= db'.history
  }

  lemma EvolvesTransitive(a: Db, b: Db, c: Db)
    requires Evolves(a, b) && Evolves(b, c)
    ensures Evolves(a, c)
  {
  }

  /** Resolution is stable: what a snapshot resolved, every later database resolves to the same input. */
  lemma ResolutionStable(s: Db, db: Db, w: WorkflowId, def: TaskDefinition, input: PyValue)
    requires Evolves(s, db)
    requires ReadyInput(def, input, OutputsOf(s, w, def.dependencies)).Some?
    ensures ReadyInput(def, input, OutputsOf(db, w, def.dependencies)) ==
            ReadyInput(def, input, OutputsOf(s, w, def.dependencies))
  {
    assert OutputsOf(db, w, def.dependencies) == OutputsOf(s, w, def.dependencies);
  }
}
