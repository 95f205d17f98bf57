/**
  The worker endpoints (interfaces/http/routes/worker.py): starting an attempt, and reporting its success, failure
  or cancellation. A callback reads the attempt first and its task afterwards; while it works, others commit.
  */
module Callbacks {
  import opened Wrappers
  import opened JsonCompat
  import opened Rows
  import opened Failure
  import opened Transactions
  import opened Invariant
  import opened Preservation
  import opened Settlement
  import opened Protocol
  import opened Steps
  import opened Quiescence
  import opened Store
  import opened Registry
  import opened Promotion
  import opened Drain
  import opened Scheduler

  datatype Reply =
    | Accepted | AttemptNotFound | WrongSession | TaskNotFound | InvalidOutput | StaleAttempt | StaleSession

  /** The body of a callback; a failure is already classified. */
  datatype Payload =
    | SuccessReport(output: PyValue)
    | FailureReport(cause: FailureCause, retryable: bool)
    | CancelAck

  // --------------------------------------------------------------------- what a callback does, undisturbed

  /** Which callbacks are accepted when nobody interferes. */
  predicate Acceptable(db: Db, a: AttemptId, worker: SessionId, payload: Payload) {
    && a in db.attempts && db.attempts[a].worker == worker
    && var row := db.attempts[a];
    match payload
    case SuccessReport(output) =>
      && Compatible(output)
      && (row.state == AttemptState.Running
          || (row.state.Succeeded? && row.task in db.tasks
              && PyEqual(Frozen(output), db.tasks[row.task].output.GetOr(PyNone))))
    case FailureReport(_, _) => row.state.Active()
    case CancelAck => row.state.Active() && IsDraining(db, row.task.workflow)
  }

  /** What became of attempt and task. A failed task waits five seconds for its retry, or its workflow fails with it. */
  predicate Recorded(db: Db, db': Db, a: AttemptId, t: TaskId, payload: Payload, now: Time)
    requires t in db.tasks && t in db'.tasks && a in db'.attempts
  {
    match payload
    case SuccessReport(output) =>
      && db'.attempts[a].state.Succeeded? && db'.tasks[t].state.Succeeded?
      && (db.tasks[t].state.Succeeded? || db'.tasks[t].output == Some(Frozen(output)))
    case FailureReport(cause, retryable) =>
      && db'.attempts[a].state.Failed? && db'.attempts[a].failure == Some(cause)
      && RetriedOrFailed(db, db', t, retryable, cause, now + 5)
      && (db'.tasks[t].state.Failed? ==> TurnedBy(db, db', t.workflow, cause))
    case CancelAck => db'.attempts[a].state.Cancelled? && db'.tasks[t].state.Cancelled?
  }

  // ---------------------------------------------------------------------------------------- proof steps

  /** Both rows changed: seen from the workflow, its task left RUNNING. */
  lemma SettlementSettlesTo(db: Db, db': Db, a: AttemptId, t: TaskId)
    requires IsSettlement(db, db', a, t)
    ensures SettledTo(db, db', t, db'.tasks[t].state)
  {
  }

  /** The budget the caller saw on the task row is the one the UPDATE tests: the active attempt pins the row. */
  lemma RetryStep(
    s1: Db, s2: Db, g: Db, db: Db, a: AttemptId, worker: SessionId, t: TaskId, et: int, readyAt: Time,
    cause: FailureCause, now: Time)
    requires ReadInOrder(s1, s2, db, a, t, et) && Inv(db)
    requires s2.tasks[t].nextOrdinal <= s2.tasks[t].maxAttempts
    ensures var r := FailureWithRetryTx(g, db, a, worker, s1.attempts[a].revision, t, et, readyAt, cause, now);
      BothOrNeither(db, r, a, t) && Advances(db, r.db)
  {
    hide Inv, Evolves, BothOrNeither, FailureWithRetryTx;
    ReadsPin(s1, s2, db, a, t, et);
    RowsAreOk(db, a, t);
    if a in db.attempts && db.attempts[a].state.Active() {
      ActiveAttemptPinsTask(s1, s2, db, a);
    }
    FailureWithRetrySettles(g, db, a, worker, s1.attempts[a].revision, t, et, readyAt, cause, now);
    BothOrNeitherPreserves(
      db, FailureWithRetryTx(g, db, a, worker, s1.attempts[a].revision, t, et, readyAt, cause, now), a, t);
  }

  // ----------------------------------------------------------------------------------------- starting

  /** Its session may start attempt a, or has started it: the session is live and owns the attempt, which is RUNNING, or
      is CLAIMED with its start deadline ahead. */
  predicate MayStart(db: Db, registry: WorkerRegistry, a: AttemptId, worker: SessionId, now: Time)
    reads registry
  {
    && worker in registry.sessions && now - registry.sessions[worker].lastHeartbeat <= registry.livenessTimeout
    && a in db.attempts && db.attempts[a].worker == worker
    && (db.attempts[a].state == AttemptState.Running
        || (db.attempts[a].state.Claimed? && now <= db.attempts[a].startDeadline))
  }

  lemma StartAlone(db: Db, a: AttemptId, worker: SessionId, now: Time)
    requires Inv(db)
    ensures var r := StartTx(db, a, worker, 1, now);
      && (r.status == Committed <==>
            && a in db.attempts && db.attempts[a].worker == worker
            && (db.attempts[a].state == AttemptState.Running
                || (db.attempts[a].state.Claimed? && now <= db.attempts[a].startDeadline)))
      && (r.status == Committed ==> a in r.db.attempts && r.db.attempts[a].state == AttemptState.Running)
      && (r.status != Committed ==> r.db == db)
  {
    hide TaskOk, WorkflowOk, LedgerOk;
    if a in db.attempts { assert AttemptOk(db, a); }
  }

  /** CLAIMED to RUNNING, for a live session and within the start deadline. */
  method AcknowledgeStart(store: Store, registry: WorkerRegistry, a: AttemptId, worker: SessionId, now: Time)
    returns (reply: Reply)
    requires store.Valid()
    modifies store
    ensures store.Continues(old(store.log))
    ensures store.quiet && AllQuiescent(old(store.Db())) ==> AllQuiescent(store.Db())
    ensures store.quiet ==>
      && (reply.Accepted? <==> MayStart(old(store.Db()), registry, a, worker, now))
      && (reply.Accepted? ==> a in store.attempts && store.attempts[a].state == AttemptState.Running)
      && (!reply.Accepted? ==> store.Db() == old(store.Db()))
  {
    hide Inv, Evolves, IsRun, Leads, AllQuiescent;
    ghost var log, db := store.log, store.Db();
    StandsStill(store);
    StartAlone(db, a, worker, now);
    if !registry.Live(worker, now) {
      return StaleSession;
    }
    store.Others();
    ghost var l := store.log;
    var status := store.CommitWorkerExecutionStart(a, worker, 1, now);
    GoesOn(store, log, l);
    if store.quiet && AllQuiescent(db) { AttemptsRest(db, store.Db()); }
    reply := if status == Committed then Accepted else StaleAttempt;
  }

  lemma AttemptsRest(db: Db, db': Db)
    requires AllQuiescent(db)
    requires db'.definitions == db.definitions && db'.workflows == db.workflows && db'.tasks == db.tasks
    ensures AllQuiescent(db')
  {
    forall w | w in db'.workflows ensures Quiescent(db', w) {
      assert Quiescent(db, w);
      TasksDecideRest(db, db', w);
    }
  }

  lemma TasksDecideRest(db: Db, db': Db, w: WorkflowId)
    requires w in db.workflows && Quiescent(db, w)
    requires db'.definitions == db.definitions && db'.workflows == db.workflows && db'.tasks == db.tasks
    ensures Quiescent(db', w)
  {
    if SomeTaskRunning(db, w) {
      var t :| RunningTaskOf(db, w, t);
      assert RunningTaskOf(db', w, t);
    }
    if SomeTaskFailed(db', w) {
      var t :| FailedTaskOf(db', w, t);
      assert FailedTaskOf(db, w, t);
    }
    if db.workflows[w].state.Running? {
      forall t | t in db'.tasks && t.workflow == w ensures Waiting(db', t) {
        assert Waiting(db, t);
      }
    }
  }

  // ----------------------------------------------------------------------------------------- success

  /** The answer to a callback on a quiet store: accepted exactly when acceptable, recorded if so and without
      effect otherwise; and the scheduler is left with nothing to do if it had nothing to do before. */
  ghost predicate Answered(
    db: Db, db': Db, a: AttemptId, worker: SessionId, payload: Payload, now: Time, reply: Reply)
  {
    && (reply.Accepted? <==> Acceptable(db, a, worker, payload))
    && (reply.Accepted? ==>
          && a in db.attempts && a in db'.attempts
          && db.attempts[a].task in db.tasks && db.attempts[a].task in db'.tasks
          && Recorded(db, db', a, db.attempts[a].task, payload, now))
    && (!reply.Accepted? ==> db' == db)
    && (AllQuiescent(db) ==> AllQuiescent(db'))
  }

  lemma RejectionAnswers(db: Db, a: AttemptId, worker: SessionId, payload: Payload, now: Time, reply: Reply)
    requires !Acceptable(db, a, worker, payload) && !reply.Accepted?
    ensures Answered(db, db, a, worker, payload, now, reply)
  {
  }

  /** The replies left once attempt and task were found. */
  predicate Settling(reply: Reply) {
    reply.Accepted? || reply.StaleAttempt? || reply.InvalidOutput?
  }

  /** The success transaction on its own reads. */
  lemma SuccessAlone(db: Db, a: AttemptId, worker: SessionId, output: PyValue, now: Time)
    requires a in db.attempts && db.attempts[a].worker == worker && db.attempts[a].task in db.tasks
    requires RowsOk(db, a, db.attempts[a].task)
    ensures var row := db.attempts[a];
      var r := TaskSuccessTx(db, a, worker, row.revision, row.task, db.tasks[row.task].revision, output, now);
      && (r.status == Committed <==>
            row.state == AttemptState.Running
            || (row.state.Succeeded? && PyEqual(output, db.tasks[row.task].output.GetOr(PyNone))))
      && (r.status == Committed && row.state == AttemptState.Running ==>
            IsSettlement(db, r.db, a, row.task) && r.db.tasks[row.task].state.Succeeded?
            && r.db.attempts[a].state.Succeeded? && r.db.tasks[row.task].output == Some(output))
      && (r.status == Committed && row.state != AttemptState.Running ==>
            r.db == db && db.tasks[row.task].state.Succeeded?)
      && (r.status != Committed ==> r.db == db)
  {
  }

  /** Advancing after a success leaves its workflow at rest. */
  lemma SuccessRests(
    db: Db, settled: Db, db': Db, registry: WorkerRegistry, startDeadline: Time, t: TaskId, now: Time)
    requires AllQuiescent(db) && (settled == db || SettledTo(db, settled, t, TaskState.Succeeded))
    requires HasItsTasks(settled, t.workflow) && Evolves(settled, db')
    requires Advanced(settled, db', registry, startDeadline, t.workflow, now)
    requires !settled.workflows[t.workflow].state.Initializing?
    ensures AllQuiescent(db')
  {
    hide AllTasksIn, FullMembership, SucceededWith, Served, HandedOut;
    var w := t.workflow;
    UntouchedMoved(db, w);
    TouchesTransitive(db, settled, db', w);
    assert Quiescent(db, w);
    if settled.workflows[w].state.Running? { NoFailureAdded(db, settled, t); }
    assert w in db'.workflows && Quiescent(db', w);
    AllQuiescentAfter(db, db', w);
  }

  lemma NoFailureAdded(db: Db, settled: Db, t: TaskId)
    requires settled == db || SettledTo(db, settled, t, TaskState.Succeeded)
    requires !SomeTaskFailed(db, t.workflow)
    ensures !SomeTaskFailed(settled, t.workflow)
  {
    if SomeTaskFailed(settled, t.workflow) {
      var x :| FailedTaskOf(settled, t.workflow, x);
      assert FailedTaskOf(db, t.workflow, x);
    }
  }

  /** What an accepted success transaction says of the attempt it read and of the task, now and later. */
  lemma SuccessRecorded(
    db: Db, settled: Db, db': Db, a: AttemptId, worker: SessionId, output: PyValue, now: Time)
    requires a in db.attempts && db.attempts[a].worker == worker && db.attempts[a].task in db.tasks
    requires Compatible(output) && RowsOk(db, a, db.attempts[a].task) && Evolves(settled, db')
    requires var row := db.attempts[a];
      var r := TaskSuccessTx(db, a, worker, row.revision, row.task, db.tasks[row.task].revision, Frozen(output), now);
      r.status == Committed && settled == r.db
    ensures var t := db.attempts[a].task;
      && Acceptable(db, a, worker, SuccessReport(output))
      && t in db'.tasks && a in db'.attempts && Recorded(db, db', a, t, SuccessReport(output), now)
      && t in settled.tasks && settled.tasks[t].state.Succeeded?
      && (settled == db || SettledTo(db, settled, t, TaskState.Succeeded))
  {
    hide TaskSuccessTx, SettledTo, IsSettlement, RowsOk;
    var t := db.attempts[a].task;
    SuccessAlone(db, a, worker, Frozen(output), now);
    if settled != db {
      SettlementSettlesTo(db, settled, a, t);
      TaskFound(db, settled, a, t);
    }
    TaskStays(settled, db', t);
    AttemptStays(settled, db', a);
  }

  lemma SuccessAnswers(
    db: Db, settled: Db, db': Db, registry: WorkerRegistry, startDeadline: Time, a: AttemptId, worker: SessionId,
    output: PyValue, now: Time)
    requires Inv(db) && Inv(settled) && Evolves(settled, db')
    requires a in db.attempts && db.attempts[a].worker == worker && db.attempts[a].task in db.tasks
    requires Compatible(output)
    requires var row := db.attempts[a];
      var r := TaskSuccessTx(db, a, worker, row.revision, row.task, db.tasks[row.task].revision, Frozen(output), now);
      r.status == Committed && settled == r.db
    requires var w := db.attempts[a].task.workflow;
      w in settled.workflows ==> Advanced(settled, db', registry, startDeadline, w, now)
    ensures Answered(db, db', a, worker, SuccessReport(output), now, Accepted)
  {
    hide Inv, Evolves, Advanced, TaskSuccessTx, IsSettlement, SettledTo, AllQuiescent, HasItsTasks, Acceptable,
         Recorded;
    var t := db.attempts[a].task;
    RowsAreOk(db, a, t);
    SuccessRecorded(db, settled, db', a, worker, output, now);
    StartedHasTasks(settled, t);
    HasItsTasksMeans(settled, t.workflow);
    if AllQuiescent(db) { SuccessRests(db, settled, db', registry, startDeadline, t, now); }
  }

  /** A terminal task row is final. */
  lemma TaskStays(db: Db, db': Db, t: TaskId)
    requires Evolves(db, db') && t in db.tasks && db.tasks[t].state.Terminal()
    ensures t in db'.tasks && db'.tasks[t] == db.tasks[t]
  {
  }

  lemma AttemptStays(db: Db, db': Db, a: AttemptId)
    requires Evolves(db, db') && a in db.attempts && !db.attempts[a].state.Active()
    ensures a in db'.attempts && db'.attempts[a].state == db.attempts[a].state
    ensures db'.attempts[a].failure == db.attempts[a].failure
  {
    assert AttemptEvolves(db.attempts[a], db'.attempts[a]);
  }

  /** The attempt row was read at index i of the run, its task row at j. */
  ghost predicate ReadRows(
    store: Store, i: nat, s1: Db, j: nat, s2: Db, a: AttemptId, worker: SessionId, row: AttemptRow, task: TaskRow)
    reads store
  {
    && i <= j && ReadAt(store.log, i, s1) && ReadAt(store.log, j, s2)
    && a in s1.attempts && s1.attempts[a] == row && row.worker == worker
    && row.task in s2.tasks && s2.tasks[row.task] == task
  }

  /** The attempt row was read in s1, the task row in s2. */
  method ReportSuccess(
    store: Store, registry: WorkerRegistry, startDeadline: Time, ghost s1: Db, ghost i: nat, ghost s2: Db, ghost j: nat,
    a: AttemptId, worker: SessionId, row: AttemptRow, task: TaskRow, output: PyValue, now: Time)
    returns (reply: Reply)
    requires store.Valid() && ReadRows(store, i, s1, j, s2, a, worker, row, task)
    modifies store
    ensures Settling(reply)
    ensures store.Continues(old(store.log))
    ensures store.quiet && s1 == s2 == old(store.Db()) ==>
              Answered(s1, store.Db(), a, worker, SuccessReport(output), now, reply)
    ensures store.quiet ==> NewcomersGiven(old(store.Db()), store.Db(), registry, now + startDeadline, now)
    ensures store.quiet && reply.Accepted? ==>
              row.task.workflow in store.workflows && Served(store.Db(), registry, row.task.workflow, now)
  {
    hide Inv, Evolves, IsRun, Leads, Advanced, TaskSuccessTx, Answered, Acceptable, NewcomersGiven, Served;
    ghost var log, db := store.log, store.Db();
    StandsStill(store);
    NoNewcomers(db, db, registry, now + startDeadline, now);
    Since(store, j, s2);
    WorkflowExists(s2, db, row.task);
    var frozen := FreezeJson(output);
    if !frozen.Json? {
      BadOutput(db, a, worker, output, now);
      return InvalidOutput;
    }
    store.Others();
    ghost var l := store.log;
    ReadLater(log, l, i, s1);
    ReadLater(log, l, j, s2);
    var status := store.CommitWorkerTaskSuccess(
      a, worker, row.revision, row.task, task.revision, frozen.value, now, i, j);
    GoesOn(store, log, l);
    ghost var settled := store.Db();
    SuccessAddsNoAttempt(db, a, worker, row.revision, row.task, task.revision, frozen.value, now);
    if store.quiet { NoNewcomers(db, settled, registry, now + startDeadline, now); }
    if status != Committed {
      if store.quiet && s1 == s2 == db { SuccessRejected(db, a, worker, output, now); }
      return StaleAttempt;
    }
    l := store.log;
    store.Others();
    GoesOn(store, log, l);
    l := store.log;
    AdvanceWorkflow(store, registry, startDeadline, row.task.workflow, now);
    GoesOn(store, log, l);
    if store.quiet {
      Follows(store, l, settled);
      AdvanceServes(settled, store.Db(), registry, startDeadline, row.task.workflow, now);
      AdvanceGives(settled, store.Db(), registry, startDeadline, row.task.workflow, now);
      NewcomersTransitive(db, settled, store.Db(), registry, now + startDeadline, now);
    }
    if store.quiet && s1 == s2 == db {
      SuccessAnswers(db, settled, store.Db(), registry, startDeadline, a, worker, output, now);
    }
    reply := Accepted;
  }

  lemma SuccessAddsNoAttempt(
    db: Db, a: AttemptId, worker: SessionId, ea: int, t: TaskId, et: int, output: PyValue, now: Time)
    ensures var db' := TaskSuccessTx(db, a, worker, ea, t, et, output, now).db;
      db'.attempts.Keys == db.attempts.Keys && db'.workflows == db.workflows
  {
  }

  lemma BadOutput(db: Db, a: AttemptId, worker: SessionId, output: PyValue, now: Time)
    requires !Compatible(output)
    ensures Answered(db, db, a, worker, SuccessReport(output), now, InvalidOutput)
  {
  }

  lemma SuccessRejected(db: Db, a: AttemptId, worker: SessionId, output: PyValue, now: Time)
    requires Inv(db) && a in db.attempts && db.attempts[a].worker == worker && db.attempts[a].task in db.tasks
    requires var row := db.attempts[a];
      TaskSuccessTx(db, a, worker, row.revision, row.task, db.tasks[row.task].revision, Frozen(output), now).status
      != Committed
    ensures var row := db.attempts[a];
      var r := TaskSuccessTx(db, a, worker, row.revision, row.task, db.tasks[row.task].revision, Frozen(output), now);
      r.db == db && Answered(db, db, a, worker, SuccessReport(output), now, StaleAttempt)
  {
    hide Inv, TaskSuccessTx, AllQuiescent;
    RowsAreOk(db, a, db.attempts[a].task);
    SuccessAlone(db, a, worker, Frozen(output), now);
  }

  // ------------------------------------------------------------------------------------------ failure

  const RETRY_AFTER: Time := 5

  lemma RetryAlone(db: Db, a: AttemptId, worker: SessionId, readyAt: Time, cause: FailureCause, now: Time)
    requires a in db.attempts && db.attempts[a].worker == worker && db.attempts[a].task in db.tasks
    requires RowsOk(db, a, db.attempts[a].task)
    requires var task := db.tasks[db.attempts[a].task];
      StateOf(db, db.attempts[a].task.workflow) == Some(WorkflowState.Running) && task.nextOrdinal <= task.maxAttempts
    ensures var row := db.attempts[a];
      var r := FailureWithRetryTx(
                 db, db, a, worker, row.revision, row.task, db.tasks[row.task].revision, readyAt, cause, now);
      && (r.status == Committed <==> row.state.Active())
      && (r.status == Committed ==>
            && IsSettlement(db, r.db, a, row.task) && EndedBy(r.db.attempts[a], cause)
            && r.db.tasks[row.task].state.RetryWait? && r.db.tasks[row.task].retryReadyAt == Some(readyAt))
      && (r.status != Committed ==> r.db == db)
  {
  }

  lemma DefinitiveAlone(db: Db, a: AttemptId, worker: SessionId, cause: FailureCause, now: Time)
    requires a in db.attempts && db.attempts[a].worker == worker && db.attempts[a].task in db.tasks
    requires RowsOk(db, a, db.attempts[a].task)
    ensures var row := db.attempts[a];
      var r := DefinitiveFailureTx(db, a, worker, row.revision, row.task, db.tasks[row.task].revision, cause, now);
      && (r.status == Committed <==> row.state.Active())
      && (r.status == Committed ==>
            && IsSettlement(db, r.db, a, row.task) && EndedBy(r.db.attempts[a], cause)
            && r.db.tasks[row.task].state.Failed? && r.db.tasks[row.task].failure == Some(cause))
      && (r.status != Committed ==> r.db == db)
  {
  }

  lemma FailureAnswers(
    db: Db, settled: Db, db': Db, a: AttemptId, worker: SessionId, cause: FailureCause, retryable: bool, now: Time)
    requires Inv(db) && Evolves(settled, db')
    requires a in db.attempts && db.attempts[a].worker == worker && db.attempts[a].task in db.tasks
    requires db.attempts[a].state.Active()
    requires var t := db.attempts[a].task;
      && IsSettlement(db, settled, a, t) && EndedBy(settled.attempts[a], cause)
      && RetriedOrFailed(db, settled, t, retryable, cause, now + 5)
    requires var t := db.attempts[a].task;
      if settled.tasks[t].state.RetryWait? then db' == settled
      else && Touches(settled, db', t.workflow) && t.workflow in db'.workflows && Quiescent(db', t.workflow)
           && TurnedBy(settled, db', t.workflow, cause)
    ensures Answered(db, db', a, worker, FailureReport(cause, retryable), now, Accepted)
  {
    hide Inv, IsSettlement, AllQuiescent, Quiescent, Touches;
    var t := db.attempts[a].task;
    TaskFound(db, settled, a, t);
    var state := settled.tasks[t].state;
    SettlementSettlesTo(db, settled, a, t);
    UntouchedMoved(db, t.workflow);
    AttemptStays(settled, db', a);
    if state.Failed? {
      TaskStays(settled, db', t);
      SettledTouches(db, settled, db', t, state);
    }
    if AllQuiescent(db) {
      if state.RetryWait? { SettledTouches(db, settled, settled, t, state); }
      SettledRests(db, settled, db', t, state);
    }
  }

  lemma TaskFound(db: Db, settled: Db, a: AttemptId, t: TaskId)
    requires IsSettlement(db, settled, a, t)
    ensures t in settled.tasks
  {
  }

  lemma SettledTouches(db: Db, settled: Db, db': Db, t: TaskId, state: TaskState)
    requires SettledTo(db, settled, t, state) && (db' == settled || Touches(settled, db', t.workflow))
    ensures Touches(db, db', t.workflow)
  {
    if db' != settled { TouchesTransitive(db, settled, db', t.workflow); }
  }

  /** Retries while the policy and the budget allow; otherwise the task FAILED, and with it the workflow fails. */
  method ReportFailure(
    store: Store, ghost s1: Db, ghost i: nat, ghost s2: Db, ghost j: nat, a: AttemptId, worker: SessionId,
    row: AttemptRow, task: TaskRow, cause: FailureCause, retryable: bool, now: Time)
    returns (reply: Reply)
    requires store.Valid() && ReadRows(store, i, s1, j, s2, a, worker, row, task)
    modifies store
    ensures Settling(reply)
    ensures store.Continues(old(store.log))
    ensures store.quiet && s1 == s2 == old(store.Db()) ==>
              Answered(s1, store.Db(), a, worker, FailureReport(cause, retryable), now, reply)
    ensures store.quiet ==> store.attempts.Keys == old(store.attempts.Keys)
  {
    hide Inv, Evolves, IsRun, Leads, Answered;
    ghost var log := store.log;
    store.Others();
    ghost var l, read, e := store.log, store.Db(), store.Now();
    var seen := StateOf(store.Db(), row.task.workflow);
    store.Others();
    GoesOn(store, log, l);
    ReadLater(l, store.log, e, read);
    l := store.log;
    ReadLater(log, l, i, s1);
    ReadLater(log, l, j, s2);
    if EvaluateRetryEligibility(task.nextOrdinal, task.maxAttempts, retryable, seen) {
      reply := ReportRetry(store, s1, i, s2, j, read, e, a, worker, row, task, cause, now);
    } else {
      reply := ReportDefinitive(store, s1, i, s2, j, a, worker, row, task, cause, retryable, now);
    }
    GoesOn(store, log, l);
  }

  /** The workflow's state was read in read, and admits a retry. */
  method ReportRetry(
    store: Store, ghost s1: Db, ghost i: nat, ghost s2: Db, ghost j: nat, ghost read: Db, ghost e: nat,
    a: AttemptId, worker: SessionId, row: AttemptRow, task: TaskRow, cause: FailureCause, now: Time)
    returns (reply: Reply)
    requires store.Valid() && ReadRows(store, i, s1, j, s2, a, worker, row, task) && ReadAt(store.log, e, read)
    requires EvaluateRetryEligibility(task.nextOrdinal, task.maxAttempts, true, StateOf(read, row.task.workflow))
    modifies store
    ensures Settling(reply)
    ensures store.Continues(old(store.log))
    ensures store.quiet && s1 == s2 == read == old(store.Db()) ==>
              Answered(s1, store.Db(), a, worker, FailureReport(cause, true), now, reply)
    ensures store.quiet ==> store.attempts.Keys == old(store.attempts.Keys)
  {
    hide Inv, Evolves, IsRun, Leads, Answered, FailureWithRetryTx, IsSettlement, Touches, Quiescent;
    ghost var db := store.Db();
    var status;
    ghost var g, d;
    status, g, d := store.CommitWorkerFailureWithRetry(
      a, worker, row.revision, row.task, task.revision, now + RETRY_AFTER, cause, now, i, j, e);
    reply := if status == Committed then Accepted else StaleAttempt;
    FailureAddsNoAttempt(
      g, d, a, worker, row.revision, row.task, task.revision, now + RETRY_AFTER, cause, now);
    if store.quiet && s1 == s2 == read == db {
      RowsAreOk(db, a, row.task);
      RetryAlone(db, a, worker, now + RETRY_AFTER, cause, now);
      EvolvesReflexive(store.Db());
      if status == Committed {
        FailureAnswers(db, store.Db(), store.Db(), a, worker, cause, true, now);
      } else {
        RejectionAnswers(db, a, worker, FailureReport(cause, true), now, StaleAttempt);
      }
    }
  }

  lemma FailureAddsNoAttempt(
    g: Db, db: Db, a: AttemptId, worker: SessionId, ea: int, t: TaskId, et: int, readyAt: Time, cause: FailureCause,
    now: Time)
    ensures FailureWithRetryTx(g, db, a, worker, ea, t, et, readyAt, cause, now).db.attempts.Keys == db.attempts.Keys
    ensures DefinitiveFailureTx(db, a, worker, ea, t, et, cause, now).db.attempts.Keys == db.attempts.Keys
  {
  }

  method ReportDefinitive(
    store: Store, ghost s1: Db, ghost i: nat, ghost s2: Db, ghost j: nat, a: AttemptId, worker: SessionId,
    row: AttemptRow, task: TaskRow, cause: FailureCause, retryable: bool, now: Time)
    returns (reply: Reply)
    requires store.Valid() && ReadRows(store, i, s1, j, s2, a, worker, row, task)
    modifies store
    ensures Settling(reply)
    ensures store.Continues(old(store.log))
    ensures store.quiet && s1 == s2 == old(store.Db())
            && !(retryable && StateOf(s1, row.task.workflow) == Some(WorkflowState.Running)
                 && task.nextOrdinal <= task.maxAttempts)
            ==> Answered(s1, store.Db(), a, worker, FailureReport(cause, retryable), now, reply)
    ensures store.quiet ==> store.attempts.Keys == old(store.attempts.Keys)
  {
    hide Inv, Evolves, IsRun, Leads, Answered, DefinitiveFailureTx, IsSettlement, Touches, Quiescent;
    ghost var log, db := store.log, store.Db();
    var status := store.CommitWorkerDefinitiveFailure(
      a, worker, row.revision, row.task, task.revision, cause, now, i, j);
    ghost var l, settled := store.log, store.Db();
    FailureAddsNoAttempt(db, db, a, worker, row.revision, row.task, task.revision, now, cause, now);
    if status != Committed {
      if store.quiet && s1 == s2 == db {
        RowsAreOk(db, a, row.task);
        DefinitiveAlone(db, a, worker, cause, now);
        RejectionAnswers(db, a, worker, FailureReport(cause, retryable), now, StaleAttempt);
      }
      return StaleAttempt;
    }
    DefinitiveFails(db, a, worker, row.revision, row.task, task.revision, cause, now);
    FollowFailure(store, row.task, cause, now);
    GoesOn(store, log, l);
    Follows(store, l, settled);
    if store.quiet && s1 == s2 == db
       && !(retryable && StateOf(s1, row.task.workflow) == Some(WorkflowState.Running)
            && task.nextOrdinal <= task.maxAttempts) {
      RowsAreOk(db, a, row.task);
      DefinitiveAlone(db, a, worker, cause, now);
      FailureAnswers(db, settled, store.Db(), a, worker, cause, retryable, now);
    }
    reply := Accepted;
  }

  lemma DefinitiveFails(
    db: Db, a: AttemptId, worker: SessionId, ea: int, t: TaskId, et: int, cause: FailureCause, now: Time)
    requires DefinitiveFailureTx(db, a, worker, ea, t, et, cause, now).status == Committed
    ensures var db' := DefinitiveFailureTx(db, a, worker, ea, t, et, cause, now).db;
      t in db'.tasks && db'.tasks[t].state.Failed? && db'.tasks[t].failure == Some(cause)
  {
  }

  // ------------------------------------------------------------------------------------ cancellation

  lemma AckAlone(db: Db, a: AttemptId, worker: SessionId, now: Time)
    requires a in db.attempts && db.attempts[a].worker == worker && db.attempts[a].task in db.tasks
    requires RowsOk(db, a, db.attempts[a].task)
    ensures var row := db.attempts[a];
      var r := CancellationAckTx(db, db, db, a, worker, row.revision, row.task, db.tasks[row.task].revision, now);
      && (r.status == Committed <==> row.state.Active() && IsDraining(db, row.task.workflow))
      && (r.status == Committed ==>
            && IsSettlement(db, r.db, a, row.task)
            && r.db.attempts[a].state.Cancelled? && r.db.tasks[row.task].state.Cancelled?)
      && (r.status != Committed ==> r.db == db)
  {
  }

  lemma AckAnswers(db: Db, settled: Db, db': Db, a: AttemptId, worker: SessionId, now: Time)
    requires Inv(db) && Inv(settled) && Evolves(settled, db')
    requires a in db.attempts && db.attempts[a].worker == worker && db.attempts[a].task in db.tasks
    requires db.attempts[a].state.Active() && IsDraining(db, db.attempts[a].task.workflow)
    requires var t := db.attempts[a].task;
      && IsSettlement(db, settled, a, t)
      && settled.attempts[a].state.Cancelled? && settled.tasks[t].state.Cancelled?
    requires var w := db.attempts[a].task.workflow;
      IsDraining(settled, w) && HasItsTasks(settled, w) ==> Drained(settled, db', w, now)
    ensures Answered(db, db', a, worker, CancelAck, now, Accepted)
  {
    hide Inv, IsSettlement, AllQuiescent, Quiescent, Touches, Drained, HasItsTasks;
    var t := db.attempts[a].task;
    SettlementSettlesTo(db, settled, a, t);
    TaskFound(db, settled, a, t);
    TaskStays(settled, db', t);
    AttemptStays(settled, db', a);
    StartedHasTasks(settled, t);
    DrainedRests(settled, db', t.workflow, now);
    DrainedFrame(settled, db', t.workflow, now);
    SettledTouches(db, settled, db', t, TaskState.Cancelled);
    if AllQuiescent(db) { AllQuiescentAfter(db, db', t.workflow); }
  }

  lemma AckAddsNoAttempt(
    g1: Db, g2: Db, db: Db, a: AttemptId, worker: SessionId, ea: int, t: TaskId, et: int, now: Time)
    ensures CancellationAckTx(g1, g2, db, a, worker, ea, t, et, now).db.attempts.Keys == db.attempts.Keys
  {
  }

  method ReportCancelAck(
    store: Store, ghost s1: Db, ghost i: nat, ghost s2: Db, ghost j: nat, a: AttemptId, worker: SessionId,
    row: AttemptRow, task: TaskRow, now: Time)
    returns (reply: Reply)
    requires store.Valid() && ReadRows(store, i, s1, j, s2, a, worker, row, task)
    modifies store
    ensures Settling(reply)
    ensures store.Continues(old(store.log))
    ensures store.quiet && s1 == s2 == old(store.Db()) ==> Answered(s1, store.Db(), a, worker, CancelAck, now, reply)
    ensures store.quiet ==> store.attempts.Keys == old(store.attempts.Keys)
  {
    hide Inv, Evolves, IsRun, Leads, Answered, CancellationAckTx, IsSettlement, Touches, Quiescent, Drained,
         FullMembership;
    ghost var log, db := store.log, store.Db();
    var status;
    ghost var g1, g2, d;
    status, g1, g2, d := store.CommitWorkerCancellationAck(
      a, worker, row.revision, row.task, task.revision, now, i, j);
    ghost var l, settled := store.log, store.Db();
    ghost var alone := store.quiet && s1 == s2 == db;
    AckAddsNoAttempt(g1, g2, d, a, worker, row.revision, row.task, task.revision, now);
    if alone {
      RowsAreOk(db, a, row.task);
      AckAlone(db, a, worker, now);
    }
    if status != Committed {
      if alone { RejectionAnswers(db, a, worker, CancelAck, now, StaleAttempt); }
      return StaleAttempt;
    }
    store.Others();
    GoesOn(store, log, l);
    ghost var l' := store.log;
    DrainWorkflow(store, row.task.workflow, now);
    GoesOn(store, log, l');
    if alone {
      Follows(store, l', settled);
      AckAnswers(db, settled, store.Db(), a, worker, now);
    }
    reply := Accepted;
  }

  // ---------------------------------------------------------------------------------------- the endpoint

  /** Reads the attempt, then its task, and settles by the kind of report. The 500 for a missing task cannot
      happen. On a quiet store the answer is exact. */
  method ReportCallback(
    store: Store, registry: WorkerRegistry, startDeadline: Time, a: AttemptId, worker: SessionId, payload: Payload,
    now: Time)
    returns (reply: Reply)
    requires store.Valid()
    modifies store
    ensures store.Continues(old(store.log))
    ensures !reply.TaskNotFound? && !reply.StaleSession?
    ensures store.quiet ==> Answered(old(store.Db()), store.Db(), a, worker, payload, now, reply)
    ensures store.quiet ==> NewcomersGiven(old(store.Db()), store.Db(), registry, now + startDeadline, now)
  {
    hide Inv, Evolves, IsRun, Leads, Answered, Acceptable, NewcomersGiven;
    ghost var log, s1, i := store.log, store.Db(), store.Now();
    StandsStill(store);
    NoNewcomers(s1, s1, registry, now + startDeadline, now);
    if a !in store.attempts {
      UnknownAnswers(s1, a, worker, payload, now, AttemptNotFound);
      return AttemptNotFound;
    }
    var row := store.attempts[a];
    if row.worker != worker {
      UnknownAnswers(s1, a, worker, payload, now, WrongSession);
      return WrongSession;
    }
    store.Others();
    ghost var l, s2, j := store.log, store.Db(), store.Now();
    ReadLater(log, l, i, s1);
    TaskExists(s1, s2, a);
    if row.task !in store.tasks {
      assert false;
      return TaskNotFound;
    }
    var task := store.tasks[row.task];
    match payload {
      case SuccessReport(output) =>
        reply := ReportSuccess(store, registry, startDeadline, s1, i, s2, j, a, worker, row, task, output, now);
      case FailureReport(cause, retryable) =>
        reply := ReportFailure(store, s1, i, s2, j, a, worker, row, task, cause, retryable, now);
      case CancelAck =>
        reply := ReportCancelAck(store, s1, i, s2, j, a, worker, row, task, now);
    }
    GoesOn(store, log, l);
    if store.quiet && !payload.SuccessReport? { NoNewcomers(s1, store.Db(), registry, now + startDeadline, now); }
  }

  lemma UnknownAnswers(db: Db, a: AttemptId, worker: SessionId, payload: Payload, now: Time, reply: Reply)
    requires a !in db.attempts || db.attempts[a].worker != worker
    requires reply.AttemptNotFound? || reply.WrongSession?
    ensures Answered(db, db, a, worker, payload, now, reply)
  {
  }

  lemma TaskExists(s1: Db, s2: Db, a: AttemptId)
    requires Inv(s1) && Evolves(s1, s2) && a in s1.attempts
    ensures s1.attempts[a].task in s2.tasks
  {
    hide TaskOk, WorkflowOk, LedgerOk;
    assert AttemptOk(s1, a);
  }
}
