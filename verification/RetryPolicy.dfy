/** The retry policy of domain/failure.py and the predicates of the settling UPDATEs say the same. */
module RetryPolicy {
  import opened Wrappers
  import opened Rows
  import opened Failure
  import opened Transactions
  import opened Invariant
  import opened Settlement
  import opened Protocol

  /** An internal failure that commits leaves its task in RETRY_WAIT exactly if it is retryable, the guard read the
      workflow RUNNING and the row as it is has attempts left, and FAILED else: what the policy says of that row. */
  lemma InternalFailureIsPolicy(
    g1: Db, g2: Db, db: Db, a: AttemptId, ea: int, t: TaskId, et: int, cause: FailureCause, retryable: bool,
    readyAt: Option<Time>, lost: Option<SessionId>, now: Time)
    requires RowsOk(db, a, t) && Pinned(db, a, t, et) && KnownCode(cause.code)
    requires InternalFailureTx(g1, g2, db, a, ea, t, et, cause, retryable, readyAt, lost, now).status == Committed
    ensures var db' := InternalFailureTx(g1, g2, db, a, ea, t, et, cause, retryable, readyAt, lost, now).db;
      && t in db.tasks && t in db'.tasks
      && db'.tasks[t].state ==
         (if retryable && readyAt.Some? && StateOf(g2, t.workflow) == Some(WorkflowState.Running)
             && db.tasks[t].nextOrdinal <= db.tasks[t].maxAttempts
          then TaskState.RetryWait else TaskState.Failed)
      && (db'.tasks[t].state.RetryWait? <==>
            readyAt.Some? && EvaluateRetryEligibility(
              db.tasks[t].nextOrdinal, db.tasks[t].maxAttempts, retryable, StateOf(g2, t.workflow)))
  {
  }

  /** The worker's retry commits only where the policy allows it of the row as it is, though the row the caller asked
      about was read before. */
  lemma WorkerRetryIsPolicy(
    s: Db, e: Db, g: Db, db: Db, a: AttemptId, worker: SessionId, ea: int, t: TaskId, et: int, readyAt: Time,
    cause: FailureCause, now: Time)
    requires RowsOk(db, a, t) && Pinned(db, a, t, et) && t in s.tasks
    requires a in db.attempts && db.attempts[a].state.Active() ==> t in db.tasks && s.tasks[t] == db.tasks[t]
    requires EvaluateRetryEligibility(s.tasks[t].nextOrdinal, s.tasks[t].maxAttempts, true, StateOf(e, t.workflow))
    requires FailureWithRetryTx(g, db, a, worker, ea, t, et, readyAt, cause, now).status == Committed
    ensures var db' := FailureWithRetryTx(g, db, a, worker, ea, t, et, readyAt, cause, now).db;
      && t in db.tasks && t in db'.tasks && db'.tasks[t].state.RetryWait?
      && StateOf(g, t.workflow) == Some(WorkflowState.Running)
      && db.tasks[t].nextOrdinal <= db.tasks[t].maxAttempts
      && EvaluateRetryEligibility(db.tasks[t].nextOrdinal, db.tasks[t].maxAttempts, true, StateOf(g, t.workflow))
  {
  }

  /** The failure that step reports may be retried, by the rows it lands on: it is retryable, the task row of the
      database before the write has attempts left, and the guard read the workflow RUNNING. */
  ghost predicate PolicyAllows(trace: seq<Db>, action: Action)
    requires trace != []
    requires action.InternalFailure? || action.FailureWithRetry?
  {
    && action.t in Last(trace).tasks
    && var task := Last(trace).tasks[action.t];
    match action
    case InternalFailure(a, t, cause, retryable, readyAt, lost, i, j, g1, g2) =>
      && retryable && readyAt.Some? && task.nextOrdinal <= task.maxAttempts
      && StateOf(At(trace, g2), t.workflow) == Some(WorkflowState.Running)
    case FailureWithRetry(a, worker, t, readyAt, cause, i, j, e, g) =>
      task.nextOrdinal <= task.maxAttempts && StateOf(At(trace, g), t.workflow) == Some(WorkflowState.Running)
    case _ => false
  }

  /** The same, asked of the engine's policy. */
  ghost predicate PolicyEvaluates(trace: seq<Db>, action: Action)
    requires trace != []
    requires action.InternalFailure? || action.FailureWithRetry?
  {
    && action.t in Last(trace).tasks
    && var task := Last(trace).tasks[action.t];
    match action
    case InternalFailure(a, t, cause, retryable, readyAt, lost, i, j, g1, g2) =>
      readyAt.Some? && EvaluateRetryEligibility(
        task.nextOrdinal, task.maxAttempts, retryable, StateOf(At(trace, g2), t.workflow))
    case FailureWithRetry(a, worker, t, readyAt, cause, i, j, e, g) =>
      EvaluateRetryEligibility(task.nextOrdinal, task.maxAttempts, true, StateOf(At(trace, g), t.workflow))
    case _ => false
  }

  /** In every run, in whatever interleaving: a failure that commits leaves its task in RETRY_WAIT if and only if it is
      retryable, its guard read the workflow RUNNING and attempts are left, and FAILED otherwise, which is what the
      engine's policy answers about these rows; the worker's retry commits only in that case. */
  lemma RetriesFollowPolicy(trace: seq<Db>, steps: seq<Step>, k: nat)
    requires IsRun(trace, steps) && k < |steps|
    requires steps[k].action.InternalFailure? || steps[k].action.FailureWithRetry?
    requires Perform(trace[..k + 1], steps[k]).status == Committed
    ensures var t := steps[k].action.t;
      && t in trace[k].tasks && t in trace[k + 1].tasks && trace[k].tasks[t].state.Running?
      && trace[k + 1].tasks[t].state ==
         if PolicyAllows(trace[..k + 1], steps[k].action) then TaskState.RetryWait else TaskState.Failed
    ensures steps[k].action.FailureWithRetry? ==> PolicyAllows(trace[..k + 1], steps[k].action)
    ensures PolicyAllows(trace[..k + 1], steps[k].action) <==> PolicyEvaluates(trace[..k + 1], steps[k].action)
  {
    hide Inv, Evolves, FailureWithRetryTx, InternalFailureTx;
    PrefixIsRun(trace, steps, k);
    var before, step := trace[..k + 1], steps[k];
    RunsAreSound(before, steps[..k]);
    assert Last(before) == trace[k];
    StepFollowsPolicy(before, step);
  }

  lemma StepFollowsPolicy(trace: seq<Db>, step: Step)
    requires Sound(trace) && Enabled(trace, step.action)
    requires step.action.InternalFailure? || step.action.FailureWithRetry?
    requires Perform(trace, step).status == Committed
    ensures var t := step.action.t;
      var db' := Perform(trace, step).db;
      && t in Last(trace).tasks && t in db'.tasks && Last(trace).tasks[t].state.Running?
      && db'.tasks[t].state ==
         if PolicyAllows(trace, step.action) then TaskState.RetryWait else TaskState.Failed
    ensures step.action.FailureWithRetry? ==> PolicyAllows(trace, step.action)
  {
    hide Inv, Evolves, RowsOk, Pinned, FailureWithRetryTx, InternalFailureTx;
    var db, now := Last(trace), step.now;
    match step.action
    case InternalFailure(a, t, cause, retryable, readyAt, lost, i, j, g1, g2) =>
      PairPins(trace, a, t, i, j);
      InternalFailureIsPolicy(At(trace, g1), At(trace, g2), db, a, At(trace, i).attempts[a].revision,
                              t, At(trace, j).tasks[t].revision, cause, retryable, readyAt, lost, now);
      CommittedInternalFailure(At(trace, g1), At(trace, g2), db, a, At(trace, i).attempts[a].revision,
                               t, At(trace, j).tasks[t].revision, cause, retryable, readyAt, lost, now);
    case FailureWithRetry(a, worker, t, readyAt, cause, i, j, e, g) =>
      PairPins(trace, a, t, i, j);
      WorkerRetryIsPolicy(At(trace, j), At(trace, e), At(trace, g), db, a, worker, At(trace, i).attempts[a].revision,
                          t, At(trace, j).tasks[t].revision, readyAt, cause, now);
      CommittedRetry(At(trace, g), db, a, worker, At(trace, i).attempts[a].revision,
                     t, At(trace, j).tasks[t].revision, readyAt, cause, now);
    case _ =>
  }

  lemma CommittedInternalFailure(
    g1: Db, g2: Db, db: Db, a: AttemptId, ea: int, t: TaskId, et: int, cause: FailureCause, retryable: bool,
    readyAt: Option<Time>, lost: Option<SessionId>, now: Time)
    requires InternalFailureTx(g1, g2, db, a, ea, t, et, cause, retryable, readyAt, lost, now).status == Committed
    ensures t in db.tasks && db.tasks[t].state.Running?
  {
  }

  lemma CommittedRetry(
    g: Db, db: Db, a: AttemptId, worker: SessionId, ea: int, t: TaskId, et: int, readyAt: Time, cause: FailureCause,
    now: Time)
    requires FailureWithRetryTx(g, db, a, worker, ea, t, et, readyAt, cause, now).status == Committed
    ensures t in db.tasks && db.tasks[t].state.Running?
  {
  }
}
