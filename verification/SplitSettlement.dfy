/**
  Settlements statement by statement. Under READ COMMITTED the UPDATE of the task sees what others committed after the
  UPDATE of the attempt; only the attempt row, which the first UPDATE locked, is still as it was. Evaluated so, each of
  the six settlements does what it does when both statements see the later database.
  */
module SplitSettlement {
  import opened Wrappers
  import opened Rows
  import opened Transactions
  import opened Invariant
  import opened Preservation
  import opened Settlement
  import opened Protocol

  /** Others committed between the two statements, but not to the locked attempt row. */
  ghost predicate Held(d1: Db, d2: Db, a: AttemptId) {
    Advances(d1, d2) && a in d1.attempts && a in d2.attempts && d2.attempts[a] == d1.attempts[a]
  }

  /** The first UPDATE, on d1: did the attempt row match? */
  ghost predicate FirstMatches(trace: seq<Db>, step: Step)
    requires trace != [] && Enabled(trace, step.action) && Settles(step.action)
  {
    var db, now := Last(trace), step.now;
    match step.action
    case TaskSuccess(a, worker, t, output, i, j) =>
      && AttemptMatches(db, a, t, {AttemptState.Running}, At(trace, i).attempts[a].revision)
      && db.attempts[a].worker == worker
    case FailureWithRetry(a, worker, t, readyAt, cause, i, j, e, g) =>
      && StateOf(At(trace, g), t.workflow) == Some(WorkflowState.Running)
      && AttemptMatches(db, a, t, ActiveStates, At(trace, i).attempts[a].revision)
      && db.attempts[a].worker == worker
    case DefinitiveFailure(a, worker, t, cause, i, j) =>
      && AttemptMatches(db, a, t, ActiveStates, At(trace, i).attempts[a].revision)
      && db.attempts[a].worker == worker
    case CancellationAck(a, worker, t, i, j, g1, g2) =>
      && t in At(trace, g1).tasks
      && WorkflowMatches(At(trace, g2), t.workflow, {WorkflowState.Failing, WorkflowState.Cancelling})
      && AttemptMatches(db, a, t, ActiveStates, At(trace, i).attempts[a].revision)
      && db.attempts[a].worker == worker
    case CancellationDeadline(a, t, i, j, g1, g2) =>
      && t in At(trace, g1).tasks
      && WorkflowMatches(At(trace, g2), t.workflow, {WorkflowState.Failing, WorkflowState.Cancelling})
      && AttemptMatches(db, a, t, ActiveStates, At(trace, i).attempts[a].revision)
      && db.attempts[a].cancellationDeadline.Some? && db.attempts[a].cancellationDeadline.value <= now
    case InternalFailure(a, t, cause, retryable, readyAt, lost, i, j, g1, g2) =>
      && t in At(trace, g1).tasks
      && a in db.attempts && db.attempts[a].task == t
      && db.attempts[a].revision == At(trace, i).attempts[a].revision
      && FailureFilter(db.attempts[a], cause.code, lost, now)
  }

  /** The attempt row the first UPDATE writes, the task row the second writes on d2 if it matches one, and the event. */
  ghost function Updates(trace: seq<Db>, d2: Db, step: Step): (AttemptRow, Option<TaskRow>, Event)
    requires trace != [] && Enabled(trace, step.action) && Settles(step.action) && FirstMatches(trace, step)
  {
    var row := Last(trace).attempts[step.action.a];
    var expected := At(trace, step.action.j).tasks[step.action.t].revision;
    match step.action
    case TaskSuccess(a, worker, t, output, i, j) =>
      (FinishAttempt(row, AttemptState.Succeeded, None), SucceededTask(d2, t, expected, output), TaskExecutionSucceeded)
    case FailureWithRetry(a, worker, t, readyAt, cause, i, j, e, g) =>
      (FinishAttempt(row, AttemptState.Failed, Some(cause)), RetryingTask(d2, t, expected, readyAt),
       TaskExecutionRetrying(readyAt, cause.code))
    case DefinitiveFailure(a, worker, t, cause, i, j) =>
      (FinishAttempt(row, AttemptState.Failed, Some(cause)), FailedTask(d2, t, expected, cause),
       TaskExecutionFailed(cause.category, cause.code))
    case CancellationAck(a, worker, t, i, j, g1, g2) =>
      (FinishAttempt(row, AttemptState.Cancelled, None), CancelledTask(d2, t, expected),
       AttemptCancellationAcknowledged(worker))
    case CancellationDeadline(a, t, i, j, g1, g2) =>
      (FinishAttempt(row, AttemptState.Cancelled, None), CancelledTask(d2, t, expected),
       AttemptCancellationDeadlineExpired(step.now))
    case InternalFailure(a, t, cause, retryable, readyAt, lost, i, j, g1, g2) =>
      var task := InternallyFailedTask(At(trace, g2), d2, t, expected, cause, retryable, readyAt);
      (FinishAttempt(row, AttemptState.Failed, Some(cause)), task,
       InternalAttemptFailureSettled(cause.code, if task.Some? then task.value.state else TaskState.Failed))
  }

  /** The database both statements leave, published over d2; without a match the second adds nothing. */
  ghost function SplitWrite(trace: seq<Db>, d2: Db, step: Step): Db
    requires trace != [] && Enabled(trace, step.action) && Settles(step.action) && FirstMatches(trace, step)
  {
    var (attempt, task, event) := Updates(trace, d2, step);
    SettlePair(d2, step.action.a, attempt, step.action.t, task, OccConflict, event, step.now).db
  }

  lemma ReadsPinLater(trace: seq<Db>, d2: Db, a: AttemptId, t: TaskId, i: nat, j: nat)
    requires Sound(trace) && ReadPair(trace, a, t, i, j) && Advances(Last(trace), d2)
    ensures Pinned(d2, a, t, At(trace, j).tasks[t].revision) && RowsOk(d2, a, t)
    ensures a in d2.attempts && d2.attempts[a].state.Active() ==>
      t in d2.tasks && At(trace, j).tasks[t] == d2.tasks[t]
  {
    hide Inv, Evolves;
    ReadEarlier(trace, i);
    ReadEarlier(trace, j);
    InOrderReads(trace, i, j);
    EvolvesTransitive(At(trace, j), Last(trace), d2);
    ReadsPin(At(trace, i), At(trace, j), d2, a, t, At(trace, j).tasks[t].revision);
    RowsAreSound(d2, a, t);
    if a in d2.attempts && d2.attempts[a].state.Active() {
      ActiveAttemptPinsTask(At(trace, i), At(trace, j), d2, a);
    }
  }

  lemma InOrderReads(trace: seq<Db>, i: nat, j: nat)
    requires Sound(trace) && i <= j
    ensures Evolves(At(trace, i), At(trace, j))
  {
  }

  lemma RowsAreSound(db: Db, a: AttemptId, t: TaskId)
    requires Inv(db)
    ensures RowsOk(db, a, t)
  {
  }

  /** A transaction that changed the attempt's revision wrote both rows. */
  lemma Written(db: Db, r: TxResult, a: AttemptId, t: TaskId)
    requires BothOrNeither(db, r, a, t) && a in db.attempts && a in r.db.attempts
    requires r.db.attempts[a].revision != db.attempts[a].revision
    ensures r.status == Committed && IsSettlement(db, r.db, a, t)
  {
  }

  lemma SuccessSplit(trace: seq<Db>, d2: Db, step: Step)
    requires step.action.TaskSuccess?
    requires Sound(trace) && Enabled(trace, step.action) && FirstMatches(trace, step)
    requires Held(Last(trace), d2, step.action.a)
    ensures Updates(trace, d2, step).1.Some?
    ensures IsSettlement(d2, SplitWrite(trace, d2, step), step.action.a, step.action.t)
  {
    hide Inv, Evolves, AttemptShape, TaskShape, LatestAttempt, AttemptOk, TaskOk;
    var TaskSuccess(a, worker, t, output, i, j) := step.action;
    var ea, et := At(trace, i).attempts[a].revision, At(trace, j).tasks[t].revision;
    ReadsPinLater(trace, d2, a, t, i, j);
    TaskSuccessSettles(d2, a, worker, ea, t, et, output, step.now);
    Written(d2, TaskSuccessTx(d2, a, worker, ea, t, et, output, step.now), a, t);
  }

  lemma RetrySplit(trace: seq<Db>, d2: Db, step: Step)
    requires step.action.FailureWithRetry?
    requires Sound(trace) && Enabled(trace, step.action) && FirstMatches(trace, step)
    requires Held(Last(trace), d2, step.action.a)
    ensures Updates(trace, d2, step).1.Some?
    ensures IsSettlement(d2, SplitWrite(trace, d2, step), step.action.a, step.action.t)
  {
    hide Inv, Evolves, AttemptShape, TaskShape, LatestAttempt, AttemptOk, TaskOk;
    var FailureWithRetry(a, worker, t, readyAt, cause, i, j, e, g) := step.action;
    var ea, et := At(trace, i).attempts[a].revision, At(trace, j).tasks[t].revision;
    ReadsPinLater(trace, d2, a, t, i, j);
    FailureWithRetrySettles(At(trace, g), d2, a, worker, ea, t, et, readyAt, cause, step.now);
    Written(d2, FailureWithRetryTx(At(trace, g), d2, a, worker, ea, t, et, readyAt, cause, step.now), a, t);
  }

  lemma DefinitiveSplit(trace: seq<Db>, d2: Db, step: Step)
    requires step.action.DefinitiveFailure?
    requires Sound(trace) && Enabled(trace, step.action) && FirstMatches(trace, step)
    requires Held(Last(trace), d2, step.action.a)
    ensures Updates(trace, d2, step).1.Some?
    ensures IsSettlement(d2, SplitWrite(trace, d2, step), step.action.a, step.action.t)
  {
    hide Inv, Evolves, AttemptShape, TaskShape, LatestAttempt, AttemptOk, TaskOk;
    var DefinitiveFailure(a, worker, t, cause, i, j) := step.action;
    var ea, et := At(trace, i).attempts[a].revision, At(trace, j).tasks[t].revision;
    ReadsPinLater(trace, d2, a, t, i, j);
    DefinitiveFailureSettles(d2, a, worker, ea, t, et, cause, step.now);
    Written(d2, DefinitiveFailureTx(d2, a, worker, ea, t, et, cause, step.now), a, t);
  }

  lemma AckSplit(trace: seq<Db>, d2: Db, step: Step)
    requires step.action.CancellationAck?
    requires Sound(trace) && Enabled(trace, step.action) && FirstMatches(trace, step)
    requires Held(Last(trace), d2, step.action.a)
    ensures Updates(trace, d2, step).1.Some?
    ensures IsSettlement(d2, SplitWrite(trace, d2, step), step.action.a, step.action.t)
  {
    hide Inv, Evolves, AttemptShape, TaskShape, LatestAttempt, AttemptOk, TaskOk;
    var CancellationAck(a, worker, t, i, j, g1, g2) := step.action;
    var ea, et := At(trace, i).attempts[a].revision, At(trace, j).tasks[t].revision;
    ReadsPinLater(trace, d2, a, t, i, j);
    ReadEarlier(trace, g2);
    EvolvesTransitive(At(trace, g2), Last(trace), d2);
    CancellationAckSettles(At(trace, g1), At(trace, g2), d2, a, worker, ea, t, et, step.now);
    Written(d2, CancellationAckTx(At(trace, g1), At(trace, g2), d2, a, worker, ea, t, et, step.now), a, t);
  }

  lemma DeadlineSplit(trace: seq<Db>, d2: Db, step: Step)
    requires step.action.CancellationDeadline?
    requires Sound(trace) && Enabled(trace, step.action) && FirstMatches(trace, step)
    requires Held(Last(trace), d2, step.action.a)
    ensures Updates(trace, d2, step).1.Some?
    ensures IsSettlement(d2, SplitWrite(trace, d2, step), step.action.a, step.action.t)
  {
    hide Inv, Evolves, AttemptShape, TaskShape, LatestAttempt, AttemptOk, TaskOk;
    var CancellationDeadline(a, t, i, j, g1, g2) := step.action;
    var ea, et := At(trace, i).attempts[a].revision, At(trace, j).tasks[t].revision;
    ReadsPinLater(trace, d2, a, t, i, j);
    ReadEarlier(trace, g2);
    EvolvesTransitive(At(trace, g2), Last(trace), d2);
    CancellationDeadlineSettles(At(trace, g1), At(trace, g2), d2, a, ea, t, et, step.now);
    Written(d2, CancellationDeadlineTx(At(trace, g1), At(trace, g2), d2, a, ea, t, et, step.now), a, t);
  }

  lemma InternalSplit(trace: seq<Db>, d2: Db, step: Step)
    requires step.action.InternalFailure?
    requires Sound(trace) && Enabled(trace, step.action) && FirstMatches(trace, step)
    requires Held(Last(trace), d2, step.action.a)
    ensures Updates(trace, d2, step).1.Some?
    ensures IsSettlement(d2, SplitWrite(trace, d2, step), step.action.a, step.action.t)
  {
    hide Inv, Evolves, AttemptShape, TaskShape, LatestAttempt, AttemptOk, TaskOk;
    var InternalFailure(a, t, cause, retryable, readyAt, lost, i, j, g1, g2) := step.action;
    var ea, et := At(trace, i).attempts[a].revision, At(trace, j).tasks[t].revision;
    ReadsPinLater(trace, d2, a, t, i, j);
    InternalFailureSettles(At(trace, g1), At(trace, g2), d2, a, ea, t, et, cause, retryable, readyAt, lost, step.now);
    Written(
      d2,
      InternalFailureTx(
        At(trace, g1), At(trace, g2), d2, a, ea, t, et, cause, retryable, readyAt, lost, step.now),
      a, t);
  }

  /** Once the first UPDATE has matched, the second matches on whatever others have made of the database since: both
      rows are written, and the invariant is kept. */
  lemma SplitWritesBothRows(trace: seq<Db>, d2: Db, step: Step)
    requires Sound(trace) && Enabled(trace, step.action) && Settles(step.action) && FirstMatches(trace, step)
    requires Held(Last(trace), d2, step.action.a)
    ensures Updates(trace, d2, step).1.Some?
    ensures IsSettlement(d2, SplitWrite(trace, d2, step), step.action.a, step.action.t)
    ensures Advances(d2, SplitWrite(trace, d2, step))
  {
    hide Inv, Evolves, IsSettlement, FirstMatches, Updates, SplitWrite;
    if step.action.TaskSuccess? {
      SuccessSplit(trace, d2, step);
    } else if step.action.FailureWithRetry? {
      RetrySplit(trace, d2, step);
    } else if step.action.DefinitiveFailure? {
      DefinitiveSplit(trace, d2, step);
    } else if step.action.CancellationAck? {
      AckSplit(trace, d2, step);
    } else if step.action.CancellationDeadline? {
      DeadlineSplit(trace, d2, step);
    } else {
      InternalSplit(trace, d2, step);
    }
    SettlementPreserves(d2, SplitWrite(trace, d2, step), step.action.a, step.action.t);
  }
}
