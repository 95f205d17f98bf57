/** Late, duplicate and mis-ordered calls: what a finished attempt still accepts, and what the order of the
    caller's reads is worth. */
module Fencing {
  import opened Wrappers
  import opened JsonCompat
  import opened Spec
  import opened Rows
  import opened Transactions
  import opened Invariant
  import opened Preservation
  import opened Settlement
  import opened Protocol

  predicate Names(action: Action, a: AttemptId) {
    (action.Start? || Settles(action)) && action.a == a
  }

  lemma FencedStep(trace: seq<Db>, step: Step, a: AttemptId)
    requires Sound(trace) && Enabled(trace, step.action) && Names(step.action, a)
    requires a in Last(trace).attempts && !Last(trace).attempts[a].state.Active()
    ensures Perform(trace, step).db == Last(trace)
  {
    if Settles(step.action) {
      SettlementBothOrNeither(trace, step);
    }
  }

  /** Fencing: once an attempt is terminal, every later start, success, failure or cancellation naming it
      leaves the whole database as it is, also while a later attempt of the same task is running. */
  lemma TerminalAttemptIsFenced(trace: seq<Db>, steps: seq<Step>, i: nat, k: nat, a: AttemptId)
    requires IsRun(trace, steps) && i <= k < |steps|
    requires a in trace[i].attempts && !trace[i].attempts[a].state.Active() && Names(steps[k].action, a)
    ensures trace[k + 1] == trace[k]
  {
    hide Inv, Evolves, Perform, Enabled;
    PrefixIsRun(trace, steps, k);
    RunsAreSound(trace[..k + 1], steps[..k]);
    assert Evolves(trace[..k + 1][i], trace[..k + 1][k]);
    StaysTerminal(trace[i], trace[k], a);
    FencedStep(trace[..k + 1], steps[k], a);
  }

  lemma StaysTerminal(s: Db, db: Db, a: AttemptId)
    requires Evolves(s, db) && a in s.attempts && !s.attempts[a].state.Active()
    ensures a in db.attempts && !db.attempts[a].state.Active()
  {
  }

  lemma DuplicateOf(db: Db, a: AttemptId, worker: SessionId, ea: int, t: TaskId, et: int, output: PyValue, now: Time)
    requires a in db.attempts && db.attempts[a].state.Succeeded? && t in db.tasks && db.tasks[t].output.Some?
    ensures var r := TaskSuccessTx(db, a, worker, ea, t, et, output, now);
      r.db == db && (r.status == Committed <==> PyEqual(output, db.tasks[t].output.value))
  {
  }

  lemma SucceededPair(trace: seq<Db>, a: AttemptId, t: TaskId, i: nat, j: nat)
    requires Sound(trace) && ReadPair(trace, a, t, i, j)
    requires a in Last(trace).attempts && Last(trace).attempts[a].state.Succeeded?
    ensures t in Last(trace).tasks && Last(trace).tasks[t].output.Some?
  {
    ReadEarlier(trace, i);
    SucceededSince(At(trace, i), Last(trace), a);
  }

  lemma SucceededSince(s: Db, db: Db, a: AttemptId)
    requires Evolves(s, db) && Inv(db) && a in s.attempts && db.attempts[a].state.Succeeded?
    ensures s.attempts[a].task == db.attempts[a].task
    ensures s.attempts[a].task in db.tasks && db.tasks[s.attempts[a].task].output.Some?
  {
    hide TaskOk, AttemptOk, LedgerOk, WorkflowOk;
    SucceededRows(db, a);
  }

  /** Idempotence: in every run, a repeated success callback for an attempt that SUCCEEDED changes nothing, and
      is accepted exactly when it carries the output stored for the task. */
  lemma DuplicateSuccess(
    trace: seq<Db>, steps: seq<Step>, a: AttemptId, worker: SessionId, t: TaskId, output: PyValue, i: nat, j: nat,
    now: Time)
    requires IsRun(trace, steps) && Enabled(trace, TaskSuccess(a, worker, t, output, i, j))
    requires a in Last(trace).attempts && Last(trace).attempts[a].state.Succeeded?
    ensures var r := Perform(trace, Step(TaskSuccess(a, worker, t, output, i, j), now));
      && r.db == Last(trace)
      && t in Last(trace).tasks && Last(trace).tasks[t].output.Some?
      && (r.status == Committed <==> PyEqual(output, Last(trace).tasks[t].output.value))
  {
    RunsAreSound(trace, steps);
    SucceededPair(trace, a, t, i, j);
    DuplicateOf(Last(trace), a, worker, At(trace, i).attempts[a].revision,
                t, At(trace, j).tasks[t].revision, output, now);
  }

  lemma SucceededRows(db: Db, a: AttemptId)
    requires forall t | t in db.tasks :: TaskOk(db, t)
    requires a in db.attempts && AttemptOk(db, a) && db.attempts[a].state.Succeeded?
    ensures db.attempts[a].task in db.tasks && db.tasks[db.attempts[a].task].output.Some?
  {
    assert TaskOk(db, db.attempts[a].task);
  }

  /** Internal failures are fenced only through their cause code: on a terminal attempt at the expected
      revision nothing is written exactly when the code is one of the three the engine uses. */
  lemma UnknownCodeIsNotFenced(
    g1: Db, g2: Db, db: Db, a: AttemptId, t: TaskId, et: int, cause: FailureCause, retryable: bool,
    readyAt: Option<Time>, lost: Option<SessionId>, now: Time)
    requires a in db.attempts && db.attempts[a].task == t && !db.attempts[a].state.Active() && t in g1.tasks
    ensures
      InternalFailureTx(g1, g2, db, a, db.attempts[a].revision, t, et, cause, retryable, readyAt, lost, now).db == db
      <==> KnownCode(cause.code)
  {
    var r := InternalFailureTx(g1, g2, db, a, db.attempts[a].revision, t, et, cause, retryable, readyAt, lost, now);
    if !KnownCode(cause.code) {
      assert r.db.attempts[a].revision == db.attempts[a].revision + 1;
    }
  }

  /** The settlement writes both rows exactly when the expected task revision is the current one; otherwise it leaves
      the attempt finished on a task that is still RUNNING, which no sound database holds. */
  ghost predicate NeedsCurrentRevision(db: Db, r: TxResult, a: AttemptId, t: TaskId, et: int)
    requires a in db.attempts && t in db.tasks
  {
    && (BothOrNeither(db, r, a, t) <==> et == db.tasks[t].revision)
    && (et != db.tasks[t].revision ==>
          && r.status != Committed && r.db.tasks == db.tasks && db.tasks[t].state.Running?
          && a in r.db.attempts && r.db.attempts[a].task == t && !r.db.attempts[a].state.Active()
          && !AttemptOk(r.db, a))
  }

  /** An attempt row the settlement matches, in state among states. */
  ghost predicate Matching(db: Db, a: AttemptId, t: TaskId, states: set<AttemptState>, ea: int) {
    RowsOk(db, a, t) && t in db.tasks && AttemptMatches(db, a, t, states, ea) && states <= ActiveStates
  }

  /** Success, retry and definitive failure, once their guards and their first UPDATE have matched. */
  lemma SettlementNeedsCurrentRevision(
    g: Db, db: Db, a: AttemptId, worker: SessionId, ea: int, t: TaskId, et: int, output: PyValue, readyAt: Time,
    cause: FailureCause, now: Time)
    requires Matching(db, a, t, ActiveStates, ea) && db.attempts[a].worker == worker
    ensures NeedsCurrentRevision(db, DefinitiveFailureTx(db, a, worker, ea, t, et, cause, now), a, t, et)
    ensures Matching(db, a, t, {AttemptState.Running}, ea) ==>
      NeedsCurrentRevision(db, TaskSuccessTx(db, a, worker, ea, t, et, output, now), a, t, et)
    ensures StateOf(g, t.workflow) == Some(WorkflowState.Running) && db.tasks[t].nextOrdinal <= db.tasks[t].maxAttempts
      ==> NeedsCurrentRevision(db, FailureWithRetryTx(g, db, a, worker, ea, t, et, readyAt, cause, now), a, t, et)
  {
    DefinitiveNeedsRevision(db, a, worker, ea, t, et, cause, now);
    if Matching(db, a, t, {AttemptState.Running}, ea) { SuccessNeedsRevision(db, a, worker, ea, t, et, output, now); }
    if StateOf(g, t.workflow) == Some(WorkflowState.Running) && db.tasks[t].nextOrdinal <= db.tasks[t].maxAttempts {
      RetryNeedsRevision(g, db, a, worker, ea, t, et, readyAt, cause, now);
    }
  }

  lemma DefinitiveNeedsRevision(
    db: Db, a: AttemptId, worker: SessionId, ea: int, t: TaskId, et: int, cause: FailureCause, now: Time)
    requires Matching(db, a, t, ActiveStates, ea) && db.attempts[a].worker == worker
    ensures NeedsCurrentRevision(db, DefinitiveFailureTx(db, a, worker, ea, t, et, cause, now), a, t, et)
  {
    var r := DefinitiveFailureTx(db, a, worker, ea, t, et, cause, now);
    if et != db.tasks[t].revision { assert r.db.attempts[a].revision == db.attempts[a].revision + 1; }
  }

  lemma SuccessNeedsRevision(
    db: Db, a: AttemptId, worker: SessionId, ea: int, t: TaskId, et: int, output: PyValue, now: Time)
    requires Matching(db, a, t, {AttemptState.Running}, ea) && db.attempts[a].worker == worker
    ensures NeedsCurrentRevision(db, TaskSuccessTx(db, a, worker, ea, t, et, output, now), a, t, et)
  {
    var r := TaskSuccessTx(db, a, worker, ea, t, et, output, now);
    if et != db.tasks[t].revision { assert r.db.attempts[a].revision == db.attempts[a].revision + 1; }
  }

  lemma RetryNeedsRevision(
    g: Db, db: Db, a: AttemptId, worker: SessionId, ea: int, t: TaskId, et: int, readyAt: Time, cause: FailureCause,
    now: Time)
    requires Matching(db, a, t, ActiveStates, ea) && db.attempts[a].worker == worker
    requires StateOf(g, t.workflow) == Some(WorkflowState.Running)
    requires db.tasks[t].nextOrdinal <= db.tasks[t].maxAttempts
    ensures NeedsCurrentRevision(db, FailureWithRetryTx(g, db, a, worker, ea, t, et, readyAt, cause, now), a, t, et)
  {
    var r := FailureWithRetryTx(g, db, a, worker, ea, t, et, readyAt, cause, now);
    if et != db.tasks[t].revision { assert r.db.attempts[a].revision == db.attempts[a].revision + 1; }
  }

  /** The two cancellations and the internal failure, likewise. */
  lemma EngineSettlementNeedsCurrentRevision(
    g1: Db, g2: Db, db: Db, a: AttemptId, worker: SessionId, ea: int, t: TaskId, et: int, cause: FailureCause,
    retryable: bool, readyAt: Option<Time>, lost: Option<SessionId>, now: Time)
    requires Matching(db, a, t, ActiveStates, ea) && t in g1.tasks
    ensures DrainingRead(g2, db, t) && db.attempts[a].worker == worker ==>
      NeedsCurrentRevision(db, CancellationAckTx(g1, g2, db, a, worker, ea, t, et, now), a, t, et)
    ensures DrainingRead(g2, db, t) && db.attempts[a].cancellationDeadline.Some?
            && db.attempts[a].cancellationDeadline.value <= now ==>
      NeedsCurrentRevision(db, CancellationDeadlineTx(g1, g2, db, a, ea, t, et, now), a, t, et)
    ensures KnownCode(cause.code) && FailureFilter(db.attempts[a], cause.code, lost, now) ==>
      NeedsCurrentRevision(
        db, InternalFailureTx(g1, g2, db, a, ea, t, et, cause, retryable, readyAt, lost, now), a, t, et)
  {
    if DrainingRead(g2, db, t) && db.attempts[a].worker == worker {
      AckNeedsRevision(g1, g2, db, a, worker, ea, t, et, now);
    }
    if DrainingRead(g2, db, t) && db.attempts[a].cancellationDeadline.Some?
       && db.attempts[a].cancellationDeadline.value <= now {
      DeadlineNeedsRevision(g1, g2, db, a, ea, t, et, now);
    }
    if KnownCode(cause.code) && FailureFilter(db.attempts[a], cause.code, lost, now) {
      InternalNeedsRevision(g1, g2, db, a, ea, t, et, cause, retryable, readyAt, lost, now);
    }
  }

  /** The guard read the workflow draining, and it is draining or settled by now. */
  ghost predicate DrainingRead(g2: Db, db: Db, t: TaskId) {
    && WorkflowMatches(g2, t.workflow, {WorkflowState.Failing, WorkflowState.Cancelling})
    && Evolves(g2, db)
  }

  lemma AckNeedsRevision(
    g1: Db, g2: Db, db: Db, a: AttemptId, worker: SessionId, ea: int, t: TaskId, et: int, now: Time)
    requires Matching(db, a, t, ActiveStates, ea) && db.attempts[a].worker == worker
    requires t in g1.tasks && DrainingRead(g2, db, t)
    ensures NeedsCurrentRevision(db, CancellationAckTx(g1, g2, db, a, worker, ea, t, et, now), a, t, et)
  {
    hide Evolves;
    DrainingStays(g2, db, t.workflow);
    var r := CancellationAckTx(g1, g2, db, a, worker, ea, t, et, now);
    if et != db.tasks[t].revision { assert r.db.attempts[a].revision == db.attempts[a].revision + 1; }
  }

  lemma DeadlineNeedsRevision(
    g1: Db, g2: Db, db: Db, a: AttemptId, ea: int, t: TaskId, et: int, now: Time)
    requires Matching(db, a, t, ActiveStates, ea) && db.attempts[a].cancellationDeadline.Some?
    requires db.attempts[a].cancellationDeadline.value <= now && t in g1.tasks && DrainingRead(g2, db, t)
    ensures NeedsCurrentRevision(db, CancellationDeadlineTx(g1, g2, db, a, ea, t, et, now), a, t, et)
  {
    hide Evolves;
    DrainingStays(g2, db, t.workflow);
    var r := CancellationDeadlineTx(g1, g2, db, a, ea, t, et, now);
    if et != db.tasks[t].revision { assert r.db.attempts[a].revision == db.attempts[a].revision + 1; }
  }

  lemma InternalNeedsRevision(
    g1: Db, g2: Db, db: Db, a: AttemptId, ea: int, t: TaskId, et: int, cause: FailureCause, retryable: bool,
    readyAt: Option<Time>, lost: Option<SessionId>, now: Time)
    requires Matching(db, a, t, ActiveStates, ea) && t in g1.tasks && KnownCode(cause.code)
    requires FailureFilter(db.attempts[a], cause.code, lost, now)
    ensures NeedsCurrentRevision(
      db, InternalFailureTx(g1, g2, db, a, ea, t, et, cause, retryable, readyAt, lost, now), a, t, et)
  {
    hide FailureFilter, KnownCode;
    var r := InternalFailureTx(g1, g2, db, a, ea, t, et, cause, retryable, readyAt, lost, now);
    if et != db.tasks[t].revision { assert r.db.attempts[a].revision == db.attempts[a].revision + 1; }
  }

  /** The order of the reads matters: a caller that read the task before the attempt was claimed holds a
      revision the task no longer has when the settlement writes. */
  lemma TaskReadBeforeClaimIsStale(s: Db, db: Db, a: AttemptId)
    requires Evolves(s, db) && a in db.attempts && AttemptOk(db, a) && db.attempts[a].state.Active()
    requires var t := db.attempts[a].task;
      t in s.tasks && TaskShape(s.tasks[t]) && TaskShape(db.tasks[t]) && !s.tasks[t].state.Running?
    ensures s.tasks[db.attempts[a].task].revision != db.tasks[db.attempts[a].task].revision
  {
  }
}
