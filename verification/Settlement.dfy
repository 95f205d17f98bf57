/**
  Settling an attempt and its task together: the six transactions that finish an attempt, and why the write
  to the task never misses once the write to the attempt has matched.
  */
module Settlement {
  import opened Wrappers
  import opened JsonCompat
  import opened Spec
  import opened Rows
  import opened Transactions
  import opened Invariant
  import opened Preservation

  // ------------------------------------------------------------------------------- both-or-neither

  /** An attempt that is still active pins its task: from any earlier moment at which the attempt existed,
      the task was RUNNING and its row has not changed since. This is what makes a revision read after the
      attempt still the current one when the settlement writes. */
  lemma ActiveAttemptPinsTask(s1: Db, s2: Db, db: Db, a: AttemptId)
    requires Evolves(s1, s2) && Evolves(s2, db) && Inv(s2) && Inv(db)
    requires a in s1.attempts && a in db.attempts && db.attempts[a].state.Active()
    ensures var t := s1.attempts[a].task;
      && db.attempts[a].task == t
      && t in s2.tasks && t in db.tasks && s2.tasks[t] == db.tasks[t] && db.tasks[t].state.Running?
  {
    PinnedRows(s1, s2, db, a);
  }

  lemma PinnedRows(s1: Db, s2: Db, db: Db, a: AttemptId)
    requires Evolves(s1, s2) && Evolves(s2, db)
    requires a in s1.attempts && db.attempts[a].state.Active()
    requires AttemptOk(s2, a) && AttemptOk(db, a)
    requires TaskShape(s2.tasks[s2.attempts[a].task]) && TaskShape(db.tasks[db.attempts[a].task])
    ensures s1.attempts[a].task == s2.attempts[a].task == db.attempts[a].task
    ensures s2.tasks[s2.attempts[a].task] == db.tasks[db.attempts[a].task]
    ensures db.tasks[db.attempts[a].task].state.Running?
  {
    assert AttemptEvolves(s2.attempts[a], db.attempts[a]);
  }

  /** A settlement that writes: both rows change, and the invariant-relevant shape of what they become. */
  ghost predicate IsSettlement(db: Db, db': Db, a: AttemptId, t: TaskId) {
    && a in db.attempts && a in db'.attempts && t in db.tasks && t in db'.tasks
    && var att, att' := db.attempts[a], db'.attempts[a];
    && var task, task' := db.tasks[t], db'.tasks[t];
    && att.task == t && att.state.Active() && task.state.Running?
    && db'.definitions == db.definitions && db'.workflows == db.workflows
    && db'.tasks == db.tasks[t := task'] && db'.attempts == db.attempts[a := att']
    && db.history <= db'.history
    && att' == att.(state := att'.state, revision := att.revision + 1, failure := att'.failure)
    && task' == task.(state := task'.state, revision := task.revision + 1, output := task'.output,
                      retryReadyAt := task'.retryReadyAt, failure := task'.failure)
    && AttemptShape(att') && !att'.state.Active()
    && TaskShape(task') && !task'.state.Running? && !task'.state.Runnable? && !task'.state.Pending?
    && LatestAttempt(task'.state, att'.state) && (task'.state.Failed? ==> task'.failure == att'.failure)
    && (task'.state.Cancelled? ==>
          StateOf(db, t.workflow).Some? &&
          var wf := StateOf(db, t.workflow).value; wf.Failing? || wf.Cancelling? || wf.Failed? || wf.Cancelled?)
  }

  lemma SettlementEvolves(db: Db, db': Db, a: AttemptId, t: TaskId)
    requires IsSettlement(db, db', a, t)
    ensures Evolves(db, db')
  {
  }

  lemma SettlementTasks(db: Db, db': Db, a: AttemptId, t: TaskId)
    requires IsSettlement(db, db', a, t) && Evolves(db, db') && TaskOk(db, t) && LedgerOk(db, t)
    ensures TasksSettled(db, db') && WorkflowsSettled(db, db')
  {
    ResolutionStable(db, db', t.workflow, DefinitionOf(db, t), db.workflows[t.workflow].input);
    LedgerKept(db, db', t);
  }

  lemma SettlementAttempts(db: Db, db': Db, a: AttemptId, t: TaskId)
    requires IsSettlement(db, db', a, t)
    requires forall x | x in db.attempts :: AttemptOk(db, x)
    requires OrdinalsUnique(db)
    ensures AttemptsSettled(db, db') && OrdinalsUnique(db')
  {
    assert AttemptOk(db, a);
    forall x | x in db'.attempts ensures AttemptSettled(db, db', x) {
      assert AttemptOk(db, x);
    }
  }

  lemma SettlementPreserves(db: Db, db': Db, a: AttemptId, t: TaskId)
    requires Inv(db) && IsSettlement(db, db', a, t)
    ensures Advances(db, db')
  {
    SettlementEvolves(db, db', a, t);
    SettlementTasks(db, db', a, t);
    SettlementAttempts(db, db', a, t);
    Assemble(db, db');
  }

  // ------------------------------------------------------------------------- the settling transactions

  /** How a caller names a settlement: the attempt was read in s1 and its task in s2, no earlier. */
  ghost predicate ReadInOrder(s1: Db, s2: Db, db: Db, a: AttemptId, t: TaskId, expectedTask: int) {
    && Evolves(s1, s2) && Evolves(s2, db) && Inv(s2)
    && a in s1.attempts && s1.attempts[a].task == t
    && t in s2.tasks && s2.tasks[t].revision == expectedTask
  }

  /** What the reads guarantee at the moment of the write. */
  ghost predicate Pinned(db: Db, a: AttemptId, t: TaskId, expectedTask: int) {
    a in db.attempts && db.attempts[a].state.Active() ==>
      db.attempts[a].task == t && TaskMatches(db, t, {TaskState.Running}, expectedTask)
  }

  lemma ReadsPin(s1: Db, s2: Db, db: Db, a: AttemptId, t: TaskId, expectedTask: int)
    requires Inv(db) && ReadInOrder(s1, s2, db, a, t, expectedTask)
    ensures Pinned(db, a, t, expectedTask)
  {
    if a in db.attempts && db.attempts[a].state.Active() {
      ActiveAttemptPinsTask(s1, s2, db, a);
    }
  }

  ghost predicate RowsOk(db: Db, a: AttemptId, t: TaskId) {
    (a in db.attempts ==> AttemptOk(db, a)) && (t in db.tasks ==> TaskOk(db, t))
  }

  /** Both rows, or neither. */
  ghost predicate BothOrNeither(db: Db, r: TxResult, a: AttemptId, t: TaskId) {
    r.db == db || (r.status == Committed && IsSettlement(db, r.db, a, t))
  }

  lemma TaskSuccessSettles(
    db: Db, a: AttemptId, worker: SessionId, ea: int, t: TaskId, et: int, output: PyValue, now: Time)
    requires RowsOk(db, a, t) && Pinned(db, a, t, et)
    ensures BothOrNeither(db, TaskSuccessTx(db, a, worker, ea, t, et, output, now), a, t)
  {
  }

  lemma DefinitiveFailureSettles(
    db: Db, a: AttemptId, worker: SessionId, ea: int, t: TaskId, et: int, cause: FailureCause, now: Time)
    requires RowsOk(db, a, t) && Pinned(db, a, t, et)
    ensures BothOrNeither(db, DefinitiveFailureTx(db, a, worker, ea, t, et, cause, now), a, t)
  {
  }

  /** The retry budget the caller saw is the one the write tests, because the task row is pinned. */
  lemma FailureWithRetrySettles(
    g: Db, db: Db, a: AttemptId, worker: SessionId, ea: int, t: TaskId, et: int, readyAt: Time, cause: FailureCause,
    now: Time)
    requires RowsOk(db, a, t) && Pinned(db, a, t, et)
    requires a in db.attempts && db.attempts[a].state.Active() ==>
      db.tasks[t].nextOrdinal <= db.tasks[t].maxAttempts
    ensures BothOrNeither(db, FailureWithRetryTx(g, db, a, worker, ea, t, et, readyAt, cause, now), a, t)
  {
  }

  /** A workflow read draining is draining now, or has been drained. */
  lemma DrainingStays(g: Db, db: Db, w: WorkflowId)
    requires Evolves(g, db) && WorkflowMatches(g, w, {WorkflowState.Failing, WorkflowState.Cancelling})
    ensures StateOf(db, w).Some?
    ensures var wf := StateOf(db, w).value; wf.Failing? || wf.Cancelling? || wf.Failed? || wf.Cancelled?
  {
  }

  lemma CancellationAckSettles(
    g1: Db, g2: Db, db: Db, a: AttemptId, worker: SessionId, ea: int, t: TaskId, et: int, now: Time)
    requires RowsOk(db, a, t) && Pinned(db, a, t, et) && Evolves(g2, db)
    ensures BothOrNeither(db, CancellationAckTx(g1, g2, db, a, worker, ea, t, et, now), a, t)
  {
    hide Evolves;
    if WorkflowMatches(g2, t.workflow, {WorkflowState.Failing, WorkflowState.Cancelling}) {
      DrainingStays(g2, db, t.workflow);
    }
  }

  lemma CancellationDeadlineSettles(
    g1: Db, g2: Db, db: Db, a: AttemptId, ea: int, t: TaskId, et: int, now: Time)
    requires RowsOk(db, a, t) && Pinned(db, a, t, et) && Evolves(g2, db)
    ensures BothOrNeither(db, CancellationDeadlineTx(g1, g2, db, a, ea, t, et, now), a, t)
  {
    hide Evolves;
    if WorkflowMatches(g2, t.workflow, {WorkflowState.Failing, WorkflowState.Cancelling}) {
      DrainingStays(g2, db, t.workflow);
    }
  }

  predicate KnownCode(code: string) {
    code == "START_DEADLINE_EXPIRED" || code == "EXECUTION_TIMEOUT" || code == "WORKER_LOSS"
  }

  lemma InternalFailureSettles(
    g1: Db, g2: Db, db: Db, a: AttemptId, ea: int, t: TaskId, et: int, cause: FailureCause, retryable: bool,
    readyAt: Option<Time>, lost: Option<SessionId>, now: Time)
    requires RowsOk(db, a, t) && Pinned(db, a, t, et) && KnownCode(cause.code)
    ensures BothOrNeither(
              db, InternalFailureTx(g1, g2, db, a, ea, t, et, cause, retryable, readyAt, lost, now), a, t)
  {
  }

  lemma BothOrNeitherPreserves(db: Db, r: TxResult, a: AttemptId, t: TaskId)
    requires Inv(db) && BothOrNeither(db, r, a, t)
    ensures Advances(db, r.db)
  {
    EvolvesReflexive(db);
    if r.db != db { SettlementPreserves(db, r.db, a, t); }
  }

  // -------------------------------------------------------------------------------- attempt-only writes

  ghost predicate IsAttemptWrite(db: Db, db': Db, a: AttemptId) {
    && a in db.attempts && a in db'.attempts
    && db'.definitions == db.definitions && db'.workflows == db.workflows && db'.tasks == db.tasks
    && db'.attempts == db.attempts[a := db'.attempts[a]] && db.history <= db'.history
    && AttemptEvolves(db.attempts[a], db'.attempts[a])
    && AttemptShape(db'.attempts[a])
    && (db'.attempts[a].state == db.attempts[a].state
        || (db.attempts[a].state.Claimed? && db'.attempts[a].state.Running?))
  }

  lemma AttemptWriteAttempts(db: Db, db': Db, a: AttemptId)
    requires IsAttemptWrite(db, db', a)
    requires forall x | x in db.attempts :: AttemptOk(db, x)
    requires OrdinalsUnique(db)
    ensures AttemptsSettled(db, db') && OrdinalsUnique(db')
  {
    assert AttemptOk(db, a);
    forall x | x in db'.attempts ensures AttemptSettled(db, db', x) {
      assert AttemptOk(db, x);
    }
  }

  lemma AttemptWriteEvolves(db: Db, db': Db, a: AttemptId)
    requires IsAttemptWrite(db, db', a)
    ensures Evolves(db, db')
  {
  }

  lemma AttemptWritePreserves(db: Db, db': Db, a: AttemptId)
    requires Inv(db) && (IsAttemptWrite(db, db', a) || db' == db)
    ensures Advances(db, db')
  {
    EvolvesReflexive(db);
    if db' != db {
      AttemptWriteEvolves(db, db', a);
      AttemptWriteAttempts(db, db', a);
      Assemble(db, db');
    }
  }

  lemma StartWrites(db: Db, a: AttemptId, worker: SessionId, expected: int, now: Time)
    requires a in db.attempts ==> AttemptOk(db, a)
    ensures var r := StartTx(db, a, worker, expected, now); r.db == db || IsAttemptWrite(db, r.db, a)
  {
  }

  lemma CancelDeadlineWrites(db: Db, a: AttemptId, deadline: Time)
    requires a in db.attempts ==> AttemptOk(db, a)
    ensures var r := CancelDeadlineTx(db, a, deadline); r.db == db || IsAttemptWrite(db, r.db, a)
  {
  }
}
