/**
  Each transaction keeps the invariant and is an evolution step, whatever database its guards were read
  from, as long as that database evolved into the one the write lands on.
  */
module Preservation {
  import opened Wrappers
  import opened JsonCompat
  import opened Spec
  import opened Rows
  import opened Readiness
  import opened Transactions
  import opened Invariant

  ghost predicate Advances(db: Db, db': Db) {
    Inv(db') && Evolves(db, db')
  }

  lemma EvolvesReflexive(db: Db)
    ensures Evolves(db, db)
  {
  }

  lemma AdvancesTransitive(a: Db, b: Db, c: Db)
    requires Advances(a, b) && Advances(b, c)
    ensures Advances(a, c)
  {
    EvolvesTransitive(a, b, c);
  }

  lemma AdvancesReflexive(db: Db)
    requires Inv(db)
    ensures Advances(db, db)
  {
    EvolvesReflexive(db);
  }

  // ------------------------------------------------------------------- rows a transaction leaves alone

  lemma TaskKept(db: Db, db': Db, t: TaskId)
    requires Evolves(db, db') && t in db.tasks && TaskOk(db, t)
    requires db'.tasks[t] == db.tasks[t]
    ensures TaskOk(db', t)
  {
    if db.tasks[t].input.Some? {
      ResolutionStable(db, db', t.workflow, DefinitionOf(db, t), db.workflows[t.workflow].input);
    }
  }

  lemma LedgerKept(db: Db, db': Db, t: TaskId)
    requires Evolves(db, db') && t in db.tasks && LedgerOk(db, t)
    requires db'.tasks[t].nextOrdinal == db.tasks[t].nextOrdinal
    ensures LedgerOk(db', t)
  {
    forall o | 1 <= o < db'.tasks[t].nextOrdinal
      ensures HasNumbered(db', t, o)
    {
      assert HasNumbered(db, t, o);
      var a :| Numbered(db, a, t, o);
      assert Numbered(db', a, t, o);
    }
  }

  lemma FailureKept(db: Db, db': Db, w: WorkflowId, failure: Option<FailureCause>)
    requires Evolves(db, db') && FailureOfSome(db, w, failure)
    ensures FailureOfSome(db', w, failure)
  {
    var t :| FailedWith(db, w, t, failure);
    assert FailedWith(db', w, t, failure);
  }

  lemma WorkflowKept(db: Db, db': Db, w: WorkflowId)
    requires Evolves(db, db') && w in db.workflows && WorkflowOk(db, w)
    requires db'.workflows[w] == db.workflows[w]
    requires forall t | t in db'.tasks && t.workflow == w :: t in db.tasks
    ensures WorkflowOk(db', w)
  {
    var failure := db.workflows[w].failure;
    if FailureOfSome(db, w, failure) { FailureKept(db, db', w, failure); }
  }

  lemma TaskDeclared(db: Db, t: TaskId)
    requires t in db.tasks && TaskOk(db, t)
    ensures Declared(db, t)
  {
  }

  lemma AttemptKept(db: Db, db': Db, a: AttemptId)
    requires a in db.attempts && AttemptOk(db, a) && a in db'.attempts && db'.attempts[a] == db.attempts[a]
    requires db.attempts[a].task in db'.tasks
    requires db'.tasks[db.attempts[a].task] == db.tasks[db.attempts[a].task]
    ensures AttemptOk(db', a)
  {
  }

  /** A task row of db' that is either the row of db or sound in its own right. */
  ghost predicate TaskSettled(db: Db, db': Db, t: TaskId)
    requires t in db'.tasks
  {
    if t in db.tasks && db'.tasks[t] == db.tasks[t] then true else TaskOk(db', t) && LedgerOk(db', t)
  }

  ghost predicate WorkflowSettled(db: Db, db': Db, w: WorkflowId)
    requires w in db'.workflows
  {
    || WorkflowOk(db', w)
    || (&& w in db.workflows && db'.workflows[w] == db.workflows[w]
        && (forall t | t in db'.tasks && t.workflow == w :: t in db.tasks))
  }

  /** An attempt row that is new or changed, or whose task changed, must be checked; the rest is kept. */
  ghost predicate AttemptSettled(db: Db, db': Db, a: AttemptId)
    requires a in db'.attempts
  {
    || AttemptOk(db', a)
    || (&& a in db.attempts && db'.attempts[a] == db.attempts[a]
        && db.attempts[a].task in db.tasks && db.attempts[a].task in db'.tasks
        && db'.tasks[db.attempts[a].task] == db.tasks[db.attempts[a].task])
  }

  ghost predicate TasksSettled(db: Db, db': Db) {
    forall t | t in db'.tasks :: TaskSettled(db, db', t)
  }

  ghost predicate WorkflowsSettled(db: Db, db': Db) {
    forall w | w in db'.workflows :: WorkflowSettled(db, db', w)
  }

  ghost predicate AttemptsSettled(db: Db, db': Db) {
    forall a | a in db'.attempts :: AttemptSettled(db, db', a)
  }

  ghost predicate OrdinalsUnique(db: Db) {
    forall a, b | a in db.attempts && b in db.attempts && db.attempts[a].task == db.attempts[b].task
                  && db.attempts[a].ordinal == db.attempts[b].ordinal :: a == b
  }

  lemma Assemble(db: Db, db': Db)
    requires Inv(db) && Evolves(db, db')
    requires forall d | d in db'.definitions :: DefinitionOk(db'.definitions[d])
    requires TasksSettled(db, db') && WorkflowsSettled(db, db') && AttemptsSettled(db, db')
    requires OrdinalsUnique(db')
    ensures Advances(db, db')
  {
    hide Evolves, TaskOk, LedgerOk, WorkflowOk, AttemptOk, DefinitionOk;
    forall t | t in db'.tasks ensures TaskOk(db', t) && LedgerOk(db', t) {
      assert TaskSettled(db, db', t);
      if t in db.tasks && db'.tasks[t] == db.tasks[t] {
        TaskKept(db, db', t);
        LedgerKept(db, db', t);
      }
    }
    forall w | w in db'.workflows ensures WorkflowOk(db', w) {
      assert WorkflowSettled(db, db', w);
      if !WorkflowOk(db', w) { WorkflowKept(db, db', w); }
    }
    forall a | a in db'.attempts ensures AttemptOk(db', a) {
      assert AttemptSettled(db, db', a);
      if !AttemptOk(db', a) { AttemptKept(db, db', a); }
    }
  }

  // -------------------------------------------------------------------------------- single-row moves

  /** A task that is not RUNNING moves, without its attempts, to RUNNABLE or CANCELLED. */
  ghost predicate TaskMoves(db: Db, t: TaskId, row: TaskRow)
    requires t in db.tasks && Declared(db, t)
  {
    var was := db.tasks[t];
    var wf := db.workflows[t.workflow].state;
    && was.state.Unstarted()
    && (row.state.Runnable? || row.state.Cancelled?)
    && TaskShape(row) && row.maxAttempts == was.maxAttempts && row.nextOrdinal == was.nextOrdinal
    && was.revision < row.revision
    && !wf.Initializing?
    && (row.state.Cancelled? ==> wf.Failing? || wf.Cancelling? || wf.Failed? || wf.Cancelled?)
    && (was.input.Some? ==> row.input == was.input)
    && (var def := DefinitionOf(db, t);
        was.input.None? && row.input.Some? ==>
          row.input == ReadyInput(def, db.workflows[t.workflow].input, OutputsOf(db, t.workflow, def.dependencies)))
  }

  lemma TaskMoveEvolves(db: Db, t: TaskId, row: TaskRow, event: Event, now: Time)
    requires t in db.tasks && Declared(db, t) && TaskMoves(db, t, row)
    ensures Evolves(db, MoveTask(db, t, row, event, now))
  {
  }

  lemma TaskMoveOk(db: Db, db': Db, t: TaskId, row: TaskRow)
    requires t in db.tasks && TaskOk(db, t) && LedgerOk(db, t) && TaskMoves(db, t, row)
    requires Evolves(db, db') && db'.workflows == db.workflows && db'.tasks == db.tasks[t := row]
    ensures TasksSettled(db, db') && WorkflowsSettled(db, db')
  {
    if row.input.Some? {
      ResolutionStable(db, db', t.workflow, DefinitionOf(db, t), db.workflows[t.workflow].input);
    }
    LedgerKept(db, db', t);
  }

  lemma TaskMoveAttempts(db: Db, db': Db, t: TaskId, row: TaskRow)
    requires forall a | a in db.attempts :: AttemptOk(db, a)
    requires t in db.tasks && Declared(db, t) && TaskMoves(db, t, row)
    requires db'.attempts == db.attempts && db'.tasks == db.tasks[t := row]
    ensures AttemptsSettled(db, db')
  {
    forall a | a in db'.attempts ensures AttemptSettled(db, db', a) {
      assert AttemptOk(db, a);
    }
  }

  lemma TaskMovePreserves(db: Db, t: TaskId, row: TaskRow, event: Event, now: Time)
    requires Inv(db) && t in db.tasks && Declared(db, t) && TaskMoves(db, t, row)
    ensures Advances(db, MoveTask(db, t, row, event, now))
  {
    var db' := MoveTask(db, t, row, event, now);
    TaskMoveEvolves(db, t, row, event, now);
    TaskMoveOk(db, db', t, row);
    TaskMoveAttempts(db, db', t, row);
    Assemble(db, db');
  }

  /** The input that the rows of snapshot s resolve to for task t. */
  ghost predicate ResolvedIn(s: Db, t: TaskId, input: JsonObject) {
    && t in s.tasks && Declared(s, t)
    && var def := DefinitionOf(s, t);
    ReadyInput(def, s.workflows[t.workflow].input, OutputsOf(s, t.workflow, def.dependencies)) == Some(input)
  }

  lemma ResolvedLater(s: Db, db: Db, t: TaskId, input: JsonObject)
    requires Evolves(s, db) && ResolvedIn(s, t, input)
    ensures ResolvedIn(db, t, input)
  {
    ResolutionStable(s, db, t.workflow, DefinitionOf(s, t), s.workflows[t.workflow].input);
  }

  lemma ReadinessMoves(g: Db, db: Db, t: TaskId, expected: int, input: JsonObject, now: Time)
    requires Evolves(g, db) && ResolvedIn(db, t, input) && TaskOk(db, t)
    requires ReadinessTx(g, db, t, expected, input, now).status == Committed
    ensures TaskMoves(db, t, ReadinessTx(g, db, t, expected, input, now).db.tasks[t])
  {
  }

  lemma ReadinessPreserves(s: Db, g: Db, db: Db, t: TaskId, input: JsonObject, now: Time)
    requires Inv(db) && Evolves(s, db) && Evolves(g, db) && ResolvedIn(s, t, input)
    ensures Advances(db, ReadinessTx(g, db, t, s.tasks[t].revision, input, now).db)
  {
    hide Evolves, TaskMoves, TaskOk, LedgerOk, WorkflowOk, AttemptOk;
    var r := ReadinessTx(g, db, t, s.tasks[t].revision, input, now);
    if r.status == Committed {
      ResolvedLater(s, db, t, input);
      ReadinessMoves(g, db, t, s.tasks[t].revision, input, now);
      TaskMovePreserves(db, t, r.db.tasks[t], TaskMarkedRunnable, now);
    } else {
      EvolvesReflexive(db);
    }
  }

  lemma RetryReadyMoves(g: Db, db: Db, t: TaskId, expected: int, now: Time)
    requires Evolves(g, db) && (t in db.tasks ==> TaskOk(db, t))
    requires RetryReadyTx(g, db, t, expected, now).status == Committed
    ensures Declared(db, t) && TaskMoves(db, t, RetryReadyTx(g, db, t, expected, now).db.tasks[t])
  {
  }

  lemma RetryReadyPreserves(g: Db, db: Db, t: TaskId, expected: int, now: Time)
    requires Inv(db) && Evolves(g, db)
    ensures Advances(db, RetryReadyTx(g, db, t, expected, now).db)
  {
    hide Evolves, TaskMoves, TaskOk, LedgerOk, WorkflowOk, AttemptOk;
    var r := RetryReadyTx(g, db, t, expected, now);
    if r.status == Committed {
      RetryReadyMoves(g, db, t, expected, now);
      TaskMovePreserves(db, t, r.db.tasks[t], TaskMarkedRunnable, now);
    } else {
      EvolvesReflexive(db);
    }
  }

  lemma DrainCancelMoves(g1: Db, g2: Db, db: Db, t: TaskId, expected: int, now: Time)
    requires Evolves(g2, db) && (t in db.tasks ==> TaskOk(db, t))
    requires DrainCancelTx(g1, g2, db, t, expected, now).status == Committed
    ensures Declared(db, t) && TaskMoves(db, t, DrainCancelTx(g1, g2, db, t, expected, now).db.tasks[t])
    ensures var r := DrainCancelTx(g1, g2, db, t, expected, now);
      r.db == MoveTask(db, t, r.db.tasks[t], TaskExecutionCancelled, now)
  {
  }

  lemma DrainCancelPreserves(g1: Db, g2: Db, db: Db, t: TaskId, expected: int, now: Time)
    requires Inv(db) && Evolves(g2, db)
    ensures Advances(db, DrainCancelTx(g1, g2, db, t, expected, now).db)
  {
    hide Evolves, TaskMoves, TaskOk, LedgerOk, WorkflowOk, AttemptOk;
    var r := DrainCancelTx(g1, g2, db, t, expected, now);
    EvolvesReflexive(db);
    if r.status == Committed {
      DrainCancelMoves(g1, g2, db, t, expected, now);
      TaskMovePreserves(db, t, r.db.tasks[t], TaskExecutionCancelled, now);
    } else {
      EvolvesReflexive(db);
    }
  }

  // ----------------------------------------------------------------------------------- claims

  /** In a sound database a claim that finds the task RUNNABLE cannot trip a uniqueness constraint. */
  lemma ClaimFits(db: Db, t: TaskId, a: AttemptId)
    requires t in db.tasks && TaskOk(db, t) && db.tasks[t].state.Runnable?
    requires forall x | x in db.attempts :: AttemptOk(db, x)
    requires a !in db.attempts
    ensures !InsertViolates(db, a, t, db.tasks[t].nextOrdinal)
  {
  }

  predicate IsClaim(db: Db, db': Db, t: TaskId, a: AttemptId, worker: SessionId, deadline: Time)
    requires t in db.tasks
  {
    var n := db.tasks[t].nextOrdinal;
    && db.tasks[t].state.Runnable? && a !in db.attempts
    && db'.definitions == db.definitions && db'.workflows == db.workflows
    && db'.tasks == db.tasks[t := db.tasks[t].(
                     state := TaskState.Running, revision := db.tasks[t].revision + 1, nextOrdinal := n + 1)]
    && db'.attempts == db.attempts[a := ClaimedRow(t, n, worker, deadline)]
    && db.history <= db'.history
  }

  lemma ClaimEvolves(db: Db, db': Db, t: TaskId, a: AttemptId, worker: SessionId, deadline: Time)
    requires t in db.tasks && IsClaim(db, db', t, a, worker, deadline)
    ensures Evolves(db, db')
  {
  }

  lemma ClaimTasks(db: Db, db': Db, t: TaskId, a: AttemptId, worker: SessionId, deadline: Time)
    requires t in db.tasks && IsClaim(db, db', t, a, worker, deadline) && Evolves(db, db')
    requires TaskOk(db, t) && LedgerOk(db, t)
    ensures TasksSettled(db, db') && WorkflowsSettled(db, db')
  {
    ResolutionStable(db, db', t.workflow, DefinitionOf(db, t), db.workflows[t.workflow].input);
    forall o | 1 <= o < db'.tasks[t].nextOrdinal ensures HasNumbered(db', t, o) {
      if o < db.tasks[t].nextOrdinal {
        assert HasNumbered(db, t, o);
        var x :| Numbered(db, x, t, o);
        assert Numbered(db', x, t, o);
      } else {
        assert Numbered(db', a, t, o);
      }
    }
  }

  lemma ClaimAttempts(db: Db, db': Db, t: TaskId, a: AttemptId, worker: SessionId, deadline: Time)
    requires t in db.tasks && IsClaim(db, db', t, a, worker, deadline) && TaskShape(db.tasks[t])
    requires forall x | x in db.attempts :: AttemptOk(db, x)
    requires OrdinalsUnique(db)
    ensures AttemptsSettled(db, db') && OrdinalsUnique(db')
  {
    forall x | x in db'.attempts ensures AttemptSettled(db, db', x) {
      if x != a { assert AttemptOk(db, x); }
    }
    forall x, y | x in db'.attempts && y in db'.attempts && db'.attempts[x].task == db'.attempts[y].task
                  && db'.attempts[x].ordinal == db'.attempts[y].ordinal
      ensures x == y
    {
      if x != a { assert AttemptOk(db, x); }
      if y != a { assert AttemptOk(db, y); }
    }
  }

  lemma ClaimIs(
    g1: Db, g2: Db, db: Db, t: TaskId, expected: int, worker: SessionId, a: AttemptId, deadline: Time, now: Time)
    requires ClaimTx(g1, g2, db, t, expected, worker, a, deadline, now).status == Committed
    ensures t in db.tasks
            && IsClaim(db, ClaimTx(g1, g2, db, t, expected, worker, a, deadline, now).db, t, a, worker, deadline)
  {
  }

  lemma ClaimPreserves(
    g1: Db, g2: Db, db: Db, t: TaskId, expected: int, worker: SessionId, a: AttemptId, deadline: Time, now: Time)
    requires Inv(db)
    ensures Advances(db, ClaimTx(g1, g2, db, t, expected, worker, a, deadline, now).db)
  {
    var r := ClaimTx(g1, g2, db, t, expected, worker, a, deadline, now);
    if r.status == Committed {
      ClaimIs(g1, g2, db, t, expected, worker, a, deadline, now);
      ClaimEvolves(db, r.db, t, a, worker, deadline);
      ClaimTasks(db, r.db, t, a, worker, deadline);
      ClaimAttempts(db, r.db, t, a, worker, deadline);
      Assemble(db, r.db);
    } else {
      EvolvesReflexive(db);
    }
  }
}
