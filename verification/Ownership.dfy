/** Who owns a task: consequences of the invariant for attempts, ordinals, budgets and schema constraints. */
module Ownership {
  import opened Wrappers
  import opened Spec
  import opened Rows
  import opened Transactions
  import opened Invariant
  import opened Preservation
  import opened Protocol

  ghost predicate ActiveOn(db: Db, a: AttemptId, t: TaskId) {
    a in db.attempts && db.attempts[a].task == t && db.attempts[a].state.Active()
  }

  ghost predicate Owned(db: Db, t: TaskId) {
    exists a :: ActiveOn(db, a, t)
  }

  /** A task is RUNNING exactly when it has an active attempt; it has at most one, which is its latest. */
  lemma RunningIsOwned(db: Db, t: TaskId)
    requires Inv(db) && t in db.tasks
    ensures db.tasks[t].state.Running? <==> Owned(db, t)
    ensures forall a, b | ActiveOn(db, a, t) && ActiveOn(db, b, t) :: a == b
    ensures forall a | ActiveOn(db, a, t) :: db.attempts[a].ordinal == db.tasks[t].nextOrdinal - 1
  {
    hide TaskOk, LedgerOk, WorkflowOk;
    OwnerExists(db, t);
    forall a | ActiveOn(db, a, t)
      ensures db.tasks[t].state.Running? && db.attempts[a].ordinal == db.tasks[t].nextOrdinal - 1
    {
      assert AttemptOk(db, a);
    }
  }

  lemma OwnerExists(db: Db, t: TaskId)
    requires t in db.tasks && TaskOk(db, t) && LedgerOk(db, t)
    requires forall a | a in db.attempts :: AttemptOk(db, a)
    ensures db.tasks[t].state.Running? ==> Owned(db, t)
  {
    if db.tasks[t].state.Running? {
      var o := db.tasks[t].nextOrdinal - 1;
      assert HasNumbered(db, t, o);
      var a :| Numbered(db, a, t, o);
      assert AttemptOk(db, a);
      assert ActiveOn(db, a, t);
    }
  }

  // ---------------------------------------------------------------------------------------- the ledger

  function AttemptsOf(db: Db, t: TaskId): set<AttemptId> {
    set a | a in db.attempts && db.attempts[a].task == t
  }

  function OrdinalsOf(db: Db, s: set<AttemptId>): set<int>
    requires s <= db.attempts.Keys
  {
    set a | a in s :: db.attempts[a].ordinal
  }

  /** The ordinals 1 .. n. */
  function UpTo(n: nat): (s: set<int>)
    ensures forall o :: o in s <==> 1 <= o <= n
    ensures |s| == n
  {
    if n == 0 then {} else UpTo(n - 1) + {n}
  }

  lemma {:induction false} OrdinalsCount(db: Db, t: TaskId, s: set<AttemptId>)
    requires OrdinalsUnique(db) && s <= AttemptsOf(db, t)
    ensures |OrdinalsOf(db, s)| == |s|
  {
    if s == {} {
    } else {
      var a :| a in s;
      OrdinalsCount(db, t, s - {a});
      assert OrdinalsOf(db, s) == OrdinalsOf(db, s - {a}) + {db.attempts[a].ordinal};
    }
  }

  /** The attempts of a task carry the ordinals 1 .. next - 1, each once, and never outnumber its budget;
      all but the latest FAILED, and some attempt SUCCEEDED exactly when the task did. */
  lemma LedgerIsExact(db: Db, t: TaskId)
    requires Inv(db) && t in db.tasks
    ensures OrdinalsOf(db, AttemptsOf(db, t)) == UpTo(db.tasks[t].nextOrdinal - 1)
    ensures |AttemptsOf(db, t)| == db.tasks[t].nextOrdinal - 1 <= db.tasks[t].maxAttempts
    ensures forall a | a in AttemptsOf(db, t) && db.attempts[a].ordinal < db.tasks[t].nextOrdinal - 1 ::
              db.attempts[a].state.Failed?
    ensures db.tasks[t].state.Succeeded? <==> exists a :: a in AttemptsOf(db, t) && db.attempts[a].state.Succeeded?
  {
    LedgerOrdinals(db, t);
    OrdinalsCount(db, t, AttemptsOf(db, t));
  }

  lemma LedgerOrdinals(db: Db, t: TaskId)
    requires t in db.tasks && TaskShape(db.tasks[t]) && LedgerOk(db, t)
    requires forall a | a in db.attempts :: AttemptOk(db, a)
    ensures OrdinalsOf(db, AttemptsOf(db, t)) == UpTo(db.tasks[t].nextOrdinal - 1)
    ensures forall a | a in AttemptsOf(db, t) && db.attempts[a].ordinal < db.tasks[t].nextOrdinal - 1 ::
              db.attempts[a].state.Failed?
    ensures db.tasks[t].state.Succeeded? <==> exists a :: a in AttemptsOf(db, t) && db.attempts[a].state.Succeeded?
  {
    forall o | o in UpTo(db.tasks[t].nextOrdinal - 1)
      ensures o in OrdinalsOf(db, AttemptsOf(db, t))
    {
      assert HasNumbered(db, t, o);
      var a :| Numbered(db, a, t, o);
      assert a in AttemptsOf(db, t);
    }
    forall a | a in AttemptsOf(db, t) ensures AttemptOk(db, a) {
    }
    if db.tasks[t].state.Succeeded? {
      assert HasNumbered(db, t, db.tasks[t].nextOrdinal - 1);
      var a :| Numbered(db, a, t, db.tasks[t].nextOrdinal - 1);
      assert a in AttemptsOf(db, t) && AttemptOk(db, a);
    }
  }

  /** Why a task FAILED: in every run its failure is that of its last attempt. */
  lemma FailuresAgree(trace: seq<Db>, steps: seq<Step>, k: nat, t: TaskId, a: AttemptId)
    requires IsRun(trace, steps) && k <= |steps| && t in trace[k].tasks && trace[k].tasks[t].state.Failed?
    requires a in trace[k].attempts && trace[k].attempts[a].task == t
    requires trace[k].attempts[a].ordinal == trace[k].tasks[t].nextOrdinal - 1
    ensures trace[k].attempts[a].state.Failed? && trace[k].attempts[a].failure.Some?
    ensures trace[k].tasks[t].failure == trace[k].attempts[a].failure
  {
    hide TaskOk, LedgerOk, WorkflowOk;
    RunsAreSound(trace, steps);
    assert AttemptOk(trace[k], a);
  }

  /** RUNNABLE and RETRY_WAIT mean that budget remains: the next claim stays within max_attempts. */
  lemma BudgetRemains(db: Db, t: TaskId)
    requires Inv(db) && t in db.tasks && (db.tasks[t].state.Runnable? || db.tasks[t].state.RetryWait?)
    ensures |AttemptsOf(db, t)| < db.tasks[t].maxAttempts
  {
    LedgerIsExact(db, t);
    assert TaskOk(db, t);
  }

  // ------------------------------------------------------------------------------- schema constraints

  /** The uniqueness and CHECK constraints of the initial migration that involve the modelled columns. */
  ghost predicate SchemaHolds(db: Db) {
    && (forall d | d in db.definitions :: !Blank(db.definitions[d].name))
    && (forall w | w in db.workflows :: WorkflowConstraints(db, db.workflows[w]))
    && (forall t | t in db.tasks :: t.workflow in db.workflows && TaskConstraints(db.tasks[t]))
    && (forall a | a in db.attempts :: AttemptConstraints(db, db.attempts[a]))
    && (forall a, b | a in db.attempts && b in db.attempts && db.attempts[a].task == db.attempts[b].task ::
          (db.attempts[a].ordinal == db.attempts[b].ordinal
           || (db.attempts[a].state.Active() && db.attempts[b].state.Active())) ==> a == b)
  }

  predicate WorkflowConstraints(db: Db, r: WorkflowRow) {
    1 <= r.revision && r.definition in db.definitions && (r.state.Succeeded? ==> r.output.Some?)
  }

  predicate TaskConstraints(r: TaskRow) {
    && 1 <= r.revision && 1 <= r.maxAttempts && 1 <= r.nextOrdinal
    && (!r.state.Pending? && !r.state.Cancelled? ==> r.input.Some?)
    && (r.state.Succeeded? ==> r.output.Some?)
    && (r.state.RetryWait? ==> r.retryReadyAt.Some?)
  }

  predicate AttemptConstraints(db: Db, r: AttemptRow) {
    1 <= r.revision && 1 <= r.ordinal && r.task in db.tasks
  }

  lemma SchemaAlwaysHolds(trace: seq<Db>, steps: seq<Step>, k: nat)
    requires IsRun(trace, steps) && k <= |steps|
    ensures SchemaHolds(trace[k])
  {
    RunsAreSound(trace, steps);
    AttemptSchema(trace[k]);
    RowSchema(trace[k]);
  }

  lemma RowSchema(db: Db)
    requires forall w | w in db.workflows :: WorkflowOk(db, w)
    requires forall t | t in db.tasks :: TaskOk(db, t)
    ensures forall w | w in db.workflows :: WorkflowConstraints(db, db.workflows[w])
    ensures forall t | t in db.tasks :: t.workflow in db.workflows && TaskConstraints(db.tasks[t])
  {
    forall w | w in db.workflows ensures WorkflowConstraints(db, db.workflows[w]) {
      assert WorkflowOk(db, w);
    }
    forall t | t in db.tasks ensures t.workflow in db.workflows && TaskConstraints(db.tasks[t]) {
      assert TaskOk(db, t);
    }
  }

  lemma AttemptSchema(db: Db)
    requires OrdinalsUnique(db) && forall a | a in db.attempts :: AttemptOk(db, a)
    ensures forall a | a in db.attempts :: AttemptConstraints(db, db.attempts[a])
    ensures forall a, b | a in db.attempts && b in db.attempts && db.attempts[a].task == db.attempts[b].task ::
          (db.attempts[a].ordinal == db.attempts[b].ordinal
           || (db.attempts[a].state.Active() && db.attempts[b].state.Active())) ==> a == b
  {
    forall a | a in db.attempts
      ensures AttemptConstraints(db, db.attempts[a])
      ensures db.attempts[a].state.Active() ==>
                db.attempts[a].ordinal == db.tasks[db.attempts[a].task].nextOrdinal - 1
    {
      assert AttemptOk(db, a);
    }
  }

  lemma ClaimInserts(db: Db, t: TaskId, a: AttemptId)
    requires Inv(db) && a !in db.attempts
    ensures t in db.tasks && db.tasks[t].state.Runnable? ==> !InsertViolates(db, a, t, db.tasks[t].nextOrdinal)
  {
    if t in db.tasks && db.tasks[t].state.Runnable? {
      ClaimFits(db, t, a);
    }
  }

  lemma ClaimStatus(
    g1: Db, g2: Db, db: Db, t: TaskId, expected: int, worker: SessionId, a: AttemptId, deadline: Time, now: Time)
    requires t in db.tasks && db.tasks[t].state.Runnable? ==> !InsertViolates(db, a, t, db.tasks[t].nextOrdinal)
    ensures ClaimTx(g1, g2, db, t, expected, worker, a, deadline, now).status != IntegrityError
  {
  }

  /** In no interleaving does a claim under a fresh attempt id trip a uniqueness constraint. */
  lemma ClaimNeverViolates(
    trace: seq<Db>, steps: seq<Step>, t: TaskId, worker: SessionId, a: AttemptId, deadline: Time,
    i: nat, g1: nat, g2: nat, now: Time)
    requires IsRun(trace, steps) && Enabled(trace, Claim(t, worker, a, deadline, i, g1, g2))
    ensures Perform(trace, Step(Claim(t, worker, a, deadline, i, g1, g2), now)).status != IntegrityError
  {
    RunsAreSound(trace, steps);
    ClaimInserts(Last(trace), t, a);
    ClaimStatus(At(trace, g1), At(trace, g2), Last(trace), t, At(trace, i).tasks[t].revision, worker, a, deadline, now);
  }
}
