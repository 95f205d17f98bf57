/** Termination: the work left in a database, which every productive commit diminishes. */
module Progress {
  import opened Wrappers
  import opened JsonCompat
  import opened Spec
  import opened Rows
  import opened Transactions
  import opened Invariant
  import opened Preservation
  import opened Settlement
  import opened WorkflowMoves
  import opened Protocol

  // ------------------------------------------------------------------------------- sums over finite maps

  ghost function Sum<K>(m: map<K, nat>): nat
    decreases |m|
  {
    if m == map[] then 0
    else
      var k :| k in m;
      m[k] + Sum(m - {k})
  }

  lemma {:induction false} SumSplit<K>(m: map<K, nat>, k: K)
    requires k in m
    ensures Sum(m) == m[k] + Sum(m - {k})
    decreases |m|
  {
    var c :| c in m && Sum(m) == m[c] + Sum(m - {c});
    if c != k {
      SumSplit(m - {c}, k);
      SumSplit(m - {k}, c);
      assert m - {c} - {k} == m - {k} - {c};
    }
  }

  /** Pointwise smaller over the same keys is smaller in sum, strictly if some key is strictly smaller. */
  lemma {:induction false} SumMonotone<K>(m: map<K, nat>, m': map<K, nat>)
    requires m'.Keys == m.Keys && forall k | k in m :: m'[k] <= m[k]
    ensures Sum(m') <= Sum(m)
    ensures (exists k :: k in m && m'[k] < m[k]) ==> Sum(m') < Sum(m)
    decreases |m|
  {
    if m == map[] {
      assert m' == map[];
    } else {
      var k :| k in m;
      if x :| x in m && m'[x] < m[x] { k := x; }
      SumSplit(m, k);
      SumSplit(m', k);
      SumMonotone(m - {k}, m' - {k});
    }
  }

  // ---------------------------------------------------------------------------------- the work left

  function Positive(n: int): nat {
    if n < 0 then 0 else n
  }

  /** How many more commits can move each task: its revision never exceeds 3 * max_attempts + 1. */
  ghost function TaskWork(rows: map<TaskId, TaskRow>): map<TaskId, nat> {
    map t | t in rows :: Positive(3 * rows[t].maxAttempts + 1 - rows[t].revision)
  }

  ghost function WorkflowWork(rows: map<WorkflowId, WorkflowRow>): map<WorkflowId, nat> {
    map w | w in rows :: Positive(4 - rows[w].revision)
  }

  ghost function WorkLeft(db: Db): nat {
    Sum(TaskWork(db.tasks)) + Sum(WorkflowWork(db.workflows))
  }

  ghost predicate SameRows(db: Db, db': Db) {
    db'.tasks.Keys == db.tasks.Keys && db'.workflows.Keys == db.workflows.Keys
  }

  /** While no rows are added, evolution never adds work, and any change of a task or workflow takes some. */
  lemma WorkShrinks(db: Db, db': Db)
    requires Advances(db, db') && SameRows(db, db')
    ensures WorkLeft(db') <= WorkLeft(db)
    ensures db'.tasks != db.tasks || db'.workflows != db.workflows ==> WorkLeft(db') < WorkLeft(db)
  {
    TaskWorkShrinks(db.tasks, db'.tasks);
    WorkflowWorkShrinks(db.workflows, db'.workflows);
  }

  /** No task ever passes revision 3 * max_attempts + 1, and every change raises the revision. */
  lemma RevisionBound(r: TaskRow, r': TaskRow)
    requires TaskEvolves(r, r') && TaskShape(r')
    ensures 1 <= r'.revision <= 3 * r'.maxAttempts + 1 && r'.maxAttempts == r.maxAttempts
    ensures r.revision <= r'.revision && (r' != r ==> r.revision < r'.revision)
  {
  }

  lemma TaskWorkShrinks(rows: map<TaskId, TaskRow>, rows': map<TaskId, TaskRow>)
    requires rows'.Keys == rows.Keys
    requires forall t | t in rows :: TaskEvolves(rows[t], rows'[t]) && TaskShape(rows'[t])
    ensures Sum(TaskWork(rows')) <= Sum(TaskWork(rows))
    ensures rows' != rows ==> Sum(TaskWork(rows')) < Sum(TaskWork(rows))
  {
    forall t | t in rows
      ensures TaskWork(rows')[t] <= TaskWork(rows)[t]
      ensures rows'[t] != rows[t] ==> TaskWork(rows')[t] < TaskWork(rows)[t]
    {
      RevisionBound(rows[t], rows'[t]);
    }
    SumMonotone(TaskWork(rows), TaskWork(rows'));
    if rows' != rows {
      var t :| t in rows && rows'[t] != rows[t];
      assert TaskWork(rows')[t] < TaskWork(rows)[t];
    }
  }

  lemma WorkflowRevisionBound(r: WorkflowRow, r': WorkflowRow)
    requires WorkflowEvolves(r, r') && WorkflowShape(r')
    ensures 1 <= r'.revision <= 4
    ensures r.revision <= r'.revision && (r' != r ==> r.revision < r'.revision)
  {
  }

  lemma WorkflowWorkShrinks(rows: map<WorkflowId, WorkflowRow>, rows': map<WorkflowId, WorkflowRow>)
    requires rows'.Keys == rows.Keys
    requires forall w | w in rows :: WorkflowEvolves(rows[w], rows'[w]) && WorkflowShape(rows'[w])
    ensures Sum(WorkflowWork(rows')) <= Sum(WorkflowWork(rows))
    ensures rows' != rows ==> Sum(WorkflowWork(rows')) < Sum(WorkflowWork(rows))
  {
    forall w | w in rows
      ensures WorkflowWork(rows')[w] <= WorkflowWork(rows)[w]
      ensures rows'[w] != rows[w] ==> WorkflowWork(rows')[w] < WorkflowWork(rows)[w]
    {
      WorkflowRevisionBound(rows[w], rows'[w]);
    }
    SumMonotone(WorkflowWork(rows), WorkflowWork(rows'));
    if rows' != rows {
      var w :| w in rows && rows'[w] != rows[w];
      assert WorkflowWork(rows')[w] < WorkflowWork(rows)[w];
    }
  }

  // ------------------------------------------------------------------------- steps spend the potential

  function ClaimedAttempts(db: Db): set<AttemptId> {
    set a | a in db.attempts && db.attempts[a].state.Claimed?
  }

  /** Two units for each commit a task or workflow can still take, one for each start that can still come. */
  ghost function Potential(db: Db): nat {
    2 * WorkLeft(db) + |ClaimedAttempts(db)|
  }

  /** The step moves a task or a workflow, and claims at most one attempt; or it only starts an attempt. */
  ghost predicate Spends(db: Db, db': Db) {
    && SameRows(db, db')
    && (if db'.tasks != db.tasks || db'.workflows != db.workflows
        then exists a :: ClaimedAttempts(db') <= ClaimedAttempts(db) + {a}
        else ClaimedAttempts(db') < ClaimedAttempts(db))
  }

  lemma SpendingShrinks(db: Db, db': Db)
    requires Advances(db, db') && Spends(db, db')
    ensures Potential(db') < Potential(db)
  {
    WorkShrinks(db, db');
    ClaimedGrowth(db, db');
  }

  lemma ClaimedGrowth(db: Db, db': Db)
    requires Spends(db, db')
    ensures if db'.tasks != db.tasks || db'.workflows != db.workflows
            then |ClaimedAttempts(db')| <= |ClaimedAttempts(db)| + 1
            else |ClaimedAttempts(db')| < |ClaimedAttempts(db)|
  {
    if db'.tasks != db.tasks || db'.workflows != db.workflows {
      var a :| ClaimedAttempts(db') <= ClaimedAttempts(db) + {a};
      SubsetSize(ClaimedAttempts(db) + {a}, ClaimedAttempts(db'));
    } else {
      SubsetSize(ClaimedAttempts(db), ClaimedAttempts(db'));
    }
  }

  /** The steps that bring rows in, and the drain's unconditional deadline write. */
  predicate Unmeasured(action: Action) {
    action.Register? || action.Create? || action.Populate? || action.SetCancelDeadline?
  }

  lemma SettlementSpends(db: Db, db': Db, a: AttemptId, t: TaskId)
    requires IsSettlement(db, db', a, t)
    ensures Spends(db, db')
  {
    assert db'.tasks[t] != db.tasks[t];
    assert ClaimedAttempts(db') <= ClaimedAttempts(db) + {a};
  }

  lemma TaskMoveSpends(db: Db, t: TaskId, row: TaskRow, event: Event, now: Time)
    requires t in db.tasks && row.revision != db.tasks[t].revision
    ensures Spends(db, MoveTask(db, t, row, event, now))
  {
    var db' := MoveTask(db, t, row, event, now);
    assert db'.tasks[t] != db.tasks[t];
    assert ClaimedAttempts(db') <= ClaimedAttempts(db) + {AttemptId(0)};
  }

  lemma WorkflowMoveSpends(db: Db, db': Db, w: WorkflowId)
    requires w in db.workflows && w in db'.workflows && db'.workflows[w].revision != db.workflows[w].revision
    requires db'.tasks == db.tasks && db'.attempts == db.attempts && db'.workflows.Keys == db.workflows.Keys
    ensures Spends(db, db')
  {
    assert db'.workflows[w] != db.workflows[w];
    assert ClaimedAttempts(db') <= ClaimedAttempts(db) + {AttemptId(0)};
  }

  lemma ClaimSpends(db: Db, db': Db, t: TaskId, a: AttemptId, worker: SessionId, deadline: Time)
    requires t in db.tasks && IsClaim(db, db', t, a, worker, deadline)
    ensures Spends(db, db')
  {
    assert db'.tasks[t] != db.tasks[t];
    assert ClaimedAttempts(db') <= ClaimedAttempts(db) + {a};
  }

  lemma StartSpends(db: Db, a: AttemptId, worker: SessionId, expected: int, now: Time)
    ensures var db' := StartTx(db, a, worker, expected, now).db; db' == db || Spends(db, db')
  {
    var db' := StartTx(db, a, worker, expected, now).db;
    if db' != db {
      assert a in ClaimedAttempts(db) && a !in ClaimedAttempts(db');
      assert ClaimedAttempts(db') <= ClaimedAttempts(db);
    }
  }

  lemma TaskStepSpends(trace: seq<Db>, step: Step)
    requires trace != [] && Enabled(trace, step.action)
    requires MovesTask(step.action) && !Unmeasured(step.action)
    ensures var db' := Perform(trace, step).db; db' == Last(trace) || Spends(Last(trace), db')
  {
    var db, now := Last(trace), step.now;
    var r := Perform(trace, step);
    if r.db != db {
      match step.action
      case Readiness(t, input, i, g) => TaskMoveSpends(db, t, r.db.tasks[t], TaskMarkedRunnable, now);
      case RetryReady(t, i, g) => TaskMoveSpends(db, t, r.db.tasks[t], TaskMarkedRunnable, now);
      case DrainCancel(t, i, g1, g2) => TaskMoveSpends(db, t, r.db.tasks[t], TaskExecutionCancelled, now);
      case Claim(t, worker, a, deadline, i, g1, g2) =>
        ClaimIs(At(trace, g1), At(trace, g2), db, t, At(trace, i).tasks[t].revision, worker, a, deadline, now);
        ClaimSpends(db, r.db, t, a, worker, deadline);
      case Start(a, worker) => StartSpends(db, a, worker, 1, now);
    }
  }

  lemma WorkflowStepSpends(trace: seq<Db>, step: Step)
    requires trace != [] && Enabled(trace, step.action)
    requires !MovesTask(step.action) && !Settles(step.action) && !Unmeasured(step.action)
    requires !step.action.RepairInitializing?
    ensures var db' := Perform(trace, step).db; db' == Last(trace) || Spends(Last(trace), db')
  {
    var db := Last(trace);
    var r := Perform(trace, step);
    if r.db != db {
      WorkflowMoveSpends(db, r.db, step.action.w);
    }
  }

  lemma SettlementStepSpends(trace: seq<Db>, step: Step)
    requires Sound(trace) && Enabled(trace, step.action) && Settles(step.action)
    requires Perform(trace, step).db != Last(trace)
    ensures Spends(Last(trace), Perform(trace, step).db)
  {
    hide Inv, Evolves, Perform, Enabled, Spends, IsSettlement;
    SettlementBothOrNeither(trace, step);
    SettlementSpends(Last(trace), Perform(trace, step).db, step.action.a, step.action.t);
  }

  lemma RepairStepSpends(trace: seq<Db>, step: Step)
    requires Sound(trace) && Enabled(trace, step.action) && step.action.RepairInitializing?
    ensures var db' := Perform(trace, step).db; db' == Last(trace) || Spends(Last(trace), db')
  {
    hide Inv, Evolves, RepairInitializingTx, Spends;
    RepairReads(trace, step.action.w, step.action.i);
    RepairSpends(Last(trace), step.action.w);
  }

  lemma RepairSpends(db: Db, w: WorkflowId)
    requires w in db.workflows && WorkflowShape(db.workflows[w])
    requires db.workflows[w].state.Initializing? || db.workflows[w].state == WorkflowState.Running
    ensures var db' := RepairInitializingTx(db, w, 1).db; db' == db || Spends(db, db')
  {
    if db.workflows[w].state.Initializing? { WorkflowMoveSpends(db, RepairInitializingTx(db, w, 1).db, w); }
    else { RepairEvolves(db, w); }
  }

  /** Every measured step that changes the database takes from its potential. */
  lemma StepSpends(trace: seq<Db>, step: Step)
    requires Sound(trace) && Enabled(trace, step.action) && !Unmeasured(step.action)
    requires Perform(trace, step).db != Last(trace)
    ensures Potential(Perform(trace, step).db) < Potential(Last(trace))
  {
    hide Inv, Evolves, Perform, Spends, BothOrNeither, IsSettlement, Potential;
    if Settles(step.action) {
      SettlementStepSpends(trace, step);
    } else if MovesTask(step.action) {
      TaskStepSpends(trace, step);
    } else if step.action.RepairInitializing? {
      RepairStepSpends(trace, step);
    } else {
      WorkflowStepSpends(trace, step);
    }
    StepAdvances(trace, step);
    SpendingShrinks(Last(trace), Perform(trace, step).db);
  }

  // ------------------------------------------------------------------------------ runs are bounded

  /** The measured steps in [i, k) that changed the database. */
  ghost function Commits(trace: seq<Db>, steps: seq<Step>, i: nat, k: nat): nat
    requires i <= k <= |steps| && |trace| == |steps| + 1
  {
    if i == k then 0
    else
      Commits(trace, steps, i, k - 1)
      + if trace[k] != trace[k - 1] && !Unmeasured(steps[k - 1].action) then 1 else 0
  }

  lemma DeadlineKeepsPotential(db: Db, a: AttemptId, deadline: Time)
    ensures Potential(CancelDeadlineTx(db, a, deadline).db) == Potential(db)
  {
    assert ClaimedAttempts(CancelDeadlineTx(db, a, deadline).db) == ClaimedAttempts(db);
  }

  lemma StepPotential(trace: seq<Db>, step: Step)
    requires Sound(trace) && Enabled(trace, step.action)
    requires !step.action.Register? && !step.action.Create? && !step.action.Populate?
    ensures Potential(Perform(trace, step).db)
            + (if Perform(trace, step).db != Last(trace) && !Unmeasured(step.action) then 1 else 0)
            <= Potential(Last(trace))
  {
    hide Inv, Evolves, Potential, CancelDeadlineTx;
    if step.action.SetCancelDeadline? {
      DeadlineKeepsPotential(Last(trace), step.action.a, step.now + CANCELLATION_GRACE);
    } else if Perform(trace, step).db != Last(trace) {
      StepSpends(trace, step);
    }
  }

  /** While no definition, workflow or task is added, the commits of any interleaving, productive or not as the
      callers may be, number at most the potential the stretch started with. */
  lemma {:induction false} CommitsAreBounded(trace: seq<Db>, steps: seq<Step>, i: nat, k: nat)
    requires IsRun(trace, steps) && i <= k <= |steps|
    requires forall j | i <= j < k ::
               !steps[j].action.Register? && !steps[j].action.Create? && !steps[j].action.Populate?
    ensures Commits(trace, steps, i, k) + Potential(trace[k]) <= Potential(trace[i])
    decreases k
  {
    hide Inv, Evolves, Perform, Enabled, Potential;
    if i < k {
      CommitsAreBounded(trace, steps, i, k - 1);
      PrefixIsRun(trace, steps, k - 1);
      RunsAreSound(trace[..k], steps[..k - 1]);
      StepPotential(trace[..k], steps[k - 1]);
    }
  }
}
