/** Creation, population and the transitions of the workflow row keep the invariant. */
module WorkflowMoves {
  import opened Wrappers
  import opened JsonCompat
  import opened Spec
  import opened Rows
  import opened Transactions
  import opened Invariant
  import opened Preservation

  lemma AttemptsUntouched(db: Db, db': Db)
    requires forall a | a in db.attempts :: AttemptOk(db, a)
    requires OrdinalsUnique(db)
    requires db'.attempts == db.attempts
    requires forall t | t in db.tasks :: t in db'.tasks && db'.tasks[t] == db.tasks[t]
    ensures AttemptsSettled(db, db') && OrdinalsUnique(db')
  {
    forall a | a in db'.attempts ensures AttemptSettled(db, db', a) {
      assert AttemptOk(db, a);
    }
  }

  // -------------------------------------------------------------------------- creation, population

  lemma RegisterEvolves(db: Db, d: DefinitionId, spec: ValidatedWorkflowSpec)
    ensures Evolves(db, RegisterTx(db, d, spec).db)
  {
  }

  lemma RegisterPreserves(db: Db, d: DefinitionId, spec: ValidatedWorkflowSpec)
    requires Inv(db) && ValidSpec(spec)
    ensures Advances(db, RegisterTx(db, d, spec).db)
  {
    var r := RegisterTx(db, d, spec);
    RegisterEvolves(db, d, spec);
    if r.status == Committed {
      AttemptsUntouched(db, r.db);
      Assemble(db, r.db);
    }
  }

  lemma CreateWorkflows(db: Db, w: WorkflowId, d: DefinitionId, input: PyValue, now: Time)
    requires forall t | t in db.tasks :: Declared(db, t)
    requires CreateTx(db, w, d, input, now).status == Committed
    ensures Evolves(db, CreateTx(db, w, d, input, now).db)
    ensures WorkflowsSettled(db, CreateTx(db, w, d, input, now).db)
  {
    var db' := CreateTx(db, w, d, input, now).db;
    forall t | t in db'.tasks ensures t.workflow != w {
      assert Declared(db, t);
    }
    assert WorkflowOk(db', w);
  }

  lemma CreatePreserves(db: Db, w: WorkflowId, d: DefinitionId, input: PyValue, now: Time)
    requires Inv(db)
    ensures Advances(db, CreateTx(db, w, d, input, now).db)
  {
    var r := CreateTx(db, w, d, input, now);
    EvolvesReflexive(db);
    if r.status == Committed {
      CreateWorkflows(db, w, d, input, now);
      AttemptsUntouched(db, r.db);
      Assemble(db, r.db);
    }
  }

  /** The tasks of a workflow that has none yet are inserted; one that has them all gains nothing. */
  ghost predicate IsPopulation(db: Db, db': Db, w: WorkflowId)
    requires w in db.workflows && db.workflows[w].definition in db.definitions
  {
    && db'.definitions == db.definitions && db'.workflows == db.workflows && db'.attempts == db.attempts
    && db'.tasks == PendingRows(w, db.definitions[db.workflows[w].definition].tasks) + db.tasks
    && db.history <= db'.history
  }

  lemma PopulateEvolves(db: Db, w: WorkflowId, db': Db)
    requires w in db.workflows && db.workflows[w].definition in db.definitions && IsPopulation(db, db', w)
    ensures Evolves(db, db')
    ensures forall d | d in db.definitions[db.workflows[w].definition].tasks :: TaskId(w, d) in db'.tasks
  {
    var tasks := db.definitions[db.workflows[w].definition].tasks;
    forall d | d in tasks ensures TaskId(w, d) in db'.tasks {
      assert TaskId(w, d) in PendingRows(w, tasks);
    }
  }

  lemma PopulateTasks(db: Db, w: WorkflowId, db': Db)
    requires w in db.workflows && WorkflowOk(db, w)
    requires ValidSpec(db.definitions[db.workflows[w].definition]) && IsPopulation(db, db', w)
    ensures TasksSettled(db, db')
  {
    forall t | t in db'.tasks && t !in db.tasks ensures TaskOk(db', t) && LedgerOk(db', t) {
      assert WellFormedTask(db.definitions[db.workflows[w].definition].tasks, t.definition);
    }
  }

  lemma PopulateWorkflows(db: Db, w: WorkflowId, db': Db)
    requires w in db.workflows && WorkflowOk(db, w) && IsPopulation(db, db', w) && Evolves(db, db')
    requires FullMembership(db', w)
    ensures WorkflowsSettled(db, db')
  {
    if FullMembership(db, w) {
      WorkflowKept(db, db', w);
    } else {
      assert WorkflowOk(db', w);
    }
  }

  lemma PopulatePreserves(g: Db, db: Db, w: WorkflowId, definitions: map<string, TaskDefinition>, now: Time)
    requires Inv(db) && Evolves(g, db)
    requires w in db.workflows
    requires definitions == db.definitions[db.workflows[w].definition].tasks
    ensures Advances(db, PopulateTx(g, db, w, definitions, now).db)
  {
    var r := PopulateTx(g, db, w, definitions, now);
    EvolvesReflexive(db);
    if r.status == Committed {
      PopulateEvolves(db, w, r.db);
      PopulateTasks(db, w, r.db);
      PopulateWorkflows(db, w, r.db);
      AttemptsUntouched(db, r.db);
      Assemble(db, r.db);
    }
  }

  // ------------------------------------------------------------------------------ workflow transitions

  ghost predicate WorkflowMovesTo(db: Db, w: WorkflowId, row: WorkflowRow)
    requires w in db.workflows && db.workflows[w].definition in db.definitions
  {
    var was := db.workflows[w];
    && row.definition == was.definition && row.input == was.input
    && row.revision == was.revision + 1
    && !was.state.Terminal() && WorkflowReaches(was.state, row.state)
    && WorkflowShape(row) && (was.state.Failing? ==> row.failure == was.failure)
    && (FullMembership(db, w) || (row.state.Cancelling? && NoTasks(db, w)))
    && (row.state.Failing? || row.state.Failed? ==> FailureOfSome(db, w, row.failure))
    && (row.state.Succeeded? ==> AllTasksIn(db, w, {TaskState.Succeeded}))
    && (row.state.Terminal() ==> AllTasksIn(db, w, TerminalTaskStates))
  }

  /** db' differs from db in the row of w and in its history. */
  predicate OnlyWorkflow(db: Db, db': Db, w: WorkflowId, row: WorkflowRow) {
    && db'.definitions == db.definitions && db'.tasks == db.tasks && db'.attempts == db.attempts
    && db'.workflows == db.workflows[w := row] && db.history <= db'.history
  }

  lemma WorkflowMoveOk(db: Db, db': Db, w: WorkflowId, row: WorkflowRow)
    requires w in db.workflows && WorkflowOk(db, w) && WorkflowMovesTo(db, w, row)
    requires OnlyWorkflow(db, db', w, row)
    ensures Evolves(db, db') && WorkflowsSettled(db, db')
  {
    assert Evolves(db, db');
    if FailureOfSome(db, w, row.failure) { FailureKept(db, db', w, row.failure); }
    assert WorkflowOk(db', w);
  }

  lemma WorkflowMovePreserves(db: Db, db': Db, w: WorkflowId, row: WorkflowRow)
    requires Inv(db) && w in db.workflows && db.workflows[w].definition in db.definitions
    requires WorkflowMovesTo(db, w, row) && OnlyWorkflow(db, db', w, row)
    ensures Advances(db, db')
  {
    WorkflowMoveOk(db, db', w, row);
    AttemptsUntouched(db, db');
    Assemble(db, db');
  }

  /** Every declared task was in a counted state in g2; if those states are final it still is. */
  lemma MembersReached(g1: Db, g2: Db, db: Db, w: WorkflowId, counted: set<TaskState>)
    requires Evolves(g1, db) && Evolves(g2, db)
    requires w in g1.workflows && g1.workflows[w].definition in g1.definitions
    requires g1.definitions[g1.workflows[w].definition].tasks.Keys == TaskNames(g2, w, counted)
    requires forall t | t in db.tasks && t.workflow == w :: Declared(db, t)
    ensures w in db.workflows && db.workflows[w].definition in db.definitions && FullMembership(db, w)
    ensures counted <= TerminalTaskStates ==> AllTasksIn(db, w, counted)
  {
    var tasks := g1.definitions[g1.workflows[w].definition].tasks;
    forall d | d in tasks
      ensures TaskId(w, d) in db.tasks
      ensures counted <= TerminalTaskStates ==> db.tasks[TaskId(w, d)].state in counted
    {
      assert d in TaskNames(g2, w, counted);
      assert TaskId(w, d) in g2.tasks && g2.tasks[TaskId(w, d)].state in counted;
    }
    forall t | t in db.tasks && t.workflow == w ensures t == TaskId(w, t.definition) && t.definition in tasks {
      assert Declared(db, t);
    }
  }

  /** The four membership transitions: start, success, failure and cancellation of a workflow. */
  predicate MembershipKind(from: WorkflowState, counted: set<TaskState>, to: WorkflowState, output: Option<PyValue>) {
    || (from.Initializing? && to.Running? && output.None?)
    || (from.Running? && to.Succeeded? && counted == {TaskState.Succeeded} && output.Some?)
    || (from.Failing? && to.Failed? && counted == TerminalTaskStates && output.None?)
    || (from.Cancelling? && to.Cancelled? && counted == TerminalTaskStates && output.None?)
  }

  lemma MembershipReached(
    g1: Db, g2: Db, db: Db, w: WorkflowId, expected: int, from: WorkflowState, counted: set<TaskState>)
    requires MembershipGuard(g1, g2, w, expected, from, counted) == Committed
    requires Evolves(g1, db) && Evolves(g2, db)
    requires forall t | t in db.tasks && t.workflow == w :: Declared(db, t)
    ensures w in db.workflows && db.workflows[w].definition in db.definitions && FullMembership(db, w)
    ensures counted <= TerminalTaskStates ==> AllTasksIn(db, w, counted)
  {
    MembersReached(g1, g2, db, w, counted);
  }

  lemma MembershipMoves(
    g1: Db, g2: Db, db: Db, w: WorkflowId, expected: int, from: WorkflowState, counted: set<TaskState>,
    to: WorkflowState, output: Option<PyValue>, event: Event, now: Time)
    requires MembershipTx(g1, g2, db, w, expected, from, counted, to, output, event, now).status == Committed
    requires w in db.workflows && WorkflowOk(db, w) && FullMembership(db, w)
    requires counted <= TerminalTaskStates ==> AllTasksIn(db, w, counted)
    requires MembershipKind(from, counted, to, output)
    ensures var db' := MembershipTx(g1, g2, db, w, expected, from, counted, to, output, event, now).db;
      WorkflowMovesTo(db, w, db'.workflows[w]) && OnlyWorkflow(db, db', w, db'.workflows[w])
  {
    hide MembershipGuard, FullMembership;
  }

  lemma MembershipPreserves(
    g1: Db, g2: Db, db: Db, w: WorkflowId, expected: int, from: WorkflowState, counted: set<TaskState>,
    to: WorkflowState, output: Option<PyValue>, event: Event, now: Time)
    requires Inv(db) && Evolves(g1, db) && Evolves(g2, db) && MembershipKind(from, counted, to, output)
    ensures Advances(db, MembershipTx(g1, g2, db, w, expected, from, counted, to, output, event, now).db)
  {
    hide Evolves, MembershipGuard, TaskOk, LedgerOk, WorkflowOk, AttemptOk, FullMembership, AllTasksIn;
    var r := MembershipTx(g1, g2, db, w, expected, from, counted, to, output, event, now);
    EvolvesReflexive(db);
    if r.status == Committed {
      forall t | t in db.tasks ensures Declared(db, t) { TaskDeclared(db, t); }
      MembershipReached(g1, g2, db, w, expected, from, counted);
      MembershipMoves(g1, g2, db, w, expected, from, counted, to, output, event, now);
      WorkflowMovePreserves(db, r.db, w, r.db.workflows[w]);
    }
  }

  lemma DirectionMoves(db: Db, w: WorkflowId, cause: FailureCause, now: Time)
    requires w in db.workflows && WorkflowOk(db, w)
    ensures var r := FailureDirectionTx(db, w, cause, now);
      r.status == Committed && FailureOfSome(db, w, Some(cause)) ==>
        WorkflowMovesTo(db, w, r.db.workflows[w]) && OnlyWorkflow(db, r.db, w, r.db.workflows[w])
    ensures var r := CancellationDirectionTx(db, w, now);
      r.status == Committed ==>
        WorkflowMovesTo(db, w, r.db.workflows[w]) && OnlyWorkflow(db, r.db, w, r.db.workflows[w])
  {
  }

  lemma FailureDirectionPreserves(db: Db, w: WorkflowId, cause: FailureCause, now: Time)
    requires Inv(db) && FailureOfSome(db, w, Some(cause))
    ensures Advances(db, FailureDirectionTx(db, w, cause, now).db)
  {
    var r := FailureDirectionTx(db, w, cause, now);
    EvolvesReflexive(db);
    if r.status == Committed {
      DirectionMoves(db, w, cause, now);
      WorkflowMovePreserves(db, r.db, w, r.db.workflows[w]);
    }
  }

  lemma CancellationDirectionPreserves(db: Db, w: WorkflowId, now: Time)
    requires Inv(db)
    ensures Advances(db, CancellationDirectionTx(db, w, now).db)
  {
    var r := CancellationDirectionTx(db, w, now);
    EvolvesReflexive(db);
    if r.status == Committed {
      DirectionMoves(db, w, FailureCause(Validation, "", ""), now);
      WorkflowMovePreserves(db, r.db, w, r.db.workflows[w]);
    }
  }

  /** A workflow with some task has its full task set. */
  lemma SomeMeansAll(db: Db, w: WorkflowId)
    requires w in db.workflows && WorkflowOk(db, w) && TaskNames(db, w, AnyTaskState) != {}
    ensures FullMembership(db, w)
  {
    var n :| n in TaskNames(db, w, AnyTaskState);
    assert !NoTasks(db, w);
  }

  lemma TaskNamesStay(s: Db, db: Db, w: WorkflowId)
    requires Evolves(s, db) && TaskNames(s, w, AnyTaskState) != {}
    ensures TaskNames(db, w, AnyTaskState) != {}
  {
    var n :| n in TaskNames(s, w, AnyTaskState);
    EveryTaskState(db.tasks[TaskId(w, n)].state);
    assert n in TaskNames(db, w, AnyTaskState);
  }

  lemma EveryTaskState(s: TaskState)
    ensures s in AnyTaskState
  {
    match s
    case Pending =>
    case Runnable =>
    case Running =>
    case RetryWait =>
    case Succeeded =>
    case Failed =>
    case Cancelled =>
  }

  /** Phase 1's unconditional write is safe, that is, an evolution step that keeps the invariant, exactly when the
      workflow it read INITIALIZING is still so or was started meanwhile; over any other state it is not. */
  lemma RepairInitializingPreserves(s: Db, db: Db, w: WorkflowId)
    requires Inv(s) && Inv(db) && Evolves(s, db)
    requires w in s.workflows && s.workflows[w].state.Initializing? && TaskNames(s, w, AnyTaskState) != {}
    ensures w in db.workflows
    ensures Advances(db, RepairInitializingTx(db, w, s.workflows[w].revision).db) <==>
            db.workflows[w].state.Initializing? || db.workflows[w].state == WorkflowState.Running
  {
    hide TaskOk, AttemptOk, LedgerOk, FullMembership;
    TaskNamesStay(s, db, w);
    RepairSeen(s, db, w);
    var r := RepairInitializingTx(db, w, s.workflows[w].revision);
    EvolvesReflexive(db);
    if db.workflows[w].state.Initializing? {
      RepairMoves(db, w);
      WorkflowMovePreserves(db, r.db, w, r.db.workflows[w]);
    } else {
      RepairEvolves(db, w);
    }
  }

  lemma RepairSeen(s: Db, db: Db, w: WorkflowId)
    requires Evolves(s, db) && w in s.workflows && s.workflows[w].state.Initializing?
    requires WorkflowOk(s, w) && (w in db.workflows ==> WorkflowOk(db, w)) && TaskNames(db, w, AnyTaskState) != {}
    ensures w in db.workflows && s.workflows[w].revision == 1
    ensures FullMembership(db, w) && WorkflowShape(db.workflows[w])
    ensures db.workflows[w].definition in db.definitions
  {
    hide FullMembership;
    SomeMeansAll(db, w);
  }

  lemma RepairMoves(db: Db, w: WorkflowId)
    requires w in db.workflows && db.workflows[w].definition in db.definitions && FullMembership(db, w)
    requires WorkflowShape(db.workflows[w]) && db.workflows[w].state.Initializing?
    ensures var db' := RepairInitializingTx(db, w, 1).db;
      WorkflowMovesTo(db, w, db'.workflows[w]) && OnlyWorkflow(db, db', w, db'.workflows[w])
  {
    hide FullMembership;
  }

  /** Over a RUNNING row the write changes nothing; over a later state it breaks the order of states. */
  lemma RepairEvolves(db: Db, w: WorkflowId)
    requires w in db.workflows && WorkflowShape(db.workflows[w]) && !db.workflows[w].state.Initializing?
    ensures db.workflows[w].state == WorkflowState.Running ==> RepairInitializingTx(db, w, 1).db == db
    ensures db.workflows[w].state != WorkflowState.Running ==> !Evolves(db, RepairInitializingTx(db, w, 1).db)
  {
    var db' := RepairInitializingTx(db, w, 1).db;
    if db.workflows[w].state != WorkflowState.Running {
      assert !WorkflowEvolves(db.workflows[w], db'.workflows[w]);
    }
  }
}
