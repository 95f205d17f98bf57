/** Dependencies at run time: inputs are causally correct, success is topologically ordered, and a validated
    workflow cannot deadlock. */
module Causality {
  import opened Wrappers
  import opened JsonCompat
  import opened Spec
  import opened Graph
  import opened Rows
  import opened Readiness
  import opened Transactions
  import opened Invariant
  import opened Preservation
  import opened Protocol

  // ------------------------------------------------------------------------------------- stable inputs

  /** All declared dependencies of t have SUCCEEDED with an output. */
  ghost predicate DependenciesDone(db: Db, t: TaskId)
    requires Declared(db, t)
  {
    forall d | d in DefinitionOf(db, t).dependencies ::
      var u := TaskId(t.workflow, d);
      u in db.tasks && db.tasks[u].state.Succeeded? && db.tasks[u].output.Some?
  }

  /** What parameter p of task t resolves to over the outputs stored in db. */
  function BoundValue(db: Db, t: TaskId, p: string): Option<PyValue>
    requires Declared(db, t) && p in DefinitionOf(db, t).inputBindings
  {
    match DefinitionOf(db, t).inputBindings[p]
    case LiteralBinding(v) => Some(v)
    case WorkflowInputBinding => Some(db.workflows[t.workflow].input)
    case TaskOutputBinding(u) =>
      if TaskId(t.workflow, u) in db.tasks then db.tasks[TaskId(t.workflow, u)].output else None
  }

  /** Causal input correctness: in every database of every run, a task that has its input has all its
      dependencies SUCCEEDED, and each parameter is the value its binding has over the outputs stored now,
      although promotion resolved it over an older snapshot. */
  lemma InputsAreCausal(trace: seq<Db>, steps: seq<Step>, k: nat, t: TaskId)
    requires IsRun(trace, steps) && k <= |steps| && t in trace[k].tasks && trace[k].tasks[t].input.Some?
    ensures Declared(trace[k], t) && DependenciesDone(trace[k], t)
    ensures var input := trace[k].tasks[t].input.value;
      && input.Keys == DefinitionOf(trace[k], t).inputBindings.Keys
      && forall p | p in input :: BoundValue(trace[k], t, p) == Some(input[p])
  {
    RunsAreSound(trace, steps);
    CausalInput(trace[k], t);
  }

  lemma CausalInput(db: Db, t: TaskId)
    requires Inv(db) && t in db.tasks && db.tasks[t].input.Some?
    ensures Declared(db, t) && DependenciesDone(db, t)
    ensures var input := db.tasks[t].input.value;
      && input.Keys == DefinitionOf(db, t).inputBindings.Keys
      && forall p | p in input :: BoundValue(db, t, p) == Some(input[p])
  {
    ResolvedInput(db, t);
  }

  lemma ResolvedInput(db: Db, t: TaskId)
    requires t in db.tasks && TaskOk(db, t) && db.tasks[t].input.Some?
    ensures DependenciesDone(db, t)
    ensures var input := db.tasks[t].input.value;
      && input.Keys == DefinitionOf(db, t).inputBindings.Keys
      && forall p | p in input :: BoundValue(db, t, p) == Some(input[p])
  {
    var def := DefinitionOf(db, t);
    var outputs := OutputsOf(db, t.workflow, def.dependencies);
    assert Resolvable(def, outputs);
    forall d | d in def.dependencies
      ensures TaskId(t.workflow, d) in db.tasks && db.tasks[TaskId(t.workflow, d)].state.Succeeded?
              && db.tasks[TaskId(t.workflow, d)].output.Some?
    {
      assert d in outputs;
    }
  }

  // ------------------------------------------------------------------------------ the evaluator's answers

  /** What the task snapshot is built from: the workflow row of seen, the task rows of snapshot. */
  function SnapshotOf(row: WorkflowRow, def: TaskDefinition, snapshot: Db, t: TaskId): TaskSnapshot
    requires t in snapshot.tasks
  {
    TaskSnapshot(row.state, row.input, snapshot.tasks[t].state, def,
                 map d | d in def.dependencies && TaskId(t.workflow, d) in snapshot.tasks ::
                   DependencySnapshot(snapshot.tasks[TaskId(t.workflow, d)].state,
                                      snapshot.tasks[TaskId(t.workflow, d)].output))
  }

  lemma SnapshotOutputs(row: WorkflowRow, def: TaskDefinition, snapshot: Db, t: TaskId)
    requires t in snapshot.tasks
    ensures SnapshotOf(row, def, snapshot, t).Outputs() == OutputsOf(snapshot, t.workflow, def.dependencies)
  {
  }

  /** What the readiness evaluator can answer about a row of a reachable database. */
  predicate Answerable(reason: ReadinessReason) {
    reason.Ready? || reason.WorkflowNotRunning? || reason.TaskNotPending? || reason.DependencyNotSucceeded?
  }

  /** In no run does the evaluator find a dependency without its row, a SUCCEEDED one without its output, or an input
      it cannot resolve: about any task row of any database, with the workflow row of any earlier one, it says that
      the task is ready, or names the workflow's state, the task's own state, or an unfinished dependency. */
  lemma EvaluatorAnswers(trace: seq<Db>, steps: seq<Step>, i: nat, k: nat, t: TaskId)
    requires IsRun(trace, steps) && i <= k <= |steps| && t in trace[k].tasks && t.workflow in trace[i].workflows
    ensures Declared(trace[k], t)
    ensures var row := trace[i].workflows[t.workflow];
      forall reason | MayAnswer(SnapshotOf(row, DefinitionOf(trace[k], t), trace[k], t), reason) :: Answerable(reason)
  {
    hide MayAnswer;
    RunsAreSound(trace, steps);
    SoundAnswers(trace[i].workflows[t.workflow], trace[k], t);
  }

  lemma SoundAnswers(row: WorkflowRow, db: Db, t: TaskId)
    requires Inv(db) && t in db.tasks
    ensures Declared(db, t)
    ensures forall d | d in DefinitionOf(db, t).dependencies :: TaskId(t.workflow, d) in db.tasks
    ensures forall reason | MayAnswer(SnapshotOf(row, DefinitionOf(db, t), db, t), reason) :: Answerable(reason)
  {
    hide TaskOk, LedgerOk, AttemptOk, WorkflowOk, MayAnswer;
    TaskDeclared(db, t);
    DefinedAndFull(db, t);
    AnswersOf(row, db, t);
  }

  lemma DefinedAndFull(db: Db, t: TaskId)
    requires t in db.tasks && Declared(db, t) && WorkflowOk(db, t.workflow)
    requires DefinitionOk(db.definitions[db.workflows[t.workflow].definition])
    ensures FullMembership(db, t.workflow)
    ensures WellFormedTask(db.definitions[db.workflows[t.workflow].definition].tasks, t.definition)
  {
    assert !NoTasks(db, t.workflow);
  }

  lemma AnswersOf(row: WorkflowRow, db: Db, t: TaskId)
    requires t in db.tasks && Declared(db, t) && FullMembership(db, t.workflow)
    requires WellFormedTask(db.definitions[db.workflows[t.workflow].definition].tasks, t.definition)
    requires forall x | x in db.tasks :: TaskOk(db, x)
    ensures forall d | d in DefinitionOf(db, t).dependencies :: TaskId(t.workflow, d) in db.tasks
    ensures forall reason | MayAnswer(SnapshotOf(row, DefinitionOf(db, t), db, t), reason) :: Answerable(reason)
  {
    var def := DefinitionOf(db, t);
    var s := SnapshotOf(row, def, db, t);
    forall d | d in def.dependencies
      ensures d in s.upstream && (s.upstream[d].state.Succeeded? ==> s.upstream[d].output.Some?)
    {
      assert TaskOk(db, TaskId(t.workflow, d));
    }
    forall p | p in def.inputBindings && forall d | d in def.dependencies :: s.DependencyReady(d)
      ensures SourceReadable(s, def.inputBindings[p])
    {
    }
  }

  // --------------------------------------------------------------------------------- deadlock freedom

  /** Some task of w can still move: it is claimable, owned, waiting for its retry time, or PENDING with an
      input the readiness evaluator resolves. */
  ghost predicate CanMove(db: Db, t: TaskId)
    requires t in db.tasks && Declared(db, t)
  {
    var s := db.tasks[t].state;
    var def := DefinitionOf(db, t);
    || s.Runnable? || s.Running? || s.RetryWait?
    || (s.Pending? &&
        ReadyInput(def, db.workflows[t.workflow].input, OutputsOf(db, t.workflow, def.dependencies)).Some?)
  }

  lemma DependenciesResolve(db: Db, t: TaskId)
    requires t in db.tasks && Declared(db, t)
    requires WellFormedTask(db.definitions[db.workflows[t.workflow].definition].tasks, t.definition)
    requires DependenciesDone(db, t)
    ensures var def := DefinitionOf(db, t);
      ReadyInput(def, db.workflows[t.workflow].input, OutputsOf(db, t.workflow, def.dependencies)).Some?
  {
    var def := DefinitionOf(db, t);
    assert OutputsOf(db, t.workflow, def.dependencies).Keys == def.dependencies;
  }

  /** Deadlock freedom: a RUNNING workflow in which no task has FAILED has finished all its tasks, or some task
      of it can move. */
  lemma NoDeadlock(trace: seq<Db>, steps: seq<Step>, k: nat, w: WorkflowId)
    requires IsRun(trace, steps) && k <= |steps|
    requires w in trace[k].workflows && trace[k].workflows[w].state.Running? && !SomeTaskFailed(trace[k], w)
    ensures || AllTasksIn(trace[k], w, {TaskState.Succeeded})
            || exists t :: t in trace[k].tasks && t.workflow == w && Declared(trace[k], t) && CanMove(trace[k], t)
  {
    RunsAreSound(trace, steps);
    SoundMovable(trace[k], w);
  }

  lemma SoundMovable(db: Db, w: WorkflowId)
    requires Inv(db) && w in db.workflows && db.workflows[w].state.Running? && !SomeTaskFailed(db, w)
    ensures || AllTasksIn(db, w, {TaskState.Succeeded})
            || exists t :: t in db.tasks && t.workflow == w && Declared(db, t) && CanMove(db, t)
  {
    assert WorkflowOk(db, w);
    FindMovable(db, w);
  }

  /** The PENDING tasks, if nothing else is left, contain one whose dependencies are all outside the set. */
  lemma FindMovable(db: Db, w: WorkflowId)
    requires w in db.workflows && db.workflows[w].state.Running? && !SomeTaskFailed(db, w)
    requires db.workflows[w].definition in db.definitions && ValidSpec(db.definitions[db.workflows[w].definition])
    requires FullMembership(db, w)
    requires forall t | t in db.tasks :: TaskOk(db, t)
    ensures || AllTasksIn(db, w, {TaskState.Succeeded})
            || exists t :: t in db.tasks && t.workflow == w && Declared(db, t) && CanMove(db, t)
  {
    var tasks := db.definitions[db.workflows[w].definition].tasks;
    var pending := set d | d in tasks && db.tasks[TaskId(w, d)].state.Pending?;
    if !AllTasksIn(db, w, {TaskState.Succeeded}) {
      var t :| t in db.tasks && t.workflow == w && !db.tasks[t].state.Succeeded?;
      assert TaskOk(db, t);
      assert !FailedTaskOf(db, w, t);
      assert t == TaskId(w, t.definition);
      if db.tasks[t].state.Pending? {
        assert t.definition in pending;
        if forall u | u in db.tasks && u.workflow == w :: db.tasks[u].state.Pending? || db.tasks[u].state.Succeeded? {
          var d := HasSource(DependencyMap(tasks), pending);
          SourceIsReady(db, w, d, pending);
        } else {
          var u :| u in db.tasks && u.workflow == w && !db.tasks[u].state.Pending? && !db.tasks[u].state.Succeeded?;
          assert TaskOk(db, u) && !FailedTaskOf(db, w, u);
          assert CanMove(db, u);
        }
      } else {
        assert CanMove(db, t);
      }
    }
  }

  lemma SourceIsReady(db: Db, w: WorkflowId, d: string, pending: set<string>)
    requires w in db.workflows && db.workflows[w].definition in db.definitions
    requires ValidSpec(db.definitions[db.workflows[w].definition]) && FullMembership(db, w)
    requires forall t | t in db.tasks :: TaskOk(db, t)
    requires forall u | u in db.tasks && u.workflow == w :: db.tasks[u].state.Pending? || db.tasks[u].state.Succeeded?
    requires d in db.definitions[db.workflows[w].definition].tasks && d in pending
    requires pending == set x | x in db.definitions[db.workflows[w].definition].tasks
                                && db.tasks[TaskId(w, x)].state.Pending?
    requires db.definitions[db.workflows[w].definition].tasks[d].dependencies !! pending
    ensures Declared(db, TaskId(w, d)) && CanMove(db, TaskId(w, d))
  {
    var tasks := db.definitions[db.workflows[w].definition].tasks;
    assert WellFormedTask(tasks, d);
    forall x | x in tasks[d].dependencies
      ensures TaskId(w, x) in db.tasks && db.tasks[TaskId(w, x)].state.Succeeded?
              && db.tasks[TaskId(w, x)].output.Some?
    {
      assert x in tasks && x !in pending;
      assert TaskOk(db, TaskId(w, x));
    }
    DependenciesResolve(db, TaskId(w, d));
  }
}
