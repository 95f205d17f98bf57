/** Runs that exist: one that goes all the way, and one that cancels an execution before it has tasks. */
module Witness {
  import opened Wrappers
  import opened JsonCompat
  import opened Graph
  import opened Spec
  import opened Rows
  import opened Readiness
  import opened Transactions
  import opened Invariant
  import opened Preservation
  import opened Protocol
  import opened Steps

  const D := DefinitionId(0)
  const W := WorkflowId(0)
  const T := TaskId(W, "only")
  const A := AttemptId(0)
  const WORKER := SessionId(0)

  /** One task without dependencies and bindings, to be attempted once. */
  const OneTask := ValidatedWorkflowSpec("one", map["only" := TaskDefinition("only", "work", {}, map[], 1)], map[])

  lemma OneTaskIsValid()
    ensures ValidSpec(OneTask)
  {
    var deps := DependencyMap(OneTask.tasks);
    forall path ensures !IsCycle(deps, path) {
      assert 2 <= |path| && path[0] in deps ==> path[0 + 1] !in deps[path[0]];
    }
    assert WellFormedTask(OneTask.tasks, "only");
    assert "only" in OneTask.tasks;
  }

  /** The database holds the definition and these rows, and no others. */
  ghost predicate Holds(db: Db, wf: WorkflowRow, tasks: map<TaskId, TaskRow>, attempts: map<AttemptId, AttemptRow>) {
    && db.definitions == map[D := OneTask] && db.workflows == map[W := wf]
    && db.tasks == tasks && db.attempts == attempts
  }

  function Wf(state: WorkflowState, revision: int): WorkflowRow {
    WorkflowRow(D, state, revision, PyNone, if state.Succeeded? then Some(PyNone) else None, None)
  }

  function Task(state: TaskState, revision: int, ordinal: int): TaskRow {
    TaskRow(state, revision, if revision == 1 || state.Cancelled? then None else Some(map[]),
            if state.Succeeded? then Some(PyNone) else None, 1, ordinal, None, None)
  }

  function Attempt(state: AttemptState, revision: int): AttemptRow {
    AttemptRow(T, 1, WORKER, state, revision, 30, None, None, None)
  }

  /** A run that has come to a database holding these rows. */
  ghost predicate RunTo(
    trace: seq<Db>, steps: seq<Step>, wf: WorkflowRow, tasks: map<TaskId, TaskRow>,
    attempts: map<AttemptId, AttemptRow>)
  {
    trace != [] && IsRun(trace, steps) && Holds(Last(trace), wf, tasks, attempts)
  }

  lemma EmptyRun()
    ensures IsRun([EmptyDb], [])
  {
  }

  /** One more step. */
  lemma Extend(trace: seq<Db>, steps: seq<Step>, action: Action) returns (trace': seq<Db>, steps': seq<Step>)
    requires trace != [] && IsRun(trace, steps) && Enabled(trace, action)
    ensures trace' == trace + [Perform(trace, Step(action, 0)).db] && steps' == steps + [Step(action, 0)]
    ensures IsRun(trace', steps') && Last(trace') == Perform(trace, Step(action, 0)).db
  {
    hide Enabled, Perform;
    RunGrows(trace, steps, Step(action, 0));
    trace', steps' := trace + [Perform(trace, Step(action, 0)).db], steps + [Step(action, 0)];
  }

  lemma NamesOfOne(db: Db, states: set<TaskState>)
    requires db.tasks.Keys == {T} && db.tasks[T].state in states
    ensures TaskNames(db, W, states) == {"only"} == OneTask.tasks.Keys
  {
    assert "only" in TaskNames(db, W, states);
  }

  const PENDING := map[T := Task(TaskState.Pending, 1, 1)]
  const RUNNABLE := map[T := Task(TaskState.Runnable, 2, 1)]
  const RUNNING := map[T := Task(TaskState.Running, 3, 2)]
  const SUCCEEDED := map[T := Task(TaskState.Succeeded, 4, 2)]
  const CANCELLED := map[T := Task(TaskState.Cancelled, 2, 1)]

  lemma Creates() returns (trace: seq<Db>, steps: seq<Step>)
    ensures RunTo(trace, steps, Wf(WorkflowState.Initializing, 1), map[], map[]) && |trace| == 3
  {
    hide IsRun;
    OneTaskIsValid();
    EmptyRun();
    assert !Blank(OneTask.name) by { assert OneTask.name[0] == 'o'; }
    trace, steps := [EmptyDb], [];
    trace, steps := Extend(trace, steps, Register(D, OneTask));
    trace, steps := Extend(trace, steps, Create(W, D, PyNone));
  }

  lemma PopulatesOne(g: Db, db: Db, wf: WorkflowRow)
    requires StateOf(g, W) == Some(WorkflowState.Initializing) && Holds(db, wf, map[], map[])
    ensures Holds(PopulateTx(g, db, W, OneTask.tasks, 0).db, wf, PENDING, map[])
  {
    var rows := PendingRows(W, OneTask.tasks);
    assert T in rows;
    assert forall t | t in rows :: t.definition in OneTask.tasks;
    assert rows == PENDING;
  }

  /** Population by a caller that read the workflow INITIALIZING at index i. */
  lemma Populates(trace: seq<Db>, steps: seq<Step>, wf: WorkflowRow, i: nat)
    returns (trace': seq<Db>, steps': seq<Step>)
    requires RunTo(trace, steps, wf, map[], map[])
    requires Holds(At(trace, i), Wf(WorkflowState.Initializing, 1), map[], map[])
    ensures RunTo(trace', steps', wf, PENDING, map[]) && trace < trace'
  {
    hide IsRun, PopulateTx;
    PopulatesOne(At(trace, i), Last(trace), wf);
    trace', steps' := Extend(trace, steps, Populate(W, i, i));
  }

  lemma Starts(trace: seq<Db>, steps: seq<Step>) returns (trace': seq<Db>, steps': seq<Step>)
    requires RunTo(trace, steps, Wf(WorkflowState.Initializing, 1), PENDING, map[])
    ensures RunTo(trace', steps', Wf(WorkflowState.Running, 2), PENDING, map[])
  {
    hide IsRun;
    NamesOfOne(Last(trace), AnyTaskState);
    trace', steps' := Extend(trace, steps, CompleteInitialization(W, |trace|, |trace|));
  }

  lemma Promotes(trace: seq<Db>, steps: seq<Step>) returns (trace': seq<Db>, steps': seq<Step>)
    requires RunTo(trace, steps, Wf(WorkflowState.Running, 2), PENDING, map[])
    ensures RunTo(trace', steps', Wf(WorkflowState.Running, 2), RUNNABLE, map[])
  {
    hide IsRun;
    assert OutputsOf(Last(trace), W, {}) == map[];
    assert ReadyInput(OneTask.tasks["only"], PyNone, map[]) == Some(map[]);
    trace', steps' := Extend(trace, steps, Readiness(T, map[], |trace|, |trace|));
  }

  lemma Claims(trace: seq<Db>, steps: seq<Step>) returns (trace': seq<Db>, steps': seq<Step>)
    requires RunTo(trace, steps, Wf(WorkflowState.Running, 2), RUNNABLE, map[])
    ensures RunTo(trace', steps', Wf(WorkflowState.Running, 2), RUNNING, map[A := Attempt(AttemptState.Claimed, 1)])
  {
    hide IsRun;
    trace', steps' := Extend(trace, steps, Claim(T, WORKER, A, 30, |trace|, |trace|, |trace|));
  }

  lemma Acknowledges(trace: seq<Db>, steps: seq<Step>) returns (trace': seq<Db>, steps': seq<Step>)
    requires RunTo(trace, steps, Wf(WorkflowState.Running, 2), RUNNING, map[A := Attempt(AttemptState.Claimed, 1)])
    ensures RunTo(trace', steps', Wf(WorkflowState.Running, 2), RUNNING, map[A := Attempt(AttemptState.Running, 2)])
  {
    hide IsRun;
    trace', steps' := Extend(trace, steps, Start(A, WORKER));
  }

  lemma Reports(trace: seq<Db>, steps: seq<Step>) returns (trace': seq<Db>, steps': seq<Step>)
    requires RunTo(trace, steps, Wf(WorkflowState.Running, 2), RUNNING, map[A := Attempt(AttemptState.Running, 2)])
    ensures RunTo(
      trace', steps', Wf(WorkflowState.Running, 2), SUCCEEDED, map[A := Attempt(AttemptState.Succeeded, 3)])
  {
    hide IsRun;
    trace', steps' := Extend(trace, steps, TaskSuccess(A, WORKER, T, PyNone, |trace|, |trace|));
  }

  lemma Finishes(trace: seq<Db>, steps: seq<Step>) returns (trace': seq<Db>, steps': seq<Step>)
    requires RunTo(
      trace, steps, Wf(WorkflowState.Running, 2), SUCCEEDED, map[A := Attempt(AttemptState.Succeeded, 3)])
    ensures RunTo(
      trace', steps', Wf(WorkflowState.Succeeded, 3), SUCCEEDED, map[A := Attempt(AttemptState.Succeeded, 3)])
  {
    hide IsRun;
    NamesOfOne(Last(trace), {TaskState.Succeeded});
    trace', steps' := Extend(trace, steps, WorkflowSuccess(W, PyNone, |trace|, |trace|, |trace|));
  }

  /** From the empty database there is a run in which a workflow is registered, created, populated, started,
      claimed, executed and SUCCEEDED: none of the theorems about runs is vacuous. */
  lemma SomeRunSucceeds() returns (trace: seq<Db>, steps: seq<Step>)
    ensures trace != [] && IsRun(trace, steps)
    ensures W in Last(trace).workflows && Last(trace).workflows[W].state.Succeeded?
    ensures T in Last(trace).tasks && Last(trace).tasks[T].state.Succeeded?
  {
    hide IsRun;
    trace, steps := Creates();
    trace, steps := Populates(trace, steps, Wf(WorkflowState.Initializing, 1), |trace| - 1);
    trace, steps := Starts(trace, steps);
    trace, steps := Promotes(trace, steps);
    trace, steps := Claims(trace, steps);
    trace, steps := Acknowledges(trace, steps);
    trace, steps := Reports(trace, steps);
    trace, steps := Finishes(trace, steps);
  }

  // ------------------------------------------------------------------- cancelled before it has tasks

  lemma CancelsEarly(trace: seq<Db>, steps: seq<Step>) returns (trace': seq<Db>, steps': seq<Step>)
    requires RunTo(trace, steps, Wf(WorkflowState.Initializing, 1), map[], map[])
    ensures RunTo(trace', steps', Wf(WorkflowState.Cancelling, 2), map[], map[])
    ensures |trace'| == |trace| + 1 && trace < trace'
  {
    hide IsRun;
    trace', steps' := Extend(trace, steps, CancellationDirection(W));
  }

  lemma DrainsOne(trace: seq<Db>, steps: seq<Step>) returns (trace': seq<Db>, steps': seq<Step>)
    requires RunTo(trace, steps, Wf(WorkflowState.Cancelling, 2), PENDING, map[])
    ensures RunTo(trace', steps', Wf(WorkflowState.Cancelling, 2), CANCELLED, map[]) && trace < trace'
  {
    hide IsRun;
    trace', steps' := Extend(trace, steps, DrainCancel(T, |trace|, |trace|, |trace|));
  }

  lemma EndsCancelled(trace: seq<Db>, steps: seq<Step>) returns (trace': seq<Db>, steps': seq<Step>)
    requires RunTo(trace, steps, Wf(WorkflowState.Cancelling, 2), CANCELLED, map[])
    ensures RunTo(trace', steps', Wf(WorkflowState.Cancelled, 3), CANCELLED, map[]) && trace < trace'
  {
    hide IsRun;
    NamesOfOne(Last(trace), TerminalTaskStates);
    trace', steps' := Extend(trace, steps, WorkflowCancellation(W, |trace|, |trace|, |trace|));
  }

  /** There is a run in which an execution is CANCELLING without tasks at index i, and one that goes on from there to
      CANCELLED: a population whose guard had read INITIALIZING commits after the cancellation. */
  lemma EarlyCancellationEnds() returns (trace: seq<Db>, steps: seq<Step>, i: nat)
    ensures IsRun(trace, steps) && i < |trace|
    ensures W in trace[i].workflows && trace[i].workflows[W].state.Cancelling? && NoTasks(trace[i], W)
    ensures W in Last(trace).workflows && Last(trace).workflows[W].state.Cancelled?
  {
    hide IsRun;
    trace, steps := Creates();
    i := |trace|;
    trace, steps := CancelsEarly(trace, steps);
    trace, steps := Populates(trace, steps, Wf(WorkflowState.Cancelling, 2), i - 1);
    trace, steps := DrainsOne(trace, steps);
    trace, steps := EndsCancelled(trace, steps);
  }
}
