/**
  Executions cancelled before their tasks exist. start_execution keeps one transaction open until the tasks are there,
  so cancel_execution never meets such an execution; the transactions taken one by one allow it.
  */
module EarlyCancellation {
  import opened Wrappers
  import opened Rows
  import opened Transactions
  import opened Invariant
  import opened Protocol
  import opened Quiescence
  import opened Drain
  import opened Scheduler

  /** The commit that ends a drain, over its own reads. */
  function TerminalCommitTx(db: Db, w: WorkflowId, now: Time): TxResult
    requires w in db.workflows
  {
    if db.workflows[w].state.Failing? then WorkflowFailureTx(db, db, db, w, db.workflows[w].revision, now)
    else WorkflowCancellationTx(db, db, db, w, db.workflows[w].revision, now)
  }

  /** Drain completion, exactly: on a sound database the terminal commit of a draining workflow succeeds if and only if
      the workflow has every task its definition declares, and all of them are terminal; otherwise it does nothing. */
  lemma TerminalCommitIff(db: Db, w: WorkflowId, now: Time)
    requires Inv(db) && IsDraining(db, w)
    ensures db.workflows[w].definition in db.definitions
    ensures var r := TerminalCommitTx(db, w, now);
      && (r.status == Committed <==> FullMembership(db, w) && AllTasksIn(db, w, TerminalTaskStates))
      && (r.status == Committed ==>
            w in r.db.workflows && r.db.workflows[w].state ==
            if db.workflows[w].state.Failing? then WorkflowState.Failed else WorkflowState.Cancelled)
      && (r.status != Committed ==> r.db == db)
  {
    hide Inv;
    RunningHasTasks(db, w);
    WorkflowTasksDeclared(db, w);
    TerminalNames(db, w);
  }

  lemma TerminalNames(db: Db, w: WorkflowId)
    requires w in db.workflows && db.workflows[w].definition in db.definitions
    requires forall t | t in db.tasks && t.workflow == w :: Declared(db, t)
    ensures db.definitions[db.workflows[w].definition].tasks.Keys == TaskNames(db, w, TerminalTaskStates) <==>
            FullMembership(db, w) && AllTasksIn(db, w, TerminalTaskStates)
  {
    var tasks := db.definitions[db.workflows[w].definition].tasks;
    var names := TaskNames(db, w, TerminalTaskStates);
    if FullMembership(db, w) && AllTasksIn(db, w, TerminalTaskStates) {
      NamesComplete(db, w, TerminalTaskStates);
    }
    if tasks.Keys == names {
      forall d | d in tasks ensures TaskId(w, d) in db.tasks {
        assert d in names;
      }
      forall t | t in db.tasks && t.workflow == w ensures db.tasks[t].state in TerminalTaskStates {
        assert Declared(db, t) && t.definition in names;
        assert t == TaskId(w, t.definition);
      }
    }
  }

  /** So an execution that is draining without any task is refused, whatever stale rows the guards read. */
  lemma EmptyCancellationIsRefused(g1: Db, g2: Db, db: Db, w: WorkflowId, expected: int, now: Time)
    requires Inv(g1) && NoTasks(g2, w)
    ensures WorkflowCancellationTx(g1, g2, db, w, expected, now).db == db
    ensures WorkflowCancellationTx(g1, g2, db, w, expected, now).status != Committed
  {
    hide TaskOk, AttemptOk, LedgerOk, WorkflowOk;
    assert TaskNames(g2, w, TerminalTaskStates) == {};
    if w in g1.workflows && g1.workflows[w].definition in g1.definitions {
      assert DefinitionOk(g1.definitions[g1.workflows[w].definition]);
      var k :| k in g1.definitions[g1.workflows[w].definition].tasks;
    }
  }

  // ------------------------------------------------------------------------- what can still settle it

  lemma SettlementAddsNoTask(trace: seq<Db>, step: Step)
    requires Sound(trace) && Enabled(trace, step.action) && Settles(step.action)
    ensures Perform(trace, step).db.tasks.Keys == Last(trace).tasks.Keys
  {
    hide Enabled, Perform, Sound;
    SettlementBothOrNeither(trace, step);
  }

  lemma TaskMoveAddsNoTask(trace: seq<Db>, step: Step)
    requires trace != [] && Enabled(trace, step.action) && MovesTask(step.action)
    ensures Perform(trace, step).db.tasks.Keys == Last(trace).tasks.Keys
  {
  }

  lemma WorkflowMoveAddsNoTask(trace: seq<Db>, step: Step)
    requires trace != [] && Enabled(trace, step.action)
    requires !Settles(step.action) && !MovesTask(step.action) && !step.action.Populate?
    ensures Perform(trace, step).db.tasks.Keys == Last(trace).tasks.Keys
  {
    hide MembershipGuard;
  }

  lemma PopulationAddsTasksOf(trace: seq<Db>, step: Step, t: TaskId)
    requires trace != [] && Enabled(trace, step.action) && step.action.Populate?
    requires t in Perform(trace, step).db.tasks && t !in Last(trace).tasks
    ensures t.workflow == step.action.w && Perform(trace, step).status == Committed
  {
  }

  /** A task row comes from a committed population of its workflow, and from nothing else. */
  lemma TasksComeFromPopulation(trace: seq<Db>, step: Step, t: TaskId)
    requires Sound(trace) && Enabled(trace, step.action)
    requires t in Perform(trace, step).db.tasks && t !in Last(trace).tasks
    ensures step.action.Populate? && step.action.w == t.workflow && Perform(trace, step).status == Committed
  {
    hide Enabled, Perform, Inv, Evolves;
    if step.action.Populate? {
      PopulationAddsTasksOf(trace, step, t);
    } else if Settles(step.action) {
      SettlementAddsNoTask(trace, step);
    } else if MovesTask(step.action) {
      TaskMoveAddsNoTask(trace, step);
    } else {
      WorkflowMoveAddsNoTask(trace, step);
    }
  }

  /** Step j commits a population of w. */
  ghost predicate PopulatesAt(trace: seq<Db>, steps: seq<Step>, j: nat, w: WorkflowId)
    requires IsRun(trace, steps) && j < |steps|
  {
    && steps[j].action.Populate? && steps[j].action.w == w
    && Perform(trace[..j + 1], steps[j]).status == Committed
  }

  /** If w has no tasks at i and some at k, one of the steps between commits a population of w. */
  lemma {:induction false} PopulationBetween(trace: seq<Db>, steps: seq<Step>, i: nat, k: nat, w: WorkflowId)
    returns (j: nat)
    requires IsRun(trace, steps) && i <= k <= |steps| && NoTasks(trace[i], w) && !NoTasks(trace[k], w)
    ensures i <= j < k && PopulatesAt(trace, steps, j, w)
    decreases k
  {
    hide Enabled, Perform, Inv, Evolves;
    j := k - 1;
    if NoTasks(trace[j], w) {
      var t :| t in trace[k].tasks && t.workflow == w;
      assert Last(trace[..j + 1]) == trace[j];
      PrefixIsRun(trace, steps, j);
      RunsAreSound(trace[..j + 1], steps[..j]);
      TasksComeFromPopulation(trace[..j + 1], steps[j], t);
    } else {
      j := PopulationBetween(trace, steps, i, j, w);
    }
  }

  /** In every run an execution that is CANCELLING without tasks ends CANCELLED only if a population of it commits in
      between, one whose guard had read it INITIALIZING before the cancellation. */
  lemma EarlyCancellationAwaitsPopulation(trace: seq<Db>, steps: seq<Step>, i: nat, k: nat, w: WorkflowId)
    returns (j: nat)
    requires IsRun(trace, steps) && i <= k <= |steps|
    requires w in trace[i].workflows && trace[i].workflows[w].state.Cancelling? && NoTasks(trace[i], w)
    requires w in trace[k].workflows && trace[k].workflows[w].state.Cancelled?
    ensures i <= j < k && PopulatesAt(trace, steps, j, w)
    ensures steps[j].action.g < i && StateOf(trace[steps[j].action.g], w) == Some(WorkflowState.Initializing)
  {
    hide Enabled, Perform, Inv, Evolves;
    RunsAreSound(trace, steps);
    CancelledHasTasks(trace[k], w);
    j := PopulationBetween(trace, steps, i, k, w);
    PopulationGuard(trace[..j + 1], steps[j]);
    GuardIsOld(trace, steps, i, j, w);
  }

  lemma PopulationGuard(trace: seq<Db>, step: Step)
    requires trace != [] && Enabled(trace, step.action) && step.action.Populate?
    requires Perform(trace, step).status == Committed
    ensures StateOf(At(trace, step.action.g), step.action.w) == Some(WorkflowState.Initializing)
  {
  }

  lemma GuardIsOld(trace: seq<Db>, steps: seq<Step>, i: nat, j: nat, w: WorkflowId)
    requires Sound(trace) && |trace| == |steps| + 1 && i <= j < |steps| && steps[j].action.Populate?
    requires w in trace[i].workflows && trace[i].workflows[w].state.Cancelling?
    requires StateOf(At(trace[..j + 1], steps[j].action.g), w) == Some(WorkflowState.Initializing)
    ensures steps[j].action.g < i && StateOf(trace[steps[j].action.g], w) == Some(WorkflowState.Initializing)
  {
    hide Inv;
    var g := if steps[j].action.g <= j then steps[j].action.g else j;
    assert At(trace[..j + 1], steps[j].action.g) == trace[g];
    CancellingSince(trace, i, g, w);
  }

  lemma CancellingSince(trace: seq<Db>, i: nat, g: nat, w: WorkflowId)
    requires Sound(trace) && i < |trace| && g < |trace|
    requires w in trace[i].workflows && trace[i].workflows[w].state.Cancelling?
    ensures i <= g ==> StateOf(trace[g], w) != Some(WorkflowState.Initializing)
  {
    hide Inv;
    if i <= g { assert Evolves(trace[i], trace[g]); }
  }

  lemma CancelledHasTasks(db: Db, w: WorkflowId)
    requires Inv(db) && w in db.workflows && db.workflows[w].state.Cancelled?
    ensures !NoTasks(db, w)
  {
    hide TaskOk, AttemptOk, LedgerOk;
    assert WorkflowOk(db, w);
    var spec := db.definitions[db.workflows[w].definition];
    assert DefinitionOk(spec);
    var k :| k in spec.tasks;
    assert TaskId(w, k) in db.tasks;
  }

  // ------------------------------------------------------------------------------- as start_execution does it

  lemma SettlementAddsNoWorkflow(trace: seq<Db>, step: Step)
    requires Sound(trace) && Enabled(trace, step.action) && Settles(step.action)
    ensures Perform(trace, step).db.workflows == Last(trace).workflows
  {
    hide Enabled, Perform, Sound;
    SettlementBothOrNeither(trace, step);
  }

  lemma TaskMoveAddsNoWorkflow(trace: seq<Db>, step: Step)
    requires trace != [] && Enabled(trace, step.action) && MovesTask(step.action)
    ensures Perform(trace, step).db.workflows == Last(trace).workflows
  {
  }

  lemma WorkflowMoveAddsNoWorkflow(trace: seq<Db>, step: Step)
    requires trace != [] && Enabled(trace, step.action)
    requires !Settles(step.action) && !MovesTask(step.action) && !step.action.Create?
    ensures Perform(trace, step).db.workflows.Keys == Last(trace).workflows.Keys
  {
    hide MembershipGuard;
  }

  lemma CreationAdds(trace: seq<Db>, step: Step, w: WorkflowId)
    requires trace != [] && Enabled(trace, step.action) && step.action.Create?
    requires w in Perform(trace, step).db.workflows && w !in Last(trace).workflows
    ensures step.action.w == w
    ensures StateOf(Perform(trace, step).db, w) == Some(WorkflowState.Initializing)
  {
  }

  /** A workflow row comes from a creation, INITIALIZING, and from nothing else. */
  lemma WorkflowsComeFromCreation(trace: seq<Db>, step: Step, w: WorkflowId)
    requires Sound(trace) && Enabled(trace, step.action)
    requires w in Perform(trace, step).db.workflows && w !in Last(trace).workflows
    ensures step.action.Create? && step.action.w == w
    ensures StateOf(Perform(trace, step).db, w) == Some(WorkflowState.Initializing)
  {
    hide Enabled, Perform, Inv, Evolves;
    if step.action.Create? {
      CreationAdds(trace, step, w);
    } else if Settles(step.action) {
      SettlementAddsNoWorkflow(trace, step);
    } else if MovesTask(step.action) {
      TaskMoveAddsNoWorkflow(trace, step);
    } else {
      WorkflowMoveAddsNoWorkflow(trace, step);
    }
  }

  /** A creation that adds its workflow is followed at once by the population of that workflow by the same caller. */
  ghost predicate CreatedWhole(trace: seq<Db>, steps: seq<Step>)
    requires |trace| == |steps| + 1
  {
    forall k | 0 <= k && k + 1 < |steps| && steps[k].action.Create? && steps[k].action.w !in trace[k].workflows
                && steps[k].action.w in trace[k + 1].workflows ::
      steps[k + 1].action == Populate(steps[k].action.w, k + 1, k + 1)
  }

  lemma PopulationGives(trace: seq<Db>, w: WorkflowId, k: nat, now: Time)
    requires Sound(trace) && k + 1 == |trace| && Enabled(trace, Populate(w, k, k))
    requires StateOf(trace[k], w) == Some(WorkflowState.Initializing)
    ensures !NoTasks(Perform(trace, Step(Populate(w, k, k), now)).db, w)
  {
    hide TaskOk, AttemptOk, LedgerOk, WorkflowOk;
    var spec := trace[k].definitions[trace[k].workflows[w].definition];
    assert Inv(trace[k]) && DefinitionOk(spec);
    var d :| d in spec.tasks;
    assert TaskId(w, d) in PendingRows(w, spec.tasks);
    assert TaskId(w, d) in Perform(trace, Step(Populate(w, k, k), now)).db.tasks;
  }

  /** From the second database on that has it, a workflow has tasks. */
  lemma {:induction false} TasksSoon(trace: seq<Db>, steps: seq<Step>, k: nat, w: WorkflowId)
    requires IsRun(trace, steps) && CreatedWhole(trace, steps) && 1 <= k <= |steps|
    requires w in trace[k - 1].workflows
    ensures !NoTasks(trace[k], w)
    decreases k
  {
    hide Enabled, Perform, Inv, Evolves;
    RunsAreSound(trace, steps);
    assert trace[0] == EmptyDb;
    if w in trace[k - 2].workflows {
      TasksSoon(trace, steps, k - 1, w);
      TasksRemain(trace[k - 1], trace[k], w);
    } else {
      PrefixIsRun(trace, steps, k - 2);
      RunsAreSound(trace[..k - 1], steps[..k - 2]);
      assert Last(trace[..k - 1]) == trace[k - 2];
      WorkflowsComeFromCreation(trace[..k - 1], steps[k - 2], w);
      assert steps[k - 2 + 1].action == Populate(w, k - 1, k - 1);
      PrefixIsRun(trace, steps, k - 1);
      RunsAreSound(trace[..k], steps[..k - 1]);
      PopulationGives(trace[..k], w, k - 1, steps[k - 1].now);
    }
  }

  lemma TasksRemain(s: Db, db: Db, w: WorkflowId)
    requires Evolves(s, db) && !NoTasks(s, w)
    ensures !NoTasks(db, w)
  {
    var t :| t in s.tasks && t.workflow == w;
    assert t in db.tasks;
  }

  /** Where creation and population commit together, as start_execution does it, every workflow past INITIALIZING has
      all its tasks; so a drain can complete every draining one. */
  lemma StartedHaveTheirTasks(trace: seq<Db>, steps: seq<Step>, k: nat, w: WorkflowId)
    requires IsRun(trace, steps) && CreatedWhole(trace, steps) && k <= |steps|
    requires w in trace[k].workflows && !trace[k].workflows[w].state.Initializing?
    ensures HasItsTasks(trace[k], w)
  {
    hide Enabled, Perform, Inv, Evolves;
    RunsAreSound(trace, steps);
    if w !in trace[k - 1].workflows {
      PrefixIsRun(trace, steps, k - 1);
      RunsAreSound(trace[..k], steps[..k - 1]);
      assert Last(trace[..k]) == trace[k - 1];
      WorkflowsComeFromCreation(trace[..k], steps[k - 1], w);
      assert false;
    }
    TasksSoon(trace, steps, k, w);
    var t :| t in trace[k].tasks && t.workflow == w;
    StartedHasTasks(trace[k], t);
  }
}
