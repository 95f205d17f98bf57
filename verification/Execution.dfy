/**
  The pure transitions of the domain (domain/execution.py), and the sense in which the transactions refine them: a
  transaction that commits moved its row as the matching transition does, and then bumped the revision.
  */
module Execution {
  import opened Wrappers
  import opened JsonCompat
  import opened Rows
  import opened Transactions
  import opened Invariant
  import opened Preservation
  import opened Settlement
  import opened WorkflowMoves
  import opened Protocol

  datatype SemanticEvent =
    | WorkflowStarted | WorkflowSucceeded | TaskInitialRunnable | TaskRunningStarted | TaskSucceeded
    | AttemptStartObserved | AttemptSucceeded

  datatype Transition<E> = Applied(entity: E, event: SemanticEvent) | Rejected

  function BeginRunning(wf: WorkflowRow): Transition<WorkflowRow> {
    if !wf.state.Initializing? then Rejected
    else Applied(wf.(state := WorkflowState.Running), WorkflowStarted)
  }

  function CompleteSuccess(wf: WorkflowRow, output: PyValue): Transition<WorkflowRow> {
    if wf.state != WorkflowState.Running then Rejected
    else Applied(wf.(state := WorkflowState.Succeeded, output := Some(output), failure := None), WorkflowSucceeded)
  }

  function MarkInitiallyRunnable(task: TaskRow, input: JsonObject): Transition<TaskRow> {
    if !task.state.Pending? then Rejected
    else Applied(task.(state := TaskState.Runnable, input := Some(input), retryReadyAt := None), TaskInitialRunnable)
  }

  function MarkRunning(task: TaskRow): Transition<TaskRow> {
    if !task.state.Runnable? then Rejected
    else Applied(task.(state := TaskState.Running), TaskRunningStarted)
  }

  function MarkSucceeded(task: TaskRow, output: PyValue): Transition<TaskRow> {
    if task.state != TaskState.Running then Rejected
    else Applied(task.(state := TaskState.Succeeded, output := Some(output)), TaskSucceeded)
  }

  function ObserveAttemptStart(attempt: AttemptRow, now: Time): Transition<AttemptRow> {
    if !attempt.state.Claimed? then Rejected
    else if attempt.startDeadline < now then Rejected
    else Applied(attempt.(state := AttemptState.Running), AttemptStartObserved)
  }

  function CompleteAttemptSuccess(attempt: AttemptRow): Transition<AttemptRow> {
    if attempt.state != AttemptState.Running then Rejected
    else Applied(attempt.(state := AttemptState.Succeeded), AttemptSucceeded)
  }

  // ------------------------------------------------------------------------------------- refinement

  predicate MovesWorkflow(t: Transition<WorkflowRow>, row: WorkflowRow, row': WorkflowRow) {
    t.Applied? && row' == t.entity.(revision := row.revision + 1)
  }

  predicate MovesTaskRow(t: Transition<TaskRow>, row: TaskRow, row': TaskRow) {
    t.Applied? && row' == t.entity.(revision := row.revision + 1, nextOrdinal := row'.nextOrdinal)
  }

  predicate MovesAttempt(t: Transition<AttemptRow>, row: AttemptRow, row': AttemptRow) {
    t.Applied? && row' == t.entity.(revision := row.revision + 1)
  }

  lemma StartRefines(g1: Db, g2: Db, db: Db, w: WorkflowId, expected: int, now: Time)
    requires InitializationCompleteTx(g1, g2, db, w, expected, now).status == Committed
    ensures w in db.workflows
    ensures MovesWorkflow(BeginRunning(db.workflows[w]), db.workflows[w],
                          InitializationCompleteTx(g1, g2, db, w, expected, now).db.workflows[w])
  {
  }

  /** A repair that changes anything is begin_running. */
  lemma RepairRefines(db: Db, w: WorkflowId)
    requires w in db.workflows && WorkflowShape(db.workflows[w]) && db.workflows[w].state.Initializing?
    ensures MovesWorkflow(BeginRunning(db.workflows[w]), db.workflows[w],
                          RepairInitializingTx(db, w, 1).db.workflows[w])
  {
  }

  /** The transition also clears the failure cause; a RUNNING row never has one. */
  lemma SuccessRefines(g1: Db, g2: Db, db: Db, w: WorkflowId, expected: int, output: PyValue, now: Time)
    requires w in db.workflows ==> WorkflowShape(db.workflows[w])
    requires WorkflowSuccessTx(g1, g2, db, w, expected, output, now).status == Committed
    ensures w in db.workflows
    ensures MovesWorkflow(CompleteSuccess(db.workflows[w], output), db.workflows[w],
                          WorkflowSuccessTx(g1, g2, db, w, expected, output, now).db.workflows[w])
  {
  }

  /** The transition also clears the retry time; a PENDING row never has one. */
  lemma ReadinessRefines(g: Db, db: Db, t: TaskId, expected: int, input: JsonObject, now: Time)
    requires t in db.tasks ==> TaskShape(db.tasks[t])
    requires ReadinessTx(g, db, t, expected, input, now).status == Committed
    ensures t in db.tasks
    ensures MovesTaskRow(MarkInitiallyRunnable(db.tasks[t], input), db.tasks[t],
                         ReadinessTx(g, db, t, expected, input, now).db.tasks[t])
  {
  }

  /** A claim moves the task and counts the attempt. */
  lemma ClaimRefines(
    g1: Db, g2: Db, db: Db, t: TaskId, expected: int, worker: SessionId, a: AttemptId, deadline: Time, now: Time)
    requires ClaimTx(g1, g2, db, t, expected, worker, a, deadline, now).status == Committed
    ensures t in db.tasks
    ensures var db' := ClaimTx(g1, g2, db, t, expected, worker, a, deadline, now).db;
      && MovesTaskRow(MarkRunning(db.tasks[t]), db.tasks[t], db'.tasks[t])
      && db'.tasks[t].nextOrdinal == db.tasks[t].nextOrdinal + 1
      && a in db'.attempts && db'.attempts[a].ordinal == db.tasks[t].nextOrdinal
  {
  }

  /** A start that changes anything is the observed start; it is refused past the deadline. */
  lemma AttemptStartRefines(db: Db, a: AttemptId, worker: SessionId, expected: int, now: Time)
    requires StartTx(db, a, worker, expected, now).db != db
    ensures a in db.attempts && now <= db.attempts[a].startDeadline
    ensures MovesAttempt(ObserveAttemptStart(db.attempts[a], now), db.attempts[a],
                         StartTx(db, a, worker, expected, now).db.attempts[a])
  {
  }

  /** A success that changes anything moves both the attempt and its task. */
  lemma TaskSuccessRefines(
    db: Db, a: AttemptId, worker: SessionId, ea: int, t: TaskId, et: int, output: PyValue, now: Time)
    requires var r := TaskSuccessTx(db, a, worker, ea, t, et, output, now); r.status == Committed && r.db != db
    ensures a in db.attempts && t in db.tasks
    ensures var db' := TaskSuccessTx(db, a, worker, ea, t, et, output, now).db;
      && MovesAttempt(CompleteAttemptSuccess(db.attempts[a]), db.attempts[a], db'.attempts[a])
      && MovesTaskRow(MarkSucceeded(db.tasks[t], output), db.tasks[t], db'.tasks[t])
      && db'.tasks[t].nextOrdinal == db.tasks[t].nextOrdinal
  {
  }

  // ------------------------------------------------------------------------------------- whole runs

  /** Wherever the domain has a transition into the new state, the row moved by it. */
  predicate TaskRefined(r: TaskRow, r': TaskRow) {
    r' == r ||
    match r'.state
    case Runnable => r.state.Pending? ==>
      r'.input.Some? && MovesTaskRow(MarkInitiallyRunnable(r, r'.input.value), r, r')
    case Running => MovesTaskRow(MarkRunning(r), r, r') && r'.nextOrdinal == r.nextOrdinal + 1
    case Succeeded => r'.output.Some? && MovesTaskRow(MarkSucceeded(r, r'.output.value), r, r')
    case _ => true
  }

  predicate WorkflowRefined(r: WorkflowRow, r': WorkflowRow) {
    r' == r ||
    match r'.state
    case Running => MovesWorkflow(BeginRunning(r), r, r')
    case Succeeded => r'.output.Some? && MovesWorkflow(CompleteSuccess(r, r'.output.value), r, r')
    case _ => true
  }

  /** The drain may also write a cancellation deadline, which is no transition. */
  predicate AttemptRefined(r: AttemptRow, r': AttemptRow, now: Time) {
    r'.(cancellationDeadline := r.cancellationDeadline) == r ||
    match r'.state
    case Running => MovesAttempt(ObserveAttemptStart(r, now), r, r')
    case Succeeded => MovesAttempt(CompleteAttemptSuccess(r), r, r')
    case _ => true
  }

  ghost predicate Refined(db: Db, db': Db, now: Time) {
    && (forall t | t in db.tasks :: t in db'.tasks && TaskRefined(db.tasks[t], db'.tasks[t]))
    && (forall w | w in db.workflows :: w in db'.workflows && WorkflowRefined(db.workflows[w], db'.workflows[w]))
    && (forall a | a in db.attempts :: a in db'.attempts && AttemptRefined(db.attempts[a], db'.attempts[a], now))
  }

  lemma UnchangedRefined(db: Db, now: Time)
    ensures Refined(db, db, now)
  {
  }

  /** A settlement other than success enters no state the domain has a transition for. */
  lemma SettlementRefined(db: Db, db': Db, a: AttemptId, t: TaskId, now: Time)
    requires IsSettlement(db, db', a, t) && !db'.tasks[t].state.Succeeded?
    ensures Refined(db, db', now)
  {
  }

  lemma SuccessRefined(
    db: Db, a: AttemptId, worker: SessionId, ea: int, t: TaskId, et: int, output: PyValue, now: Time)
    requires var r := TaskSuccessTx(db, a, worker, ea, t, et, output, now);
      BothOrNeither(db, r, a, t)
    ensures Refined(db, TaskSuccessTx(db, a, worker, ea, t, et, output, now).db, now)
  {
    var r := TaskSuccessTx(db, a, worker, ea, t, et, output, now);
    if r.db != db { TaskSuccessRefines(db, a, worker, ea, t, et, output, now); }
  }

  lemma OtherSettlements(trace: seq<Db>, step: Step)
    requires trace != [] && Enabled(trace, step.action) && Settles(step.action) && !step.action.TaskSuccess?
    requires BothOrNeither(Last(trace), Perform(trace, step), step.action.a, step.action.t)
    ensures Refined(Last(trace), Perform(trace, step).db, step.now)
  {
    var db, r := Last(trace), Perform(trace, step);
    if r.db == db {
      UnchangedRefined(db, step.now);
    } else {
      NotSucceeded(trace, step);
      SettlementRefined(db, r.db, step.action.a, step.action.t, step.now);
    }
  }

  lemma NotSucceeded(trace: seq<Db>, step: Step)
    requires trace != [] && Enabled(trace, step.action) && Settles(step.action) && !step.action.TaskSuccess?
    requires var r := Perform(trace, step); r.status == Committed && r.db != Last(trace)
    ensures var db' := Perform(trace, step).db;
      step.action.t in db'.tasks ==> !db'.tasks[step.action.t].state.Succeeded?
  {
    hide BothOrNeither, IsSettlement;
  }

  lemma TaskMoveRefined(trace: seq<Db>, step: Step)
    requires trace != [] && Enabled(trace, step.action) && MovesTask(step.action)
    requires forall t | t in Last(trace).tasks :: TaskShape(Last(trace).tasks[t])
    ensures Refined(Last(trace), Perform(trace, step).db, step.now)
  {
    hide TaskShape, Refined, ReadinessTx, ClaimTx, RetryReadyTx, DrainCancelTx, StartTx, CancelDeadlineTx;
    var db, now := Last(trace), step.now;
    match step.action
    case Readiness(t, input, i, g) =>
      ReadinessRefined(At(trace, g), db, t, At(trace, i).tasks[t].revision, input, now);
    case Claim(t, worker, a, deadline, i, g1, g2) =>
      ClaimRefined(At(trace, g1), At(trace, g2), db, t, At(trace, i).tasks[t].revision, worker, a, deadline, now);
    case RetryReady(t, i, g) => WakeRefined(At(trace, g), db, t, At(trace, i).tasks[t].revision, now);
    case DrainCancel(t, i, g1, g2) =>
      DrainRefined(At(trace, g1), At(trace, g2), db, t, At(trace, i).tasks[t].revision, now);
    case Start(a, worker) => StartRefined(db, a, worker, now);
    case SetCancelDeadline(a) => DeadlineRefined(db, a, now + CANCELLATION_GRACE, now);
  }

  lemma ReadinessRefined(g: Db, db: Db, t: TaskId, expected: int, input: JsonObject, now: Time)
    requires t in db.tasks ==> TaskShape(db.tasks[t])
    ensures Refined(db, ReadinessTx(g, db, t, expected, input, now).db, now)
  {
    if ReadinessTx(g, db, t, expected, input, now).status == Committed {
      ReadinessRefines(g, db, t, expected, input, now);
    }
  }

  lemma ClaimRefined(
    g1: Db, g2: Db, db: Db, t: TaskId, expected: int, worker: SessionId, a: AttemptId, deadline: Time, now: Time)
    ensures Refined(db, ClaimTx(g1, g2, db, t, expected, worker, a, deadline, now).db, now)
  {
    if ClaimTx(g1, g2, db, t, expected, worker, a, deadline, now).status == Committed {
      ClaimRefines(g1, g2, db, t, expected, worker, a, deadline, now);
    }
  }

  lemma WakeRefined(g: Db, db: Db, t: TaskId, expected: int, now: Time)
    ensures Refined(db, RetryReadyTx(g, db, t, expected, now).db, now)
  {
  }

  lemma DrainRefined(g1: Db, g2: Db, db: Db, t: TaskId, expected: int, now: Time)
    ensures Refined(db, DrainCancelTx(g1, g2, db, t, expected, now).db, now)
  {
  }

  lemma StartRefined(db: Db, a: AttemptId, worker: SessionId, now: Time)
    ensures Refined(db, StartTx(db, a, worker, 1, now).db, now)
  {
    if StartTx(db, a, worker, 1, now).db != db { AttemptStartRefines(db, a, worker, 1, now); }
  }

  lemma DeadlineRefined(db: Db, a: AttemptId, deadline: Time, now: Time)
    ensures Refined(db, CancelDeadlineTx(db, a, deadline).db, now)
  {
  }

  lemma MembershipRefined(
    g1: Db, g2: Db, db: Db, w: WorkflowId, expected: int, from: WorkflowState, counted: set<TaskState>,
    to: WorkflowState, output: Option<PyValue>, event: Event, now: Time)
    requires w in db.workflows ==> WorkflowShape(db.workflows[w])
    requires MembershipKind(from, counted, to, output)
    ensures Refined(db, MembershipTx(g1, g2, db, w, expected, from, counted, to, output, event, now).db, now)
  {
    hide MembershipGuard, Refined;
    var r := MembershipTx(g1, g2, db, w, expected, from, counted, to, output, event, now);
    if r.status == Committed {
      WorkflowRowRefined(db, w, MovedRow(db.workflows[w], to, output), event, now);
    } else {
      UnchangedRefined(db, now);
    }
  }

  lemma WorkflowRowRefined(db: Db, w: WorkflowId, row: WorkflowRow, event: Event, now: Time)
    requires w in db.workflows && WorkflowRefined(db.workflows[w], row)
    ensures Refined(db, MoveWorkflow(db, w, row, event, now), now)
  {
  }

  lemma WorkflowMoveRefined(trace: seq<Db>, step: Step)
    requires trace != [] && Enabled(trace, step.action) && !MovesTask(step.action) && !Settles(step.action)
    requires forall w | w in Last(trace).workflows :: WorkflowShape(Last(trace).workflows[w])
    requires !step.action.RepairInitializing?
    ensures Refined(Last(trace), Perform(trace, step).db, step.now)
  {
    hide WorkflowShape, MembershipTx, Refined;
    var db, now := Last(trace), step.now;
    match step.action
    case CompleteInitialization(w, g1, g2) =>
      MembershipRefined(At(trace, g1), At(trace, g2), db, w, 1, WorkflowState.Initializing, AnyTaskState,
                        WorkflowState.Running, None, WorkflowExecutionStarted, now);
    case WorkflowSuccess(w, output, i, g1, g2) =>
      MembershipRefined(At(trace, g1), At(trace, g2), db, w, At(trace, i).workflows[w].revision,
                        WorkflowState.Running, {TaskState.Succeeded}, WorkflowState.Succeeded, Some(output),
                        WorkflowExecutionSucceeded, now);
    case WorkflowFailure(w, i, g1, g2) =>
      MembershipRefined(At(trace, g1), At(trace, g2), db, w, At(trace, i).workflows[w].revision,
                        WorkflowState.Failing, TerminalTaskStates, WorkflowState.Failed, None,
                        WorkflowExecutionFailed, now);
    case WorkflowCancellation(w, i, g1, g2) =>
      MembershipRefined(At(trace, g1), At(trace, g2), db, w, At(trace, i).workflows[w].revision,
                        WorkflowState.Cancelling, TerminalTaskStates, WorkflowState.Cancelled, None,
                        WorkflowExecutionCancelled, now);
    case _ => RowStepRefined(trace, step);
  }

  lemma RepairStepRefined(trace: seq<Db>, step: Step)
    requires Sound(trace) && Enabled(trace, step.action) && step.action.RepairInitializing?
    ensures Refined(Last(trace), Perform(trace, step).db, step.now)
  {
    hide Refined, Inv, Evolves;
    var db, w := Last(trace), step.action.w;
    RepairReads(trace, w, step.action.i);
    RepairRefined(db, w, step.now);
  }

  lemma RepairRefined(db: Db, w: WorkflowId, now: Time)
    requires w in db.workflows && WorkflowShape(db.workflows[w])
    requires db.workflows[w].state.Initializing? || db.workflows[w].state == WorkflowState.Running
    ensures Refined(db, RepairInitializingTx(db, w, 1).db, now)
  {
    if db.workflows[w].state.Initializing? { RepairRefines(db, w); }
    else { RepairEvolves(db, w); }
  }

  /** Registration, creation, population and the two directions. */
  lemma RowStepRefined(trace: seq<Db>, step: Step)
    requires trace != [] && Enabled(trace, step.action) && !MovesTask(step.action) && !Settles(step.action)
    requires !ComparesMembership(step.action) && !step.action.RepairInitializing?
    ensures Refined(Last(trace), Perform(trace, step).db, step.now)
  {
  }

  lemma Shapes(db: Db)
    requires Inv(db)
    ensures forall t | t in db.tasks :: TaskShape(db.tasks[t])
    ensures forall w | w in db.workflows :: WorkflowShape(db.workflows[w])
  {
    hide AttemptOk, LedgerOk, TaskShape, WorkflowShape;
    forall t | t in db.tasks ensures TaskShape(db.tasks[t]) { assert TaskOk(db, t); }
    forall w | w in db.workflows ensures WorkflowShape(db.workflows[w]) { assert WorkflowOk(db, w); }
  }

  lemma StepRefined(trace: seq<Db>, step: Step)
    requires Sound(trace) && Enabled(trace, step.action)
    ensures Refined(Last(trace), Perform(trace, step).db, step.now)
  {
    hide Inv, Evolves, Refined, Perform, BothOrNeither, TaskShape, WorkflowShape;
    Shapes(Last(trace));
    if Settles(step.action) {
      SettlementBothOrNeither(trace, step);
      if step.action.TaskSuccess? { SuccessStepRefined(trace, step); }
      else { OtherSettlements(trace, step); }
    } else if MovesTask(step.action) {
      TaskMoveRefined(trace, step);
    } else if step.action.RepairInitializing? {
      RepairStepRefined(trace, step);
    } else {
      WorkflowMoveRefined(trace, step);
    }
  }

  lemma SuccessStepRefined(trace: seq<Db>, step: Step)
    requires trace != [] && Enabled(trace, step.action) && step.action.TaskSuccess?
    requires BothOrNeither(Last(trace), Perform(trace, step), step.action.a, step.action.t)
    ensures Refined(Last(trace), Perform(trace, step).db, step.now)
  {
    hide BothOrNeither, Refined, TaskSuccessTx;
    var act := step.action;
    SuccessRefined(Last(trace), act.a, act.worker, At(trace, act.i).attempts[act.a].revision,
                   act.t, At(trace, act.j).tasks[act.t].revision, act.output, step.now);
  }

  /** Refinement over runs: in every interleaving, whatever moved a row into a state the domain has a transition
      for moved it by that transition, from a state the transition accepts, up to revision and ordinal. */
  lemma RunsRefine(trace: seq<Db>, steps: seq<Step>, k: nat)
    requires IsRun(trace, steps) && k < |steps|
    ensures Refined(trace[k], trace[k + 1], steps[k].now)
  {
    hide Inv, Evolves, Refined, Perform, Enabled;
    PrefixIsRun(trace, steps, k);
    RunsAreSound(trace[..k + 1], steps[..k]);
    StepRefined(trace[..k + 1], steps[k]);
  }
}
