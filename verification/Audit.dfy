/** The history log: folding it in commit order reproduces the state of every row. */
module Audit {
  import opened Wrappers
  import opened JsonCompat
  import opened Spec
  import opened Rows
  import opened Transactions
  import opened Invariant
  import opened Preservation
  import opened Settlement
  import opened WorkflowMoves
  import opened Protocol
  import opened Causality

  // ------------------------------------------------------------------------------ reading the log

  /** The state task t is in after entry e, if it was in state s before. */
  function TaskAfter(e: HistoryEntry, t: TaskId, s: TaskState): TaskState {
    if e.task != Some(t) then s
    else
      match e.event
      case TaskMarkedRunnable => TaskState.Runnable
      case TaskClaimedByWorker(_, _) => TaskState.Running
      case TaskExecutionSucceeded => TaskState.Succeeded
      case TaskExecutionRetrying(_, _) => TaskState.RetryWait
      case TaskExecutionFailed(_, _) => TaskState.Failed
      case TaskExecutionCancelled => TaskState.Cancelled
      case AttemptCancellationAcknowledged(_) => TaskState.Cancelled
      case AttemptCancellationDeadlineExpired(_) => TaskState.Cancelled
      case InternalAttemptFailureSettled(_, state) => if state.RetryWait? then TaskState.RetryWait else TaskState.Failed
      case _ => s
  }

  function AttemptAfter(e: HistoryEntry, a: AttemptId, s: Option<AttemptState>): Option<AttemptState> {
    if e.attempt != Some(a) then s
    else
      match e.event
      case TaskClaimedByWorker(_, _) => Some(AttemptState.Claimed)
      case AttemptExecutionStarted => Some(AttemptState.Running)
      case TaskExecutionSucceeded => Some(AttemptState.Succeeded)
      case TaskExecutionRetrying(_, _) => Some(AttemptState.Failed)
      case TaskExecutionFailed(_, _) => Some(AttemptState.Failed)
      case InternalAttemptFailureSettled(_, _) => Some(AttemptState.Failed)
      case AttemptCancellationAcknowledged(_) => Some(AttemptState.Cancelled)
      case AttemptCancellationDeadlineExpired(_) => Some(AttemptState.Cancelled)
      case _ => s
  }

  function WorkflowAfter(e: HistoryEntry, w: WorkflowId, s: Option<WorkflowState>): Option<WorkflowState> {
    if e.workflow != w then s
    else
      match e.event
      case WorkflowExecutionCreated(_) => Some(WorkflowState.Initializing)
      case WorkflowExecutionStarted => Some(WorkflowState.Running)
      case WorkflowExecutionFailing(_) => Some(WorkflowState.Failing)
      case WorkflowCancellationRequested => Some(WorkflowState.Cancelling)
      case WorkflowExecutionSucceeded => Some(WorkflowState.Succeeded)
      case WorkflowExecutionFailed => Some(WorkflowState.Failed)
      case WorkflowExecutionCancelled => Some(WorkflowState.Cancelled)
      case _ => s
  }

  /** A task without entries is PENDING: population logs only how many rows it established. */
  function ReplayTask(h: seq<HistoryEntry>, t: TaskId): TaskState {
    if h == [] then TaskState.Pending else TaskAfter(h[|h| - 1], t, ReplayTask(h[..|h| - 1], t))
  }

  function ReplayAttempt(h: seq<HistoryEntry>, a: AttemptId): Option<AttemptState> {
    if h == [] then None else AttemptAfter(h[|h| - 1], a, ReplayAttempt(h[..|h| - 1], a))
  }

  function ReplayWorkflow(h: seq<HistoryEntry>, w: WorkflowId): Option<WorkflowState> {
    if h == [] then None else WorkflowAfter(h[|h| - 1], w, ReplayWorkflow(h[..|h| - 1], w))
  }

  // ------------------------------------------------------------------------ what a step writes down

  function TaskStateOf(db: Db, t: TaskId): TaskState {
    if t in db.tasks then db.tasks[t].state else TaskState.Pending
  }

  function AttemptStateOf(db: Db, a: AttemptId): Option<AttemptState> {
    if a in db.attempts then Some(db.attempts[a].state) else None
  }

  ghost predicate SameStates(db: Db, db': Db) {
    && (forall t :: TaskStateOf(db', t) == TaskStateOf(db, t))
    && (forall a :: AttemptStateOf(db', a) == AttemptStateOf(db, a))
    && (forall w :: StateOf(db', w) == StateOf(db, w))
  }

  /** Entry e accounts for every change of state between db and db'. */
  ghost predicate Explains(db: Db, e: HistoryEntry, db': Db) {
    && (forall t :: TaskStateOf(db', t) == TaskAfter(e, t, TaskStateOf(db, t)))
    && (forall a :: AttemptStateOf(db', a) == AttemptAfter(e, a, AttemptStateOf(db, a)))
    && (forall w :: StateOf(db', w) == WorkflowAfter(e, w, StateOf(db, w)))
  }

  /** A step appends nothing and changes no state, or appends one entry that explains what it changed. */
  ghost predicate Logged(db: Db, db': Db) {
    || (db'.history == db.history && SameStates(db, db'))
    || (db'.history != [] && db'.history[..|db'.history| - 1] == db.history
        && Explains(db, db'.history[|db'.history| - 1], db'))
  }

  /** Startup recovery, phase 1: one INITIALIZING workflow becomes RUNNING and nothing is written down. */
  ghost predicate Unlogged(db: Db, db': Db, w: WorkflowId) {
    && db'.history == db.history && db'.tasks == db.tasks && db'.attempts == db.attempts
    && StateOf(db, w) == Some(WorkflowState.Initializing) && StateOf(db', w) == Some(WorkflowState.Running)
    && forall x | x != w :: StateOf(db', x) == StateOf(db, x)
  }

  lemma AppendLogged(db: Db, db': Db, e: HistoryEntry)
    requires db'.history == db.history + [e] && Explains(db, e, db')
    ensures Logged(db, db')
  {
    assert db'.history[..|db'.history| - 1] == db.history;
  }

  // ------------------------------------------------------------------- every transaction is logged

  lemma SuccessLogged(db: Db, a: AttemptId, worker: SessionId, ea: int, t: TaskId, et: int, output: PyValue, now: Time)
    requires BothOrNeither(db, TaskSuccessTx(db, a, worker, ea, t, et, output, now), a, t)
    ensures Logged(db, TaskSuccessTx(db, a, worker, ea, t, et, output, now).db)
  {
    var r := TaskSuccessTx(db, a, worker, ea, t, et, output, now);
    if r.db != db { AppendLogged(db, r.db, AttemptEntry(t, a, TaskExecutionSucceeded, now)); }
  }

  lemma RetryLogged(
    g: Db, db: Db, a: AttemptId, worker: SessionId, ea: int, t: TaskId, et: int, readyAt: Time, cause: FailureCause,
    now: Time)
    requires BothOrNeither(db, FailureWithRetryTx(g, db, a, worker, ea, t, et, readyAt, cause, now), a, t)
    ensures Logged(db, FailureWithRetryTx(g, db, a, worker, ea, t, et, readyAt, cause, now).db)
  {
    var r := FailureWithRetryTx(g, db, a, worker, ea, t, et, readyAt, cause, now);
    if r.db != db { AppendLogged(db, r.db, AttemptEntry(t, a, TaskExecutionRetrying(readyAt, cause.code), now)); }
  }

  lemma FailureLogged(
    db: Db, a: AttemptId, worker: SessionId, ea: int, t: TaskId, et: int, cause: FailureCause, now: Time)
    requires BothOrNeither(db, DefinitiveFailureTx(db, a, worker, ea, t, et, cause, now), a, t)
    ensures Logged(db, DefinitiveFailureTx(db, a, worker, ea, t, et, cause, now).db)
  {
    var r := DefinitiveFailureTx(db, a, worker, ea, t, et, cause, now);
    if r.db != db {
      AppendLogged(db, r.db, AttemptEntry(t, a, TaskExecutionFailed(cause.category, cause.code), now));
    }
  }

  lemma AckLogged(g1: Db, g2: Db, db: Db, a: AttemptId, worker: SessionId, ea: int, t: TaskId, et: int, now: Time)
    requires BothOrNeither(db, CancellationAckTx(g1, g2, db, a, worker, ea, t, et, now), a, t)
    ensures Logged(db, CancellationAckTx(g1, g2, db, a, worker, ea, t, et, now).db)
  {
    var r := CancellationAckTx(g1, g2, db, a, worker, ea, t, et, now);
    if r.db != db { AppendLogged(db, r.db, AttemptEntry(t, a, AttemptCancellationAcknowledged(worker), now)); }
  }

  lemma DeadlineLogged(g1: Db, g2: Db, db: Db, a: AttemptId, ea: int, t: TaskId, et: int, now: Time)
    requires BothOrNeither(db, CancellationDeadlineTx(g1, g2, db, a, ea, t, et, now), a, t)
    ensures Logged(db, CancellationDeadlineTx(g1, g2, db, a, ea, t, et, now).db)
  {
    var r := CancellationDeadlineTx(g1, g2, db, a, ea, t, et, now);
    if r.db != db { AppendLogged(db, r.db, AttemptEntry(t, a, AttemptCancellationDeadlineExpired(now), now)); }
  }

  lemma InternalLogged(
    g1: Db, g2: Db, db: Db, a: AttemptId, ea: int, t: TaskId, et: int, cause: FailureCause, retryable: bool,
    readyAt: Option<Time>, lost: Option<SessionId>, now: Time)
    requires BothOrNeither(db, InternalFailureTx(g1, g2, db, a, ea, t, et, cause, retryable, readyAt, lost, now), a, t)
    ensures Logged(db, InternalFailureTx(g1, g2, db, a, ea, t, et, cause, retryable, readyAt, lost, now).db)
  {
    var r := InternalFailureTx(g1, g2, db, a, ea, t, et, cause, retryable, readyAt, lost, now);
    if r.db != db {
      AppendLogged(db, r.db, AttemptEntry(t, a, InternalAttemptFailureSettled(cause.code, r.db.tasks[t].state), now));
    }
  }

  lemma ReadinessLogged(g: Db, db: Db, t: TaskId, expected: int, input: JsonObject, now: Time)
    ensures Logged(db, ReadinessTx(g, db, t, expected, input, now).db)
  {
    var r := ReadinessTx(g, db, t, expected, input, now);
    if r.db != db { AppendLogged(db, r.db, TaskEntry(t, TaskMarkedRunnable, now)); }
  }

  lemma RetryReadyLogged(g: Db, db: Db, t: TaskId, expected: int, now: Time)
    ensures Logged(db, RetryReadyTx(g, db, t, expected, now).db)
  {
    var r := RetryReadyTx(g, db, t, expected, now);
    if r.db != db { AppendLogged(db, r.db, TaskEntry(t, TaskMarkedRunnable, now)); }
  }

  lemma DrainCancelLogged(g1: Db, g2: Db, db: Db, t: TaskId, expected: int, now: Time)
    ensures Logged(db, DrainCancelTx(g1, g2, db, t, expected, now).db)
  {
    var r := DrainCancelTx(g1, g2, db, t, expected, now);
    if r.db != db { AppendLogged(db, r.db, TaskEntry(t, TaskExecutionCancelled, now)); }
  }

  lemma ClaimLogged(
    g1: Db, g2: Db, db: Db, t: TaskId, expected: int, worker: SessionId, a: AttemptId, deadline: Time, now: Time)
    ensures Logged(db, ClaimTx(g1, g2, db, t, expected, worker, a, deadline, now).db)
  {
    var r := ClaimTx(g1, g2, db, t, expected, worker, a, deadline, now);
    if r.db != db {
      AppendLogged(db, r.db, AttemptEntry(t, a, TaskClaimedByWorker(worker, db.tasks[t].nextOrdinal), now));
    }
  }

  lemma StartLogged(db: Db, a: AttemptId, worker: SessionId, expected: int, now: Time)
    ensures Logged(db, StartTx(db, a, worker, expected, now).db)
  {
    var r := StartTx(db, a, worker, expected, now);
    if r.db != db { AppendLogged(db, r.db, AttemptEntry(db.attempts[a].task, a, AttemptExecutionStarted, now)); }
  }

  lemma CreateLogged(db: Db, w: WorkflowId, d: DefinitionId, input: PyValue, now: Time)
    ensures Logged(db, CreateTx(db, w, d, input, now).db)
  {
    var r := CreateTx(db, w, d, input, now);
    if r.db != db { AppendLogged(db, r.db, WorkflowEntry(w, WorkflowExecutionCreated(d), now)); }
  }

  /** New rows are PENDING, the state the log gives a task without entries. */
  lemma PopulateLogged(g: Db, db: Db, w: WorkflowId, definitions: map<string, TaskDefinition>, now: Time)
    ensures Logged(db, PopulateTx(g, db, w, definitions, now).db)
  {
    var r := PopulateTx(g, db, w, definitions, now);
    if r.status == Committed {
      forall t ensures TaskStateOf(r.db, t) == TaskStateOf(db, t) {
        if t in r.db.tasks && t !in db.tasks { assert t in PendingRows(w, definitions); }
      }
      AppendLogged(db, r.db, WorkflowEntry(w, TaskPopulationEstablished(|definitions|), now));
    }
  }

  lemma FailingLogged(db: Db, w: WorkflowId, cause: FailureCause, now: Time)
    ensures Logged(db, FailureDirectionTx(db, w, cause, now).db)
  {
    var r := FailureDirectionTx(db, w, cause, now);
    if r.db != db { AppendLogged(db, r.db, WorkflowEntry(w, WorkflowExecutionFailing(cause.code), now)); }
  }

  lemma CancellingLogged(db: Db, w: WorkflowId, now: Time)
    ensures Logged(db, CancellationDirectionTx(db, w, now).db)
  {
    var r := CancellationDirectionTx(db, w, now);
    if r.db != db { AppendLogged(db, r.db, WorkflowEntry(w, WorkflowCancellationRequested, now)); }
  }

  lemma RepairUnlogged(db: Db, w: WorkflowId)
    requires w in db.workflows && WorkflowShape(db.workflows[w])
    requires db.workflows[w].state.Initializing? || db.workflows[w].state == WorkflowState.Running
    ensures var db' := RepairInitializingTx(db, w, 1).db; db' == db || Unlogged(db, db', w)
  {
    if db.workflows[w].state == WorkflowState.Running { RepairEvolves(db, w); }
  }

  lemma MembershipLogged(
    g1: Db, g2: Db, db: Db, w: WorkflowId, expected: int, from: WorkflowState, counted: set<TaskState>,
    to: WorkflowState, output: Option<PyValue>, event: Event, now: Time)
    requires forall s :: WorkflowAfter(WorkflowEntry(w, event, now), w, s) == Some(to)
    ensures Logged(db, MembershipTx(g1, g2, db, w, expected, from, counted, to, output, event, now).db)
  {
    var r := MembershipTx(g1, g2, db, w, expected, from, counted, to, output, event, now);
    if r.db != db { AppendLogged(db, r.db, WorkflowEntry(w, event, now)); }
  }

  // ------------------------------------------------------------------------------- steps and runs

  lemma SettlementStepLogged(trace: seq<Db>, step: Step)
    requires Sound(trace) && Enabled(trace, step.action) && Settles(step.action)
    ensures Logged(Last(trace), Perform(trace, step).db)
  {
    SettlementBothOrNeither(trace, step);
    var db, now := Last(trace), step.now;
    match step.action
    case TaskSuccess(a, worker, t, output, i, j) =>
      SuccessLogged(db, a, worker, At(trace, i).attempts[a].revision, t, At(trace, j).tasks[t].revision, output, now);
    case FailureWithRetry(a, worker, t, readyAt, cause, i, j, e, g) =>
      RetryLogged(At(trace, g), db, a, worker, At(trace, i).attempts[a].revision,
                  t, At(trace, j).tasks[t].revision, readyAt, cause, now);
    case DefinitiveFailure(a, worker, t, cause, i, j) =>
      FailureLogged(db, a, worker, At(trace, i).attempts[a].revision, t, At(trace, j).tasks[t].revision, cause, now);
    case CancellationAck(a, worker, t, i, j, g1, g2) =>
      AckLogged(At(trace, g1), At(trace, g2), db, a, worker, At(trace, i).attempts[a].revision,
                t, At(trace, j).tasks[t].revision, now);
    case CancellationDeadline(a, t, i, j, g1, g2) =>
      DeadlineLogged(At(trace, g1), At(trace, g2), db, a, At(trace, i).attempts[a].revision,
                     t, At(trace, j).tasks[t].revision, now);
    case InternalFailure(a, t, cause, retryable, readyAt, lost, i, j, g1, g2) =>
      InternalLogged(At(trace, g1), At(trace, g2), db, a, At(trace, i).attempts[a].revision,
                     t, At(trace, j).tasks[t].revision, cause, retryable, readyAt, lost, now);
  }

  lemma TaskStepLogged(trace: seq<Db>, step: Step)
    requires trace != [] && Enabled(trace, step.action) && MovesTask(step.action)
    ensures Logged(Last(trace), Perform(trace, step).db)
  {
    var db, now := Last(trace), step.now;
    match step.action
    case Readiness(t, input, i, g) => ReadinessLogged(At(trace, g), db, t, At(trace, i).tasks[t].revision, input, now);
    case RetryReady(t, i, g) => RetryReadyLogged(At(trace, g), db, t, At(trace, i).tasks[t].revision, now);
    case DrainCancel(t, i, g1, g2) =>
      DrainCancelLogged(At(trace, g1), At(trace, g2), db, t, At(trace, i).tasks[t].revision, now);
    case Claim(t, worker, a, deadline, i, g1, g2) =>
      ClaimLogged(At(trace, g1), At(trace, g2), db, t, At(trace, i).tasks[t].revision, worker, a, deadline, now);
    case Start(a, worker) => StartLogged(db, a, worker, 1, now);
    case SetCancelDeadline(a) =>
  }

  lemma WorkflowStepLogged(trace: seq<Db>, step: Step)
    requires trace != [] && Enabled(trace, step.action) && !MovesTask(step.action) && !Settles(step.action)
    requires !step.action.RepairInitializing?
    ensures Logged(Last(trace), Perform(trace, step).db)
  {
    var db, now := Last(trace), step.now;
    match step.action
    case Register(d, spec) =>
    case Create(w, d, input) => CreateLogged(db, w, d, input, now);
    case Populate(w, i, g) =>
      var seen := At(trace, i);
      PopulateLogged(At(trace, g), db, w, seen.definitions[seen.workflows[w].definition].tasks, now);
    case FailureDirection(w, t, cause, i) => FailingLogged(db, w, cause, now);
    case CancellationDirection(w) => CancellingLogged(db, w, now);
    case CompleteInitialization(w, g1, g2) =>
      MembershipLogged(At(trace, g1), At(trace, g2), db, w, 1, WorkflowState.Initializing, AnyTaskState,
                       WorkflowState.Running, None, WorkflowExecutionStarted, now);
    case WorkflowSuccess(w, output, i, g1, g2) =>
      MembershipLogged(At(trace, g1), At(trace, g2), db, w, At(trace, i).workflows[w].revision,
                       WorkflowState.Running, {TaskState.Succeeded}, WorkflowState.Succeeded, Some(output),
                       WorkflowExecutionSucceeded, now);
    case WorkflowFailure(w, i, g1, g2) =>
      MembershipLogged(At(trace, g1), At(trace, g2), db, w, At(trace, i).workflows[w].revision,
                       WorkflowState.Failing, TerminalTaskStates, WorkflowState.Failed, None,
                       WorkflowExecutionFailed, now);
    case WorkflowCancellation(w, i, g1, g2) =>
      MembershipLogged(At(trace, g1), At(trace, g2), db, w, At(trace, i).workflows[w].revision,
                       WorkflowState.Cancelling, TerminalTaskStates, WorkflowState.Cancelled, None,
                       WorkflowExecutionCancelled, now);
  }

  /** Every step writes down exactly what it changes, except a phase-1 repair, which writes nothing. */
  lemma StepLogged(trace: seq<Db>, step: Step)
    requires Sound(trace) && Enabled(trace, step.action)
    ensures if step.action.RepairInitializing? then
              Perform(trace, step).db == Last(trace) || Unlogged(Last(trace), Perform(trace, step).db, step.action.w)
            else Logged(Last(trace), Perform(trace, step).db)
  {
    if Settles(step.action) {
      SettlementStepLogged(trace, step);
    } else if MovesTask(step.action) {
      TaskStepLogged(trace, step);
    } else if step.action.RepairInitializing? {
      RepairStepUnlogged(trace, step);
    } else {
      WorkflowStepLogged(trace, step);
    }
  }

  lemma RepairStepUnlogged(trace: seq<Db>, step: Step)
    requires Sound(trace) && Enabled(trace, step.action) && step.action.RepairInitializing?
    ensures Perform(trace, step).db == Last(trace) || Unlogged(Last(trace), Perform(trace, step).db, step.action.w)
  {
    hide Inv, Evolves, RepairInitializingTx, WorkflowShape;
    RepairReads(trace, step.action.w, step.action.i);
    RepairUnlogged(Last(trace), step.action.w);
  }

  /** The log reproduces every task and attempt state; a workflow state too, unless a phase-1 repair made it
      RUNNING, which the log then still shows as INITIALIZING. */
  ghost predicate Replayed(db: Db, repaired: bool) {
    && (forall t :: ReplayTask(db.history, t) == TaskStateOf(db, t))
    && (forall a :: ReplayAttempt(db.history, a) == AttemptStateOf(db, a))
    && (forall w :: ReplayWorkflow(db.history, w) == StateOf(db, w)
                    || (repaired && ReplayWorkflow(db.history, w) == Some(WorkflowState.Initializing)
                        && StateOf(db, w) == Some(WorkflowState.Running)))
  }

  ghost predicate AnyRepair(steps: seq<Step>) {
    exists k | 0 <= k < |steps| :: steps[k].action.RepairInitializing?
  }

  lemma ReplayedNext(db: Db, db': Db, repaired: bool)
    requires Replayed(db, repaired) && Logged(db, db')
    ensures Replayed(db', repaired)
  {
    if db'.history != db.history || !SameStates(db, db') {
      var n := |db'.history| - 1;
      forall t ensures ReplayTask(db'.history, t) == TaskStateOf(db', t) {
        assert ReplayTask(db'.history[..n], t) == TaskStateOf(db, t);
      }
      forall a ensures ReplayAttempt(db'.history, a) == AttemptStateOf(db', a) {
        assert ReplayAttempt(db'.history[..n], a) == AttemptStateOf(db, a);
      }
      forall w
        ensures ReplayWorkflow(db'.history, w) == WorkflowAfter(db'.history[n], w, ReplayWorkflow(db.history, w))
      {
      }
    }
  }

  /** Audit replay: in every run, folding the history in commit order gives back the current state of every
      task and attempt, and of every workflow if the run holds no phase-1 repair. */
  lemma {:induction false} HistoryReplays(trace: seq<Db>, steps: seq<Step>)
    requires IsRun(trace, steps)
    ensures Replayed(Last(trace), AnyRepair(steps))
    decreases |steps|
  {
    hide Inv, Evolves, Perform, Enabled;
    if steps == [] {
    } else {
      var n := |steps| - 1;
      PrefixIsRun(trace, steps, n);
      HistoryReplays(trace[..n + 1], steps[..n]);
      RunsAreSound(trace[..n + 1], steps[..n]);
      StepLogged(trace[..n + 1], steps[n]);
      ReplayStep(trace[n], trace[n + 1], steps, n);
    }
  }

  lemma ReplayStep(db: Db, db': Db, steps: seq<Step>, n: nat)
    requires n + 1 == |steps| && Replayed(db, AnyRepair(steps[..n]))
    requires
      var action := steps[n].action;
      if action.RepairInitializing? then db' == db || Unlogged(db, db', action.w) else Logged(db, db')
    ensures Replayed(db', AnyRepair(steps))
  {
    if AnyRepair(steps[..n]) {
      var k :| 0 <= k < n && steps[..n][k].action.RepairInitializing?;
      assert steps[k].action.RepairInitializing?;
    }
    assert Replayed(db, AnyRepair(steps));
    if steps[n].action.RepairInitializing? {
      assert AnyRepair(steps);
    } else {
      ReplayedNext(db, db', AnyRepair(steps));
    }
  }
}
