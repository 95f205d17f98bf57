/**
  What each action does when it does anything, spelled out in rows and columns: who may act, on rows in which state,
  what every column becomes, and what is written down. It holds of every step of every run, however stale the reads
  the caller and its guards acted on, and mentions neither them nor the transaction.
  */
module Effects {
  import opened Wrappers
  import opened JsonCompat
  import opened Spec
  import opened Rows
  import opened Transactions
  import opened Invariant
  import opened Preservation
  import opened Settlement
  import opened WorkflowMoves
  import opened Protocol

  // --------------------------------------------------------------------------------- what is touched

  /** Only the row of workflow w differs, and one entry was written down. */
  ghost predicate WorkflowOnly(db: Db, db': Db, w: WorkflowId, event: Event, now: Time) {
    && w in db.workflows && w in db'.workflows
    && db' == db.(workflows := db.workflows[w := db'.workflows[w]],
                  history := db.history + [HistoryEntry(w, None, None, event, now)])
  }

  ghost predicate TaskOnly(db: Db, db': Db, t: TaskId, event: Event, now: Time) {
    && t in db.tasks && t in db'.tasks
    && db' == db.(tasks := db.tasks[t := db'.tasks[t]],
                  history := db.history + [HistoryEntry(t.workflow, Some(t), None, event, now)])
  }

  /** Only attempt a and its task t differ; a is new or was t's before. */
  ghost predicate PairOnly(db: Db, db': Db, a: AttemptId, t: TaskId, event: Event, now: Time) {
    && t in db.tasks && t in db'.tasks && a in db'.attempts && db'.attempts[a].task == t
    && db' == db.(tasks := db.tasks[t := db'.tasks[t]], attempts := db.attempts[a := db'.attempts[a]],
                  history := db.history + [HistoryEntry(t.workflow, Some(t), Some(a), event, now)])
  }

  /** The attempt was active and ends in the given state, for the cause if there is one; its task was RUNNING. */
  ghost predicate Ends(
    db: Db, db': Db, a: AttemptId, t: TaskId, state: AttemptState, cause: Option<FailureCause>, event: Event, now: Time)
  {
    && PairOnly(db, db', a, t, event, now)
    && a in db.attempts && (db.attempts[a].state.Claimed? || db.attempts[a].state.Running?)
    && db'.attempts[a] == db.attempts[a].(
         state := state, revision := db.attempts[a].revision + 1,
         failure := if cause.Some? then cause else db.attempts[a].failure)
    && db.tasks[t].state == TaskState.Running
  }

  /** The workflow of t is draining, or has been drained. */
  predicate DrainingOrDrained(db: Db, t: TaskId) {
    && t.workflow in db.workflows
    && var s := db.workflows[t.workflow].state; s.Failing? || s.Cancelling? || s.Failed? || s.Cancelled?
  }

  // ---------------------------------------------------------------------------------- what each did

  // In what follows read is the state of the workflow as the guard of the action read it, if it reads it apart.

  ghost predicate WorkflowEffect(db: Db, action: Action, read: Option<WorkflowState>, now: Time, db': Db) {
    match action
    case Register(d, spec) =>
      && d !in db.definitions && db' == db.(definitions := db.definitions[d := spec])
      && exists i :: 0 <= i < |spec.name| && spec.name[i] != ' '
    case Create(w, d, input) =>
      && w !in db.workflows && d in db.definitions && w in db'.workflows
      && db' == db.(workflows := db.workflows[w := db'.workflows[w]],
                    history := db.history + [HistoryEntry(w, None, None, WorkflowExecutionCreated(d), now)])
      && var row := db'.workflows[w];
      && row.definition == d && row.state.Initializing? && row.revision == 1 && row.input == input
      && row.output.None? && row.failure.None?
    case Populate(w, i, g) =>
      && read == Some(WorkflowState.Initializing)
      && w in db.workflows && db.workflows[w].definition in db.definitions
      && var declared := db.definitions[db.workflows[w].definition].tasks;
      && db' == db.(tasks := db'.tasks,
                    history := db.history +
                      [HistoryEntry(w, None, None, TaskPopulationEstablished(|declared|), now)])
      && (forall t :: t in db'.tasks <==> t in db.tasks || (t.workflow == w && t.definition in declared))
      && (forall t | t in db'.tasks ::
            if t in db.tasks then db'.tasks[t] == db.tasks[t]
            else
              var row := db'.tasks[t];
              && row.state.Pending? && row.revision == 1 && row.input.None? && row.output.None?
              && row.maxAttempts == declared[t.definition].maxAttempts && row.nextOrdinal == 1
              && row.retryReadyAt.None? && row.failure.None?)
    case CompleteInitialization(w, g1, g2) =>
      && WorkflowOnly(db, db', w, WorkflowExecutionStarted, now) && db.workflows[w].state.Initializing?
      && db'.workflows[w] == db.workflows[w].(
           state := WorkflowState.Running, revision := db.workflows[w].revision + 1)
    case RepairInitializing(w, i) =>
      && w in db.workflows && w in db'.workflows && db' == db.(workflows := db.workflows[w := db'.workflows[w]])
      && db.workflows[w].state.Initializing?
      && db'.workflows[w] == db.workflows[w].(
           state := WorkflowState.Running, revision := db.workflows[w].revision + 1)
    case FailureDirection(w, t, cause, i) =>
      && WorkflowOnly(db, db', w, WorkflowExecutionFailing(cause.code), now)
      && db.workflows[w].state == WorkflowState.Running
      && db'.workflows[w] == db.workflows[w].(
           state := WorkflowState.Failing, revision := db.workflows[w].revision + 1, failure := Some(cause))
    case CancellationDirection(w) =>
      && WorkflowOnly(db, db', w, WorkflowCancellationRequested, now)
      && (db.workflows[w].state.Initializing? || db.workflows[w].state == WorkflowState.Running)
      && db'.workflows[w] == db.workflows[w].(
           state := WorkflowState.Cancelling, revision := db.workflows[w].revision + 1)
    case WorkflowSuccess(w, output, i, g1, g2) =>
      && WorkflowOnly(db, db', w, WorkflowExecutionSucceeded, now)
      && db.workflows[w].state == WorkflowState.Running
      && db'.workflows[w] == db.workflows[w].(
           state := WorkflowState.Succeeded, revision := db.workflows[w].revision + 1, output := Some(output))
    case WorkflowFailure(w, i, g1, g2) =>
      && WorkflowOnly(db, db', w, WorkflowExecutionFailed, now) && db.workflows[w].state.Failing?
      && db'.workflows[w] == db.workflows[w].(
           state := WorkflowState.Failed, revision := db.workflows[w].revision + 1)
    case WorkflowCancellation(w, i, g1, g2) =>
      && WorkflowOnly(db, db', w, WorkflowExecutionCancelled, now) && db.workflows[w].state.Cancelling?
      && db'.workflows[w] == db.workflows[w].(
           state := WorkflowState.Cancelled, revision := db.workflows[w].revision + 1)
    case _ => false
  }

  ghost predicate TaskEffect(db: Db, action: Action, read: Option<WorkflowState>, now: Time, db': Db) {
    match action
    case Readiness(t, input, i, g) =>
      && read == Some(WorkflowState.Running)
      && TaskOnly(db, db', t, TaskMarkedRunnable, now) && db.tasks[t].state.Pending?
      && db'.tasks[t] == db.tasks[t].(
           state := TaskState.Runnable, revision := db.tasks[t].revision + 1, input := Some(input))
    case RetryReady(t, i, g) =>
      && read == Some(WorkflowState.Running)
      && TaskOnly(db, db', t, TaskMarkedRunnable, now) && db.tasks[t].state.RetryWait?
      && db.tasks[t].retryReadyAt.Some? && db.tasks[t].retryReadyAt.value <= now
      && db'.tasks[t] == db.tasks[t].(
           state := TaskState.Runnable, revision := db.tasks[t].revision + 1, retryReadyAt := None)
    case DrainCancel(t, i, g1, g2) =>
      && TaskOnly(db, db', t, TaskExecutionCancelled, now) && DrainingOrDrained(db, t)
      && (db.tasks[t].state.Pending? || db.tasks[t].state.Runnable? || db.tasks[t].state.RetryWait?)
      && db'.tasks[t] == db.tasks[t].(
           state := TaskState.Cancelled, revision := db.tasks[t].revision + 1, retryReadyAt := None)
    case Claim(t, worker, a, startDeadline, i, g1, g2) =>
      && read == Some(WorkflowState.Running)
      && t in db.tasks && PairOnly(db, db', a, t, TaskClaimedByWorker(worker, db.tasks[t].nextOrdinal), now)
      && a !in db.attempts && db.tasks[t].state.Runnable?
      && db'.tasks[t] == db.tasks[t].(
           state := TaskState.Running, revision := db.tasks[t].revision + 1, nextOrdinal := db.tasks[t].nextOrdinal + 1)
      && var row := db'.attempts[a];
      && row.ordinal == db.tasks[t].nextOrdinal && row.worker == worker && row.startDeadline == startDeadline
      && row.state.Claimed? && row.revision == 1
      && row.executionTimeout.None? && row.cancellationDeadline.None? && row.failure.None?
    case Start(a, worker) =>
      && a in db.attempts && a in db'.attempts
      && db' == db.(attempts := db.attempts[a := db'.attempts[a]],
                    history := db.history + [HistoryEntry(
                      db.attempts[a].task.workflow, Some(db.attempts[a].task), Some(a), AttemptExecutionStarted, now)])
      && db.attempts[a].worker == worker && db.attempts[a].state.Claimed? && now <= db.attempts[a].startDeadline
      && db'.attempts[a] == db.attempts[a].(state := AttemptState.Running, revision := db.attempts[a].revision + 1)
    case SetCancelDeadline(a) =>
      && a in db.attempts
      && db' == db.(attempts := db.attempts[a := db.attempts[a].(cancellationDeadline := Some(now + 10))])
    case _ => false
  }

  /** The cause an internal failure names is one the attempt gives. */
  predicate Justifies(row: AttemptRow, code: string, lost: Option<SessionId>, now: Time) {
    || (code == "START_DEADLINE_EXPIRED" && row.state.Claimed? && row.startDeadline <= now)
    || (code == "EXECUTION_TIMEOUT" && row.state == AttemptState.Running
        && row.executionTimeout.Some? && row.executionTimeout.value <= now)
    || (code == "WORKER_LOSS" && (lost == Some(row.worker) || lost.None?))
  }

  ghost predicate SettlementEffect(
    db: Db, action: Action, read: Option<WorkflowState>, now: Time, db': Db)
  {
    match action
    case TaskSuccess(a, worker, t, output, i, j) =>
      && Ends(db, db', a, t, AttemptState.Succeeded, None, TaskExecutionSucceeded, now)
      && db.attempts[a].worker == worker && db.attempts[a].state == AttemptState.Running
      && db'.tasks[t] == db.tasks[t].(
           state := TaskState.Succeeded, revision := db.tasks[t].revision + 1, output := Some(output))
    case FailureWithRetry(a, worker, t, readyAt, cause, i, j, e, g) =>
      && Ends(db, db', a, t, AttemptState.Failed, Some(cause), TaskExecutionRetrying(readyAt, cause.code), now)
      && read == Some(WorkflowState.Running)
      && db.attempts[a].worker == worker && db.tasks[t].nextOrdinal <= db.tasks[t].maxAttempts
      && db'.tasks[t] == db.tasks[t].(
           state := TaskState.RetryWait, revision := db.tasks[t].revision + 1, retryReadyAt := Some(readyAt))
    case DefinitiveFailure(a, worker, t, cause, i, j) =>
      && Ends(db, db', a, t, AttemptState.Failed, Some(cause), TaskExecutionFailed(cause.category, cause.code), now)
      && db.attempts[a].worker == worker
      && db'.tasks[t] == db.tasks[t].(
           state := TaskState.Failed, revision := db.tasks[t].revision + 1, failure := Some(cause))
    case CancellationAck(a, worker, t, i, j, g1, g2) =>
      && Ends(db, db', a, t, AttemptState.Cancelled, None, AttemptCancellationAcknowledged(worker), now)
      && db.attempts[a].worker == worker && DrainingOrDrained(db, t)
      && db'.tasks[t] == db.tasks[t].(state := TaskState.Cancelled, revision := db.tasks[t].revision + 1)
    case CancellationDeadline(a, t, i, j, g1, g2) =>
      && Ends(db, db', a, t, AttemptState.Cancelled, None, AttemptCancellationDeadlineExpired(now), now)
      && db.attempts[a].cancellationDeadline.Some? && db.attempts[a].cancellationDeadline.value <= now
      && DrainingOrDrained(db, t)
      && db'.tasks[t] == db.tasks[t].(state := TaskState.Cancelled, revision := db.tasks[t].revision + 1)
    case InternalFailure(a, t, cause, retryable, readyAt, lost, i, j, g1, g2) =>
      && t in db'.tasks
      && Ends(db, db', a, t, AttemptState.Failed, Some(cause),
              InternalAttemptFailureSettled(cause.code, db'.tasks[t].state), now)
      && Justifies(db.attempts[a], cause.code, lost, now)
      && db'.tasks[t] ==
         if retryable && readyAt.Some? && read == Some(WorkflowState.Running)
            && db.tasks[t].nextOrdinal <= db.tasks[t].maxAttempts
         then db.tasks[t].(
           state := TaskState.RetryWait, revision := db.tasks[t].revision + 1, retryReadyAt := readyAt)
         else db.tasks[t].(state := TaskState.Failed, revision := db.tasks[t].revision + 1, failure := Some(cause))
    case _ => false
  }

  /** What the guard of an action read of its workflow's state, at the index the action names for it. */
  function GuardRead(trace: seq<Db>, action: Action): Option<WorkflowState>
    requires trace != []
  {
    match action
    case Populate(w, i, g) => StateOf(At(trace, g), w)
    case Readiness(t, input, i, g) => StateOf(At(trace, g), t.workflow)
    case RetryReady(t, i, g) => StateOf(At(trace, g), t.workflow)
    case Claim(t, worker, a, startDeadline, i, g1, g2) => StateOf(At(trace, g1), t.workflow)
    case FailureWithRetry(a, worker, t, readyAt, cause, i, j, e, g) => StateOf(At(trace, g), t.workflow)
    case InternalFailure(a, t, cause, retryable, readyAt, lost, i, j, g1, g2) => StateOf(At(trace, g2), t.workflow)
    case _ => None
  }

  ghost predicate Effect(trace: seq<Db>, step: Step, db': Db)
    requires trace != []
  {
    || WorkflowEffect(Last(trace), step.action, GuardRead(trace, step.action), step.now, db')
    || TaskEffect(Last(trace), step.action, GuardRead(trace, step.action), step.now, db')
    || SettlementEffect(Last(trace), step.action, GuardRead(trace, step.action), step.now, db')
  }

  // ------------------------------------------------------------------------------- workflow actions

  lemma PopulateEffect(g: Db, db: Db, w: WorkflowId, i: nat, j: nat, now: Time)
    requires w in db.workflows && db.workflows[w].definition in db.definitions
    requires var tasks := db.definitions[db.workflows[w].definition].tasks;
      PopulateTx(g, db, w, tasks, now).status == Committed
    ensures var tasks := db.definitions[db.workflows[w].definition].tasks;
      WorkflowEffect(db, Populate(w, i, j), StateOf(g, w), now, PopulateTx(g, db, w, tasks, now).db)
  {
    var tasks := db.definitions[db.workflows[w].definition].tasks;
    var db' := PopulateTx(g, db, w, tasks, now).db;
    forall t: TaskId | t.workflow == w && t.definition in tasks ensures t in PendingRows(w, tasks) {
      assert t == TaskId(w, t.definition);
    }
  }

  lemma PopulateStepEffect(trace: seq<Db>, step: Step)
    requires Sound(trace) && Enabled(trace, step.action) && step.action.Populate?
    requires Perform(trace, step).db != Last(trace)
    ensures WorkflowEffect(Last(trace), step.action, GuardRead(trace, step.action), step.now, Perform(trace, step).db)
  {
    hide Inv, PopulateTx;
    var Populate(w, i, g) := step.action;
    ReadEarlier(trace, i);
    PopulateChanges(At(trace, g), Last(trace), w, At(trace, i).definitions[At(trace, i).workflows[w].definition].tasks,
                    step.now);
    PopulateEffect(At(trace, g), Last(trace), w, i, g, step.now);
  }

  lemma PopulateChanges(g: Db, db: Db, w: WorkflowId, tasks: map<string, TaskDefinition>, now: Time)
    ensures PopulateTx(g, db, w, tasks, now).db != db ==> PopulateTx(g, db, w, tasks, now).status == Committed
  {
  }

  lemma DirectionStepEffect(trace: seq<Db>, step: Step)
    requires Sound(trace) && Enabled(trace, step.action) && Perform(trace, step).db != Last(trace)
    requires step.action.Register? || step.action.Create? || step.action.FailureDirection?
             || step.action.CancellationDirection?
    ensures WorkflowEffect(Last(trace), step.action, GuardRead(trace, step.action), step.now, Perform(trace, step).db)
  {
    hide Inv, Evolves;
  }

  lemma RepairStepEffect(trace: seq<Db>, step: Step)
    requires Sound(trace) && Enabled(trace, step.action) && step.action.RepairInitializing?
    requires Perform(trace, step).db != Last(trace)
    ensures WorkflowEffect(Last(trace), step.action, GuardRead(trace, step.action), step.now, Perform(trace, step).db)
  {
    hide Inv, Evolves;
    RepairReads(trace, step.action.w, step.action.i);
  }

  lemma MembershipStepEffect(trace: seq<Db>, step: Step)
    requires Sound(trace) && Enabled(trace, step.action) && ComparesMembership(step.action)
    requires Perform(trace, step).db != Last(trace)
    ensures WorkflowEffect(Last(trace), step.action, GuardRead(trace, step.action), step.now, Perform(trace, step).db)
  {
    hide Inv, Evolves, MembershipGuard;
  }

  // ----------------------------------------------------------------------------------- task actions

  lemma TaskStepEffect(trace: seq<Db>, step: Step)
    requires Sound(trace) && Enabled(trace, step.action) && Perform(trace, step).db != Last(trace)
    requires step.action.Readiness? || step.action.RetryReady? || step.action.Claim?
    ensures TaskEffect(Last(trace), step.action, GuardRead(trace, step.action), step.now, Perform(trace, step).db)
  {
    hide Inv, Evolves, InsertViolates, HasActiveAttempt;
  }

  lemma DrainStepEffect(trace: seq<Db>, step: Step)
    requires Sound(trace) && Enabled(trace, step.action) && Perform(trace, step).db != Last(trace)
    requires step.action.DrainCancel?
    ensures TaskEffect(Last(trace), step.action, GuardRead(trace, step.action), step.now, Perform(trace, step).db)
  {
    hide Inv, Evolves;
    ReadEarlier(trace, step.action.g2);
    DrainingSince(At(trace, step.action.g2), Last(trace), step.action.t);
  }

  lemma DrainingSince(g: Db, db: Db, t: TaskId)
    requires Evolves(g, db)
    ensures WorkflowMatches(g, t.workflow, {WorkflowState.Failing, WorkflowState.Cancelling}) ==>
              DrainingOrDrained(db, t)
  {
  }

  lemma AttemptStepEffect(trace: seq<Db>, step: Step)
    requires Sound(trace) && Enabled(trace, step.action) && Perform(trace, step).db != Last(trace)
    requires step.action.Start? || step.action.SetCancelDeadline?
    ensures TaskEffect(Last(trace), step.action, GuardRead(trace, step.action), step.now, Perform(trace, step).db)
  {
    hide Inv, Evolves;
  }

  // ----------------------------------------------------------------------------------- settlements

  lemma WorkerSettlementEffect(trace: seq<Db>, step: Step)
    requires Sound(trace) && Enabled(trace, step.action) && Perform(trace, step).db != Last(trace)
    requires step.action.TaskSuccess? || step.action.FailureWithRetry? || step.action.DefinitiveFailure?
    ensures SettlementEffect(Last(trace), step.action, GuardRead(trace, step.action), step.now, Perform(trace, step).db)
  {
    hide Inv, Evolves, PyEqual, TaskShape, AttemptShape, LatestAttempt;
    SettlementBothOrNeither(trace, step);
  }

  lemma CancellationEffect(trace: seq<Db>, step: Step)
    requires Sound(trace) && Enabled(trace, step.action) && Perform(trace, step).db != Last(trace)
    requires step.action.CancellationAck? || step.action.CancellationDeadline?
    ensures SettlementEffect(Last(trace), step.action, GuardRead(trace, step.action), step.now, Perform(trace, step).db)
  {
    hide Inv, Evolves, TaskShape, AttemptShape, LatestAttempt;
    ReadEarlier(trace, step.action.g2);
    DrainingSince(At(trace, step.action.g2), Last(trace), step.action.t);
    SettlementBothOrNeither(trace, step);
  }

  lemma InternalFailureEffect(trace: seq<Db>, step: Step)
    requires Sound(trace) && Enabled(trace, step.action) && Perform(trace, step).db != Last(trace)
    requires step.action.InternalFailure?
    ensures SettlementEffect(Last(trace), step.action, GuardRead(trace, step.action), step.now,
                             Perform(trace, step).db)
  {
    hide Inv, Evolves, TaskShape, AttemptShape, LatestAttempt;
    SettlementBothOrNeither(trace, step);
  }

  // -------------------------------------------------------------------------------------- all steps

  /** Every change is as named: in every run each step changes nothing, or does what its action says. */
  lemma StepsDoAsNamed(trace: seq<Db>, steps: seq<Step>, k: nat)
    requires IsRun(trace, steps) && k < |steps|
    ensures trace[k + 1] == trace[k] || Effect(trace[..k + 1], steps[k], trace[k + 1])
  {
    hide Enabled, Perform, Inv, Evolves, WorkflowEffect, TaskEffect, SettlementEffect;
    PrefixIsRun(trace, steps, k);
    RunsAreSound(trace[..k + 1], steps[..k]);
    assert Last(trace[..k + 1]) == trace[k];
    if trace[k + 1] != trace[k] { StepDoesAsNamed(trace[..k + 1], steps[k]); }
  }

  predicate OfWorker(action: Action) {
    action.Start? || action.TaskSuccess? || action.FailureWithRetry? || action.DefinitiveFailure?
    || action.CancellationAck?
  }

  /** Ownership: in every run, what a worker asks for changes something only if the attempt it names was given to it,
      and is still active. */
  lemma OnlyOwnersAct(trace: seq<Db>, steps: seq<Step>, k: nat)
    requires IsRun(trace, steps) && k < |steps| && OfWorker(steps[k].action) && trace[k + 1] != trace[k]
    ensures steps[k].action.a in trace[k].attempts
    ensures var row := trace[k].attempts[steps[k].action.a];
      row.worker == steps[k].action.worker && (row.state.Claimed? || row.state == AttemptState.Running)
  {
    hide Enabled, Perform, Inv, Evolves, WorkflowOnly, PairOnly;
    StepsDoAsNamed(trace, steps, k);
    LastOfPrefix(trace, k);
  }

  lemma LastOfPrefix(trace: seq<Db>, k: nat)
    requires k < |trace|
    ensures Last(trace[..k + 1]) == trace[k]
  {
  }

  lemma StepDoesAsNamed(trace: seq<Db>, step: Step)
    requires Sound(trace) && Enabled(trace, step.action) && Perform(trace, step).db != Last(trace)
    ensures Effect(trace, step, Perform(trace, step).db)
  {
    hide Enabled, Perform, Sound, WorkflowEffect, TaskEffect, SettlementEffect;
    if step.action.Populate? {
      PopulateStepEffect(trace, step);
    } else if step.action.RepairInitializing? {
      RepairStepEffect(trace, step);
    } else if ComparesMembership(step.action) {
      MembershipStepEffect(trace, step);
    } else if step.action.Readiness? || step.action.RetryReady? || step.action.Claim? {
      TaskStepEffect(trace, step);
    } else if step.action.DrainCancel? {
      DrainStepEffect(trace, step);
    } else if step.action.Start? || step.action.SetCancelDeadline? {
      AttemptStepEffect(trace, step);
    } else if step.action.TaskSuccess? || step.action.FailureWithRetry? || step.action.DefinitiveFailure? {
      WorkerSettlementEffect(trace, step);
    } else if step.action.CancellationAck? || step.action.CancellationDeadline? {
      CancellationEffect(trace, step);
    } else if step.action.InternalFailure? {
      InternalFailureEffect(trace, step);
    } else {
      DirectionStepEffect(trace, step);
    }
  }
}
