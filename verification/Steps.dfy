/** The log of a run, and each transaction as the step it is. */
module Steps {
  import opened Wrappers
  import opened JsonCompat
  import opened Spec
  import opened Rows
  import opened Failure
  import opened Transactions
  import opened Invariant
  import opened Preservation
  import opened Settlement
  import opened Protocol

  /** The databases a run has gone through and the steps that led from each to the next. */
  datatype Log = Log(trace: seq<Db>, steps: seq<Step>)

  /** The run recorded in l has been continued to the one recorded in l', by enabled steps. */
  ghost predicate Leads(l: Log, l': Log) {
    IsRun(l'.trace, l'.steps) && l.trace <= l'.trace && l.steps <= l'.steps && |l.trace| == |l.steps| + 1
  }

  /** The database was read at index i of the run. */
  ghost predicate ReadAt(l: Log, i: nat, db: Db) {
    i < |l.trace| && l.trace[i] == db
  }

  lemma LeadsTransitive(a: Log, b: Log, c: Log)
    requires Leads(a, b) && Leads(b, c)
    ensures Leads(a, c)
  {
  }

  lemma ReadLater(l: Log, l': Log, i: nat, db: Db)
    requires Leads(l, l') && ReadAt(l, i, db)
    ensures ReadAt(l', i, db)
  {
  }

  lemma RunLength(trace: seq<Db>, steps: seq<Step>)
    requires IsRun(trace, steps)
    ensures |trace| == |steps| + 1
  {
  }

  /** One more enabled step. */
  lemma RunGrows(trace: seq<Db>, steps: seq<Step>, step: Step)
    requires trace != [] && IsRun(trace, steps) && Enabled(trace, step.action)
    ensures IsRun(trace + [Perform(trace, step).db], steps + [step]) && |trace| == |steps| + 1
    ensures Advances(Last(trace), Perform(trace, step).db)
  {
    hide Enabled, Perform, Inv, Evolves;
    var trace', steps' := trace + [Perform(trace, step).db], steps + [step];
    forall k | 0 <= k < |steps'|
      ensures Enabled(trace'[..k + 1], steps'[k].action) && trace'[k + 1] == Perform(trace'[..k + 1], steps'[k]).db
    {
      if k < |steps| {
        assert trace'[..k + 1] == trace[..k + 1];
      } else {
        assert trace'[..k + 1] == trace;
      }
    }
    RunsAreSound(trace, steps);
    StepAdvances(trace, step);
  }

  // ----------------------------------------------------------------------- the step of each transaction

  lemma RegisterIs(trace: seq<Db>, d: DefinitionId, spec: ValidatedWorkflowSpec, now: Time)
    requires trace != [] && ValidSpec(spec)
    ensures var act := Register(d, spec);
      Enabled(trace, act) && Perform(trace, Step(act, now)) == RegisterTx(Last(trace), d, spec)
  {
  }

  lemma CreateIs(trace: seq<Db>, w: WorkflowId, d: DefinitionId, input: PyValue, now: Time)
    requires trace != []
    ensures var act := Create(w, d, input);
      Enabled(trace, act) && Perform(trace, Step(act, now)) == CreateTx(Last(trace), w, d, input, now)
  {
  }

  /** The task definitions of workflow w as read in db. */
  ghost predicate TasksRead(db: Db, w: WorkflowId, tasks: map<string, TaskDefinition>) {
    && w in db.workflows && db.workflows[w].definition in db.definitions
    && db.definitions[db.workflows[w].definition].tasks == tasks
  }

  lemma PopulateIs(trace: seq<Db>, w: WorkflowId, tasks: map<string, TaskDefinition>, i: nat, g: nat, now: Time)
    requires i < |trace| && g < |trace| && TasksRead(trace[i], w, tasks)
    ensures var act := Populate(w, i, g);
      Enabled(trace, act) && Perform(trace, Step(act, now)) == PopulateTx(trace[g], Last(trace), w, tasks, now)
  {
  }

  lemma CompleteIs(trace: seq<Db>, w: WorkflowId, g1: nat, g2: nat, now: Time)
    requires g1 < |trace| && g2 < |trace|
    ensures var act := CompleteInitialization(w, g1, g2);
      && Enabled(trace, act)
      && Perform(trace, Step(act, now)) == InitializationCompleteTx(trace[g1], trace[g2], Last(trace), w, 1, now)
  {
  }

  ghost predicate RepairRead(db: Db, w: WorkflowId, seen: int) {
    && w in db.workflows && db.workflows[w].state.Initializing? && db.workflows[w].revision == seen
    && TaskNames(db, w, AnyTaskState) != {}
  }

  lemma RepairIs(trace: seq<Db>, w: WorkflowId, seen: int, i: nat, now: Time)
    requires i < |trace| && RepairRead(trace[i], w, seen)
    requires WorkflowMatches(Last(trace), w, {WorkflowState.Initializing, WorkflowState.Running})
    ensures var act := RepairInitializing(w, i);
      Enabled(trace, act) && Perform(trace, Step(act, now)) == RepairInitializingTx(Last(trace), w, seen)
  {
  }

  /** Task t was read in db at the given revision. */
  ghost predicate TaskRead(db: Db, t: TaskId, revision: int) {
    t in db.tasks && db.tasks[t].revision == revision
  }

  /** Attempt a of task t was read in db at the given revision. */
  ghost predicate AttemptRead(db: Db, a: AttemptId, t: TaskId, revision: int) {
    a in db.attempts && db.attempts[a].task == t && db.attempts[a].revision == revision
  }

  /** A settlement's two reads: the attempt at i, its task at j, no earlier. */
  ghost predicate PairRead(trace: seq<Db>, i: nat, j: nat, a: AttemptId, ea: int, t: TaskId, et: int) {
    i <= j < |trace| && AttemptRead(trace[i], a, t, ea) && TaskRead(trace[j], t, et)
  }

  lemma ReadinessIs(trace: seq<Db>, t: TaskId, expected: int, input: JsonObject, i: nat, g: nat, now: Time)
    requires i < |trace| && g < |trace| && ResolvedIn(trace[i], t, input) && TaskRead(trace[i], t, expected)
    ensures var act := Readiness(t, input, i, g);
      && Enabled(trace, act)
      && Perform(trace, Step(act, now)) == ReadinessTx(trace[g], Last(trace), t, expected, input, now)
  {
  }

  lemma RetryReadyIs(trace: seq<Db>, t: TaskId, expected: int, i: nat, g: nat, now: Time)
    requires i < |trace| && g < |trace| && TaskRead(trace[i], t, expected)
    ensures var act := RetryReady(t, i, g);
      Enabled(trace, act) && Perform(trace, Step(act, now)) == RetryReadyTx(trace[g], Last(trace), t, expected, now)
  {
  }

  lemma DrainCancelIs(trace: seq<Db>, t: TaskId, expected: int, i: nat, g1: nat, g2: nat, now: Time)
    requires i < |trace| && g1 < |trace| && g2 < |trace| && TaskRead(trace[i], t, expected)
    ensures var act := DrainCancel(t, i, g1, g2);
      && Enabled(trace, act)
      && Perform(trace, Step(act, now)) == DrainCancelTx(trace[g1], trace[g2], Last(trace), t, expected, now)
  {
  }

  lemma ClaimActionIs(
    trace: seq<Db>, t: TaskId, expected: int, worker: SessionId, a: AttemptId, deadline: Time, i: nat, g1: nat, g2: nat,
    now: Time)
    requires i < |trace| && g1 < |trace| && g2 < |trace| && TaskRead(trace[i], t, expected)
    requires a !in Last(trace).attempts
    ensures var act := Claim(t, worker, a, deadline, i, g1, g2);
      && Enabled(trace, act)
      && Perform(trace, Step(act, now)) ==
         ClaimTx(trace[g1], trace[g2], Last(trace), t, expected, worker, a, deadline, now)
  {
  }

  /** A claim under an identifier already taken changes nothing. */
  lemma TakenIdRefused(
    g1: Db, g2: Db, db: Db, t: TaskId, expected: int, worker: SessionId, a: AttemptId, deadline: Time, now: Time)
    requires a in db.attempts
    ensures ClaimTx(g1, g2, db, t, expected, worker, a, deadline, now).db == db
  {
  }

  lemma StartIs(trace: seq<Db>, a: AttemptId, worker: SessionId, now: Time)
    requires trace != []
    ensures var act := Start(a, worker);
      Enabled(trace, act) && Perform(trace, Step(act, now)) == StartTx(Last(trace), a, worker, 1, now)
  {
  }

  lemma CancelDeadlineIs(trace: seq<Db>, a: AttemptId, now: Time)
    requires trace != []
    ensures var act := SetCancelDeadline(a);
      && Enabled(trace, act)
      && Perform(trace, Step(act, now)) == CancelDeadlineTx(Last(trace), a, now + CANCELLATION_GRACE)
  {
  }

  lemma TaskSuccessIs(
    trace: seq<Db>, a: AttemptId, worker: SessionId, ea: int, t: TaskId, et: int, output: PyValue, i: nat, j: nat,
    now: Time)
    requires PairRead(trace, i, j, a, ea, t, et)
    ensures var act := TaskSuccess(a, worker, t, output, i, j);
      && Enabled(trace, act)
      && Perform(trace, Step(act, now)) == TaskSuccessTx(Last(trace), a, worker, ea, t, et, output, now)
  {
  }

  /** The caller found a retry eligible: the task as read at j, the workflow state as read at e. */
  ghost predicate EligibleAt(trace: seq<Db>, t: TaskId, j: nat, e: nat) {
    && j < |trace| && e < |trace| && t in trace[j].tasks
    && EvaluateRetryEligibility(trace[j].tasks[t].nextOrdinal, trace[j].tasks[t].maxAttempts, true,
                                StateOf(trace[e], t.workflow))
  }

  lemma FailureWithRetryIs(
    trace: seq<Db>, a: AttemptId, worker: SessionId, ea: int, t: TaskId, et: int, readyAt: Time, cause: FailureCause,
    i: nat, j: nat, e: nat, g: nat, now: Time)
    requires PairRead(trace, i, j, a, ea, t, et) && EligibleAt(trace, t, j, e) && g < |trace|
    ensures var act := FailureWithRetry(a, worker, t, readyAt, cause, i, j, e, g);
      && Enabled(trace, act)
      && Perform(trace, Step(act, now)) ==
         FailureWithRetryTx(trace[g], Last(trace), a, worker, ea, t, et, readyAt, cause, now)
  {
  }

  lemma DefinitiveFailureIs(
    trace: seq<Db>, a: AttemptId, worker: SessionId, ea: int, t: TaskId, et: int, cause: FailureCause, i: nat, j: nat,
    now: Time)
    requires PairRead(trace, i, j, a, ea, t, et)
    ensures var act := DefinitiveFailure(a, worker, t, cause, i, j);
      && Enabled(trace, act)
      && Perform(trace, Step(act, now)) == DefinitiveFailureTx(Last(trace), a, worker, ea, t, et, cause, now)
  {
  }

  lemma CancellationAckIs(
    trace: seq<Db>, a: AttemptId, worker: SessionId, ea: int, t: TaskId, et: int, i: nat, j: nat, g1: nat, g2: nat,
    now: Time)
    requires PairRead(trace, i, j, a, ea, t, et) && g1 < |trace| && g2 < |trace|
    ensures var act := CancellationAck(a, worker, t, i, j, g1, g2);
      && Enabled(trace, act)
      && Perform(trace, Step(act, now)) ==
         CancellationAckTx(trace[g1], trace[g2], Last(trace), a, worker, ea, t, et, now)
  {
  }

  lemma CancellationDeadlineIs(
    trace: seq<Db>, a: AttemptId, ea: int, t: TaskId, et: int, i: nat, j: nat, g1: nat, g2: nat, now: Time)
    requires PairRead(trace, i, j, a, ea, t, et) && g1 < |trace| && g2 < |trace|
    ensures var act := CancellationDeadline(a, t, i, j, g1, g2);
      && Enabled(trace, act)
      && Perform(trace, Step(act, now)) ==
         CancellationDeadlineTx(trace[g1], trace[g2], Last(trace), a, ea, t, et, now)
  {
  }

  lemma InternalFailureIs(
    trace: seq<Db>, a: AttemptId, ea: int, t: TaskId, et: int, cause: FailureCause, retryable: bool,
    retryAt: Option<Time>, lost: Option<SessionId>, i: nat, j: nat, g1: nat, g2: nat, now: Time)
    requires PairRead(trace, i, j, a, ea, t, et) && g1 < |trace| && g2 < |trace| && KnownCode(cause.code)
    ensures var act := InternalFailure(a, t, cause, retryable, retryAt, lost, i, j, g1, g2);
      && Enabled(trace, act)
      && Perform(trace, Step(act, now)) ==
         InternalFailureTx(trace[g1], trace[g2], Last(trace), a, ea, t, et, cause, retryable, retryAt, lost, now)
  {
  }

  lemma FailureDirectionIs(trace: seq<Db>, w: WorkflowId, t: TaskId, cause: FailureCause, i: nat, now: Time)
    requires i < |trace| && FailedWith(trace[i], w, t, Some(cause))
    ensures var act := FailureDirection(w, t, cause, i);
      Enabled(trace, act) && Perform(trace, Step(act, now)) == FailureDirectionTx(Last(trace), w, cause, now)
  {
  }

  lemma CancellationDirectionIs(trace: seq<Db>, w: WorkflowId, now: Time)
    requires trace != []
    ensures var act := CancellationDirection(w);
      Enabled(trace, act) && Perform(trace, Step(act, now)) == CancellationDirectionTx(Last(trace), w, now)
  {
  }

  /** Workflow w was read in db at the given revision. */
  ghost predicate WorkflowRead(db: Db, w: WorkflowId, revision: int) {
    w in db.workflows && db.workflows[w].revision == revision
  }

  lemma WorkflowSuccessIs(
    trace: seq<Db>, w: WorkflowId, expected: int, output: PyValue, i: nat, g1: nat, g2: nat, now: Time)
    requires i < |trace| && g1 < |trace| && g2 < |trace| && WorkflowRead(trace[i], w, expected)
    ensures var act := WorkflowSuccess(w, output, i, g1, g2);
      && Enabled(trace, act)
      && Perform(trace, Step(act, now)) ==
         WorkflowSuccessTx(trace[g1], trace[g2], Last(trace), w, expected, output, now)
  {
  }

  lemma WorkflowFailureIs(trace: seq<Db>, w: WorkflowId, expected: int, i: nat, g1: nat, g2: nat, now: Time)
    requires i < |trace| && g1 < |trace| && g2 < |trace| && WorkflowRead(trace[i], w, expected)
    ensures var act := WorkflowFailure(w, i, g1, g2);
      && Enabled(trace, act)
      && Perform(trace, Step(act, now)) == WorkflowFailureTx(trace[g1], trace[g2], Last(trace), w, expected, now)
  {
  }

  lemma WorkflowCancellationIs(trace: seq<Db>, w: WorkflowId, expected: int, i: nat, g1: nat, g2: nat, now: Time)
    requires i < |trace| && g1 < |trace| && g2 < |trace| && WorkflowRead(trace[i], w, expected)
    ensures var act := WorkflowCancellation(w, i, g1, g2);
      && Enabled(trace, act)
      && Perform(trace, Step(act, now)) == WorkflowCancellationTx(trace[g1], trace[g2], Last(trace), w, expected, now)
  {
  }
}
