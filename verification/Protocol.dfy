/**
  Runs of the whole system: any interleaving of the callers' transactions.

  A run is the sequence of databases it goes through. An action names its transaction, its arguments, and the
  earlier databases its caller and its guards read from; nothing forces those to be recent. Enabled says what
  the real callers do: which rows they looked at before choosing the transaction, and in which order.
  */
module Protocol {
  import opened Wrappers
  import opened JsonCompat
  import opened Spec
  import opened Rows
  import opened Transactions
  import opened Invariant
  import opened Preservation
  import opened Settlement
  import opened WorkflowMoves
  import opened Failure

  /** Read indices: i and j are reads of the caller, g, g1 and g2 reads inside the transaction. */
  datatype Action =
    | Register(d: DefinitionId, spec: ValidatedWorkflowSpec)
    | Create(w: WorkflowId, d: DefinitionId, input: PyValue)
    | Populate(w: WorkflowId, i: nat, g: nat)
    | CompleteInitialization(w: WorkflowId, g1: nat, g2: nat)
    | RepairInitializing(w: WorkflowId, i: nat)
    | Readiness(t: TaskId, stableInput: JsonObject, i: nat, g: nat)
    | Claim(t: TaskId, worker: SessionId, a: AttemptId, startDeadline: Time, i: nat, g1: nat, g2: nat)
    | Start(a: AttemptId, worker: SessionId)
    | TaskSuccess(a: AttemptId, worker: SessionId, t: TaskId, output: PyValue, i: nat, j: nat)
    | FailureWithRetry(a: AttemptId, worker: SessionId, t: TaskId, readyAt: Time, cause: FailureCause,
                       i: nat, j: nat, e: nat, g: nat)
    | DefinitiveFailure(a: AttemptId, worker: SessionId, t: TaskId, cause: FailureCause, i: nat, j: nat)
    | CancellationAck(a: AttemptId, worker: SessionId, t: TaskId, i: nat, j: nat, g1: nat, g2: nat)
    | CancellationDeadline(a: AttemptId, t: TaskId, i: nat, j: nat, g1: nat, g2: nat)
    | InternalFailure(a: AttemptId, t: TaskId, cause: FailureCause, retryable: bool, retryAt: Option<Time>,
                      lost: Option<SessionId>, i: nat, j: nat, g1: nat, g2: nat)
    | RetryReady(t: TaskId, i: nat, g: nat)
    | DrainCancel(t: TaskId, i: nat, g1: nat, g2: nat)
    | SetCancelDeadline(a: AttemptId)
    | FailureDirection(w: WorkflowId, t: TaskId, cause: FailureCause, i: nat)
    | CancellationDirection(w: WorkflowId)
    | WorkflowSuccess(w: WorkflowId, output: PyValue, i: nat, g1: nat, g2: nat)
    | WorkflowFailure(w: WorkflowId, i: nat, g1: nat, g2: nat)
    | WorkflowCancellation(w: WorkflowId, i: nat, g1: nat, g2: nat)

  datatype Step = Step(action: Action, now: Time)

  function Last(trace: seq<Db>): Db
    requires trace != []
  {
    trace[|trace| - 1]
  }

  /** The database read at index i; an index past the end reads the latest. */
  function At(trace: seq<Db>, i: nat): Db
    requires trace != []
  {
    if i < |trace| then trace[i] else Last(trace)
  }

  /** The attempt was read at i and its task at j, no earlier, with the given task revision now expected. */
  predicate ReadPair(trace: seq<Db>, a: AttemptId, t: TaskId, i: nat, j: nat)
    requires trace != []
  {
    && i <= j
    && a in At(trace, i).attempts && At(trace, i).attempts[a].task == t
    && t in At(trace, j).tasks
  }

  /** What the caller of each transaction has established before it calls. Phase 1 of startup recovery writes
      without a condition: that nobody has cancelled the workflow since it was read is what running it at boot,
      before traffic, is to ensure. */
  ghost predicate Enabled(trace: seq<Db>, action: Action)
    requires trace != []
  {
    match action
    case Register(d, spec) => ValidSpec(spec)
    case Create(w, d, input) => true
    case Populate(w, i, g) =>
      w in At(trace, i).workflows && At(trace, i).workflows[w].definition in At(trace, i).definitions
    case CompleteInitialization(w, g1, g2) => true
    case RepairInitializing(w, i) =>
      && w in At(trace, i).workflows && At(trace, i).workflows[w].state.Initializing?
      && TaskNames(At(trace, i), w, AnyTaskState) != {}
      && WorkflowMatches(Last(trace), w, {WorkflowState.Initializing, WorkflowState.Running})
    case Readiness(t, input, i, g) => ResolvedIn(At(trace, i), t, input)
    case Claim(t, worker, a, deadline, i, g1, g2) =>
      t in At(trace, i).tasks && a !in Last(trace).attempts
    case Start(a, worker) => true
    case TaskSuccess(a, worker, t, output, i, j) => ReadPair(trace, a, t, i, j)
    case FailureWithRetry(a, worker, t, readyAt, cause, i, j, e, g) =>
      && ReadPair(trace, a, t, i, j)
      && EvaluateRetryEligibility(At(trace, j).tasks[t].nextOrdinal, At(trace, j).tasks[t].maxAttempts, true,
                                  StateOf(At(trace, e), t.workflow))
    case DefinitiveFailure(a, worker, t, cause, i, j) => ReadPair(trace, a, t, i, j)
    case CancellationAck(a, worker, t, i, j, g1, g2) => ReadPair(trace, a, t, i, j)
    case CancellationDeadline(a, t, i, j, g1, g2) => ReadPair(trace, a, t, i, j)
    case InternalFailure(a, t, cause, retryable, readyAt, lost, i, j, g1, g2) =>
      ReadPair(trace, a, t, i, j) && KnownCode(cause.code)
    case RetryReady(t, i, g) => t in At(trace, i).tasks
    case DrainCancel(t, i, g1, g2) => t in At(trace, i).tasks
    case SetCancelDeadline(a) => true
    case FailureDirection(w, t, cause, i) => FailedWith(At(trace, i), w, t, Some(cause))
    case CancellationDirection(w) => true
    case WorkflowSuccess(w, output, i, g1, g2) => w in At(trace, i).workflows
    case WorkflowFailure(w, i, g1, g2) => w in At(trace, i).workflows
    case WorkflowCancellation(w, i, g1, g2) => w in At(trace, i).workflows
  }

  function Perform(trace: seq<Db>, step: Step): TxResult
    requires trace != [] && Enabled(trace, step.action)
  {
    var db, now := Last(trace), step.now;
    match step.action
    case Register(d, spec) => RegisterTx(db, d, spec)
    case Create(w, d, input) => CreateTx(db, w, d, input, now)
    case Populate(w, i, g) =>
      var seen := At(trace, i);
      PopulateTx(At(trace, g), db, w, seen.definitions[seen.workflows[w].definition].tasks, now)
    case CompleteInitialization(w, g1, g2) => InitializationCompleteTx(At(trace, g1), At(trace, g2), db, w, 1, now)
    case RepairInitializing(w, i) => RepairInitializingTx(db, w, At(trace, i).workflows[w].revision)
    case Readiness(t, input, i, g) => ReadinessTx(At(trace, g), db, t, At(trace, i).tasks[t].revision, input, now)
    case Claim(t, worker, a, deadline, i, g1, g2) =>
      ClaimTx(At(trace, g1), At(trace, g2), db, t, At(trace, i).tasks[t].revision, worker, a, deadline, now)
    case Start(a, worker) => StartTx(db, a, worker, 1, now)
    case TaskSuccess(a, worker, t, output, i, j) =>
      TaskSuccessTx(db, a, worker, At(trace, i).attempts[a].revision, t, At(trace, j).tasks[t].revision, output, now)
    case FailureWithRetry(a, worker, t, readyAt, cause, i, j, e, g) =>
      FailureWithRetryTx(At(trace, g), db, a, worker, At(trace, i).attempts[a].revision,
                         t, At(trace, j).tasks[t].revision, readyAt, cause, now)
    case DefinitiveFailure(a, worker, t, cause, i, j) =>
      DefinitiveFailureTx(db, a, worker, At(trace, i).attempts[a].revision,
                          t, At(trace, j).tasks[t].revision, cause, now)
    case CancellationAck(a, worker, t, i, j, g1, g2) =>
      CancellationAckTx(At(trace, g1), At(trace, g2), db, a, worker, At(trace, i).attempts[a].revision,
                        t, At(trace, j).tasks[t].revision, now)
    case CancellationDeadline(a, t, i, j, g1, g2) =>
      CancellationDeadlineTx(At(trace, g1), At(trace, g2), db, a, At(trace, i).attempts[a].revision,
                             t, At(trace, j).tasks[t].revision, now)
    case InternalFailure(a, t, cause, retryable, readyAt, lost, i, j, g1, g2) =>
      InternalFailureTx(At(trace, g1), At(trace, g2), db, a, At(trace, i).attempts[a].revision,
                        t, At(trace, j).tasks[t].revision, cause, retryable, readyAt, lost, now)
    case RetryReady(t, i, g) => RetryReadyTx(At(trace, g), db, t, At(trace, i).tasks[t].revision, now)
    case DrainCancel(t, i, g1, g2) =>
      DrainCancelTx(At(trace, g1), At(trace, g2), db, t, At(trace, i).tasks[t].revision, now)
    case SetCancelDeadline(a) => CancelDeadlineTx(db, a, now + CANCELLATION_GRACE)
    case FailureDirection(w, t, cause, i) => FailureDirectionTx(db, w, cause, now)
    case CancellationDirection(w) => CancellationDirectionTx(db, w, now)
    case WorkflowSuccess(w, output, i, g1, g2) =>
      WorkflowSuccessTx(At(trace, g1), At(trace, g2), db, w, At(trace, i).workflows[w].revision, output, now)
    case WorkflowFailure(w, i, g1, g2) =>
      WorkflowFailureTx(At(trace, g1), At(trace, g2), db, w, At(trace, i).workflows[w].revision, now)
    case WorkflowCancellation(w, i, g1, g2) =>
      WorkflowCancellationTx(At(trace, g1), At(trace, g2), db, w, At(trace, i).workflows[w].revision, now)
  }

  /** A run from the empty database: each next database is what the step makes of the ones before it. */
  ghost predicate IsRun(trace: seq<Db>, steps: seq<Step>) {
    && |trace| == |steps| + 1
    && trace[0] == EmptyDb
    && forall k | 0 <= k < |steps| ::
         Enabled(trace[..k + 1], steps[k].action) && trace[k + 1] == Perform(trace[..k + 1], steps[k]).db
  }

  /** Every database of the trace is sound, and each evolved into the later ones. */
  ghost predicate Sound(trace: seq<Db>) {
    && trace != []
    && (forall k | 0 <= k < |trace| :: Inv(trace[k]))
    && (forall i, k | 0 <= i <= k < |trace| :: Evolves(trace[i], trace[k]))
  }

  // ------------------------------------------------------------------------- one step keeps the invariant

  lemma ReadEarlier(trace: seq<Db>, i: nat)
    requires Sound(trace)
    ensures Inv(At(trace, i)) && Evolves(At(trace, i), Last(trace))
  {
  }

  lemma PairPins(trace: seq<Db>, a: AttemptId, t: TaskId, i: nat, j: nat)
    requires Sound(trace) && ReadPair(trace, a, t, i, j)
    ensures Pinned(Last(trace), a, t, At(trace, j).tasks[t].revision)
    ensures RowsOk(Last(trace), a, t)
    ensures a in Last(trace).attempts && Last(trace).attempts[a].state.Active() ==>
      t in Last(trace).tasks && At(trace, j).tasks[t] == Last(trace).tasks[t]
  {
    ReadEarlier(trace, i);
    ReadEarlier(trace, j);
    assert Evolves(At(trace, i), At(trace, j));
    ReadsPin(At(trace, i), At(trace, j), Last(trace), a, t, At(trace, j).tasks[t].revision);
  }

  predicate Settles(action: Action) {
    action.TaskSuccess? || action.FailureWithRetry? || action.DefinitiveFailure? || action.CancellationAck?
    || action.CancellationDeadline? || action.InternalFailure?
  }

  /** Both-or-neither: in every sound history, however stale the reads and guards of the caller, a settlement
      writes the attempt together with its task or writes nothing. */
  lemma SettlementBothOrNeither(trace: seq<Db>, step: Step)
    requires Sound(trace) && Enabled(trace, step.action) && Settles(step.action)
    ensures BothOrNeither(Last(trace), Perform(trace, step), step.action.a, step.action.t)
  {

    var db, now := Last(trace), step.now;
    match step.action
    case TaskSuccess(a, worker, t, output, i, j) =>
      PairPins(trace, a, t, i, j);
      TaskSuccessSettles(db, a, worker, At(trace, i).attempts[a].revision,
                         t, At(trace, j).tasks[t].revision, output, now);
    case FailureWithRetry(a, worker, t, readyAt, cause, i, j, e, g) =>
      PairPins(trace, a, t, i, j);
      FailureWithRetrySettles(At(trace, g), db, a, worker, At(trace, i).attempts[a].revision,
                              t, At(trace, j).tasks[t].revision, readyAt, cause, now);
    case DefinitiveFailure(a, worker, t, cause, i, j) =>
      PairPins(trace, a, t, i, j);
      DefinitiveFailureSettles(db, a, worker, At(trace, i).attempts[a].revision,
                               t, At(trace, j).tasks[t].revision, cause, now);
    case CancellationAck(a, worker, t, i, j, g1, g2) =>
      PairPins(trace, a, t, i, j);
      ReadEarlier(trace, g2);
      CancellationAckSettles(At(trace, g1), At(trace, g2), db, a, worker, At(trace, i).attempts[a].revision,
                             t, At(trace, j).tasks[t].revision, now);
    case CancellationDeadline(a, t, i, j, g1, g2) =>
      PairPins(trace, a, t, i, j);
      ReadEarlier(trace, g2);
      CancellationDeadlineSettles(At(trace, g1), At(trace, g2), db, a, At(trace, i).attempts[a].revision,
                                  t, At(trace, j).tasks[t].revision, now);
    case InternalFailure(a, t, cause, retryable, readyAt, lost, i, j, g1, g2) =>
      PairPins(trace, a, t, i, j);
      InternalFailureSettles(At(trace, g1), At(trace, g2), db, a, At(trace, i).attempts[a].revision,
                             t, At(trace, j).tasks[t].revision, cause, retryable, readyAt, lost, now);
  }

  predicate MovesTask(action: Action) {
    action.Readiness? || action.Claim? || action.RetryReady? || action.DrainCancel? || action.Start?
    || action.SetCancelDeadline?
  }

  lemma TaskStepAdvances(trace: seq<Db>, step: Step)
    requires Sound(trace) && Enabled(trace, step.action) && MovesTask(step.action)
    ensures Advances(Last(trace), Perform(trace, step).db)
  {
    hide Inv, Evolves, ReadinessTx, ClaimTx, RetryReadyTx, DrainCancelTx, StartTx, CancelDeadlineTx;
    var db, now := Last(trace), step.now;
    match step.action
    case Readiness(t, input, i, g) =>
      ReadEarlier(trace, i);
      ReadEarlier(trace, g);
      ReadinessPreserves(At(trace, i), At(trace, g), db, t, input, now);
    case Claim(t, worker, a, deadline, i, g1, g2) =>
      ClaimPreserves(At(trace, g1), At(trace, g2), db, t, At(trace, i).tasks[t].revision, worker, a, deadline, now);
    case RetryReady(t, i, g) =>
      ReadEarlier(trace, g);
      RetryReadyPreserves(At(trace, g), db, t, At(trace, i).tasks[t].revision, now);
    case DrainCancel(t, i, g1, g2) =>
      ReadEarlier(trace, g2);
      DrainCancelPreserves(At(trace, g1), At(trace, g2), db, t, At(trace, i).tasks[t].revision, now);
    case Start(a, worker) =>
      AttemptIsOk(db, a);
      StartWrites(db, a, worker, 1, now);
      AttemptWritePreserves(db, StartTx(db, a, worker, 1, now).db, a);
    case SetCancelDeadline(a) =>
      AttemptIsOk(db, a);
      CancelDeadlineWrites(db, a, now + CANCELLATION_GRACE);
      AttemptWritePreserves(db, CancelDeadlineTx(db, a, now + CANCELLATION_GRACE).db, a);
  }

  lemma AttemptIsOk(db: Db, a: AttemptId)
    requires Inv(db)
    ensures a in db.attempts ==> AttemptOk(db, a)
  {
  }

  /** What a repair finds: its read is the first revision, and the row it overwrites has not gone past RUNNING. */
  lemma RepairReads(trace: seq<Db>, w: WorkflowId, i: nat)
    requires Sound(trace) && Enabled(trace, RepairInitializing(w, i))
    ensures w in At(trace, i).workflows && At(trace, i).workflows[w].revision == 1
    ensures w in Last(trace).workflows && WorkflowShape(Last(trace).workflows[w])
    ensures Last(trace).workflows[w].state.Initializing? || Last(trace).workflows[w].state == WorkflowState.Running
  {
    hide Evolves, Inv;
    ReadEarlier(trace, i);
    ShapeOf(At(trace, i), w);
    ShapeOf(Last(trace), w);
  }

  lemma ShapeOf(db: Db, w: WorkflowId)
    requires Inv(db) && w in db.workflows
    ensures WorkflowShape(db.workflows[w])
  {
    hide TaskOk, AttemptOk, LedgerOk;
    assert WorkflowOk(db, w);
  }

  predicate ComparesMembership(action: Action) {
    action.CompleteInitialization? || action.WorkflowSuccess? || action.WorkflowFailure?
    || action.WorkflowCancellation?
  }

  lemma PopulateSeen(trace: seq<Db>, w: WorkflowId, i: nat, g: nat, now: Time)
    requires Sound(trace) && Enabled(trace, Populate(w, i, g))
    ensures Advances(Last(trace), Perform(trace, Step(Populate(w, i, g), now)).db)
  {
    ReadEarlier(trace, i);
    ReadEarlier(trace, g);
    var seen := At(trace, i);
    PopulatePreserves(At(trace, g), Last(trace), w, seen.definitions[seen.workflows[w].definition].tasks, now);
  }

  lemma FailureSeen(trace: seq<Db>, w: WorkflowId, t: TaskId, cause: FailureCause, i: nat)
    requires Sound(trace) && FailedWith(At(trace, i), w, t, Some(cause))
    ensures FailureOfSome(Last(trace), w, Some(cause))
  {
    ReadEarlier(trace, i);
    FailureKept(At(trace, i), Last(trace), w, Some(cause));
  }

  lemma WorkflowStepAdvances(trace: seq<Db>, step: Step)
    requires Sound(trace) && Enabled(trace, step.action)
    requires !MovesTask(step.action) && !Settles(step.action) && !ComparesMembership(step.action)
    ensures Advances(Last(trace), Perform(trace, step).db)
  {
    hide Inv, Evolves, RegisterTx, CreateTx, PopulateTx, RepairInitializingTx, FailureDirectionTx,
         CancellationDirectionTx;
    var db, now := Last(trace), step.now;
    match step.action
    case Register(d, spec) => RegisterPreserves(db, d, spec);
    case Create(w, d, input) => CreatePreserves(db, w, d, input, now);
    case Populate(w, i, g) =>
      PopulateSeen(trace, w, i, g, now);
    case RepairInitializing(w, i) =>
      ReadEarlier(trace, i);
      RepairInitializingPreserves(At(trace, i), db, w);
    case FailureDirection(w, t, cause, i) =>
      FailureSeen(trace, w, t, cause, i);
      FailureDirectionPreserves(db, w, cause, now);
    case CancellationDirection(w) => CancellationDirectionPreserves(db, w, now);
  }

  lemma MembershipStepAdvances(trace: seq<Db>, step: Step)
    requires Sound(trace) && Enabled(trace, step.action) && ComparesMembership(step.action)
    ensures Advances(Last(trace), Perform(trace, step).db)
  {
    hide Inv, Evolves, MembershipTx;
    var db, now := Last(trace), step.now;
    match step.action
    case CompleteInitialization(w, g1, g2) =>
      ReadEarlier(trace, g1);
      ReadEarlier(trace, g2);
      MembershipPreserves(At(trace, g1), At(trace, g2), db, w, 1, WorkflowState.Initializing, AnyTaskState,
                          WorkflowState.Running, None, WorkflowExecutionStarted, now);
    case WorkflowSuccess(w, output, i, g1, g2) =>
      ReadEarlier(trace, g1);
      ReadEarlier(trace, g2);
      MembershipPreserves(At(trace, g1), At(trace, g2), db, w, At(trace, i).workflows[w].revision,
                          WorkflowState.Running, {TaskState.Succeeded}, WorkflowState.Succeeded, Some(output),
                          WorkflowExecutionSucceeded, now);
    case WorkflowFailure(w, i, g1, g2) =>
      ReadEarlier(trace, g1);
      ReadEarlier(trace, g2);
      MembershipPreserves(At(trace, g1), At(trace, g2), db, w, At(trace, i).workflows[w].revision,
                          WorkflowState.Failing, TerminalTaskStates, WorkflowState.Failed, None,
                          WorkflowExecutionFailed, now);
    case WorkflowCancellation(w, i, g1, g2) =>
      ReadEarlier(trace, g1);
      ReadEarlier(trace, g2);
      MembershipPreserves(At(trace, g1), At(trace, g2), db, w, At(trace, i).workflows[w].revision,
                          WorkflowState.Cancelling, TerminalTaskStates, WorkflowState.Cancelled, None,
                          WorkflowExecutionCancelled, now);
  }

  lemma StepAdvances(trace: seq<Db>, step: Step)
    requires Sound(trace) && Enabled(trace, step.action)
    ensures Advances(Last(trace), Perform(trace, step).db)
  {
    if Settles(step.action) {
      SettlementBothOrNeither(trace, step);
      BothOrNeitherPreserves(Last(trace), Perform(trace, step), step.action.a, step.action.t);
    } else if MovesTask(step.action) {
      TaskStepAdvances(trace, step);
    } else if ComparesMembership(step.action) {
      MembershipStepAdvances(trace, step);
    } else {
      WorkflowStepAdvances(trace, step);
    }
  }

  // -------------------------------------------------------------------------------------- whole runs

  lemma SoundExtends(trace: seq<Db>, next: Db)
    requires Sound(trace) && Advances(Last(trace), next)
    ensures Sound(trace + [next])
  {
    forall i | 0 <= i < |trace| ensures Evolves(trace[i], next) {
      EvolvesTransitive(trace[i], Last(trace), next);
    }
    EvolvesReflexive(next);
  }

  /** The protocol invariant: every database of every run is sound, and rows evolve monotonically. */
  lemma {:induction false} RunsAreSound(trace: seq<Db>, steps: seq<Step>)
    requires IsRun(trace, steps)
    ensures Sound(trace)
    decreases |steps|
  {
    if steps == [] {
      EmptyIsSound();
      assert trace == [EmptyDb];
    } else {
      var n := |steps| - 1;
      PrefixIsRun(trace, steps, n);
      RunsAreSound(trace[..n + 1], steps[..n]);
      RunExtends(trace, steps, n);
    }
  }

  lemma EmptyIsSound()
    ensures Sound([EmptyDb])
  {
    EvolvesReflexive(EmptyDb);
  }

  lemma RunExtends(trace: seq<Db>, steps: seq<Step>, n: nat)
    requires IsRun(trace, steps) && n + 1 == |steps|
    requires Sound(trace[..n + 1])
    ensures Sound(trace)
  {
    StepAdvances(trace[..n + 1], steps[n]);
    SoundExtends(trace[..n + 1], trace[n + 1]);
    assert trace == trace[..n + 1] + [trace[n + 1]];
  }

  lemma PrefixIsRun(trace: seq<Db>, steps: seq<Step>, n: nat)
    requires IsRun(trace, steps) && n <= |steps|
    ensures IsRun(trace[..n + 1], steps[..n])
  {
    forall k | 0 <= k < n
      ensures Enabled(trace[..n + 1][..k + 1], steps[k].action)
      ensures trace[k + 1] == Perform(trace[..n + 1][..k + 1], steps[k]).db
    {
      assert trace[..n + 1][..k + 1] == trace[..k + 1];
    }
  }
}
