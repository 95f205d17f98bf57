/** Startup recovery (orchestration/recovery.py): the phases, repeated until a pass mutates nothing or the pass limit
    is reached. */
module Recovery {
  import opened Wrappers
  import opened Rows
  import opened Invariant
  import opened Preservation
  import opened Protocol
  import opened Steps
  import opened Progress
  import opened Quiescence
  import opened Store
  import opened Registry
  import opened Promotion
  import opened Drain
  import opened Scheduler
  import opened RecoveryPhases

  // ------------------------------------------------------------------------------------- the pass loop

  datatype Settings = Settings(batchSize: nat, maxPasses: nat, retryDelay: Time, startDeadline: Time)

  ghost predicate NoneActive(db: Db) {
    forall a | a in db.attempts :: !db.attempts[a].state.Active()
  }

  /** Terminal attempts stay so, and without new attempts nothing becomes active. */
  lemma NoneActiveStays(s: Db, db: Db)
    requires Evolves(s, db) && NoneActive(s) && db.attempts.Keys == s.attempts.Keys
    ensures NoneActive(db)
  {
    forall a | a in db.attempts ensures !db.attempts[a].state.Active() {
      assert AttemptEvolves(s.attempts[a], db.attempts[a]);
    }
  }

  lemma NoneFound(db: Db)
    requires AttemptsIn(db, {AttemptState.Claimed}) == {} && AttemptsIn(db, {AttemptState.Running}) == {}
    ensures NoneActive(db)
  {
    forall a | a in db.attempts ensures !db.attempts[a].state.Active() {
      assert a !in AttemptsIn(db, {AttemptState.Claimed}) && a !in AttemptsIn(db, {AttemptState.Running});
    }
  }

  /** To nobody nothing is given. */
  lemma NoneToGive(quiet: bool, terms: Terms, db: Db, db': Db, n: nat)
    requires RecoveryStep(quiet, terms, db, db', n) && terms.Given? && terms.registry.sessions == map[]
    requires Evolves(db, db')
    ensures RecoveryStep(quiet, NoneGiven, db, db', n)
  {
    hide WorkLeft;
    assert quiet ==> db'.attempts.Keys <= db.attempts.Keys;
  }

  lemma StepRelaxes(quiet: bool, terms: Terms, db: Db, db': Db, n: nat)
    requires RecoveryStep(quiet, NoneGiven, db, db', n)
    ensures RecoveryStep(quiet, terms, db, db', n)
  {
    hide WorkLeft;
  }

  lemma StepUnsaid(quiet: bool, terms: Terms, db: Db, db': Db, n: nat)
    requires RecoveryStep(quiet, terms, db, db', n)
    ensures RecoveryStep(quiet, Unsaid, db, db', n)
  {
    hide WorkLeft;
  }

  lemma StepKeepsNoneActive(db: Db, db': Db, n: nat)
    requires RecoveryStep(true, NoneGiven, db, db', n) && Evolves(db, db') && NoneActive(db)
    ensures NoneActive(db')
  {
    NoneActiveStays(db, db');
  }

  /** Every result set a phase asks for fits into a batch. */
  ghost predicate Ample(settings: Settings, db: Db) {
    |db.workflows| <= settings.batchSize && |db.tasks| <= settings.batchSize
  }

  lemma FullBatch<T>(some: set<T>, rows: set<T>, all: set<T>, n: nat)
    requires BatchOf(some, rows, n) && rows <= all && |all| <= n
    ensures some == rows
  {
    SubsetSize(all, rows);
  }

  lemma SameCounts(db: Db, db': Db)
    requires SameRows(db, db')
    ensures |db'.workflows| == |db.workflows| && |db'.tasks| == |db.tasks|
  {
    assert |db.workflows.Keys| == |db.workflows| && |db'.workflows.Keys| == |db'.workflows|;
    assert |db.tasks.Keys| == |db.tasks| && |db'.tasks.Keys| == |db'.tasks|;
  }

  lemma AmpleStays(settings: Settings, db: Db, db': Db)
    requires Ample(settings, db) && SameRows(db, db')
    ensures Ample(settings, db')
  {
    SameCounts(db, db');
  }

  /** No INITIALIZING workflow has tasks, and draining ones that have their tasks rest. */
  ghost predicate Opened(db: Db) {
    forall w | w in db.workflows ::
      !Startable(db, w) && (IsDraining(db, w) && HasItsTasks(db, w) ==> Quiescent(db, w))
  }

  /** Recovery has nothing left to do: every workflow is served, no INITIALIZING one has tasks, and none has terminal
      tasks only without being terminal itself. */
  ghost predicate Recovered(db: Db, registry: WorkerRegistry, now: Time)
    reads registry
  {
    forall w | w in db.workflows :: ServedAt(db, registry, w, now) && !Startable(db, w) && !Terminalizable(db, w)
  }

  /** As Recovered, up to workflows that phase 8 would end. */
  ghost predicate Awake(db: Db, registry: WorkerRegistry, now: Time)
    reads registry
  {
    forall w | w in db.workflows && !Terminalizable(db, w) :: ServedAt(db, registry, w, now) && !Startable(db, w)
  }

  lemma KeepsItsTasks(db: Db, db': Db, w: WorkflowId)
    requires SameRows(db, db') && Evolves(db, db') && w in db.workflows
    requires db.workflows[w].definition in db.definitions
    ensures HasItsTasks(db', w) ==> HasItsTasks(db, w)
    ensures Startable(db', w) ==> Startable(db, w)
  {
    if Startable(db', w) {
      var t :| t in TasksOf(db', w);
      assert t in TasksOf(db, w);
    }
  }

  /** Phases 1 and 2, when nothing could be started and the batches were full. */
  lemma OpenedAfter(db: Db, db': Db, starting: set<WorkflowId>, draining: set<WorkflowId>)
    requires Inv(db) && Advances(db, db') && SameRows(db, db')
    requires starting == InState(db, {WorkflowState.Initializing}) && StartableIn(db, starting) == {}
    requires draining == InState(db, {WorkflowState.Failing, WorkflowState.Cancelling})
    requires DrainedBut(db, db', draining, {})
    ensures Opened(db')
  {
    hide Inv, Evolves, Quiescent, HasItsTasks;
    forall w | w in db'.workflows
      ensures !Startable(db', w) && (IsDraining(db', w) && HasItsTasks(db', w) ==> Quiescent(db', w))
    {
      RunningHasTasks(db, w);
      KeepsItsTasks(db, db', w);
      assert Startable(db', w) ==> w in StartableIn(db, starting);
      if w !in draining && IsDraining(db', w) { UntouchedBack(db, db', w); }
    }
  }

  /** Phases 1 and 2: when nothing counts and the batches are full, every workflow is open for the rest. */
  method OpeningPhases(store: Store, registry: WorkerRegistry, settings: Settings, now: Time) returns (mutations: nat)
    requires store.Valid()
    modifies store
    ensures store.Continues(old(store.log))
    ensures RecoveryStep(store.quiet, Given(registry, now + settings.startDeadline, now), old(store.Db()), store.Db(),
                         mutations)
    ensures store.quiet && mutations == 0 && Ample(settings, old(store.Db())) ==> Opened(store.Db())
  {
    hide Inv, Evolves, IsRun, Leads, RecoveryStep, RepairedBut, DrainedBut, Ample, Opened;
    ghost var terms := Given(registry, now + settings.startDeadline, now);
    ghost var log, db := store.log, store.Db();
    ghost var starting, draining;
    mutations, starting := Phase1RepairInitializing(store, registry, settings.startDeadline, settings.batchSize, now);
    ghost var l, db1 := store.log, store.Db();
    var drained;
    drained, draining := Phase2ResumeDraining(store, terms, settings.batchSize, now);
    GoesOn(store, log, l);
    StepTransitive(store.quiet, terms, db, db1, store.Db(), mutations, drained);
    if store.quiet && mutations == 0 && Ample(settings, db) {
      AmpleMeans(settings, db);
      FullBatch(starting, InState(db, {WorkflowState.Initializing}), db.workflows.Keys, settings.batchSize);
      FullBatch(draining, InState(db, {WorkflowState.Failing, WorkflowState.Cancelling}), db.workflows.Keys,
                settings.batchSize);
      StepRows(store.quiet, terms, db, store.Db(), 0);
      OpenedAfter(db, store.Db(), starting, draining);
    }
  }

  lemma AmpleMeans(settings: Settings, db: Db)
    requires Ample(settings, db)
    ensures |db.workflows.Keys| <= settings.batchSize && |db.tasks.Keys| <= settings.batchSize
  {
    assert |db.workflows.Keys| == |db.workflows| && |db.tasks.Keys| == |db.tasks|;
  }

  lemma StepRows(quiet: bool, terms: Terms, db: Db, db': Db, n: nat)
    requires RecoveryStep(quiet, terms, db, db', n) && quiet
    ensures SameRows(db, db')
  {
  }

  /** The phases that may touch attempts, in order: with nobody interfering and no session registered, counting
      nothing means that no attempt is left active. */
  method SettlePhases(store: Store, registry: WorkerRegistry, settings: Settings, now: Time) returns (mutations: nat)
    requires store.Valid() && 1 <= settings.batchSize
    modifies store
    ensures store.Continues(old(store.log))
    ensures RecoveryStep(store.quiet, Given(registry, now + settings.startDeadline, now), old(store.Db()), store.Db(),
                         mutations)
    ensures store.quiet && mutations == 0 ==> store.Db() == old(store.Db())
    ensures store.quiet && registry.sessions == map[] && mutations == 0 ==> NoneActive(store.Db())
  {
    hide Inv, Evolves, IsRun, Leads, RecoveryStep, NoneActive, JudgedBut;
    ghost var terms := NoneGiven;
    ghost var log, db := store.log, store.Db();
    ghost var batch;
    var claimed, running;
    claimed, batch := Phase3SettleClaimedAttempts(store, registry, settings.batchSize, settings.retryDelay, now);
    ghost var l, db3 := store.log, store.Db();
    store.Others();
    GoesOn(store, log, l);
    ghost var l1, db3' := store.log, store.Db();
    StepOthers(store.quiet, terms, db3, db3');
    running, batch := Phase4SettleRunningAttempts(store, registry, settings.batchSize, settings.retryDelay, now);
    GoesOn(store, log, l1);
    StepTransitive(store.quiet, terms, db3, db3', store.Db(), 0, running);
    StepTransitive(store.quiet, terms, db, db3, store.Db(), claimed, running);
    StepRelaxes(store.quiet, Given(registry, now + settings.startDeadline, now), db, store.Db(), claimed + running);
    if store.quiet && registry.sessions == map[] && claimed + running == 0 { NoneFound(db); }
    mutations := claimed + running;
  }

  lemma NoneDue(db: Db, batch: set<TaskId>, w: WorkflowId, now: Time)
    requires batch == DueRetries(db, now) && RunningAmong(db, batch) == {}
    requires StateOf(db, w) == Some(WorkflowState.Running)
    ensures NoDueRetry(db, w, now)
  {
    forall t | t in db.tasks && t.workflow == w ensures !DueRetry(db.tasks[t], now) {
      assert t in batch ==> t.workflow in RunningAmong(db, batch);
    }
  }

  lemma RunningHasSomeTask(db: Db, w: WorkflowId)
    requires Inv(db) && w in db.workflows && db.workflows[w].state == WorkflowState.Running
    ensures TasksOf(db, w) != {}
  {
    hide TaskOk, AttemptOk, LedgerOk, WorkflowOk;
    RunningHasTasks(db, w);
    var spec := db.definitions[db.workflows[w].definition];
    assert DefinitionOk(spec);
    var k :| k in spec.tasks;
    assert TaskId(w, k) in TasksOf(db, w);
  }

  /** A workflow without PENDING and RUNNABLE tasks that no other phase would change is served as it is. */
  lemma ServedAsItIs(db: Db, registry: WorkerRegistry, w: WorkflowId, now: Time)
    requires w in db.workflows && Opened(db) && !Terminalizable(db, w)
    requires db.workflows[w].definition in db.definitions
    requires StateOf(db, w) == Some(WorkflowState.Running) ==> NoDueRetry(db, w, now) && TasksOf(db, w) != {}
    requires forall t | t in db.tasks && t.workflow == w :: !db.tasks[t].state.Pending? && !db.tasks[t].state.Runnable?
    ensures ServedAt(db, registry, w, now)
  {
  }

  /** Phases 5 to 7, when no retry was due and the batches were full: w was advanced by one of the last two, or had
      nothing to be advanced for. */
  lemma AwakeAfter(
    db5: Db, db6: Db, db7: Db, registry: WorkerRegistry, retries: set<TaskId>, runnable: set<TaskId>,
    pending: set<TaskId>, w: WorkflowId, now: Time)
    requires Inv(db5) && Opened(db5) && Evolves(db5, db7) && SameRows(db5, db7)
    requires retries == DueRetries(db5, now) && RunningAmong(db5, retries) == {}
    requires runnable == TasksIn(db5, {TaskState.Runnable}) && pending == TasksIn(db6, {TaskState.Pending})
    requires ServedIn(db5, db6, registry, WorkflowsOf(runnable), now)
    requires ServedIn(db6, db7, registry, WorkflowsOf(pending), now)
    requires w in db7.workflows && !Terminalizable(db7, w)
    ensures ServedAt(db7, registry, w, now) && !Startable(db7, w)
  {
    hide Inv, Evolves, Served, Terminalizable, HasItsTasks, Quiescent, RunningAmong, DueRetries, NoDueRetry;
    RunningHasTasks(db5, w);
    KeepsItsTasks(db5, db7, w);
    if w !in WorkflowsOf(pending) {
      if w in WorkflowsOf(runnable) {
        ServedAtKept(db6, db7, registry, w, now);
      } else {
        UntouchedTransitive(db5, db6, db7, w);
        UntouchedTerminalizable(db5, db7, w);
        NoneWaits(db5, db6, runnable, pending, w);
        if StateOf(db5, w) == Some(WorkflowState.Running) {
          NoneDue(db5, retries, w, now);
          RunningHasSomeTask(db5, w);
        }
        ServedAsItIs(db5, registry, w, now);
        ServedAtKept(db5, db7, registry, w, now);
      }
    }
  }

  lemma NoneWaits(db5: Db, db6: Db, runnable: set<TaskId>, pending: set<TaskId>, w: WorkflowId)
    requires runnable == TasksIn(db5, {TaskState.Runnable}) && pending == TasksIn(db6, {TaskState.Pending})
    requires w !in WorkflowsOf(runnable) && w !in WorkflowsOf(pending) && Untouched(db5, db6, w)
    ensures forall t | t in db5.tasks && t.workflow == w ::
              !db5.tasks[t].state.Pending? && !db5.tasks[t].state.Runnable?
  {
    forall t | t in db5.tasks && t.workflow == w
      ensures !db5.tasks[t].state.Pending? && !db5.tasks[t].state.Runnable?
    {
      assert t !in runnable && t !in pending;
    }
  }

  /** Phases 5 to 7: when nothing counts and the batches are full, what was open before is awake. */
  method WakePhases(store: Store, registry: WorkerRegistry, settings: Settings, now: Time) returns (mutations: nat)
    requires store.Valid()
    modifies store
    ensures store.Continues(old(store.log))
    ensures RecoveryStep(store.quiet, Given(registry, now + settings.startDeadline, now), old(store.Db()), store.Db(),
                         mutations)
    ensures store.quiet && mutations == 0 && Ample(settings, old(store.Db())) && Opened(old(store.Db())) ==>
              Awake(store.Db(), registry, now)
  {
    hide Inv, Evolves, IsRun, Leads, RecoveryStep, Ample, Opened, Awake, ServedIn, ServedRunning, RunningAmong;
    ghost var terms := Given(registry, now + settings.startDeadline, now);
    ghost var log, db := store.log, store.Db();
    ghost var retries, runnable, pending;
    var rediscovered, repaired;
    mutations, retries := Phase5PromoteRetryWait(
      store, registry, settings.startDeadline, settings.batchSize, now);
    ghost var l5, db5 := store.log, store.Db();
    rediscovered, runnable := Phase6RediscoverRunnable(
      store, registry, settings.startDeadline, settings.batchSize, now);
    GoesOn(store, log, l5);
    ghost var l6, db6 := store.log, store.Db();
    StepTransitive(store.quiet, terms, db, db5, db6, mutations, rediscovered);
    repaired, pending := Phase7RepairPendingReadiness(
      store, registry, settings.startDeadline, settings.batchSize, now);
    GoesOn(store, log, l6);
    StepTransitive(store.quiet, terms, db, db6, store.Db(), mutations, repaired);
    if store.quiet && mutations == 0 && Ample(settings, db) && Opened(db) {
      StepRows(store.quiet, terms, db, db6, 0);
      StepRows(store.quiet, terms, db, store.Db(), 0);
      AllAwake(settings, db, db6, store.Db(), registry, retries, runnable, pending, now);
    }
  }

  lemma AllAwake(
    settings: Settings, db: Db, db6: Db, db7: Db, registry: WorkerRegistry, retries: set<TaskId>,
    runnable: set<TaskId>, pending: set<TaskId>, now: Time)
    requires Inv(db) && Opened(db) && Advances(db, db7) && SameRows(db, db6) && SameRows(db, db7)
    requires Ample(settings, db) && |RunningAmong(db, retries)| == 0
    requires BatchOf(retries, DueRetries(db, now), settings.batchSize)
    requires BatchOf(runnable, TasksIn(db, {TaskState.Runnable}), settings.batchSize)
    requires BatchOf(pending, TasksIn(db6, {TaskState.Pending}), settings.batchSize)
    requires ServedIn(db, db6, registry, WorkflowsOf(runnable), now)
    requires ServedIn(db6, db7, registry, WorkflowsOf(pending), now)
    ensures Awake(db7, registry, now)
  {
    hide Inv, Evolves, Opened, ServedIn, Served, ServedAt, Startable, Terminalizable, RunningAmong;
    AmpleStays(settings, db, db6);
    AmpleMeans(settings, db);
    AmpleMeans(settings, db6);
    FullBatch(retries, DueRetries(db, now), db.tasks.Keys, settings.batchSize);
    FullBatch(runnable, TasksIn(db, {TaskState.Runnable}), db.tasks.Keys, settings.batchSize);
    FullBatch(pending, TasksIn(db6, {TaskState.Pending}), db6.tasks.Keys, settings.batchSize);
    forall w | w in db7.workflows && !Terminalizable(db7, w)
      ensures ServedAt(db7, registry, w, now) && !Startable(db7, w)
    {
      AwakeAfter(db, db6, db7, registry, retries, runnable, pending, w, now);
    }
  }

  lemma NoneTerminalizable(settings: Settings, db: Db, registry: WorkerRegistry, batch: set<WorkflowId>, now: Time)
    requires Ample(settings, db) && BatchOf(batch, InState(db, Unsettled), settings.batchSize)
    requires |TerminalizableIn(db, batch)| == 0 && Awake(db, registry, now)
    ensures Recovered(db, registry, now)
  {
    hide Served, ServedAt, Startable;
    AmpleMeans(settings, db);
    FullBatch(batch, InState(db, Unsettled), db.workflows.Keys, settings.batchSize);
    forall w | w in db.workflows ensures !Terminalizable(db, w) {
      assert Terminalizable(db, w) ==> w in TerminalizableIn(db, batch);
    }
  }

  /** Phases 5 to 8. */
  method LatePhases(store: Store, registry: WorkerRegistry, settings: Settings, now: Time) returns (mutations: nat)
    requires store.Valid()
    modifies store
    ensures store.Continues(old(store.log))
    ensures RecoveryStep(store.quiet, Given(registry, now + settings.startDeadline, now), old(store.Db()), store.Db(),
                         mutations)
    ensures store.quiet && mutations == 0 && Ample(settings, old(store.Db())) && Opened(old(store.Db())) ==>
              Recovered(store.Db(), registry, now)
  {
    hide Inv, Evolves, IsRun, Leads, RecoveryStep, Ample, Opened, Awake, Recovered, TerminalizedBut, TerminalizableIn;
    ghost var terms := Given(registry, now + settings.startDeadline, now);
    ghost var log, db := store.log, store.Db();
    var woken := WakePhases(store, registry, settings, now);
    ghost var l, db7 := store.log, store.Db();
    var finished;
    ghost var batch;
    finished, batch := Phase8RepairTerminalization(store, terms, settings.batchSize, now);
    GoesOn(store, log, l);
    StepTransitive(store.quiet, terms, db, db7, store.Db(), woken, finished);
    mutations := woken + finished;
    if store.quiet && mutations == 0 && Ample(settings, db) && Opened(db) {
      StepRows(store.quiet, terms, db, db7, 0);
      AmpleStays(settings, db, db7);
      NoneTerminalizable(settings, db7, registry, batch, now);
    }
  }

  /** One pass through the eight phases. Undisturbed, a pass that counts nothing leaves no attempt active if no session
      is registered, and, if the batches hold all rows, leaves nothing for recovery to do. */
  method Pass(store: Store, registry: WorkerRegistry, settings: Settings, now: Time) returns (mutations: nat)
    requires store.Valid() && 1 <= settings.batchSize
    modifies store
    ensures store.Continues(old(store.log))
    ensures RecoveryStep(store.quiet, Given(registry, now + settings.startDeadline, now), old(store.Db()), store.Db(),
                         mutations)
    ensures store.quiet && registry.sessions == map[] && mutations == 0 ==> NoneActive(store.Db())
    ensures store.quiet && mutations == 0 && Ample(settings, old(store.Db())) ==> Recovered(store.Db(), registry, now)
  {
    hide Inv, Evolves, IsRun, Leads, RecoveryStep, NoneActive, Ample, Opened, Recovered;
    ghost var terms := Given(registry, now + settings.startDeadline, now);
    ghost var log, db := store.log, store.Db();
    var started := OpeningPhases(store, registry, settings, now);
    ghost var l2, db2 := store.log, store.Db();
    var settled := SettlePhases(store, registry, settings, now);
    GoesOn(store, log, l2);
    ghost var l4, db4 := store.log, store.Db();
    StepTransitive(store.quiet, terms, db, db2, db4, started, settled);
    if store.quiet && Ample(settings, db) {
      StepRows(store.quiet, terms, db, db4, started + settled);
      AmpleStays(settings, db, db4);
    }
    var finished := LatePhases(store, registry, settings, now);
    GoesOn(store, log, l4);
    StepTransitive(store.quiet, terms, db, db4, store.Db(), started + settled, finished);
    if store.quiet && registry.sessions == map[] && settled == 0 {
      Follows(store, l4, db4);
      NoneToGive(store.quiet, terms, db4, store.Db(), finished);
      StepKeepsNoneActive(db4, store.Db(), finished);
    }
    mutations := started + settled + finished;
  }

  /** Recovery converges: every pass but the last takes from the work left, so that a quiet store is left through
      the exit without mutations whenever the pass limit exceeds the work there was, and after at most one pass
      more than that. Through that exit, with no session registered, no attempt is CLAIMED or RUNNING, whatever
      the batch size; and nothing is left to recover if the batches hold all rows. */
  method RecoverSystem(store: Store, registry: WorkerRegistry, settings: Settings, clock: nat -> Time)
    returns (converged: bool, passes: nat)
    requires store.Valid() && 1 <= settings.batchSize
    modifies store
    ensures store.Continues(old(store.log))
    ensures passes <= settings.maxPasses
    ensures !converged ==> passes == settings.maxPasses
    ensures store.quiet ==>
      && SameRows(old(store.Db()), store.Db())
      && WorkLeft(store.Db()) + passes <= WorkLeft(old(store.Db())) + (if converged then 1 else 0)
    ensures store.quiet && WorkLeft(old(store.Db())) < settings.maxPasses ==> converged
    ensures store.quiet && registry.sessions == map[] ==> store.attempts.Keys == old(store.attempts.Keys)
    ensures store.quiet && converged && registry.sessions == map[] ==> NoneActive(store.Db())
    ensures store.quiet && converged && Ample(settings, old(store.Db())) ==>
              Recovered(store.Db(), registry, clock(passes))
  {
    hide Inv, Evolves, IsRun, Leads, RecoveryStep, NoneActive, WorkLeft, Recovered, Ample;
    ghost var terms := if registry.sessions == map[] then NoneGiven else Unsaid;
    ghost var log, db := store.log, store.Db();
    StandsStill(store);
    StepOthers(store.quiet, terms, db, db);
    converged, passes := false, 0;
    StepMeans(store.quiet, terms, db, db, 0);
    while passes < settings.maxPasses
      invariant passes <= settings.maxPasses && !converged
      invariant store.Continues(log)
      invariant RecoveryStep(store.quiet, terms, db, store.Db(), passes)
      invariant store.quiet && registry.sessions == map[] ==> store.attempts.Keys == db.attempts.Keys
      invariant store.quiet ==> SameRows(db, store.Db()) && WorkLeft(store.Db()) + passes <= WorkLeft(db)
    {
      ghost var l, before := store.log, store.Db();
      if store.quiet && Ample(settings, db) { AmpleStays(settings, db, before); }
      passes := passes + 1;
      var mutations := Pass(store, registry, settings, clock(passes));
      GoesOn(store, log, l);
      Follows(store, l, before);
      ghost var given := Given(registry, clock(passes) + settings.startDeadline, clock(passes));
      if registry.sessions == map[] {
        NoneToGive(store.quiet, given, before, store.Db(), mutations);
      } else {
        StepUnsaid(store.quiet, given, before, store.Db(), mutations);
      }
      StepTransitive(store.quiet, terms, db, before, store.Db(), passes - 1, mutations);
      StepMeans(store.quiet, terms, db, store.Db(), passes - 1 + mutations);
      if mutations == 0 {
        converged := true;
        return;
      }
    }
  }

  lemma StepMeans(quiet: bool, terms: Terms, db: Db, db': Db, n: nat)
    requires RecoveryStep(quiet, terms, db, db', n)
    ensures quiet && terms == NoneGiven ==> db'.attempts.Keys == db.attempts.Keys
    ensures quiet ==> SameRows(db, db') && WorkLeft(db') + n <= WorkLeft(db)
    ensures forall k: nat | k <= n :: RecoveryStep(quiet, terms, db, db', k)
  {
    hide WorkLeft;
  }
}
