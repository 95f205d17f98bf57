/**
  The advancing half of orchestration/scheduler.py: waking due retries, promoting ready tasks, dispatching
  RUNNABLE tasks and settling success. Every method works on rows read earlier while others may commit; what it
  guarantees then is that the store's log goes on by protocol steps only. On a quiet store it also says what it left.
  */
module Promotion {
  import opened Wrappers
  import opened JsonCompat
  import opened Spec
  import opened Rows
  import opened Readiness
  import opened Transactions
  import opened Invariant
  import opened Preservation
  import opened Protocol
  import opened Steps
  import opened Causality
  import opened Quiescence
  import opened Store
  import opened Registry

  // ------------------------------------------------------------------------------ effects on a quiet store

  lemma ReadinessNudges(db: Db, t: TaskId, expected: int, input: JsonObject, now: Time)
    ensures Nudged(db, ReadinessTx(db, db, t, expected, input, now).db, t.workflow)
  {
  }

  lemma RetryReadyNudges(db: Db, t: TaskId, expected: int, now: Time)
    ensures Nudged(db, RetryReadyTx(db, db, t, expected, now).db, t.workflow)
  {
  }

  lemma ClaimNudges(
    db: Db, t: TaskId, expected: int, worker: SessionId, a: AttemptId, deadline: Time, now: Time)
    ensures Nudged(db, ClaimTx(db, db, db, t, expected, worker, a, deadline, now).db, t.workflow)
  {
  }

  /** The rows of workflow w that a SELECT on task_executions returns. */
  function TasksOf(db: Db, w: WorkflowId): set<TaskId> {
    set t | t in db.tasks && t.workflow == w
  }

  /** Every other task row is as it was. */
  ghost predicate OnlyTask(db: Db, db': Db, t: TaskId) {
    db'.tasks.Keys == db.tasks.Keys && forall x | x in db.tasks && x != t :: db'.tasks[x] == db.tasks[x]
  }

  // ------------------------------------------------------------------------------------- due retries

  /** The tasks of w outside todo are not due; those in todo are as they were. */
  ghost predicate AwakeBut(start: Db, db: Db, w: WorkflowId, todo: set<TaskId>, now: Time) {
    forall t | t in start.tasks && t.workflow == w ::
      t in db.tasks && if t in todo then db.tasks[t] == start.tasks[t] else !DueRetry(db.tasks[t], now)
  }

  lemma AwakeStart(db: Db, w: WorkflowId, now: Time)
    ensures AwakeBut(db, db, w, TasksOf(db, w), now)
  {
    forall t | t in db.tasks && t.workflow == w ensures t in TasksOf(db, w) {
    }
  }

  lemma AwakeEnd(start: Db, db: Db, w: WorkflowId, now: Time)
    requires AwakeBut(start, db, w, {}, now) && Touches(start, db, w)
    ensures NoDueRetry(db, w, now)
  {
  }

  lemma AwakeStep(start: Db, before: Db, db: Db, w: WorkflowId, todo: set<TaskId>, t: TaskId, now: Time)
    requires AwakeBut(start, before, w, todo, now) && t in todo
    requires db == before || OnlyTask(before, db, t)
    requires t in db.tasks && !DueRetry(db.tasks[t], now)
    ensures AwakeBut(start, db, w, todo - {t}, now)
  {
  }

  /** Wakes the tasks that the snapshot, read at index at, shows in RETRY_WAIT past their deadline. */
  method PromoteDueRetries(store: Store, w: WorkflowId, snapshot: Db, ghost at: nat, now: Time)
    requires store.Valid() && ReadAt(store.log, at, snapshot)
    modifies store
    ensures store.Continues(old(store.log))
    ensures store.quiet ==> Nudged(old(store.Db()), store.Db(), w) && store.attempts == old(store.attempts)
    ensures store.quiet ==> forall t | t in old(store.tasks) && !DueRetry(old(store.tasks)[t], now) ::
              store.tasks[t] == old(store.tasks)[t]
    ensures store.quiet && snapshot == old(store.Db()) && StateOf(snapshot, w) == Some(WorkflowState.Running) ==>
              NoDueRetry(store.Db(), w, now)
  {
    hide Inv, Evolves, IsRun, Leads, AwakeBut;
    ghost var log, start := store.log, store.Db();
    ghost var exact := store.quiet && snapshot == start && StateOf(snapshot, w) == Some(WorkflowState.Running);
    StandsStill(store);
    NudgedReflexive(start, w);
    AwakeStart(start, w, now);
    var todo := TasksOf(snapshot, w);
    while todo != {}
      invariant todo <= TasksOf(snapshot, w)
      invariant store.Continues(log)
      invariant store.quiet ==> Nudged(start, store.Db(), w) && store.attempts == start.attempts
      invariant store.quiet ==> forall t | t in start.tasks && !DueRetry(start.tasks[t], now) ::
                  store.tasks[t] == start.tasks[t]
      invariant exact ==> AwakeBut(start, store.Db(), w, todo, now)
      decreases todo
    {
      var t :| t in todo;
      ghost var before := store.Db();
      if exact { AwakeRow(start, before, w, todo, t, now); }
      if DueRetry(snapshot.tasks[t], now) {
        ghost var l := store.log;
        ReadLater(log, l, at, snapshot);
        WakeRetry(store, t, snapshot.tasks[t].revision, snapshot, at, now);
        GoesOn(store, log, l);
        if store.quiet { NudgedTransitive(start, before, store.Db(), w); }
      }
      if exact { AwakeStep(start, before, store.Db(), w, todo, t, now); }
      todo := todo - {t};
    }
    if exact { AwakeEnd(start, store.Db(), w, now); }
  }

  lemma AwakeRow(start: Db, db: Db, w: WorkflowId, todo: set<TaskId>, t: TaskId, now: Time)
    requires AwakeBut(start, db, w, todo, now) && t in todo && t in start.tasks && t.workflow == w
    ensures t in db.tasks && db.tasks[t] == start.tasks[t]
  {
  }

  /** One RETRY_WAIT task, read in snapshot. */
  method WakeRetry(store: Store, t: TaskId, expected: int, ghost snapshot: Db, ghost at: nat, now: Time)
    requires store.Valid() && ReadAt(store.log, at, snapshot) && TaskRead(snapshot, t, expected)
    modifies store
    ensures store.Continues(old(store.log))
    ensures store.quiet ==> Nudged(old(store.Db()), store.Db(), t.workflow)
    ensures store.quiet ==> store.attempts == old(store.attempts) && OnlyTask(old(store.Db()), store.Db(), t)
    ensures store.quiet && t in old(store.tasks) && !DueRetry(old(store.tasks)[t], now) ==>
              store.tasks[t] == old(store.tasks)[t]
    ensures (&& store.quiet && TaskRead(old(store.Db()), t, expected) && DueRetry(old(store.tasks)[t], now)
             && StateOf(old(store.Db()), t.workflow) == Some(WorkflowState.Running)) ==>
              store.tasks[t].state.Runnable?
  {
    hide Inv, Evolves, IsRun, Leads, Nudged;
    ghost var db := store.Db();
    var status;
    ghost var g, d;
    status, g, d := store.CommitRetryReady(t, expected, now, at);
    if store.quiet { RetryReadyNudges(db, t, expected, now); }
  }

  // ----------------------------------------------------------------------------------- ready tasks

  /** Definition and input of a workflow, read at seen, are those of any later snapshot. */
  lemma SeenDefinition(seen: Db, snapshot: Db, t: TaskId)
    requires Inv(seen) && Advances(seen, snapshot) && t in snapshot.tasks && t.workflow in seen.workflows
    ensures seen.workflows[t.workflow].definition in seen.definitions
    ensures Declared(snapshot, t)
    ensures t.definition in seen.definitions[seen.workflows[t.workflow].definition].tasks
    ensures DefinitionOf(snapshot, t) == seen.definitions[seen.workflows[t.workflow].definition].tasks[t.definition]
    ensures snapshot.workflows[t.workflow].input == seen.workflows[t.workflow].input
    ensures WellFormedTask(snapshot.definitions[snapshot.workflows[t.workflow].definition].tasks, t.definition)
  {
    hide WorkflowOk, AttemptOk, LedgerOk;
    TaskDeclared(snapshot, t);
    WorkflowDefined(seen, t.workflow);
  }

  lemma WorkflowDefined(db: Db, w: WorkflowId)
    requires w in db.workflows && WorkflowOk(db, w)
    ensures db.workflows[w].definition in db.definitions
  {
  }

  /** Evaluates one task, over the workflow row read in seen and the task rows read in snapshot, and, if it is ready,
      materialises its input. */
  method EvaluateAndPromote(
    store: Store, t: TaskId, seen: Db, ghost i: nat, snapshot: Db, ghost j: nat, now: Time)
    returns (ghost reason: ReadinessReason)
    requires store.Valid() && i <= j && ReadAt(store.log, i, seen) && ReadAt(store.log, j, snapshot)
    requires t in snapshot.tasks && snapshot.tasks[t].state.Pending?
    requires t.workflow in seen.workflows
    modifies store
    ensures store.Continues(old(store.log))
    ensures Answerable(reason)
    ensures store.quiet ==> Nudged(old(store.Db()), store.Db(), t.workflow)
    ensures store.quiet ==> store.attempts == old(store.attempts) && OnlyTask(old(store.Db()), store.Db(), t)
    ensures store.quiet && t in old(store.tasks) && !old(store.tasks)[t].state.Pending? ==>
              store.tasks[t] == old(store.tasks)[t]
    ensures store.quiet && t in old(store.tasks) && old(store.tasks)[t] == snapshot.tasks[t]
            && StateOf(old(store.Db()), t.workflow) == Some(WorkflowState.Running)
            && seen.workflows[t.workflow].state == WorkflowState.Running
            && Declared(snapshot, t) && DependenciesDone(snapshot, t)
            ==> store.tasks[t].state.Runnable?
  {
    hide Inv, Evolves, IsRun, Leads, Nudged, WellFormedTask, TaskNudged, MayAnswer, ResolvedIn;
    StandsStill(store);
    NudgedReflexive(store.Db(), t.workflow);
    Between(store, i, seen, j, snapshot);
    SeenDefinition(seen, snapshot, t);
    SoundAnswers(seen.workflows[t.workflow], snapshot, t);
    var row := seen.workflows[t.workflow];
    var def := seen.definitions[row.definition].tasks[t.definition];
    if exists d | d in def.dependencies :: TaskId(t.workflow, d) !in snapshot.tasks {
      assert false;
      return;
    }
    var s := SnapshotOf(row, def, snapshot, t);
    SourcesAreDeclared(snapshot, t);
    var decision := EvaluateTaskReadiness(s);
    reason := decision.reason;
    if decision.IsReady() {
      ReadyResolves(row, def, snapshot, t, decision.resolvedInput.value);
      PromoteResolved(store, t, snapshot, j, decision.resolvedInput.value, now);
    } else {
      NotReady(row, snapshot, t, decision);
    }
  }

  lemma SourcesAreDeclared(snapshot: Db, t: TaskId)
    requires Declared(snapshot, t)
    requires WellFormedTask(snapshot.definitions[snapshot.workflows[t.workflow].definition].tasks, t.definition)
    ensures SourcesDeclared(DefinitionOf(snapshot, t))
  {
  }

  lemma ReadyResolves(row: WorkflowRow, def: TaskDefinition, snapshot: Db, t: TaskId, input: JsonObject)
    requires t in snapshot.tasks && Declared(snapshot, t) && DefinitionOf(snapshot, t) == def
    requires row.input == snapshot.workflows[t.workflow].input
    requires var s := SnapshotOf(row, def, snapshot, t); Some(input) == ReadyInput(def, s.workflowInput, s.Outputs())
    ensures ResolvedIn(snapshot, t, input)
  {
    SnapshotOutputs(row, def, snapshot, t);
  }

  /** A RUNNING workflow's PENDING task that is not ready has an unfinished dependency: no other reason is left. */
  lemma NotReady(row: WorkflowRow, snapshot: Db, t: TaskId, decision: ReadinessDecision)
    requires t in snapshot.tasks && Declared(snapshot, t)
    requires WellFormedTask(snapshot.definitions[snapshot.workflows[t.workflow].definition].tasks, t.definition)
    requires row.input == snapshot.workflows[t.workflow].input
    requires var s := SnapshotOf(row, DefinitionOf(snapshot, t), snapshot, t);
      row.state == WorkflowState.Running ==>
        decision.resolvedInput == ReadyInput(s.definition, s.workflowInput, s.Outputs())
    requires decision.resolvedInput.None?
    ensures row.state == WorkflowState.Running ==> !DependenciesDone(snapshot, t)
  {
    SnapshotOutputs(row, DefinitionOf(snapshot, t), snapshot, t);
    if row.state == WorkflowState.Running && DependenciesDone(snapshot, t) {
      DependenciesResolve(snapshot, t);
    }
  }

  method PromoteResolved(store: Store, t: TaskId, snapshot: Db, ghost at: nat, input: JsonObject, now: Time)
    requires store.Valid() && ReadAt(store.log, at, snapshot) && ResolvedIn(snapshot, t, input)
    requires t in snapshot.tasks && snapshot.tasks[t].state.Pending?
    modifies store
    ensures store.Continues(old(store.log))
    ensures store.quiet ==> Nudged(old(store.Db()), store.Db(), t.workflow)
    ensures store.quiet ==> store.attempts == old(store.attempts) && OnlyTask(old(store.Db()), store.Db(), t)
    ensures store.quiet && t in old(store.tasks) && !old(store.tasks)[t].state.Pending? ==>
              store.tasks[t] == old(store.tasks)[t]
    ensures store.quiet && t in old(store.tasks) && old(store.tasks)[t] == snapshot.tasks[t]
            && StateOf(old(store.Db()), t.workflow) == Some(WorkflowState.Running)
            ==> store.tasks[t].state.Runnable?
  {
    hide Inv, Evolves, IsRun, Leads, Nudged, ResolvedIn;
    ghost var db := store.Db();
    var status;
    ghost var g, d;
    status, g, d := store.CommitTaskReadiness(t, snapshot.tasks[t].revision, input, now, at);
    if store.quiet { ReadinessNudges(db, t, snapshot.tasks[t].revision, input, now); }
  }

  /** Evaluates every task that the snapshot shows PENDING. */
  method PromoteReady(store: Store, w: WorkflowId, seen: Db, ghost i: nat, snapshot: Db, ghost j: nat, now: Time)
    requires store.Valid() && i <= j && ReadAt(store.log, i, seen) && ReadAt(store.log, j, snapshot)
    requires w in seen.workflows
    modifies store
    ensures store.Continues(old(store.log))
    ensures store.quiet ==> Nudged(old(store.Db()), store.Db(), w) && store.attempts == old(store.attempts)
    ensures store.quiet ==> forall t | t in old(store.tasks) && !old(store.tasks)[t].state.Pending? ::
              store.tasks[t] == old(store.tasks)[t]
    ensures store.quiet && seen.workflows[w].state == WorkflowState.Running
            && StateOf(old(store.Db()), w) == Some(WorkflowState.Running)
            && (forall t | t in TasksOf(snapshot, w) && snapshot.tasks[t].state.Pending? ::
                  t in old(store.tasks) && old(store.tasks)[t] == snapshot.tasks[t])
            ==> forall t | t in TasksOf(snapshot, w) && snapshot.tasks[t].state.Pending?
                           && Declared(snapshot, t) && DependenciesDone(snapshot, t) ::
                  t in store.tasks && !store.tasks[t].state.Pending?
  {
    hide Inv, Evolves, IsRun, Leads, DependenciesDone, Declared, Nudged;
    ghost var log, start := store.log, store.Db();
    StandsStill(store);
    NudgedReflexive(start, w);
    var todo := TasksOf(snapshot, w);
    ghost var holds := store.quiet && seen.workflows[w].state == WorkflowState.Running
      && StateOf(start, w) == Some(WorkflowState.Running)
      && (forall t | t in TasksOf(snapshot, w) && snapshot.tasks[t].state.Pending? ::
            t in start.tasks && start.tasks[t] == snapshot.tasks[t]);
    while todo != {}
      invariant todo <= TasksOf(snapshot, w)
      invariant store.Continues(log)
      invariant store.quiet ==> Nudged(start, store.Db(), w) && store.attempts == start.attempts
      invariant store.quiet ==> forall t | t in start.tasks && !start.tasks[t].state.Pending? ::
                  t in store.tasks && store.tasks[t] == start.tasks[t]
      invariant holds ==> forall t | t in todo && snapshot.tasks[t].state.Pending? ::
                  t in store.tasks && store.tasks[t] == snapshot.tasks[t]
      invariant holds ==> forall t | t in TasksOf(snapshot, w) && t !in todo && snapshot.tasks[t].state.Pending?
                                     && Declared(snapshot, t) && DependenciesDone(snapshot, t) ::
                  t in store.tasks && !store.tasks[t].state.Pending?
      decreases todo
    {
      var t :| t in todo;
      todo := todo - {t};
      if snapshot.tasks[t].state.Pending? {
        ghost var l, before := store.log, store.Db();
        ReadLater(log, l, i, seen);
        ReadLater(log, l, j, snapshot);
        if store.quiet { NudgedMeans(start, before, w); }
        ghost var _ := EvaluateAndPromote(store, t, seen, i, snapshot, j, now);
        GoesOn(store, log, l);
        if store.quiet { NudgedTransitive(start, before, store.Db(), w); }
      }
    }
  }

  // -------------------------------------------------------------------------------------- dispatch

  /** The RUNNABLE tasks of w outside todo have no session to go to; those in todo are as they were. */
  ghost predicate OfferedBut(
    start: Db, db: Db, registry: WorkerRegistry, w: WorkflowId, definitions: map<string, TaskDefinition>,
    todo: set<TaskId>, now: Time)
    reads registry
  {
    forall t | t in start.tasks && t.workflow == w ::
      && t in db.tasks
      && if t in todo then db.tasks[t] == start.tasks[t]
         else db.tasks[t].state.Runnable? && t.definition in definitions ==>
           registry.NoneEligible(definitions[t.definition].activityType, now)
  }

  lemma OfferedStart(
    db: Db, registry: WorkerRegistry, w: WorkflowId, definitions: map<string, TaskDefinition>, now: Time)
    ensures OfferedBut(db, db, registry, w, definitions, TasksOf(db, w), now)
  {
    forall t | t in db.tasks && t.workflow == w ensures t in TasksOf(db, w) {
    }
  }

  lemma OfferedEnd(
    start: Db, db: Db, registry: WorkerRegistry, w: WorkflowId, definitions: map<string, TaskDefinition>, now: Time)
    requires OfferedBut(start, db, registry, w, definitions, {}, now) && Touches(start, db, w)
    ensures AllOffered(db, registry, w, definitions, now)
  {
  }

  lemma OfferedStep(
    start: Db, before: Db, db: Db, registry: WorkerRegistry, w: WorkflowId, definitions: map<string, TaskDefinition>,
    todo: set<TaskId>, t: TaskId, now: Time)
    requires OfferedBut(start, before, registry, w, definitions, todo, now) && t in todo
    requires db == before || OnlyTask(before, db, t)
    requires t in db.tasks
    requires db.tasks[t].state.Runnable? && t.definition in definitions ==>
      registry.NoneEligible(definitions[t.definition].activityType, now)
    ensures OfferedBut(start, db, registry, w, definitions, todo - {t}, now)
  {
  }

  lemma OfferedRow(
    start: Db, db: Db, registry: WorkerRegistry, w: WorkflowId, definitions: map<string, TaskDefinition>,
    todo: set<TaskId>, t: TaskId, now: Time)
    requires OfferedBut(start, db, registry, w, definitions, todo, now)
    requires t in todo && t in start.tasks && t.workflow == w
    ensures t in db.tasks && db.tasks[t] == start.tasks[t]
  {
  }

  /** The attempt is of a task of w, given to an eligible session with the given start deadline. */
  ghost predicate GivenTo(
    row: AttemptRow, registry: WorkerRegistry, w: WorkflowId, definitions: map<string, TaskDefinition>, deadline: Time,
    now: Time)
    reads registry
  {
    && row.task.workflow == w && row.task.definition in definitions && row.startDeadline == deadline
    && registry.Eligible(row.worker, definitions[row.task.definition].activityType, now)
  }

  /** Every attempt that db does not have was given to an eligible session, for a task of w that was RUNNABLE in db,
      with the given start deadline. */
  ghost predicate GivenOut(
    db: Db, db': Db, registry: WorkerRegistry, w: WorkflowId, definitions: map<string, TaskDefinition>, deadline: Time,
    now: Time)
    reads registry
  {
    forall a | a in db'.attempts && a !in db.attempts ::
      && GivenTo(db'.attempts[a], registry, w, definitions, deadline, now)
      && db'.attempts[a].task in db.tasks && db.tasks[db'.attempts[a].task].state.Runnable?
  }

  /** The one attempt that may be new is of task t, for the worker, with the deadline. */
  ghost predicate OneGiven(db: Db, db': Db, t: TaskId, worker: SessionId, deadline: Time) {
    && (forall a | a in db.attempts :: a in db'.attempts && db'.attempts[a] == db.attempts[a])
    && (forall a | a in db'.attempts && a !in db.attempts ::
          var row := db'.attempts[a]; row.task == t && row.worker == worker && row.startDeadline == deadline)
  }

  lemma GivenStep(
    start: Db, before: Db, db: Db, registry: WorkerRegistry, w: WorkflowId, definitions: map<string, TaskDefinition>,
    t: TaskId, worker: SessionId, deadline: Time, now: Time)
    requires GivenOut(start, before, registry, w, definitions, deadline, now)
    requires OneGiven(before, db, t, worker, deadline)
    requires t in start.tasks && t.workflow == w && start.tasks[t].state.Runnable? && t.definition in definitions
    requires registry.Eligible(worker, definitions[t.definition].activityType, now)
    ensures GivenOut(start, db, registry, w, definitions, deadline, now)
  {
  }

  lemma NoneGiven(
    db: Db, db': Db, registry: WorkerRegistry, w: WorkflowId, definitions: map<string, TaskDefinition>, deadline: Time,
    now: Time)
    requires db'.attempts.Keys == db.attempts.Keys
    ensures GivenOut(db, db', registry, w, definitions, deadline, now)
  {
  }

  /** Offers every RUNNABLE task to an eligible worker. */
  method DispatchRunnable(
    store: Store, registry: WorkerRegistry, w: WorkflowId, spec: ValidatedWorkflowSpec, startDeadline: Time, now: Time)
    requires store.Valid()
    modifies store
    ensures store.Continues(old(store.log))
    ensures store.quiet ==> Nudged(old(store.Db()), store.Db(), w)
    ensures store.quiet && registry.sessions == map[] ==> store.attempts == old(store.attempts)
    ensures store.quiet && StateOf(old(store.Db()), w) == Some(WorkflowState.Running) ==>
              AllOffered(store.Db(), registry, w, spec.tasks, now)
    ensures store.quiet ==>
      GivenOut(old(store.Db()), store.Db(), registry, w, spec.tasks, now + startDeadline, now)
  {
    hide Inv, Evolves, IsRun, Leads, OfferedBut, AllOffered, GivenOut, OneGiven;
    ghost var log, start, at := store.log, store.Db(), store.Now();
    ghost var exact := store.quiet && StateOf(start, w) == Some(WorkflowState.Running);
    StandsStill(store);
    NudgedReflexive(start, w);
    OfferedStart(start, registry, w, spec.tasks, now);
    NoneGiven(start, start, registry, w, spec.tasks, now + startDeadline, now);
    var snapshot := store.Db();
    var todo := TasksOf(snapshot, w);
    while todo != {}
      invariant todo <= TasksOf(snapshot, w)
      invariant store.Continues(log)
      invariant store.quiet ==> Nudged(start, store.Db(), w)
      invariant store.quiet && registry.sessions == map[] ==> store.attempts == start.attempts
      invariant exact ==> OfferedBut(start, store.Db(), registry, w, spec.tasks, todo, now)
      invariant store.quiet ==>
        GivenOut(start, store.Db(), registry, w, spec.tasks, now + startDeadline, now)
      decreases todo
    {
      var t :| t in todo;
      ghost var before := store.Db();
      if exact { OfferedRow(start, before, registry, w, spec.tasks, todo, t, now); }
      if snapshot.tasks[t].state.Runnable? && t.definition in spec.tasks {
        var worker := registry.FindEligibleWorker(spec.tasks[t.definition].activityType, now);
        if worker.Some? {
          ghost var l := store.log;
          ReadLater(log, l, at, snapshot);
          ClaimFor(store, t, snapshot.tasks[t].revision, worker.value, now + startDeadline, snapshot, at, now);
          GoesOn(store, log, l);
          if store.quiet {
            NudgedTransitive(start, before, store.Db(), w);
            GivenStep(start, before, store.Db(), registry, w, spec.tasks, t, worker.value, now + startDeadline, now);
          }
        }
      }
      if exact { OfferedStep(start, before, store.Db(), registry, w, spec.tasks, todo, t, now); }
      todo := todo - {t};
    }
    if exact { OfferedEnd(start, store.Db(), registry, w, spec.tasks, now); }
  }

  /** A RUNNABLE task of a RUNNING workflow can be claimed: nothing else stands in the way. */
  lemma ClaimSucceeds(
    db: Db, t: TaskId, expected: int, worker: SessionId, a: AttemptId, deadline: Time, now: Time)
    requires Inv(db) && TaskRead(db, t, expected) && db.tasks[t].state.Runnable? && a !in db.attempts
    requires StateOf(db, t.workflow) == Some(WorkflowState.Running)
    ensures var r := ClaimTx(db, db, db, t, expected, worker, a, deadline, now);
      r.status == Committed && t in r.db.tasks && r.db.tasks[t].state == TaskState.Running
  {
    hide WorkflowOk, LedgerOk;
    ClaimFits(db, t, a);
  }

  /** Claims task t, read RUNNABLE in snapshot, for a worker. */
  method ClaimFor(
    store: Store, t: TaskId, expected: int, worker: SessionId, deadline: Time, ghost snapshot: Db, ghost at: nat,
    now: Time)
    requires store.Valid() && ReadAt(store.log, at, snapshot) && TaskRead(snapshot, t, expected)
    modifies store
    ensures store.Continues(old(store.log))
    ensures store.quiet ==> Nudged(old(store.Db()), store.Db(), t.workflow) && OnlyTask(old(store.Db()), store.Db(), t)
    ensures store.quiet ==> OneGiven(old(store.Db()), store.Db(), t, worker, deadline)
    ensures (&& store.quiet && TaskRead(old(store.Db()), t, expected) && old(store.tasks)[t].state.Runnable?
             && StateOf(old(store.Db()), t.workflow) == Some(WorkflowState.Running)) ==>
              store.tasks[t].state == TaskState.Running
  {
    hide Inv, Evolves, IsRun, Leads, Nudged;
    ghost var db := store.Db();
    var a := store.NewAttemptId();
    var status;
    ghost var g1, g2, d;
    status, g1, g2, d := store.CommitAttemptOwnership(t, expected, worker, a, deadline, now, at);
    if store.quiet {
      ClaimNudges(db, t, expected, worker, a, deadline, now);
      if TaskRead(db, t, expected) && db.tasks[t].state.Runnable?
         && StateOf(db, t.workflow) == Some(WorkflowState.Running) {
        ClaimSucceeds(db, t, expected, worker, a, deadline, now);
      }
    }
  }

  // --------------------------------------------------------------------------------- workflow success

  function IdsOf(w: WorkflowId, names: set<string>): set<TaskId> {
    set k | k in names :: TaskId(w, k)
  }

  lemma {:induction false} IdsCount(w: WorkflowId, names: set<string>)
    ensures |IdsOf(w, names)| == |names|
  {
    if names == {} {
    } else {
      var k :| k in names;
      IdsCount(w, names - {k});
      assert IdsOf(w, names) == IdsOf(w, names - {k}) + {TaskId(w, k)};
    }
  }

  /** All tasks of w are there exactly when their number is that of the declared ones. */
  lemma TaskCount(db: Db, w: WorkflowId, tasks: map<string, TaskDefinition>)
    requires forall t | t in db.tasks && t.workflow == w :: t.definition in tasks
    ensures |TasksOf(db, w)| == |tasks| <==> forall k | k in tasks :: TaskId(w, k) in db.tasks
  {
    forall t | t in TasksOf(db, w) ensures t in IdsOf(w, tasks.Keys) {
      assert t == TaskId(w, t.definition);
    }
    IdsCount(w, tasks.Keys);
    assert |tasks.Keys| == |tasks|;
    if |TasksOf(db, w)| == |tasks| {
      SubsetSize(IdsOf(w, tasks.Keys), TasksOf(db, w));
      forall k | k in tasks ensures TaskId(w, k) in db.tasks {
        assert TaskId(w, k) in IdsOf(w, tasks.Keys);
      }
    }
    if forall k | k in tasks :: TaskId(w, k) in db.tasks {
      assert TasksOf(db, w) == IdsOf(w, tasks.Keys);
    }
  }

  /** The task outputs the success settlement reads. */
  function OutputsIn(snapshot: Db, w: WorkflowId, names: set<string>): map<string, PyValue> {
    map k | k in names && TaskId(w, k) in snapshot.tasks :: snapshot.tasks[TaskId(w, k)].output.GetOr(PyNone)
  }

  /** What SUCCEEDED settles: the state, and the bound outputs of the tasks. */
  ghost predicate SucceededWith(db: Db, db': Db, w: WorkflowId, bindings: map<string, string>, names: set<string>) {
    && w in db'.workflows && db'.workflows[w].state == WorkflowState.Succeeded
    && db'.workflows[w].output.Some?
    && (bindings == map[] ==> db'.workflows[w].output.value == PyNone)
    && (bindings != map[] ==>
          var output := db'.workflows[w].output.value;
          && output.PyProxy? && output.entries.Keys == (set o | o in bindings :: StrKey(o))
          && forall o | o in bindings ::
               && bindings[o] in names && TaskId(w, bindings[o]) in db.tasks
               && output.entries[StrKey(o)] ==
                  match db.tasks[TaskId(w, bindings[o])].output { case Some(v) => v case None => PyNone })
  }

  ghost predicate OnlyWorkflowMoved(db: Db, db': Db, w: WorkflowId) {
    && Touches(db, db', w) && db'.tasks == db.tasks && db'.attempts == db.attempts
  }

  /** A membership transition on its own reads moves the row of its workflow, or nothing. */
  lemma MembershipTouches(
    db: Db, w: WorkflowId, expected: int, from: WorkflowState, counted: set<TaskState>, to: WorkflowState,
    output: Option<PyValue>, event: Event, now: Time)
    ensures var r := MembershipTx(db, db, db, w, expected, from, counted, to, output, event, now);
      OnlyWorkflowMoved(db, r.db, w) && (r.status == Committed ==> r.db.workflows != db.workflows)
  {
    hide MembershipGuard;
    var r := MembershipTx(db, db, db, w, expected, from, counted, to, output, event, now);
    if r.status == Committed {
      assert r.db.workflows[w].revision != db.workflows[w].revision;
    }
  }

  /** The workflow's revision was read in seen, its tasks in snapshot. */
  method TrySucceedWorkflow(
    store: Store, w: WorkflowId, revision: int, spec: ValidatedWorkflowSpec, ghost seen: Db, ghost at: nat,
    snapshot: Db, now: Time)
    requires store.Valid() && ReadAt(store.log, at, seen) && WorkflowRead(seen, w, revision)
    requires forall o | o in spec.outputBindings :: spec.outputBindings[o] in spec.tasks
    requires forall k | k in spec.tasks :: TaskId(w, k) in snapshot.tasks
    modifies store
    ensures store.Continues(old(store.log))
    ensures store.quiet ==> OnlyWorkflowMoved(old(store.Db()), store.Db(), w)
    ensures store.quiet && w in old(store.workflows)
            && MembershipGuard(old(store.Db()), old(store.Db()), w, revision, WorkflowState.Running,
                               {TaskState.Succeeded}) == Committed
            ==> SucceededWith(snapshot, store.Db(), w, spec.outputBindings, spec.tasks.Keys)
  {
    hide Inv, Evolves, IsRun, Leads, TaskNames;
    ghost var db := store.Db();
    var outputs := OutputsIn(snapshot, w, spec.tasks.Keys);
    var resolution := ResolveWorkflowOutputs(spec.outputBindings, outputs);
    assert resolution.Resolved?;
    var status;
    ghost var g1, g2, d;
    status, g1, g2, d := store.CommitWorkflowSuccess(w, revision, resolution.output, now, at);
    if store.quiet {
      MembershipTouches(db, w, revision, WorkflowState.Running, {TaskState.Succeeded}, WorkflowState.Succeeded,
                        Some(resolution.output), WorkflowExecutionSucceeded, now);
    }
  }

  // ---------------------------------------------------------------------------------------- advancing

  /** What advancing a RUNNING workflow without FAILED tasks leaves on a quiet store: success if every task had
      SUCCEEDED, and otherwise nothing promotable. */
  lemma AdvancedRests(db: Db, db': Db, w: WorkflowId)
    requires Nudged(db, db', w) && w in db.workflows && db.workflows[w].state == WorkflowState.Running
    requires !SomeTaskFailed(db, w) && !AllTasksIn(db, w, {TaskState.Succeeded})
    requires forall t | t in db.tasks && t.workflow == w :: Declared(db, t)
    requires forall t | t in TasksOf(db, w) && db.tasks[t].state.Pending? && DependenciesDone(db, t) ::
               t in db'.tasks && !db'.tasks[t].state.Pending?
    ensures Quiescent(db', w)
  {
    if SomeTaskFailed(db', w) {
      var t :| FailedTaskOf(db', w, t);
      assert FailedTaskOf(db, w, t);
    }
    var t :| t in db.tasks && t.workflow == w && db.tasks[t].state !in {TaskState.Succeeded};
    assert TaskNudged(db.tasks[t], db'.tasks[t]);
    assert db'.tasks[t].state !in {TaskState.Succeeded};
    forall x | x in db'.tasks && x.workflow == w ensures Waiting(db', x) {
      if db'.tasks[x].state.Pending? {
        assert TaskNudged(db.tasks[x], db'.tasks[x]) && x in TasksOf(db, w);
        StillBlocked(db, db', x);
      }
    }
  }

  lemma StillBlocked(db: Db, db': Db, t: TaskId)
    requires Nudged(db, db', t.workflow) && Declared(db, t) && !DependenciesDone(db, t)
    ensures Declared(db', t) && !DependenciesDone(db', t)
  {
    var d :| d in DefinitionOf(db, t).dependencies
      && !(TaskId(t.workflow, d) in db.tasks && db.tasks[TaskId(t.workflow, d)].state.Succeeded?
           && db.tasks[TaskId(t.workflow, d)].output.Some?);
    var u := TaskId(t.workflow, d);
    if u in db.tasks { assert TaskNudged(db.tasks[u], db'.tasks[u]); }
    assert d in DefinitionOf(db', t).dependencies;
  }

  /** Task t could be given out by an advance at time now: its dependencies are done, and it is RUNNABLE, PENDING or a
      due retry. */
  ghost predicate MayRun(db: Db, t: TaskId, now: Time) {
    && t in db.tasks && Declared(db, t) && DependenciesDone(db, t)
    && var row := db.tasks[t];
    || row.state.Runnable? || row.state.Pending?
    || (row.state.RetryWait? && row.retryReadyAt.Some? && row.retryReadyAt.value <= now)
  }

  /** As GivenOut, seen from before the promotions. */
  ghost predicate HandedOut(
    db: Db, db': Db, registry: WorkerRegistry, w: WorkflowId, definitions: map<string, TaskDefinition>, deadline: Time,
    now: Time)
    reads registry
  {
    forall a | a in db'.attempts && a !in db.attempts ::
      GivenTo(db'.attempts[a], registry, w, definitions, deadline, now) && MayRun(db, db'.attempts[a].task, now)
  }

  /** Every attempt that db does not have was given to a session eligible for its activity, with the given start
      deadline. */
  ghost predicate NewcomersGiven(db: Db, db': Db, registry: WorkerRegistry, deadline: Time, now: Time)
    reads registry
  {
    forall a | a in db'.attempts && a !in db.attempts ::
      var row := db'.attempts[a];
      && Declared(db', row.task) && row.startDeadline == deadline
      && registry.Eligible(row.worker, DefinitionOf(db', row.task).activityType, now)
  }

  lemma NoNewcomers(db: Db, db': Db, registry: WorkerRegistry, deadline: Time, now: Time)
    requires db'.attempts.Keys == db.attempts.Keys
    ensures NewcomersGiven(db, db', registry, deadline, now)
  {
  }

  lemma NewcomersTransitive(a: Db, b: Db, c: Db, registry: WorkerRegistry, deadline: Time, now: Time)
    requires NewcomersGiven(a, b, registry, deadline, now) && NewcomersGiven(b, c, registry, deadline, now)
    requires Evolves(b, c)
    ensures NewcomersGiven(a, c, registry, deadline, now)
  {
    forall x | x in c.attempts && x !in a.attempts
      ensures Declared(c, c.attempts[x].task) && c.attempts[x].startDeadline == deadline
      ensures registry.Eligible(c.attempts[x].worker, DefinitionOf(c, c.attempts[x].task).activityType, now)
    {
      if x in b.attempts { assert AttemptEvolves(b.attempts[x], c.attempts[x]) && Declared(b, b.attempts[x].task); }
    }
  }

  lemma HandedAreGiven(db: Db, db': Db, registry: WorkerRegistry, w: WorkflowId, deadline: Time, now: Time)
    requires w in db.workflows && db.workflows[w].definition in db.definitions && Evolves(db, db')
    requires HandedOut(db, db', registry, w, db.definitions[db.workflows[w].definition].tasks, deadline, now)
    ensures NewcomersGiven(db, db', registry, deadline, now)
  {
  }

  /** What is RUNNABLE after the promotions could be given out before them. */
  lemma RunnableMayRun(db: Db, woken: Db, promoted: Db, t: TaskId, now: Time)
    requires Inv(promoted) && Nudged(db, promoted, t.workflow)
    requires t in promoted.tasks && t in db.tasks && t in woken.tasks && promoted.tasks[t].state.Runnable?
    requires !DueRetry(db.tasks[t], now) ==> woken.tasks[t] == db.tasks[t]
    requires !woken.tasks[t].state.Pending? ==> promoted.tasks[t] == woken.tasks[t]
    ensures MayRun(db, t, now)
  {
    hide Inv;
    RunnableHasInput(promoted, t);
    CausalInput(promoted, t);
    assert TaskNudged(db.tasks[t], promoted.tasks[t]);
    assert Declared(db, t) && DefinitionOf(db, t) == DefinitionOf(promoted, t);
    forall d | d in DefinitionOf(db, t).dependencies
      ensures TaskId(t.workflow, d) in db.tasks && db.tasks[TaskId(t.workflow, d)].state.Succeeded?
              && db.tasks[TaskId(t.workflow, d)].output.Some?
    {
      assert TaskNudged(db.tasks[TaskId(t.workflow, d)], promoted.tasks[TaskId(t.workflow, d)]);
    }
  }

  lemma RunnableHasInput(db: Db, t: TaskId)
    requires Inv(db) && t in db.tasks && db.tasks[t].state.Runnable?
    ensures db.tasks[t].input.Some?
  {
    hide WorkflowOk, AttemptOk, LedgerOk;
    assert TaskOk(db, t);
  }

  lemma GivenIsHanded(
    db: Db, woken: Db, promoted: Db, db': Db, registry: WorkerRegistry, w: WorkflowId,
    definitions: map<string, TaskDefinition>, deadline: Time, now: Time)
    requires Inv(promoted) && Nudged(db, promoted, w) && promoted.attempts == db.attempts
    requires woken.tasks.Keys == db.tasks.Keys && promoted.tasks.Keys == db.tasks.Keys
    requires forall t | t in db.tasks && !DueRetry(db.tasks[t], now) :: woken.tasks[t] == db.tasks[t]
    requires forall t | t in woken.tasks && !woken.tasks[t].state.Pending? :: promoted.tasks[t] == woken.tasks[t]
    requires GivenOut(promoted, db', registry, w, definitions, deadline, now)
    ensures HandedOut(db, db', registry, w, definitions, deadline, now)
  {
    hide Inv, Nudged, MayRun;
    forall a | a in db'.attempts && a !in db.attempts ensures MayRun(db, db'.attempts[a].task, now) {
      RunnableMayRun(db, woken, promoted, db'.attempts[a].task, now);
    }
  }

  /** Steps 2 to 4 of an advance, once the workflow was read RUNNING in seen and its tasks in snapshot. */
  method AdvanceTasks(
    store: Store, registry: WorkerRegistry, w: WorkflowId, seen: Db, ghost i: nat, snapshot: Db, ghost j: nat,
    startDeadline: Time, now: Time)
    requires store.Valid() && i <= j && ReadAt(store.log, i, seen) && ReadAt(store.log, j, snapshot)
    requires w in seen.workflows && seen.workflows[w].state == WorkflowState.Running
    requires seen.workflows[w].definition in seen.definitions
    modifies store
    ensures store.Continues(old(store.log))
    ensures store.quiet ==> Nudged(old(store.Db()), store.Db(), w)
    ensures store.quiet && registry.sessions == map[] ==> store.attempts == old(store.attempts)
    ensures store.quiet && old(store.Db()) == snapshot == seen ==>
      forall t | t in TasksOf(snapshot, w) && snapshot.tasks[t].state.Pending?
                 && Declared(snapshot, t) && DependenciesDone(snapshot, t) ::
        t in store.tasks && !store.tasks[t].state.Pending?
    ensures store.quiet && old(store.Db()) == snapshot == seen ==>
      && NoDueRetry(store.Db(), w, now)
      && AllOffered(store.Db(), registry, w, seen.definitions[seen.workflows[w].definition].tasks, now)
    ensures store.quiet ==>
      HandedOut(old(store.Db()), store.Db(), registry, w, seen.definitions[seen.workflows[w].definition].tasks,
                now + startDeadline, now)
  {
    hide Inv, Evolves, IsRun, Leads, DependenciesDone, Declared, NoDueRetry, AllOffered, Nudged, GivenOut, HandedOut;
    ghost var log, start := store.log, store.Db();
    var spec := seen.definitions[seen.workflows[w].definition];
    PromoteDueRetries(store, w, snapshot, j, now);
    ghost var l1, woken := store.log, store.Db();
    ReadLater(log, l1, i, seen);
    ReadLater(log, l1, j, snapshot);
    if store.quiet { NudgedMeans(start, woken, w); }
    PromoteReady(store, w, seen, i, snapshot, j, now);
    GoesOn(store, log, l1);
    ghost var l2, promoted := store.log, store.Db();
    if store.quiet { NudgedMeans(woken, promoted, w); }
    DispatchRunnable(store, registry, w, spec, startDeadline, now);
    GoesOn(store, log, l2);
    if store.quiet {
      NudgedTransitive(start, woken, promoted, w);
      NudgedTransitive(start, promoted, store.Db(), w);
      NudgedMeans(promoted, store.Db(), w);
      GivenIsHanded(start, woken, promoted, store.Db(), registry, w, spec.tasks, now + startDeadline, now);
      if start == snapshot == seen {
        NudgedTransitive(woken, promoted, store.Db(), w);
        NoDueRetryKept(woken, store.Db(), w, now);
      }
    }
  }
}
