/** The scheduler's entry points (orchestration/scheduler.py): advancing one workflow, and the two sweeps. */
module Scheduler {
  import opened Wrappers
  import opened Rows
  import opened Transactions
  import opened Invariant
  import opened Preservation
  import opened Settlement
  import opened Failure
  import opened Protocol
  import opened Steps
  import opened Causality
  import opened Quiescence
  import opened Store
  import opened Registry
  import opened Promotion
  import opened Drain

  /** A workflow that has left INITIALIZING, other than by cancellation, has all its tasks. */
  lemma RunningHasTasks(db: Db, w: WorkflowId)
    requires Inv(db) && w in db.workflows
    ensures db.workflows[w].definition in db.definitions
    ensures !db.workflows[w].state.Initializing? && !db.workflows[w].state.Cancelling? ==> FullMembership(db, w)
    ensures var spec := db.definitions[db.workflows[w].definition];
      forall o | o in spec.outputBindings :: spec.outputBindings[o] in spec.tasks
  {
    hide TaskOk, AttemptOk, LedgerOk;
    assert WorkflowOk(db, w);
  }

  /** What advancing workflow w at time now does when nobody interferes. */
  ghost predicate Advanced(
    db: Db, db': Db, registry: WorkerRegistry, startDeadline: Time, w: WorkflowId, now: Time)
    requires w in db.workflows
    reads registry
  {
    && Touches(db, db', w)
    && w in db'.workflows
    && Served(db', registry, w, now)
    && (db.workflows[w].definition in db.definitions ==>
          HandedOut(db, db', registry, w, db.definitions[db.workflows[w].definition].tasks, now + startDeadline, now))
    && (db.workflows[w].state == WorkflowState.Running && !SomeTaskFailed(db, w) ==> Quiescent(db', w))
    && (db.workflows[w].state == WorkflowState.Running
        && db.workflows[w].definition in db.definitions && AllTasksIn(db, w, {TaskState.Succeeded}) ==>
          var spec := db.definitions[db.workflows[w].definition];
          SucceededWith(db, db', w, spec.outputBindings, spec.tasks.Keys))
    && (IsDraining(db, w) && HasItsTasks(db, w) ==> Quiescent(db', w))
    && (IsDraining(db, w) ==> OnlyEnds(db, db', {}, now))
    && (db.workflows[w].state == WorkflowState.Running && AllTasksIn(db, w, {TaskState.Succeeded}) ==>
          OnlyWorkflowMoved(db, db', w))
    && (db.workflows[w].state == WorkflowState.Running && !AllTasksIn(db, w, {TaskState.Succeeded}) ==>
          Nudged(db, db', w))
    && (db.workflows[w].state != WorkflowState.Running && !IsDraining(db, w) ==> db' == db)
  }

  method AdvanceWorkflow(
    store: Store, registry: WorkerRegistry, startDeadline: Time, w: WorkflowId, now: Time)
    requires store.Valid()
    modifies store
    ensures store.Continues(old(store.log))
    ensures store.quiet && w in old(store.workflows) ==>
              Advanced(old(store.Db()), store.Db(), registry, startDeadline, w, now)
    ensures store.quiet && registry.sessions == map[] ==> store.attempts.Keys == old(store.attempts.Keys)
  {
    hide Inv, Evolves, IsRun, Leads, Advanced, Drained, FullMembership, Touches;
    ghost var log, db, i := store.log, store.Db(), store.Now();
    StandsStill(store);
    var seen := store.Db();
    if w !in seen.workflows {
      return;
    }
    var row := seen.workflows[w];
    RunningHasTasks(seen, w);
    if row.state.Draining() {
      DrainWorkflow(store, w, now);
      if store.quiet { DrainingAdvanced(db, store.Db(), registry, startDeadline, w, now); }
      return;
    }
    if row.state != WorkflowState.Running {
      RestingAdvanced(db, registry, startDeadline, w, now);
      return;
    }
    store.Others();
    var snapshot := store.Db();
    ghost var l, j := store.log, store.Now();
    ReadLater(log, l, i, seen);
    store.Others();
    GoesOn(store, log, l);
    ReadLater(l, store.log, j, snapshot);
    ReadLater(l, store.log, i, seen);
    l := store.log;
    AdvanceRunning(store, registry, startDeadline, w, seen, i, snapshot, j, now);
    GoesOn(store, log, l);
  }

  lemma DrainingAdvanced(
    db: Db, db': Db, registry: WorkerRegistry, startDeadline: Time, w: WorkflowId, now: Time)
    requires IsDraining(db, w) && Touches(db, db', w) && Evolves(db, db') && db'.attempts.Keys == db.attempts.Keys
    requires HasItsTasks(db, w) ==> Drained(db, db', w, now)
    requires OnlyEnds(db, db', {}, now)
    ensures Advanced(db, db', registry, startDeadline, w, now)
  {
    if HasItsTasks(db, w) { DrainedRests(db, db', w, now); }
    hide Drained, Quiescent, NoDueRetry, AllOffered, SucceededWith;
    StillHasTasks(db, db', w);
  }

  lemma StillHasTasks(db: Db, db': Db, w: WorkflowId)
    requires Touches(db, db', w) && Evolves(db, db') && w in db.workflows
    ensures HasItsTasks(db', w) ==> HasItsTasks(db, w)
  {
  }

  lemma RestingAdvanced(db: Db, registry: WorkerRegistry, startDeadline: Time, w: WorkflowId, now: Time)
    requires w in db.workflows && !db.workflows[w].state.Draining() && db.workflows[w].state != WorkflowState.Running
    ensures Advanced(db, db, registry, startDeadline, w, now)
  {
  }

  lemma WorkflowExists(s: Db, db: Db, t: TaskId)
    requires Inv(s) && Advances(s, db) && t in s.tasks
    ensures t.workflow in db.workflows
  {
    hide WorkflowOk, AttemptOk, LedgerOk;
    TaskDeclared(s, t);
  }

  lemma AdvanceServes(
    db: Db, db': Db, registry: WorkerRegistry, startDeadline: Time, w: WorkflowId, now: Time)
    requires w in db.workflows && Advanced(db, db', registry, startDeadline, w, now)
    ensures w in db'.workflows && Served(db', registry, w, now)
  {
  }

  /** Whatever an advance gives out goes to eligible sessions. */
  lemma AdvanceGives(
    db: Db, db': Db, registry: WorkerRegistry, startDeadline: Time, w: WorkflowId, now: Time)
    requires Inv(db) && w in db.workflows && Evolves(db, db')
    requires Advanced(db, db', registry, startDeadline, w, now)
    ensures NewcomersGiven(db, db', registry, now + startDeadline, now)
  {
    hide Inv, Evolves, Touches, Served, Quiescent, SucceededWith, HandedOut, Nudged, OnlyEnds, NewcomersGiven;
    RunningHasTasks(db, w);
    HandedAreGiven(db, db', registry, w, now + startDeadline, now);
  }

  /** The advance of a workflow read RUNNING: settle success, or promote and dispatch. */
  method AdvanceRunning(
    store: Store, registry: WorkerRegistry, startDeadline: Time, w: WorkflowId, seen: Db, ghost i: nat, snapshot: Db,
    ghost j: nat, now: Time)
    requires store.Valid() && i <= j && ReadAt(store.log, i, seen) && ReadAt(store.log, j, snapshot)
    requires w in seen.workflows && seen.workflows[w].state == WorkflowState.Running
    requires seen.workflows[w].definition in seen.definitions
    modifies store
    ensures store.Continues(old(store.log))
    ensures store.quiet && seen == snapshot == old(store.Db()) ==>
              Advanced(seen, store.Db(), registry, startDeadline, w, now)
    ensures store.quiet && registry.sessions == map[] ==> store.attempts.Keys == old(store.attempts.Keys)
  {
    hide Inv, Evolves, IsRun, Leads, Advanced, FullMembership, Touches, AllTasksIn, Nudged, NoDueRetry, AllOffered;
    var row := seen.workflows[w];
    var spec := seen.definitions[row.definition];
    ghost var begun := store.Db();
    Between(store, i, seen, j, snapshot);
    RunningHasTasks(seen, w);
    SnapshotTasks(seen, snapshot, w);
    var rows := TasksOf(snapshot, w);
    var allSucceeded := |rows| == |spec.tasks| && forall t | t in rows :: snapshot.tasks[t].state.Succeeded?;
    AllSucceededMeans(snapshot, w);
    if allSucceeded {
      TrySucceedWorkflow(store, w, row.revision, spec, seen, i, snapshot, now);
      if store.quiet && seen == snapshot == begun {
        SuccessAdvanced(seen, store.Db(), registry, startDeadline, w, now);
      }
      return;
    }
    AdvanceTasks(store, registry, w, seen, i, snapshot, j, startDeadline, now);
    if store.quiet && seen == snapshot == begun {
      WorkflowTasksDeclared(seen, w);
      TasksAdvanced(seen, store.Db(), registry, startDeadline, w, now);
    }
  }

  lemma SnapshotTasks(seen: Db, snapshot: Db, w: WorkflowId)
    requires Inv(seen) && Advances(seen, snapshot) && w in seen.workflows
    requires seen.workflows[w].definition in seen.definitions && FullMembership(seen, w)
    ensures var tasks := seen.definitions[seen.workflows[w].definition].tasks;
      |TasksOf(snapshot, w)| == |tasks| && forall k | k in tasks :: TaskId(w, k) in snapshot.tasks
  {
    hide AttemptOk, LedgerOk, WorkflowOk;
    var tasks := seen.definitions[seen.workflows[w].definition].tasks;
    WorkflowTasksDeclared(snapshot, w);
    forall k | k in tasks ensures TaskId(w, k) in snapshot.tasks {
      assert TaskId(w, k) in seen.tasks;
    }
    TaskCount(snapshot, w, tasks);
  }

  lemma AllSucceededMeans(db: Db, w: WorkflowId)
    ensures (forall t | t in TasksOf(db, w) :: db.tasks[t].state.Succeeded?) <==>
            AllTasksIn(db, w, {TaskState.Succeeded})
  {
    forall t | t in db.tasks && t.workflow == w ensures t in TasksOf(db, w) {
    }
  }

  lemma SuccessAdvanced(
    db: Db, db': Db, registry: WorkerRegistry, startDeadline: Time, w: WorkflowId, now: Time)
    requires Inv(db) && w in db.workflows && db.workflows[w].definition in db.definitions
    requires db.workflows[w].state == WorkflowState.Running
    requires FullMembership(db, w) && AllTasksIn(db, w, {TaskState.Succeeded})
    requires OnlyWorkflowMoved(db, db', w)
    requires var spec := db.definitions[db.workflows[w].definition];
      MembershipGuard(db, db, w, db.workflows[w].revision, WorkflowState.Running, {TaskState.Succeeded}) == Committed
      ==> SucceededWith(db, db', w, spec.outputBindings, spec.tasks.Keys)
    ensures Advanced(db, db', registry, startDeadline, w, now)
  {
    hide Inv, Evolves, FullMembership, AllTasksIn, TaskNames;
    WorkflowTasksDeclared(db, w);
    NamesComplete(db, w, {TaskState.Succeeded});
  }

  lemma TasksAdvanced(
    db: Db, db': Db, registry: WorkerRegistry, startDeadline: Time, w: WorkflowId, now: Time)
    requires w in db.workflows && db.workflows[w].state == WorkflowState.Running
    requires db.workflows[w].definition in db.definitions
    requires !AllTasksIn(db, w, {TaskState.Succeeded}) && Nudged(db, db', w)
    requires forall t | t in db.tasks && t.workflow == w :: Declared(db, t)
    requires forall t | t in TasksOf(db, w) && db.tasks[t].state.Pending?
                        && Declared(db, t) && DependenciesDone(db, t) ::
               t in db'.tasks && !db'.tasks[t].state.Pending?
    requires NoDueRetry(db', w, now)
    requires var tasks := db.definitions[db.workflows[w].definition].tasks;
      AllOffered(db', registry, w, tasks, now) && HandedOut(db, db', registry, w, tasks, now + startDeadline, now)
    ensures Advanced(db, db', registry, startDeadline, w, now)
  {
    if SomeTaskFailed(db, w) {
      var t :| FailedTaskOf(db, w, t);
      assert TaskNudged(db.tasks[t], db'.tasks[t]);
      assert FailedTaskOf(db', w, t);
    } else {
      AdvancedRests(db, db', w);
    }
  }

  // --------------------------------------------------------------- internal failures and their follow-up

  /** A settled internal failure, seen from the workflow: the task left RUNNING for RETRY_WAIT or FAILED. */
  ghost predicate SettledTo(db: Db, db': Db, t: TaskId, state: TaskState) {
    && Touches(db, db', t.workflow) && db'.workflows == db.workflows && db'.attempts.Keys == db.attempts.Keys
    && t in db.tasks && t in db'.tasks && db.tasks[t].state.Running? && db'.tasks[t].state == state
    && (forall x | x in db.tasks && x != t :: db'.tasks[x] == db.tasks[x])
  }

  lemma FailureSettlesTo(
    db: Db, a: AttemptId, ea: int, t: TaskId, et: int, cause: FailureCause, readyAt: Time, lost: Option<SessionId>,
    now: Time)
    requires var r := InternalFailureTx(db, db, db, a, ea, t, et, cause, true, Some(readyAt), lost, now);
      BothOrNeither(db, r, a, t) && r.status == Committed
    ensures var r := InternalFailureTx(db, db, db, a, ea, t, et, cause, true, Some(readyAt), lost, now);
      && t in db.tasks && t in r.db.tasks && SettledTo(db, r.db, t, r.db.tasks[t].state)
      && RetriedOrFailed(db, r.db, t, true, cause, readyAt)
      && OnlyEnds(db, r.db, {a}, now) && a in r.db.attempts && EndedBy(r.db.attempts[a], cause)
  {
  }

  predicate EndedBy(row: AttemptRow, cause: FailureCause) {
    row.state.Failed? && row.failure == Some(cause)
  }

  /** What a failure makes of task t: with a RUNNING workflow and attempts left a retryable one has it wait until
      readyAt, and any other has it FAIL for that cause. */
  predicate RetriedOrFailed(db: Db, db': Db, t: TaskId, retryable: bool, cause: FailureCause, readyAt: Time)
    requires t in db.tasks && t in db'.tasks
  {
    if retryable && StateOf(db, t.workflow) == Some(WorkflowState.Running)
       && db.tasks[t].nextOrdinal <= db.tasks[t].maxAttempts
    then db'.tasks[t].state.RetryWait? && db'.tasks[t].retryReadyAt == Some(readyAt)
    else db'.tasks[t].state.Failed? && db'.tasks[t].failure == Some(cause)
  }

  /** Workflow w is draining or settled; if it was RUNNING, it fails for the cause. */
  predicate TurnedBy(db: Db, db': Db, w: WorkflowId, cause: FailureCause) {
    && w in db'.workflows && (db'.workflows[w].state.Draining() || db'.workflows[w].state.Terminal())
    && (StateOf(db, w) == Some(WorkflowState.Running) ==>
          && db'.workflows[w].failure == Some(cause)
          && (db'.workflows[w].state.Failing? || db'.workflows[w].state.Failed?))
  }

  lemma RetryRests(db: Db, db': Db, t: TaskId)
    requires SettledTo(db, db', t, TaskState.RetryWait)
    requires t.workflow in db.workflows && db.workflows[t.workflow].state == WorkflowState.Running
    requires Quiescent(db, t.workflow)
    ensures t.workflow in db'.workflows && Quiescent(db', t.workflow)
  {
    var w := t.workflow;
    if SomeTaskFailed(db', w) {
      var x :| FailedTaskOf(db', w, x);
      assert FailedTaskOf(db, w, x);
    }
    assert db'.tasks[t].state !in {TaskState.Succeeded};
    forall x | x in db'.tasks && x.workflow == w ensures Waiting(db', x) {
      assert Waiting(db, x);
      if db'.tasks[x].state.Pending? { StillWaits(db, db', t, x); }
    }
  }

  lemma StillWaits(db: Db, db': Db, t: TaskId, x: TaskId)
    requires SettledTo(db, db', t, TaskState.RetryWait) && x.workflow == t.workflow
    requires Declared(db, x) && !DependenciesDone(db, x)
    ensures Declared(db', x) && !DependenciesDone(db', x)
  {
    var d :| d in DefinitionOf(db, x).dependencies
      && !(TaskId(x.workflow, d) in db.tasks && db.tasks[TaskId(x.workflow, d)].state.Succeeded?
           && db.tasks[TaskId(x.workflow, d)].output.Some?);
    assert d in DefinitionOf(db', x).dependencies;
  }

  /** A workflow with a task that is not PENDING has all its tasks and is RUNNING, draining or terminal. */
  lemma StartedHasTasks(db: Db, t: TaskId)
    requires Inv(db) && t in db.tasks
    ensures HasItsTasks(db, t.workflow)
    ensures !db.tasks[t].state.Pending? ==> !db.workflows[t.workflow].state.Initializing?
    ensures !db.tasks[t].state.Terminal() ==> !db.workflows[t.workflow].state.Terminal()
  {
    hide TaskOk, WorkflowOk, AttemptOk, LedgerOk;
    TaskDeclared(db, t);
    StartedRows(db, t);
  }

  lemma StartedRows(db: Db, t: TaskId)
    requires t in db.tasks && TaskOk(db, t) && t.workflow in db.workflows && WorkflowOk(db, t.workflow)
    ensures HasItsTasks(db, t.workflow)
    ensures !db.tasks[t].state.Pending? ==> !db.workflows[t.workflow].state.Initializing?
    ensures !db.tasks[t].state.Terminal() ==> !db.workflows[t.workflow].state.Terminal()
  {
  }

  lemma FailureStep(
    s1: Db, s2: Db, db: Db, a: AttemptId, t: TaskId, et: int, cause: FailureCause, readyAt: Time,
    lost: Option<SessionId>, now: Time)
    requires ReadInOrder(s1, s2, db, a, t, et) && Inv(db) && KnownCode(cause.code)
    ensures BothOrNeither(
      db, InternalFailureTx(db, db, db, a, s1.attempts[a].revision, t, et, cause, true, Some(readyAt), lost, now), a, t)
    ensures Pinned(db, a, t, et)
  {
    hide Inv, Evolves, BothOrNeither, InternalFailureTx;
    ReadsPin(s1, s2, db, a, t, et);
    RowsAreOk(db, a, t);
    InternalFailureSettles(db, db, db, a, s1.attempts[a].revision, t, et, cause, true, Some(readyAt), lost, now);
  }

  /** The attempt is still as row says, and the cause applies to it. */
  ghost predicate StillDue(
    db: Db, a: AttemptId, row: AttemptRow, code: string, lost: Option<SessionId>, now: Time)
  {
    && a in db.attempts && SameButDeadline(row, db.attempts[a])
    && row.state.Active() && FailureFilter(row, code, lost, now)
  }

  /** Settles one internal failure. The attempt row was read in s1, the task's revision in s2. */
  method FailAttempt(
    store: Store, ghost s1: Db, ghost i: nat, ghost s2: Db, ghost j: nat, a: AttemptId, row: AttemptRow,
    expectedTask: int, cause: FailureCause, readyAt: Time, lost: Option<SessionId>, now: Time)
    returns (settled: bool, newState: TaskState)
    requires store.Valid() && i <= j && ReadAt(store.log, i, s1) && ReadAt(store.log, j, s2) && KnownCode(cause.code)
    requires a in s1.attempts && s1.attempts[a] == row && TaskRead(s2, row.task, expectedTask)
    modifies store
    ensures store.Continues(old(store.log))
    ensures settled ==> row.task in store.tasks && store.tasks[row.task].state == newState
    ensures store.quiet && !settled ==> store.Db() == old(store.Db())
    ensures store.quiet && settled ==>
      && SettledTo(old(store.Db()), store.Db(), row.task, newState) && OnlyEnds(old(store.Db()), store.Db(), {a}, now)
      && a in store.attempts && EndedBy(store.attempts[a], cause)
      && row.task in old(store.tasks)
      && RetriedOrFailed(old(store.Db()), store.Db(), row.task, true, cause, readyAt)
    ensures settled ==> newState.Failed? ==> store.tasks[row.task].failure == Some(cause)
    ensures store.quiet && StillDue(old(store.Db()), a, row, cause.code, lost, now) ==> settled
  {
    hide Inv, Evolves, IsRun, Leads, BothOrNeither, SettledTo, FailureFilter, RetriedOrFailed, OnlyEnds,
         InternalFailureTx, Pinned;
    ghost var db := store.Db();
    Between(store, i, s1, j, s2);
    Since(store, j, s2);
    var status;
    ghost var g1, g2, d;
    status, newState, g1, g2, d := store.CommitInternalAttemptFailure(
      a, row.revision, row.task, expectedTask, cause, true, Some(readyAt), lost, now, i, j);
    settled := status == Committed;
    if settled { FailedForCause(g1, g2, d, a, row.revision, row.task, expectedTask, cause, readyAt, lost, now); }
    if store.quiet {
      InOrder(s1, s2, db, a, row.task, expectedTask);
      FailureStep(s1, s2, db, a, row.task, expectedTask, cause, readyAt, lost, now);
      if settled {
        FailureSettlesTo(db, a, row.revision, row.task, expectedTask, cause, readyAt, lost, now);
      } else {
        NotSettled(db, a, row.revision, row.task, expectedTask, cause, readyAt, lost, now);
      }
      if StillDue(db, a, row, cause.code, lost, now) {
        FilterSettles(db, a, row, expectedTask, cause, readyAt, lost, now);
      }
    }
  }

  lemma FailedForCause(
    g1: Db, g2: Db, db: Db, a: AttemptId, ea: int, t: TaskId, et: int, cause: FailureCause, readyAt: Time,
    lost: Option<SessionId>, now: Time)
    requires InternalFailureTx(g1, g2, db, a, ea, t, et, cause, true, Some(readyAt), lost, now).status == Committed
    ensures var db' := InternalFailureTx(g1, g2, db, a, ea, t, et, cause, true, Some(readyAt), lost, now).db;
      t in db'.tasks && (db'.tasks[t].state.Failed? ==> db'.tasks[t].failure == Some(cause))
  {
  }

  lemma InOrder(s1: Db, s2: Db, db: Db, a: AttemptId, t: TaskId, et: int)
    requires Inv(s2) && Advances(s1, s2) && Advances(s2, db)
    requires a in s1.attempts && s1.attempts[a].task == t && TaskRead(s2, t, et)
    ensures ReadInOrder(s1, s2, db, a, t, et)
  {
    hide Inv, Evolves;
  }

  lemma NotSettled(
    db: Db, a: AttemptId, ea: int, t: TaskId, et: int, cause: FailureCause, readyAt: Time, lost: Option<SessionId>,
    now: Time)
    requires var r := InternalFailureTx(db, db, db, a, ea, t, et, cause, true, Some(readyAt), lost, now);
      BothOrNeither(db, r, a, t) && r.status != Committed
    ensures InternalFailureTx(db, db, db, a, ea, t, et, cause, true, Some(readyAt), lost, now).db == db
  {
  }

  lemma FilterSettles(
    db: Db, a: AttemptId, row: AttemptRow, et: int, cause: FailureCause, readyAt: Time, lost: Option<SessionId>,
    now: Time)
    requires StillDue(db, a, row, cause.code, lost, now) && Pinned(db, a, row.task, et)
    ensures InternalFailureTx(db, db, db, a, row.revision, row.task, et, cause, true, Some(readyAt), lost, now).status
            == Committed
  {
  }

  // --------------------------------------------------------------- a failed task turns its workflow

  lemma FailureDirects(db: Db, w: WorkflowId, cause: FailureCause, now: Time)
    requires w in db.workflows && !db.workflows[w].state.Initializing?
    ensures var db' := FailureDirectionTx(db, w, cause, now).db;
      && OnlyWorkflowMoved(db, db', w) && w in db'.workflows
      && (db'.workflows[w].state.Draining() || db'.workflows[w].state.Terminal())
      && (db.workflows[w].state == WorkflowState.Running ==>
            db'.workflows[w].state.Failing? && db'.workflows[w].failure == Some(cause))
      && (HasItsTasks(db, w) ==> HasItsTasks(db', w))
  {
  }

  /** After task t FAILED: direct its workflow to FAILING for the same cause if it is RUNNING, and drain it. */
  method FollowFailure(store: Store, t: TaskId, cause: FailureCause, now: Time)
    requires store.Valid() && t in store.tasks && store.tasks[t].state.Failed?
    requires store.tasks[t].failure == Some(cause)
    modifies store
    ensures store.Continues(old(store.log))
    ensures store.quiet ==>
      && Touches(old(store.Db()), store.Db(), t.workflow) && store.attempts.Keys == old(store.attempts.Keys)
      && OnlyEnds(old(store.Db()), store.Db(), {}, now) && TurnedBy(old(store.Db()), store.Db(), t.workflow, cause)
      && t.workflow in store.workflows && Quiescent(store.Db(), t.workflow)
  {
    hide Inv, Evolves, IsRun, Leads, Drained, Quiescent, Touches, HasItsTasks, FullMembership, OnlyEnds;
    ghost var log, db, i := store.log, store.Db(), store.Now();
    StartedHasTasks(db, t);
    assert FailedWith(db, t.workflow, t, Some(cause));
    store.Others();
    ghost var l := store.log;
    ReadLater(log, l, i, db);
    var _ := store.CommitWorkflowFailureDirection(t.workflow, cause, now, t, i);
    GoesOn(store, log, l);
    ghost var directed := store.Db();
    l := store.log;
    store.Others();
    GoesOn(store, log, l);
    l := store.log;
    DrainWorkflow(store, t.workflow, now);
    GoesOn(store, log, l);
    if store.quiet {
      WorkflowOfTask(db, t);
      FailureDirects(db, t.workflow, cause, now);
      DirectedRests(db, directed, store.Db(), t.workflow, now);
      TurnStays(directed, store.Db(), t.workflow);
    }
  }

  lemma WorkflowOfTask(db: Db, t: TaskId)
    requires HasItsTasks(db, t.workflow)
    ensures t.workflow in db.workflows
  {
  }

  lemma DirectedRests(db: Db, directed: Db, db': Db, w: WorkflowId, now: Time)
    requires OnlyWorkflowMoved(db, directed, w) && w in directed.workflows && HasItsTasks(directed, w)
    requires directed.workflows[w].state.Draining() || directed.workflows[w].state.Terminal()
    requires IsDraining(directed, w) ==> Drained(directed, db', w, now)
    requires !IsDraining(directed, w) ==> db' == directed
    requires OnlyEnds(directed, db', {}, now)
    ensures Touches(db, db', w) && db'.attempts.Keys == db.attempts.Keys && OnlyEnds(db, db', {}, now)
    ensures w in db'.workflows && Quiescent(db', w)
  {
    hide Quiescent, HasItsTasks;
    if IsDraining(directed, w) {
      TouchesTransitive(db, directed, db', w);
      DrainedRests(directed, db', w, now);
    } else {
      TerminalRests(db', w);
    }
  }

  /** Whatever turned a workflow, it does not turn back, and a FAILING one keeps its cause. */
  lemma TurnStays(directed: Db, db: Db, w: WorkflowId)
    requires Evolves(directed, db) && w in directed.workflows
    requires directed.workflows[w].state.Draining() || directed.workflows[w].state.Terminal()
    ensures w in db.workflows && (db.workflows[w].state.Draining() || db.workflows[w].state.Terminal())
    ensures directed.workflows[w].state.Failing? ==>
      && db.workflows[w].failure == directed.workflows[w].failure
      && (db.workflows[w].state.Failing? || db.workflows[w].state.Failed?)
  {
  }

  lemma TerminalRests(db: Db, w: WorkflowId)
    requires w in db.workflows && db.workflows[w].state.Terminal()
    ensures Quiescent(db, w)
  {
  }

  /** Settles one internal failure and, if the task FAILED for good, turns and drains its workflow. */
  method SettleFailure(
    store: Store, ghost s1: Db, ghost i: nat, ghost s2: Db, ghost j: nat, a: AttemptId, row: AttemptRow,
    expectedTask: int, cause: FailureCause, readyAt: Time, lost: Option<SessionId>, now: Time)
    returns (settled: bool)
    requires store.Valid() && i <= j && ReadAt(store.log, i, s1) && ReadAt(store.log, j, s2) && KnownCode(cause.code)
    requires a in s1.attempts && s1.attempts[a] == row && TaskRead(s2, row.task, expectedTask)
    modifies store
    ensures store.Continues(old(store.log))
    ensures store.quiet ==> Touches(old(store.Db()), store.Db(), row.task.workflow)
    ensures store.quiet ==>
      store.attempts.Keys == old(store.attempts.Keys) && OnlyEnds(old(store.Db()), store.Db(), {a}, now)
    ensures store.quiet && !settled ==> store.Db() == old(store.Db())
    ensures store.quiet && settled ==>
      store.tasks != old(store.tasks) && SettledBy(old(store.Db()), store.Db(), a, row.task, cause, readyAt)
    ensures store.quiet && AllQuiescent(old(store.Db())) ==> AllQuiescent(store.Db())
    ensures store.quiet && StillDue(old(store.Db()), a, row, cause.code, lost, now) ==> settled
  {
    hide Inv, Evolves, IsRun, Leads, SettledTo, FailureFilter, Quiescent, AllQuiescent, Touches, StillDue, OnlyEnds,
         RetriedOrFailed, SettledBy, TurnedBy;
    ghost var log, db := store.log, store.Db();
    var newState;
    settled, newState := FailAttempt(store, s1, i, s2, j, a, row, expectedTask, cause, readyAt, lost, now);
    ghost var l, middle := store.log, store.Db();
    EvolvesReflexive(middle);
    UntouchedMoved(middle, row.task.workflow);
    NothingEnds(middle, {}, now);
    if settled && newState.Failed? {
      FollowFailure(store, row.task, cause, now);
      GoesOn(store, log, l);
      Follows(store, l, middle);
    }
    UntouchedMoved(db, row.task.workflow);
    NothingEnds(db, {a}, now);
    if store.quiet && settled {
      SettlesAttempt(db, middle, store.Db(), a, row.task, cause, readyAt, newState, now);
      SettledFrames(db, middle, store.Db(), row.task, newState);
      if AllQuiescent(db) { SettledRests(db, middle, store.Db(), row.task, newState); }
    }
  }

  lemma Follows(store: Store, l: Log, db: Db)
    requires store.Continues(l) && Last(l.trace) == db
    ensures Evolves(db, store.Db())
  {
  }

  /** Attempt a has FAILED for the cause, and its task, which was RUNNING, was retried or has FAILED as a retryable
      failure has it; if it FAILED its workflow has turned. */
  ghost predicate SettledBy(db: Db, db': Db, a: AttemptId, t: TaskId, cause: FailureCause, readyAt: Time) {
    && a in db'.attempts && EndedBy(db'.attempts[a], cause)
    && t in db.tasks && t in db'.tasks && db.tasks[t].state.Running?
    && RetriedOrFailed(db, db', t, true, cause, readyAt)
    && (db'.tasks[t].state.Failed? ==> TurnedBy(db, db', t.workflow, cause))
  }

  lemma SettlesAttempt(
    db: Db, middle: Db, db': Db, a: AttemptId, t: TaskId, cause: FailureCause, readyAt: Time, state: TaskState,
    now: Time)
    requires SettledTo(db, middle, t, state) && RetriedOrFailed(db, middle, t, true, cause, readyAt)
    requires a in middle.attempts && EndedBy(middle.attempts[a], cause)
    requires if state.Failed? then TurnedBy(middle, db', t.workflow, cause) else db' == middle
    requires Evolves(middle, db') && OnlyEnds(db, middle, {a}, now) && OnlyEnds(middle, db', {}, now)
    ensures SettledBy(db, db', a, t, cause, readyAt) && OnlyEnds(db, db', {a}, now)
    ensures state.Failed? || (state.RetryWait? && StateOf(db, t.workflow) == Some(WorkflowState.Running))
  {
    hide Touches;
    OnlyEndsTransitive(db, middle, db', {a}, {}, {a}, now);
  }

  /** The task left RUNNING, and nothing done afterwards puts it back. */
  lemma SettledFrames(db: Db, settled: Db, db': Db, t: TaskId, state: TaskState)
    requires SettledTo(db, settled, t, state) && (state.Failed? || state.RetryWait?)
    requires if state.Failed? then Touches(settled, db', t.workflow) && db'.attempts.Keys == settled.attempts.Keys
             else db' == settled
    requires Evolves(settled, db')
    ensures Touches(db, db', t.workflow) && db'.attempts.Keys == db.attempts.Keys && db'.tasks != db.tasks
  {
    if state.Failed? { TouchesTransitive(db, settled, db', t.workflow); }
    assert db'.tasks[t] == settled.tasks[t] && settled.tasks[t] != db.tasks[t];
  }

  lemma SettledRests(db: Db, settled: Db, db': Db, t: TaskId, state: TaskState)
    requires AllQuiescent(db) && SettledTo(db, settled, t, state) && Touches(db, db', t.workflow)
    requires state.Failed? ==> t.workflow in db'.workflows && Quiescent(db', t.workflow)
    requires !state.Failed? ==>
      state.RetryWait? && db' == settled && StateOf(db, t.workflow) == Some(WorkflowState.Running)
    ensures AllQuiescent(db')
  {
    if state.RetryWait? { RetryRests(db, settled, t); }
    AllQuiescentAfter(db, db', t.workflow);
  }

  // ------------------------------------------------------------------------------------------ sweeps

  const SWEEP_LIMIT: nat := 50
  const RETRY_DELAY: Time := 5

  /** What has become of task t since a failure had it wait until readyAt, or FAIL: it waits, or was CANCELLED since, or
      it FAILED for the cause and its workflow has turned. */
  ghost predicate FollowsFailure(db: Db, t: TaskId, cause: FailureCause, readyAt: Time) {
    && t in db.tasks
    && (|| db.tasks[t].state.Cancelled?
        || (db.tasks[t].state.RetryWait? && db.tasks[t].retryReadyAt == Some(readyAt))
        || (db.tasks[t].state.Failed? && db.tasks[t].failure == Some(cause)
            && t.workflow in db.workflows
            && (db.workflows[t.workflow].state.Draining() || db.workflows[t.workflow].state.Terminal())))
  }

  /** Attempt a was CANCELLED, or it FAILED for a cause of this category and code, and its task followed. */
  ghost predicate EndedFor(db: Db, a: AttemptId, category: FailureCategory, code: string, readyAt: Time) {
    && a in db.attempts
    && var row := db.attempts[a];
    || row.state.Cancelled?
    || (&& row.state.Failed? && row.failure.Some?
        && row.failure.value.category == category && row.failure.value.code == code
        && FollowsFailure(db, row.task, row.failure.value, readyAt))
  }

  lemma EndedForKept(
    before: Db, db: Db, some: set<AttemptId>, a: AttemptId, category: FailureCategory, code: string, readyAt: Time,
    now: Time)
    requires EndedFor(before, a, category, code, readyAt) && OnlyEnds(before, db, some, now) && Evolves(before, db)
    ensures EndedFor(db, a, category, code, readyAt)
  {
    assert SameButDeadline(before.attempts[a], db.attempts[a]);
    if before.attempts[a].state.Failed? {
      var t := before.attempts[a].task;
      assert !before.tasks[t].state.Running?;
      assert t.workflow in before.workflows ==> WorkflowEvolves(before.workflows[t.workflow], db.workflows[t.workflow]);
    }
  }

  lemma SettledIsEnded(before: Db, db: Db, a: AttemptId, t: TaskId, cause: FailureCause, readyAt: Time)
    requires SettledBy(before, db, a, t, cause, readyAt) && db.attempts[a].task == t
    ensures EndedFor(db, a, cause.category, cause.code, readyAt)
  {
  }

  /** What LIMIT n may leave of a result set: all of it if that is no more than n, and otherwise any n of it. */
  predicate BatchOf<T(==)>(some: set<T>, rows: set<T>, n: nat) {
    some <= rows && |some| <= n && (|some| < n || |rows| <= n ==> some == rows)
  }

  /** LIMIT n on a result set, in any order. */
  method Limit<T(==)>(rows: set<T>, n: nat) returns (some: set<T>)
    ensures BatchOf(some, rows, n)
  {
    some := {};
    while some < rows && |some| < n
      invariant some <= rows && |some| <= n
      decreases rows - some
    {
      var rest := rows - some;
      assert rows == some + rest;
      var x :| x in rest;
      some := some + {x};
    }
    if |rows| <= n { SubsetSize(rows, some); }
  }

  function LostBy(row: AttemptRow, byLoss: bool): Option<SessionId> {
    if byLoss then Some(row.worker) else None
  }

  /** The cause applies to the attempt now. */
  predicate Due(row: AttemptRow, cause: FailureCause, byLoss: bool, now: Time) {
    row.state.Active() && FailureFilter(row, cause.code, LostBy(row, byLoss), now)
  }

  lemma StaysDue(s: Db, db: Db, a: AttemptId, some: set<AttemptId>, cause: FailureCause, byLoss: bool, now: Time)
    requires OnlyEnds(s, db, some, now) && a in s.attempts && Due(s.attempts[a], cause, byLoss, now)
    requires a in db.attempts && db.attempts[a].state.Active()
    ensures StillDue(db, a, s.attempts[a], cause.code, LostBy(s.attempts[a], byLoss), now)
  {
  }

  /** The due attempts of the batch have ended for the cause, those of todo apart. */
  ghost predicate EndedBut(
    snapshot: Db, db: Db, batch: set<AttemptId>, todo: set<AttemptId>, cause: FailureCause, byLoss: bool, now: Time)
  {
    forall a | a in batch && a !in todo && a in snapshot.attempts && Due(snapshot.attempts[a], cause, byLoss, now) ::
      EndedFor(db, a, cause.category, cause.code, now + 5)
  }

  lemma EndedStep(
    snapshot: Db, before: Db, db: Db, batch: set<AttemptId>, todo: set<AttemptId>, a: AttemptId, cause: FailureCause,
    byLoss: bool, now: Time)
    requires EndedBut(snapshot, before, batch, todo, cause, byLoss, now)
    requires OnlyEnds(before, db, {a}, now) && Evolves(before, db)
    requires a in snapshot.attempts && Due(snapshot.attempts[a], cause, byLoss, now) ==>
      EndedFor(db, a, cause.category, cause.code, now + 5)
    ensures EndedBut(snapshot, db, batch, todo - {a}, cause, byLoss, now)
  {
    hide Due, EndedFor, OnlyEnds, Evolves;
    forall b | b in batch && b !in todo && b in snapshot.attempts && Due(snapshot.attempts[b], cause, byLoss, now)
      ensures EndedFor(db, b, cause.category, cause.code, now + 5)
    {
      EndedForKept(before, db, {a}, b, cause.category, cause.code, now + 5, now);
    }
  }

  /** What has become of start, undisturbed, once all of the batch but todo has been dealt with; exact if the batch was
      read in start itself. */
  ghost predicate BatchDone(
    exact: bool, start: Db, db: Db, batch: set<AttemptId>, todo: set<AttemptId>, cause: FailureCause, byLoss: bool,
    now: Time)
  {
    && db.attempts.Keys == start.attempts.Keys && OnlyEnds(start, db, batch - todo, now)
    && (AllQuiescent(start) ==> AllQuiescent(db))
    && (exact ==> EndedBut(start, db, batch, todo, cause, byLoss, now))
  }

  lemma BatchBegun(exact: bool, db: Db, batch: set<AttemptId>, cause: FailureCause, byLoss: bool, now: Time)
    ensures BatchDone(exact, db, db, batch, batch, cause, byLoss, now)
  {
  }

  lemma BatchEnded(
    exact: bool, start: Db, db: Db, batch: set<AttemptId>, cause: FailureCause, byLoss: bool, now: Time)
    requires BatchDone(exact, start, db, batch, {}, cause, byLoss, now)
    ensures db.attempts.Keys == start.attempts.Keys && OnlyEnds(start, db, batch, now)
    ensures AllQuiescent(start) ==> AllQuiescent(db)
    ensures exact ==> EndedBut(start, db, batch, {}, cause, byLoss, now)
  {
    hide AllQuiescent, EndedBut, OnlyEnds;
    assert batch - {} == batch;
  }

  lemma BatchGoesOn(
    exact: bool, start: Db, before: Db, db: Db, batch: set<AttemptId>, todo: set<AttemptId>, a: AttemptId,
    cause: FailureCause, byLoss: bool, now: Time, settled: bool)
    requires BatchDone(exact, start, before, batch, todo, cause, byLoss, now) && a in todo && a in batch
    requires OnlyEnds(before, db, {a}, now) && Evolves(start, before) && Evolves(before, db)
    requires db.attempts.Keys == before.attempts.Keys && (AllQuiescent(before) ==> AllQuiescent(db))
    requires exact && settled ==>
      a in start.attempts && SettledBy(before, db, a, start.attempts[a].task, cause, now + 5)
    requires exact && !settled ==>
      && db == before && a in start.attempts
      && (Due(start.attempts[a], cause, byLoss, now) && a in before.attempts ==> !before.attempts[a].state.Active())
    ensures BatchDone(exact, start, db, batch, todo - {a}, cause, byLoss, now)
  {
    hide AllQuiescent, EndedBut, OnlyEnds, SettledBy, Due, Evolves;
    assert batch - (todo - {a}) == (batch - todo) + {a};
    OnlyEndsTransitive(start, before, db, batch - todo, {a}, batch - (todo - {a}), now);
    if exact { BatchStep(start, before, db, batch, todo, batch - todo, a, cause, byLoss, now, settled); }
  }

  /** A due attempt that is still active where the batch has got to is due still. */
  lemma BatchStaysDue(
    start: Db, db: Db, batch: set<AttemptId>, todo: set<AttemptId>, a: AttemptId, cause: FailureCause, byLoss: bool,
    now: Time)
    requires BatchDone(true, start, db, batch, todo, cause, byLoss, now)
    requires a in start.attempts && Due(start.attempts[a], cause, byLoss, now)
    requires a in db.attempts && db.attempts[a].state.Active()
    ensures StillDue(db, a, start.attempts[a], cause.code, LostBy(start.attempts[a], byLoss), now)
  {
    hide AllQuiescent, EndedBut, OnlyEnds, Due, StillDue;
    StaysDue(start, db, a, batch - todo, cause, byLoss, now);
  }

  /** Settles one (attempt, task) row of a batch, of which those of todo are left to deal with since log. */
  method SettleOne(
    store: Store, ghost log: Log, snapshot: Db, ghost at: nat, ghost batch: set<AttemptId>,
    ghost todo: set<AttemptId>, a: AttemptId, cause: FailureCause, byLoss: bool, now: Time)
    returns (settled: bool)
    requires store.Continues(log) && ReadAt(log, at, snapshot) && KnownCode(cause.code) && a in todo && a in batch
    requires a in snapshot.attempts && snapshot.attempts[a].task in snapshot.tasks
    requires store.quiet ==>
      BatchDone(snapshot == Last(log.trace), Last(log.trace), store.Db(), batch, todo, cause, byLoss, now)
    modifies store
    ensures store.Continues(log)
    ensures store.quiet && !settled ==> store.Db() == old(store.Db())
    ensures store.quiet ==>
      BatchDone(snapshot == Last(log.trace), Last(log.trace), store.Db(), batch, todo - {a}, cause, byLoss, now)
    ensures (&& store.quiet && snapshot == Last(log.trace) == old(store.Db())
             && Due(snapshot.attempts[a], cause, byLoss, now)) ==> settled
  {
    hide Inv, Evolves, IsRun, Leads, AllQuiescent, FailureFilter, Touches, StillDue, SettledBy, Due, BatchDone,
         OnlyEnds;
    var row := snapshot.attempts[a];
    ghost var l, before, db := store.log, store.Db(), Last(log.trace);
    ghost var exact := snapshot == db;
    ReadLater(log, l, at, snapshot);
    Follows(store, log, db);
    DueIsActive(row, cause, byLoss, now);
    if store.quiet && exact && Due(row, cause, byLoss, now) && a in before.attempts
       && before.attempts[a].state.Active() {
      BatchStaysDue(db, before, batch, todo, a, cause, byLoss, now);
    }
    settled := SettleFailure(store, snapshot, at, snapshot, at, a, row, snapshot.tasks[row.task].revision, cause,
                             now + RETRY_DELAY, LostBy(row, byLoss), now);
    GoesOn(store, log, l);
    Follows(store, l, before);
    if store.quiet { BatchGoesOn(exact, db, before, store.Db(), batch, todo, a, cause, byLoss, now, settled); }
  }

  /** Settles a batch of (attempt, task) rows read together at snapshot, all for one kind of cause. */
  method SettleBatch(
    store: Store, snapshot: Db, ghost at: nat, batch: set<AttemptId>, cause: FailureCause, byLoss: bool, now: Time)
    returns (count: nat)
    requires store.Valid() && ReadAt(store.log, at, snapshot) && KnownCode(cause.code)
    requires forall a | a in batch :: a in snapshot.attempts && snapshot.attempts[a].task in snapshot.tasks
    modifies store
    ensures store.Continues(old(store.log))
    ensures count <= |batch|
    ensures store.quiet && count == 0 ==> store.Db() == old(store.Db())
    ensures store.quiet && AllQuiescent(old(store.Db())) ==> AllQuiescent(store.Db())
    ensures store.quiet ==>
      store.attempts.Keys == old(store.attempts.Keys) && OnlyEnds(old(store.Db()), store.Db(), batch, now)
    ensures store.quiet && snapshot == old(store.Db()) ==>
      EndedBut(snapshot, store.Db(), batch, {}, cause, byLoss, now)
    ensures (&& store.quiet && snapshot == old(store.Db()) && batch != {}
             && forall a | a in batch :: Due(snapshot.attempts[a], cause, byLoss, now)) ==> 0 < count
  {
    hide Inv, Evolves, IsRun, Leads, AllQuiescent, Due, EndedBut, OnlyEnds, BatchDone, KnownCode;
    ghost var log, db := store.log, store.Db();
    ghost var due := store.quiet && snapshot == db
      && forall a | a in batch :: Due(snapshot.attempts[a], cause, byLoss, now);
    StandsStill(store);
    BatchBegun(snapshot == db, db, batch, cause, byLoss, now);
    count := 0;
    var todo := batch;
    while todo != {}
      invariant todo <= batch && count + |todo| <= |batch|
      invariant store.Continues(log)
      invariant store.quiet && count == 0 ==> store.Db() == db
      invariant store.quiet ==> BatchDone(snapshot == db, db, store.Db(), batch, todo, cause, byLoss, now)
      invariant due && todo != batch ==> 0 < count
      decreases todo
    {
      var a :| a in todo;
      var settled := SettleOne(store, log, snapshot, at, batch, todo, a, cause, byLoss, now);
      todo := todo - {a};
      if settled {
        count := count + 1;
      }
    }
    if store.quiet { BatchEnded(snapshot == db, db, store.Db(), batch, cause, byLoss, now); }
  }

  lemma DueIsActive(row: AttemptRow, cause: FailureCause, byLoss: bool, now: Time)
    ensures Due(row, cause, byLoss, now) ==> row.state.Active()
  {
  }

  lemma MustEnd(
    start: Db, before: Db, db: Db, done: set<AttemptId>, a: AttemptId, cause: FailureCause, byLoss: bool, now: Time,
    settled: bool)
    requires OnlyEnds(start, before, done, now) && OnlyEnds(before, db, {a}, now) && a in start.attempts && a !in done
    requires Due(start.attempts[a], cause, byLoss, now)
    requires if settled then SettledBy(before, db, a, start.attempts[a].task, cause, now + 5)
             else db == before && !before.attempts[a].state.Active()
    requires Evolves(start, before) && Evolves(before, db)
    ensures EndedFor(db, a, cause.category, cause.code, now + 5)
  {
    hide EndedFor, SettledBy;
    DueIsActive(start.attempts[a], cause, byLoss, now);
    assert AttemptEvolves(start.attempts[a], before.attempts[a]) && AttemptEvolves(before.attempts[a], db.attempts[a]);
    if settled {
      SettledIsEnded(before, db, a, start.attempts[a].task, cause, now + 5);
    } else {
      CancelledIsEnded(db, a, cause, now);
    }
  }

  lemma BatchStep(
    start: Db, before: Db, db: Db, batch: set<AttemptId>, todo: set<AttemptId>, done: set<AttemptId>, a: AttemptId,
    cause: FailureCause, byLoss: bool, now: Time, settled: bool)
    requires EndedBut(start, before, batch, todo, cause, byLoss, now) && Evolves(start, before) && Evolves(before, db)
    requires OnlyEnds(start, before, done, now) && OnlyEnds(before, db, {a}, now) && a in start.attempts && a !in done
    requires settled ==> SettledBy(before, db, a, start.attempts[a].task, cause, now + 5)
    requires !settled ==> db == before
    requires !settled && Due(start.attempts[a], cause, byLoss, now) && a in before.attempts ==>
      !before.attempts[a].state.Active()
    ensures EndedBut(start, db, batch, todo - {a}, cause, byLoss, now)
  {
    hide EndedBut, SettledBy, Due, EndedFor;
    if Due(start.attempts[a], cause, byLoss, now) {
      MustEnd(start, before, db, done, a, cause, byLoss, now, settled);
    }
    EndedStep(start, before, db, batch, todo, a, cause, byLoss, now);
  }

  lemma CancelledIsEnded(db: Db, a: AttemptId, cause: FailureCause, now: Time)
    requires a in db.attempts && db.attempts[a].state.Cancelled?
    ensures EndedFor(db, a, cause.category, cause.code, now + 5)
  {
  }

  const StartDeadlineExpired := FailureCause(
    TimeBased, "START_DEADLINE_EXPIRED", "Worker did not acknowledge start before start_deadline_utc")
  const ExecutionTimedOut := FailureCause(
    TimeBased, "EXECUTION_TIMEOUT", "Activity execution exceeded configured execution timeout")
  const WorkerLost := FailureCause(WorkerAvailability, "WORKER_LOSS", "Worker session heartbeat timed out / lost")

  function ExpiredClaims(db: Db, now: Time): set<AttemptId> {
    set a | a in db.attempts && db.attempts[a].task in db.tasks
            && db.attempts[a].state.Claimed? && db.attempts[a].startDeadline <= now
  }

  function TimedOut(db: Db, now: Time): set<AttemptId> {
    set a | a in db.attempts && db.attempts[a].task in db.tasks
            && db.attempts[a].state == AttemptState.Running
            && db.attempts[a].executionTimeout.Some? && db.attempts[a].executionTimeout.value <= now
  }

  function Orphans(db: Db, lost: set<SessionId>): set<AttemptId> {
    set a | a in db.attempts && db.attempts[a].task in db.tasks
            && db.attempts[a].worker in lost && db.attempts[a].state.Active()
  }

  /** No transaction ever sets an execution timeout, so none can elapse. */
  lemma NothingTimesOut(db: Db, now: Time)
    requires forall a | a in db.attempts :: AttemptOk(db, a)
    ensures TimedOut(db, now) == {}
  {
    forall a | a in db.attempts ensures db.attempts[a].executionTimeout.None? {
      assert AttemptOk(db, a);
    }
  }

  /** Expired claims that were all in the batch are all gone. */
  lemma ClaimsGone(db: Db, db': Db, now: Time)
    requires Evolves(db, db') && db'.attempts.Keys == db.attempts.Keys
    requires forall a | a in db.attempts :: AttemptOk(db, a)
    requires EndedBut(db, db', ExpiredClaims(db, now), {}, StartDeadlineExpired, false, now)
    ensures ExpiredClaims(db', now) == {}
  {
    forall a | a in ExpiredClaims(db', now) ensures false {
      assert AttemptEvolves(db.attempts[a], db'.attempts[a]) && AttemptOk(db, a);
      assert a in ExpiredClaims(db, now) && Due(db.attempts[a], StartDeadlineExpired, false, now);
    }
  }

  lemma ClaimsAreDue(db: Db, now: Time)
    ensures forall a | a in ExpiredClaims(db, now) :: Due(db.attempts[a], StartDeadlineExpired, false, now)
  {
  }

  /** Every CLAIMED attempt has time left to start. */
  ghost predicate ClaimsInTime(db: Db, now: Time) {
    forall a | a in db.attempts && db.attempts[a].state.Claimed? :: now < db.attempts[a].startDeadline
  }

  lemma NoneExpired(db: Db, now: Time)
    requires Inv(db)
    ensures ClaimsInTime(db, now) <==> ExpiredClaims(db, now) == {}
  {
    hide TaskOk, WorkflowOk, LedgerOk;
    if !ClaimsInTime(db, now) {
      var a :| a in db.attempts && db.attempts[a].state.Claimed? && db.attempts[a].startDeadline <= now;
      assert AttemptOk(db, a) && a in ExpiredClaims(db, now);
    }
    forall a | a in ExpiredClaims(db, now) ensures !ClaimsInTime(db, now) {
    }
  }

  /** The sweep settles a batch of 50 expired claims: each FAILS as START_DEADLINE_EXPIRED with its task retried five
      seconds later or FAILED, or was cancelled by the drain an earlier failure has led to. If there are no more than
      50, none is left. Its second half, for execution timeouts, finds nothing on any reachable database; cancellation
      deadlines are left to the drain. */
  method SweepTimeoutsAndDeadlines(store: Store, now: Time)
    returns (settledCount: nat, ghost batch: set<AttemptId>)
    requires store.Valid()
    modifies store
    ensures store.Continues(old(store.log))
    ensures settledCount <= 50
    ensures BatchOf(batch, ExpiredClaims(old(store.Db()), now), 50)
    ensures store.quiet ==> forall a | a in batch ::
      EndedFor(store.Db(), a, TimeBased, "START_DEADLINE_EXPIRED", now + 5)
    ensures store.quiet && AllQuiescent(old(store.Db())) ==> AllQuiescent(store.Db())
    ensures store.quiet ==> (settledCount == 0 <==> ClaimsInTime(old(store.Db()), now))
    ensures store.quiet && settledCount == 0 ==> store.Db() == old(store.Db())
    ensures store.quiet && |ExpiredClaims(old(store.Db()), now)| <= 50 ==> ClaimsInTime(store.Db(), now)
  {
    hide ClaimsInTime, Evolves, IsRun, Leads, AllQuiescent, TaskOk, WorkflowOk, LedgerOk, AttemptOk, EndedBut, EndedFor,
         Due;
    ghost var log, db, at := store.log, store.Db(), store.Now();
    StandsStill(store);
    ClaimsAreDue(db, now);
    NoneExpired(db, now);
    var snapshot := store.Db();
    var expired := Limit(ExpiredClaims(snapshot, now), SWEEP_LIMIT);
    batch := expired;
    settledCount := SettleBatch(store, snapshot, at, expired, StartDeadlineExpired, false, now);
    ghost var l := store.log;
    if store.quiet { AllEnded(db, store.Db(), batch, StartDeadlineExpired, false, now); }
    if store.quiet && |ExpiredClaims(db, now)| <= SWEEP_LIMIT {
      Follows(store, log, db);
      ClaimsGone(db, store.Db(), now);
      NoneExpired(store.Db(), now);
    }
    store.Others();
    GoesOn(store, log, l);
    l := store.log;
    at := store.Now();
    snapshot := store.Db();
    NothingTimesOut(snapshot, now);
    var timedOut := Limit(TimedOut(snapshot, now), SWEEP_LIMIT);
    var more := SettleBatch(store, snapshot, at, timedOut, ExecutionTimedOut, false, now);
    GoesOn(store, log, l);
    settledCount := settledCount + more;
  }

  lemma AllEnded(
    db: Db, db': Db, batch: set<AttemptId>, cause: FailureCause, byLoss: bool, now: Time)
    requires EndedBut(db, db', batch, {}, cause, byLoss, now)
    requires forall a | a in batch :: a in db.attempts && Due(db.attempts[a], cause, byLoss, now)
    ensures forall a | a in batch :: EndedFor(db', a, cause.category, cause.code, now + 5)
  {
  }

  lemma OrphansAreDue(db: Db, lost: set<SessionId>, now: Time)
    ensures forall a | a in Orphans(db, lost) :: Due(db.attempts[a], WorkerLost, true, now)
    ensures lost == {} ==> Orphans(db, lost) == {}
  {
  }

  lemma OrphansGone(db: Db, db': Db, lost: set<SessionId>, now: Time)
    requires Evolves(db, db') && db'.attempts.Keys == db.attempts.Keys
    requires forall a | a in db.attempts :: AttemptOk(db, a)
    requires EndedBut(db, db', Orphans(db, lost), {}, WorkerLost, true, now)
    ensures Orphans(db', lost) == {}
  {
    forall a | a in Orphans(db', lost) ensures false {
      assert AttemptEvolves(db.attempts[a], db'.attempts[a]) && AttemptOk(db, a);
      assert a in Orphans(db, lost) && Due(db.attempts[a], WorkerLost, true, now);
    }
  }

  /** No active attempt belongs to a registered session whose heartbeat is overdue. */
  ghost predicate NoneLost(db: Db, registry: WorkerRegistry, now: Time)
    reads registry
  {
    forall a | a in db.attempts && db.attempts[a].state.Active() && db.attempts[a].worker in registry.sessions ::
      now - registry.sessions[db.attempts[a].worker].lastHeartbeat <= registry.livenessTimeout
  }

  lemma NoneOrphaned(db: Db, registry: WorkerRegistry, now: Time)
    requires Inv(db)
    ensures NoneLost(db, registry, now) <==> Orphans(db, registry.LostSessions(now)) == {}
  {
    hide TaskOk, WorkflowOk, LedgerOk;
    if !NoneLost(db, registry, now) {
      var a :| a in db.attempts && db.attempts[a].state.Active() && db.attempts[a].worker in registry.sessions
        && registry.livenessTimeout < now - registry.sessions[db.attempts[a].worker].lastHeartbeat;
      assert AttemptOk(db, a) && a in Orphans(db, registry.LostSessions(now));
    }
    forall a | a in Orphans(db, registry.LostSessions(now)) ensures !NoneLost(db, registry, now) {
      assert db.attempts[a].worker in registry.sessions;
    }
  }

  /** Settles a batch of 50 active attempts of lost sessions, as the sweep for expired claims does, as WORKER_LOSS. If
      there are no more, none is left. */
  method SweepWorkerLoss(store: Store, registry: WorkerRegistry, now: Time)
    returns (settled: nat, ghost batch: set<AttemptId>)
    requires store.Valid()
    modifies store
    ensures store.Continues(old(store.log))
    ensures settled <= 50
    ensures BatchOf(batch, Orphans(old(store.Db()), registry.LostSessions(now)), 50)
    ensures store.quiet ==> forall a | a in batch ::
      EndedFor(store.Db(), a, WorkerAvailability, "WORKER_LOSS", now + 5)
    ensures store.quiet && AllQuiescent(old(store.Db())) ==> AllQuiescent(store.Db())
    ensures store.quiet ==> (settled == 0 <==> NoneLost(old(store.Db()), registry, now))
    ensures store.quiet && settled == 0 ==> store.Db() == old(store.Db())
    ensures store.quiet && |Orphans(old(store.Db()), registry.LostSessions(now))| <= 50 ==>
              NoneLost(store.Db(), registry, now)
  {
    hide NoneLost, Evolves, IsRun, Leads, AllQuiescent, TaskOk, WorkflowOk, LedgerOk, AttemptOk, EndedBut, EndedFor,
         Due;
    ghost var log, db, at := store.log, store.Db(), store.Now();
    StandsStill(store);
    settled := 0;
    var lost := registry.FindLostSessions(now);
    OrphansAreDue(db, lost, now);
    NoneOrphaned(db, registry, now);
    batch := {};
    if lost == {} {
      return;
    }
    var snapshot := store.Db();
    var orphans := Limit(Orphans(snapshot, lost), SWEEP_LIMIT);
    batch := orphans;
    settled := SettleBatch(store, snapshot, at, orphans, WorkerLost, true, now);
    if store.quiet { AllEnded(db, store.Db(), batch, WorkerLost, true, now); }
    if store.quiet && |Orphans(db, lost)| <= SWEEP_LIMIT {
      Follows(store, log, db);
      OrphansGone(db, store.Db(), lost, now);
      NoneOrphaned(store.Db(), registry, now);
    }
  }
}
