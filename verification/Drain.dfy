/**
  Draining a FAILING or CANCELLING workflow (orchestration/scheduler.py, drain_workflow): cancel what has not
  started, time out what is running, settle the workflow when every task is terminal.
  */
module Drain {
  import opened Wrappers
  import opened Rows
  import opened Transactions
  import opened Invariant
  import opened Preservation
  import opened Settlement
  import opened Protocol
  import opened Steps
  import opened Ownership
  import opened Quiescence
  import opened Store
  import opened Promotion

  predicate IsDraining(db: Db, w: WorkflowId) {
    w in db.workflows && db.workflows[w].state.Draining()
  }

  // ------------------------------------------------------------------------------ 1. unstarted tasks

  /** Unstarted tasks of w outside todo are CANCELLED; every other row is as it was. */
  ghost predicate CancelledBut(db: Db, db': Db, w: WorkflowId, todo: set<TaskId>) {
    && Touches(db, db', w) && db'.workflows == db.workflows && db'.attempts == db.attempts
    && forall t | t in db.tasks ::
         if t.workflow == w && db.tasks[t].state.Unstarted() && t !in todo
         then db'.tasks[t].state.Cancelled? else db'.tasks[t] == db.tasks[t]
  }

  lemma CancelStep(start: Db, db: Db, w: WorkflowId, todo: set<TaskId>, t: TaskId, now: Time)
    requires CancelledBut(start, db, w, todo) && t in todo && t in start.tasks && t.workflow == w
    requires start.tasks[t].state.Unstarted() && IsDraining(start, w)
    ensures CancelledBut(start, DrainCancelTx(db, db, db, t, start.tasks[t].revision, now).db, w, todo - {t})
  {
    var r := DrainCancelTx(db, db, db, t, start.tasks[t].revision, now);
    assert r.status == Committed;
    assert r.db.tasks[t].state.Cancelled?;
  }

  lemma SkipStep(start: Db, db: Db, w: WorkflowId, todo: set<TaskId>, t: TaskId)
    requires CancelledBut(start, db, w, todo) && t in start.tasks && !start.tasks[t].state.Unstarted()
    ensures CancelledBut(start, db, w, todo - {t})
  {
  }

  /** The tasks of w were read in snapshot. */
  method CancelUnstarted(store: Store, w: WorkflowId, snapshot: Db, ghost at: nat, now: Time)
    requires store.Valid() && ReadAt(store.log, at, snapshot)
    modifies store
    ensures store.Continues(old(store.log))
    ensures store.quiet && snapshot == old(store.Db()) && IsDraining(snapshot, w) ==>
              CancelledBut(snapshot, store.Db(), w, {})
  {
    hide Inv, Evolves, IsRun, Leads, CancelledBut;
    ghost var log, start := store.log, store.Db();
    ghost var exact := store.quiet && snapshot == start && IsDraining(snapshot, w);
    StandsStill(store);
    var todo := TasksOf(snapshot, w);
    if exact { NothingCancelled(start, w, todo); }
    while todo != {}
      invariant todo <= TasksOf(snapshot, w)
      invariant store.Continues(log)
      invariant exact ==> CancelledBut(start, store.Db(), w, todo)
      decreases todo
    {
      var t :| t in todo;
      if snapshot.tasks[t].state.Unstarted() {
        ghost var l := store.log;
        ReadLater(log, l, at, snapshot);
        CancelOne(store, start, w, todo, t, snapshot.tasks[t].revision, snapshot, at, now);
        GoesOn(store, log, l);
      } else if exact {
        SkipStep(start, store.Db(), w, todo, t);
      }
      todo := todo - {t};
    }
  }

  lemma NothingCancelled(db: Db, w: WorkflowId, todo: set<TaskId>)
    requires TasksOf(db, w) <= todo
    ensures CancelledBut(db, db, w, todo)
  {
    forall t | t in db.tasks && t.workflow == w ensures t in TasksOf(db, w) {
    }
  }

  method CancelOne(
    store: Store, ghost start: Db, w: WorkflowId, ghost todo: set<TaskId>, t: TaskId, expected: int,
    ghost snapshot: Db, ghost at: nat, now: Time)
    requires store.Valid() && ReadAt(store.log, at, snapshot) && TaskRead(snapshot, t, expected)
    modifies store
    ensures store.Continues(old(store.log))
    ensures store.quiet && CancelledBut(start, old(store.Db()), w, todo) && t in todo && t in start.tasks
            && t.workflow == w && start.tasks[t].state.Unstarted() && IsDraining(start, w)
            && expected == start.tasks[t].revision
            ==> CancelledBut(start, store.Db(), w, todo - {t})
  {
    hide Inv, Evolves, IsRun, Leads, CancelledBut;
    ghost var db := store.Db();
    var status;
    ghost var g1, g2, d;
    status, g1, g2, d := store.CommitDrainTaskCancellation(t, expected, now, at);
    if store.quiet && CancelledBut(start, db, w, todo) && t in todo && t in start.tasks && t.workflow == w
       && start.tasks[t].state.Unstarted() && IsDraining(start, w) && expected == start.tasks[t].revision {
      CancelStep(start, db, w, todo, t, now);
    }
  }

  // ------------------------------------------------------------------------------- 2. active attempts

  function ActiveAttempts(db: Db, w: WorkflowId): set<AttemptId> {
    set a | a in db.attempts && db.attempts[a].state.Active() && db.attempts[a].task.workflow == w
            && db.attempts[a].task in db.tasks
  }

  predicate Elapsed(r: AttemptRow, now: Time) {
    r.cancellationDeadline.Some? && r.cancellationDeadline.value <= now
  }

  /** What the sweep makes of attempt a: an elapsed deadline cancels it with its task, a missing one is set ten seconds
      ahead. */
  ghost predicate AttemptSwept(db: Db, db': Db, a: AttemptId, todo: set<AttemptId>, now: Time)
    requires a in db.attempts && a in db'.attempts
  {
    var r := db.attempts[a];
    && r.task in db.tasks && r.task in db'.tasks
    && if a !in todo && Elapsed(r, now)
       then && db'.attempts[a] == r.(state := AttemptState.Cancelled, revision := r.revision + 1)
            && db'.tasks[r.task].state.Cancelled?
       else && db'.tasks[r.task] == db.tasks[r.task]
            && db'.attempts[a] ==
               if a !in todo && r.cancellationDeadline.None? then r.(cancellationDeadline := Some(now + 10)) else r
  }

  /** What the sweep leaves alone: all but active attempts of w and their RUNNING tasks. */
  ghost predicate SweepFrame(db: Db, db': Db, w: WorkflowId) {
    && Touches(db, db', w) && db'.workflows == db.workflows && db'.attempts.Keys == db.attempts.Keys
    && (forall t | t in db.tasks ::
          db'.tasks[t] == db.tasks[t]
          || (t.workflow == w && db.tasks[t].state.Running? && db'.tasks[t].state.Cancelled?))
    && (forall a | a in db.attempts && a !in ActiveAttempts(db, w) :: db'.attempts[a] == db.attempts[a])
  }

  /** The active attempts of w outside todo have been swept. */
  ghost predicate SweptBut(db: Db, db': Db, w: WorkflowId, todo: set<AttemptId>, now: Time) {
    SweepFrame(db, db', w) && forall a | a in ActiveAttempts(db, w) :: AttemptSwept(db, db', a, todo, now)
  }

  lemma NothingSwept(db: Db, w: WorkflowId, now: Time)
    ensures SweptBut(db, db, w, ActiveAttempts(db, w), now)
  {
  }

  /** Two active attempts of one task are the same attempt. */
  ghost predicate OwnersDistinct(db: Db) {
    forall a, b | a in db.attempts && b in db.attempts && db.attempts[a].state.Active()
                  && db.attempts[b].state.Active() && db.attempts[a].task == db.attempts[b].task :: a == b
  }

  lemma OwnersAreDistinct(db: Db)
    requires Inv(db)
    ensures OwnersDistinct(db)
    ensures forall a | a in db.attempts && db.attempts[a].state.Active() ::
              db.attempts[a].task in db.tasks && db.tasks[db.attempts[a].task].state.Running?
  {
    hide TaskOk, WorkflowOk, LedgerOk;
    AttemptSchema(db);
    forall a | a in db.attempts && db.attempts[a].state.Active()
      ensures db.attempts[a].task in db.tasks && db.tasks[db.attempts[a].task].state.Running?
    {
      assert AttemptOk(db, a);
    }
  }

  /** On a quiet draining workflow an elapsed attempt and its RUNNING task are both cancelled. */
  lemma DeadlineCancels(db: Db, a: AttemptId, row: AttemptRow, task: TaskRow, now: Time)
    requires a in db.attempts && db.attempts[a] == row && row.state.Active() && Elapsed(row, now)
    requires row.task in db.tasks && db.tasks[row.task] == task && task.state.Running?
    requires IsDraining(db, row.task.workflow)
    ensures var r := CancellationDeadlineTx(db, db, db, a, row.revision, row.task, task.revision, now);
      Cancels(db, r.db, a, row, task)
  {
  }

  /** db' cancels attempt a and its task in db. */
  ghost predicate Cancels(db: Db, db': Db, a: AttemptId, row: AttemptRow, task: TaskRow) {
    && db'.definitions == db.definitions && db'.workflows == db.workflows
    && db'.attempts == db.attempts[a := FinishAttempt(row, AttemptState.Cancelled, None)]
    && db'.tasks == db.tasks[row.task := task.(state := TaskState.Cancelled, revision := task.revision + 1)]
  }

  lemma SweepCancelAttempts(start: Db, db: Db, db': Db, w: WorkflowId, todo: set<AttemptId>, a: AttemptId, now: Time)
    requires forall b | b in ActiveAttempts(start, w) :: b in db.attempts && AttemptSwept(start, db, b, todo, now)
    requires a in todo && a in ActiveAttempts(start, w) && OwnersDistinct(start) && Elapsed(start.attempts[a], now)
    requires Cancels(db, db', a, start.attempts[a], start.tasks[start.attempts[a].task])
    ensures forall b | b in ActiveAttempts(start, w) ::
              b in db'.attempts && AttemptSwept(start, db', b, todo - {a}, now)
  {
    forall b | b in ActiveAttempts(start, w)
      ensures b in db'.attempts && AttemptSwept(start, db', b, todo - {a}, now)
    {
      assert AttemptSwept(start, db, b, todo, now);
    }
  }

  lemma SweepCancelStep(start: Db, db: Db, w: WorkflowId, todo: set<AttemptId>, a: AttemptId, now: Time)
    requires SweptBut(start, db, w, todo, now) && a in todo && a in ActiveAttempts(start, w)
    requires OwnersDistinct(start) && start.tasks[start.attempts[a].task].state.Running?
    requires Elapsed(start.attempts[a], now) && IsDraining(start, w)
    ensures var r := start.attempts[a];
      SweptBut(start,
               CancellationDeadlineTx(db, db, db, a, r.revision, r.task, start.tasks[r.task].revision, now).db,
               w, todo - {a}, now)
  {
    hide CancellationDeadlineTx, OwnersDistinct;
    var row := start.attempts[a];
    UnsweptTask(start, db, w, todo, a, now);
    DeadlineCancels(db, a, row, start.tasks[row.task], now);
    var db' := CancellationDeadlineTx(db, db, db, a, row.revision, row.task, start.tasks[row.task].revision, now).db;
    SweepCancelAttempts(start, db, db', w, todo, a, now);
    CancelKeepsFrame(start, db, db', w, a);
    hide AttemptSwept, SweepFrame;
  }

  lemma CancelKeepsFrame(start: Db, db: Db, db': Db, w: WorkflowId, a: AttemptId)
    requires SweepFrame(start, db, w) && a in ActiveAttempts(start, w)
    requires Cancels(db, db', a, start.attempts[a], start.tasks[start.attempts[a].task])
    requires start.tasks[start.attempts[a].task].state.Running?
    ensures SweepFrame(start, db', w)
  {
  }

  lemma SweepDeadlineAttempts(start: Db, db: Db, w: WorkflowId, todo: set<AttemptId>, a: AttemptId, now: Time)
    requires forall b | b in ActiveAttempts(start, w) :: b in db.attempts && AttemptSwept(start, db, b, todo, now)
    requires a in todo && a in ActiveAttempts(start, w) && start.attempts[a].cancellationDeadline.None?
    ensures var db' := CancelDeadlineTx(db, a, now + CANCELLATION_GRACE).db;
      forall b | b in ActiveAttempts(start, w) :: b in db'.attempts && AttemptSwept(start, db', b, todo - {a}, now)
  {
    var db' := CancelDeadlineTx(db, a, now + CANCELLATION_GRACE).db;
    forall b | b in ActiveAttempts(start, w) ensures AttemptSwept(start, db', b, todo - {a}, now) {
      assert AttemptSwept(start, db, b, todo, now);
    }
  }

  lemma SweepDeadlineStep(start: Db, db: Db, w: WorkflowId, todo: set<AttemptId>, a: AttemptId, now: Time)
    requires SweptBut(start, db, w, todo, now) && a in todo && a in ActiveAttempts(start, w)
    requires start.attempts[a].cancellationDeadline.None?
    ensures SweptBut(start, CancelDeadlineTx(db, a, now + CANCELLATION_GRACE).db, w, todo - {a}, now)
  {
    SweepDeadlineAttempts(start, db, w, todo, a, now);
    DeadlineKeepsFrame(start, db, w, a, now + CANCELLATION_GRACE);
    hide AttemptSwept, SweepFrame, CancelDeadlineTx;
  }

  lemma DeadlineKeepsFrame(start: Db, db: Db, w: WorkflowId, a: AttemptId, deadline: Time)
    requires SweepFrame(start, db, w) && a in ActiveAttempts(start, w)
    ensures SweepFrame(start, CancelDeadlineTx(db, a, deadline).db, w)
  {
  }

  lemma SweepSkipStep(start: Db, db: Db, w: WorkflowId, todo: set<AttemptId>, a: AttemptId, now: Time)
    requires SweptBut(start, db, w, todo, now) && a in todo && a in ActiveAttempts(start, w)
    requires start.attempts[a].cancellationDeadline.Some? && !Elapsed(start.attempts[a], now)
    ensures SweptBut(start, db, w, todo - {a}, now)
  {
    assert AttemptSwept(start, db, a, todo, now);
    forall b | b in ActiveAttempts(start, w) ensures AttemptSwept(start, db, b, todo - {a}, now) {
      assert AttemptSwept(start, db, b, todo, now);
    }
  }

  method SweepActive(store: Store, w: WorkflowId, now: Time)
    requires store.Valid()
    modifies store
    ensures store.Continues(old(store.log))
    ensures store.quiet && IsDraining(old(store.Db()), w) ==> SweptBut(old(store.Db()), store.Db(), w, {}, now)
  {
    hide Inv, Evolves, IsRun, Leads, SweptBut, AttemptSwept;
    ghost var log, start, at := store.log, store.Db(), store.Now();
    ghost var exact := store.quiet && IsDraining(start, w);
    StandsStill(store);
    OwnersAreDistinct(start);
    NothingSwept(start, w, now);
    var snapshot := store.Db();
    var todo := ActiveAttempts(snapshot, w);
    while todo != {}
      invariant todo <= ActiveAttempts(snapshot, w)
      invariant store.Continues(log)
      invariant exact ==> SweptBut(start, store.Db(), w, todo, now)
      decreases todo
    {
      var a :| a in todo;
      var row := snapshot.attempts[a];
      ghost var l := store.log;
      if Elapsed(row, now) {
        ReadLater(log, l, at, start);
        CancelElapsed(store, start, at, w, todo, a, row, now);
        GoesOn(store, log, l);
      } else if row.cancellationDeadline.None? {
        SetDeadline(store, start, w, todo, a, now);
        GoesOn(store, log, l);
      } else if exact {
        SweepSkipStep(start, store.Db(), w, todo, a, now);
      }
      todo := todo - {a};
    }
  }

  method SetDeadline(
    store: Store, ghost start: Db, w: WorkflowId, ghost todo: set<AttemptId>, a: AttemptId, now: Time)
    requires store.Valid()
    modifies store
    ensures store.Continues(old(store.log))
    ensures store.quiet && SweptBut(start, old(store.Db()), w, todo, now) && a in todo
            && a in ActiveAttempts(start, w) && start.attempts[a].cancellationDeadline.None?
            ==> SweptBut(start, store.Db(), w, todo - {a}, now)
  {
    hide Inv, Evolves, IsRun, Leads, SweptBut, CancelDeadlineTx;
    ghost var log := store.log;
    store.Others();
    ghost var l, db := store.log, store.Db();
    var _ := store.SetCancellationDeadline(a, now);
    GoesOn(store, log, l);
    if store.quiet && SweptBut(start, db, w, todo, now) && a in todo && a in ActiveAttempts(start, w)
       && start.attempts[a].cancellationDeadline.None? {
      SweepDeadlineStep(start, db, w, todo, a, now);
    }
  }

  /** Reads the task of an elapsed attempt, itself read in start, and cancels both if the task is RUNNING. */
  method CancelElapsed(
    store: Store, ghost start: Db, ghost at: nat, w: WorkflowId, ghost todo: set<AttemptId>, a: AttemptId,
    row: AttemptRow, now: Time)
    requires store.Valid() && ReadAt(store.log, at, start) && a in start.attempts && start.attempts[a] == row
    modifies store
    ensures store.Continues(old(store.log))
    ensures store.quiet && SweptBut(start, old(store.Db()), w, todo, now) && a in todo
            && a in ActiveAttempts(start, w) && Elapsed(row, now) && IsDraining(start, w)
            ==> SweptBut(start, store.Db(), w, todo - {a}, now)
  {
    hide Inv, Evolves, IsRun, Leads, SweptBut, CancellationDeadlineTx, OwnersDistinct;
    ghost var log := store.log;
    Since(store, at, start);
    store.Others();
    ghost var l, db, j := store.log, store.Db(), store.Now();
    ReadLater(log, l, at, start);
    OwnersAreDistinct(start);
    if store.quiet && SweptBut(start, db, w, todo, now) && a in todo && a in ActiveAttempts(start, w) {
      UnsweptTask(start, db, w, todo, a, now);
    }
    if row.task in store.tasks && store.tasks[row.task].state.Running? {
      var expected := store.tasks[row.task].revision;
      var status;
      ghost var g1, g2, d;
      status, g1, g2, d := store.CommitInternalCancellationDeadline(a, row.revision, row.task, expected, now, at, j);
      GoesOn(store, log, l);
      if store.quiet && SweptBut(start, db, w, todo, now) && a in todo && a in ActiveAttempts(start, w)
         && Elapsed(row, now) && IsDraining(start, w) {
        SweepCancelStep(start, db, w, todo, a, now);
      }
    }
  }

  lemma UnsweptTask(start: Db, db: Db, w: WorkflowId, todo: set<AttemptId>, a: AttemptId, now: Time)
    requires SweptBut(start, db, w, todo, now) && a in todo && a in ActiveAttempts(start, w)
    ensures start.attempts[a].task in db.tasks
    ensures db.tasks[start.attempts[a].task] == start.tasks[start.attempts[a].task]
    ensures db.attempts[a] == start.attempts[a]
  {
    assert AttemptSwept(start, db, a, todo, now);
  }

  lemma RowsAreOk(db: Db, a: AttemptId, t: TaskId)
    requires Inv(db)
    ensures RowsOk(db, a, t)
  {
  }

  // ----------------------------------------------------------------------------- 3. terminal workflow

  /** A draining workflow whose tasks are all terminal has taken its terminal state; tasks are untouched. */
  ghost predicate Terminalized(db: Db, db': Db, w: WorkflowId)
    requires w in db.workflows
  {
    && OnlyWorkflowMoved(db, db', w)
    && w in db'.workflows
    && if AllTasksIn(db, w, TerminalTaskStates)
       then db'.workflows[w].state ==
            if db.workflows[w].state.Failing? then WorkflowState.Failed else WorkflowState.Cancelled
       else db'.workflows == db.workflows
  }

  lemma NamesComplete(db: Db, w: WorkflowId, counted: set<TaskState>)
    requires w in db.workflows && db.workflows[w].definition in db.definitions && FullMembership(db, w)
    requires forall t | t in db.tasks && t.workflow == w :: Declared(db, t)
    requires AllTasksIn(db, w, counted)
    ensures db.definitions[db.workflows[w].definition].tasks.Keys == TaskNames(db, w, counted)
  {
    var tasks := db.definitions[db.workflows[w].definition].tasks;
    forall k | k in tasks ensures k in TaskNames(db, w, counted) {
      assert TaskId(w, k) in db.tasks;
    }
    forall t | t in db.tasks && t.workflow == w ensures t.definition in tasks {
      assert Declared(db, t);
    }
  }

  method Terminalize(store: Store, w: WorkflowId, now: Time)
    requires store.Valid()
    modifies store
    ensures store.Continues(old(store.log))
    ensures store.quiet ==> OnlyWorkflowMoved(old(store.Db()), store.Db(), w)
    ensures var db := old(store.Db());
      store.quiet && IsDraining(db, w) && db.workflows[w].definition in db.definitions && FullMembership(db, w)
      ==> Terminalized(db, store.Db(), w)
  {
    hide Inv, Evolves, IsRun, Leads, MembershipGuard, FullMembership, Touches;
    ghost var log, db := store.log, store.Db();
    StandsStill(store);
    var snapshot := store.Db();
    var allTerminal := forall t | t in TasksOf(snapshot, w) :: snapshot.tasks[t].state.Terminal();
    AllTerminalMeans(snapshot, w);
    UntouchedMoved(db, w);
    if allTerminal {
      store.Others();
      ghost var l, seen, at := store.log, store.Db(), store.Now();
      if w in store.workflows {
        var row := store.workflows[w];
        if row.state.Draining() {
          SettleDrained(store, w, row.revision, row.state.Failing?, seen, at, now);
          GoesOn(store, log, l);
        }
      }
    }
  }

  lemma UntouchedMoved(db: Db, w: WorkflowId)
    ensures OnlyWorkflowMoved(db, db, w) && Touches(db, db, w)
  {
  }

  lemma NothingEnds(db: Db, some: set<AttemptId>, now: Time)
    ensures OnlyEnds(db, db, some, now)
  {
  }

  lemma AllTerminalMeans(db: Db, w: WorkflowId)
    ensures (forall t | t in TasksOf(db, w) :: db.tasks[t].state.Terminal()) <==> AllTasksIn(db, w, TerminalTaskStates)
  {
    forall t | t in db.tasks && t.workflow == w ensures t in TasksOf(db, w) {
    }
  }

  /** Commits the terminal state that matches the direction of the drain, read with the revision in seen. */
  method SettleDrained(
    store: Store, w: WorkflowId, revision: int, failing: bool, ghost seen: Db, ghost at: nat, now: Time)
    requires store.Valid() && ReadAt(store.log, at, seen) && WorkflowRead(seen, w, revision)
    modifies store
    ensures store.Continues(old(store.log))
    ensures store.quiet ==> OnlyWorkflowMoved(old(store.Db()), store.Db(), w)
    ensures var db := old(store.Db());
      store.quiet && IsDraining(db, w) && db.workflows[w].definition in db.definitions && FullMembership(db, w)
      && AllTasksIn(db, w, TerminalTaskStates)
      && db.workflows[w].revision == revision && failing == db.workflows[w].state.Failing?
      ==> w in store.workflows
          && store.workflows[w].state == if failing then WorkflowState.Failed else WorkflowState.Cancelled
  {
    hide Inv, Evolves, IsRun, Leads, FullMembership, TaskNames, AllTasksIn;
    ghost var db := store.Db();
    var status;
    ghost var g1, g2, d;
    ghost var from := if failing then WorkflowState.Failing else WorkflowState.Cancelling;
    ghost var to := if failing then WorkflowState.Failed else WorkflowState.Cancelled;
    ghost var event := if failing then WorkflowExecutionFailed else WorkflowExecutionCancelled;
    if failing {
      status, g1, g2, d := store.CommitWorkflowFailure(w, revision, now, at);
    } else {
      status, g1, g2, d := store.CommitWorkflowCancellation(w, revision, now, at);
    }
    if store.quiet {
      MembershipTouches(db, w, revision, from, TerminalTaskStates, to, None, event, now);
      if IsDraining(db, w) && db.workflows[w].definition in db.definitions && FullMembership(db, w)
         && AllTasksIn(db, w, TerminalTaskStates) {
        WorkflowTasksDeclared(db, w);
        NamesComplete(db, w, TerminalTaskStates);
      }
    }
  }

  lemma WorkflowTasksDeclared(db: Db, w: WorkflowId)
    requires Inv(db)
    ensures forall t | t in db.tasks && t.workflow == w :: Declared(db, t)
  {
    hide WorkflowOk, AttemptOk, LedgerOk;
    forall t | t in db.tasks && t.workflow == w ensures Declared(db, t) { TaskDeclared(db, t); }
  }

  // ------------------------------------------------------------------------------------ the whole drain

  /** What one drain at time now does to a quiet draining workflow that has its tasks. */
  ghost predicate Drained(db: Db, db': Db, w: WorkflowId, now: Time)
    requires w in db.workflows
  {
    && Touches(db, db', w) && w in db'.workflows && db'.attempts.Keys == db.attempts.Keys
    && (forall t | t in db.tasks && t.workflow == w :: DrainedTask(db.tasks[t], db'.tasks[t]))
    && (forall a | a in ActiveAttempts(db, w) :: AttemptSwept(db, db', a, {}, now))
    && db'.workflows[w].state ==
       if !AllTasksIn(db', w, TerminalTaskStates) then db.workflows[w].state
       else if db.workflows[w].state.Failing? then WorkflowState.Failed
       else WorkflowState.Cancelled
  }

  predicate DrainedTask(r: TaskRow, r': TaskRow) {
    && (r.state.Unstarted() ==> r'.state.Cancelled?)
    && (r.state.Terminal() ==> r' == r)
    && (r.state.Running? ==> r' == r || r'.state.Cancelled?)
  }

  lemma DrainComposes(db0: Db, db1: Db, db2: Db, db3: Db, w: WorkflowId, now: Time)
    requires w in db0.workflows
    requires forall a | a in db0.attempts && db0.attempts[a].state.Active() ::
               db0.attempts[a].task in db0.tasks && db0.tasks[db0.attempts[a].task].state.Running?
    requires CancelledBut(db0, db1, w, {}) && SweptBut(db1, db2, w, {}, now) && Terminalized(db2, db3, w)
    requires Touches(db0, db3, w) && db3.attempts.Keys == db0.attempts.Keys
    ensures Drained(db0, db3, w, now)
  {
    DrainComposesTasks(db0, db1, db2, db3, w, now);
    forall a | a in ActiveAttempts(db0, w) ensures AttemptSwept(db0, db3, a, {}, now) {
      assert a in ActiveAttempts(db1, w);
      assert AttemptSwept(db1, db2, a, {}, now);
    }
  }

  lemma DrainComposesTasks(db0: Db, db1: Db, db2: Db, db3: Db, w: WorkflowId, now: Time)
    requires CancelledBut(db0, db1, w, {}) && SweptBut(db1, db2, w, {}, now)
    requires OnlyWorkflowMoved(db2, db3, w)
    ensures forall t | t in db0.tasks && t.workflow == w ::
              t in db3.tasks && DrainedTask(db0.tasks[t], db3.tasks[t])
  {
  }

  lemma DrainedFrame(db: Db, db': Db, w: WorkflowId, now: Time)
    requires w in db.workflows && Drained(db, db', w, now)
    ensures Touches(db, db', w) && w in db'.workflows
  {
  }

  method DrainWorkflow(store: Store, w: WorkflowId, now: Time)
    requires store.Valid()
    modifies store
    ensures store.Continues(old(store.log))
    ensures store.quiet ==> Touches(old(store.Db()), store.Db(), w) && store.attempts.Keys == old(store.attempts.Keys)
    ensures store.quiet ==> OnlyEnds(old(store.Db()), store.Db(), {}, now)
    ensures var db := old(store.Db());
      store.quiet && IsDraining(db, w) && db.workflows[w].definition in db.definitions && FullMembership(db, w)
      ==> Drained(db, store.Db(), w, now)
    ensures store.quiet && !IsDraining(old(store.Db()), w) ==> store.Db() == old(store.Db())
  {
    hide Inv, Evolves, IsRun, Leads, SweptBut, CancelledBut, Terminalized, Drained, FullMembership, Touches,
         OnlyWorkflowMoved, OnlyEnds;
    ghost var log, db0 := store.log, store.Db();
    StandsStill(store);
    UntouchedMoved(db0, w);
    NothingEnds(db0, {}, now);
    if !(w in store.workflows && store.workflows[w].state.Draining()) {
      return;
    }
    store.Others();
    var snapshot := store.Db();
    ghost var l, at := store.log, store.Now();
    store.Others();
    GoesOn(store, log, l);
    ReadLater(l, store.log, at, snapshot);
    l := store.log;
    CancelUnstarted(store, w, snapshot, at, now);
    GoesOn(store, log, l);
    ghost var db1 := store.Db();
    l := store.log;
    SweepActive(store, w, now);
    GoesOn(store, log, l);
    ghost var db2 := store.Db();
    l := store.log;
    Terminalize(store, w, now);
    GoesOn(store, log, l);
    if store.quiet {
      StillDraining(db0, db1, db2, w, now);
      OwnersAreDistinct(db1);
      DrainTouches(db0, db1, db2, store.Db(), w, now);
    }
    if store.quiet && db0.workflows[w].definition in db0.definitions && FullMembership(db0, w) {
      OwnersAreDistinct(db0);
      DrainComposes(db0, db1, db2, store.Db(), w, now);
    }
  }

  lemma DrainTouches(db0: Db, db1: Db, db2: Db, db3: Db, w: WorkflowId, now: Time)
    requires CancelledBut(db0, db1, w, {}) && SweptBut(db1, db2, w, {}, now) && OnlyWorkflowMoved(db2, db3, w)
    requires Evolves(db1, db2)
    requires forall a | a in db1.attempts && db1.attempts[a].state.Active() :: db1.attempts[a].task in db1.tasks
    ensures Touches(db0, db3, w) && db3.attempts.Keys == db0.attempts.Keys && OnlyEnds(db0, db3, {}, now)
  {
    TouchesTransitive(db0, db1, db2, w);
    TouchesTransitive(db0, db2, db3, w);
    SweepOnlyEnds(db1, db2, w, now);
  }

  /** Equal up to the cancellation deadline, which drains set without touching the revision. */
  predicate SameButDeadline(r: AttemptRow, r': AttemptRow) {
    r'.(cancellationDeadline := r.cancellationDeadline) == r
  }

  /** Active attempts may be CANCELLED, and those of some may FAIL; tasks that are not RUNNING may be CANCELLED; and a
      cancellation deadline may be set, ten seconds ahead of now. Nothing else becomes of attempts and of such tasks. */
  ghost predicate OnlyEnds(db: Db, db': Db, some: set<AttemptId>, now: Time) {
    && (forall a | a in db.attempts ::
          && a in db'.attempts
          && (|| SameButDeadline(db.attempts[a], db'.attempts[a])
              || (db.attempts[a].state.Active()
                  && (db'.attempts[a].state.Cancelled? || (a in some && db'.attempts[a].state.Failed?))))
          && (|| db'.attempts[a].cancellationDeadline == db.attempts[a].cancellationDeadline
              || (db.attempts[a].cancellationDeadline.None?
                  && db'.attempts[a].cancellationDeadline == Some(now + 10))))
    && (forall t | t in db.tasks && !db.tasks[t].state.Running? ::
          t in db'.tasks && (db'.tasks[t] == db.tasks[t] || db'.tasks[t].state.Cancelled?))
  }

  lemma OnlyEndsTransitive(
    db0: Db, db1: Db, db2: Db, some: set<AttemptId>, more: set<AttemptId>, all: set<AttemptId>,
    now: Time)
    requires OnlyEnds(db0, db1, some, now) && OnlyEnds(db1, db2, more, now) && some <= all && more <= all
    ensures OnlyEnds(db0, db2, all, now)
  {
  }

  lemma SweepOnlyEnds(db: Db, db': Db, w: WorkflowId, now: Time)
    requires SweptBut(db, db', w, {}, now)
    ensures OnlyEnds(db, db', {}, now)
  {
    forall a | a in db.attempts
      ensures SameButDeadline(db.attempts[a], db'.attempts[a])
              || (db.attempts[a].state.Active() && db'.attempts[a].state.Cancelled?)
      ensures db'.attempts[a].cancellationDeadline == db.attempts[a].cancellationDeadline
              || (db.attempts[a].cancellationDeadline.None? && db'.attempts[a].cancellationDeadline == Some(now + 10))
    {
      if a in ActiveAttempts(db, w) { assert AttemptSwept(db, db', a, {}, now); }
    }
  }

  lemma StillDraining(db0: Db, db1: Db, db2: Db, w: WorkflowId, now: Time)
    requires CancelledBut(db0, db1, w, {}) && w in db0.workflows
    requires IsDraining(db1, w) ==> SweptBut(db1, db2, w, {}, now)
    ensures IsDraining(db0, w) ==> IsDraining(db1, w) && IsDraining(db2, w)
    ensures IsDraining(db0, w) && db0.workflows[w].definition in db0.definitions && FullMembership(db0, w) ==>
              db2.workflows[w].definition in db2.definitions && FullMembership(db2, w)
  {
  }

  /** After a drain the workflow is terminal, or one of its tasks is still RUNNING. */
  lemma DrainedRests(db: Db, db': Db, w: WorkflowId, now: Time)
    requires IsDraining(db, w) && Drained(db, db', w, now)
    ensures Quiescent(db', w)
  {
    if !AllTasksIn(db', w, TerminalTaskStates) {
      var t :| t in db'.tasks && t.workflow == w && db'.tasks[t].state !in TerminalTaskStates;
      assert DrainedTask(db.tasks[t], db'.tasks[t]);
      assert RunningTaskOf(db', w, t);
    }
  }

  /** No active attempt of w waits for its cancellation deadline beyond limit. */
  ghost predicate DeadlinesBy(db: Db, w: WorkflowId, limit: Time) {
    forall a | a in ActiveAttempts(db, w) && db.attempts[a].cancellationDeadline.Some? ::
      db.attempts[a].cancellationDeadline.value <= limit
  }

  /** When one drain settles its workflow, exactly: if and only if the cancellation deadlines of all its active attempts
      have passed. */
  lemma DrainSettlesIff(db: Db, db': Db, w: WorkflowId, now: Time)
    requires Inv(db) && IsDraining(db, w) && Drained(db, db', w, now)
    ensures w in db'.workflows
    ensures db'.workflows[w].state.Terminal() <==> forall a | a in ActiveAttempts(db, w) :: Elapsed(db.attempts[a], now)
  {
    hide Inv, Touches, AttemptSwept;
    OwnersAreDistinct(db);
    if a :| a in ActiveAttempts(db, w) && !Elapsed(db.attempts[a], now) {
      NotElapsedStays(db, db', w, a, now);
    } else {
      forall t | t in db.tasks && t.workflow == w && db.tasks[t].state.Running?
        ensures t in db'.tasks && db'.tasks[t].state.Cancelled?
      {
        RunningIsOwned(db, t);
        var a :| ActiveOn(db, a, t);
        assert a in ActiveAttempts(db, w);
        ElapsedEnds(db, db', w, a, now);
      }
      AllEnd(db, db', w, now);
    }
  }

  lemma NotElapsedStays(db: Db, db': Db, w: WorkflowId, a: AttemptId, now: Time)
    requires IsDraining(db, w) && Drained(db, db', w, now)
    requires a in ActiveAttempts(db, w) && !Elapsed(db.attempts[a], now)
    requires db.tasks[db.attempts[a].task].state.Running?
    ensures !AllTasksIn(db', w, TerminalTaskStates) && !db'.workflows[w].state.Terminal()
  {
    hide Touches;
    assert AttemptSwept(db, db', a, {}, now);
    assert db'.tasks[db.attempts[a].task].state !in TerminalTaskStates;
  }

  lemma ElapsedEnds(db: Db, db': Db, w: WorkflowId, a: AttemptId, now: Time)
    requires w in db.workflows && Drained(db, db', w, now)
    requires a in ActiveAttempts(db, w) && Elapsed(db.attempts[a], now)
    ensures db.attempts[a].task in db'.tasks && db'.tasks[db.attempts[a].task].state.Cancelled?
  {
    assert AttemptSwept(db, db', a, {}, now);
  }

  lemma AllEnd(db: Db, db': Db, w: WorkflowId, now: Time)
    requires w in db.workflows && Drained(db, db', w, now)
    requires forall t | t in db.tasks && t.workflow == w && db.tasks[t].state.Running? ::
               t in db'.tasks && db'.tasks[t].state.Cancelled?
    ensures AllTasksIn(db', w, TerminalTaskStates)
  {
    forall t | t in db'.tasks && t.workflow == w ensures db'.tasks[t].state in TerminalTaskStates {
      assert DrainedTask(db.tasks[t], db'.tasks[t]);
    }
  }

  /** Drain completion: two drains of a quiet workflow settle it, if the second comes ten seconds after the first and
      after every deadline that was set before. Unstarted tasks end CANCELLED, finished ones stay as they were, and
      what was running is CANCELLED too. */
  lemma TwoDrainsSettle(db0: Db, db1: Db, db2: Db, w: WorkflowId, now: Time, later: Time)
    requires Inv(db0) && Advances(db0, db1) && IsDraining(db0, w)
    requires DeadlinesBy(db0, w, later) && now + 10 <= later
    requires Drained(db0, db1, w, now)
    requires if IsDraining(db1, w) then Drained(db1, db2, w, later) else db2 == db1
    ensures w in db2.workflows && db2.workflows[w].state ==
            if db0.workflows[w].state.Failing? then WorkflowState.Failed else WorkflowState.Cancelled
    ensures forall t | t in db0.tasks && t.workflow == w ::
              t in db2.tasks && db2.tasks[t].state.Terminal()
              && if db0.tasks[t].state.Terminal() then db2.tasks[t] == db0.tasks[t] else db2.tasks[t].state.Cancelled?
  {
    hide Inv, Evolves, Touches;
    if IsDraining(db1, w) {
      forall t | RunningTaskOf(db1, w, t) ensures t in db2.tasks && db2.tasks[t].state.Cancelled? {
        SecondDrainCancels(db0, db1, db2, w, t, now, later);
      }
      EndsTerminal(db0, db1, db2, w, now, later);
    } else {
      forall t | t in db0.tasks && t.workflow == w ensures t in db1.tasks && DrainedTask(db0.tasks[t], db1.tasks[t]) {
        assert Touches(db0, db1, w);
        TouchedKeys(db0, db1, w);
      }
      TouchedKeys(db0, db1, w);
      assert AllTasksIn(db1, w, TerminalTaskStates);
    }
  }

  lemma TouchedKeys(db: Db, db': Db, w: WorkflowId)
    requires Touches(db, db', w)
    ensures db'.tasks.Keys == db.tasks.Keys
  {
  }

  lemma EndsTerminal(db0: Db, db1: Db, db2: Db, w: WorkflowId, now: Time, later: Time)
    requires w in db0.workflows && w in db1.workflows
    requires Drained(db0, db1, w, now) && Drained(db1, db2, w, later)
    requires forall t | RunningTaskOf(db1, w, t) :: t in db2.tasks && db2.tasks[t].state.Cancelled?
    ensures AllTasksIn(db2, w, TerminalTaskStates)
    ensures forall t | t in db0.tasks && t.workflow == w ::
              t in db2.tasks && db2.tasks[t].state.Terminal()
              && if db0.tasks[t].state.Terminal() then db2.tasks[t] == db0.tasks[t] else db2.tasks[t].state.Cancelled?
  {
    forall t | t in db0.tasks && t.workflow == w
      ensures t in db2.tasks && db2.tasks[t].state in TerminalTaskStates
      ensures if db0.tasks[t].state.Terminal() then db2.tasks[t] == db0.tasks[t] else db2.tasks[t].state.Cancelled?
    {
      assert DrainedTask(db0.tasks[t], db1.tasks[t]) && DrainedTask(db1.tasks[t], db2.tasks[t]);
      if db1.tasks[t].state.Running? { assert RunningTaskOf(db1, w, t); }
    }
  }

  lemma SecondDrainCancels(
    db0: Db, db1: Db, db2: Db, w: WorkflowId, t: TaskId, now: Time, later: Time)
    requires Inv(db0) && Advances(db0, db1) && w in db0.workflows && w in db1.workflows
    requires DeadlinesBy(db0, w, later) && now + 10 <= later
    requires Drained(db0, db1, w, now) && Drained(db1, db2, w, later)
    requires RunningTaskOf(db1, w, t)
    ensures t in db2.tasks && db2.tasks[t].state.Cancelled?
  {
    hide Inv, Evolves, Drained;
    RunningIsOwned(db1, t);
    var a :| ActiveOn(db1, a, t);
    OwnersAreDistinct(db0);
    OwnerWasActive(db0, db1, w, a, now);
    OwnerSwept(db0, db1, db2, w, a, t, now, later);
  }

  /** Attempts are never added by a drain, so an owner found afterwards was active before. */
  lemma OwnerWasActive(db0: Db, db1: Db, w: WorkflowId, a: AttemptId, now: Time)
    requires Evolves(db0, db1) && w in db0.workflows && Drained(db0, db1, w, now)
    requires forall x | x in db0.attempts && db0.attempts[x].state.Active() :: db0.attempts[x].task in db0.tasks
    requires a in db1.attempts && db1.attempts[a].state.Active() && db1.attempts[a].task.workflow == w
    ensures a in ActiveAttempts(db0, w) && AttemptSwept(db0, db1, a, {}, now)
    ensures db0.attempts[a].task == db1.attempts[a].task
  {
    assert a in db0.attempts && AttemptEvolves(db0.attempts[a], db1.attempts[a]);
  }

  lemma OwnerSwept(
    db0: Db, db1: Db, db2: Db, w: WorkflowId, a: AttemptId, t: TaskId, now: Time, later: Time)
    requires DeadlinesBy(db0, w, later) && now + 10 <= later
    requires w in db1.workflows && Drained(db1, db2, w, later)
    requires a in ActiveAttempts(db0, w) && a in db1.attempts && AttemptSwept(db0, db1, a, {}, now)
    requires RunningTaskOf(db1, w, t) && ActiveOn(db1, a, t)
    ensures t in db2.tasks && db2.tasks[t].state.Cancelled?
  {
    hide Touches, DrainedTask;
    assert a in ActiveAttempts(db1, w) && AttemptSwept(db1, db2, a, {}, later);
  }

  // ------------------------------------------------------------------------- where deadlines come from

  ghost predicate DeadlineKept(db: Db, db': Db, a: AttemptId)
    requires a in db'.attempts
  {
    db'.attempts[a].cancellationDeadline.Some? ==>
      a in db.attempts && db.attempts[a].cancellationDeadline == db'.attempts[a].cancellationDeadline
  }

  lemma SettlementKeepsDeadline(trace: seq<Db>, step: Step, a: AttemptId)
    requires Sound(trace) && Enabled(trace, step.action) && Settles(step.action)
    requires a in Perform(trace, step).db.attempts
    ensures DeadlineKept(Last(trace), Perform(trace, step).db, a)
  {
    hide Enabled, Perform, Sound;
    SettlementBothOrNeither(trace, step);
  }

  lemma TaskMoveKeepsDeadline(trace: seq<Db>, step: Step, a: AttemptId)
    requires trace != [] && Enabled(trace, step.action) && MovesTask(step.action)
    requires a in Perform(trace, step).db.attempts
    ensures DeadlineKept(Last(trace), Perform(trace, step).db, a)
            || (step.action == SetCancelDeadline(a)
                && Perform(trace, step).db.attempts[a].cancellationDeadline == Some(step.now + 10))
  {
  }

  lemma WorkflowMoveKeepsDeadline(trace: seq<Db>, step: Step, a: AttemptId)
    requires trace != [] && Enabled(trace, step.action) && !Settles(step.action) && !MovesTask(step.action)
    requires a in Perform(trace, step).db.attempts
    ensures DeadlineKept(Last(trace), Perform(trace, step).db, a)
  {
    hide MembershipGuard;
  }

  lemma DeadlineStep(trace: seq<Db>, step: Step, a: AttemptId)
    requires Sound(trace) && Enabled(trace, step.action) && a in Perform(trace, step).db.attempts
    ensures DeadlineKept(Last(trace), Perform(trace, step).db, a)
            || (step.action == SetCancelDeadline(a)
                && Perform(trace, step).db.attempts[a].cancellationDeadline == Some(step.now + 10))
  {
    hide Enabled, Perform, Inv, Evolves, DeadlineKept;
    if Settles(step.action) {
      SettlementKeepsDeadline(trace, step, a);
    } else if MovesTask(step.action) {
      TaskMoveKeepsDeadline(trace, step, a);
    } else {
      WorkflowMoveKeepsDeadline(trace, step, a);
    }
  }

  /** No drain of the run read a clock later than limit. */
  ghost predicate DrainsBy(steps: seq<Step>, limit: Time) {
    forall k | 0 <= k < |steps| && steps[k].action.SetCancelDeadline? :: steps[k].now <= limit
  }

  /** In every run the cancellation deadlines are those the drains have set: none lies beyond the latest clock a drain
      read by more than ten seconds. */
  lemma {:induction false} DeadlinesWereSet(trace: seq<Db>, steps: seq<Step>, limit: Time, a: AttemptId)
    requires IsRun(trace, steps) && DrainsBy(steps, limit)
    requires a in Last(trace).attempts && Last(trace).attempts[a].cancellationDeadline.Some?
    ensures Last(trace).attempts[a].cancellationDeadline.value <= limit + 10
    decreases |steps|
  {
    hide Enabled, Perform, Inv, Evolves;
    if steps == [] {
    } else {
      var n := |steps| - 1;
      PrefixIsRun(trace, steps, n);
      RunsAreSound(trace[..n + 1], steps[..n]);
      DeadlineStep(trace[..n + 1], steps[n], a);
      if DeadlineKept(trace[n], trace[n + 1], a) { DeadlinesWereSet(trace[..n + 1], steps[..n], limit, a); }
    }
  }

  /** Drain completion in every run: from a database a run has come to, two undisturbed drains settle a draining
      workflow that has its tasks, if the second comes ten seconds after the first and after every drain of the run. */
  lemma DrainsSettle(
    trace: seq<Db>, steps: seq<Step>, db1: Db, db2: Db, w: WorkflowId, now: Time, later: Time)
    requires IsRun(trace, steps) && DrainsBy(steps, later - 10) && now + 10 <= later
    requires Advances(Last(trace), db1) && IsDraining(Last(trace), w) && Drained(Last(trace), db1, w, now)
    requires if IsDraining(db1, w) then Drained(db1, db2, w, later) else db2 == db1
    ensures var db0 := Last(trace);
      w in db2.workflows && db2.workflows[w].state ==
      if db0.workflows[w].state.Failing? then WorkflowState.Failed else WorkflowState.Cancelled
    ensures var db0 := Last(trace);
      forall t | t in db0.tasks && t.workflow == w ::
        t in db2.tasks && db2.tasks[t].state.Terminal()
        && if db0.tasks[t].state.Terminal() then db2.tasks[t] == db0.tasks[t] else db2.tasks[t].state.Cancelled?
  {
    hide Enabled, Perform, Inv, Evolves, Drained;
    var db0 := Last(trace);
    RunsAreSound(trace, steps);
    forall a | a in ActiveAttempts(db0, w) && db0.attempts[a].cancellationDeadline.Some?
      ensures db0.attempts[a].cancellationDeadline.value <= later
    {
      DeadlinesWereSet(trace, steps, later - 10, a);
    }
    TwoDrainsSettle(db0, db1, db2, w, now, later);
  }
}
