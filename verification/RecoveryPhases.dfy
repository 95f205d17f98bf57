/**
  The eight phases of startup recovery (orchestration/recovery.py). Rows are fetched in batches of any order; what a
  phase writes is visible at once. Each phase says what it did for every row of its batch and what its count counts.
  */
module RecoveryPhases {
  import opened Wrappers
  import opened JsonCompat
  import opened Rows
  import opened Transactions
  import opened Invariant
  import opened Preservation
  import opened Settlement
  import opened WorkflowMoves
  import opened Protocol
  import opened Steps
  import opened Outcomes
  import opened Progress
  import opened Quiescence
  import opened Store
  import opened Registry
  import opened Promotion
  import opened Drain
  import opened Scheduler

  // ------------------------------------------------------------------------------------ what a step spends

  /** No row was added, and the work left went down by at least n. */
  ghost predicate Spent(db: Db, db': Db, n: nat) {
    SameRows(db, db') && WorkLeft(db') + n <= WorkLeft(db)
  }

  /** On what terms a part of recovery adds attempts: not at all, to eligible sessions with a start deadline, or nothing
      is said of it. */
  datatype Terms = NoneGiven | Given(registry: WorkerRegistry, deadline: Time, now: Time) | Unsaid

  ghost predicate Keeps(terms: Terms, db: Db, db': Db)
    reads if terms.Given? then {terms.registry} else {}
  {
    match terms
    case NoneGiven => db'.attempts.Keys == db.attempts.Keys
    case Given(registry, deadline, now) => NewcomersGiven(db, db', registry, deadline, now)
    case Unsaid => true
  }

  /** A part of recovery that counted n mutations. Undisturbed it spends that much of the work left, and keeps the terms
      on which attempts are added. */
  ghost predicate RecoveryStep(quiet: bool, terms: Terms, db: Db, db': Db, n: nat)
    reads if terms.Given? then {terms.registry} else {}
  {
    quiet ==> Spent(db, db', n) && Keeps(terms, db, db')
  }

  lemma StepTransitive(quiet: bool, terms: Terms, a: Db, b: Db, c: Db, n: nat, m: nat)
    requires RecoveryStep(quiet, terms, a, b, n) && RecoveryStep(quiet, terms, b, c, m)
    requires quiet ==> Evolves(b, c)
    ensures RecoveryStep(quiet, terms, a, c, n + m)
  {
    hide WorkLeft, NewcomersGiven, Evolves;
    if quiet && terms.Given? { NewcomersTransitive(a, b, c, terms.registry, terms.deadline, terms.now); }
  }

  /** Others' commits, between two statements. */
  lemma StepOthers(quiet: bool, terms: Terms, db: Db, db': Db)
    requires quiet ==> db' == db
    ensures RecoveryStep(quiet, terms, db, db', 0)
  {
    hide WorkLeft;
  }

  lemma KeysKeep(terms: Terms, db: Db, db': Db)
    requires db'.attempts.Keys == db.attempts.Keys
    ensures Keeps(terms, db, db')
  {
  }

  /** A change within one workflow is one mutation. */
  lemma StepTouches(quiet: bool, terms: Terms, db: Db, db': Db, w: WorkflowId, n: nat)
    requires Advances(db, db')
    requires quiet ==> Touches(db, db', w)
    requires quiet ==> n == 0 || (n == 1 && (db'.tasks != db.tasks || db'.workflows != db.workflows))
    requires quiet ==> db'.attempts.Keys == db.attempts.Keys || Keeps(terms, db, db')
    ensures RecoveryStep(quiet, terms, db, db', n)
  {
    hide Inv, Evolves, WorkLeft, NewcomersGiven;
    if quiet {
      TouchedRows(db, db', w);
      WorkShrinks(db, db');
      if db'.attempts.Keys == db.attempts.Keys { KeysKeep(terms, db, db'); }
    }
  }

  lemma TouchedRows(db: Db, db': Db, w: WorkflowId)
    requires Touches(db, db', w)
    ensures SameRows(db, db')
  {
  }

  /** An advance of a workflow that exists, as a part of recovery. */
  method Advance(store: Store, registry: WorkerRegistry, startDeadline: Time, w: WorkflowId, now: Time)
    requires store.Valid() && w in store.workflows
    modifies store
    ensures store.Continues(old(store.log))
    ensures RecoveryStep(store.quiet, Given(registry, now + startDeadline, now), old(store.Db()), store.Db(), 0)
    ensures store.quiet ==>
      && Touches(old(store.Db()), store.Db(), w)
      && Advanced(old(store.Db()), store.Db(), registry, startDeadline, w, now)
  {
    hide Inv, Evolves, IsRun, Leads, Touches, RecoveryStep, Advanced;
    ghost var db := store.Db();
    AdvanceWorkflow(store, registry, startDeadline, w, now);
    if store.quiet {
      AdvancedTouches(db, store.Db(), registry, startDeadline, w, now);
      AdvanceGives(db, store.Db(), registry, startDeadline, w, now);
    }
    StepTouches(store.quiet, Given(registry, now + startDeadline, now), db, store.Db(), w, 0);
  }

  lemma AdvancedTouches(
    db: Db, db': Db, registry: WorkerRegistry, startDeadline: Time, w: WorkflowId, now: Time)
    requires w in db.workflows && Advanced(db, db', registry, startDeadline, w, now)
    ensures Touches(db, db', w) && ServedAt(db', registry, w, now)
  {
  }

  ghost predicate ServedAt(db: Db, registry: WorkerRegistry, w: WorkflowId, now: Time)
    reads registry
  {
    w in db.workflows && Served(db, registry, w, now)
  }

  lemma ServedAtKept(db: Db, db': Db, registry: WorkerRegistry, x: WorkflowId, now: Time)
    requires Untouched(db, db', x) && ServedAt(db, registry, x, now)
    ensures ServedAt(db', registry, x, now)
  {
    hide Served;
    ServedKept(db, db', registry, x, now);
  }

  method ResumeDrain(store: Store, ghost terms: Terms, w: WorkflowId, now: Time)
    requires store.Valid()
    modifies store
    ensures store.Continues(old(store.log))
    ensures RecoveryStep(store.quiet, terms, old(store.Db()), store.Db(), 0)
    ensures store.quiet ==> Touches(old(store.Db()), store.Db(), w) && OnlyEnds(old(store.Db()), store.Db(), {}, now)
    ensures store.quiet && IsDraining(old(store.Db()), w) && HasItsTasks(old(store.Db()), w) ==>
              Drained(old(store.Db()), store.Db(), w, now)
  {
    hide Inv, Evolves, IsRun, Leads, Touches, RecoveryStep, Drained, FullMembership, OnlyEnds;
    ghost var db := store.Db();
    DrainWorkflow(store, w, now);
    StepTouches(store.quiet, terms, db, store.Db(), w, 0);
  }

  lemma StillThere(s: Db, db: Db, w: WorkflowId)
    requires Advances(s, db) && w in s.workflows
    ensures w in db.workflows
  {
  }

  // ------------------------------------------------------------------------------ 1. partial initialisation

  function InState(db: Db, states: set<WorkflowState>): set<WorkflowId> {
    set w | w in db.workflows && db.workflows[w].state in states
  }

  /** INITIALIZING, and some task exists. */
  predicate Startable(db: Db, w: WorkflowId) {
    w in db.workflows && db.workflows[w].state.Initializing? && TasksOf(db, w) != {}
  }

  lemma StartableRead(db: Db, w: WorkflowId)
    requires Startable(db, w)
    ensures RepairRead(db, w, db.workflows[w].revision)
  {
    var t :| t in TasksOf(db, w);
    EveryTaskState(db.tasks[t].state);
    assert t.definition in TaskNames(db, w, AnyTaskState);
  }

  lemma RepairEffect(db: Db, w: WorkflowId)
    requires Startable(db, w)
    ensures var db' := RepairInitializingTx(db, w, db.workflows[w].revision).db;
      && OnlyWorkflowMoved(db, db', w) && db'.workflows != db.workflows
      && w in db'.workflows && db'.workflows[w].state == WorkflowState.Running
  {
    var db' := RepairInitializingTx(db, w, db.workflows[w].revision).db;
    assert db'.workflows[w].revision != db.workflows[w].revision;
  }

  /** Workflow w was started and advanced. */
  ghost predicate Repaired(db: Db, registry: WorkerRegistry, w: WorkflowId, now: Time)
    reads registry
  {
    ServedAt(db, registry, w, now) && !db.workflows[w].state.Initializing?
  }

  lemma LeftInitializing(s: Db, db: Db, w: WorkflowId)
    requires Evolves(s, db) && w in s.workflows && s.workflows[w].state == WorkflowState.Running
    ensures w in db.workflows && !db.workflows[w].state.Initializing?
  {
  }

  /** A workflow that is INITIALIZING and has tasks is started and advanced. The row is read again right before the
      unconditional write. */
  method RepairOne(store: Store, registry: WorkerRegistry, startDeadline: Time, w: WorkflowId, now: Time)
    returns (mutated: nat)
    requires store.Valid()
    modifies store
    ensures store.Continues(old(store.log))
    ensures RecoveryStep(store.quiet, Given(registry, now + startDeadline, now), old(store.Db()), store.Db(), mutated)
    ensures store.quiet ==> Touches(old(store.Db()), store.Db(), w)
    ensures store.quiet ==> mutated == if Startable(old(store.Db()), w) then 1 else 0
    ensures store.quiet && mutated == 0 ==> store.Db() == old(store.Db())
    ensures store.quiet && mutated == 1 ==> Repaired(store.Db(), registry, w, now)
  {
    hide Inv, Evolves, IsRun, Leads, Touches, RecoveryStep, RepairInitializingTx, Advanced, Served;
    ghost var terms := Given(registry, now + startDeadline, now);
    ghost var log, db := store.log, store.Db();
    store.Others();
    ghost var l, at := store.log, store.Now();
    var seen := store.Db();
    StepOthers(store.quiet, terms, db, seen);
    UntouchedMoved(db, w);
    mutated := 0;
    if !Startable(seen, w) {
      return;
    }
    StartableRead(seen, w);
    var _ := store.RepairInitializing(w, seen.workflows[w].revision, now, at);
    GoesOn(store, log, l);
    RepairEffect(seen, w);
    ghost var repaired := store.Db();
    StepTouches(store.quiet, terms, seen, repaired, w, 1);
    StepTransitive(store.quiet, terms, db, seen, repaired, 0, 1);
    ghost var l1 := store.log;
    store.Others();
    GoesOn(store, log, l1);
    ghost var l2, later := store.log, store.Db();
    StepOthers(store.quiet, terms, repaired, later);
    StillThere(repaired, later, w);
    Advance(store, registry, startDeadline, w, now);
    GoesOn(store, log, l2);
    StepTransitive(store.quiet, terms, repaired, later, store.Db(), 0, 0);
    StepTransitive(store.quiet, terms, db, repaired, store.Db(), 1, 0);
    if store.quiet {
      TouchesTransitive(db, repaired, store.Db(), w);
      AdvancedTouches(repaired, store.Db(), registry, startDeadline, w, now);
      LeftInitializing(repaired, store.Db(), w);
    }
    mutated := 1;
  }

  /** The workflows of todo are as they were; of the others in the batch, those that could be started are. */
  ghost predicate RepairedBut(
    start: Db, db: Db, registry: WorkerRegistry, batch: set<WorkflowId>, todo: set<WorkflowId>, now: Time)
    reads registry
  {
    && (forall w | w in todo :: Untouched(start, db, w))
    && (forall w | w in batch && w !in todo && Startable(start, w) :: Repaired(db, registry, w, now))
  }

  lemma RepairedStep(
    start: Db, before: Db, db: Db, registry: WorkerRegistry, batch: set<WorkflowId>, todo: set<WorkflowId>,
    w: WorkflowId, now: Time)
    requires RepairedBut(start, before, registry, batch, todo, now) && w in todo && Touches(before, db, w)
    requires Startable(before, w) ==> Repaired(db, registry, w, now)
    ensures RepairedBut(start, db, registry, batch, todo - {w}, now)
    ensures Startable(before, w) <==> Startable(start, w)
  {
    hide Touches, Startable, Served;
    UntouchedStartable(start, before, w);
    forall x | x in todo && x != w ensures Untouched(start, db, x) {
      UntouchedBy(before, db, w, x);
      UntouchedTransitive(start, before, db, x);
    }
    forall x | x in batch && x !in todo && Startable(start, x) ensures Repaired(db, registry, x, now) {
      UntouchedBy(before, db, w, x);
      ServedAtKept(before, db, registry, x, now);
    }
  }

  lemma UntouchedStartable(db: Db, db': Db, w: WorkflowId)
    requires Untouched(db, db', w)
    ensures Startable(db', w) <==> Startable(db, w)
  {
    assert TasksOf(db', w) == TasksOf(db, w);
  }

  lemma NothingTouched(db: Db)
    ensures forall w :: Untouched(db, db, w)
  {
  }

  function StartableIn(db: Db, some: set<WorkflowId>): set<WorkflowId> {
    set w | w in some && Startable(db, w)
  }

  /** Starts and advances exactly those workflows of the batch that can be, and counts them. */
  method Phase1RepairInitializing(
    store: Store, registry: WorkerRegistry, startDeadline: Time, batchSize: nat, now: Time)
    returns (mutations: nat, ghost batch: set<WorkflowId>)
    requires store.Valid()
    modifies store
    ensures store.Continues(old(store.log))
    ensures RecoveryStep(store.quiet, Given(registry, now + startDeadline, now), old(store.Db()), store.Db(), mutations)
    ensures BatchOf(batch, InState(old(store.Db()), {WorkflowState.Initializing}), batchSize)
    ensures store.quiet ==> mutations == |StartableIn(old(store.Db()), batch)|
    ensures store.quiet ==> RepairedBut(old(store.Db()), store.Db(), registry, batch, {}, now)
    ensures store.quiet && mutations == 0 ==> store.Db() == old(store.Db())
  {
    hide Inv, Evolves, IsRun, Leads, RecoveryStep, RepairedBut, Repaired, Startable, Touches;
    ghost var terms := Given(registry, now + startDeadline, now);
    ghost var log, db := store.log, store.Db();
    StandsStill(store);
    StepOthers(store.quiet, terms, db, db);
    var todo := Limit(InState(store.Db(), {WorkflowState.Initializing}), batchSize);
    batch := todo;
    NothingRepaired(db, registry, batch, now);
    ghost var counted: set<WorkflowId> := {};
    mutations := 0;
    while todo != {}
      invariant todo <= batch
      invariant store.Continues(log) && RecoveryStep(store.quiet, terms, db, store.Db(), mutations)
      invariant store.quiet ==> mutations == |counted| && counted == StartableIn(db, batch - todo)
      invariant store.quiet ==> RepairedBut(db, store.Db(), registry, batch, todo, now)
      invariant store.quiet && mutations == 0 ==> store.Db() == db
      decreases todo
    {
      var w :| w in todo;
      ghost var l, before := store.log, store.Db();
      var mutated := RepairOne(store, registry, startDeadline, w, now);
      GoesOn(store, log, l);
      StepTransitive(store.quiet, terms, db, before, store.Db(), mutations, mutated);
      if store.quiet {
        RepairedStep(db, before, store.Db(), registry, batch, todo, w, now);
        if mutated == 1 { counted := counted + {w}; }
      }
      todo := todo - {w};
      mutations := mutations + mutated;
    }
    assert batch - {} == batch;
  }

  lemma NothingRepaired(db: Db, registry: WorkerRegistry, batch: set<WorkflowId>, now: Time)
    ensures RepairedBut(db, db, registry, batch, batch, now)
  {
    NothingTouched(db);
  }

  // ---------------------------------------------------------------------------------- 2. draining workflows

  /** Workflows outside the batch, and those of todo, are as they were; the others rest if they have their tasks. */
  ghost predicate DrainedBut(start: Db, db: Db, batch: set<WorkflowId>, todo: set<WorkflowId>) {
    && (forall w | w in todo || w !in batch :: Untouched(start, db, w))
    && (forall w | w in batch && w !in todo && HasItsTasks(start, w) :: w in db.workflows && Quiescent(db, w))
  }

  lemma DrainedStep(
    start: Db, before: Db, db: Db, batch: set<WorkflowId>, todo: set<WorkflowId>, w: WorkflowId, now: Time)
    requires DrainedBut(start, before, batch, todo) && w in todo && w in batch && Touches(before, db, w)
    requires IsDraining(start, w)
    requires IsDraining(before, w) && HasItsTasks(before, w) ==> Drained(before, db, w, now)
    ensures DrainedBut(start, db, batch, todo - {w})
  {
    hide Touches, HasItsTasks, Drained, Quiescent;
    forall x | (x in todo && x != w) || x !in batch ensures Untouched(start, db, x) {
      UntouchedBy(before, db, w, x);
      UntouchedTransitive(start, before, db, x);
    }
    forall x | x in batch && x !in todo && HasItsTasks(start, x) ensures x in db.workflows && Quiescent(db, x) {
      UntouchedBy(before, db, w, x);
      QuiescentKept(before, db, x);
    }
    if HasItsTasks(start, w) {
      UntouchedBack(start, before, w);
      UntouchedMembers(before, start, w);
      DrainedFrame(before, db, w, now);
      DrainedRests(before, db, w, now);
    }
  }

  lemma UntouchedBack(db: Db, db': Db, w: WorkflowId)
    requires Untouched(db, db', w)
    ensures Untouched(db', db, w) && (IsDraining(db', w) <==> IsDraining(db, w))
  {
  }

  /** Drains FAILING and CANCELLING workflows, so that those of the batch that have their tasks rest. drain_workflow
      returns nothing, so this phase never counts. */
  method Phase2ResumeDraining(store: Store, ghost terms: Terms, batchSize: nat, now: Time)
    returns (mutations: nat, ghost batch: set<WorkflowId>)
    requires store.Valid()
    modifies store
    ensures store.Continues(old(store.log))
    ensures RecoveryStep(store.quiet, terms, old(store.Db()), store.Db(), mutations)
    ensures mutations == 0
    ensures BatchOf(batch, InState(old(store.Db()), {WorkflowState.Failing, WorkflowState.Cancelling}), batchSize)
    ensures store.quiet ==> DrainedBut(old(store.Db()), store.Db(), batch, {})
    ensures store.quiet ==> OnlyEnds(old(store.Db()), store.Db(), {}, now)
  {
    hide Inv, Evolves, IsRun, Leads, RecoveryStep, DrainedBut, Drained, Touches, HasItsTasks, OnlyEnds;
    ghost var log, db := store.log, store.Db();
    StandsStill(store);
    StepOthers(store.quiet, terms, db, db);
    var todo := Limit(InState(store.Db(), {WorkflowState.Failing, WorkflowState.Cancelling}), batchSize);
    batch := todo;
    NothingDrained(db, batch);
    NothingEnds(db, {}, now);
    while todo != {}
      invariant todo <= batch
      invariant store.Continues(log) && RecoveryStep(store.quiet, terms, db, store.Db(), 0)
      invariant store.quiet ==> DrainedBut(db, store.Db(), batch, todo) && OnlyEnds(db, store.Db(), {}, now)
      decreases todo
    {
      var w :| w in todo;
      ghost var l, before := store.log, store.Db();
      ResumeDrain(store, terms, w, now);
      GoesOn(store, log, l);
      StepTransitive(store.quiet, terms, db, before, store.Db(), 0, 0);
      if store.quiet {
        DrainedStep(db, before, store.Db(), batch, todo, w, now);
        OnlyEndsTransitive(db, before, store.Db(), {}, {}, {}, now);
      }
      todo := todo - {w};
    }
    mutations := 0;
  }

  lemma NothingDrained(db: Db, batch: set<WorkflowId>)
    ensures DrainedBut(db, db, batch, batch)
  {
    NothingTouched(db);
  }

  // ------------------------------------------------------------------------- 3 and 4. orphaned attempts

  predicate Expired(row: AttemptRow, now: Time) {
    row.startDeadline <= now
  }

  predicate TimedOutNow(row: AttemptRow, now: Time) {
    row.executionTimeout.Some? && row.executionTimeout.value <= now
  }

  /** The cause recovery gives a CLAIMED attempt: worker loss goes before an expired start deadline. */
  function ClaimedCause(dead: bool): FailureCause {
    FailureCause(
      if dead then WorkerAvailability else TimeBased, if dead then "WORKER_LOSS" else "START_DEADLINE_EXPIRED",
      "Claimed attempt expired or worker session lost across restart")
  }

  /** For a RUNNING attempt a timeout goes before worker loss. */
  function RunningCause(timeout: bool): FailureCause {
    FailureCause(
      if timeout then TimeBased else WorkerAvailability, if timeout then "EXECUTION_TIMEOUT" else "WORKER_LOSS",
      "Task execution timeout expired or worker session lost across restart")
  }

  /** What recovery decides about an attempt row: settle it, for which cause. */
  function Verdict(row: AttemptRow, dead: bool, now: Time): Option<FailureCause> {
    if row.state.Claimed? then
      if dead || Expired(row, now) then Some(ClaimedCause(dead)) else None
    else if row.state == AttemptState.Running then
      if dead || TimedOutNow(row, now) then Some(RunningCause(TimedOutNow(row, now))) else None
    else None
  }

  predicate Blames(verdict: Option<FailureCause>, category: FailureCategory, code: string) {
    verdict.Some? && verdict.value.category == category && verdict.value.code == code
  }

  /** What the verdict is. For a CLAIMED attempt worker loss goes before an expired deadline, for a RUNNING one a
      timeout goes before worker loss, and without either, or on any other attempt, there is none. */
  lemma VerdictBlames(row: AttemptRow, dead: bool, now: Time)
    ensures row.state.Claimed? ==>
      if dead then Blames(Verdict(row, dead, now), WorkerAvailability, "WORKER_LOSS")
      else if row.startDeadline <= now then Blames(Verdict(row, dead, now), TimeBased, "START_DEADLINE_EXPIRED")
      else Verdict(row, dead, now).None?
    ensures row.state == AttemptState.Running ==>
      if row.executionTimeout.Some? && row.executionTimeout.value <= now
      then Blames(Verdict(row, dead, now), TimeBased, "EXECUTION_TIMEOUT")
      else if dead then Blames(Verdict(row, dead, now), WorkerAvailability, "WORKER_LOSS")
      else Verdict(row, dead, now).None?
    ensures !row.state.Claimed? && row.state != AttemptState.Running ==> Verdict(row, dead, now).None?
  {
    if row.state.Claimed? {
    } else if row.state == AttemptState.Running {
    }
  }

  /** The verdict always fits the conditions of the settling UPDATE. */
  lemma VerdictIsDue(row: AttemptRow, dead: bool, now: Time)
    ensures Verdict(row, dead, now).Some? ==>
      && KnownCode(Verdict(row, dead, now).value.code)
      && row.state.Active()
      && FailureFilter(row, Verdict(row, dead, now).value.code, if dead then Some(row.worker) else None, now)
    ensures row.state.Active() && dead ==> Verdict(row, dead, now).Some?
  {
    hide FailureFilter, KnownCode;
    CodesFilter(row, now);
    if row.state.Claimed? {
      assert ClaimedCause(dead).code == if dead then "WORKER_LOSS" else "START_DEADLINE_EXPIRED";
    } else {
      assert RunningCause(TimedOutNow(row, now)).code ==
             if TimedOutNow(row, now) then "EXECUTION_TIMEOUT" else "WORKER_LOSS";
    }
  }

  /** What each of the three codes asks of the attempt. */
  lemma CodesFilter(row: AttemptRow, now: Time)
    ensures KnownCode("WORKER_LOSS") && KnownCode("START_DEADLINE_EXPIRED") && KnownCode("EXECUTION_TIMEOUT")
    ensures forall lost: Option<SessionId> ::
              FailureFilter(row, "WORKER_LOSS", lost, now) <==>
              (lost.Some? ==> row.worker == lost.value) && row.state.Active()
    ensures forall lost ::
              FailureFilter(row, "START_DEADLINE_EXPIRED", lost, now) <==> row.state.Claimed? && Expired(row, now)
    ensures forall lost ::
              FailureFilter(row, "EXECUTION_TIMEOUT", lost, now) <==>
              row.state == AttemptState.Running && TimedOutNow(row, now)
  {
  }

  /** The attempt has FAILED for a cause of this category and code. */
  predicate FailedAs(row: AttemptRow, category: FailureCategory, code: string) {
    row.state.Failed? && row.failure.Some? && row.failure.value.category == category && row.failure.value.code == code
  }

  /** What recovery makes of an attempt row at time now, given whether its session is registered. A CLAIMED one FAILS
      as WORKER_LOSS without its session, and with it as START_DEADLINE_EXPIRED exactly if its deadline has passed. A
      RUNNING one FAILS as EXECUTION_TIMEOUT if its timeout has passed, and otherwise as WORKER_LOSS exactly if its
      session is not registered. */
  predicate JudgedAs(row: AttemptRow, registered: bool, now: Time, row': AttemptRow) {
    match row.state
    case Claimed =>
      if !registered then FailedAs(row', WorkerAvailability, "WORKER_LOSS")
      else if row.startDeadline <= now then FailedAs(row', TimeBased, "START_DEADLINE_EXPIRED")
      else SameButDeadline(row, row')
    case Running =>
      if row.executionTimeout.Some? && row.executionTimeout.value <= now
      then FailedAs(row', TimeBased, "EXECUTION_TIMEOUT")
      else if !registered then FailedAs(row', WorkerAvailability, "WORKER_LOSS")
      else SameButDeadline(row, row')
    case _ => SameButDeadline(row, row')
  }

  lemma VerdictJudges(row: AttemptRow, dead: bool, now: Time, row': AttemptRow)
    requires if Verdict(row, dead, now).Some? then EndedBy(row', Verdict(row, dead, now).value)
             else SameButDeadline(row, row')
    ensures JudgedAs(row, !dead, now, row')
  {
    hide Verdict;
    VerdictBlames(row, dead, now);
  }

  /** What recovery decides about attempt a as read in db. */
  function VerdictOn(db: Db, registry: WorkerRegistry, a: AttemptId, now: Time): Option<FailureCause>
    reads registry
  {
    if a in db.attempts then Verdict(db.attempts[a], db.attempts[a].worker !in registry.sessions, now) else None
  }

  /** Judges one attempt, read earlier in snapshot, after reading its task. */
  method SettleOrphan(
    store: Store, registry: WorkerRegistry, ghost snapshot: Db, ghost at: nat, a: AttemptId, row: AttemptRow,
    delay: Time, now: Time)
    returns (mutated: nat)
    requires store.Valid() && ReadAt(store.log, at, snapshot) && a in snapshot.attempts && snapshot.attempts[a] == row
    modifies store
    ensures store.Continues(old(store.log))
    ensures mutated <= 1
    ensures RecoveryStep(store.quiet, NoneGiven, old(store.Db()), store.Db(), mutated)
    ensures store.quiet ==> OnlyEnds(old(store.Db()), store.Db(), {a}, now)
    ensures store.quiet && mutated == 0 ==> store.Db() == old(store.Db())
    ensures store.quiet && mutated == 1 ==>
      && VerdictOn(snapshot, registry, a, now).Some?
      && SettledBy(old(store.Db()), store.Db(), a, row.task, VerdictOn(snapshot, registry, a, now).value, now + delay)
    ensures (&& store.quiet && VerdictOn(snapshot, registry, a, now).Some?
             && a in old(store.attempts) && SameButDeadline(row, old(store.attempts)[a])) ==> mutated == 1
    ensures store.quiet && a in old(store.attempts) && SameButDeadline(row, old(store.attempts)[a]) ==>
      && a in store.attempts && JudgedAs(row, row.worker in registry.sessions, now, store.attempts[a])
      && (mutated == 0 <==> SameButDeadline(row, store.attempts[a]))
  {
    hide Inv, Evolves, IsRun, Leads, Touches, RecoveryStep, FailureFilter, AllQuiescent, Verdict, SettledBy,
         OnlyEnds, JudgedAs;
    ghost var terms := NoneGiven;
    ghost var log, db := store.log, store.Db();
    mutated := 0;
    store.Others();
    ghost var l, begun, j := store.log, store.Db(), store.Now();
    ReadLater(log, l, at, snapshot);
    Since(store, at, snapshot);
    StepOthers(store.quiet, terms, db, begun);
    UntouchedMoved(begun, row.task.workflow);
    NothingEnds(begun, {a}, now);
    AttemptHasTask(snapshot, begun, a);
    if row.task !in store.tasks {
      assert false;
      return;
    }
    var expected := store.tasks[row.task].revision;
    var dead := row.worker !in registry.sessions;
    var verdict := Verdict(row, dead, now);
    VerdictIsDue(row, dead, now);
    if a in begun.attempts && verdict.None? && SameButDeadline(row, begun.attempts[a]) {
      VerdictJudges(row, dead, now, begun.attempts[a]);
    }
    if verdict.None? {
      return;
    }
    var settled := SettleFailure(store, snapshot, at, begun, j, a, row, expected, verdict.value, now + delay,
                                 if dead then Some(row.worker) else None, now);
    GoesOn(store, log, l);
    mutated := if settled then 1 else 0;
    if store.quiet && settled {
      SettledEnds(begun, store.Db(), a, row.task, verdict.value, now + delay);
      VerdictJudges(row, dead, now, store.attempts[a]);
    }
    StepTouches(store.quiet, terms, begun, store.Db(), row.task.workflow, mutated);
    StepTransitive(store.quiet, terms, db, begun, store.Db(), 0, mutated);
  }

  lemma SettledEnds(db: Db, db': Db, a: AttemptId, t: TaskId, cause: FailureCause, readyAt: Time)
    requires SettledBy(db, db', a, t, cause, readyAt)
    ensures a in db'.attempts && EndedBy(db'.attempts[a], cause)
  {
  }

  lemma AttemptHasTask(s: Db, db: Db, a: AttemptId)
    requires Inv(s) && Advances(s, db) && a in s.attempts
    ensures s.attempts[a].task in db.tasks
  {
    hide TaskOk, WorkflowOk, LedgerOk;
    assert AttemptOk(s, a);
  }

  function AttemptsIn(db: Db, states: set<AttemptState>): set<AttemptId> {
    set a | a in db.attempts && db.attempts[a].state in states
  }

  /** Recovery has dealt with attempt a, active in start: it was judged, or cancelled by the drain an earlier failure
      has led to; if it FAILED its task followed. */
  ghost predicate Judged(start: Db, db: Db, registry: WorkerRegistry, a: AttemptId, now: Time, readyAt: Time)
    requires a in start.attempts
    reads registry
  {
    && a in db.attempts
    && var row, row' := start.attempts[a], db.attempts[a];
    && (row'.state.Cancelled? || JudgedAs(row, row.worker in registry.sessions, now, row'))
    && (row'.state.Failed? ==> row'.failure.Some? && FollowsFailure(db, row'.task, row'.failure.value, readyAt))
  }

  /** The attempts of the batch have been dealt with, those of todo apart. */
  ghost predicate JudgedBut(
    start: Db, db: Db, registry: WorkerRegistry, batch: set<AttemptId>, todo: set<AttemptId>, now: Time, readyAt: Time)
    reads registry
  {
    forall a | a in batch && a !in todo :: a in start.attempts && Judged(start, db, registry, a, now, readyAt)
  }

  lemma JudgedKept(
    start: Db, before: Db, db: Db, registry: WorkerRegistry, a: AttemptId, b: AttemptId, now: Time, readyAt: Time)
    requires a in start.attempts && Judged(start, before, registry, a, now, readyAt) && a != b
    requires OnlyEnds(before, db, {b}, now) && Evolves(before, db)
    ensures Judged(start, db, registry, a, now, readyAt)
  {
    if SameButDeadline(before.attempts[a], db.attempts[a]) {
      if before.attempts[a].state.Failed? {
        FollowsKept(before, db, {b}, before.attempts[a].task, before.attempts[a].failure.value, readyAt, now);
      }
    }
  }

  lemma FollowsKept(
    before: Db, db: Db, some: set<AttemptId>, t: TaskId, cause: FailureCause, readyAt: Time, now: Time)
    requires FollowsFailure(before, t, cause, readyAt) && OnlyEnds(before, db, some, now) && Evolves(before, db)
    ensures FollowsFailure(db, t, cause, readyAt)
  {
    assert !before.tasks[t].state.Running?;
    assert t.workflow in before.workflows ==> WorkflowEvolves(before.workflows[t.workflow], db.workflows[t.workflow]);
  }

  /** The attempt just dealt with was active when read, and nobody else could settle it but a drain. */
  lemma JudgedNow(
    start: Db, before: Db, db: Db, registry: WorkerRegistry, done: set<AttemptId>, a: AttemptId, now: Time,
    readyAt: Time, mutated: nat)
    requires a in start.attempts && start.attempts[a].state.Active() && a !in done
    requires OnlyEnds(start, before, done, now) && Evolves(before, db)
    requires SameButDeadline(start.attempts[a], before.attempts[a]) ==>
      && a in db.attempts
      && JudgedAs(start.attempts[a], start.attempts[a].worker in registry.sessions, now, db.attempts[a])
      && (mutated == 0 <==> SameButDeadline(start.attempts[a], db.attempts[a]))
    requires mutated != 0 ==>
      && VerdictOn(start, registry, a, now).Some?
      && SettledBy(before, db, a, start.attempts[a].task, VerdictOn(start, registry, a, now).value, readyAt)
    ensures Judged(start, db, registry, a, now, readyAt)
  {
    hide Verdict, JudgedAs;
    assert AttemptEvolves(before.attempts[a], db.attempts[a]);
  }

  lemma JudgedStep(
    start: Db, before: Db, db: Db, registry: WorkerRegistry, batch: set<AttemptId>, todo: set<AttemptId>, a: AttemptId,
    now: Time, readyAt: Time)
    requires JudgedBut(start, before, registry, batch, todo, now, readyAt) && a in todo
    requires OnlyEnds(before, db, {a}, now) && Evolves(before, db)
    requires a in start.attempts && Judged(start, db, registry, a, now, readyAt)
    ensures JudgedBut(start, db, registry, batch, todo - {a}, now, readyAt)
  {
    hide Judged, OnlyEnds, Evolves;
    forall b | b in batch && b !in todo ensures b in start.attempts && Judged(start, db, registry, b, now, readyAt) {
      JudgedKept(start, before, db, registry, b, a, now, readyAt);
    }
  }

  /** Phases 3 and 4 differ in the attempts they fetch and in the precedence of the causes. Every attempt of the batch
      is judged, and with no session registered a batch that holds any attempt settles one. */
  method SettleOrphans(
    store: Store, registry: WorkerRegistry, states: set<AttemptState>, batchSize: nat, delay: Time, now: Time)
    returns (mutations: nat, ghost batch: set<AttemptId>)
    requires store.Valid() && 1 <= batchSize && forall s | s in states :: s.Active()
    modifies store
    ensures store.Continues(old(store.log))
    ensures RecoveryStep(store.quiet, NoneGiven, old(store.Db()), store.Db(), mutations)
    ensures BatchOf(batch, AttemptsIn(old(store.Db()), states), batchSize)
    ensures store.quiet ==> JudgedBut(old(store.Db()), store.Db(), registry, batch, {}, now, now + delay)
    ensures store.quiet ==> OnlyEnds(old(store.Db()), store.Db(), batch, now)
    ensures store.quiet && mutations == 0 ==> store.Db() == old(store.Db())
    ensures store.quiet && registry.sessions == map[] && mutations == 0 ==> AttemptsIn(old(store.Db()), states) == {}
  {
    hide Inv, Evolves, IsRun, Leads, RecoveryStep, JudgedBut, Judged, JudgedAs, SettledBy, OnlyEnds, Verdict,
         VerdictOn;
    ghost var idle := registry.sessions == map[];
    ghost var terms := NoneGiven;
    ghost var log, db, at := store.log, store.Db(), store.Now();
    StandsStill(store);
    StepOthers(store.quiet, terms, db, db);
    NothingEnds(db, {}, now);
    var snapshot := store.Db();
    var todo := Limit(AttemptsIn(snapshot, states), batchSize);
    batch := todo;
    NothingJudged(db, registry, batch, now, now + delay);
    ghost var done: set<AttemptId> := {};
    mutations := 0;
    while todo != {}
      invariant todo <= batch && done == batch - todo
      invariant store.Continues(log) && RecoveryStep(store.quiet, terms, db, store.Db(), mutations)
      invariant store.quiet && mutations == 0 ==> store.Db() == db
      invariant store.quiet && idle && todo != batch ==> 0 < mutations
      invariant store.quiet ==>
        JudgedBut(db, store.Db(), registry, batch, todo, now, now + delay) && OnlyEnds(db, store.Db(), done, now)
      decreases todo
    {
      var a :| a in todo;
      ghost var l, before := store.log, store.Db();
      ReadLater(log, l, at, snapshot);
      Follows(store, log, db);
      if idle { OrphanIsJudged(db, registry, a, now); }
      var mutated := SettleOrphan(store, registry, snapshot, at, a, snapshot.attempts[a], delay, now);
      GoesOn(store, log, l);
      StepTransitive(store.quiet, terms, db, before, store.Db(), mutations, mutated);
      Follows(store, l, before);
      if store.quiet {
        OnlyEndsTransitive(db, before, store.Db(), done, {a}, done + {a}, now);
        JudgedNow(db, before, store.Db(), registry, done, a, now, now + delay, mutated);
        JudgedStep(db, before, store.Db(), registry, batch, todo, a, now, now + delay);
      }
      todo := todo - {a};
      done := done + {a};
      mutations := mutations + mutated;
    }
    assert done == batch;
  }

  lemma NothingJudged(db: Db, registry: WorkerRegistry, batch: set<AttemptId>, now: Time, readyAt: Time)
    ensures JudgedBut(db, db, registry, batch, batch, now, readyAt)
  {
  }

  /** With no session registered every active attempt has a verdict. */
  lemma OrphanIsJudged(db: Db, registry: WorkerRegistry, a: AttemptId, now: Time)
    requires registry.sessions == map[] && a in db.attempts
    ensures db.attempts[a].state.Active() ==> VerdictOn(db, registry, a, now).Some?
  {
    hide Verdict;
    VerdictIsDue(db.attempts[a], true, now);
  }

  method Phase3SettleClaimedAttempts(
    store: Store, registry: WorkerRegistry, batchSize: nat, delay: Time, now: Time)
    returns (mutations: nat, ghost batch: set<AttemptId>)
    requires store.Valid() && 1 <= batchSize
    modifies store
    ensures store.Continues(old(store.log))
    ensures RecoveryStep(store.quiet, NoneGiven, old(store.Db()), store.Db(), mutations)
    ensures BatchOf(batch, AttemptsIn(old(store.Db()), {AttemptState.Claimed}), batchSize)
    ensures store.quiet ==> JudgedBut(old(store.Db()), store.Db(), registry, batch, {}, now, now + delay)
    ensures store.quiet ==> OnlyEnds(old(store.Db()), store.Db(), batch, now)
    ensures store.quiet && mutations == 0 ==> store.Db() == old(store.Db())
    ensures store.quiet && registry.sessions == map[] && mutations == 0 ==>
              AttemptsIn(old(store.Db()), {AttemptState.Claimed}) == {}
  {
    hide JudgedBut, RecoveryStep, OnlyEnds;
    mutations, batch := SettleOrphans(store, registry, {AttemptState.Claimed}, batchSize, delay, now);
  }

  method Phase4SettleRunningAttempts(
    store: Store, registry: WorkerRegistry, batchSize: nat, delay: Time, now: Time)
    returns (mutations: nat, ghost batch: set<AttemptId>)
    requires store.Valid() && 1 <= batchSize
    modifies store
    ensures store.Continues(old(store.log))
    ensures RecoveryStep(store.quiet, NoneGiven, old(store.Db()), store.Db(), mutations)
    ensures BatchOf(batch, AttemptsIn(old(store.Db()), {AttemptState.Running}), batchSize)
    ensures store.quiet ==> JudgedBut(old(store.Db()), store.Db(), registry, batch, {}, now, now + delay)
    ensures store.quiet ==> OnlyEnds(old(store.Db()), store.Db(), batch, now)
    ensures store.quiet && mutations == 0 ==> store.Db() == old(store.Db())
    ensures store.quiet && registry.sessions == map[] && mutations == 0 ==>
              AttemptsIn(old(store.Db()), {AttemptState.Running}) == {}
  {
    hide JudgedBut, RecoveryStep, OnlyEnds;
    mutations, batch := SettleOrphans(store, registry, {AttemptState.Running}, batchSize, delay, now);
  }

  // ---------------------------------------------------------------------------- 5. due retries

  function DueRetries(db: Db, now: Time): set<TaskId> {
    set t | t in db.tasks && DueRetry(db.tasks[t], now)
  }

  ghost predicate CanWake(db: Db, t: TaskId, expected: int, now: Time) {
    && TaskRead(db, t, expected) && DueRetry(db.tasks[t], now)
    && StateOf(db, t.workflow) == Some(WorkflowState.Running)
  }

  lemma WakeEffect(db: Db, t: TaskId, expected: int, now: Time)
    ensures var r := RetryReadyTx(db, db, t, expected, now);
      && Touches(db, r.db, t.workflow) && r.db.attempts == db.attempts && r.db.workflows == db.workflows
      && (r.status == Committed <==> CanWake(db, t, expected, now))
      && (r.status == Committed ==>
            r.db.tasks != db.tasks && t in r.db.tasks && r.db.tasks[t].state.Runnable?)
      && (r.status != Committed ==> r.db == db)
  {
    var r := RetryReadyTx(db, db, t, expected, now);
    if r.status == Committed {
      assert r.db.tasks[t].revision != db.tasks[t].revision;
    }
  }

  ghost predicate ServedRunning(db: Db, registry: WorkerRegistry, w: WorkflowId, now: Time)
    reads registry
  {
    ServedAt(db, registry, w, now) && StateOf(db, w) == Some(WorkflowState.Running)
  }

  /** A workflow with a RUNNABLE task is still RUNNING after its advance. */
  lemma AdvanceKeepsRunning(
    db: Db, db': Db, registry: WorkerRegistry, startDeadline: Time, t: TaskId, now: Time)
    requires t.workflow in db.workflows && Advanced(db, db', registry, startDeadline, t.workflow, now)
    requires StateOf(db, t.workflow) == Some(WorkflowState.Running)
    requires t in db.tasks && db.tasks[t].state.Runnable?
    ensures ServedRunning(db', registry, t.workflow, now)
  {
    hide Served, Quiescent, Touches, SucceededWith;
  }

  /** Wakes one task, read in snapshot, and advances its workflow. */
  method PromoteOne(
    store: Store, registry: WorkerRegistry, startDeadline: Time, ghost snapshot: Db, ghost at: nat, t: TaskId,
    expected: int, now: Time)
    returns (mutated: nat)
    requires store.Valid() && ReadAt(store.log, at, snapshot) && TaskRead(snapshot, t, expected)
    modifies store
    ensures store.Continues(old(store.log))
    ensures RecoveryStep(store.quiet, Given(registry, now + startDeadline, now), old(store.Db()), store.Db(), mutated)
    ensures store.quiet ==> Touches(old(store.Db()), store.Db(), t.workflow)
    ensures store.quiet ==> mutated == if CanWake(old(store.Db()), t, expected, now) then 1 else 0
    ensures store.quiet && mutated == 0 ==> store.Db() == old(store.Db())
    ensures store.quiet && mutated == 1 ==> ServedRunning(store.Db(), registry, t.workflow, now)
  {
    hide Inv, Evolves, IsRun, Leads, Touches, RecoveryStep, RetryReadyTx, CanWake, Advanced, Served;
    ghost var terms := Given(registry, now + startDeadline, now);
    ghost var log, db := store.log, store.Db();
    Since(store, at, snapshot);
    var status;
    ghost var g, d;
    status, g, d := store.CommitRetryReady(t, expected, now, at);
    ghost var l, woken := store.log, store.Db();
    mutated := if status == Committed then 1 else 0;
    if store.quiet { WakeEffect(db, t, expected, now); }
    StepTouches(store.quiet, terms, db, woken, t.workflow, mutated);
    if status == Committed {
      ReadLater(log, l, at, snapshot);
      store.Others();
      GoesOn(store, log, l);
      ghost var l1, later := store.log, store.Db();
      StepOthers(store.quiet, terms, woken, later);
      ReadLater(l, l1, at, snapshot);
      Since(store, at, snapshot);
      WorkflowExists(snapshot, later, t);
      Advance(store, registry, startDeadline, t.workflow, now);
      GoesOn(store, log, l1);
      StepTransitive(store.quiet, terms, woken, later, store.Db(), 0, 0);
      StepTransitive(store.quiet, terms, db, woken, store.Db(), 1, 0);
      if store.quiet {
        TouchesTransitive(db, woken, store.Db(), t.workflow);
        WokenRunning(db, woken, t, expected, now);
        AdvanceKeepsRunning(woken, store.Db(), registry, startDeadline, t, now);
      }
    }
  }

  lemma WokenRunning(db: Db, woken: Db, t: TaskId, expected: int, now: Time)
    requires CanWake(db, t, expected, now) && woken.workflows == db.workflows
    ensures StateOf(woken, t.workflow) == Some(WorkflowState.Running)
  {
  }

  /** The RUNNING workflows some of these tasks belong to. */
  function RunningAmong(db: Db, tasks: set<TaskId>): set<WorkflowId> {
    set t | t in tasks && StateOf(db, t.workflow) == Some(WorkflowState.Running) :: t.workflow
  }

  /** The RUNNING workflows of the tasks dealt with are served and still RUNNING; all others are as they were. */
  ghost predicate WokenBut(
    start: Db, db: Db, registry: WorkerRegistry, batch: set<TaskId>, todo: set<TaskId>, woken: set<WorkflowId>,
    now: Time)
    reads registry
  {
    && woken == RunningAmong(start, batch - todo)
    && (forall x | x in woken :: ServedRunning(db, registry, x, now))
    && (forall x | x !in woken :: Untouched(start, db, x))
  }

  lemma AmongStep(db: Db, some: set<TaskId>, t: TaskId)
    ensures RunningAmong(db, some + {t}) ==
            RunningAmong(db, some)
            + if StateOf(db, t.workflow) == Some(WorkflowState.Running) then {t.workflow} else {}
  {
  }

  lemma NotTwice(db: Db, registry: WorkerRegistry, t: TaskId, expected: int, now: Time)
    requires ServedRunning(db, registry, t.workflow, now)
    ensures !CanWake(db, t, expected, now)
  {
  }

  lemma StillAwaited(start: Db, db: Db, t: TaskId, now: Time)
    requires Untouched(start, db, t.workflow) && t in start.tasks && DueRetry(start.tasks[t], now)
    ensures CanWake(db, t, start.tasks[t].revision, now) <==> StateOf(start, t.workflow) == Some(WorkflowState.Running)
  {
  }

  lemma WokenStep(
    start: Db, before: Db, db: Db, registry: WorkerRegistry, batch: set<TaskId>, todo: set<TaskId>,
    woken: set<WorkflowId>, t: TaskId, now: Time, mutated: nat)
    requires WokenBut(start, before, registry, batch, todo, woken, now)
    requires t in todo && t in batch && t in start.tasks && DueRetry(start.tasks[t], now)
    requires Touches(before, db, t.workflow)
    requires mutated == if CanWake(before, t, start.tasks[t].revision, now) then 1 else 0
    requires mutated == 0 ==> db == before
    requires mutated == 1 ==> ServedRunning(db, registry, t.workflow, now)
    ensures mutated == 1 ==> t.workflow !in woken
    ensures WokenBut(
      start, db, registry, batch, todo - {t}, if mutated == 1 then woken + {t.workflow} else woken, now)
  {
    hide Touches, CanWake, Served, DueRetry, RunningAmong;
    assert batch - (todo - {t}) == (batch - todo) + {t};
    AmongStep(start, batch - todo, t);
    if t.workflow in woken {
      NotTwice(before, registry, t, start.tasks[t].revision, now);
      AmongRunning(start, batch - todo, t.workflow);
    } else {
      StillAwaited(start, before, t, now);
    }
    if mutated == 1 {
      forall x | x in woken ensures ServedRunning(db, registry, x, now) {
        UntouchedBy(before, db, t.workflow, x);
        ServedAtKept(before, db, registry, x, now);
      }
      forall x | x !in woken && x != t.workflow ensures Untouched(start, db, x) {
        UntouchedBy(before, db, t.workflow, x);
        UntouchedTransitive(start, before, db, x);
      }
    }
  }

  lemma AmongRunning(db: Db, some: set<TaskId>, w: WorkflowId)
    requires w in RunningAmong(db, some)
    ensures StateOf(db, w) == Some(WorkflowState.Running)
  {
  }

  lemma NothingWoken(db: Db, registry: WorkerRegistry, batch: set<TaskId>, now: Time)
    ensures WokenBut(db, db, registry, batch, batch, {}, now)
  {
    NothingTouched(db);
  }

  /** Wakes due retries and advances their workflows. An advance wakes the other due retries of its workflow as well,
      so what is counted are the RUNNING workflows that have a due retry in the batch; each of them is left served. */
  method Phase5PromoteRetryWait(
    store: Store, registry: WorkerRegistry, startDeadline: Time, batchSize: nat, now: Time)
    returns (mutations: nat, ghost batch: set<TaskId>)
    requires store.Valid()
    modifies store
    ensures store.Continues(old(store.log))
    ensures RecoveryStep(store.quiet, Given(registry, now + startDeadline, now), old(store.Db()), store.Db(), mutations)
    ensures BatchOf(batch, DueRetries(old(store.Db()), now), batchSize)
    ensures store.quiet ==> mutations == |RunningAmong(old(store.Db()), batch)|
    ensures store.quiet ==> forall x | x in RunningAmong(old(store.Db()), batch) ::
              ServedRunning(store.Db(), registry, x, now)
    ensures store.quiet && mutations == 0 ==> store.Db() == old(store.Db())
  {
    hide Inv, Evolves, IsRun, Leads, RecoveryStep, WokenBut, CanWake, Touches, ServedRunning, RunningAmong;
    ghost var terms := Given(registry, now + startDeadline, now);
    ghost var log, db, at := store.log, store.Db(), store.Now();
    StandsStill(store);
    StepOthers(store.quiet, terms, db, db);
    var snapshot := store.Db();
    var todo := Limit(DueRetries(snapshot, now), batchSize);
    batch := todo;
    NothingWoken(db, registry, batch, now);
    ghost var woken: set<WorkflowId> := {};
    mutations := 0;
    while todo != {}
      invariant todo <= batch
      invariant store.Continues(log) && RecoveryStep(store.quiet, terms, db, store.Db(), mutations)
      invariant store.quiet ==>
        mutations == |woken| && WokenBut(db, store.Db(), registry, batch, todo, woken, now)
      invariant store.quiet && mutations == 0 ==> store.Db() == db
      decreases todo
    {
      var t :| t in todo;
      ghost var l, before := store.log, store.Db();
      ReadLater(log, l, at, snapshot);
      var mutated := PromoteOne(
        store, registry, startDeadline, snapshot, at, t, snapshot.tasks[t].revision, now);
      GoesOn(store, log, l);
      StepTransitive(store.quiet, terms, db, before, store.Db(), mutations, mutated);
      if store.quiet {
        WokenStep(db, before, store.Db(), registry, batch, todo, woken, t, now, mutated);
        if mutated == 1 { woken := woken + {t.workflow}; }
      }
      todo := todo - {t};
      mutations := mutations + mutated;
    }
    if store.quiet { AllWoken(db, store.Db(), registry, batch, woken, now); }
  }

  lemma AllWoken(db: Db, db': Db, registry: WorkerRegistry, batch: set<TaskId>, woken: set<WorkflowId>, now: Time)
    requires WokenBut(db, db', registry, batch, {}, woken, now)
    ensures woken == RunningAmong(db, batch)
    ensures forall x | x in woken :: ServedRunning(db', registry, x, now)
  {
    assert batch - {} == batch;
  }

  // ------------------------------------------------------------------------- 6 and 7. tasks to rediscover

  lemma WorkflowsExist(db: Db, tasks: set<TaskId>)
    requires Inv(db) && tasks <= db.tasks.Keys
    ensures forall t | t in tasks :: t.workflow in db.workflows
  {
    hide Inv, Evolves;
    AdvancesReflexive(db);
    forall t | t in tasks ensures t.workflow in db.workflows { WorkflowExists(db, db, t); }
  }

  function TasksIn(db: Db, states: set<TaskState>): set<TaskId> {
    set t | t in db.tasks && db.tasks[t].state in states
  }

  /** The workflows of done have been advanced; every workflow has been, or is as it was. */
  ghost predicate ServedIn(start: Db, db: Db, registry: WorkerRegistry, done: set<WorkflowId>, now: Time)
    reads registry
  {
    && (forall x | x in done :: ServedAt(db, registry, x, now))
    && (forall x | x !in done :: Untouched(start, db, x))
  }

  lemma ServedStep(
    start: Db, before: Db, db: Db, registry: WorkerRegistry, done: set<WorkflowId>, w: WorkflowId, now: Time)
    requires ServedIn(start, before, registry, done, now) && Touches(before, db, w) && ServedAt(db, registry, w, now)
    ensures ServedIn(start, db, registry, done + {w}, now)
  {
    hide Touches, Served;
    forall x | x in done && x != w ensures ServedAt(db, registry, x, now) {
      UntouchedBy(before, db, w, x);
      ServedAtKept(before, db, registry, x, now);
    }
    forall x | x !in done && x != w ensures Untouched(start, db, x) {
      UntouchedBy(before, db, w, x);
      UntouchedTransitive(start, before, db, x);
    }
  }

  function WorkflowsOf(tasks: set<TaskId>): set<WorkflowId> {
    set t | t in tasks :: t.workflow
  }

  /** Advances one workflow that was there at start. */
  method AdvanceOne(
    store: Store, registry: WorkerRegistry, startDeadline: Time, ghost log: Log, ghost start: Db, w: WorkflowId,
    ghost done: set<WorkflowId>, now: Time)
    requires store.Continues(log) && Last(log.trace) == start && w in start.workflows
    requires RecoveryStep(store.quiet, Given(registry, now + startDeadline, now), start, store.Db(), 0)
    requires store.quiet ==> ServedIn(start, store.Db(), registry, done, now)
    modifies store
    ensures store.Continues(log)
    ensures RecoveryStep(store.quiet, Given(registry, now + startDeadline, now), start, store.Db(), 0)
    ensures store.quiet ==> ServedIn(start, store.Db(), registry, done + {w}, now)
  {
    hide Inv, Evolves, IsRun, Leads, RecoveryStep, ServedIn, Advanced, Touches, Served;
    ghost var l, before := store.log, store.Db();
    StillThere(start, before, w);
    Advance(store, registry, startDeadline, w, now);
    GoesOn(store, log, l);
    StepTransitive(store.quiet, Given(registry, now + startDeadline, now), start, before, store.Db(), 0, 0);
    if store.quiet {
      AdvancedTouches(before, store.Db(), registry, startDeadline, w, now);
      ServedStep(start, before, store.Db(), registry, done, w, now);
    }
  }

  lemma NothingServed(db: Db, registry: WorkerRegistry, now: Time)
    ensures ServedIn(db, db, registry, {}, now)
  {
    NothingTouched(db);
  }

  /** Advances the workflow of each RUNNABLE task, leaving it served and all others alone, and counts nothing. */
  method Phase6RediscoverRunnable(
    store: Store, registry: WorkerRegistry, startDeadline: Time, batchSize: nat, now: Time)
    returns (mutations: nat, ghost batch: set<TaskId>)
    requires store.Valid()
    modifies store
    ensures store.Continues(old(store.log))
    ensures RecoveryStep(store.quiet, Given(registry, now + startDeadline, now), old(store.Db()), store.Db(), mutations)
    ensures mutations == 0
    ensures BatchOf(batch, TasksIn(old(store.Db()), {TaskState.Runnable}), batchSize)
    ensures store.quiet ==> ServedIn(old(store.Db()), store.Db(), registry, WorkflowsOf(batch), now)
  {
    hide Inv, Evolves, IsRun, Leads, RecoveryStep, ServedIn;
    ghost var terms := Given(registry, now + startDeadline, now);
    ghost var log, db := store.log, store.Db();
    StandsStill(store);
    StepOthers(store.quiet, terms, db, db);
    NothingServed(db, registry, now);
    var todo := Limit(TasksIn(store.Db(), {TaskState.Runnable}), batchSize);
    batch := todo;
    WorkflowsExist(db, todo);
    assert WorkflowsOf(batch - todo) == {};
    while todo != {}
      invariant todo <= batch && forall t | t in todo :: t.workflow in db.workflows
      invariant store.Continues(log) && RecoveryStep(store.quiet, terms, db, store.Db(), 0)
      invariant store.quiet ==> ServedIn(db, store.Db(), registry, WorkflowsOf(batch - todo), now)
      decreases todo
    {
      var t :| t in todo;
      AdvanceOne(store, registry, startDeadline, log, db, t.workflow, WorkflowsOf(batch - todo), now);
      WorkflowsStep(batch, todo, t);
      todo := todo - {t};
    }
    assert batch - {} == batch;
    mutations := 0;
  }

  lemma WorkflowsStep(batch: set<TaskId>, todo: set<TaskId>, t: TaskId)
    requires t in todo && todo <= batch
    ensures WorkflowsOf(batch - (todo - {t})) == WorkflowsOf(batch - todo) + {t.workflow}
  {
    assert batch - (todo - {t}) == (batch - todo) + {t};
  }

  /** Advances each workflow that has a PENDING task in the batch once, as phase 6 does, and counts nothing. */
  method Phase7RepairPendingReadiness(
    store: Store, registry: WorkerRegistry, startDeadline: Time, batchSize: nat, now: Time)
    returns (mutations: nat, ghost batch: set<TaskId>)
    requires store.Valid()
    modifies store
    ensures store.Continues(old(store.log))
    ensures RecoveryStep(store.quiet, Given(registry, now + startDeadline, now), old(store.Db()), store.Db(), mutations)
    ensures mutations == 0
    ensures BatchOf(batch, TasksIn(old(store.Db()), {TaskState.Pending}), batchSize)
    ensures store.quiet ==> ServedIn(old(store.Db()), store.Db(), registry, WorkflowsOf(batch), now)
  {
    hide Inv, Evolves, IsRun, Leads, RecoveryStep, ServedIn;
    ghost var terms := Given(registry, now + startDeadline, now);
    ghost var log, db := store.log, store.Db();
    StandsStill(store);
    StepOthers(store.quiet, terms, db, db);
    NothingServed(db, registry, now);
    var todo := Limit(TasksIn(store.Db(), {TaskState.Pending}), batchSize);
    batch := todo;
    WorkflowsExist(db, todo);
    var seen: set<WorkflowId> := {};
    while todo != {}
      invariant todo <= batch && forall t | t in todo :: t.workflow in db.workflows
      invariant seen == WorkflowsOf(batch - todo)
      invariant store.Continues(log) && RecoveryStep(store.quiet, terms, db, store.Db(), 0)
      invariant store.quiet ==> ServedIn(db, store.Db(), registry, seen, now)
      decreases todo
    {
      var t :| t in todo;
      WorkflowsStep(batch, todo, t);
      if t.workflow !in seen {
        AdvanceOne(store, registry, startDeadline, log, db, t.workflow, seen, now);
        seen := seen + {t.workflow};
      }
      todo := todo - {t};
    }
    assert batch - {} == batch;
    mutations := 0;
  }

  // -------------------------------------------------------------------------------- 8. terminalisation

  const Unsettled: set<WorkflowState> := {WorkflowState.Running, WorkflowState.Failing, WorkflowState.Cancelling}

  /** The terminal state that follows a state in which all tasks ended well enough. */
  function EndOf(from: WorkflowState): WorkflowState {
    if from.Failing? then WorkflowState.Failed
    else if from.Cancelling? then WorkflowState.Cancelled
    else WorkflowState.Succeeded
  }

  function CountedIn(from: WorkflowState): set<TaskState> {
    if from.Failing? || from.Cancelling? then TerminalTaskStates else {TaskState.Succeeded}
  }

  /** w has ended so; recovery gives every success the empty object as output, whatever the bindings say. */
  predicate EndedAs(db: Db, w: WorkflowId, end: WorkflowState) {
    && w in db.workflows && db.workflows[w].state == end
    && (end.Succeeded? ==> db.workflows[w].output == Some(PyProxy(map[])))
  }

  /** That output is never the one the bindings name: no bindings mean None, and some mean an object with their keys. */
  lemma RecoveredOutputDiffers(db: Db, db': Db, w: WorkflowId, bindings: map<string, string>, names: set<string>)
    requires SucceededWith(db, db', w, bindings, names)
    ensures !EndedAs(db', w, WorkflowState.Succeeded)
  {
    if bindings != map[] {
      var o :| o in bindings;
      assert StrKey(o) in db'.workflows[w].output.value.entries;
    }
  }

  ghost predicate Endable(db: Db, w: WorkflowId, revision: int, from: WorkflowState) {
    && StateOf(db, w) == Some(from) && db.workflows[w].revision == revision
    && HasItsTasks(db, w) && AllTasksIn(db, w, CountedIn(from))
  }

  lemma EndsWorkflow(
    db: Db, w: WorkflowId, revision: int, from: WorkflowState, output: Option<PyValue>, event: Event, now: Time)
    requires Endable(db, w, revision, from) && forall t | t in db.tasks && t.workflow == w :: Declared(db, t)
    requires from in Unsettled && output == if from == WorkflowState.Running then Some(PyProxy(map[])) else None
    ensures var r := MembershipTx(db, db, db, w, revision, from, CountedIn(from), EndOf(from), output, event, now);
      r.status == Committed && EndedAs(r.db, w, EndOf(from))
  {
    hide FullMembership, TaskNames, AllTasksIn;
    NamesComplete(db, w, CountedIn(from));
  }

  /** Commits the terminal state of a workflow read in state from. */
  method Settle(
    store: Store, ghost terms: Terms, w: WorkflowId, revision: int, from: WorkflowState, ghost seen: Db, ghost at: nat,
    now: Time)
    returns (mutated: nat)
    requires store.Valid() && ReadAt(store.log, at, seen) && WorkflowRead(seen, w, revision) && from in Unsettled
    modifies store
    ensures store.Continues(old(store.log))
    ensures RecoveryStep(store.quiet, terms, old(store.Db()), store.Db(), mutated)
    ensures store.quiet ==> Touches(old(store.Db()), store.Db(), w)
    ensures store.quiet && mutated == 0 ==> store.Db() == old(store.Db())
    ensures store.quiet && Endable(old(store.Db()), w, revision, from) ==>
              mutated == 1 && EndedAs(store.Db(), w, EndOf(from))
  {
    hide Inv, Evolves, IsRun, Leads, Touches, RecoveryStep, MembershipTx, Endable, EndedAs;
    ghost var db := store.Db();
    var status;
    ghost var g1, g2, d, event;
    ghost var output := if from == WorkflowState.Running then Some(PyProxy(map[])) else None;
    if from.Failing? {
      status, g1, g2, d := store.CommitWorkflowFailure(w, revision, now, at);
      event := WorkflowExecutionFailed;
    } else if from.Cancelling? {
      status, g1, g2, d := store.CommitWorkflowCancellation(w, revision, now, at);
      event := WorkflowExecutionCancelled;
    } else {
      status, g1, g2, d := store.CommitWorkflowSuccess(w, revision, PyProxy(map[]), now, at);
      event := WorkflowExecutionSucceeded;
    }
    mutated := if status == Committed then 1 else 0;
    if store.quiet {
      MembershipTouches(db, w, revision, from, CountedIn(from), EndOf(from), output, event, now);
      RefusedUnchanged(db, w, revision, from, CountedIn(from), EndOf(from), output, event, now);
      WorkflowTasksDeclared(db, w);
      if Endable(db, w, revision, from) { EndsWorkflow(db, w, revision, from, output, event, now); }
    }
    StepTouches(store.quiet, terms, db, store.Db(), w, mutated);
  }

  lemma RefusedUnchanged(
    db: Db, w: WorkflowId, expected: int, from: WorkflowState, counted: set<TaskState>, to: WorkflowState,
    output: Option<PyValue>, event: Event, now: Time)
    ensures var r := MembershipTx(db, db, db, w, expected, from, counted, to, output, event, now);
      r.status != Committed ==> r.db == db
  {
    hide MembershipGuard, MoveWorkflow, MovedRow;
  }

  lemma DirectionEffect(db: Db, w: WorkflowId, cause: FailureCause, now: Time)
    ensures var r := FailureDirectionTx(db, w, cause, now);
      && OnlyWorkflowMoved(db, r.db, w)
      && (r.status == Committed <==> StateOf(db, w) == Some(WorkflowState.Running))
      && (r.status == Committed ==>
            && r.db.workflows != db.workflows && w in r.db.workflows && r.db.workflows[w].state.Failing?
            && r.db.workflows[w].failure == Some(cause))
      && (r.status != Committed ==> r.db == db)
      && (HasItsTasks(db, w) ==> HasItsTasks(r.db, w))
  {
    var r := FailureDirectionTx(db, w, cause, now);
    if r.status == Committed {
      assert r.db.workflows[w].revision != db.workflows[w].revision;
    }
  }

  /** A drained FAILING workflow whose tasks were all terminal has FAILED. */
  lemma TurnedEnds(db: Db, directed: Db, db': Db, w: WorkflowId, now: Time)
    requires AllTasksIn(db, w, TerminalTaskStates) && OnlyWorkflowMoved(db, directed, w)
    requires w in directed.workflows && directed.workflows[w].state.Failing? && Drained(directed, db', w, now)
    ensures EndedAs(db', w, WorkflowState.Failed)
  {
    forall t | t in db'.tasks && t.workflow == w ensures db'.tasks[t].state in TerminalTaskStates {
      assert DrainedTask(directed.tasks[t], db'.tasks[t]);
    }
  }

  /** A RUNNING workflow with a FAILED task, whose failure never turned it, is turned and drained. */
  method TurnFailed(
    store: Store, ghost terms: Terms, ghost snapshot: Db, ghost at: nat, t: TaskId, row: TaskRow, now: Time)
    returns (mutated: nat)
    requires store.Valid() && ReadAt(store.log, at, snapshot)
    requires t in snapshot.tasks && snapshot.tasks[t] == row && row.state.Failed?
    modifies store
    ensures store.Continues(old(store.log))
    ensures RecoveryStep(store.quiet, terms, old(store.Db()), store.Db(), mutated)
    ensures store.quiet ==> Touches(old(store.Db()), store.Db(), t.workflow)
    ensures store.quiet && mutated == 0 ==> store.Db() == old(store.Db())
    ensures store.quiet && mutated == 1 ==>
              t.workflow in store.workflows && store.workflows[t.workflow].failure == row.failure
    ensures (&& store.quiet && StateOf(old(store.Db()), t.workflow) == Some(WorkflowState.Running)
             && HasItsTasks(old(store.Db()), t.workflow)
             && AllTasksIn(old(store.Db()), t.workflow, TerminalTaskStates)) ==>
              mutated == 1 && EndedAs(store.Db(), t.workflow, WorkflowState.Failed)
  {
    hide Inv, Evolves, IsRun, Leads, Touches, RecoveryStep, FailureDirectionTx, HasItsTasks, Drained, EndedAs,
         AllTasksIn;
    ghost var log, db, w := store.log, store.Db(), t.workflow;
    var cause := row.failure.GetOr(
      FailureCause(SystemPermanent, "TERMINALIZATION_FAILURE", "Task failed during execution"));
    Since(store, at, snapshot);
    FailedHasCause(snapshot, t);
    assert FailedWith(snapshot, w, t, Some(cause));
    store.Others();
    ghost var l, begun := store.log, store.Db();
    ReadLater(log, l, at, snapshot);
    StepOthers(store.quiet, terms, db, begun);
    var status := store.CommitWorkflowFailureDirection(t.workflow, cause, now, t, at);
    GoesOn(store, log, l);
    DirectionEffect(begun, w, cause, now);
    ghost var l1, directed := store.log, store.Db();
    mutated := if status == Committed then 1 else 0;
    StepTouches(store.quiet, terms, begun, directed, w, mutated);
    StepTransitive(store.quiet, terms, db, begun, directed, 0, mutated);
    if status == Committed {
      store.Others();
      GoesOn(store, log, l1);
      ghost var l2, later := store.log, store.Db();
      StepOthers(store.quiet, terms, directed, later);
      ResumeDrain(store, terms, t.workflow, now);
      GoesOn(store, log, l2);
      StepTransitive(store.quiet, terms, directed, later, store.Db(), 0, 0);
      StepTransitive(store.quiet, terms, db, directed, store.Db(), 1, 0);
      if store.quiet {
        TouchesTransitive(db, directed, store.Db(), w);
        Follows(store, l2, directed);
        TurnStays(directed, store.Db(), w);
        if HasItsTasks(db, w) && AllTasksIn(db, w, TerminalTaskStates) { TurnedEnds(db, directed, store.Db(), w, now); }
      }
    }
  }

  lemma FailedHasCause(db: Db, t: TaskId)
    requires Inv(db) && t in db.tasks && db.tasks[t].state.Failed?
    ensures db.tasks[t].failure.Some?
  {
    hide TaskOk, WorkflowOk, AttemptOk, LedgerOk;
    assert TaskOk(db, t);
    FailedShape(db, t);
  }

  lemma FailedShape(db: Db, t: TaskId)
    requires t in db.tasks && TaskOk(db, t) && db.tasks[t].state.Failed?
    ensures db.tasks[t].failure.Some?
  {
  }

  /** Unsettled, and all its tasks, of which there are some, are terminal. */
  ghost predicate Terminalizable(db: Db, w: WorkflowId) {
    && w in db.workflows && db.workflows[w].state in Unsettled
    && TasksOf(db, w) != {} && AllTasksIn(db, w, TerminalTaskStates)
  }

  /** How a workflow of terminal tasks ends. */
  ghost function EndState(db: Db, w: WorkflowId): WorkflowState
    requires w in db.workflows
  {
    if db.workflows[w].state == WorkflowState.Running && SomeTaskFailed(db, w) then WorkflowState.Failed
    else EndOf(db.workflows[w].state)
  }

  lemma UntouchedTerminalizable(db: Db, db': Db, w: WorkflowId)
    requires Untouched(db, db', w) && w in db.workflows
    ensures Terminalizable(db', w) <==> Terminalizable(db, w)
    ensures EndState(db', w) == EndState(db, w)
  {
    assert TasksOf(db', w) == TasksOf(db, w);
    if SomeTaskFailed(db, w) {
      var t :| FailedTaskOf(db, w, t);
      assert FailedTaskOf(db', w, t);
    }
    if SomeTaskFailed(db', w) {
      var t :| FailedTaskOf(db', w, t);
      assert FailedTaskOf(db, w, t);
    }
  }

  /** Tasks of a sound database that are all terminal, none FAILED under a RUNNING workflow, SUCCEEDED. */
  lemma NoneCancelled(db: Db, w: WorkflowId)
    requires Inv(db) && Terminalizable(db, w)
    ensures HasItsTasks(db, w)
    ensures db.workflows[w].state == WorkflowState.Running && !SomeTaskFailed(db, w) ==>
              AllTasksIn(db, w, {TaskState.Succeeded})
  {
    hide Inv;
    var t :| t in TasksOf(db, w);
    StartedHasTasks(db, t);
    SoundOutcome(db, w);
    forall x | x in db.tasks && x.workflow == w && !SomeTaskFailed(db, w) ensures !db.tasks[x].state.Failed? {
      assert !FailedTaskOf(db, w, x);
    }
  }

  /** Ends a workflow whose tasks, read in snapshot, are all terminal; its row was read in start before. */
  method EndByTasks(
    store: Store, ghost terms: Terms, w: WorkflowId, row: WorkflowRow, ghost start: Db, ghost at: nat, snapshot: Db,
    ghost j: nat, now: Time)
    returns (mutated: nat)
    requires store.Valid() && ReadAt(store.log, at, start) && w in start.workflows && start.workflows[w] == row
    requires ReadAt(store.log, j, snapshot) && row.state in Unsettled
    modifies store
    ensures store.Continues(old(store.log))
    ensures RecoveryStep(store.quiet, terms, old(store.Db()), store.Db(), mutated)
    ensures store.quiet ==> Touches(old(store.Db()), store.Db(), w)
    ensures store.quiet && mutated == 0 ==> store.Db() == old(store.Db())
    ensures (&& store.quiet && old(store.Db()) == snapshot && Terminalizable(snapshot, w)
             && snapshot.workflows[w] == row) ==> mutated == 1 && EndedAs(store.Db(), w, EndState(snapshot, w))
  {
    hide Inv, Evolves, IsRun, Leads, RecoveryStep, Touches, Endable, EndedAs, HasItsTasks;
    ghost var exact := store.quiet && store.Db() == snapshot && Terminalizable(snapshot, w)
      && snapshot.workflows[w] == row;
    ghost var before := store.Db();
    StandsStill(store);
    StepOthers(store.quiet, terms, before, before);
    UntouchedMoved(before, w);
    AllSucceededMeans(snapshot, w);
    FailedMeans(snapshot, w);
    var tasks := TasksOf(snapshot, w);
    var failed := set t | t in tasks && snapshot.tasks[t].state.Failed?;
    if exact {
      NoneCancelled(snapshot, w);
      ReadyToEnd(snapshot, w, row);
    }
    if row.state != WorkflowState.Running {
      mutated := Settle(store, terms, w, row.revision, row.state, start, at, now);
    } else if failed != {} {
      var t :| t in failed;
      mutated := TurnFailed(store, terms, snapshot, j, t, snapshot.tasks[t], now);
    } else if forall t | t in tasks :: snapshot.tasks[t].state.Succeeded? {
      mutated := Settle(store, terms, w, row.revision, row.state, start, at, now);
    } else {
      mutated := 0;
    }
  }

  /** Looks at the tasks of one workflow, whose row was read in start. */
  method TerminalizeOne(
    store: Store, ghost terms: Terms, w: WorkflowId, row: WorkflowRow, ghost start: Db, ghost at: nat, now: Time)
    returns (mutated: nat)
    requires store.Valid() && ReadAt(store.log, at, start) && w in start.workflows && start.workflows[w] == row
    requires row.state in Unsettled
    modifies store
    ensures store.Continues(old(store.log))
    ensures RecoveryStep(store.quiet, terms, old(store.Db()), store.Db(), mutated)
    ensures store.quiet ==> Touches(old(store.Db()), store.Db(), w)
    ensures store.quiet && mutated == 0 ==> store.Db() == old(store.Db())
    ensures store.quiet && Untouched(start, old(store.Db()), w) ==>
      && mutated == (if Terminalizable(start, w) then 1 else 0)
      && (Terminalizable(start, w) ==> EndedAs(store.Db(), w, EndState(start, w)))
  {
    hide Inv, Evolves, IsRun, Leads, RecoveryStep, Touches, EndedAs, Untouched, EndState;
    ghost var log, db := store.log, store.Db();
    mutated := 0;
    store.Others();
    ghost var l, j := store.log, store.Now();
    var snapshot := store.Db();
    ReadLater(log, l, at, start);
    StepOthers(store.quiet, terms, db, snapshot);
    UntouchedMoved(db, w);
    if store.quiet && Untouched(start, db, w) { SameTerminalizable(start, db, w, row); }
    AllTerminalMeans(snapshot, w);
    var tasks := TasksOf(snapshot, w);
    if tasks == {} || exists t | t in tasks :: !snapshot.tasks[t].state.Terminal() {
      return;
    }
    mutated := EndByTasks(store, terms, w, row, start, at, snapshot, j, now);
    GoesOn(store, log, l);
    StepTransitive(store.quiet, terms, db, snapshot, store.Db(), 0, mutated);
  }

  lemma SameTerminalizable(start: Db, db: Db, w: WorkflowId, row: WorkflowRow)
    requires Untouched(start, db, w) && w in start.workflows && start.workflows[w] == row
    ensures w in db.workflows && db.workflows[w] == row
    ensures Terminalizable(db, w) <==> Terminalizable(start, w)
    ensures EndState(db, w) == EndState(start, w)
  {
    UntouchedTerminalizable(start, db, w);
  }

  lemma FailedMeans(db: Db, w: WorkflowId)
    ensures (set t | t in TasksOf(db, w) && db.tasks[t].state.Failed?) == {} <==> !SomeTaskFailed(db, w)
  {
    var failed := set t | t in TasksOf(db, w) && db.tasks[t].state.Failed?;
    if SomeTaskFailed(db, w) {
      var t :| FailedTaskOf(db, w, t);
      assert t in failed;
    }
    if failed != {} {
      var t :| t in failed;
      assert FailedTaskOf(db, w, t);
    }
  }

  lemma ReadyToEnd(db: Db, w: WorkflowId, row: WorkflowRow)
    requires w in db.workflows && db.workflows[w] == row && HasItsTasks(db, w) && AllTasksIn(db, w, TerminalTaskStates)
    requires row.state in Unsettled
    ensures (row.state == WorkflowState.Running ==> AllTasksIn(db, w, {TaskState.Succeeded})) ==>
              Endable(db, w, row.revision, row.state)
  {
  }

  ghost function TerminalizableIn(db: Db, some: set<WorkflowId>): set<WorkflowId> {
    set w | w in some && Terminalizable(db, w)
  }

  /** The workflows of todo are as they were; of the others in the batch, those with terminal tasks only have ended. */
  ghost predicate TerminalizedBut(start: Db, db: Db, batch: set<WorkflowId>, todo: set<WorkflowId>) {
    && (forall w | w in todo :: Untouched(start, db, w))
    && (forall w | w in batch && w !in todo && Terminalizable(start, w) :: EndedAs(db, w, EndState(start, w)))
  }

  lemma TerminalizedStep(start: Db, before: Db, db: Db, batch: set<WorkflowId>, todo: set<WorkflowId>, w: WorkflowId)
    requires TerminalizedBut(start, before, batch, todo) && w in todo && Touches(before, db, w)
    requires Terminalizable(start, w) ==> EndedAs(db, w, EndState(start, w))
    ensures TerminalizedBut(start, db, batch, todo - {w})
  {
    hide Touches, EndState;
    forall x | x in todo && x != w ensures Untouched(start, db, x) {
      UntouchedBy(before, db, w, x);
      UntouchedTransitive(start, before, db, x);
    }
    forall x | x in batch && x !in todo && Terminalizable(start, x) ensures EndedAs(db, x, EndState(start, x)) {
      UntouchedBy(before, db, w, x);
    }
  }

  lemma NothingEndedYet(db: Db, batch: set<WorkflowId>)
    ensures TerminalizedBut(db, db, batch, batch)
  {
    NothingTouched(db);
  }

  lemma TodoUntouched(start: Db, db: Db, batch: set<WorkflowId>, todo: set<WorkflowId>, w: WorkflowId)
    requires TerminalizedBut(start, db, batch, todo) && w in todo
    ensures Untouched(start, db, w)
  {
  }

  /** Settles or turns exactly those workflows of the batch whose tasks are all terminal, and counts them. */
  method Phase8RepairTerminalization(store: Store, ghost terms: Terms, batchSize: nat, now: Time)
    returns (mutations: nat, ghost batch: set<WorkflowId>)
    requires store.Valid()
    modifies store
    ensures store.Continues(old(store.log))
    ensures RecoveryStep(store.quiet, terms, old(store.Db()), store.Db(), mutations)
    ensures BatchOf(batch, InState(old(store.Db()), Unsettled), batchSize)
    ensures store.quiet ==> mutations == |TerminalizableIn(old(store.Db()), batch)|
    ensures store.quiet ==> TerminalizedBut(old(store.Db()), store.Db(), batch, {})
    ensures store.quiet && mutations == 0 ==> store.Db() == old(store.Db())
  {
    hide Inv, Evolves, IsRun, Leads, RecoveryStep, TerminalizedBut, Terminalizable, Touches, EndedAs, EndState;
    ghost var log, db, at := store.log, store.Db(), store.Now();
    StandsStill(store);
    StepOthers(store.quiet, terms, db, db);
    var snapshot := store.Db();
    var todo := Limit(InState(snapshot, Unsettled), batchSize);
    batch := todo;
    NothingEndedYet(db, batch);
    ghost var counted: set<WorkflowId> := {};
    mutations := 0;
    while todo != {}
      invariant todo <= batch
      invariant store.Continues(log) && RecoveryStep(store.quiet, terms, db, store.Db(), mutations)
      invariant store.quiet ==> mutations == |counted| && counted == TerminalizableIn(db, batch - todo)
      invariant store.quiet ==> TerminalizedBut(db, store.Db(), batch, todo)
      invariant store.quiet && mutations == 0 ==> store.Db() == db
      decreases todo
    {
      var w :| w in todo;
      ghost var l, before := store.log, store.Db();
      ReadLater(log, l, at, snapshot);
      if store.quiet { TodoUntouched(db, before, batch, todo, w); }
      var mutated := TerminalizeOne(store, terms, w, snapshot.workflows[w], snapshot, at, now);
      GoesOn(store, log, l);
      StepTransitive(store.quiet, terms, db, before, store.Db(), mutations, mutated);
      if store.quiet {
        TerminalizedStep(db, before, store.Db(), batch, todo, w);
        if mutated == 1 { counted := counted + {w}; }
      }
      todo := todo - {w};
      mutations := mutations + mutated;
    }
    assert batch - {} == batch;
  }
}
