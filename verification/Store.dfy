/**
  The store: the tables as mutable fields, and one method per commit_* of persistence/transactions.py.

  The store keeps, as a ghost log, the run it is in: every database it went through and the protocol step that led
  to it. Others() stands between the statements of a transaction and between the transactions of a caller: there any
  number of other transactions may commit. A quiet store is one nobody else uses. Each method takes, as ghost
  arguments, where in the run its caller read what it now expects, and reports, as ghost results, the databases its
  guards were read from and the one its write landed on. The rows one transaction writes become visible together, so
  nothing comes between its writes; what an early return leaves written stays.
  */
module Store {
  import opened Wrappers
  import opened JsonCompat
  import opened Spec
  import opened Rows
  import opened Transactions
  import opened Invariant
  import opened Preservation
  import opened Settlement
  import opened Protocol
  import opened Steps

  /** The write landed on d after guard g was read, at or after database start. */
  ghost predicate Landed(quiet: bool, start: Db, g: Db, d: Db) {
    Advances(start, g) && Advances(g, d) && (quiet ==> g == start && d == start)
  }

  /** As Landed, with two guard reads, g1 before g2. */
  ghost predicate Landed2(quiet: bool, start: Db, g1: Db, g2: Db, d: Db) {
    Advances(start, g1) && Advances(g1, g2) && Advances(g2, d)
    && (quiet ==> g1 == start && g2 == start && d == start)
  }

  class Store {
    var definitions: map<DefinitionId, ValidatedWorkflowSpec>
    var workflows: map<WorkflowId, WorkflowRow>
    var tasks: map<TaskId, TaskRow>
    var attempts: map<AttemptId, AttemptRow>
    var history: seq<HistoryEntry>
    ghost var log: Log
    ghost const quiet: bool

    constructor (ghost quiet: bool)
      ensures Db() == EmptyDb && Valid() && log == Log([EmptyDb], []) && this.quiet == quiet
    {
      definitions, workflows, tasks, attempts, history := map[], map[], map[], map[], [];
      log := Log([EmptyDb], []);
      this.quiet := quiet;
    }

    function Db(): Db
      reads this
    {
      Rows.Db(definitions, workflows, tasks, attempts, history)
    }

    /** The log is a run of the protocol and has come to the present database. */
    ghost predicate Valid()
      reads this
    {
      log.trace != [] && IsRun(log.trace, log.steps) && Last(log.trace) == Db() && Inv(Db())
    }

    /** The run recorded in l went on, by enabled steps only, to the present database. */
    ghost predicate Continues(l: Log)
      reads this
    {
      Valid() && Leads(l, log) && Advances(Last(l.trace), Db())
    }

    /** The transaction answered and left the database as r says. */
    ghost predicate Did(status: CommitStatus, r: TxResult)
      reads this
    {
      status == r.status && Db() == r.db
    }

    /** The index in the run of the present database. */
    ghost function Now(): nat
      reads this
      requires Valid()
      ensures ReadAt(log, Now(), Db())
    {
      |log.trace| - 1
    }

    /** Other callers' transactions commit here, unless the store is quiet. */
    method Others()
      requires Valid()
      modifies this
      ensures Continues(old(log))
      ensures quiet ==> Db() == old(Db()) && log == old(log)
    {
      EvolvesReflexive(Db());
    }

    /** Puts the step just performed into the log. */
    ghost method Record(action: Action, now: Time)
      requires log.trace != [] && IsRun(log.trace, log.steps) && Enabled(log.trace, action)
      requires Db() == Perform(log.trace, Step(action, now)).db
      modifies `log
      ensures log == Log(old(log.trace) + [Db()], old(log.steps) + [Step(action, now)])
      ensures Valid() && Leads(old(log), log) && Advances(Last(old(log.trace)), Db())
    {
      hide Inv, Evolves, Enabled, Perform, IsRun;
      RunGrows(log.trace, log.steps, Step(action, now));
      log := Log(log.trace + [Db()], log.steps + [Step(action, now)]);
    }

    /** A fresh identifier. */
    method NewAttemptId() returns (a: AttemptId)
      ensures a !in attempts
    {
      var n := 0;
      ghost var tried: set<AttemptId> := {};
      while AttemptId(n) in attempts
        invariant tried <= attempts.Keys && forall x | x in tried :: x.value < n
        decreases attempts.Keys - tried
      {
        tried := tried + {AttemptId(n)};
        n := n + 1;
      }
      a := AttemptId(n);
    }

    method Append(entry: HistoryEntry)
      modifies `history
      ensures history == old(history) + [entry]
    {
      history := history + [entry];
    }

    // ---------------------------------------------------------------------------------- guard reads

    /** SELECT state of a workflow. Others may commit before what follows. */
    method ReadState(w: WorkflowId) returns (seen: Option<WorkflowState>, ghost g: Db, ghost at: nat)
      requires Valid()
      modifies this
      ensures Valid() && Leads(old(log), log) && Landed(quiet, old(Db()), g, Db()) && ReadAt(log, at, g)
      ensures seen == StateOf(g, w)
    {
      hide Inv, Evolves, IsRun;
      AdvancesReflexive(Db());
      g, at := Db(), Now();
      seen := StateOf(Db(), w);
      Others();
    }

    /** SELECT the workflow of a task, then that workflow's state. */
    method ReadTaskWorkflow(t: TaskId)
      returns (known: bool, seen: Option<WorkflowState>, ghost g1: Db, ghost g2: Db, ghost at1: nat, ghost at2: nat)
      requires Valid()
      modifies this
      ensures Valid() && Leads(old(log), log) && Landed2(quiet, old(Db()), g1, g2, Db())
      ensures ReadAt(log, at1, g1) && ReadAt(log, at2, g2)
      ensures known == (t in g1.tasks) && seen == StateOf(g2, t.workflow)
    {
      hide Inv, Evolves, IsRun;
      AdvancesReflexive(Db());
      g1, at1 := Db(), Now();
      known := t in tasks;
      Others();
      g2, at2 := Db(), Now();
      seen := StateOf(Db(), t.workflow);
      Others();
    }

    /** Is the task unstarted, and what is the state of its workflow? */
    method ReadUnstarted(t: TaskId)
      returns (eligible: bool, seen: Option<WorkflowState>, ghost g1: Db, ghost g2: Db, ghost at1: nat, ghost at2: nat)
      requires Valid()
      modifies this
      ensures Valid() && Leads(old(log), log) && Landed2(quiet, old(Db()), g1, g2, Db())
      ensures ReadAt(log, at1, g1) && ReadAt(log, at2, g2)
      ensures eligible == (t in g1.tasks && g1.tasks[t].state.Unstarted()) && seen == StateOf(g2, t.workflow)
    {
      hide Inv, Evolves, IsRun;
      AdvancesReflexive(Db());
      g1, at1 := Db(), Now();
      eligible := t in tasks && tasks[t].state.Unstarted();
      Others();
      g2, at2 := Db(), Now();
      seen := StateOf(Db(), t.workflow);
      Others();
    }

    /** The state of the task's workflow, and whether the task has an active attempt. */
    method ReadOwnership(t: TaskId)
      returns (seen: Option<WorkflowState>, active: bool, ghost g1: Db, ghost g2: Db, ghost at1: nat, ghost at2: nat)
      requires Valid()
      modifies this
      ensures Valid() && Leads(old(log), log) && Landed2(quiet, old(Db()), g1, g2, Db())
      ensures ReadAt(log, at1, g1) && ReadAt(log, at2, g2)
      ensures seen == StateOf(g1, t.workflow) && active == HasActiveAttempt(g2, t)
    {
      hide Inv, Evolves, IsRun;
      AdvancesReflexive(Db());
      g1, at1 := Db(), Now();
      seen := StateOf(Db(), t.workflow);
      Others();
      g2, at2 := Db(), Now();
      active := HasActiveAttempt(Db(), t);
      Others();
    }

    // -------------------------------------------------------------- creation and initialisation

    method CommitRegisteredDefinition(id: DefinitionId, spec: ValidatedWorkflowSpec, now: Time)
      returns (status: CommitStatus)
      requires Valid() && ValidSpec(spec)
      modifies this
      ensures Continues(old(log))
      ensures Did(status, RegisterTx(old(Db()), id, spec))
    {
      hide Inv, Evolves, IsRun, Enabled, Perform;
      if id in definitions || Blank(spec.name) {
        status := IntegrityError;
      } else {
        definitions := definitions[id := spec];
        status := Committed;
      }
      RegisterIs(log.trace, id, spec, now);
      Record(Register(id, spec), now);
    }

    method CommitWorkflowCreation(w: WorkflowId, d: DefinitionId, input: PyValue, now: Time)
      returns (status: CommitStatus)
      requires Valid()
      modifies this
      ensures Continues(old(log))
      ensures Did(status, CreateTx(old(Db()), w, d, input, now))
    {
      hide Inv, Evolves, IsRun, Enabled, Perform;
      if w in workflows || d !in definitions {
        status := IntegrityError;
      } else {
        workflows := workflows[w := WorkflowRow(d, WorkflowState.Initializing, 1, input, None, None)];
        Append(WorkflowEntry(w, WorkflowExecutionCreated(d), now));
        status := Committed;
      }
      CreateIs(log.trace, w, d, input, now);
      Record(Create(w, d, input), now);
    }

    /** INSERT ... ON CONFLICT DO NOTHING for each task definition, in any order. */
    method InsertPending(w: WorkflowId, taskDefinitions: map<string, TaskDefinition>)
      modifies `tasks
      ensures tasks == PendingRows(w, taskDefinitions) + old(tasks)
    {
      var todo := taskDefinitions.Keys;
      while todo != {}
        invariant todo <= taskDefinitions.Keys
        invariant forall t :: t in tasks <==>
                    t in old(tasks) || (t in PendingRows(w, taskDefinitions) && t.definition !in todo)
        invariant forall t | t in tasks ::
                    tasks[t] == if t in old(tasks) then old(tasks)[t] else PendingRows(w, taskDefinitions)[t]
        decreases todo
      {
        var k :| k in todo;
        if TaskId(w, k) !in tasks {
          tasks := tasks[TaskId(w, k) := PendingRow(taskDefinitions[k])];
        }
        todo := todo - {k};
      }
    }

    method Populate(w: WorkflowId, taskDefinitions: map<string, TaskDefinition>, now: Time)
      modifies `tasks, `history
      ensures tasks == PendingRows(w, taskDefinitions) + old(tasks)
      ensures history == old(history) + [WorkflowEntry(w, TaskPopulationEstablished(|taskDefinitions|), now)]
    {
      InsertPending(w, taskDefinitions);
      Append(WorkflowEntry(w, TaskPopulationEstablished(|taskDefinitions|), now));
    }

    /** The task definitions were read at index i. */
    method CommitTaskPopulation(w: WorkflowId, taskDefinitions: map<string, TaskDefinition>, now: Time, ghost i: nat)
      returns (status: CommitStatus, ghost g: Db, ghost d: Db)
      requires Valid() && i < |log.trace| && TasksRead(log.trace[i], w, taskDefinitions)
      modifies this
      ensures Continues(old(log))
      ensures Landed(quiet, old(Db()), g, d)
      ensures Did(status, PopulateTx(g, d, w, taskDefinitions, now))
    {
      hide PendingRows, TasksRead;
      hide Inv, Evolves, IsRun, Enabled, Perform;
      var seen;
      ghost var at;
      seen, g, at := ReadState(w);
      d := Db();
      if seen != Some(WorkflowState.Initializing) {
        status := PreconditionFailed;
      } else {
        Populate(w, taskDefinitions, now);
        status := Committed;
      }
      PopulateIs(log.trace, w, taskDefinitions, i, at, now);
      Record(Protocol.Populate(w, i, at), now);
      AdvancesTransitive(old(Db()), g, d);
      AdvancesTransitive(old(Db()), d, Db());
    }

    // -------------------------------------------------------------------- workflow transitions

    /** UPDATE workflow_executions ... WHERE state = from AND revision = expected, and its history entry. */
    method MoveState(w: WorkflowId, expected: int, from: WorkflowState, to: WorkflowState, output: Option<PyValue>,
                     event: Event, now: Time)
      returns (status: CommitStatus)
      modifies `workflows, `history
      ensures
        var db := old(Db());
        if !WorkflowMatches(db, w, {from}) || db.workflows[w].revision != expected
        then status == OccConflict && Db() == db
        else status == Committed && Db() == MoveWorkflow(db, w, MovedRow(db.workflows[w], to, output), event, now)
    {
      if !(w in workflows && workflows[w].state == from && workflows[w].revision == expected) {
        return OccConflict;
      }
      workflows := workflows[w := workflows[w].(state := to, revision := workflows[w].revision + 1)];
      if output.Some? {
        workflows := workflows[w := workflows[w].(output := output)];
      }
      Append(WorkflowEntry(w, event, now));
      status := Committed;
    }

    /** The reads of a membership transition; Committed lets it write. */
    method ReadMembership(w: WorkflowId, expected: int, from: WorkflowState, counted: set<TaskState>)
      returns (guard: CommitStatus, ghost g1: Db, ghost g2: Db, ghost i1: nat, ghost i2: nat)
      requires Valid()
      modifies this
      ensures Valid() && Leads(old(log), log) && Landed2(quiet, old(Db()), g1, g2, Db())
      ensures ReadAt(log, i1, g1) && ReadAt(log, i2, g2)
      ensures guard == MembershipGuard(g1, g2, w, expected, from, counted)
    {
      hide Inv, Evolves, IsRun;
      AdvancesReflexive(Db());
      var seen := Db();
      g1, i1 := Db(), Now();
      Others();
      var names := TaskNames(Db(), w, counted);
      g2, i2 := Db(), Now();
      Others();
      guard := MembershipDecision(seen, w, expected, from, names);
    }

    method MembershipDecision(seen: Db, w: WorkflowId, expected: int, from: WorkflowState, names: set<string>)
      returns (guard: CommitStatus)
      ensures forall g2, counted | TaskNames(g2, w, counted) == names ::
                guard == MembershipGuard(seen, g2, w, expected, from, counted)
    {
      if w !in seen.workflows { return PreconditionFailed; }
      var row := seen.workflows[w];
      if row.state != from || row.revision != expected { return OccConflict; }
      if row.definition !in seen.definitions { return PreconditionFailed; }
      if seen.definitions[row.definition].tasks.Keys != names { return PreconditionFailed; }
      guard := Committed;
    }

    /** The expected revision is the first. */
    method CommitInitializationComplete(w: WorkflowId, expected: int, now: Time)
      returns (status: CommitStatus, ghost g1: Db, ghost g2: Db, ghost d: Db)
      requires Valid() && expected == 1
      modifies this
      ensures Continues(old(log))
      ensures Landed2(quiet, old(Db()), g1, g2, d)
      ensures Did(status, InitializationCompleteTx(g1, g2, d, w, expected, now))
    {
      hide Inv, Evolves, IsRun, Enabled, Perform, MembershipGuard;
      ghost var i1, i2;
      status, g1, g2, i1, i2 := ReadMembership(w, expected, WorkflowState.Initializing, AnyTaskState);
      d := Db();
      if status == Committed {
        status := MoveState(
          w, expected, WorkflowState.Initializing, WorkflowState.Running, None, WorkflowExecutionStarted, now);
      }
      CompleteIs(log.trace, w, i1, i2, now);
      Record(CompleteInitialization(w, i1, i2), now);
      AdvancesTransitive(old(Db()), g1, g2);
      AdvancesTransitive(old(Db()), g2, d);
      AdvancesTransitive(old(Db()), d, Db());
    }

    /** Creation, population and completion in one transaction. Nothing comes between them, because until its end
        nobody else sees the new workflow. */
    method CommitStartedExecution(
      w: WorkflowId, d: DefinitionId, taskDefinitions: map<string, TaskDefinition>, input: PyValue, now: Time)
      returns (status: CommitStatus)
      requires Valid() && d in definitions && definitions[d].tasks == taskDefinitions
      modifies this
      ensures Continues(old(log))
      ensures Did(status, StartExecutionTx(old(Db()), w, d, taskDefinitions, input, now))
    {
      hide Inv, Evolves, IsRun, Leads, Advances, Enabled, Perform, CreateTx, PopulateTx, InitializationCompleteTx,
           TasksRead;
      var before := Db();
      ghost var l0 := log;
      StandsStill(this);
      CreatedReads(before, w, d, taskDefinitions, input, now);
      status := CommitWorkflowCreation(w, d, input, now);
      if status == Committed {
        ghost var l1 := log;
        status := InitialiseOwn(w, taskDefinitions, now);
        GoesOn(this, l0, l1);
      }
      if status != Committed {
        definitions, workflows, tasks := before.definitions, before.workflows, before.tasks;
        attempts, history := before.attempts, before.history;
        log := l0;
      }
    }

    /** Population and completion of a workflow the same transaction created. */
    method InitialiseOwn(w: WorkflowId, taskDefinitions: map<string, TaskDefinition>, now: Time)
      returns (status: CommitStatus)
      requires Valid() && TasksRead(Db(), w, taskDefinitions)
      modifies `workflows, `tasks, `history, `log
      ensures Continues(old(log))
      ensures
        var populated := PopulateTx(old(Db()), old(Db()), w, taskDefinitions, now);
        if populated.status != Committed then status == populated.status
        else Did(status, InitializationCompleteTx(populated.db, populated.db, populated.db, w, 1, now))
    {
      hide Inv, Evolves, IsRun, Leads, Advances, Enabled, Perform, PopulateTx, InitializationCompleteTx, TasksRead;
      ghost var l0 := log;
      status := PopulateOwn(w, taskDefinitions, now);
      if status == Committed {
        ghost var l1 := log;
        status := CompleteOwn(w, now);
        GoesOn(this, l0, l1);
      }
    }

    /** Population of a workflow the same transaction created. */
    method PopulateOwn(w: WorkflowId, taskDefinitions: map<string, TaskDefinition>, now: Time)
      returns (status: CommitStatus)
      requires Valid() && TasksRead(Db(), w, taskDefinitions)
      modifies `tasks, `history, `log
      ensures Continues(old(log))
      ensures Did(status, PopulateTx(old(Db()), old(Db()), w, taskDefinitions, now))
    {
      hide PendingRows, TasksRead;
      hide Inv, Evolves, IsRun, Enabled, Perform;
      ghost var i := Now();
      if StateOf(Db(), w) != Some(WorkflowState.Initializing) {
        status := PreconditionFailed;
      } else {
        Populate(w, taskDefinitions, now);
        status := Committed;
      }
      PopulateIs(log.trace, w, taskDefinitions, i, i, now);
      Record(Protocol.Populate(w, i, i), now);
    }

    /** Completion of an initialisation the same transaction began. */
    method CompleteOwn(w: WorkflowId, now: Time) returns (status: CommitStatus)
      requires Valid()
      modifies `workflows, `history, `log
      ensures Continues(old(log))
      ensures Did(status, InitializationCompleteTx(old(Db()), old(Db()), old(Db()), w, 1, now))
    {
      hide Inv, Evolves, IsRun, Enabled, Perform, MembershipGuard;
      ghost var i := Now();
      status := MembershipDecision(Db(), w, 1, WorkflowState.Initializing, TaskNames(Db(), w, AnyTaskState));
      if status == Committed {
        status := MoveState(
          w, 1, WorkflowState.Initializing, WorkflowState.Running, None, WorkflowExecutionStarted, now);
      }
      CompleteIs(log.trace, w, i, i, now);
      Record(CompleteInitialization(w, i, i), now);
    }

    /** The expected revision was read at index i, here and below. */
    method CommitWorkflowSuccess(w: WorkflowId, expected: int, output: PyValue, now: Time, ghost i: nat)
      returns (status: CommitStatus, ghost g1: Db, ghost g2: Db, ghost d: Db)
      requires Valid() && i < |log.trace| && WorkflowRead(log.trace[i], w, expected)
      modifies this
      ensures Continues(old(log))
      ensures Landed2(quiet, old(Db()), g1, g2, d)
      ensures Did(status, WorkflowSuccessTx(g1, g2, d, w, expected, output, now))
    {
      hide Inv, Evolves, IsRun, Enabled, Perform, MembershipGuard;
      ghost var i1, i2;
      status, g1, g2, i1, i2 := ReadMembership(w, expected, WorkflowState.Running, {TaskState.Succeeded});
      d := Db();
      if status == Committed {
        status := MoveState(
          w, expected, WorkflowState.Running, WorkflowState.Succeeded, Some(output), WorkflowExecutionSucceeded, now);
      }
      WorkflowSuccessIs(log.trace, w, expected, output, i, i1, i2, now);
      Record(WorkflowSuccess(w, output, i, i1, i2), now);
      AdvancesTransitive(old(Db()), g1, g2);
      AdvancesTransitive(old(Db()), g2, d);
      AdvancesTransitive(old(Db()), d, Db());
    }

    method CommitWorkflowFailure(w: WorkflowId, expected: int, now: Time, ghost i: nat)
      returns (status: CommitStatus, ghost g1: Db, ghost g2: Db, ghost d: Db)
      requires Valid() && i < |log.trace| && WorkflowRead(log.trace[i], w, expected)
      modifies this
      ensures Continues(old(log))
      ensures Landed2(quiet, old(Db()), g1, g2, d)
      ensures Did(status, WorkflowFailureTx(g1, g2, d, w, expected, now))
    {
      hide Inv, Evolves, IsRun, Enabled, Perform, MembershipGuard;
      ghost var i1, i2;
      status, g1, g2, i1, i2 := ReadMembership(w, expected, WorkflowState.Failing, TerminalTaskStates);
      d := Db();
      if status == Committed {
        status := MoveState(
          w, expected, WorkflowState.Failing, WorkflowState.Failed, None, WorkflowExecutionFailed, now);
      }
      WorkflowFailureIs(log.trace, w, expected, i, i1, i2, now);
      Record(WorkflowFailure(w, i, i1, i2), now);
      AdvancesTransitive(old(Db()), g1, g2);
      AdvancesTransitive(old(Db()), g2, d);
      AdvancesTransitive(old(Db()), d, Db());
    }

    method CommitWorkflowCancellation(w: WorkflowId, expected: int, now: Time, ghost i: nat)
      returns (status: CommitStatus, ghost g1: Db, ghost g2: Db, ghost d: Db)
      requires Valid() && i < |log.trace| && WorkflowRead(log.trace[i], w, expected)
      modifies this
      ensures Continues(old(log))
      ensures Landed2(quiet, old(Db()), g1, g2, d)
      ensures Did(status, WorkflowCancellationTx(g1, g2, d, w, expected, now))
    {
      hide Inv, Evolves, IsRun, Enabled, Perform, MembershipGuard;
      ghost var i1, i2;
      status, g1, g2, i1, i2 := ReadMembership(w, expected, WorkflowState.Cancelling, TerminalTaskStates);
      d := Db();
      if status == Committed {
        status := MoveState(
          w, expected, WorkflowState.Cancelling, WorkflowState.Cancelled, None, WorkflowExecutionCancelled, now);
      }
      WorkflowCancellationIs(log.trace, w, expected, i, i1, i2, now);
      Record(WorkflowCancellation(w, i, i1, i2), now);
      AdvancesTransitive(old(Db()), g1, g2);
      AdvancesTransitive(old(Db()), g2, d);
      AdvancesTransitive(old(Db()), d, Db());
    }

    /** Task t of w was read FAILED for the cause at index i. */
    method CommitWorkflowFailureDirection(w: WorkflowId, cause: FailureCause, now: Time, ghost t: TaskId, ghost i: nat)
      returns (status: CommitStatus)
      requires Valid() && i < |log.trace| && FailedWith(log.trace[i], w, t, Some(cause))
      modifies this
      ensures Continues(old(log))
      ensures Did(status, FailureDirectionTx(old(Db()), w, cause, now))
    {
      hide Inv, Evolves, IsRun, Enabled, Perform;
      if !(w in workflows && workflows[w].state == WorkflowState.Running) {
        status := PreconditionFailed;
      } else {
        workflows := workflows[w := workflows[w].(
          state := WorkflowState.Failing, failure := Some(cause), revision := workflows[w].revision + 1)];
        Append(WorkflowEntry(w, WorkflowExecutionFailing(cause.code), now));
        status := Committed;
      }
      FailureDirectionIs(log.trace, w, t, cause, i, now);
      Record(FailureDirection(w, t, cause, i), now);
    }

    method CommitWorkflowCancellationDirection(w: WorkflowId, now: Time)
      returns (status: CommitStatus)
      requires Valid()
      modifies this
      ensures Continues(old(log))
      ensures Did(status, CancellationDirectionTx(old(Db()), w, now))
    {
      hide Inv, Evolves, IsRun, Enabled, Perform;
      if !(w in workflows && (workflows[w].state.Initializing? || workflows[w].state == WorkflowState.Running)) {
        status := PreconditionFailed;
      } else {
        workflows := workflows[w := workflows[w].(
          state := WorkflowState.Cancelling, revision := workflows[w].revision + 1)];
        Append(WorkflowEntry(w, WorkflowCancellationRequested, now));
        status := Committed;
      }
      CancellationDirectionIs(log.trace, w, now);
      Record(CancellationDirection(w), now);
    }

    /** What startup recovery's phase 1 does to one workflow row, read INITIALIZING with tasks at index i. The write
        has no condition; that the row has not gone past RUNNING since is for the caller to know. */
    method RepairInitializing(w: WorkflowId, seen: int, now: Time, ghost i: nat)
      returns (status: CommitStatus)
      requires Valid() && i < |log.trace| && RepairRead(log.trace[i], w, seen)
      requires WorkflowMatches(Db(), w, {WorkflowState.Initializing, WorkflowState.Running})
      modifies this
      ensures Continues(old(log))
      ensures Did(status, RepairInitializingTx(old(Db()), w, seen))
    {
      hide Inv, Evolves, IsRun, Enabled, Perform;
      workflows := workflows[w := workflows[w].(state := WorkflowState.Running, revision := seen + 1)];
      RepairIs(log.trace, w, seen, i, now);
      Record(Action.RepairInitializing(w, i), now);
      status := Committed;
    }

    // ------------------------------------------------------------------------ task transitions

    /** The input was resolved over what was read at index i, where the task had the expected revision. */
    method CommitTaskReadiness(t: TaskId, expected: int, input: JsonObject, now: Time, ghost i: nat)
      returns (status: CommitStatus, ghost g: Db, ghost d: Db)
      requires Valid() && i < |log.trace| && ResolvedIn(log.trace[i], t, input) && TaskRead(log.trace[i], t, expected)
      modifies this
      ensures Continues(old(log))
      ensures Landed(quiet, old(Db()), g, d)
      ensures Did(status, ReadinessTx(g, d, t, expected, input, now))
    {
      hide ResolvedIn;
      hide Inv, Evolves, IsRun, Enabled, Perform;
      var seen;
      ghost var at;
      seen, g, at := ReadState(t.workflow);
      d := Db();
      if seen != Some(WorkflowState.Running) {
        status := PreconditionFailed;
      } else if !(t in tasks && tasks[t].state == TaskState.Pending && tasks[t].revision == expected) {
        status := OccConflict;
      } else {
        tasks := tasks[t := tasks[t].(
          state := TaskState.Runnable, input := Some(input), revision := tasks[t].revision + 1)];
        Append(TaskEntry(t, TaskMarkedRunnable, now));
        status := Committed;
      }
      ReadinessIs(log.trace, t, expected, input, i, at, now);
      Record(Readiness(t, input, i, at), now);
      AdvancesTransitive(old(Db()), g, d);
      AdvancesTransitive(old(Db()), d, Db());
    }

    /** The expected task revision was read at index i, here and below. */
    method CommitRetryReady(t: TaskId, expected: int, now: Time, ghost i: nat)
      returns (status: CommitStatus, ghost g: Db, ghost d: Db)
      requires Valid() && i < |log.trace| && TaskRead(log.trace[i], t, expected)
      modifies this
      ensures Continues(old(log))
      ensures Landed(quiet, old(Db()), g, d)
      ensures Did(status, RetryReadyTx(g, d, t, expected, now))
    {
      hide Inv, Evolves, IsRun, Enabled, Perform;
      var seen;
      ghost var at;
      seen, g, at := ReadState(t.workflow);
      d := Db();
      if seen != Some(WorkflowState.Running) {
        status := PreconditionFailed;
      } else if !(t in tasks && tasks[t].state == TaskState.RetryWait && tasks[t].revision == expected
                  && tasks[t].retryReadyAt.Some? && tasks[t].retryReadyAt.value <= now) {
        status := OccConflict;
      } else {
        tasks := tasks[t := tasks[t].(
          state := TaskState.Runnable, retryReadyAt := None, revision := tasks[t].revision + 1)];
        Append(TaskEntry(t, TaskMarkedRunnable, now));
        status := Committed;
      }
      RetryReadyIs(log.trace, t, expected, i, at, now);
      Record(RetryReady(t, i, at), now);
      AdvancesTransitive(old(Db()), g, d);
      AdvancesTransitive(old(Db()), d, Db());
    }

    method CommitDrainTaskCancellation(t: TaskId, expected: int, now: Time, ghost i: nat)
      returns (status: CommitStatus, ghost g1: Db, ghost g2: Db, ghost d: Db)
      requires Valid() && i < |log.trace| && TaskRead(log.trace[i], t, expected)
      modifies this
      ensures Continues(old(log))
      ensures Landed2(quiet, old(Db()), g1, g2, d)
      ensures Did(status, DrainCancelTx(g1, g2, d, t, expected, now))
    {
      hide Inv, Evolves, IsRun, Enabled, Perform;
      var eligible, seen;
      ghost var at1, at2;
      eligible, seen, g1, g2, at1, at2 := ReadUnstarted(t);
      d := Db();
      if !eligible || !(seen.Some? && seen.value.Draining()) {
        status := PreconditionFailed;
      } else if !(t in tasks && tasks[t].state.Unstarted() && tasks[t].revision == expected) {
        status := OccConflict;
      } else {
        tasks := tasks[t := tasks[t].(
          state := TaskState.Cancelled, retryReadyAt := None, revision := tasks[t].revision + 1)];
        Append(TaskEntry(t, TaskExecutionCancelled, now));
        status := Committed;
      }
      DrainCancelIs(log.trace, t, expected, i, at1, at2, now);
      Record(DrainCancel(t, i, at1, at2), now);
      AdvancesTransitive(old(Db()), g1, g2);
      AdvancesTransitive(old(Db()), g2, d);
      AdvancesTransitive(old(Db()), d, Db());
    }

    // ------------------------------------------------------------------------ claims and starts

    method CommitAttemptOwnership(
      t: TaskId, expected: int, worker: SessionId, a: AttemptId, startDeadline: Time, now: Time, ghost i: nat)
      returns (status: CommitStatus, ghost g1: Db, ghost g2: Db, ghost d: Db)
      requires Valid() && i < |log.trace| && TaskRead(log.trace[i], t, expected)
      modifies this
      ensures Continues(old(log))
      ensures Landed2(quiet, old(Db()), g1, g2, d)
      ensures Did(status, ClaimTx(g1, g2, d, t, expected, worker, a, startDeadline, now))
    {
      hide Inv, Evolves, IsRun, Enabled, Perform;
      var seen, active;
      ghost var at1, at2;
      seen, active, g1, g2, at1, at2 := ReadOwnership(t);
      d := Db();
      if seen != Some(WorkflowState.Running) || active {
        status := PreconditionFailed;
      } else if !(t in tasks && tasks[t].state == TaskState.Runnable && tasks[t].revision == expected) {
        status := OccConflict;
      } else if InsertViolates(Db(), a, t, tasks[t].nextOrdinal) {
        status := IntegrityError;
      } else {
        var ordinal := tasks[t].nextOrdinal;
        tasks := tasks[t := tasks[t].(
          state := TaskState.Running, revision := tasks[t].revision + 1, nextOrdinal := ordinal + 1)];
        attempts := attempts[a := ClaimedRow(t, ordinal, worker, startDeadline)];
        Append(AttemptEntry(t, a, TaskClaimedByWorker(worker, ordinal), now));
        status := Committed;
      }
      RecordClaim(d, at1, at2, t, expected, worker, a, startDeadline, now, i);
      AdvancesTransitive(old(Db()), g1, g2);
      AdvancesTransitive(old(Db()), g2, d);
      AdvancesTransitive(old(Db()), d, Db());
    }

    /** A claim under an identifier that is taken is refused without effect, and is no step. */
    ghost method RecordClaim(
      d: Db, at1: nat, at2: nat, t: TaskId, expected: int, worker: SessionId, a: AttemptId, startDeadline: Time,
      now: Time, i: nat)
      requires log.trace != [] && IsRun(log.trace, log.steps) && Last(log.trace) == d && Inv(d)
      requires i < |log.trace| && at1 < |log.trace| && at2 < |log.trace| && TaskRead(log.trace[i], t, expected)
      requires Db() == ClaimTx(log.trace[at1], log.trace[at2], d, t, expected, worker, a, startDeadline, now).db
      modifies `log
      ensures Valid() && Leads(old(log), log) && Advances(d, Db())
    {
      hide Inv, Evolves, IsRun, Enabled, Perform, ClaimTx;
      if a in d.attempts {
        RunLength(log.trace, log.steps);
        TakenIdRefused(log.trace[at1], log.trace[at2], d, t, expected, worker, a, startDeadline, now);
        AdvancesReflexive(d);
      } else {
        ClaimActionIs(log.trace, t, expected, worker, a, startDeadline, i, at1, at2, now);
        Record(Claim(t, worker, a, startDeadline, i, at1, at2), now);
      }
    }

    /** The expected revision is the first. */
    method CommitWorkerExecutionStart(a: AttemptId, worker: SessionId, expected: int, now: Time)
      returns (status: CommitStatus)
      requires Valid() && expected == 1
      modifies this
      ensures Continues(old(log))
      ensures Did(status, StartTx(old(Db()), a, worker, expected, now))
    {
      hide Inv, Evolves, IsRun, Enabled, Perform;
      if a in attempts && attempts[a].worker == worker && attempts[a].state.Claimed?
         && now <= attempts[a].startDeadline && attempts[a].revision == expected {
        attempts := attempts[a := attempts[a].(
          state := AttemptState.Running, revision := attempts[a].revision + 1)];
        Append(AttemptEntry(attempts[a].task, a, AttemptExecutionStarted, now));
        status := Committed;
      } else if a in attempts && attempts[a].worker == worker && attempts[a].state == AttemptState.Running {
        status := Committed;
      } else {
        status := OccConflict;
      }
      StartIs(log.trace, a, worker, now);
      Record(Start(a, worker), now);
    }

    method SetCancellationDeadline(a: AttemptId, now: Time)
      returns (status: CommitStatus)
      requires Valid()
      modifies this
      ensures Continues(old(log))
      ensures Did(status, CancelDeadlineTx(old(Db()), a, now + CANCELLATION_GRACE))
    {
      hide Inv, Evolves, IsRun, Enabled, Perform;
      if a in attempts {
        attempts := attempts[a := attempts[a].(cancellationDeadline := Some(now + CANCELLATION_GRACE))];
      }
      CancelDeadlineIs(log.trace, a, now);
      Record(SetCancelDeadline(a), now);
      status := Committed;
    }

    // -------------------------------------------------------------------------------- settlement

    /** The statements of a worker's success, early returns included. */
    method WriteTaskSuccess(
      a: AttemptId, worker: SessionId, expectedAttempt: int, t: TaskId, expectedTask: int, output: PyValue, now: Time)
      returns (status: CommitStatus)
      modifies `attempts, `tasks, `history
      ensures Did(status, TaskSuccessTx(old(Db()), a, worker, expectedAttempt, t, expectedTask, output, now))
    {
      hide PyEqual;
      if !(a in attempts && attempts[a].worker == worker && attempts[a].task == t
           && attempts[a].state == AttemptState.Running && attempts[a].revision == expectedAttempt) {
        return
          if a in attempts && attempts[a].state == AttemptState.Succeeded
             && t in tasks && PyEqual(output, tasks[t].output.GetOr(PyNone)) then Committed
          else OccConflict;
      }
      attempts := attempts[a := FinishAttempt(attempts[a], AttemptState.Succeeded, None)];
      if !(t in tasks && tasks[t].state == TaskState.Running && tasks[t].revision == expectedTask) {
        return OccConflict;
      }
      tasks := tasks[t := tasks[t].(
        state := TaskState.Succeeded, output := Some(output), revision := tasks[t].revision + 1)];
      Append(AttemptEntry(t, a, TaskExecutionSucceeded, now));
      status := Committed;
    }

    /** The expected attempt and task revisions were read at indices i and j, in this order, here and below. */
    method CommitWorkerTaskSuccess(
      a: AttemptId, worker: SessionId, expectedAttempt: int, t: TaskId, expectedTask: int, output: PyValue, now: Time,
      ghost i: nat, ghost j: nat)
      returns (status: CommitStatus)
      requires Valid() && PairRead(log.trace, i, j, a, expectedAttempt, t, expectedTask)
      modifies this
      ensures Continues(old(log))
      ensures Did(status, TaskSuccessTx(old(Db()), a, worker, expectedAttempt, t, expectedTask, output, now))
    {
      hide PairRead, TaskSuccessTx;
      hide Inv, Evolves, IsRun, Enabled, Perform;
      status := WriteTaskSuccess(a, worker, expectedAttempt, t, expectedTask, output, now);
      TaskSuccessIs(log.trace, a, worker, expectedAttempt, t, expectedTask, output, i, j, now);
      Record(TaskSuccess(a, worker, t, output, i, j), now);
    }

    /** The retry was found eligible of the task as read at j and the workflow as read at e. */
    method CommitWorkerFailureWithRetry(
      a: AttemptId, worker: SessionId, expectedAttempt: int, t: TaskId, expectedTask: int, readyAt: Time,
      cause: FailureCause, now: Time, ghost i: nat, ghost j: nat, ghost e: nat)
      returns (status: CommitStatus, ghost g: Db, ghost d: Db)
      requires Valid() && PairRead(log.trace, i, j, a, expectedAttempt, t, expectedTask)
      requires EligibleAt(log.trace, t, j, e)
      modifies this
      ensures Continues(old(log))
      ensures Landed(quiet, old(Db()), g, d)
      ensures Did(status, FailureWithRetryTx(g, d, a, worker, expectedAttempt, t, expectedTask, readyAt, cause, now))
    {
      ghost var before := log;
      hide Inv, Evolves, IsRun, Enabled, Perform;
      var seen;
      ghost var at;
      seen, g, at := ReadState(t.workflow);
      d := Db();
      if seen != Some(WorkflowState.Running) {
        status := PreconditionFailed;
      } else if !(a in attempts && attempts[a].worker == worker && attempts[a].task == t && attempts[a].state.Active()
                  && attempts[a].revision == expectedAttempt) {
        status := OccConflict;
      } else {
        attempts := attempts[a := FinishAttempt(attempts[a], AttemptState.Failed, Some(cause))];
        if !(t in tasks && tasks[t].state == TaskState.Running && tasks[t].revision == expectedTask
             && tasks[t].nextOrdinal <= tasks[t].maxAttempts) {
          status := PreconditionFailed;
        } else {
          tasks := tasks[t := tasks[t].(
            state := TaskState.RetryWait, retryReadyAt := Some(readyAt), revision := tasks[t].revision + 1)];
          Append(AttemptEntry(t, a, TaskExecutionRetrying(readyAt, cause.code), now));
          status := Committed;
        }
      }
      FailureWithRetryIs(log.trace, a, worker, expectedAttempt, t, expectedTask, readyAt, cause, i, j, e, at, now);
      Record(FailureWithRetry(a, worker, t, readyAt, cause, i, j, e, at), now);
      AdvancesTransitive(old(Db()), g, d);
      AdvancesTransitive(old(Db()), d, Db());
    }

    method CommitWorkerDefinitiveFailure(
      a: AttemptId, worker: SessionId, expectedAttempt: int, t: TaskId, expectedTask: int, cause: FailureCause,
      now: Time, ghost i: nat, ghost j: nat)
      returns (status: CommitStatus)
      requires Valid() && PairRead(log.trace, i, j, a, expectedAttempt, t, expectedTask)
      modifies this
      ensures Continues(old(log))
      ensures Did(status, DefinitiveFailureTx(old(Db()), a, worker, expectedAttempt, t, expectedTask, cause, now))
    {
      hide PairRead;
      hide Inv, Evolves, IsRun, Enabled, Perform;
      if !(a in attempts && attempts[a].worker == worker && attempts[a].task == t && attempts[a].state.Active()
           && attempts[a].revision == expectedAttempt) {
        status := OccConflict;
      } else {
        attempts := attempts[a := FinishAttempt(attempts[a], AttemptState.Failed, Some(cause))];
        if !(t in tasks && tasks[t].state == TaskState.Running && tasks[t].revision == expectedTask) {
          status := OccConflict;
        } else {
          tasks := tasks[t := tasks[t].(
            state := TaskState.Failed, failure := Some(cause), revision := tasks[t].revision + 1)];
          Append(AttemptEntry(t, a, TaskExecutionFailed(cause.category, cause.code), now));
          status := Committed;
        }
      }
      DefinitiveFailureIs(log.trace, a, worker, expectedAttempt, t, expectedTask, cause, i, j, now);
      Record(DefinitiveFailure(a, worker, t, cause, i, j), now);
    }

    method CommitWorkerCancellationAck(
      a: AttemptId, worker: SessionId, expectedAttempt: int, t: TaskId, expectedTask: int, now: Time,
      ghost i: nat, ghost j: nat)
      returns (status: CommitStatus, ghost g1: Db, ghost g2: Db, ghost d: Db)
      requires Valid() && PairRead(log.trace, i, j, a, expectedAttempt, t, expectedTask)
      modifies this
      ensures Continues(old(log))
      ensures Landed2(quiet, old(Db()), g1, g2, d)
      ensures Did(status, CancellationAckTx(g1, g2, d, a, worker, expectedAttempt, t, expectedTask, now))
    {
      hide Inv, Evolves, IsRun, Enabled, Perform;
      var known, seen;
      ghost var at1, at2;
      known, seen, g1, g2, at1, at2 := ReadTaskWorkflow(t);
      d := Db();
      if !known || !(seen.Some? && seen.value.Draining()) {
        status := PreconditionFailed;
      } else if !(a in attempts && attempts[a].worker == worker && attempts[a].task == t && attempts[a].state.Active()
                  && attempts[a].revision == expectedAttempt) {
        status := OccConflict;
      } else {
        attempts := attempts[a := FinishAttempt(attempts[a], AttemptState.Cancelled, None)];
        if !(t in tasks && tasks[t].state == TaskState.Running && tasks[t].revision == expectedTask) {
          status := OccConflict;
        } else {
          tasks := tasks[t := tasks[t].(state := TaskState.Cancelled, revision := tasks[t].revision + 1)];
          Append(AttemptEntry(t, a, AttemptCancellationAcknowledged(worker), now));
          status := Committed;
        }
      }
      CancellationAckIs(log.trace, a, worker, expectedAttempt, t, expectedTask, i, j, at1, at2, now);
      Record(CancellationAck(a, worker, t, i, j, at1, at2), now);
      AdvancesTransitive(old(Db()), g1, g2);
      AdvancesTransitive(old(Db()), g2, d);
      AdvancesTransitive(old(Db()), d, Db());
    }

    method CommitInternalCancellationDeadline(
      a: AttemptId, expectedAttempt: int, t: TaskId, expectedTask: int, now: Time, ghost i: nat, ghost j: nat)
      returns (status: CommitStatus, ghost g1: Db, ghost g2: Db, ghost d: Db)
      requires Valid() && PairRead(log.trace, i, j, a, expectedAttempt, t, expectedTask)
      modifies this
      ensures Continues(old(log))
      ensures Landed2(quiet, old(Db()), g1, g2, d)
      ensures Did(status, CancellationDeadlineTx(g1, g2, d, a, expectedAttempt, t, expectedTask, now))
    {
      hide Inv, Evolves, IsRun, Enabled, Perform;
      var known, seen;
      ghost var at1, at2;
      known, seen, g1, g2, at1, at2 := ReadTaskWorkflow(t);
      d := Db();
      if !known || !(seen.Some? && seen.value.Draining()) {
        status := PreconditionFailed;
      } else if !(a in attempts && attempts[a].task == t && attempts[a].state.Active()
                  && attempts[a].revision == expectedAttempt
                  && attempts[a].cancellationDeadline.Some? && attempts[a].cancellationDeadline.value <= now) {
        status := OccConflict;
      } else {
        attempts := attempts[a := FinishAttempt(attempts[a], AttemptState.Cancelled, None)];
        if !(t in tasks && tasks[t].state == TaskState.Running && tasks[t].revision == expectedTask) {
          status := OccConflict;
        } else {
          tasks := tasks[t := tasks[t].(state := TaskState.Cancelled, revision := tasks[t].revision + 1)];
          Append(AttemptEntry(t, a, AttemptCancellationDeadlineExpired(now), now));
          status := Committed;
        }
      }
      CancellationDeadlineIs(log.trace, a, expectedAttempt, t, expectedTask, i, j, at1, at2, now);
      Record(CancellationDeadline(a, t, i, j, at1, at2), now);
      AdvancesTransitive(old(Db()), g1, g2);
      AdvancesTransitive(old(Db()), g2, d);
      AdvancesTransitive(old(Db()), d, Db());
    }

    /** UPDATE task_executions to RETRY_WAIT, within budget; did a row match? */
    method UpdateRetrying(t: TaskId, expected: int, readyAt: Time) returns (matched: bool)
      modifies `tasks
      ensures matched == RetryingTask(old(Db()), t, expected, readyAt).Some?
      ensures tasks == if matched then old(tasks)[t := RetryingTask(old(Db()), t, expected, readyAt).value]
                       else old(tasks)
    {
      matched := t in tasks && tasks[t].state == TaskState.Running && tasks[t].revision == expected
        && tasks[t].nextOrdinal <= tasks[t].maxAttempts;
      if matched {
        tasks := tasks[t := tasks[t].(
          state := TaskState.RetryWait, retryReadyAt := Some(readyAt), revision := tasks[t].revision + 1)];
      }
    }

    method UpdateFailed(t: TaskId, expected: int, cause: FailureCause) returns (matched: bool)
      modifies `tasks
      ensures matched == FailedTask(old(Db()), t, expected, cause).Some?
      ensures tasks == if matched then old(tasks)[t := FailedTask(old(Db()), t, expected, cause).value]
                       else old(tasks)
    {
      matched := t in tasks && tasks[t].state == TaskState.Running && tasks[t].revision == expected;
      if matched {
        tasks := tasks[t := tasks[t].(
          state := TaskState.Failed, failure := Some(cause), revision := tasks[t].revision + 1)];
      }
    }

    /** The writes of an internal failure, once its attempt filters match. */
    method SettleInternally(a: AttemptId, t: TaskId, expectedTask: int, cause: FailureCause, mayRetry: bool,
                            readyAt: Option<Time>, now: Time)
      returns (status: CommitStatus)
      requires a in attempts
      modifies `attempts, `tasks, `history
      ensures
        var db := old(Db());
        var retry := if mayRetry && readyAt.Some? then RetryingTask(db, t, expectedTask, readyAt.value) else None;
        var task := if retry.Some? then retry else FailedTask(db, t, expectedTask, cause);
        TxResult(status, Db()) ==
          SettlePair(db, a, FinishAttempt(db.attempts[a], AttemptState.Failed, Some(cause)), t, task, OccConflict,
                     InternalAttemptFailureSettled(
                       cause.code, if task.Some? then task.value.state else TaskState.Failed), now)
      ensures status == Committed ==> t in tasks
    {
      attempts := attempts[a := FinishAttempt(attempts[a], AttemptState.Failed, Some(cause))];
      var canRetry := mayRetry && readyAt.Some?;
      if canRetry {
        canRetry := UpdateRetrying(t, expectedTask, readyAt.value);
      }
      if !canRetry {
        var failed := UpdateFailed(t, expectedTask, cause);
        if !failed { return OccConflict; }
      }
      Append(AttemptEntry(t, a, InternalAttemptFailureSettled(cause.code, tasks[t].state), now));
      status := Committed;
    }

    /** The task retries when the workflow was read RUNNING, the failure is retryable and budget remains; else it fails.
        The cause code is one of the engine's three. */
    method CommitInternalAttemptFailure(
      a: AttemptId, expectedAttempt: int, t: TaskId, expectedTask: int, cause: FailureCause, retryable: bool,
      readyAt: Option<Time>, lost: Option<SessionId>, now: Time, ghost i: nat, ghost j: nat)
      returns (status: CommitStatus, newState: TaskState, ghost g1: Db, ghost g2: Db, ghost d: Db)
      requires Valid() && PairRead(log.trace, i, j, a, expectedAttempt, t, expectedTask) && KnownCode(cause.code)
      modifies this
      ensures Continues(old(log))
      ensures Landed2(quiet, old(Db()), g1, g2, d)
      ensures Did(status, InternalFailureTx(
                g1, g2, d, a, expectedAttempt, t, expectedTask, cause, retryable, readyAt, lost, now))
      ensures status == Committed ==> t in tasks && newState == tasks[t].state
    {
      hide KnownCode, FailureFilter;
      newState := TaskState.Failed;
      hide Inv, Evolves, IsRun, Enabled, Perform;
      var known, seen;
      ghost var at1, at2;
      known, seen, g1, g2, at1, at2 := ReadTaskWorkflow(t);
      d := Db();
      if !known {
        status := PreconditionFailed;
      } else if !(a in attempts && attempts[a].task == t && attempts[a].revision == expectedAttempt
                  && FailureFilter(attempts[a], cause.code, lost, now)) {
        status := OccConflict;
      } else {
        status := SettleInternally(
          a, t, expectedTask, cause, seen == Some(WorkflowState.Running) && retryable, readyAt, now);
        if status == Committed { newState := tasks[t].state; }
      }
      InternalFailureIs(
        log.trace, a, expectedAttempt, t, expectedTask, cause, retryable, readyAt, lost, i, j, at1, at2, now);
      Record(InternalFailure(a, t, cause, retryable, readyAt, lost, i, j, at1, at2), now);
      AdvancesTransitive(old(Db()), g1, g2);
      AdvancesTransitive(old(Db()), g2, d);
      AdvancesTransitive(old(Db()), d, Db());
    }
  }

  lemma CreatedReads(
    db: Db, w: WorkflowId, d: DefinitionId, tasks: map<string, TaskDefinition>, input: PyValue, now: Time)
    requires d in db.definitions && db.definitions[d].tasks == tasks
    ensures var r := CreateTx(db, w, d, input, now); r.status == Committed ==> TasksRead(r.db, w, tasks)
  {
  }

  // ---------------------------------------------------------------------------------- reading the log

  lemma GoesOn(store: Store, l0: Log, l1: Log)
    requires Leads(l0, l1) && store.Continues(l1)
    ensures store.Continues(l0)
  {
    hide Inv, Evolves, IsRun;
    LeadsTransitive(l0, l1, store.log);
    Since(store, |l0.trace| - 1, Last(l0.trace));
  }

  /** Nothing has happened since. */
  lemma StandsStill(store: Store)
    requires store.Valid()
    ensures store.Continues(store.log)
  {
    AdvancesReflexive(store.Db());
  }

  /** What was read anywhere in the run was sound, and the present database evolved from it. */
  lemma Since(store: Store, i: nat, s: Db)
    requires store.Valid() && ReadAt(store.log, i, s)
    ensures Inv(s) && Advances(s, store.Db())
  {
    hide Inv, Evolves, IsRun;
    RunsAreSound(store.log.trace, store.log.steps);
  }

  /** Of two reads of the run the later one evolved from the earlier. */
  lemma Between(store: Store, i: nat, s: Db, j: nat, s': Db)
    requires store.Valid() && i <= j && ReadAt(store.log, i, s) && ReadAt(store.log, j, s')
    ensures Inv(s) && Advances(s, s')
  {
    hide Inv, Evolves, IsRun;
    RunsAreSound(store.log.trace, store.log.steps);
  }
}
