/**
  The public endpoints (interfaces/http/routes/definitions.py and executions.py): registering a definition,
  starting an execution of one, and cancelling an execution.
  */
module Executions {
  import opened Wrappers
  import opened JsonCompat
  import opened Graph
  import opened Spec
  import opened GraphBuilder
  import opened Normalizer
  import opened Validator
  import opened Codec
  import opened Rows
  import opened Transactions
  import opened Invariant
  import opened Preservation
  import opened Protocol
  import opened Steps
  import opened Quiescence
  import opened Store
  import opened Registry
  import opened Promotion
  import opened Drain
  import opened Scheduler

  // ------------------------------------------------------------------------------------- registration

  datatype RegisterReply = Registered | Malformed | Invalid(errors: seq<ValidationError>) | Refused

  /** What registration makes of a document. */
  function SpecOf(dto: WorkflowDto): ValidatedWorkflowSpec {
    ValidatedWorkflowSpec(dto.name, map k | k in dto.tasks :: TaskOf(k, dto.tasks[k]), dto.outputBindings)
  }

  /** The specification says what the document says, field by field. */
  ghost predicate Carries(spec: ValidatedWorkflowSpec, dto: WorkflowDto) {
    && spec.name == dto.name && spec.outputBindings == dto.outputBindings && spec.tasks.Keys == dto.tasks.Keys
    && forall k | k in dto.tasks :: CarriesTask(spec.tasks[k], k, dto.tasks[k])
  }

  ghost predicate CarriesTask(t: TaskDefinition, id: string, dto: TaskDto) {
    && t.id == id && t.activityType == dto.activityType && t.maxAttempts == dto.maxAttempts
    && (forall d :: d in t.dependencies <==> d in dto.dependencies)
    && t.inputBindings.Keys == dto.inputBindings.Keys
    && forall p | p in dto.inputBindings ::
         match dto.inputBindings[p]
         case LiteralBindingDto(v) => t.inputBindings[p].LiteralBinding? && PyEqual(t.inputBindings[p].value, v)
         case WorkflowInputBindingDto => t.inputBindings[p] == WorkflowInputBinding
         case TaskOutputBindingDto(u) => t.inputBindings[p] == TaskOutputBinding(u)
  }

  /** An acceptable document is carried over whole; literals are frozen, which leaves them equal to what was written. */
  lemma AcceptedIsCarried(dto: WorkflowDto)
    requires Admissible(dto)
    ensures Carries(SpecOf(dto), dto)
  {
    hide PyEqual;
    forall k | k in dto.tasks ensures CarriesTask(SpecOf(dto).tasks[k], k, dto.tasks[k]) {
      assert AdmissibleTask(k, dto.tasks[k]);
      forall p | p in dto.tasks[k].inputBindings && dto.tasks[k].inputBindings[p].LiteralBindingDto?
        ensures PyEqual(Frozen(dto.tasks[k].inputBindings[p].value), dto.tasks[k].inputBindings[p].value)
      {
        FreezingKeepsValue(dto.tasks[k].inputBindings[p].value);
      }
    }
  }

  /** ADR-004 as a condition on the document. */
  ghost predicate Acceptable(dto: WorkflowDto, limit: int) {
    && Admissible(dto)
    && dto.tasks != map[]
    && (forall k | k in dto.tasks ::
          TaskConforms(dto.tasks.Keys, limit, TaskOf(k, dto.tasks[k]), dto.tasks[k].dependencies))
    && (forall o | o in dto.outputBindings :: dto.outputBindings[o] in dto.tasks)
    && Acyclic(DependencyMap(SpecOf(dto).tasks))
  }

  /** The candidate carries the document's tasks and nothing else. */
  lemma CandidateTask(c: CandidateWorkflowSpec, dto: WorkflowDto, t: TaskDefinition)
    requires Describes(c, dto) && t in c.tasks
    ensures t.id in dto.tasks && t == TaskOf(t.id, dto.tasks[t.id]) && RawOf(c, t.id) == dto.tasks[t.id].dependencies
  {
    hide TaskOf;
  }

  lemma CandidateHas(c: CandidateWorkflowSpec, dto: WorkflowDto, k: string)
    requires Describes(c, dto) && k in dto.tasks
    ensures TaskOf(k, dto.tasks[k]) in c.tasks && k in Ids(c.tasks)
  {
    hide TaskOf;
    var i :| 0 <= i < |c.tasks| && c.tasks[i].id == k;
    assert c.tasks[i] in c.tasks;
  }

  lemma CandidateSpec(c: CandidateWorkflowSpec, dto: WorkflowDto)
    requires Describes(c, dto)
    ensures ValidatedWorkflowSpec(c.name, TaskMap(c.tasks), c.outputBindings) == SpecOf(dto)
    ensures Ids(c.tasks) == dto.tasks.Keys && (c.tasks == [] <==> dto.tasks == map[])
  {
    hide TaskOf, RawOf, Lists;
    TaskMapKeys(c.tasks);
    forall k | k in dto.tasks ensures k in Ids(c.tasks) { CandidateHas(c, dto, k); }
    forall k | k in Ids(c.tasks)
      ensures k in dto.tasks && TaskMap(c.tasks)[k] == TaskOf(k, dto.tasks[k])
    {
      CandidateTask(c, dto, TaskMap(c.tasks)[k]);
    }
    if c.tasks != [] { CandidateTask(c, dto, c.tasks[0]); }
    assert dto.tasks.Keys == {} <==> dto.tasks == map[];
  }

  lemma ConformsByDocument(c: CandidateWorkflowSpec, dto: WorkflowDto, limit: int)
    requires Admissible(dto) && Describes(c, dto)
    ensures Acceptable(dto, limit) <==> Conforms(c, limit) && Acyclic(DependencyMap(TaskMap(c.tasks)))
  {
    hide Acyclic, TaskConforms, TaskOf, Admissible, Describes, RawOf, TaskMap, Ids;
    CandidateSpec(c, dto);
    forall t | t in c.tasks
      ensures t.id in dto.tasks && t == TaskOf(t.id, dto.tasks[t.id]) && RawOf(c, t.id) == dto.tasks[t.id].dependencies
    {
      CandidateTask(c, dto, t);
    }
    if Conforms(c, limit) {
      forall k | k in dto.tasks
        ensures TaskConforms(dto.tasks.Keys, limit, TaskOf(k, dto.tasks[k]), dto.tasks[k].dependencies)
      {
        CandidateHas(c, dto, k);
        TaskName(k, dto.tasks[k]);
      }
    }
  }

  lemma TaskName(k: string, task: TaskDto)
    ensures TaskOf(k, task).id == k
  {
  }

  /** A definition nobody runs yet disturbs no workflow. */
  lemma RegisterRests(db: Db, d: DefinitionId, spec: ValidatedWorkflowSpec)
    requires Inv(db) && AllQuiescent(db)
    ensures AllQuiescent(RegisterTx(db, d, spec).db)
  {
    hide TaskOk, AttemptOk, LedgerOk, WorkflowOk, Quiescent;
    var db' := RegisterTx(db, d, spec).db;
    forall w | w in db'.workflows ensures Quiescent(db', w) {
      WorkflowTasksDeclared(db, w);
      WorkflowDefined(db, w);
      QuiescentKept(db, db', w);
    }
  }

  /** Registration is exact: a document is stored, as it was written, exactly when it meets ADR-004 and its name is
      not blank. The blank name is refused by the table only, as an error nobody handles (Refused). */
  method RegisterDefinition(store: Store, d: DefinitionId, dto: WorkflowDto, limit: int, cap: int, now: Time)
    returns (reply: RegisterReply)
    requires store.Valid()
    modifies store
    ensures store.Continues(old(store.log))
    ensures store.quiet && AllQuiescent(old(store.Db())) ==> AllQuiescent(store.Db())
    ensures reply.Registered? || reply.Refused? <==> Acceptable(dto, limit)
    ensures reply.Registered? ==>
      d in store.definitions && store.definitions[d] == SpecOf(dto) && Carries(store.definitions[d], dto)
    ensures reply.Malformed? <==> !Admissible(dto)
    ensures store.quiet && d !in old(store.definitions) ==>
              (reply.Registered? <==>
                 Acceptable(dto, limit) && exists i :: 0 <= i < |dto.name| && dto.name[i] != ' ')
  {
    hide Inv, Evolves, IsRun, Leads, AllQuiescent, Acceptable, Acyclic, Conforms, Mirrors, Justified, Stuck, Normalised,
         Describes, Admissible, SpecOf, TaskMap, ValidSpec, Carries;
    ghost var log, db := store.log, store.Db();
    StandsStill(store);
    var candidate := NormalizeWorkflowDto(dto);
    if candidate.None? {
      assert !Acceptable(dto, limit) by { Inadmissible(dto, limit); }
      return Malformed;
    }
    var outcome := Validate(candidate.value, limit, cap);
    NormalisationNormalises(candidate.value, dto);
    ConformsByDocument(candidate.value, dto, limit);
    assert !outcome.Raised?;
    if !outcome.Success? {
      return Invalid(if outcome.Errors? then outcome.errors else []);
    }
    AcceptedIsValid(candidate.value, limit);
    CandidateSpec(candidate.value, dto);
    SpecName(dto);
    AcceptedIsCarried(dto);
    store.Others();
    ghost var l := store.log;
    var status := store.CommitRegisteredDefinition(d, outcome.spec, now);
    GoesOn(store, log, l);
    if store.quiet && AllQuiescent(db) { RegisterRests(db, d, outcome.spec); }
    reply := if status == Committed then Registered else Refused;
  }

  lemma SpecName(dto: WorkflowDto)
    ensures SpecOf(dto).name == dto.name
  {
  }

  /** Such a document exists: nothing before the table refuses a blank name, and its refusal by the table is all that
      registration can then answer. */
  lemma BlankNamePassesValidation(db: Db, d: DefinitionId) returns (dto: WorkflowDto)
    ensures Acceptable(dto, 1) && Blank(dto.name)
    ensures RegisterTx(db, d, SpecOf(dto)) == TxResult(IntegrityError, db)
  {
    dto := WorkflowDto(" ", map["only" := TaskDto("work", [], map[], 1)], map[]);
    var deps := DependencyMap(SpecOf(dto).tasks);
    forall path ensures !IsCycle(deps, path) {
      assert 2 <= |path| && path[0] in deps ==> path[0 + 1] !in deps[path[0]];
    }
    assert "only" in dto.tasks;
  }

  lemma Inadmissible(dto: WorkflowDto, limit: int)
    requires !Admissible(dto)
    ensures !Acceptable(dto, limit)
  {
  }

  /** What was registered is read back unchanged. */
  lemma RegisteredIsReadBack(dto: WorkflowDto, limit: int)
    requires Acceptable(dto, limit) && !Blank(dto.name)
    ensures Decode(Encode(SpecOf(dto))) == Some(SpecOf(dto))
  {
    hide Acyclic, Encode, Decode, ValidId, TaskConforms, WellFormedTask, Storable, Acceptable;
    DocumentIsStorable(dto, limit);
    RoundTrip(SpecOf(dto));
  }

  lemma DocumentTask(dto: WorkflowDto, limit: int, k: string)
    requires Acceptable(dto, limit) && k in dto.tasks
    ensures var t := TaskOf(k, dto.tasks[k]);
      && WellFormedTask(SpecOf(dto).tasks, k) && ValidId(k) && ValidId(t.activityType)
      && forall p | p in t.inputBindings :: StorableBinding(t.inputBindings[p])
  {
    hide Acyclic, ValidId;
    var t := TaskOf(k, dto.tasks[k]);
    assert AdmissibleTask(k, dto.tasks[k]);
    assert TaskConforms(dto.tasks.Keys, limit, t, dto.tasks[k].dependencies);
    forall p | p in t.inputBindings ensures StorableBinding(t.inputBindings[p]) {
      var b := dto.tasks[k].inputBindings[p];
      assert AdmissibleBinding(b);
      if b.LiteralBindingDto? {
        FreezingFreezes(b.value);
        FreezingKeepsCompatibility(b.value);
      }
    }
  }

  lemma DocumentIsStorable(dto: WorkflowDto, limit: int)
    requires Acceptable(dto, limit) && dto.name != ""
    ensures Storable(SpecOf(dto))
  {
    hide Acyclic, ValidId, TaskConforms, WellFormedTask, StorableBinding, TaskOf, Admissible;
    forall k | k in dto.tasks
      ensures WellFormedTask(SpecOf(dto).tasks, k) && ValidId(k) && ValidId(SpecOf(dto).tasks[k].activityType)
      ensures forall p | p in SpecOf(dto).tasks[k].inputBindings ::
                StorableBinding(SpecOf(dto).tasks[k].inputBindings[p])
    {
      DocumentTask(dto, limit, k);
    }
    assert SpecOf(dto).tasks.Keys == dto.tasks.Keys;
  }

  // ----------------------------------------------------------------------------------------- starting

  datatype StartReply = Started | DefinitionNotFound | CorruptDefinition | InvalidInput | IdInUse | InitializationFailed

  /** The three initialisation transactions, one after the other and undisturbed. */
  ghost predicate Initialised(
    db0: Db, db1: Db, db2: Db, db3: Db, w: WorkflowId, d: DefinitionId, input: PyValue, now: Time)
  {
    && d in db0.definitions
    && CreateTx(db0, w, d, input, now) == TxResult(Committed, db1)
    && PopulateTx(db1, db1, w, db0.definitions[d].tasks, now) == TxResult(Committed, db2)
    && InitializationCompleteTx(db2, db2, db2, w, 1, now) == TxResult(Committed, db3)
  }

  lemma CreatedRows(db: Db, w: WorkflowId, d: DefinitionId, input: PyValue, now: Time)
    requires w !in db.workflows && d in db.definitions
    requires forall t | t in db.tasks :: Declared(db, t)
    ensures var r := CreateTx(db, w, d, input, now);
      && r.status == Committed && r.db.definitions == db.definitions && r.db.tasks == db.tasks
      && NoTasks(r.db, w) && r.db.attempts == db.attempts
      && w in r.db.workflows && r.db.workflows[w].state.Initializing? && r.db.workflows[w].revision == 1
      && r.db.workflows[w].definition == d && r.db.workflows[w].input == input
      && (forall x | x in db.workflows :: x in r.db.workflows && r.db.workflows[x] == db.workflows[x])
      && r.db.workflows.Keys == db.workflows.Keys + {w}
  {
    forall t | t in db.tasks ensures t.workflow != w {
      assert Declared(db, t);
    }
  }

  lemma PopulatedRows(db: Db, w: WorkflowId, now: Time)
    requires w in db.workflows && db.workflows[w].state.Initializing? && NoTasks(db, w)
    requires db.workflows[w].definition in db.definitions
    ensures var tasks := db.definitions[db.workflows[w].definition].tasks;
      var r := PopulateTx(db, db, w, tasks, now);
      && r.status == Committed && r.db.definitions == db.definitions && r.db.workflows == db.workflows
      && r.db.attempts == db.attempts
      && (forall t: TaskId | t.workflow != w ::
            (t in db.tasks <==> t in r.db.tasks) && (t in db.tasks ==> r.db.tasks[t] == db.tasks[t]))
      && (forall t | t in r.db.tasks && t.workflow == w :: t.definition in tasks && r.db.tasks[t].state.Pending?)
      && (forall k | k in tasks :: TaskId(w, k) in r.db.tasks)
  {
    var tasks := db.definitions[db.workflows[w].definition].tasks;
    forall k | k in tasks ensures TaskId(w, k) in PendingRows(w, tasks) {
      assert TaskId(w, k) in PendingRows(w, tasks);
    }
  }

  lemma CompletedRows(db: Db, w: WorkflowId, now: Time)
    requires w in db.workflows && db.workflows[w].state.Initializing? && db.workflows[w].revision == 1
    requires db.workflows[w].definition in db.definitions
    requires var tasks := db.definitions[db.workflows[w].definition].tasks;
      && (forall t | t in db.tasks && t.workflow == w :: t.definition in tasks && db.tasks[t].state.Pending?)
      && (forall k | k in tasks :: TaskId(w, k) in db.tasks)
    ensures var r := InitializationCompleteTx(db, db, db, w, 1, now);
      && r.status == Committed && OnlyWorkflowMoved(db, r.db, w)
      && w in r.db.workflows && r.db.workflows[w].state == WorkflowState.Running
      && r.db.workflows[w].definition == db.workflows[w].definition && r.db.workflows[w].input == db.workflows[w].input
  {
    var tasks := db.definitions[db.workflows[w].definition].tasks;
    forall k | k in tasks ensures k in TaskNames(db, w, AnyTaskState) {
      assert TaskId(w, k) in db.tasks && db.tasks[TaskId(w, k)].state.Pending?;
    }
    assert tasks.Keys == TaskNames(db, w, AnyTaskState);
    MembershipTouches(db, w, 1, WorkflowState.Initializing, AnyTaskState, WorkflowState.Running, None,
                      WorkflowExecutionStarted, now);
  }

  /** Undisturbed, the three transactions commit, and leave a RUNNING workflow of PENDING tasks. */
  lemma InitialisationSucceeds(db0: Db, w: WorkflowId, d: DefinitionId, input: PyValue, now: Time)
    returns (db1: Db, db2: Db, db3: Db)
    requires Inv(db0) && w !in db0.workflows && d in db0.definitions
    ensures Initialised(db0, db1, db2, db3, w, d, input, now)
    ensures forall x | x in db0.workflows :: Untouched(db0, db3, x)
    ensures db3.workflows.Keys == db0.workflows.Keys + {w} && db3.attempts == db0.attempts
    ensures w in db3.workflows && db3.workflows[w].state == WorkflowState.Running
    ensures db3.workflows[w].definition == d && d in db3.definitions && db3.workflows[w].input == input
    ensures !SomeTaskFailed(db3, w)
  {
    hide TaskOk, LedgerOk, AttemptOk, WorkflowOk, PopulateTx, CreateTx, InitializationCompleteTx, Untouched;
    forall t | t in db0.tasks ensures Declared(db0, t) { TaskDeclared(db0, t); }
    db1, db2, db3 := InitialisationRuns(db0, w, d, input, now);
    forall x | x in db0.workflows ensures Untouched(db0, db3, x) {
      WorkflowDefined(db0, x);
      OthersKept(db0, db3, w, x);
    }
  }

  /** The newcomer w apart, nothing changed. */
  ghost predicate OnlyAdds(db: Db, db': Db, w: WorkflowId) {
    && db'.definitions == db.definitions && db'.workflows.Keys == db.workflows.Keys + {w}
    && db'.attempts == db.attempts
    && (forall x | x in db.workflows :: x in db'.workflows && db'.workflows[x] == db.workflows[x])
    && forall t: TaskId | t.workflow != w ::
         (t in db.tasks <==> t in db'.tasks) && (t in db.tasks ==> db'.tasks[t] == db.tasks[t])
  }

  lemma OthersKept(db: Db, db': Db, w: WorkflowId, x: WorkflowId)
    requires OnlyAdds(db, db', w) && w !in db.workflows
    requires x in db.workflows && db.workflows[x].definition in db.definitions
    ensures Untouched(db, db', x)
  {
  }

  lemma InitialisationRuns(db0: Db, w: WorkflowId, d: DefinitionId, input: PyValue, now: Time)
    returns (db1: Db, db2: Db, db3: Db)
    requires w !in db0.workflows && d in db0.definitions && forall t | t in db0.tasks :: Declared(db0, t)
    ensures Initialised(db0, db1, db2, db3, w, d, input, now) && OnlyAdds(db0, db3, w)
    ensures w in db3.workflows && db3.workflows[w].state == WorkflowState.Running
    ensures db3.workflows[w].definition == d && d in db3.definitions && db3.workflows[w].input == input
    ensures !SomeTaskFailed(db3, w)
  {
    hide PopulateTx, CreateTx, InitializationCompleteTx, Declared;
    CreatedRows(db0, w, d, input, now);
    db1 := CreateTx(db0, w, d, input, now).db;
    PopulatedRows(db1, w, now);
    db2 := PopulateTx(db1, db1, w, db0.definitions[d].tasks, now).db;
    CompletedRows(db2, w, now);
    db3 := InitializationCompleteTx(db2, db2, db2, w, 1, now).db;
  }

  lemma StartRests(
    db0: Db, db3: Db, db': Db, registry: WorkerRegistry, startDeadline: Time, w: WorkflowId, now: Time)
    requires AllQuiescent(db0) && w !in db0.workflows && db3.workflows.Keys == db0.workflows.Keys + {w}
    requires forall x | x in db0.workflows :: Untouched(db0, db3, x)
    requires w in db3.workflows && db3.workflows[w].state == WorkflowState.Running && !SomeTaskFailed(db3, w)
    requires Advanced(db3, db', registry, startDeadline, w, now)
    ensures AllQuiescent(db')
  {
    hide Quiescent, Untouched, Served, HandedOut;
    forall x | x in db'.workflows ensures Quiescent(db', x) {
      if x != w {
        QuiescentKept(db0, db3, x);
        UntouchedBy(db3, db', w, x);
        QuiescentKept(db3, db', x);
      }
    }
  }

  /** Creates, populates and starts an execution in one transaction, and advances it. Whatever others do, the
      initialisation fails for no reason but an identifier in use, and what was started has its tasks; on a quiet
      store a start succeeds exactly when the definition exists, the input is JSON and the identifier is new. */
  method StartExecution(
    store: Store, registry: WorkerRegistry, startDeadline: Time, d: DefinitionId, w: WorkflowId, input: PyValue,
    now: Time)
    returns (reply: StartReply)
    requires store.Valid()
    modifies store
    ensures store.Continues(old(store.log))
    ensures !reply.CorruptDefinition? && !reply.InitializationFailed?
    ensures reply.Started? ==>
      HasItsTasks(store.Db(), w) && store.workflows[w].definition == d && store.workflows[w].input == Frozen(input)
    ensures store.quiet && reply.Started? ==> w in store.workflows && Served(store.Db(), registry, w, now)
    ensures store.quiet ==> NewcomersGiven(old(store.Db()), store.Db(), registry, now + startDeadline, now)
    ensures store.quiet && AllQuiescent(old(store.Db())) ==> AllQuiescent(store.Db())
    ensures store.quiet ==>
      && (reply.Started? <==>
            d in old(store.definitions) && Compatible(input) && w !in old(store.workflows))
      && (!reply.Started? ==> store.Db() == old(store.Db()))
  {
    hide Inv, Evolves, IsRun, Leads, AllQuiescent, HasItsTasks, StartExecutionTx, Served, NewcomersGiven;
    ghost var log, db := store.log, store.Db();
    StandsStill(store);
    NoNewcomers(db, db, registry, now + startDeadline, now);
    if d !in store.definitions {
      return DefinitionNotFound;
    }
    var spec := store.definitions[d];
    NamedDefinition(store.Db(), d);
    if spec.name == "" {
      assert false;
      return CorruptDefinition;
    }
    var frozen := FreezeJson(input);
    if !frozen.Json? {
      return InvalidInput;
    }
    store.Others();
    ghost var l, begun := store.log, store.Db();
    DefinitionKept(db, begun, d);
    var status := store.CommitStartedExecution(w, d, spec.tasks, frozen.value, now);
    GoesOn(store, log, l);
    StartDecides(begun, w, d, frozen.value, now);
    if status != Committed {
      assert w in begun.workflows;
      return IdInUse;
    }
    l := store.log;
    store.Others();
    GoesOn(store, log, l);
    AfterStart(store, registry, startDeadline, begun, w, d, frozen.value, now, log, l);
    reply := Started;
  }

  lemma NamedDefinition(db: Db, d: DefinitionId)
    requires Inv(db) && d in db.definitions
    ensures db.definitions[d].name != ""
  {
    hide TaskOk, WorkflowOk, AttemptOk, LedgerOk;
  }

  /** In a sound database the start of an execution commits exactly when its identifier is new, and then leaves what
      the three transactions, undisturbed, leave; otherwise it changes nothing. */
  lemma StartDecides(db: Db, w: WorkflowId, d: DefinitionId, input: PyValue, now: Time)
    requires Inv(db) && d in db.definitions
    ensures var r := StartExecutionTx(db, w, d, db.definitions[d].tasks, input, now);
      && (r.status == Committed <==> w !in db.workflows)
      && (r.status != Committed ==> r.db == db)
      && (r.status == Committed ==> StartedFrom(db, r.db, w, d, input))
  {
    hide Inv, PopulateTx, InitializationCompleteTx, Untouched;
    if w !in db.workflows {
      var db1, db2, db3 := InitialisationSucceeds(db, w, d, input, now);
    }
  }

  lemma DefinitionKept(s: Db, db: Db, d: DefinitionId)
    requires Evolves(s, db) && d in s.definitions
    ensures d in db.definitions && db.definitions[d] == s.definitions[d]
  {
  }

  /** A RUNNING workflow w of definition d was added, and nothing else changed. */
  ghost predicate StartedFrom(db: Db, db': Db, w: WorkflowId, d: DefinitionId, input: PyValue) {
    && w !in db.workflows && db'.workflows.Keys == db.workflows.Keys + {w}
    && (forall x | x in db.workflows :: Untouched(db, db', x))
    && w in db'.workflows && db'.workflows[w].state == WorkflowState.Running && !SomeTaskFailed(db', w)
    && db'.workflows[w].definition == d && db'.workflows[w].input == input
    && db'.attempts == db.attempts
  }

  /** The first advance, after the initialisation that ended with log l. */
  method AfterStart(
    store: Store, registry: WorkerRegistry, startDeadline: Time, ghost begun: Db, w: WorkflowId, ghost d: DefinitionId,
    ghost input: PyValue, now: Time, ghost log: Log, ghost l: Log)
    requires store.Continues(log) && store.Continues(l) && Inv(Last(l.trace))
    requires StartedFrom(begun, Last(l.trace), w, d, input)
    modifies store
    ensures store.Continues(log)
    ensures HasItsTasks(store.Db(), w) && store.workflows[w].input == input && store.workflows[w].definition == d
    ensures store.quiet && old(store.log) == l ==> w in store.workflows && Served(store.Db(), registry, w, now)
    ensures store.quiet && old(store.log) == l ==>
              NewcomersGiven(begun, store.Db(), registry, now + startDeadline, now)
    ensures store.quiet && old(store.log) == l && AllQuiescent(begun) ==> AllQuiescent(store.Db())
  {
    hide Inv, Evolves, IsRun, AllQuiescent, Quiescent, HasItsTasks, Untouched, Advanced, FullMembership, Served,
         NewcomersGiven;
    ghost var started, later := Last(l.trace), store.log;
    AdvanceWorkflow(store, registry, startDeadline, w, now);
    GoesOn(store, log, later);
    GoesOn(store, l, later);
    RunningIsFull(started, store.Db(), w);
    if store.quiet && later == l {
      Follows(store, l, started);
      AdvanceServes(started, store.Db(), registry, startDeadline, w, now);
      AdvanceGives(started, store.Db(), registry, startDeadline, w, now);
      NoNewcomers(begun, started, registry, now + startDeadline, now);
      NewcomersTransitive(begun, started, store.Db(), registry, now + startDeadline, now);
    }
    if store.quiet && later == l && AllQuiescent(begun) {
      StartRests(begun, started, store.Db(), registry, startDeadline, w, now);
    }
  }

  lemma RunningIsFull(s: Db, db: Db, w: WorkflowId)
    requires Inv(s) && Advances(s, db) && w in s.workflows && s.workflows[w].state == WorkflowState.Running
    ensures HasItsTasks(db, w) && db.workflows[w].input == s.workflows[w].input
    ensures db.workflows[w].definition == s.workflows[w].definition
  {
    hide TaskOk, AttemptOk, LedgerOk;
    assert WorkflowOk(s, w);
    assert WorkflowOk(db, w);
    FullStays(s, db, w);
  }

  lemma FullStays(s: Db, db: Db, w: WorkflowId)
    requires Evolves(s, db) && w in s.workflows && s.workflows[w].definition in s.definitions && FullMembership(s, w)
    ensures HasItsTasks(db, w)
  {
  }

  // ---------------------------------------------------------------------------------------- cancelling

  datatype CancelReply = CancelAccepted | ExecutionNotFound | InvalidStateTransition | ConcurrentModification

  lemma CancelDirects(db: Db, w: WorkflowId, now: Time)
    ensures var r := CancellationDirectionTx(db, w, now);
      && (r.status == Committed <==>
            WorkflowMatches(db, w, {WorkflowState.Initializing, WorkflowState.Running}))
      && (r.status != Committed ==> r.db == db)
      && (r.status == Committed ==>
            OnlyWorkflowMoved(db, r.db, w) && IsDraining(r.db, w)
            && (HasItsTasks(db, w) ==> HasItsTasks(r.db, w)))
  {
  }

  /** After the direction was committed on db, the drain leaves its workflow at rest if it has its tasks. */
  lemma CancelRests(db: Db, directed: Db, db': Db, w: WorkflowId, now: Time)
    requires AllQuiescent(db) && Inv(db) && w in db.workflows && db.workflows[w].state == WorkflowState.Running
    requires OnlyWorkflowMoved(db, directed, w) && IsDraining(directed, w)
    requires HasItsTasks(db, w) ==> HasItsTasks(directed, w)
    requires HasItsTasks(directed, w) ==> Drained(directed, db', w, now)
    ensures AllQuiescent(db')
  {
    hide Inv, HasItsTasks, Quiescent, Drained, Touches;
    RunningIsFull(db, db, w) by { AdvancesReflexive(db); }
    DrainedRests(directed, db', w, now);
    DrainedFrame(directed, db', w, now);
    TouchesTransitive(db, directed, db', w);
    AllQuiescentAfter(db, db', w);
  }

  /** What a drain of w has made of its tasks and attempts: unstarted tasks are CANCELLED and finished ones as they
      were; active attempts have been swept, which leaves the task of one RUNNING or CANCELLED. */
  ghost predicate RowsDrained(db: Db, db': Db, w: WorkflowId, now: Time) {
    && (forall t | t in db.tasks && t.workflow == w :: t in db'.tasks && DrainedTask(db.tasks[t], db'.tasks[t]))
    && (forall a | a in ActiveAttempts(db, w) :: a in db'.attempts && AttemptSwept(db, db', a, {}, now))
  }

  lemma CancelDrains(db: Db, directed: Db, db': Db, w: WorkflowId, now: Time)
    requires Inv(db) && w in db.workflows && db.workflows[w].state == WorkflowState.Running
    requires OnlyWorkflowMoved(db, directed, w) && w in directed.workflows
    requires HasItsTasks(db, w) ==> HasItsTasks(directed, w)
    requires HasItsTasks(directed, w) ==> Drained(directed, db', w, now)
    requires OnlyEnds(directed, db', {}, now)
    ensures RowsDrained(db, db', w, now) && OnlyEnds(db, db', {}, now)
  {
    hide Inv, HasItsTasks;
    RunningIsFull(db, db, w) by { AdvancesReflexive(db); }
    assert ActiveAttempts(db, w) == ActiveAttempts(directed, w);
  }

  /** Directs an INITIALIZING or RUNNING execution to CANCELLING and drains it; repeats are accepted. */
  method CancelExecution(store: Store, w: WorkflowId, now: Time) returns (reply: CancelReply)
    requires store.Valid()
    modifies store
    ensures store.Continues(old(store.log))
    ensures store.quiet && AllQuiescent(old(store.Db())) ==> AllQuiescent(store.Db())
    ensures store.quiet ==>
      && (reply.ExecutionNotFound? <==> w !in old(store.workflows))
      && (reply.InvalidStateTransition? <==>
            w in old(store.workflows)
            && var s := old(store.workflows)[w].state; s.Failing? || s.Failed? || s.Succeeded?)
      && !reply.ConcurrentModification?
    ensures store.quiet && StateOf(old(store.Db()), w) == Some(WorkflowState.Running) ==>
      RowsDrained(old(store.Db()), store.Db(), w, now) && OnlyEnds(old(store.Db()), store.Db(), {}, now)
    ensures (&& store.quiet && StateOf(old(store.Db()), w) != Some(WorkflowState.Initializing)
             && StateOf(old(store.Db()), w) != Some(WorkflowState.Running)) ==> store.Db() == old(store.Db())
    ensures reply.CancelAccepted? ==>
      w in store.workflows && (store.workflows[w].state.Cancelling? || store.workflows[w].state.Cancelled?)
  {
    hide Inv, Evolves, IsRun, Leads, AllQuiescent, Quiescent, HasItsTasks, CancellationDirectionTx, Drained,
         FullMembership, Touches, RowsDrained, OnlyEnds;
    ghost var log, db := store.log, store.Db();
    StandsStill(store);
    if w !in store.workflows {
      return ExecutionNotFound;
    }
    var seen := store.workflows[w].state;
    if seen.Cancelling? || seen.Cancelled? {
      return CancelAccepted;
    }
    if seen.Failing? || seen.Failed? || seen.Succeeded? {
      return InvalidStateTransition;
    }
    store.Others();
    ghost var l, begun := store.log, store.Db();
    var status := store.CommitWorkflowCancellationDirection(w, now);
    CancelDirects(begun, w, now);
    GoesOn(store, log, l);
    ghost var directed := store.Db();
    l := store.log;
    if status != Committed {
      store.Others();
      GoesOn(store, log, l);
      if w in store.workflows && (store.workflows[w].state.Cancelling? || store.workflows[w].state.Cancelled?) {
        return CancelAccepted;
      }
      return ConcurrentModification;
    }
    assert directed.workflows[w].state.Cancelling? by { CancelsTo(begun, w, now); }
    store.Others();
    GoesOn(store, log, l);
    ghost var l', later := store.log, store.Db();
    CancelledStays(directed, later, w);
    DrainWorkflow(store, w, now);
    GoesOn(store, log, l');
    Follows(store, l', later);
    CancelledStays(later, store.Db(), w);
    if store.quiet && StateOf(db, w) == Some(WorkflowState.Running) {
      HasItsTasksMeans(directed, w);
      CancelDrains(db, directed, store.Db(), w, now);
    }
    if store.quiet && AllQuiescent(db) {
      RestsRunning(db, w);
      HasItsTasksMeans(directed, w);
      CancelRests(db, directed, store.Db(), w, now);
    }
    reply := CancelAccepted;
  }

  lemma CancelsTo(db: Db, w: WorkflowId, now: Time)
    requires CancellationDirectionTx(db, w, now).status == Committed
    ensures var db' := CancellationDirectionTx(db, w, now).db; w in db'.workflows && db'.workflows[w].state.Cancelling?
  {
  }

  lemma CancelledStays(s: Db, db: Db, w: WorkflowId)
    requires Evolves(s, db) && w in s.workflows && (s.workflows[w].state.Cancelling? || s.workflows[w].state.Cancelled?)
    ensures w in db.workflows && (db.workflows[w].state.Cancelling? || db.workflows[w].state.Cancelled?)
  {
  }

  lemma RestsRunning(db: Db, w: WorkflowId)
    requires AllQuiescent(db) && w in db.workflows
    ensures !db.workflows[w].state.Initializing?
  {
    assert Quiescent(db, w);
  }
}
