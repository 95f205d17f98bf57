/**
  The semantic validator (definition/validator.py). An error carries its code and path; the message text is left
  out. Errors are accumulated up to a cap, and the cycle test runs only when nothing else was found.
  */
module Validator {
  import opened Wrappers
  import opened JsonCompat
  import opened Graph
  import opened Spec
  import opened GraphBuilder
  import opened Normalizer

  datatype ValidationError =
    | EmptyWorkflow
    | AttemptsExceededLimit(task: string)
    | DuplicateDependency(task: string, index: nat)
    | SelfDependency(task: string, index: nat)
    | UnknownDependency(task: string, index: nat)
    | UnknownTaskOutputSource(task: string, input: string)
    | TaskOutputSourceNotDependency(task: string, input: string)
    | UnknownWorkflowOutputSource(output: string)
    | CycleDetected(tasks: set<string>)

  /** Raised stands for a ValueError out of an identifier constructor or of the graph builder. */
  datatype ValidationOutcome =
    | Success(spec: ValidatedWorkflowSpec, graph: CanonicalGraph)
    | Errors(errors: seq<ValidationError>)
    | Raised

  // ------------------------------------------------------------------------------------ the candidates

  function RawOf(c: CandidateWorkflowSpec, id: string): seq<string> {
    if id in c.rawDependencies then c.rawDependencies[id] else []
  }

  function Ids(tasks: seq<TaskDefinition>): set<string> {
    set i | 0 <= i < |tasks| :: tasks[i].id
  }

  ghost predicate NormalBinding(b: InputBinding) {
    b.LiteralBinding? ==> IsFrozen(b.value) && Compatible(b.value)
  }

  /** The candidates normalisation produces: raw and canonical dependencies agree, identifiers are legal. */
  ghost predicate Normalised(c: CandidateWorkflowSpec) {
    && (forall i, j | 0 <= i < j < |c.tasks| :: c.tasks[i].id != c.tasks[j].id)
    && (forall t | t in c.tasks ::
          && ValidId(t.id) && ValidId(t.activityType) && 1 <= t.maxAttempts
          && t.dependencies == Elements(RawOf(c, t.id))
          && (forall d | d in RawOf(c, t.id) :: ValidId(d))
          && (forall p | p in t.inputBindings :: NormalBinding(t.inputBindings[p])))
  }

  lemma NormalisationNormalises(c: CandidateWorkflowSpec, dto: WorkflowDto)
    requires Admissible(dto) && Describes(c, dto)
    ensures Normalised(c)
  {
    hide ValidId;
    forall t | t in c.tasks
      ensures AdmissibleTask(t.id, dto.tasks[t.id]) && t == TaskOf(t.id, dto.tasks[t.id])
      ensures RawOf(c, t.id) == dto.tasks[t.id].dependencies
      ensures forall p | p in t.inputBindings :: NormalBinding(t.inputBindings[p])
    {
      forall p | p in t.inputBindings ensures NormalBinding(t.inputBindings[p]) {
        var b := dto.tasks[t.id].inputBindings[p];
        assert AdmissibleBinding(b) && t.inputBindings[p] == BindingOf(b);
        if b.LiteralBindingDto? {
          FreezingFreezes(b.value);
          FreezingKeepsCompatibility(b.value);
        }
      }
    }
  }

  // ------------------------------------------------------------------------------------------ the faults

  predicate TaskFault(ids: set<string>, limit: int, t: TaskDefinition, raw: seq<string>, e: ValidationError) {
    match e
    case AttemptsExceededLimit(k) => k == t.id && limit < t.maxAttempts
    case DuplicateDependency(k, i) => k == t.id && i < |raw| && raw[i] in raw[..i]
    case SelfDependency(k, i) => k == t.id && i < |raw| && raw[i] == t.id
    case UnknownDependency(k, i) => k == t.id && i < |raw| && raw[i] !in ids
    case UnknownTaskOutputSource(k, p) => k == t.id && p in t.inputBindings && UnknownSource(ids, t.inputBindings[p])
    case TaskOutputSourceNotDependency(k, p) =>
      k == t.id && p in t.inputBindings && StraySource(ids, t, t.inputBindings[p])
    case _ => false
  }

  predicate UnknownSource(ids: set<string>, b: InputBinding) {
    b.TaskOutputBinding? && b.upstream !in ids
  }

  predicate StraySource(ids: set<string>, t: TaskDefinition, b: InputBinding) {
    b.TaskOutputBinding? && b.upstream in ids && b.upstream !in t.dependencies
  }

  /** What the candidate has to answer for, before the cycle test. */
  ghost predicate Fault(c: CandidateWorkflowSpec, limit: int, e: ValidationError) {
    || (e.EmptyWorkflow? && c.tasks == [])
    || (exists t | t in c.tasks :: TaskFault(Ids(c.tasks), limit, t, RawOf(c, t.id), e))
    || (e.UnknownWorkflowOutputSource? && e.output in c.outputBindings && c.outputBindings[e.output] !in Ids(c.tasks))
  }

  function TaskMap(tasks: seq<TaskDefinition>): map<string, TaskDefinition> {
    if tasks == [] then map[]
    else TaskMap(tasks[..|tasks| - 1])[tasks[|tasks| - 1].id := tasks[|tasks| - 1]]
  }

  // ------------------------------------------------------------------------------ accumulating up to a cap

  /** The cap has not been reached. A cap below one still lets the first error in. */
  predicate Open(errors: seq<ValidationError>, cap: int) {
    errors == [] || |errors| < cap
  }

  predicate Full(errors: seq<ValidationError>, cap: int) {
    |errors| == if cap < 1 then 1 else cap
  }

  /** The accumulator after a check: it grew by faults of the given kind, and by all of them unless it is full. */
  ghost predicate Accumulated(
    before: seq<ValidationError>, after: seq<ValidationError>, stop: bool, cap: int, fault: ValidationError -> bool)
  {
    && before <= after
    && (forall i | |before| <= i < |after| :: fault(after[i]))
    && (if stop then Full(after, cap) else Open(after, cap) && forall e | fault(e) :: e in after)
  }

  /** Python's add_error: True when the cap is reached. */
  method AddError(errors: seq<ValidationError>, e: ValidationError, cap: int)
    returns (errors': seq<ValidationError>, stop: bool)
    requires Open(errors, cap)
    ensures errors' == errors + [e] && if stop then Full(errors', cap) else Open(errors', cap)
  {
    errors' := errors + [e];
    stop := |errors'| >= cap;
  }

  /** Faults of the raw dependency at one index. */
  predicate DependencyFault(ids: set<string>, t: TaskDefinition, raw: seq<string>, i: nat, e: ValidationError) {
    && (e.DuplicateDependency? || e.SelfDependency? || e.UnknownDependency?)
    && e.index == i && TaskFault(ids, 0, t, raw, e)
  }

  lemma FaultsAtIndex(ids: set<string>, t: TaskDefinition, raw: seq<string>, i: nat)
    requires i < |raw|
    ensures forall e | DependencyFault(ids, t, raw, i, e) ::
              e in {DuplicateDependency(t.id, i), SelfDependency(t.id, i), UnknownDependency(t.id, i)}
    ensures DependencyFault(ids, t, raw, i, DuplicateDependency(t.id, i)) <==> raw[i] in raw[..i]
    ensures DependencyFault(ids, t, raw, i, SelfDependency(t.id, i)) <==> raw[i] == t.id
    ensures DependencyFault(ids, t, raw, i, UnknownDependency(t.id, i)) <==> raw[i] !in ids
  {
  }

  /** Duplicate, self and unknown, in that order; the identifier constructor may raise before the last. */
  method CheckDependency(
    ids: set<string>, t: TaskDefinition, raw: seq<string>, i: nat, seen: set<string>,
    errors: seq<ValidationError>, cap: int)
    returns (errors': seq<ValidationError>, stop: bool, raised: bool)
    requires i < |raw| && Open(errors, cap) && seen == Elements(raw[..i])
    ensures raised ==> !ValidId(raw[i])
    ensures !raised ==> Accumulated(errors, errors', stop, cap, e => DependencyFault(ids, t, raw, i, e))
  {
    hide Accumulated, DependencyFault, ValidId;
    FaultsAtIndex(ids, t, raw, i);
    errors', stop, raised := errors, false, false;
    var fault := e => DependencyFault(ids, t, raw, i, e);
    if raw[i] in seen {
      errors', stop := AddError(errors', DuplicateDependency(t.id, i), cap);
      if stop { Stopped(errors, errors', cap, fault); return; }
    }
    if raw[i] == t.id {
      errors', stop := AddError(errors', SelfDependency(t.id, i), cap);
      if stop { Stopped(errors, errors', cap, fault); return; }
    }
    if !ValidId(raw[i]) {
      raised := true;
      return;
    }
    if raw[i] !in ids {
      errors', stop := AddError(errors', UnknownDependency(t.id, i), cap);
      if stop { Stopped(errors, errors', cap, fault); return; }
    }
    assert Accumulated(errors, errors', stop, cap, fault) by { Finished(errors, errors', cap, fault); }
  }

  lemma Stopped(before: seq<ValidationError>, after: seq<ValidationError>, cap: int, fault: ValidationError -> bool)
    requires before <= after && Full(after, cap) && forall i | |before| <= i < |after| :: fault(after[i])
    ensures Accumulated(before, after, true, cap, fault)
  {
  }

  lemma Finished(before: seq<ValidationError>, after: seq<ValidationError>, cap: int, fault: ValidationError -> bool)
    requires before <= after && Open(after, cap) && forall i | |before| <= i < |after| :: fault(after[i])
    requires forall e | fault(e) :: e in after
    ensures Accumulated(before, after, false, cap, fault)
  {
  }

  /** Two checks in a row, the first of which did not fill the accumulator. */
  lemma Chained(
    a: seq<ValidationError>, b: seq<ValidationError>, c: seq<ValidationError>, stop: bool, cap: int,
    first: ValidationError -> bool, second: ValidationError -> bool, both: ValidationError -> bool)
    requires Accumulated(a, b, false, cap, first) && Accumulated(b, c, stop, cap, second)
    requires forall e :: both(e) <==> first(e) || second(e)
    ensures Accumulated(a, c, stop, cap, both)
  {
    forall i | |a| <= i < |c| ensures both(c[i]) {
      if i < |b| { assert c[i] == b[i]; }
    }
  }

  lemma NoFaults(errors: seq<ValidationError>, cap: int, fault: ValidationError -> bool)
    requires Open(errors, cap) && forall e :: !fault(e)
    ensures Accumulated(errors, errors, false, cap, fault)
  {
  }

  /** Faults of the raw dependencies before index n. */
  predicate RawFault(ids: set<string>, t: TaskDefinition, raw: seq<string>, n: nat, e: ValidationError) {
    && (e.DuplicateDependency? || e.SelfDependency? || e.UnknownDependency?)
    && e.index < n && TaskFault(ids, 0, t, raw, e)
  }

  method CheckDependencies(
    ids: set<string>, t: TaskDefinition, raw: seq<string>, errors: seq<ValidationError>, cap: int)
    returns (errors': seq<ValidationError>, stop: bool, raised: bool)
    requires Open(errors, cap)
    ensures raised ==> exists d | d in raw :: !ValidId(d)
    ensures !raised ==> Accumulated(errors, errors', stop, cap, e => RawFault(ids, t, raw, |raw|, e))
  {
    hide Accumulated, ValidId;
    errors', stop, raised := errors, false, false;
    var seenDeps: set<string> := {};
    NoFaults(errors, cap, e => RawFault(ids, t, raw, 0, e));
    for i := 0 to |raw|
      invariant seenDeps == Elements(raw[..i])
      invariant Accumulated(errors, errors', false, cap, e => RawFault(ids, t, raw, i, e))
    {
      StillOpen(errors, errors', cap, e => RawFault(ids, t, raw, i, e));
      ghost var before := errors';
      errors', stop, raised := CheckDependency(ids, t, raw, i, seenDeps, errors', cap);
      if raised { return; }
      assert Accumulated(errors, errors', stop, cap, e => RawFault(ids, t, raw, i + 1, e)) by {
        Chained(errors, before, errors', stop, cap, e => RawFault(ids, t, raw, i, e),
                e => DependencyFault(ids, t, raw, i, e), e => RawFault(ids, t, raw, i + 1, e));
      }
      if stop {
        StoppedEarly(errors, errors', cap, e => RawFault(ids, t, raw, i + 1, e), e => RawFault(ids, t, raw, |raw|, e));
        return;
      }
      seenDeps := seenDeps + {raw[i]};
      ElementsAppend(raw[..i], raw[i]);
      assert raw[..i + 1] == raw[..i] + [raw[i]];
    }
  }

  lemma StillOpen(before: seq<ValidationError>, after: seq<ValidationError>, cap: int, fault: ValidationError -> bool)
    requires Accumulated(before, after, false, cap, fault)
    ensures Open(after, cap)
  {
  }

  /** A full accumulator owes nothing, so a part of a check stands for the whole. */
  lemma StoppedEarly(
    before: seq<ValidationError>, after: seq<ValidationError>, cap: int,
    part: ValidationError -> bool, whole: ValidationError -> bool)
    requires Accumulated(before, after, true, cap, part) && forall e | part(e) :: whole(e)
    ensures Accumulated(before, after, true, cap, whole)
  {
  }

  /** Faults of the input bindings in some set. */
  predicate BindingFault(ids: set<string>, t: TaskDefinition, inputs: set<string>, e: ValidationError) {
    && (e.UnknownTaskOutputSource? || e.TaskOutputSourceNotDependency?)
    && e.input in inputs && TaskFault(ids, 0, t, [], e)
  }

  method CheckBinding(ids: set<string>, t: TaskDefinition, p: string, errors: seq<ValidationError>, cap: int)
    returns (errors': seq<ValidationError>, stop: bool)
    requires p in t.inputBindings && Open(errors, cap)
    ensures Accumulated(errors, errors', stop, cap, e => BindingFault(ids, t, {p}, e))
  {
    var binding := t.inputBindings[p];
    errors', stop := errors, false;
    if binding.TaskOutputBinding? {
      if binding.upstream !in ids {
        errors', stop := AddError(errors, UnknownTaskOutputSource(t.id, p), cap);
      } else if binding.upstream !in t.dependencies {
        errors', stop := AddError(errors, TaskOutputSourceNotDependency(t.id, p), cap);
      }
    }
  }

  method CheckBindings(ids: set<string>, t: TaskDefinition, errors: seq<ValidationError>, cap: int)
    returns (errors': seq<ValidationError>, stop: bool)
    requires Open(errors, cap)
    ensures Accumulated(errors, errors', stop, cap, e => BindingFault(ids, t, t.inputBindings.Keys, e))
  {
    hide Accumulated;
    errors', stop := errors, false;
    var todo := t.inputBindings.Keys;
    ghost var done: set<string> := {};
    NoFaults(errors, cap, e => BindingFault(ids, t, {}, e));
    while todo != {}
      invariant todo == t.inputBindings.Keys - done && done <= t.inputBindings.Keys
      invariant Accumulated(errors, errors', false, cap, e => BindingFault(ids, t, done, e))
      decreases todo
    {
      var p :| p in todo;
      StillOpen(errors, errors', cap, e => BindingFault(ids, t, done, e));
      ghost var before := errors';
      errors', stop := CheckBinding(ids, t, p, errors', cap);
      Chained(errors, before, errors', stop, cap, e => BindingFault(ids, t, done, e),
              e => BindingFault(ids, t, {p}, e), e => BindingFault(ids, t, done + {p}, e));
      if stop {
        StoppedEarly(errors, errors', cap, e => BindingFault(ids, t, done + {p}, e),
                     e => BindingFault(ids, t, t.inputBindings.Keys, e));
        return;
      }
      todo, done := todo - {p}, done + {p};
    }
    assert done == t.inputBindings.Keys;
  }

  /** All checks of one task: the attempt limit, its raw dependencies, its input bindings. */
  method CheckTask(
    ids: set<string>, limit: int, t: TaskDefinition, raw: seq<string>, errors: seq<ValidationError>, cap: int)
    returns (errors': seq<ValidationError>, stop: bool, raised: bool)
    requires Open(errors, cap)
    ensures raised ==> exists d | d in raw :: !ValidId(d)
    ensures !raised ==> Accumulated(errors, errors', stop, cap, e => TaskFault(ids, limit, t, raw, e))
  {
    hide Accumulated, ValidId;
    raised := false;
    errors', stop := CheckLimit(limit, t, errors, cap);
    if stop {
      StoppedEarly(errors, errors', cap, e => LimitFault(limit, t, e), e => TaskFault(ids, limit, t, raw, e));
      return;
    }
    StillOpen(errors, errors', cap, e => LimitFault(limit, t, e));
    ghost var limited := errors';
    errors', stop, raised := CheckDependencies(ids, t, raw, errors', cap);
    if raised { return; }
    Chained(errors, limited, errors', stop, cap, e => LimitFault(limit, t, e), e => RawFault(ids, t, raw, |raw|, e),
            e => LimitFault(limit, t, e) || RawFault(ids, t, raw, |raw|, e));
    if stop {
      StoppedEarly(errors, errors', cap, e => LimitFault(limit, t, e) || RawFault(ids, t, raw, |raw|, e),
                   e => TaskFault(ids, limit, t, raw, e));
      return;
    }
    StillOpen(errors, errors', cap, e => LimitFault(limit, t, e) || RawFault(ids, t, raw, |raw|, e));
    ghost var checked := errors';
    errors', stop := CheckBindings(ids, t, errors', cap);
    Chained(errors, checked, errors', stop, cap, e => LimitFault(limit, t, e) || RawFault(ids, t, raw, |raw|, e),
            e => BindingFault(ids, t, t.inputBindings.Keys, e), e => TaskFault(ids, limit, t, raw, e));
  }

  predicate LimitFault(limit: int, t: TaskDefinition, e: ValidationError) {
    e == AttemptsExceededLimit(t.id) && limit < t.maxAttempts
  }

  method CheckLimit(limit: int, t: TaskDefinition, errors: seq<ValidationError>, cap: int)
    returns (errors': seq<ValidationError>, stop: bool)
    requires Open(errors, cap)
    ensures Accumulated(errors, errors', stop, cap, e => LimitFault(limit, t, e))
  {
    errors', stop := errors, false;
    if t.maxAttempts > limit {
      errors', stop := AddError(errors, AttemptsExceededLimit(t.id), cap);
    }
  }

  /** Faults of the first n tasks. */
  ghost predicate FaultsBefore(c: CandidateWorkflowSpec, limit: int, n: nat, e: ValidationError) {
    exists k | 0 <= k < n && k < |c.tasks| :: TaskFault(Ids(c.tasks), limit, c.tasks[k], RawOf(c, c.tasks[k].id), e)
  }

  method CheckTasks(c: CandidateWorkflowSpec, limit: int, cap: int)
    returns (errors: seq<ValidationError>, stop: bool, raised: bool)
    ensures raised ==> exists t | t in c.tasks :: exists d | d in RawOf(c, t.id) :: !ValidId(d)
    ensures !raised ==> Accumulated([], errors, stop, cap, e => FaultsBefore(c, limit, |c.tasks|, e))
  {
    hide Accumulated, ValidId, TaskFault, RawOf;
    errors, stop, raised := [], false, false;
    var ids := Ids(c.tasks);
    NoFaults([], cap, e => FaultsBefore(c, limit, 0, e));
    for n := 0 to |c.tasks|
      invariant Accumulated([], errors, false, cap, e => FaultsBefore(c, limit, n, e))
    {
      StillOpen([], errors, cap, e => FaultsBefore(c, limit, n, e));
      ghost var before := errors;
      var t := c.tasks[n];
      errors, stop, raised := CheckTask(ids, limit, t, RawOf(c, t.id), errors, cap);
      if raised {
        assert t in c.tasks;
        return;
      }
      FaultsNext(c, limit, n);
      Chained([], before, errors, stop, cap, e => FaultsBefore(c, limit, n, e),
              e => TaskFault(ids, limit, t, RawOf(c, t.id), e), e => FaultsBefore(c, limit, n + 1, e));
      if stop {
        FaultsWithin(c, limit, n + 1);
        StoppedEarly([], errors, cap, e => FaultsBefore(c, limit, n + 1, e),
                     e => FaultsBefore(c, limit, |c.tasks|, e));
        return;
      }
    }
  }

  lemma FaultsNext(c: CandidateWorkflowSpec, limit: int, n: nat)
    requires n < |c.tasks|
    ensures forall e :: FaultsBefore(c, limit, n + 1, e) <==>
              FaultsBefore(c, limit, n, e)
              || TaskFault(Ids(c.tasks), limit, c.tasks[n], RawOf(c, c.tasks[n].id), e)
  {
    hide TaskFault, RawOf;
    forall e
      ensures FaultsBefore(c, limit, n + 1, e) <==>
              FaultsBefore(c, limit, n, e)
              || TaskFault(Ids(c.tasks), limit, c.tasks[n], RawOf(c, c.tasks[n].id), e)
    {
    }
  }

  lemma FaultsWithin(c: CandidateWorkflowSpec, limit: int, n: nat)
    requires n <= |c.tasks|
    ensures forall e | FaultsBefore(c, limit, n, e) :: FaultsBefore(c, limit, |c.tasks|, e)
  {
  }

  predicate OutputFault(c: CandidateWorkflowSpec, names: set<string>, e: ValidationError) {
    e.UnknownWorkflowOutputSource? && e.output in names && e.output in c.outputBindings
    && c.outputBindings[e.output] !in Ids(c.tasks)
  }

  method CheckOutputs(c: CandidateWorkflowSpec, errors: seq<ValidationError>, cap: int)
    returns (errors': seq<ValidationError>, stop: bool)
    requires Open(errors, cap)
    ensures Accumulated(errors, errors', stop, cap, e => OutputFault(c, c.outputBindings.Keys, e))
  {
    hide Accumulated;
    errors', stop := errors, false;
    var ids := Ids(c.tasks);
    var todo := c.outputBindings.Keys;
    ghost var done: set<string> := {};
    NoFaults(errors, cap, e => OutputFault(c, {}, e));
    while todo != {}
      invariant todo == c.outputBindings.Keys - done && done <= c.outputBindings.Keys
      invariant Accumulated(errors, errors', false, cap, e => OutputFault(c, done, e))
      decreases todo
    {
      var o :| o in todo;
      StillOpen(errors, errors', cap, e => OutputFault(c, done, e));
      ghost var before := errors';
      if c.outputBindings[o] !in ids {
        errors', stop := AddError(errors', UnknownWorkflowOutputSource(o), cap);
      }
      OutputStep(c, o, before, errors', stop, cap);
      Chained(errors, before, errors', stop, cap, e => OutputFault(c, done, e),
              e => OutputFault(c, {o}, e), e => OutputFault(c, done + {o}, e));
      if stop {
        StoppedEarly(errors, errors', cap, e => OutputFault(c, done + {o}, e),
                     e => OutputFault(c, c.outputBindings.Keys, e));
        return;
      }
      todo, done := todo - {o}, done + {o};
    }
    assert done == c.outputBindings.Keys;
  }

  lemma OutputStep(
    c: CandidateWorkflowSpec, o: string, before: seq<ValidationError>, after: seq<ValidationError>, stop: bool,
    cap: int)
    requires o in c.outputBindings
    requires if stop then Full(after, cap) else Open(after, cap)
    requires after == if c.outputBindings[o] in Ids(c.tasks) then before else before + [UnknownWorkflowOutputSource(o)]
    requires c.outputBindings[o] in Ids(c.tasks) ==> !stop
    ensures Accumulated(before, after, stop, cap, e => OutputFault(c, {o}, e))
  {
  }

  // ---------------------------------------------------------------------------------- the whole validator

  /** ADR-004 as a condition on the candidate, acyclicity apart. */
  ghost predicate Conforms(c: CandidateWorkflowSpec, limit: int) {
    && c.tasks != []
    && (forall t | t in c.tasks :: TaskConforms(Ids(c.tasks), limit, t, RawOf(c, t.id)))
    && (forall o | o in c.outputBindings :: c.outputBindings[o] in Ids(c.tasks))
  }

  ghost predicate TaskConforms(ids: set<string>, limit: int, t: TaskDefinition, raw: seq<string>) {
    && t.maxAttempts <= limit
    && Distinct(raw) && t.id !in raw && (forall d | d in raw :: d in ids)
    && (forall p | p in t.inputBindings && t.inputBindings[p].TaskOutputBinding? ::
          t.inputBindings[p].upstream in ids && t.inputBindings[p].upstream in t.dependencies)
  }

  lemma TaskFaultFree(ids: set<string>, limit: int, t: TaskDefinition, raw: seq<string>)
    ensures (forall e :: !TaskFault(ids, limit, t, raw, e)) <==> TaskConforms(ids, limit, t, raw)
  {
    if forall e :: !TaskFault(ids, limit, t, raw, e) {
      assert !TaskFault(ids, limit, t, raw, AttemptsExceededLimit(t.id));
      forall i | 0 <= i < |raw| ensures raw[i] !in raw[..i] && raw[i] != t.id && raw[i] in ids {
        assert !TaskFault(ids, limit, t, raw, DuplicateDependency(t.id, i));
        assert !TaskFault(ids, limit, t, raw, SelfDependency(t.id, i));
        assert !TaskFault(ids, limit, t, raw, UnknownDependency(t.id, i));
      }
      forall i, j | 0 <= i < j < |raw| ensures raw[i] != raw[j] {
        assert raw[..j][i] == raw[i];
      }
      forall p | p in t.inputBindings && t.inputBindings[p].TaskOutputBinding?
        ensures t.inputBindings[p].upstream in ids && t.inputBindings[p].upstream in t.dependencies
      {
        assert !TaskFault(ids, limit, t, raw, UnknownTaskOutputSource(t.id, p));
        assert !TaskFault(ids, limit, t, raw, TaskOutputSourceNotDependency(t.id, p));
      }
    }
  }

  /** No fault is the same as well-formedness. */
  lemma FaultFree(c: CandidateWorkflowSpec, limit: int)
    ensures (forall e :: !Fault(c, limit, e)) <==> Conforms(c, limit)
  {
    hide TaskFault, TaskConforms, RawOf;
    if forall e :: !Fault(c, limit, e) {
      assert !Fault(c, limit, EmptyWorkflow);
      forall t | t in c.tasks ensures TaskConforms(Ids(c.tasks), limit, t, RawOf(c, t.id)) {
        forall e ensures !TaskFault(Ids(c.tasks), limit, t, RawOf(c, t.id), e) {
          assert !Fault(c, limit, e);
        }
        TaskFaultFree(Ids(c.tasks), limit, t, RawOf(c, t.id));
      }
      forall o | o in c.outputBindings ensures c.outputBindings[o] in Ids(c.tasks) {
        assert !Fault(c, limit, UnknownWorkflowOutputSource(o));
      }
    }
    if Conforms(c, limit) {
      forall t | t in c.tasks ensures forall e :: !TaskFault(Ids(c.tasks), limit, t, RawOf(c, t.id), e) {
        TaskFaultFree(Ids(c.tasks), limit, t, RawOf(c, t.id));
      }
    }
  }

  lemma {:induction false} TaskMapKeys(tasks: seq<TaskDefinition>)
    ensures TaskMap(tasks).Keys == Ids(tasks)
    ensures forall k | k in TaskMap(tasks) :: TaskMap(tasks)[k] in tasks && TaskMap(tasks)[k].id == k
  {
    if tasks != [] {
      var n := |tasks| - 1;
      TaskMapKeys(tasks[..n]);
      assert tasks == tasks[..n] + [tasks[n]];
      assert Ids(tasks) == Ids(tasks[..n]) + {tasks[n].id};
    }
  }

  lemma AcceptedTask(tasks: map<string, TaskDefinition>, limit: int, k: string, raw: seq<string>)
    requires k in tasks && tasks[k].id == k && tasks[k].dependencies == Elements(raw) && 1 <= tasks[k].maxAttempts
    requires TaskConforms(tasks.Keys, limit, tasks[k], raw)
    ensures WellFormedTask(tasks, k)
  {
  }

  lemma NormalRow(c: CandidateWorkflowSpec, t: TaskDefinition)
    requires Normalised(c) && t in c.tasks
    ensures t.dependencies == Elements(RawOf(c, t.id)) && 1 <= t.maxAttempts
    ensures ValidId(t.id) && ValidId(t.activityType)
    ensures forall p | p in t.inputBindings :: NormalBinding(t.inputBindings[p])
  {
    hide ValidId;
  }

  /** What is accepted is a valid specification. */
  lemma AcceptedIsValid(c: CandidateWorkflowSpec, limit: int)
    requires Normalised(c) && Conforms(c, limit) && Acyclic(DependencyMap(TaskMap(c.tasks)))
    ensures ValidSpec(ValidatedWorkflowSpec(c.name, TaskMap(c.tasks), c.outputBindings))
  {
    hide Acyclic, ValidId, Normalised, TaskConforms, WellFormedTask;
    var tasks := TaskMap(c.tasks);
    TaskMapKeys(c.tasks);
    assert c.tasks[0].id in Ids(c.tasks);
    forall k | k in tasks ensures WellFormedTask(tasks, k) {
      NormalRow(c, tasks[k]);
      AcceptedTask(tasks, limit, k, RawOf(c, k));
    }
  }

  lemma ReferencesClosed(c: CandidateWorkflowSpec, limit: int)
    requires Normalised(c) && Conforms(c, limit)
    ensures Closed(DependencyMap(TaskMap(c.tasks)))
  {
    hide ValidId;
    TaskMapKeys(c.tasks);
    forall k | k in TaskMap(c.tasks) ensures TaskMap(c.tasks)[k].dependencies <= Ids(c.tasks) {
      assert TaskConforms(Ids(c.tasks), limit, TaskMap(c.tasks)[k], RawOf(c, k));
    }
  }

  /** What the errors of a rejected candidate are: genuine faults, all of them below the cap; or the one cycle. */
  ghost predicate Justified(c: CandidateWorkflowSpec, limit: int, cap: int, errors: seq<ValidationError>) {
    || (&& (forall e | e in errors :: Fault(c, limit, e))
        && (Full(errors, cap) || c.tasks == [] || forall e | Fault(c, limit, e) :: e in errors))
    || (&& Conforms(c, limit) && |errors| == 1 && errors[0].CycleDetected?
        && Stuck(DependencyMap(TaskMap(c.tasks)), errors[0].tasks))
  }

  method BuildTaskMap(tasks: seq<TaskDefinition>) returns (taskMap: map<string, TaskDefinition>)
    ensures taskMap == TaskMap(tasks)
  {
    taskMap := map[];
    for i := 0 to |tasks|
      invariant taskMap == TaskMap(tasks[..i])
    {
      taskMap := taskMap[tasks[i].id := tasks[i]];
      assert tasks[..i + 1][..i] == tasks[..i];
    }
    assert tasks[..|tasks|] == tasks;
  }

  /** The validator is exact on normalised candidates: it accepts the well-formed acyclic ones and no other, never
      raises, reports only genuine faults, and reports all of them while the cap is not reached. */
  method Validate(c: CandidateWorkflowSpec, limit: int, cap: int) returns (r: ValidationOutcome)
    ensures Normalised(c) ==> !r.Raised?
    ensures Normalised(c) ==> (r.Success? <==> Conforms(c, limit) && Acyclic(DependencyMap(TaskMap(c.tasks))))
    ensures r.Success? ==>
      && r.spec == ValidatedWorkflowSpec(c.name, TaskMap(c.tasks), c.outputBindings)
      && Mirrors(r.graph, DependencyMap(TaskMap(c.tasks)))
    ensures r.Errors? ==>
      Justified(c, limit, cap, r.errors) && 1 <= |r.errors| && (|r.errors| <= cap || |r.errors| == 1)
  {
    hide Normalised, Conforms, Acyclic, Stuck, Mirrors, Accumulated;
    if c.tasks == [] {
      EmptyIsFault(c, limit);
      return Errors([EmptyWorkflow]);
    }
    var errors, stop, raised := CheckTasks(c, limit, cap);
    if raised {
      RaisedIsAbnormal(c);
      return Raised;
    }
    if stop {
      TasksStopped(c, limit, cap, errors);
      return Errors(errors);
    }
    StillOpen([], errors, cap, e => FaultsBefore(c, limit, |c.tasks|, e));
    ghost var before := errors;
    errors, stop := CheckOutputs(c, errors, cap);
    FaultsJoined(c, limit, before, errors, stop, cap);
    if stop || errors != [] {
      Rejected(c, limit, cap, errors, stop);
      return Errors(errors);
    }
    NothingFound(c, limit, cap, errors);
    var taskMap := BuildTaskMap(c.tasks);
    var built := BuildCanonicalGraphAndVerifyAcyclic(taskMap);
    if built.MissingDependency? {
      if Normalised(c) { ReferencesClosed(c, limit); }
      return Raised;
    }
    if built.cycle.Some? {
      return Errors([CycleDetected(built.cycle.value)]);
    }
    r := Success(ValidatedWorkflowSpec(c.name, taskMap, c.outputBindings), built.graph);
  }

  lemma EmptyIsFault(c: CandidateWorkflowSpec, limit: int)
    requires c.tasks == []
    ensures Fault(c, limit, EmptyWorkflow) && !Conforms(c, limit)
  {
  }

  lemma RaisedIsAbnormal(c: CandidateWorkflowSpec)
    requires exists t | t in c.tasks :: exists d | d in RawOf(c, t.id) :: !ValidId(d)
    ensures !Normalised(c)
  {
  }

  lemma FaultsAreTasks(c: CandidateWorkflowSpec, limit: int, e: ValidationError)
    requires c.tasks != []
    ensures Fault(c, limit, e) <==>
            FaultsBefore(c, limit, |c.tasks|, e) || OutputFault(c, c.outputBindings.Keys, e)
  {
    hide TaskFault, RawOf;
    if FaultsBefore(c, limit, |c.tasks|, e) {
      var k :| 0 <= k < |c.tasks| && TaskFault(Ids(c.tasks), limit, c.tasks[k], RawOf(c, c.tasks[k].id), e);
      assert c.tasks[k] in c.tasks;
    }
    if t :| t in c.tasks && TaskFault(Ids(c.tasks), limit, t, RawOf(c, t.id), e) {
      var k :| 0 <= k < |c.tasks| && c.tasks[k] == t;
      assert FaultsBefore(c, limit, |c.tasks|, e);
    }
  }

  lemma TasksStopped(c: CandidateWorkflowSpec, limit: int, cap: int, errors: seq<ValidationError>)
    requires c.tasks != [] && Accumulated([], errors, true, cap, e => FaultsBefore(c, limit, |c.tasks|, e))
    ensures (forall e | e in errors :: Fault(c, limit, e)) && Full(errors, cap) && !Conforms(c, limit)
  {
    hide Fault, Conforms, FaultsBefore;
    forall e | e in errors ensures Fault(c, limit, e) { FaultsAreTasks(c, limit, e); }
    assert errors[0] in errors;
    FaultFree(c, limit);
  }

  lemma FaultsJoined(
    c: CandidateWorkflowSpec, limit: int, before: seq<ValidationError>, after: seq<ValidationError>, stop: bool,
    cap: int)
    requires c.tasks != []
    requires Accumulated([], before, false, cap, e => FaultsBefore(c, limit, |c.tasks|, e))
    requires Accumulated(before, after, stop, cap, e => OutputFault(c, c.outputBindings.Keys, e))
    ensures Accumulated([], after, stop, cap, e => Fault(c, limit, e))
  {
    hide Accumulated, Fault, FaultsBefore, OutputFault;
    forall e
      ensures Fault(c, limit, e) <==> FaultsBefore(c, limit, |c.tasks|, e) || OutputFault(c, c.outputBindings.Keys, e)
    {
      FaultsAreTasks(c, limit, e);
    }
    Chained([], before, after, stop, cap, e => FaultsBefore(c, limit, |c.tasks|, e),
            e => OutputFault(c, c.outputBindings.Keys, e), e => Fault(c, limit, e));
  }

  lemma Rejected(c: CandidateWorkflowSpec, limit: int, cap: int, errors: seq<ValidationError>, stop: bool)
    requires Accumulated([], errors, stop, cap, e => Fault(c, limit, e)) && (stop || errors != [])
    ensures (forall e | e in errors :: Fault(c, limit, e)) && !Conforms(c, limit)
    ensures 1 <= |errors| && (|errors| <= cap || |errors| == 1)
    ensures Full(errors, cap) || forall e | Fault(c, limit, e) :: e in errors
  {
    hide Fault, Conforms;
    assert errors[0] in errors;
    FaultFree(c, limit);
  }

  lemma NothingFound(c: CandidateWorkflowSpec, limit: int, cap: int, errors: seq<ValidationError>)
    requires Accumulated([], errors, false, cap, e => Fault(c, limit, e)) && errors == []
    ensures Conforms(c, limit)
  {
    hide Fault, Conforms;
    forall e ensures !Fault(c, limit, e) {
      var fault := x => Fault(c, limit, x);
      assert fault(e) ==> e in errors;
    }
    FaultFree(c, limit);
  }
}
