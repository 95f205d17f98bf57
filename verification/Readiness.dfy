/** Task readiness and binding resolution (domain/readiness.py). */
module Readiness {
  import opened Wrappers
  import opened JsonCompat
  import opened Spec
  import opened Rows

  // ------------------------------------------------------------------------------- what it computes

  function ResolveBinding(b: InputBinding, workflowInput: PyValue, outputs: map<string, PyValue>): PyValue {
    match b
    case LiteralBinding(v) => v
    case WorkflowInputBinding => workflowInput
    case TaskOutputBinding(u) => if u in outputs then outputs[u] else PyNone
  }

  predicate Resolvable(def: TaskDefinition, outputs: map<string, PyValue>) {
    && def.dependencies <= outputs.Keys
    && (forall p | p in def.inputBindings && def.inputBindings[p].TaskOutputBinding? ::
          def.inputBindings[p].upstream in outputs)
  }

  /** The stable input of a task whose SUCCEEDED dependencies produced the given outputs; None while some
      dependency or some bound source has none. */
  function ReadyInput(def: TaskDefinition, workflowInput: PyValue, outputs: map<string, PyValue>): Option<JsonObject> {
    if Resolvable(def, outputs) then
      Some(map p | p in def.inputBindings :: ResolveBinding(def.inputBindings[p], workflowInput, outputs))
    else None
  }

  // ---------------------------------------------------------------------------------- the evaluator

  datatype ReadinessReason =
    | Ready
    | WorkflowNotRunning
    | TaskNotPending
    | DependenciesIncomplete
    | DependencyNotSucceeded
    | OutputNotAvailable
    | InputResolutionCorrupt

  datatype DependencySnapshot = DependencySnapshot(state: TaskState, output: Option<PyValue>)

  datatype TaskSnapshot = TaskSnapshot(
    workflowState: WorkflowState,
    workflowInput: PyValue,
    taskState: TaskState,
    definition: TaskDefinition,
    upstream: map<string, DependencySnapshot>)
  {
    /** The outputs of the dependencies that have SUCCEEDED. */
    function Outputs(): map<string, PyValue> {
      map d | d in definition.dependencies && d in upstream && upstream[d].state.Succeeded?
              && upstream[d].output.Some? :: upstream[d].output.value
    }

    predicate DependencyReady(d: string) {
      d in upstream && upstream[d].state.Succeeded? && upstream[d].output.Some?
    }
  }

  datatype ReadinessDecision = ReadinessDecision(resolvedInput: Option<JsonObject>, reason: ReadinessReason) {
    predicate IsReady() { reason.Ready? }
  }

  /** The reason a dependency blocks the task for. */
  function BlockedBy(s: TaskSnapshot, d: string): ReadinessReason {
    if d !in s.upstream then DependenciesIncomplete
    else if !s.upstream[d].state.Succeeded? then DependencyNotSucceeded
    else OutputNotAvailable
  }

  /** The loop over the declared dependencies, in any order, up to the first that is not ready. */
  method CheckDependencies(s: TaskSnapshot) returns (blocked: Option<ReadinessReason>)
    ensures blocked.None? <==> forall d | d in s.definition.dependencies :: s.DependencyReady(d)
    ensures blocked.Some? ==>
      exists d | d in s.definition.dependencies :: !s.DependencyReady(d) && blocked.value == BlockedBy(s, d)
  {
    var todo := s.definition.dependencies;
    while todo != {}
      invariant todo <= s.definition.dependencies
      invariant forall d | d in s.definition.dependencies && d !in todo :: s.DependencyReady(d)
      decreases todo
    {
      var d :| d in todo;
      if d !in s.upstream {
        return Some(DependenciesIncomplete);
      }
      if !s.upstream[d].state.Succeeded? {
        return Some(DependencyNotSucceeded);
      }
      if s.upstream[d].output.None? {
        return Some(OutputNotAvailable);
      }
      todo := todo - {d};
    }
    blocked := None;
  }

  /** A bound source is read from any upstream snapshot that has an output. */
  predicate SourceReadable(s: TaskSnapshot, b: InputBinding) {
    b.TaskOutputBinding? ==> b.upstream in s.upstream && s.upstream[b.upstream].output.Some?
  }

  function SnapshotValue(s: TaskSnapshot, b: InputBinding): PyValue {
    match b
    case LiteralBinding(v) => v
    case WorkflowInputBinding => s.workflowInput
    case TaskOutputBinding(u) => if SourceReadable(s, b) then s.upstream[u].output.value else PyNone
  }

  /** The loop that fills the resolved map, up to the first unreadable source. */
  method ResolveInputs(s: TaskSnapshot) returns (resolved: Option<JsonObject>)
    ensures resolved.Some? <==>
      forall p | p in s.definition.inputBindings :: SourceReadable(s, s.definition.inputBindings[p])
    ensures resolved.Some? ==>
      resolved.value == map p | p in s.definition.inputBindings :: SnapshotValue(s, s.definition.inputBindings[p])
  {
    var bindings := s.definition.inputBindings;
    var result: JsonObject := map[];
    var todo := bindings.Keys;
    while todo != {}
      invariant todo <= bindings.Keys && result.Keys == bindings.Keys - todo
      invariant forall p | p in result :: SourceReadable(s, bindings[p]) && result[p] == SnapshotValue(s, bindings[p])
      decreases todo
    {
      var p :| p in todo;
      if bindings[p].TaskOutputBinding?
         && (bindings[p].upstream !in s.upstream || s.upstream[bindings[p].upstream].output.None?) {
        assert !SourceReadable(s, bindings[p]);
        return None;
      }
      match bindings[p] {
        case LiteralBinding(v) => result := result[p := v];
        case WorkflowInputBinding => result := result[p := s.workflowInput];
        case TaskOutputBinding(u) => result := result[p := s.upstream[u].output.value];
      }
      todo := todo - {p};
    }
    resolved := Some(result);
  }

  /** A snapshot is well formed when every bound source is a declared dependency, as validation guarantees. */
  predicate SourcesDeclared(def: TaskDefinition) {
    forall p | p in def.inputBindings && def.inputBindings[p].TaskOutputBinding? ::
      def.inputBindings[p].upstream in def.dependencies
  }

  /** The reasons the evaluator may give for a snapshot; which dependency it names first is up to set iteration. */
  predicate MayAnswer(s: TaskSnapshot, reason: ReadinessReason) {
    if s.workflowState != WorkflowState.Running then reason.WorkflowNotRunning?
    else if !s.taskState.Pending? then reason.TaskNotPending?
    else if exists d | d in s.definition.dependencies :: !s.DependencyReady(d) then
      exists d | d in s.definition.dependencies :: !s.DependencyReady(d) && reason == BlockedBy(s, d)
    else if exists p | p in s.definition.inputBindings :: !SourceReadable(s, s.definition.inputBindings[p]) then
      reason.InputResolutionCorrupt?
    else reason.Ready?
  }

  method EvaluateTaskReadiness(s: TaskSnapshot) returns (r: ReadinessDecision)
    ensures MayAnswer(s, r.reason)
    ensures r.IsReady() <==> r.resolvedInput.Some?
    ensures r.reason.WorkflowNotRunning? <==> s.workflowState != WorkflowState.Running
    ensures r.reason.TaskNotPending? <==> s.workflowState == WorkflowState.Running && !s.taskState.Pending?
    ensures s.workflowState == WorkflowState.Running && s.taskState.Pending? ==>
      && (r.reason.DependenciesIncomplete? || r.reason.DependencyNotSucceeded? || r.reason.OutputNotAvailable? <==>
          exists d | d in s.definition.dependencies :: !s.DependencyReady(d))
      && (SourcesDeclared(s.definition) ==>
            !r.reason.InputResolutionCorrupt?
            && r.resolvedInput == ReadyInput(s.definition, s.workflowInput, s.Outputs()))
    ensures r.reason.OutputNotAvailable? ==>
      exists d | d in s.upstream :: s.upstream[d].state.Succeeded? && s.upstream[d].output.None?
  {
    if s.workflowState != WorkflowState.Running {
      return ReadinessDecision(None, WorkflowNotRunning);
    }
    if s.taskState != TaskState.Pending {
      return ReadinessDecision(None, TaskNotPending);
    }
    var blocked := CheckDependencies(s);
    if blocked.Some? {
      return ReadinessDecision(None, blocked.value);
    }
    var resolved := ResolveInputs(s);
    if resolved.None? {
      return ReadinessDecision(None, InputResolutionCorrupt);
    }
    if SourcesDeclared(s.definition) {
      ResolvedAgrees(s, resolved.value);
    }
    r := ReadinessDecision(resolved, Ready);
  }

  lemma ResolvedAgrees(s: TaskSnapshot, resolved: JsonObject)
    requires forall d | d in s.definition.dependencies :: s.DependencyReady(d)
    requires SourcesDeclared(s.definition)
    requires resolved == map p | p in s.definition.inputBindings :: SnapshotValue(s, s.definition.inputBindings[p])
    ensures ReadyInput(s.definition, s.workflowInput, s.Outputs()) == Some(resolved)
  {
    var bindings := s.definition.inputBindings;
    assert Resolvable(s.definition, s.Outputs());
    forall p | p in bindings
      ensures ResolveBinding(bindings[p], s.workflowInput, s.Outputs()) == SnapshotValue(s, bindings[p])
    {
      if bindings[p].TaskOutputBinding? { assert s.DependencyReady(bindings[p].upstream); }
    }
    assert ReadyInput(s.definition, s.workflowInput, s.Outputs()).value == resolved;
  }

  // -------------------------------------------------------------------------------- workflow outputs

  datatype OutputResolution = Resolved(output: PyValue) | SourceMissing(name: string)

  /** Resolves the workflow's outputs from the task outputs; a source that is not among them is an error. */
  method ResolveWorkflowOutputs(bindings: map<string, string>, outputs: map<string, PyValue>)
    returns (r: OutputResolution)
    ensures r.Resolved? <==> forall o | o in bindings :: bindings[o] in outputs
    ensures r.Resolved? && bindings == map[] ==> r.output == PyNone
    ensures r.Resolved? && bindings != map[] ==>
      r.output.PyProxy?
      && r.output.entries.Keys == (set o | o in bindings :: StrKey(o))
      && forall o | o in bindings :: r.output.entries[StrKey(o)] == outputs[bindings[o]]
  {
    if bindings == map[] {
      return Resolved(PyNone);
    }
    var result: map<PyKey, PyValue> := map[];
    var todo := bindings.Keys;
    while todo != {}
      invariant todo <= bindings.Keys
      invariant forall o | o in bindings && o !in todo :: bindings[o] in outputs
      invariant result.Keys == set o | o in bindings && o !in todo :: StrKey(o)
      invariant forall o | o in bindings && o !in todo :: result[StrKey(o)] == outputs[bindings[o]]
      decreases todo
    {
      var o :| o in todo;
      if bindings[o] !in outputs {
        return SourceMissing(o);
      }
      result := result[StrKey(o) := outputs[bindings[o]]];
      todo := todo - {o};
    }
    r := Resolved(PyProxy(result));
  }
}
