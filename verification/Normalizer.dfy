/** From the structurally valid document to a candidate specification (definition/normalizer.py). */
module Normalizer {
  import opened Wrappers
  import opened JsonCompat
  import opened Spec
  import opened GraphBuilder

  datatype BindingDto = LiteralBindingDto(value: PyValue) | WorkflowInputBindingDto | TaskOutputBindingDto(task: string)

  datatype TaskDto = TaskDto(
    activityType: string,
    dependencies: seq<string>,
    inputBindings: map<string, BindingDto>,
    maxAttempts: int)

  datatype WorkflowDto = WorkflowDto(name: string, tasks: map<string, TaskDto>, outputBindings: map<string, string>)

  // ------------------------------------------------------------------------------ what is let through

  predicate AdmissibleBinding(b: BindingDto) {
    (b.LiteralBindingDto? ==> Compatible(b.value)) && (b.TaskOutputBindingDto? ==> ValidId(b.task))
  }

  predicate AdmissibleTask(name: string, task: TaskDto) {
    && ValidId(name) && ValidId(task.activityType) && 1 <= task.maxAttempts
    && (forall d | d in task.dependencies :: ValidId(d))
    && (forall p | p in task.inputBindings :: AdmissibleBinding(task.inputBindings[p]))
  }

  /** No identifier constructor, TaskDefinition nor freeze_json raises. */
  predicate Admissible(dto: WorkflowDto) {
    && (forall k | k in dto.tasks :: AdmissibleTask(k, dto.tasks[k]))
    && (forall o | o in dto.outputBindings :: ValidId(dto.outputBindings[o]))
  }

  function BindingOf(b: BindingDto): InputBinding {
    match b
    case LiteralBindingDto(v) => LiteralBinding(Frozen(v))
    case WorkflowInputBindingDto => WorkflowInputBinding
    case TaskOutputBindingDto(t) => TaskOutputBinding(t)
  }

  function TaskOf(name: string, task: TaskDto): TaskDefinition {
    TaskDefinition(name, task.activityType, Elements(task.dependencies),
                   map p | p in task.inputBindings :: BindingOf(task.inputBindings[p]), task.maxAttempts)
  }

  ghost predicate Lists(tasks: seq<TaskDefinition>, dtos: map<string, TaskDto>, names: set<string>) {
    && (forall i | 0 <= i < |tasks| ::
          tasks[i].id in names && tasks[i].id in dtos && tasks[i] == TaskOf(tasks[i].id, dtos[tasks[i].id]))
    && (forall i, j | 0 <= i < j < |tasks| :: tasks[i].id != tasks[j].id)
    && (forall k | k in names :: exists i | 0 <= i < |tasks| :: tasks[i].id == k)
  }

  /** The candidate is the document: its tasks in some order, each once, and their dependency lists verbatim. */
  ghost predicate Describes(candidate: CandidateWorkflowSpec, dto: WorkflowDto) {
    && candidate.name == dto.name
    && Lists(candidate.tasks, dto.tasks, dto.tasks.Keys)
    && candidate.rawDependencies == (map k | k in dto.tasks :: dto.tasks[k].dependencies)
    && candidate.outputBindings == dto.outputBindings
  }

  // ------------------------------------------------------------------------------------- the operation

  method NormalizeBindings(bindings: map<string, BindingDto>) returns (r: Option<map<string, InputBinding>>)
    ensures r.Some? <==> forall p | p in bindings :: AdmissibleBinding(bindings[p])
    ensures r.Some? ==> r.value == map p | p in bindings :: BindingOf(bindings[p])
  {
    var result: map<string, InputBinding> := map[];
    var todo := bindings.Keys;
    while todo != {}
      invariant todo <= bindings.Keys && result.Keys == bindings.Keys - todo
      invariant forall p | p in result :: AdmissibleBinding(bindings[p]) && result[p] == BindingOf(bindings[p])
      decreases todo
    {
      var p :| p in todo;
      match bindings[p] {
        case LiteralBindingDto(v) =>
          var frozen := FreezeJson(v);
          if !frozen.Json? {
            assert !AdmissibleBinding(bindings[p]);
            return None;
          }
          result := result[p := LiteralBinding(frozen.value)];
        case WorkflowInputBindingDto =>
          result := result[p := WorkflowInputBinding];
        case TaskOutputBindingDto(task) =>
          if !ValidId(task) {
            assert !AdmissibleBinding(bindings[p]);
            return None;
          }
          result := result[p := TaskOutputBinding(task)];
      }
      todo := todo - {p};
    }
    r := Some(result);
  }

  /** None stands for the ValueError or TypeError of a constructor or of freeze_json. */
  method NormalizeTask(name: string, dto: TaskDto) returns (r: Option<TaskDefinition>)
    ensures r.Some? <==> AdmissibleTask(name, dto)
    ensures r.Some? ==> r.value == TaskOf(name, dto)
  {
    if !ValidId(name) { return None; }
    var bindings := NormalizeBindings(dto.inputBindings);
    if bindings.None? { return None; }
    if !ValidId(dto.activityType) || exists d | d in dto.dependencies :: !ValidId(d) { return None; }
    if dto.maxAttempts < 1 { return None; }
    r := Some(TaskDefinition(name, dto.activityType, Elements(dto.dependencies), bindings.value, dto.maxAttempts));
  }

  /** Normalisation fails exactly on inadmissible documents, and loses nothing of the others. */
  method NormalizeWorkflowDto(dto: WorkflowDto) returns (r: Option<CandidateWorkflowSpec>)
    ensures r.Some? <==> Admissible(dto)
    ensures r.Some? ==> Describes(r.value, dto)
  {
    hide Lists, TaskOf, AdmissibleTask;
    var tasks: seq<TaskDefinition> := [];
    var rawDependencies: map<string, seq<string>> := map[];
    var todo := dto.tasks.Keys;
    ghost var done: set<string> := {};
    NothingListed(dto.tasks);
    while todo != {}
      invariant todo == dto.tasks.Keys - done && done <= dto.tasks.Keys
      invariant Lists(tasks, dto.tasks, done)
      invariant forall k | k in done :: AdmissibleTask(k, dto.tasks[k])
      invariant rawDependencies == map k | k in done :: dto.tasks[k].dependencies
      decreases todo
    {
      var k :| k in todo;
      var task := NormalizeTask(k, dto.tasks[k]);
      if task.None? {
        assert k in dto.tasks && !AdmissibleTask(k, dto.tasks[k]);
        return None;
      }
      ListsNext(tasks, dto.tasks, done, k);
      rawDependencies := rawDependencies[k := dto.tasks[k].dependencies];
      tasks, todo, done := tasks + [task.value], todo - {k}, done + {k};
    }
    assert done == dto.tasks.Keys;
    if exists o | o in dto.outputBindings :: !ValidId(dto.outputBindings[o]) { return None; }
    r := Some(CandidateWorkflowSpec(dto.name, tasks, rawDependencies, dto.outputBindings));
  }

  lemma NothingListed(dtos: map<string, TaskDto>)
    ensures Lists([], dtos, {})
  {
  }

  lemma ListsNext(tasks: seq<TaskDefinition>, dtos: map<string, TaskDto>, names: set<string>, k: string)
    requires Lists(tasks, dtos, names) && k in dtos && k !in names
    ensures Lists(tasks + [TaskOf(k, dtos[k])], dtos, names + {k})
  {
    var tasks' := tasks + [TaskOf(k, dtos[k])];
    forall x | x in names + {k} ensures exists i | 0 <= i < |tasks'| :: tasks'[i].id == x {
      if x == k {
        assert tasks'[|tasks|].id == k;
      } else {
        var i :| 0 <= i < |tasks| && tasks[i].id == x;
        assert tasks'[i].id == x;
      }
    }
  }
}
