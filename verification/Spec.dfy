/** Workflow specifications (domain/spec.py). */
module Spec {
  import opened JsonCompat
  import opened Graph

  datatype InputBinding =
    | LiteralBinding(value: PyValue)
    | WorkflowInputBinding
    | TaskOutputBinding(upstream: string)

  datatype TaskDefinition = TaskDefinition(
    id: string,
    activityType: string,
    dependencies: set<string>,
    inputBindings: map<string, InputBinding>,
    maxAttempts: int)

  /** outputBindings maps an output name to the task whose whole output it carries. */
  datatype ValidatedWorkflowSpec = ValidatedWorkflowSpec(
    name: string,
    tasks: map<string, TaskDefinition>,
    outputBindings: map<string, string>)

  /** Unvalidated: task order and raw dependency lists are as the author wrote them. */
  datatype CandidateWorkflowSpec = CandidateWorkflowSpec(
    name: string,
    tasks: seq<TaskDefinition>,
    rawDependencies: map<string, seq<string>>,
    outputBindings: map<string, string>)

  /** length(trim(name)) = 0, which the table of definitions refuses. */
  predicate Blank(name: string) {
    forall i | 0 <= i < |name| :: name[i] == ' '
  }

  /** What the constructors of TaskDefinitionId and ActivityType (domain/identifiers.py) let through. */
  predicate ValidId(s: string) {
    s != "" && |s| <= 256 && forall i | 0 <= i < |s| :: s[i] !in {'\0', '\r', '\n', '\t'}
  }

  function DependencyMap(tasks: map<string, TaskDefinition>): map<string, set<string>> {
    map k | k in tasks :: tasks[k].dependencies
  }

  ghost predicate WellFormedTask(tasks: map<string, TaskDefinition>, k: string)
    requires k in tasks
  {
    var def := tasks[k];
    && def.id == k
    && 1 <= def.maxAttempts
    && def.dependencies <= tasks.Keys
    && (forall p | p in def.inputBindings && def.inputBindings[p].TaskOutputBinding? ::
          def.inputBindings[p].upstream in def.dependencies)
  }

  /** What ADR-004 guarantees of a validated specification, and what the runtime relies on. */
  ghost predicate ValidSpec(spec: ValidatedWorkflowSpec) {
    && spec.tasks != map[]
    && (forall k | k in spec.tasks :: WellFormedTask(spec.tasks, k))
    && (forall o | o in spec.outputBindings :: spec.outputBindings[o] in spec.tasks)
    && Acyclic(DependencyMap(spec.tasks))
  }
}
