/** What a caller leaves behind when nobody interferes: frames around one workflow, and the resting states. */
module Quiescence {
  import opened Spec
  import opened Rows
  import opened Invariant
  import opened Causality
  import opened Registry

  // ---------------------------------------------------------------------------------------- frames

  /** Only rows of workflow w differ; no workflow or task row is added. */
  ghost predicate Touches(db: Db, db': Db, w: WorkflowId) {
    && db'.definitions == db.definitions
    && db'.workflows.Keys == db.workflows.Keys
    && (forall x | x in db.workflows && x != w :: db'.workflows[x] == db.workflows[x])
    && db'.tasks.Keys == db.tasks.Keys
    && (forall t | t in db.tasks && t.workflow != w :: db'.tasks[t] == db.tasks[t])
    && (forall a | a in db.attempts ::
          a in db'.attempts && db'.attempts[a].task == db.attempts[a].task
          && (db.attempts[a].task.workflow != w ==> db'.attempts[a] == db.attempts[a]))
    && (forall a | a in db'.attempts :: a in db.attempts || db'.attempts[a].task.workflow == w)
  }

  lemma TouchesTransitive(a: Db, b: Db, c: Db, w: WorkflowId)
    requires Touches(a, b, w) && Touches(b, c, w)
    ensures Touches(a, c, w)
  {
  }

  /** Workflow x has the same row, definition and tasks in both. */
  ghost predicate Untouched(db: Db, db': Db, x: WorkflowId) {
    && (x in db.workflows <==> x in db'.workflows)
    && (x in db.workflows ==>
          && db'.workflows[x] == db.workflows[x]
          && var d := db.workflows[x].definition;
          (d in db.definitions <==> d in db'.definitions)
          && (d in db.definitions ==> db'.definitions[d] == db.definitions[d]))
    && forall t: TaskId | t.workflow == x ::
         (t in db.tasks <==> t in db'.tasks) && (t in db.tasks ==> db'.tasks[t] == db.tasks[t])
  }

  lemma UntouchedBy(db: Db, db': Db, w: WorkflowId, x: WorkflowId)
    requires Touches(db, db', w) && x != w
    ensures Untouched(db, db', x)
  {
  }

  lemma UntouchedTransitive(a: Db, b: Db, c: Db, x: WorkflowId)
    requires Untouched(a, b, x) && Untouched(b, c, x)
    ensures Untouched(a, c, x)
  {
  }

  /** A task that changed had not started and is now RUNNABLE or RUNNING. */
  predicate TaskNudged(r: TaskRow, r': TaskRow) {
    r' == r || (r.state.Unstarted() && (r'.state.Runnable? || r'.state.Running?))
  }

  /** Promotions, wake-ups and claims in workflow w: no task enters or leaves a terminal state, no workflow row
      changes, and with no worker registered no attempt is added. */
  ghost predicate Nudged(db: Db, db': Db, w: WorkflowId) {
    && Touches(db, db', w)
    && db'.workflows == db.workflows
    && (forall t | t in db.tasks :: TaskNudged(db.tasks[t], db'.tasks[t]))
  }

  lemma NudgedTransitive(a: Db, b: Db, c: Db, w: WorkflowId)
    requires Nudged(a, b, w) && Nudged(b, c, w)
    ensures Nudged(a, c, w)
  {
    TouchesTransitive(a, b, c, w);
  }

  lemma NudgedMeans(db: Db, db': Db, w: WorkflowId)
    requires Nudged(db, db', w)
    ensures db'.workflows == db.workflows && db'.tasks.Keys == db.tasks.Keys
    ensures forall t | t in db.tasks && db'.tasks[t].state.Pending? :: db.tasks[t].state.Pending?
  {
    forall t | t in db.tasks ensures TaskNudged(db.tasks[t], db'.tasks[t]) {
    }
  }

  lemma NudgedReflexive(db: Db, w: WorkflowId)
    ensures Nudged(db, db, w)
  {
  }

  // ---------------------------------------------------------------------------------- resting states

  ghost predicate RunningTaskOf(db: Db, w: WorkflowId, t: TaskId) {
    t in db.tasks && t.workflow == w && db.tasks[t].state.Running?
  }

  ghost predicate SomeTaskRunning(db: Db, w: WorkflowId) {
    exists t :: RunningTaskOf(db, w, t)
  }

  /** A PENDING task of w still waits for some dependency. */
  ghost predicate Waiting(db: Db, t: TaskId)
    requires t in db.tasks
  {
    db.tasks[t].state.Pending? ==> Declared(db, t) && !DependenciesDone(db, t)
  }

  /** The scheduler owes workflow w nothing: a RUNNING one has no FAILED task, is not finished, and its PENDING
      tasks wait for dependencies; a draining one still has a RUNNING task to wait for. */
  ghost predicate Quiescent(db: Db, w: WorkflowId)
    requires w in db.workflows
  {
    match db.workflows[w].state
    case Initializing => false
    case Running =>
      && !SomeTaskFailed(db, w)
      && !AllTasksIn(db, w, {TaskState.Succeeded})
      && (forall t | t in db.tasks && t.workflow == w :: Waiting(db, t))
    case Failing => SomeTaskRunning(db, w)
    case Cancelling => SomeTaskRunning(db, w)
    case _ => true
  }

  ghost predicate AllQuiescent(db: Db) {
    forall w | w in db.workflows :: Quiescent(db, w)
  }

  /** A workflow whose rows did not change rests as it did. */
  lemma QuiescentKept(db: Db, db': Db, x: WorkflowId)
    requires Untouched(db, db', x) && x in db.workflows && Quiescent(db, x)
    ensures Quiescent(db', x)
  {
    if SomeTaskRunning(db, x) {
      var t :| RunningTaskOf(db, x, t);
      assert RunningTaskOf(db', x, t);
    }
    if SomeTaskFailed(db', x) {
      var t :| FailedTaskOf(db', x, t);
      assert FailedTaskOf(db, x, t);
    }
    if db.workflows[x].state.Running? {
      var t :| t in db.tasks && t.workflow == x && db.tasks[t].state !in {TaskState.Succeeded};
      assert db'.tasks[t].state !in {TaskState.Succeeded};
      forall t | t in db'.tasks && t.workflow == x ensures Waiting(db', t) {
        assert Waiting(db, t);
        if db.tasks[t].state.Pending? { SameDependencies(db, db', t); }
      }
    }
  }

  lemma SameDependencies(db: Db, db': Db, t: TaskId)
    requires Untouched(db, db', t.workflow) && Declared(db, t)
    ensures Declared(db', t) && (DependenciesDone(db', t) <==> DependenciesDone(db, t))
  {
    assert DefinitionOf(db', t) == DefinitionOf(db, t);
    forall d | d in DefinitionOf(db, t).dependencies
      ensures TaskId(t.workflow, d) in db.tasks <==> TaskId(t.workflow, d) in db'.tasks
      ensures TaskId(t.workflow, d) in db.tasks ==> db'.tasks[TaskId(t.workflow, d)] == db.tasks[TaskId(t.workflow, d)]
    {
    }
  }

  lemma AllQuiescentAfter(db: Db, db': Db, w: WorkflowId)
    requires AllQuiescent(db) && Touches(db, db', w)
    requires w in db'.workflows ==> Quiescent(db', w)
    ensures AllQuiescent(db')
  {
    forall x | x in db'.workflows ensures Quiescent(db', x) {
      if x != w {
        UntouchedBy(db, db', w, x);
        QuiescentKept(db, db', x);
      }
    }
  }

  // ---------------------------------------------------------------------------------- served workflows

  /** Workflow w exists, its definition is known, and every task that definition declares has a row. */
  ghost predicate HasItsTasks(db: Db, w: WorkflowId) {
    w in db.workflows && db.workflows[w].definition in db.definitions && FullMembership(db, w)
  }

  lemma HasItsTasksMeans(db: Db, w: WorkflowId)
    ensures HasItsTasks(db, w) <==>
            w in db.workflows && db.workflows[w].definition in db.definitions && FullMembership(db, w)
  {
  }

  predicate DueRetry(r: TaskRow, now: Time) {
    r.state.RetryWait? && r.retryReadyAt.Some? && r.retryReadyAt.value <= now
  }

  ghost predicate NoDueRetry(db: Db, w: WorkflowId, now: Time) {
    forall t | t in db.tasks && t.workflow == w && db.tasks[t].state.RetryWait? && db.tasks[t].retryReadyAt.Some? ::
      now < db.tasks[t].retryReadyAt.value
  }

  /** No RUNNABLE task of w has a session to go to. */
  ghost predicate AllOffered(
    db: Db, registry: WorkerRegistry, w: WorkflowId, definitions: map<string, TaskDefinition>, now: Time)
    reads registry
  {
    forall t | t in db.tasks && t.workflow == w && db.tasks[t].state.Runnable? && t.definition in definitions ::
      registry.NoneEligible(definitions[t.definition].activityType, now)
  }

  /** What an advance at time now leaves of workflow w: a RUNNING one has no due retry and no RUNNABLE task that an
      eligible session could take, and rests unless a task of it FAILED; a draining one rests if it has its tasks. */
  ghost predicate Served(db: Db, registry: WorkerRegistry, w: WorkflowId, now: Time)
    requires w in db.workflows
    reads registry
  {
    && (db.workflows[w].state == WorkflowState.Running ==>
          && NoDueRetry(db, w, now)
          && db.workflows[w].definition in db.definitions
          && AllOffered(db, registry, w, db.definitions[db.workflows[w].definition].tasks, now)
          && (SomeTaskFailed(db, w) || Quiescent(db, w)))
    && (db.workflows[w].state.Draining() && HasItsTasks(db, w) ==> Quiescent(db, w))
  }

  /** A workflow whose rows did not change is as well served as it was. */
  lemma ServedKept(db: Db, db': Db, registry: WorkerRegistry, x: WorkflowId, now: Time)
    requires Untouched(db, db', x) && x in db.workflows && Served(db, registry, x, now)
    ensures Served(db', registry, x, now)
  {
    if Quiescent(db, x) { QuiescentKept(db, db', x); }
    if SomeTaskFailed(db, x) {
      var t :| FailedTaskOf(db, x, t);
      assert FailedTaskOf(db', x, t);
    }
    if HasItsTasks(db', x) { UntouchedMembers(db, db', x); }
  }

  lemma UntouchedMembers(db: Db, db': Db, x: WorkflowId)
    requires Untouched(db, db', x) && HasItsTasks(db', x)
    ensures HasItsTasks(db, x)
  {
  }

  lemma NoDueRetryKept(db: Db, db': Db, w: WorkflowId, now: Time)
    requires Nudged(db, db', w) && NoDueRetry(db, w, now)
    ensures NoDueRetry(db', w, now)
  {
    forall t | t in db'.tasks && t.workflow == w && db'.tasks[t].state.RetryWait? && db'.tasks[t].retryReadyAt.Some?
      ensures now < db'.tasks[t].retryReadyAt.value
    {
      assert TaskNudged(db.tasks[t], db'.tasks[t]);
    }
  }
}
