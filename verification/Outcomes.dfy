/** What a workflow's state says about its tasks, in every run. */
module Outcomes {
  import opened Wrappers
  import opened Spec
  import opened Rows
  import opened Transactions
  import opened Invariant
  import opened Preservation
  import opened WorkflowMoves
  import opened Protocol
  import opened Ownership

  ghost predicate NoActiveAttempt(db: Db, w: WorkflowId) {
    forall a | a in db.attempts && db.attempts[a].task.workflow == w :: !db.attempts[a].state.Active()
  }

  /** The meaning of the workflow states for the declared tasks. */
  ghost predicate OutcomeSound(db: Db, w: WorkflowId)
    requires w in db.workflows && db.workflows[w].definition in db.definitions
  {
    var s := db.workflows[w].state;
    && (s.Terminal() ==>
          FullMembership(db, w) && AllTasksIn(db, w, TerminalTaskStates) && NoActiveAttempt(db, w))
    && (s.Succeeded? ==> AllTasksIn(db, w, {TaskState.Succeeded}))
    && (s.Failed? || s.Failing? ==> FailureOfSome(db, w, db.workflows[w].failure))
    && (s.Running? || s.Succeeded? || s.Initializing? ==>
          forall t | t in db.tasks && t.workflow == w :: !db.tasks[t].state.Cancelled?)
    && (s.Initializing? ==> AllTasksIn(db, w, {TaskState.Pending}))
  }

  /** Terminal soundness: it holds in every database of every run, with no lock and with stale guards. */
  lemma OutcomesAreSound(trace: seq<Db>, steps: seq<Step>, k: nat, w: WorkflowId)
    requires IsRun(trace, steps) && k <= |steps| && w in trace[k].workflows
    ensures trace[k].workflows[w].definition in trace[k].definitions && OutcomeSound(trace[k], w)
  {
    RunsAreSound(trace, steps);
    SoundOutcome(trace[k], w);
  }

  lemma SoundOutcome(db: Db, w: WorkflowId)
    requires Inv(db) && w in db.workflows
    ensures db.workflows[w].definition in db.definitions && OutcomeSound(db, w)
  {
    TasksAgree(db, w);
    NoneActive(db, w);
  }

  lemma TasksAgree(db: Db, w: WorkflowId)
    requires w in db.workflows && forall t | t in db.tasks :: TaskOk(db, t)
    ensures var s := db.workflows[w].state;
      && (s.Running? || s.Succeeded? || s.Initializing? ==>
            forall t | t in db.tasks && t.workflow == w :: !db.tasks[t].state.Cancelled?)
      && (s.Initializing? ==> AllTasksIn(db, w, {TaskState.Pending}))
  {
    forall t | t in db.tasks && t.workflow == w
      ensures TaskOk(db, t)
    {
    }
  }

  lemma NoneActive(db: Db, w: WorkflowId)
    requires forall a | a in db.attempts :: AttemptOk(db, a)
    ensures AllTasksIn(db, w, TerminalTaskStates) ==> NoActiveAttempt(db, w)
  {
    forall a | a in db.attempts && db.attempts[a].task.workflow == w && AllTasksIn(db, w, TerminalTaskStates)
      ensures !db.attempts[a].state.Active()
    {
      assert AttemptOk(db, a);
      assert db.attempts[a].task in db.tasks;
    }
  }

  /** A terminal workflow is final: its row, its tasks and their number never change again. */
  lemma TerminalIsFinal(trace: seq<Db>, steps: seq<Step>, i: nat, k: nat, w: WorkflowId)
    requires IsRun(trace, steps) && i <= k <= |steps|
    requires w in trace[i].workflows && trace[i].workflows[w].state.Terminal()
    ensures w in trace[k].workflows && trace[k].workflows[w] == trace[i].workflows[w]
    ensures forall t: TaskId | t.workflow == w ::
              (t in trace[k].tasks <==> t in trace[i].tasks)
              && (t in trace[i].tasks ==> trace[k].tasks[t] == trace[i].tasks[t])
  {
    RunsAreSound(trace, steps);
    FinalBetween(trace[i], trace[k], w);
  }

  lemma FinalBetween(s: Db, db: Db, w: WorkflowId)
    requires Inv(s) && Inv(db) && Evolves(s, db) && w in s.workflows && s.workflows[w].state.Terminal()
    ensures w in db.workflows && db.workflows[w] == s.workflows[w]
    ensures forall t: TaskId | t.workflow == w ::
              (t in db.tasks <==> t in s.tasks) && (t in s.tasks ==> db.tasks[t] == s.tasks[t])
  {
    hide TaskOk, LedgerOk, WorkflowOk, AttemptOk;
    SoundOutcome(s, w);
    forall t | t in db.tasks ensures Declared(db, t) { TaskDeclared(db, t); }
    FinalRows(s, db, w);
  }

  lemma FinalRows(s: Db, db: Db, w: WorkflowId)
    requires Evolves(s, db) && forall t | t in db.tasks :: Declared(db, t)
    requires w in s.workflows && s.workflows[w].state.Terminal()
    requires s.workflows[w].definition in s.definitions
    requires FullMembership(s, w) && AllTasksIn(s, w, TerminalTaskStates)
    ensures db.workflows[w] == s.workflows[w]
    ensures forall t: TaskId | t.workflow == w ::
              (t in db.tasks <==> t in s.tasks) && (t in s.tasks ==> db.tasks[t] == s.tasks[t])
  {
    forall t: TaskId | t.workflow == w && t in db.tasks
      ensures t in s.tasks
    {
      assert Declared(db, t);
      assert t == TaskId(w, t.definition);
    }
  }

  /** Startup recovery may test "has some task" where initialisation tests the full task set: on every
      reachable database the two agree for an INITIALIZING workflow. */
  lemma RepairTestIsMembershipTest(trace: seq<Db>, steps: seq<Step>, k: nat, w: WorkflowId)
    requires IsRun(trace, steps) && k <= |steps|
    requires w in trace[k].workflows && trace[k].workflows[w].state.Initializing?
    ensures trace[k].workflows[w].definition in trace[k].definitions
    ensures var names := TaskNames(trace[k], w, AnyTaskState);
      names == {} || names == trace[k].definitions[trace[k].workflows[w].definition].tasks.Keys
  {
    RunsAreSound(trace, steps);
    InitializingMembers(trace[k], w);
  }

  lemma InitializingMembers(db: Db, w: WorkflowId)
    requires w in db.workflows && WorkflowOk(db, w)
    requires forall t | t in db.tasks :: Declared(db, t)
    ensures var names := TaskNames(db, w, AnyTaskState);
      if FullMembership(db, w) then names == db.definitions[db.workflows[w].definition].tasks.Keys else names == {}
  {
    var tasks := db.definitions[db.workflows[w].definition].tasks;
    forall t | t in db.tasks && t.workflow == w ensures t.definition in tasks {
      assert Declared(db, t);
    }
    if FullMembership(db, w) {
      forall d | d in tasks ensures d in TaskNames(db, w, AnyTaskState) {
        var t := TaskId(w, d);
        EveryTaskState(db.tasks[t].state);
      }
    }
  }
}
