/** The order in which tasks succeed, as the history records it, is a topological order of the workflow. */
module SuccessOrder {
  import opened Wrappers
  import opened Spec
  import opened Graph
  import opened Rows
  import opened Transactions
  import opened Invariant
  import opened Preservation
  import opened Protocol
  import opened Causality
  import opened Audit

  ghost predicate SuccessAt(h: seq<HistoryEntry>, p: nat, t: TaskId) {
    p < |h| && h[p].event.TaskExecutionSucceeded? && h[p].task == Some(t)
  }

  ghost predicate SucceededBefore(h: seq<HistoryEntry>, p: nat, t: TaskId) {
    exists q: nat :: q < p && SuccessAt(h, q, t)
  }

  lemma {:induction false} SuccessHasEntry(h: seq<HistoryEntry>, t: TaskId)
    requires ReplayTask(h, t).Succeeded?
    ensures SucceededBefore(h, |h|, t)
  {
    var n := |h| - 1;
    if ReplayTask(h[..n], t).Succeeded? && !SuccessAt(h, n, t) {
      SuccessHasEntry(h[..n], t);
      var q: nat :| q < n && SuccessAt(h[..n], q, t);
      assert SuccessAt(h, q, t);
    } else {
      assert SuccessAt(h, n, t);
    }
  }

  /** The entry at p, if it records that t succeeded, comes after the success of each dependency of t. */
  ghost predicate OrderedAt(db: Db, p: nat, t: TaskId) {
    SuccessAt(db.history, p, t) ==>
      && t in db.tasks && Declared(db, t)
      && forall d | d in DefinitionOf(db, t).dependencies ::
           SucceededBefore(db.history, p, TaskId(t.workflow, d))
  }

  ghost predicate AllOrdered(db: Db) {
    forall p: nat, t :: OrderedAt(db, p, t)
  }

  lemma OrderedKept(db: Db, db': Db, p: nat, t: TaskId)
    requires Evolves(db, db') && OrderedAt(db, p, t) && p < |db.history|
    ensures OrderedAt(db', p, t)
  {
    if SuccessAt(db'.history, p, t) {
      assert SuccessAt(db.history, p, t);
      forall d | d in DefinitionOf(db', t).dependencies
        ensures SucceededBefore(db'.history, p, TaskId(t.workflow, d))
      {
        assert SucceededBefore(db.history, p, TaskId(t.workflow, d));
        var q: nat :| q < p && SuccessAt(db.history, q, TaskId(t.workflow, d));
        assert SuccessAt(db'.history, q, TaskId(t.workflow, d));
      }
    }
  }

  lemma NewestOrdered(db: Db, db': Db, t: TaskId)
    requires Logged(db, db') && db'.history != db.history
    requires forall u :: ReplayTask(db.history, u) == TaskStateOf(db, u)
    requires SuccessAt(db'.history, |db'.history| - 1, t)
    requires t in db'.tasks ==> TaskOk(db', t)
    requires t in db'.tasks ==> ValidSpec(db'.definitions[db'.workflows[t.workflow].definition])
    ensures OrderedAt(db', |db'.history| - 1, t)
  {
    var n := |db'.history| - 1;
    assert TaskStateOf(db', t).Succeeded?;
    ResolvedInput(db', t);
    NoSelfDependency(DependencyMap(db'.definitions[db'.workflows[t.workflow].definition].tasks), t.definition);
    forall d | d in DefinitionOf(db', t).dependencies
      ensures SucceededBefore(db'.history, n, TaskId(t.workflow, d))
    {
      var u := TaskId(t.workflow, d);
      assert TaskStateOf(db', u).Succeeded? && u != t;
      SuccessHasEntry(db.history, u);
      var q: nat :| q < |db.history| && SuccessAt(db.history, q, u);
      assert db'.history[..n] == db.history;
      assert SuccessAt(db'.history, q, u);
    }
  }

  lemma OrderedNext(db: Db, db': Db)
    requires AllOrdered(db) && Advances(db, db')
    requires Logged(db, db') || db'.history == db.history
    requires exists repaired :: Replayed(db, repaired)
    ensures AllOrdered(db')
  {
    forall p: nat, t ensures OrderedAt(db', p, t) {
      if p < |db.history| {
        assert OrderedAt(db, p, t);
        OrderedKept(db, db', p, t);
      } else if SuccessAt(db'.history, p, t) {
        NewestOrdered(db, db', t);
      }
    }
  }

  lemma NothingSucceeded()
    ensures AllOrdered(EmptyDb)
  {
  }

  /** In every run, whenever the history records the success of a task, the success of each of its
      dependencies is recorded before it. */
  lemma {:induction false} SuccessesAreOrdered(trace: seq<Db>, steps: seq<Step>)
    requires IsRun(trace, steps)
    ensures AllOrdered(Last(trace))
    decreases |steps|
  {
    hide Inv, Evolves, AllOrdered, Replayed, Logged, Perform, Enabled;
    if steps == [] {
      NothingSucceeded();
    } else {
      var n := |steps| - 1;
      PrefixIsRun(trace, steps, n);
      SuccessesAreOrdered(trace[..n + 1], steps[..n]);
      HistoryReplays(trace[..n + 1], steps[..n]);
      RunsAreSound(trace[..n + 1], steps[..n]);
      StepAdvances(trace[..n + 1], steps[n]);
      StepLogged(trace[..n + 1], steps[n]);
      OrderedNext(trace[n], trace[n + 1]);
    }
  }
}
