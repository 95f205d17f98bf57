/** What the theorems about runs say of every store: its log is a run, and whatever its callers do continues it. */
module Guarantees {
  import opened Rows
  import opened Invariant
  import opened Protocol
  import opened Steps
  import opened Outcomes
  import opened Audit
  import opened SuccessOrder
  import opened Progress
  import opened Execution
  import opened Fencing
  import opened Store

  /** After whatever its callers did, the history of a store replays to its rows, its success entries respect the
      dependencies, its workflow states mean what they should, and every commit of it refines the domain transitions. */
  lemma StoreIsARun(store: Store)
    requires store.Valid()
    ensures Replayed(store.Db(), AnyRepair(store.log.steps)) && AllOrdered(store.Db())
    ensures forall w | w in store.workflows ::
              store.workflows[w].definition in store.definitions && OutcomeSound(store.Db(), w)
    ensures forall k | 0 <= k < |store.log.steps| ::
              Refined(store.log.trace[k], store.log.trace[k + 1], store.log.steps[k].now)
  {
    hide Inv, Evolves, Enabled, Perform, Replayed, AllOrdered, OutcomeSound, Refined;
    var trace, steps := store.log.trace, store.log.steps;
    HistoryReplays(trace, steps);
    SuccessesAreOrdered(trace, steps);
    forall w | w in store.workflows
      ensures store.workflows[w].definition in store.definitions && OutcomeSound(store.Db(), w)
    {
      OutcomesAreSound(trace, steps, |steps|, w);
    }
    forall k | 0 <= k < |steps| ensures Refined(trace[k], trace[k + 1], steps[k].now) {
      RunsRefine(trace, steps, k);
    }
  }

  /** Since any earlier moment of a store: a transaction naming an attempt that was terminal by then did nothing, and
      workflows that were terminal have kept their rows and tasks. */
  lemma TerminalSince(store: Store, l: Log)
    requires store.Continues(l)
    ensures forall k, a | |l.steps| <= k < |store.log.steps| && Names(store.log.steps[k].action, a)
                          && a in Last(l.trace).attempts && !Last(l.trace).attempts[a].state.Active() ::
              store.log.trace[k + 1] == store.log.trace[k]
    ensures forall w | w in Last(l.trace).workflows && Last(l.trace).workflows[w].state.Terminal() ::
              && w in store.workflows && store.workflows[w] == Last(l.trace).workflows[w]
              && forall t: TaskId | t.workflow == w ::
                   (t in store.tasks <==> t in Last(l.trace).tasks)
                   && (t in Last(l.trace).tasks ==> store.tasks[t] == Last(l.trace).tasks[t])
  {
    hide Inv, Evolves, Enabled, Perform;
    var trace, steps, i := store.log.trace, store.log.steps, |l.steps|;
    SameLength(store, l);
    assert trace[i] == Last(l.trace);
    forall k, a | i <= k < |steps| && Names(steps[k].action, a)
                  && a in trace[i].attempts && !trace[i].attempts[a].state.Active()
      ensures trace[k + 1] == trace[k]
    {
      TerminalAttemptIsFenced(trace, steps, i, k, a);
    }
    forall w | w in trace[i].workflows && trace[i].workflows[w].state.Terminal()
      ensures w in store.workflows && store.workflows[w] == trace[i].workflows[w]
      ensures forall t: TaskId | t.workflow == w ::
                (t in store.tasks <==> t in trace[i].tasks)
                && (t in trace[i].tasks ==> store.tasks[t] == trace[i].tasks[t])
    {
      TerminalIsFinal(trace, steps, i, |steps|, w);
    }
  }

  /** A log a store continues is itself a run, one database longer than its steps. */
  lemma SameLength(store: Store, l: Log)
    requires store.Continues(l)
    ensures |l.trace| == |l.steps| + 1
  {
  }

  /** While callers insert nothing, their commits since any earlier moment number at most the potential there was. */
  lemma CommitsSince(store: Store, l: Log)
    requires store.Continues(l)
    requires forall j | |l.steps| <= j < |store.log.steps| ::
               var act := store.log.steps[j].action; !act.Register? && !act.Create? && !act.Populate?
    ensures Commits(store.log.trace, store.log.steps, |l.steps|, |store.log.steps|) + Potential(store.Db())
            <= Potential(Last(l.trace))
  {
    hide Inv, Evolves, Enabled, Perform, Potential, Commits;
    SameLength(store, l);
    assert store.log.trace[|l.steps|] == Last(l.trace);
    CommitsAreBounded(store.log.trace, store.log.steps, |l.steps|, |store.log.steps|);
  }
}
