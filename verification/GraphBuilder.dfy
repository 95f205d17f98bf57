/**
  The graph builder (domain/graph.py): bidirectional adjacency, Kahn's cycle test, and the deterministic
  topological order. Python's iteration over sets and dictionaries is in any order here.
  */
module GraphBuilder {
  import opened Wrappers
  import opened Graph
  import opened Spec

  datatype CanonicalGraph = CanonicalGraph(nodes: set<string>, dependencies: Dependencies, dependents: Dependencies)
  {
    function Upstream(t: string): set<string> {
      if t in dependencies then dependencies[t] else {}
    }

    function Downstream(t: string): set<string> {
      if t in dependents then dependents[t] else {}
    }
  }

  /** The graph holds exactly the given dependencies, and its two adjacency maps are inverse to each other. */
  ghost predicate Mirrors(graph: CanonicalGraph, deps: Dependencies) {
    && graph.nodes == deps.Keys && graph.dependencies == deps && Closed(deps)
    && Inverse(deps, graph.dependents)
  }

  ghost predicate Inverse(deps: Dependencies, dependents: Dependencies) {
    && dependents.Keys == deps.Keys
    && forall d | d in dependents :: dependents[d] == set k | k in deps && d in deps[k]
  }

  // ------------------------------------------------------------------------ what Kahn's reduction computes

  function Elements(s: seq<string>): set<string> {
    set i | 0 <= i < |s| :: s[i]
  }

  predicate Distinct(s: seq<string>) {
    forall i, j | 0 <= i < j < |s| :: s[i] != s[j]
  }

  /** Every task comes after all its dependencies. */
  ghost predicate Ordered(deps: Dependencies, order: seq<string>) {
    forall i | 0 <= i < |order| :: order[i] in deps && deps[order[i]] <= Elements(order[..i])
  }

  /** No dependency-closed order ever enters a set that always leads back into itself. */
  lemma {:induction false} OrderAvoids(deps: Dependencies, order: seq<string>, s: set<string>, i: nat)
    requires Ordered(deps, order) && Inescapable(deps, s) && i < |order|
    ensures order[i] !in s
  {
    if order[i] in s {
      var d :| d in deps[order[i]] * s;
      var j :| 0 <= j < i && order[j] == d;
      OrderAvoids(deps, order, s, j);
    }
  }

  lemma CycleIsInescapable(deps: Dependencies, path: seq<string>)
    requires IsCycle(deps, path)
    ensures Inescapable(deps, Elements(path)) && Elements(path) != {}
  {
    assert path[0] in Elements(path);
    forall k | k in Elements(path) ensures k in deps && deps[k] * Elements(path) != {} {
      var i :| 0 <= i < |path| && path[i] == k;
      var p := if i < |path| - 1 then i else 0;
      assert path[p] == k && path[p + 1] in deps[path[p]];
      assert path[p + 1] in Elements(path);
      assert path[p + 1] in deps[k] * Elements(path);
    }
  }

  /** An order of all tasks in which dependencies come first exists only in an acyclic graph. */
  lemma OrderedIsAcyclic(deps: Dependencies, order: seq<string>)
    requires Ordered(deps, order) && deps.Keys <= Elements(order)
    ensures Acyclic(deps)
  {
    forall path ensures !IsCycle(deps, path) {
      if IsCycle(deps, path) {
        CycleIsInescapable(deps, path);
        assert path[0] in Elements(path);
        var i :| 0 <= i < |order| && order[i] == path[0];
        OrderAvoids(deps, order, Elements(path), i);
      }
    }
  }

  /** How many of the dependencies are not done. */
  function Missing(dependencies: set<string>, done: set<string>): nat {
    |dependencies - done|
  }

  /** The state of the reduction: order is what left the queue, and in-degrees count what is still missing. */
  ghost predicate Reducing(deps: Dependencies, order: seq<string>, queue: seq<string>, inDegree: map<string, int>) {
    && Distinct(order + queue) && Ordered(deps, order)
    && inDegree.Keys == deps.Keys
    && (forall n | n in deps :: inDegree[n] == Missing(deps[n], Elements(order)))
    && (forall n :: n in order + queue <==> n in deps && deps[n] <= Elements(order))
  }

  /** The tasks the reduction cannot reach: s leads back into itself, and every such set lies within it. */
  ghost predicate Stuck(deps: Dependencies, s: set<string>) {
    Inescapable(deps, s) && forall x | Inescapable(deps, x) :: x <= s
  }

  lemma ReductionEnds(deps: Dependencies, order: seq<string>, inDegree: map<string, int>)
    requires Closed(deps) && Reducing(deps, order, [], inDegree)
    ensures Stuck(deps, set n | n in deps && inDegree[n] > 0)
    ensures Distinct(order) && Ordered(deps, order)
    ensures |order| == |deps.Keys| <==> Acyclic(deps)
  {
    hide Missing, Elements, Distinct, Ordered, Acyclic, Inescapable;
    var rest := deps.Keys - Elements(order);
    assert order + [] == order;
    RestIsStuck(deps, order);
    CompleteIffAcyclic(deps, order, rest);
    forall n | n in deps ensures inDegree[n] > 0 <==> n in rest {
      InElements(order, n);
      ZeroMeansDone(deps[n], Elements(order));
    }
    assert rest == set n | n in deps && inDegree[n] > 0;
  }

  lemma InElements(s: seq<string>, x: string)
    ensures x in s <==> x in Elements(s)
  {
  }

  lemma RestIsStuck(deps: Dependencies, order: seq<string>)
    requires Closed(deps) && Ordered(deps, order)
    requires forall n :: n in order <==> n in deps && deps[n] <= Elements(order)
    ensures Stuck(deps, deps.Keys - Elements(order))
  {
    var rest := deps.Keys - Elements(order);
    forall n | n in rest ensures deps[n] * rest != {} {
      assert n !in order;
      var d :| d in deps[n] && d !in Elements(order);
      assert d in deps[n] * rest;
    }
    forall s | Inescapable(deps, s) ensures s <= rest {
      forall k | k in s ensures k in rest {
        if k in Elements(order) {
          var i :| 0 <= i < |order| && order[i] == k;
          OrderAvoids(deps, order, s, i);
        }
      }
    }
  }

  lemma {:induction false} DistinctCount(s: seq<string>)
    requires Distinct(s)
    ensures |Elements(s)| == |s|
  {
    if s != [] {
      var n := |s| - 1;
      DistinctCount(s[..n]);
      assert Elements(s) == Elements(s[..n]) + {s[n]};
      assert s[n] !in Elements(s[..n]);
    }
  }

  lemma CompleteIffAcyclic(deps: Dependencies, order: seq<string>, rest: set<string>)
    requires Ordered(deps, order) && Distinct(order)
    requires rest == deps.Keys - Elements(order) && Inescapable(deps, rest)
    ensures |order| == |deps.Keys| <==> Acyclic(deps)
  {
    DistinctCount(order);
    assert Elements(order) <= deps.Keys;
    assert deps.Keys == Elements(order) + rest;
    if rest == {} {
      OrderedIsAcyclic(deps, order);
    } else {
      InescapableHasCycle(deps, rest);
      assert |rest| > 0;
    }
  }

  // ------------------------------------------------------------------------------------- the reduction

  /** The members of candidates, in their order, whose dependencies are all in done. */
  function Released(deps: Dependencies, candidates: seq<string>, done: set<string>): seq<string>
    requires forall c | c in candidates :: c in deps
  {
    if candidates == [] then []
    else
      var n := |candidates| - 1;
      Released(deps, candidates[..n], done) + if deps[candidates[n]] <= done then [candidates[n]] else []
  }

  lemma {:induction false} ReleasedMembers(deps: Dependencies, candidates: seq<string>, done: set<string>)
    requires forall c | c in candidates :: c in deps
    requires Distinct(candidates)
    ensures Distinct(Released(deps, candidates, done))
    ensures forall x :: x in Released(deps, candidates, done) <==> x in candidates && deps[x] <= done
  {
    if candidates != [] {
      var n := |candidates| - 1;
      ReleasedMembers(deps, candidates[..n], done);
      assert candidates == candidates[..n] + [candidates[n]];
      var before := Released(deps, candidates[..n], done);
      assert candidates[n] !in before;
    }
  }

  /** The inner loop: one dependency of each downstream task is done; those that lack no other join the queue. */
  method Release(
    ghost deps: Dependencies, ghost done: set<string>, current: string, downstream: seq<string>,
    queue: seq<string>, inDegree: map<string, int>)
    returns (queue': seq<string>, inDegree': map<string, int>)
    requires current !in done && Distinct(downstream)
    requires inDegree.Keys == deps.Keys && forall n | n in deps :: inDegree[n] == Missing(deps[n], done)
    requires forall n | n in downstream :: n in deps && current in deps[n]
    ensures inDegree'.Keys == deps.Keys
    ensures forall n | n in deps ::
              inDegree'[n] == if n in downstream then Missing(deps[n], done + {current}) else inDegree[n]
    ensures queue' == queue + Released(deps, downstream, done + {current})
  {
    hide Released, Missing;
    queue', inDegree' := queue, inDegree;
    ghost var after := done + {current};
    var i := 0;
    ReleasedNext(deps, downstream, 0, after);
    while i < |downstream|
      invariant i <= |downstream| && inDegree'.Keys == deps.Keys
      invariant forall j | 0 <= j < i :: inDegree'[downstream[j]] == Missing(deps[downstream[j]], after)
      invariant forall j | i <= j < |downstream| :: inDegree'[downstream[j]] == Missing(deps[downstream[j]], done)
      invariant forall n | n in deps && n !in downstream :: inDegree'[n] == inDegree[n]
      invariant queue' == queue + Released(deps, downstream[..i], after)
    {
      var n := downstream[i];
      assert n in downstream;
      OneFewer(deps[n], done, current);
      ReleasedNext(deps, downstream, i, after);
      inDegree' := inDegree'[n := inDegree'[n] - 1];
      if inDegree'[n] == 0 {
        queue' := queue' + [n];
      }
      i := i + 1;
    }
    assert downstream[..i] == downstream;
  }

  lemma ReleasedNext(deps: Dependencies, candidates: seq<string>, i: nat, done: set<string>)
    requires forall c | c in candidates :: c in deps
    requires i <= |candidates|
    ensures Released(deps, candidates[..0], done) == []
    ensures i < |candidates| ==>
      Released(deps, candidates[..i + 1], done) ==
      Released(deps, candidates[..i], done) + if deps[candidates[i]] <= done then [candidates[i]] else []
  {
    if i < |candidates| { assert candidates[..i + 1][..i] == candidates[..i]; }
  }

  lemma OneFewer(s: set<string>, done: set<string>, x: string)
    requires x in s && x !in done
    ensures Missing(s, done + {x}) == Missing(s, done) - 1
    ensures Missing(s, done + {x}) == 0 <==> s <= done + {x}
  {
    assert s - done == (s - (done + {x})) + {x};
    ZeroMeansDone(s, done + {x});
  }

  lemma ZeroMeansDone(s: set<string>, done: set<string>)
    ensures Missing(s, done) == 0 <==> s <= done
  {
    if |s - done| == 0 { assert s - done == {}; assert forall x | x in s :: x !in s - done; }
  }

  /** One turn of the outer loop keeps the reduction's state. */
  lemma ReductionStep(
    deps: Dependencies, order: seq<string>, queue: seq<string>, inDegree: map<string, int>,
    downstream: seq<string>, queue': seq<string>, inDegree': map<string, int>)
    requires Reducing(deps, order, queue, inDegree) && queue != []
    requires Distinct(downstream) && forall n :: n in downstream <==> n in deps && queue[0] in deps[n]
    requires inDegree'.Keys == deps.Keys
    requires forall n | n in deps :: inDegree'[n] ==
               if n in downstream then Missing(deps[n], Elements(order) + {queue[0]}) else inDegree[n]
    requires queue' == queue[1..] + Released(deps, downstream, Elements(order) + {queue[0]})
    ensures Reducing(deps, order + [queue[0]], queue', inDegree')
  {
    hide Released, Elements, Ordered, Distinct, Missing;
    var current := queue[0];
    var done := Elements(order) + {current};
    ReleasedMembers(deps, downstream, done);
    ElementsAppend(order, current);
    assert current in order + queue;
    StepOrdered(deps, order, current);
    StepQueue(deps, order, queue, Released(deps, downstream, done), downstream);
    forall n | n in deps ensures inDegree'[n] == Missing(deps[n], done) {
      if n !in downstream { SameMissing(deps[n], Elements(order), current); }
    }
  }

  lemma SameMissing(s: set<string>, done: set<string>, x: string)
    requires x !in s
    ensures Missing(s, done + {x}) == Missing(s, done)
  {
    assert s - (done + {x}) == s - done;
  }

  lemma ElementsAppend(s: seq<string>, x: string)
    ensures Elements(s + [x]) == Elements(s) + {x}
  {
    assert (s + [x])[|s|] == x && forall i | 0 <= i < |s| :: (s + [x])[i] == s[i];
  }

  lemma StepOrdered(deps: Dependencies, order: seq<string>, current: string)
    requires Ordered(deps, order) && current in deps && deps[current] <= Elements(order)
    ensures Ordered(deps, order + [current])
  {
    var order' := order + [current];
    forall i | 0 <= i < |order'| ensures order'[i] in deps && deps[order'[i]] <= Elements(order'[..i]) {
      assert order'[..i] == order[..i];
      if i == |order| { assert order[..i] == order; }
    }
  }

  lemma StepQueue(
    deps: Dependencies, order: seq<string>, queue: seq<string>, released: seq<string>, downstream: seq<string>)
    requires queue != [] && Distinct(order + queue) && Distinct(released)
    requires forall n :: n in order + queue <==> n in deps && deps[n] <= Elements(order)
    requires forall n :: n in downstream <==> n in deps && queue[0] in deps[n]
    requires forall x :: x in released <==> x in downstream && deps[x] <= Elements(order) + {queue[0]}
    ensures Distinct((order + [queue[0]]) + (queue[1..] + released))
    ensures forall n :: n in (order + [queue[0]]) + (queue[1..] + released) <==>
                        n in deps && deps[n] <= Elements(order) + {queue[0]}
  {
    assert (order + [queue[0]]) + (queue[1..] + released) == (order + queue) + released;
    forall i | 0 <= i < |order| ensures order[i] != queue[0] {
      assert (order + queue)[i] == order[i] && (order + queue)[|order|] == queue[0];
    }
    forall x | x in released ensures x !in order + queue {
      assert queue[0] in deps[x] && queue[0] !in Elements(order);
    }
    DistinctAppend(order + queue, released);
  }

  lemma DistinctAppend(s: seq<string>, t: seq<string>)
    requires Distinct(s) && Distinct(t) && forall x | x in t :: x !in s
    ensures Distinct(s + t)
  {
    forall i, j | 0 <= i < j < |s + t| ensures (s + t)[i] != (s + t)[j] {
      if j >= |s| { assert (s + t)[j] in t; }
    }
  }

  // ------------------------------------------------------------------------------------- the builder

  /** Missing: the ValueError for a dependency that names no task. Built: the graph, and the tasks reported as
      involved in a cycle, if there is one. */
  datatype BuildOutcome =
    | MissingDependency(task: string, dependency: string)
    | Built(graph: CanonicalGraph, cycle: Option<set<string>>)

  function NoEdges(nodes: set<string>): Dependencies {
    map n | n in nodes :: {}
  }

  /** The adjacency maps agree, and the in-degrees count the dependencies. */
  ghost predicate Linked(dependencies: Dependencies, dependents: Dependencies, inDegree: map<string, int>) {
    && Inverse(dependencies, dependents) && inDegree.Keys == dependencies.Keys
    && forall k | k in dependencies :: inDegree[k] == |dependencies[k]|
  }

  lemma AddEdge(dependencies: Dependencies, dependents: Dependencies, inDegree: map<string, int>, k: string, d: string)
    requires Linked(dependencies, dependents, inDegree)
    requires k in dependencies && d in dependencies && d !in dependencies[k]
    ensures Linked(dependencies[k := dependencies[k] + {d}], dependents[d := dependents[d] + {k}],
                   inDegree[k := inDegree[k] + 1])
  {
  }

  /** Adds the edges of one task, or finds a dependency that is not a task. */
  method LinkTask(
    task: string, taskDependencies: set<string>, dependencies: Dependencies, dependents: Dependencies,
    inDegree: map<string, int>)
    returns (missing: Option<string>, dependencies': Dependencies, dependents': Dependencies,
             inDegree': map<string, int>)
    requires Linked(dependencies, dependents, inDegree) && task in dependencies && dependencies[task] == {}
    ensures missing.None? ==>
      && taskDependencies <= dependencies.Keys && Linked(dependencies', dependents', inDegree')
      && dependencies' == dependencies[task := taskDependencies]
    ensures missing.Some? ==> missing.value in taskDependencies && missing.value !in dependencies
  {
    hide Linked;
    missing, dependencies', dependents', inDegree' := None, dependencies, dependents, inDegree;
    var edges := taskDependencies;
    LinkedKeys(dependencies, dependents, inDegree);
    assert taskDependencies - edges == {};
    while edges != {}
      invariant edges <= taskDependencies && taskDependencies - edges <= dependencies.Keys
      invariant dependencies' == dependencies[task := taskDependencies - edges]
      invariant Linked(dependencies', dependents', inDegree')
      decreases edges
    {
      var d :| d in edges;
      LinkedKeys(dependencies', dependents', inDegree');
      if d !in dependencies' {
        missing := Some(d);
        return;
      }
      AddEdge(dependencies', dependents', inDegree', task, d);
      assert taskDependencies - (edges - {d}) == (taskDependencies - edges) + {d};
      dependencies' := dependencies'[task := dependencies'[task] + {d}];
      dependents' := dependents'[d := dependents'[d] + {task}];
      inDegree' := inDegree'[task := inDegree'[task] + 1];
      edges := edges - {d};
    }
    assert taskDependencies - edges == taskDependencies;
  }

  lemma LinkedKeys(dependencies: Dependencies, dependents: Dependencies, inDegree: map<string, int>)
    requires Linked(dependencies, dependents, inDegree)
    ensures dependents.Keys == inDegree.Keys == dependencies.Keys
  {
  }

  /** Any enumeration of a set. */
  method Enumerate(s: set<string>) returns (r: seq<string>)
    ensures Distinct(r) && forall x :: x in r <==> x in s
  {
    r := [];
    var todo := s;
    while todo != {}
      invariant todo <= s && Distinct(r) && forall x :: x in r <==> x in s && x !in todo
      decreases todo
    {
      var x :| x in todo;
      r, todo := r + [x], todo - {x};
    }
  }

  /** Step 1: both adjacency maps and the in-degrees, or the ValueError for an unknown dependency. */
  method LinkTasks(tasks: map<string, TaskDefinition>)
    returns (missing: Option<(string, string)>, dependencies: Dependencies, dependents: Dependencies,
             inDegree: map<string, int>)
    ensures missing.None? ==>
      && dependencies == DependencyMap(tasks) && Closed(dependencies)
      && Linked(dependencies, dependents, inDegree)
    ensures missing.Some? ==>
      var (task, d) := missing.value; task in tasks && d in tasks[task].dependencies && d !in tasks
  {
    hide Linked;
    missing := None;
    dependencies, dependents := NoEdges(tasks.Keys), NoEdges(tasks.Keys);
    inDegree := map t | t in tasks :: 0;
    NothingLinked(tasks.Keys, inDegree);
    var todo := tasks.Keys;
    while todo != {}
      invariant todo <= tasks.Keys && Linked(dependencies, dependents, inDegree)
      invariant dependencies.Keys == tasks.Keys
      invariant forall k | k in tasks :: dependencies[k] == if k in todo then {} else tasks[k].dependencies
      invariant forall k | k in tasks && k !in todo :: tasks[k].dependencies <= tasks.Keys
      decreases todo
    {
      var task :| task in todo;
      var unknown;
      unknown, dependencies, dependents, inDegree :=
        LinkTask(task, tasks[task].dependencies, dependencies, dependents, inDegree);
      if unknown.Some? {
        missing := Some((task, unknown.value));
        return;
      }
      todo := todo - {task};
    }
  }

  /** Kahn's algorithm is exact: whatever the iteration order, it reports a cycle exactly when there is one, and
      what it reports is the largest set of tasks each of which waits for another member. */
  method BuildCanonicalGraphAndVerifyAcyclic(tasks: map<string, TaskDefinition>) returns (r: BuildOutcome)
    ensures r.Built? <==> Closed(DependencyMap(tasks))
    ensures r.Built? ==> Mirrors(r.graph, DependencyMap(tasks))
    ensures r.Built? ==> (r.cycle.None? <==> Acyclic(DependencyMap(tasks)))
    ensures r.Built? && r.cycle.Some? ==> Stuck(DependencyMap(tasks), r.cycle.value)
    ensures r.MissingDependency? ==>
      r.task in tasks && r.dependency in tasks[r.task].dependencies && r.dependency !in tasks
  {
    hide Linked, Stuck, Reducing, Acyclic, Inverse, Elements, Distinct;
    var missing, dependencies, dependents, inDegree := LinkTasks(tasks);
    if missing.Some? {
      assert missing.value.1 in DependencyMap(tasks)[missing.value.0];
      return MissingDependency(missing.value.0, missing.value.1);
    }
    LinkedMeans(dependencies, dependents, inDegree);
    var roots := Enumerate(set t | t in tasks && inDegree[t] == 0);
    ghost var order;
    var visitedCount;
    order, visitedCount, inDegree := Reduce(dependencies, dependents, roots, inDegree);
    ReductionKeys(dependencies, order, inDegree);
    ReductionEnds(dependencies, order, inDegree);
    var graph := CanonicalGraph(tasks.Keys, dependencies, dependents);
    if visitedCount != |graph.nodes| {
      return Built(graph, Some(set t | t in tasks && inDegree[t] > 0));
    }
    r := Built(graph, None);
  }

  lemma ReductionKeys(deps: Dependencies, order: seq<string>, inDegree: map<string, int>)
    requires Reducing(deps, order, [], inDegree)
    ensures inDegree.Keys == deps.Keys
  {
  }

  lemma NothingLinked(nodes: set<string>, inDegree: map<string, int>)
    requires inDegree.Keys == nodes && forall n | n in nodes :: inDegree[n] == 0
    ensures Linked(NoEdges(nodes), NoEdges(nodes), inDegree)
  {
  }

  lemma LinkedMeans(deps: Dependencies, dependents: Dependencies, inDegree: map<string, int>)
    requires Linked(deps, dependents, inDegree)
    ensures Inverse(deps, dependents) && inDegree.Keys == deps.Keys
    ensures forall n | n in deps :: inDegree[n] == |deps[n]|
  {
  }

  lemma RootsReduce(deps: Dependencies, roots: seq<string>, inDegree: map<string, int>)
    requires inDegree.Keys == deps.Keys && forall n | n in deps :: inDegree[n] == |deps[n]|
    requires Distinct(roots) && forall n :: n in roots <==> n in deps && inDegree[n] == 0
    ensures Reducing(deps, [], roots, inDegree)
  {
    assert [] + roots == roots && Elements([]) == {};
    forall n | n in deps ensures inDegree[n] == Missing(deps[n], {}) && (inDegree[n] == 0 <==> deps[n] <= {}) {
      assert deps[n] - {} == deps[n];
      ZeroMeansDone(deps[n], {});
    }
  }

  /** One turn of Kahn's loop: the head leaves the queue, and its downstream tasks, in the order given, lose one
      dependency each. */
  method TakeNext(
    ghost deps: Dependencies, ghost order: seq<string>, queue: seq<string>, inDegree: map<string, int>,
    downstream: seq<string>)
    returns (queue': seq<string>, inDegree': map<string, int>)
    requires Reducing(deps, order, queue, inDegree) && queue != []
    requires Distinct(downstream) && forall n :: n in downstream <==> n in deps && queue[0] in deps[n]
    ensures Reducing(deps, order + [queue[0]], queue', inDegree')
    ensures |order| < |deps|
    ensures queue' == queue[1..] + Released(deps, downstream, Elements(order) + {queue[0]})
  {
    hide Distinct, Elements, Ordered, Missing, Released;
    Dequeues(deps, order, queue, inDegree);
    queue', inDegree' := Release(deps, Elements(order), queue[0], downstream, queue[1..], inDegree);
    ReductionStep(deps, order, queue, inDegree, downstream, queue', inDegree');
  }

  /** Kahn's loop, counting the tasks that leave the queue. */
  method Reduce(ghost deps: Dependencies, dependents: Dependencies, roots: seq<string>, inDegree: map<string, int>)
    returns (ghost order: seq<string>, visitedCount: nat, inDegree': map<string, int>)
    requires Inverse(deps, dependents)
    requires inDegree.Keys == deps.Keys && forall n | n in deps :: inDegree[n] == |deps[n]|
    requires Distinct(roots) && forall n :: n in roots <==> n in deps && inDegree[n] == 0
    ensures Reducing(deps, order, [], inDegree') && visitedCount == |order|
  {
    hide Distinct, Elements, Ordered, Missing, Released, Reducing;
    RootsReduce(deps, roots, inDegree);
    var queue := roots;
    order, visitedCount, inDegree' := [], 0, inDegree;
    ghost var left: nat := |deps|;
    while queue != []
      invariant Reducing(deps, order, queue, inDegree') && visitedCount == |order|
      invariant |order| + left == |deps|
      decreases left
    {
      var current := queue[0];
      Dequeues(deps, order, queue, inDegree');
      var downstream := Enumerate(dependents[current]);
      queue, inDegree' := TakeNext(deps, order, queue, inDegree', downstream);
      order, visitedCount, left := order + [current], visitedCount + 1, left - 1;
    }
  }

  lemma Dequeues(deps: Dependencies, order: seq<string>, queue: seq<string>, inDegree: map<string, int>)
    requires Reducing(deps, order, queue, inDegree) && queue != []
    ensures queue[0] in deps && queue[0] !in Elements(order) && |order| < |deps|
  {
    assert (order + queue)[|order|] == queue[0] && queue[0] in order + queue;
    forall i | 0 <= i < |order| ensures order[i] != queue[0] {
      assert (order + queue)[i] == order[i];
    }
    DistinctCount(order + queue);
    SubsetSize(deps.Keys, Elements(order + queue));
    assert |deps.Keys| == |deps|;
  }

  // ----------------------------------------------------------------- the deterministic topological order

  /** Python's order on strings: by code points, left to right. */
  predicate Before(s: string, t: string) {
    t != [] && (s == [] || s[0] < t[0] || (s[0] == t[0] && Before(s[1..], t[1..])))
  }

  lemma {:induction false} BeforeIsTotal(s: string, t: string)
    ensures s == t || Before(s, t) || Before(t, s)
    ensures !(Before(s, t) && Before(t, s)) && !Before(s, s)
    decreases |s|
  {
    if s != [] {
      BeforeIsTotal(s[1..], s[1..]);
      if t != [] {
        BeforeIsTotal(s[1..], t[1..]);
        assert s == [s[0]] + s[1..] && t == [t[0]] + t[1..];
      }
    }
  }

  lemma {:induction false} BeforeIsTransitive(s: string, t: string, u: string)
    requires Before(s, t) && Before(t, u)
    ensures Before(s, u)
    decreases |s|
  {
    if s != [] && s[0] == t[0] == u[0] {
      BeforeIsTransitive(s[1..], t[1..], u[1..]);
    }
  }

  predicate IsLeast(m: string, s: set<string>) {
    m in s && forall x | x in s :: x == m || Before(m, x)
  }

  lemma {:induction false} LeastExists(s: set<string>)
    requires s != {}
    ensures exists m :: IsLeast(m, s)
  {
    var x :| x in s;
    if s == {x} {
      assert IsLeast(x, s);
    } else {
      LeastExists(s - {x});
      var m :| IsLeast(m, s - {x});
      BeforeIsTotal(m, x);
      if Before(m, x) {
        assert IsLeast(m, s);
      } else {
        forall y | y in s - {x} ensures Before(x, y) {
          if y != m { BeforeIsTransitive(x, m, y); }
        }
        assert IsLeast(x, s);
      }
    }
  }

  /** sorted(...) on a set of names. */
  function Sorted(s: set<string>): (r: seq<string>)
    ensures Distinct(r) && forall x :: x in r <==> x in s
  {
    if s == {} then []
    else
      assert exists m :: IsLeast(m, s) by { LeastExists(s); }
      assert forall m, n | IsLeast(m, s) && IsLeast(n, s) :: m == n by {
        forall m, n | IsLeast(m, s) && IsLeast(n, s) ensures m == n { BeforeIsTotal(m, n); }
      }
      var m :| m in s && IsLeast(m, s);
      [m] + Sorted(s - {m})
  }

  lemma {:induction false} SortedAscends(s: set<string>, i: nat, j: nat)
    requires i < j < |Sorted(s)|
    ensures Before(Sorted(s)[i], Sorted(s)[j])
  {
    var m :| IsLeast(m, s) && Sorted(s) == [m] + Sorted(s - {m});
    if i == 0 {
      assert Sorted(s)[j] == Sorted(s - {m})[j - 1] && Sorted(s)[j] in Sorted(s - {m});
    } else {
      SortedAscends(s - {m}, i - 1, j - 1);
    }
  }

  function DependentsOf(deps: Dependencies, d: string): set<string> {
    set k | k in deps && d in deps[k]
  }

  function Roots(deps: Dependencies): set<string> {
    set t | t in deps && deps[t] == {}
  }

  /** The order the queue empties in, from a state of the reduction, within n more steps. */
  function OrderFrom(deps: Dependencies, order: seq<string>, queue: seq<string>, n: nat): seq<string>
    decreases n
  {
    if n == 0 || queue == [] then order
    else
      OrderFrom(deps, order + [queue[0]],
                queue[1..] + Released(deps, Sorted(DependentsOf(deps, queue[0])), Elements(order) + {queue[0]}), n - 1)
  }

  /** The topological order as a function of the dependencies alone. */
  function TopologicalOrder(deps: Dependencies): seq<string> {
    OrderFrom(deps, [], Sorted(Roots(deps)), |deps|)
  }

  /** The order depends on the graph only, has every task after its dependencies and none twice, and has all of
      them exactly when the graph is acyclic. */
  method ComputeDeterministicTopologicalOrder(graph: CanonicalGraph, ghost deps: Dependencies)
    returns (order: seq<string>)
    requires Mirrors(graph, deps)
    ensures order == TopologicalOrder(deps)
    ensures Distinct(order) && Ordered(deps, order)
    ensures Acyclic(deps) <==> Elements(order) == graph.nodes
  {
    hide Distinct, Elements, Ordered, Missing, Acyclic, Before, Stuck, Reducing, Inverse, Sorted, OrderFrom;
    var inDegree := map t | t in graph.nodes :: |graph.Upstream(t)|;
    assert (set t | t in graph.nodes && inDegree[t] == 0) == Roots(deps);
    var queue := Sorted(set t | t in graph.nodes && inDegree[t] == 0);
    RootsReduce(deps, queue, inDegree);
    order, inDegree := ReduceInOrder(deps, graph, queue, inDegree);
    ReductionEnds(deps, order, inDegree);
    OrderIsWhole(deps, order);
  }

  /** The loop of the topological order. */
  method ReduceInOrder(
    ghost deps: Dependencies, graph: CanonicalGraph, roots: seq<string>, inDegree: map<string, int>)
    returns (order: seq<string>, inDegree': map<string, int>)
    requires Inverse(deps, graph.dependents) && Reducing(deps, [], roots, inDegree)
    ensures Reducing(deps, order, [], inDegree') && order == OrderFrom(deps, [], roots, |deps|)
  {
    hide Distinct, Elements, Ordered, Missing, Released, Reducing, OrderFrom, Sorted;
    var queue := roots;
    order, inDegree' := [], inDegree;
    ghost var left: nat := |deps|;
    while queue != []
      invariant Reducing(deps, order, queue, inDegree') && |order| + left == |deps|
      invariant OrderFrom(deps, order, queue, left) == OrderFrom(deps, [], roots, |deps|)
      decreases left
    {
      var current := queue[0];
      Dequeues(deps, order, queue, inDegree');
      OrderNext(deps, order, queue, left);
      assert graph.Downstream(current) == DependentsOf(deps, current);
      var downstream := Sorted(graph.Downstream(current));
      queue, inDegree' := TakeNext(deps, order, queue, inDegree', downstream);
      order, left := order + [current], left - 1;
    }
    OrderNext(deps, order, queue, left);
  }

  lemma OrderNext(deps: Dependencies, order: seq<string>, queue: seq<string>, n: nat)
    ensures OrderFrom(deps, order, queue, n) ==
            if n == 0 || queue == [] then order
            else OrderFrom(
              deps, order + [queue[0]],
              queue[1..] + Released(deps, Sorted(DependentsOf(deps, queue[0])), Elements(order) + {queue[0]}), n - 1)
  {
  }

  lemma OrderIsWhole(deps: Dependencies, order: seq<string>)
    requires Distinct(order) && Ordered(deps, order)
    ensures |order| == |deps.Keys| <==> Elements(order) == deps.Keys
  {
    DistinctCount(order);
    assert deps.Keys == Elements(order) + (deps.Keys - Elements(order));
  }

  /** The message names more than the cycle: a task downstream of one is reported too. */
  lemma DownstreamOfCycleIsReported()
    ensures var deps: Dependencies := map["a" := {"b"}, "b" := {"a"}, "c" := {"a"}];
      && Inescapable(deps, {"a", "b", "c"})
      && forall path :: IsCycle(deps, path) ==> "c" !in path
  {
    var deps: Dependencies := map["a" := {"b"}, "b" := {"a"}, "c" := {"a"}];
    var all := {"a", "b", "c"};
    assert "b" in deps["a"] * all && "a" in deps["b"] * all && "a" in deps["c"] * all;
    forall path | IsCycle(deps, path) ensures "c" !in path {
      forall i | 0 <= i < |path| ensures path[i] != "c" {
        if i > 0 { assert path[i] in deps[path[i - 1]]; }
        else { assert path[|path| - 1] in deps[path[|path| - 2]]; }
      }
    }
  }
}
