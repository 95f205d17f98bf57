/**
  The canonical dependency graph (domain/graph.py): acyclicity, and Kahn's algorithm.
  A dependency map sends each task to the tasks it depends on.
  */
module Graph {

  type Dependencies = map<string, set<string>>

  /** Each element of the path depends on the next one. */
  ghost predicate IsWalk(deps: Dependencies, path: seq<string>) {
    forall i | 0 <= i < |path| - 1 :: path[i] in deps && path[i + 1] in deps[path[i]]
  }

  ghost predicate IsCycle(deps: Dependencies, path: seq<string>) {
    2 <= |path| && path[0] == path[|path| - 1] && IsWalk(deps, path)
  }

  ghost predicate Acyclic(deps: Dependencies) {
    forall path :: !IsCycle(deps, path)
  }

  predicate Closed(deps: Dependencies) {
    forall k | k in deps :: deps[k] <= deps.Keys
  }

  // ----------------------------------------------------------- a set that always leads back into itself

  /** Every member depends on some member. */
  ghost predicate Inescapable(deps: Dependencies, s: set<string>) {
    s <= deps.Keys && forall k | k in s :: deps[k] * s != {}
  }

  lemma {:induction false} LongWalk(deps: Dependencies, s: set<string>, start: string, n: nat)
    returns (path: seq<string>)
    requires Inescapable(deps, s) && start in s
    ensures |path| == n + 1 && IsWalk(deps, path) && forall i | 0 <= i <= n :: path[i] in s
  {
    if n == 0 {
      path := [start];
    } else {
      var prefix := LongWalk(deps, s, start, n - 1);
      var next :| next in deps[prefix[n - 1]] * s;
      path := prefix + [next];
    }
  }

  /** Pigeonhole: a sequence longer than the set its elements come from repeats one. */
  lemma {:induction false} Repeats(path: seq<string>, s: set<string>) returns (i: nat, j: nat)
    requires |s| < |path| && forall k | 0 <= k < |path| :: path[k] in s
    ensures i < j < |path| && path[i] == path[j]
  {
    var last := path[|path| - 1];
    if k :| 0 <= k < |path| - 1 && path[k] == last {
      return k, |path| - 1;
    }
    i, j := Repeats(path[..|path| - 1], s - {last});
  }

  lemma InescapableHasCycle(deps: Dependencies, s: set<string>)
    requires Inescapable(deps, s) && s != {}
    ensures !Acyclic(deps)
  {
    var start :| start in s;
    var path := LongWalk(deps, s, start, |s|);
    var i, j := Repeats(path, s);
    var cycle := path[i..j + 1];
    assert IsWalk(deps, cycle) by {
      forall k | 0 <= k < |cycle| - 1 ensures cycle[k] in deps && cycle[k + 1] in deps[cycle[k]] {
        assert cycle[k] == path[i + k] && cycle[k + 1] == path[i + k + 1];
      }
    }
    assert IsCycle(deps, cycle);
  }

  /** In an acyclic graph every non-empty set of tasks has one with no dependency inside the set. */
  lemma HasSource(deps: Dependencies, s: set<string>) returns (k: string)
    requires Acyclic(deps) && s != {} && s <= deps.Keys
    ensures k in s && deps[k] !! s
  {
    if Inescapable(deps, s) {
      InescapableHasCycle(deps, s);
    }
    k :| k in s && deps[k] * s == {};
    forall d | d in deps[k] ensures d !in s {
      assert d !in deps[k] * s;
    }
  }

  lemma NoSelfDependency(deps: Dependencies, k: string)
    requires Acyclic(deps) && k in deps
    ensures k !in deps[k]
  {
    if k in deps[k] { assert IsCycle(deps, [k, k]); }
  }
}
