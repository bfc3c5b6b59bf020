/**
 `validate_dependencies` and `topological_checks` (src/config.rs:636-697) as the loops
 of the source: in-degrees counted down while the least ready check is popped.
 */
module CheckOrder {
  import opened Common
  import opened Order
  import opened CheckGraph

  datatype DependencyError =
    | SelfDependency(check: string)
    | UnknownDependency(check: string, dependency: string)

  /** A dependency the source rejects. */
  predicate BadDependency(g: Graph, x: string, d: string) {
    x in g && d in g[x] && (d == x || d !in g)
  }

  /** `validate_dependencies`: the first bad dependency in the order of ids, then of
      dependencies. */
  method ValidateDependencies(g: Graph) returns (r: Result<(), DependencyError>)
    requires forall x :: x in g ==> Ascending(g[x])
    ensures r.Ok? <==> ValidGraph(g)
    ensures r.Err? ==>
      var x, d := r.error.check, if r.error.SelfDependency? then r.error.check else r.error.dependency;
      && BadDependency(g, x, d)
      && (r.error.SelfDependency? <==> d == x)
      && (forall y, e :: BadDependency(g, y, e) ==> x == y || Less(x, y))
      && (forall e :: BadDependency(g, x, e) ==> d == e || Less(d, e))
  {
    var ids := SortSet(g.Keys);
    for i := 0 to |ids|
      invariant forall y, e :: y in ids[..i] ==> !BadDependency(g, y, e)
    {
      var x := ids[i];
      assert x in Elements(ids);
      for j := 0 to |g[x]|
        invariant forall e :: e in g[x][..j] ==> !BadDependency(g, x, e)
      {
        var d := g[x][j];
        if d == x || d !in g {
          FirstIsLeast(g, ids, i, j);
          if d == x {
            return Err(SelfDependency(x));
          }
          return Err(UnknownDependency(x, d));
        }
      }
    }
    forall x | x in g
      ensures Ascending(g[x]) && x !in Deps(g, x) && Deps(g, x) <= g.Keys
    {
      assert x in Elements(ids);
      assert forall e :: e in g[x] ==> !BadDependency(g, x, e);
    }
    return Ok(());
  }

  lemma FirstIsLeast(g: Graph, ids: seq<string>, i: nat, j: nat)
    requires Ascending(ids) && Elements(ids) == g.Keys && i < |ids| && ids[i] in g
    requires Ascending(g[ids[i]]) && j < |g[ids[i]]|
    requires forall y, e :: y in ids[..i] ==> !BadDependency(g, y, e)
    requires forall e :: e in g[ids[i]][..j] ==> !BadDependency(g, ids[i], e)
    ensures forall y, e :: BadDependency(g, y, e) ==> ids[i] == y || Less(ids[i], y)
    ensures forall e :: BadDependency(g, ids[i], e) ==> g[ids[i]][j] == e || Less(g[ids[i]][j], e)
  {
    var deps := g[ids[i]];
    assert forall k :: 0 <= k < i ==> ids[k] in ids[..i];
    assert forall k :: 0 <= k < j ==> deps[k] in deps[..j];
    forall y, e | BadDependency(g, y, e)
      ensures ids[i] == y || Less(ids[i], y)
    {
      assert y in Elements(ids);
      var k :| 0 <= k < |ids| && ids[k] == y;
    }
    forall e | BadDependency(g, ids[i], e)
      ensures deps[j] == e || Less(deps[j], e)
    {
      var k :| 0 <= k < |deps| && deps[k] == e;
    }
  }

  // ---------------------------------------------------------------------------
  // Counting down
  // ---------------------------------------------------------------------------

  predicate DependsOn(g: Graph, x: string, d: string) {
    x in g && d in g[x]
  }

  predicate Edge(dependents: map<string, set<string>>, d: string, x: string) {
    d in dependents && x in dependents[d]
  }

  /** Among `ids`, the checks that depend on each check. */
  ghost predicate IsDependents(g: Graph, ids: set<string>, dependents: map<string, set<string>>) {
    forall d, x :: Edge(dependents, d, x) <==> x in ids && DependsOn(g, x, d)
  }

  method AddDependent(deps: seq<string>, x: string, before: map<string, set<string>>)
    returns (dependents: map<string, set<string>>)
    ensures forall d, y :: Edge(dependents, d, y) <==> Edge(before, d, y) || (y == x && d in deps)
  {
    dependents := before;
    for j := 0 to |deps|
      invariant forall d, y :: Edge(dependents, d, y) <==> Edge(before, d, y) || (y == x && d in deps[..j])
    {
      var d := deps[j];
      var others := if d in dependents then dependents[d] else {};
      ghost var previous := dependents;
      dependents := dependents[d := others + {x}];
      assert deps[..j + 1] == deps[..j] + [d];
      assert forall e, y :: Edge(dependents, e, y) <==> Edge(previous, e, y) || (y == x && e == d);
    }
    assert deps[..|deps|] == deps;
  }

  method BuildDependents(g: Graph) returns (dependents: map<string, set<string>>)
    ensures IsDependents(g, g.Keys, dependents)
  {
    dependents := map[];
    var ids := SortSet(g.Keys);
    for i := 0 to |ids|
      invariant IsDependents(g, Elements(ids[..i]), dependents)
    {
      var x := ids[i];
      assert x in Elements(ids);
      dependents := AddDependent(g[x], x, dependents);
      assert ids[..i + 1] == ids[..i] + [x];
      assert Elements(ids[..i + 1]) == Elements(ids[..i]) + {x};
    }
    assert ids[..|ids|] == ids;
  }

  method PopFirst(s: set<string>) returns (x: string)
    requires s != {}
    ensures x in s && forall y :: y in s ==> x == y || Less(x, y)
  {
    var sorted := SortSet(s);
    assert sorted != [] by {
      var y :| y in s;
      assert y in Elements(sorted);
    }
    x := sorted[0];
    assert x in Elements(sorted);
    forall y | y in s
      ensures x == y || Less(x, y)
    {
      assert y in Elements(sorted);
      HeadIsLeast(sorted, y);
    }
  }

  /** The in-degree of `x` counts its dependencies outside `seen`; it is ready when none
      is left and it is not done. */
  predicate Tallied(g: Graph, indegree: map<string, nat>, ready: set<string>, seen: set<string>,
                    done: set<string>, x: string)
    requires x in g
  {
    && x in indegree && indegree[x] == |Deps(g, x) - seen|
    && (x in ready <==> x !in done && Deps(g, x) <= seen)
  }

  /** `pending` are the dependents of the check just done, `id`, that are still to be
      counted down. */
  ghost predicate Tally(g: Graph, indegree: map<string, nat>, ready: set<string>, id: string,
                        pending: set<string>, done: set<string>)
  {
    && indegree.Keys == g.Keys && ready <= g.Keys
    && forall x {:trigger Tallied(g, indegree, ready, Seen(id, pending, done, x), done, x)} ::
         x in g ==> Tallied(g, indegree, ready, Seen(id, pending, done, x), done, x)
  }

  function Seen(id: string, pending: set<string>, done: set<string>, x: string): set<string> {
    if x in pending then done - {id} else done
  }

  /** Counting down one dependent. */
  method CountDown(g: Graph, indegree: map<string, nat>, ready: set<string>, ghost id: string, child: string,
                   ghost pending: set<string>, ghost done: set<string>)
    returns (indegree': map<string, nat>, ready': set<string>)
    requires Tally(g, indegree, ready, id, pending, done) && id in done
    requires child in pending && DependsOn(g, child, id) && child !in done
    ensures Tally(g, indegree', ready', id, pending - {child}, done)
  {
    assert Tallied(g, indegree, ready, Seen(id, pending, done, child), done, child);
    ghost var left := Deps(g, child) - (done - {id});
    assert id in left && Deps(g, child) - done == left - {id};
    assert |left - {id}| == |left| - 1;
    indegree' := indegree[child := indegree[child] - 1];
    assert indegree'[child] == 0 <==> Deps(g, child) - done == {};
    NothingLeft(Deps(g, child), done);
    assert id in Deps(g, child);
    ready' := if indegree'[child] == 0 then ready + {child} else ready;
    forall x | x in g
      ensures Tallied(g, indegree', ready', Seen(id, pending - {child}, done, x), done, x)
    {
      assert Tallied(g, indegree, ready, Seen(id, pending, done, x), done, x);
    }
  }

  /** Counting down every dependent of the check just done. */
  method CountDownAll(g: Graph, indegree: map<string, nat>, ready: set<string>, ghost id: string,
                      children: set<string>, ghost done: set<string>)
    returns (indegree': map<string, nat>, ready': set<string>)
    requires Tally(g, indegree, ready, id, children, done) && id in done
    requires forall x :: x in children ==> DependsOn(g, x, id) && x !in done
    ensures Tally(g, indegree', ready', "", {}, done)
  {
    indegree', ready' := indegree, ready;
    var sorted := SortSet(children);
    ghost var pending := children;
    for i := 0 to |sorted|
      invariant pending == Elements(sorted[i..]) <= children
      invariant Tally(g, indegree', ready', id, pending, done)
    {
      var child := sorted[i];
      assert child in pending by {
        assert sorted[i..][0] == child;
      }
      indegree', ready' := CountDown(g, indegree', ready', id, child, pending, done);
      TailElements(sorted[i..]);
      assert sorted[i..][1..] == sorted[i + 1..];
      pending := pending - {child};
    }
    assert pending == {};
    forall x | x in g
      ensures Tallied(g, indegree', ready', Seen("", {}, done, x), done, x)
    {
      assert Tallied(g, indegree', ready', Seen(id, {}, done, x), done, x);
    }
  }

  /** `topological_checks`: succeeds exactly when no check reaches a dependency cycle,
      with the least execution order; otherwise names exactly the checks that do. */
  method TopologicalOrder(g: Graph) returns (r: Result<seq<string>, seq<string>>)
    requires ValidGraph(g)
    ensures r.Ok? <==> Acyclic(g)
    ensures r.Ok? ==> IsOrder(g, r.value) && forall p :: IsOrder(g, p) ==> LexAtMost(r.value, p)
    ensures r.Err? ==> Ascending(r.error) && forall x :: x in r.error <==> x in g && ReachesCycle(g, x)
  {
    var indegree: map<string, nat> := map x | x in g :: |g[x]|;
    var dependents := BuildDependents(g);
    var ready := set x | x in g && indegree[x] == 0;
    InitialTally(g, indegree, ready);
    var ordered;
    ordered, indegree := PopAll(g, dependents, indegree, ready);
    ghost var done := Elements(ordered);
    NothingReady(g, indegree, ordered, done);
    LeftoverReachesCycle(g, ordered);
    if |ordered| != |g| {
      var cycle := SortSet(set x | x in g && indegree[x] > 0);
      assert forall x :: x in cycle <==> x in Elements(cycle);
      MissingOne(done, g.Keys);
      return Err(cycle);
    }
    Full(done, g.Keys);
    FullOrder(g, ordered);
    return Ok(ordered);
  }

  /** What holds each time a check is popped. */
  ghost predicate Popped(g: Graph, indegree: map<string, nat>, ready: set<string>, ordered: seq<string>) {
    && Tally(g, indegree, ready, "", {}, Elements(ordered))
    && Greedy(g, ordered) && Elements(ordered) <= g.Keys && |Elements(ordered)| == |ordered|
  }

  method PopOne(g: Graph, dependents: map<string, set<string>>, indegree: map<string, nat>, ready: set<string>,
                ordered: seq<string>)
    returns (indegree': map<string, nat>, ready': set<string>, ordered': seq<string>)
    requires ValidGraph(g) && IsDependents(g, g.Keys, dependents)
    requires Popped(g, indegree, ready, ordered) && ready != {}
    ensures Popped(g, indegree', ready', ordered') && |ordered| < |ordered'| <= |g|
  {
    ghost var done := Elements(ordered);
    var id := PopFirst(ready);
    PoppedIsLeast(g, indegree, ready, id, done);
    var children := if id in dependents then dependents[id] else {};
    StartCountdown(g, indegree, ready, id, dependents, children, ordered, done);
    ordered' := ordered + [id];
    GreedyExtends(g, ordered, id);
    SubsetSize(done + {id}, g.Keys);
    indegree', ready' := CountDownAll(g, indegree, ready - {id}, id, children, done + {id});
  }

  method PopAll(g: Graph, dependents: map<string, set<string>>, indegree: map<string, nat>, ready: set<string>)
    returns (ordered: seq<string>, indegree': map<string, nat>)
    requires ValidGraph(g) && IsDependents(g, g.Keys, dependents) && Tally(g, indegree, ready, "", {}, {})
    ensures Popped(g, indegree', {}, ordered)
  {
    ordered, indegree' := [], indegree;
    var left := ready;
    assert Elements(ordered) == {};
    while left != {}
      invariant Popped(g, indegree', left, ordered)
      decreases |g| - |ordered|
    {
      indegree', left, ordered := PopOne(g, dependents, indegree', left, ordered);
    }
  }

  lemma InitialTally(g: Graph, indegree: map<string, nat>, ready: set<string>)
    requires ValidGraph(g) && indegree.Keys == g.Keys && (forall x :: x in g ==> indegree[x] == |g[x]|)
    requires ready == set x | x in g && indegree[x] == 0
    ensures Tally(g, indegree, ready, "", {}, {})
  {
    forall x | x in g
      ensures Tallied(g, indegree, ready, Seen("", {}, {}, x), {}, x)
    {
      AscendingLength(g[x]);
      assert Deps(g, x) - {} == Deps(g, x);
    }
  }

  lemma PoppedIsLeast(g: Graph, indegree: map<string, nat>, ready: set<string>, id: string, done: set<string>)
    requires Tally(g, indegree, ready, "", {}, done)
    requires id in ready && forall y :: y in ready ==> id == y || Less(id, y)
    ensures IsLeastReady(g, done, id)
  {
    assert Tallied(g, indegree, ready, Seen("", {}, done, id), done, id);
    forall y | Ready(g, done, y)
      ensures id == y || Less(id, y)
    {
      assert Tallied(g, indegree, ready, Seen("", {}, done, y), done, y);
    }
  }

  lemma GreedyExtends(g: Graph, o: seq<string>, x: string)
    requires Greedy(g, o) && IsLeastReady(g, Elements(o), x)
    ensures Greedy(g, o + [x]) && Elements(o + [x]) == Elements(o) + {x} && x !in o
  {
    var longer := o + [x];
    forall i | 0 <= i < |longer|
      ensures IsLeastReady(g, Elements(longer[..i]), longer[i])
    {
      if i < |o| {
        assert longer[..i] == o[..i];
        assert IsLeastReady(g, Elements(o[..i]), o[i]);
      } else {
        assert longer[..i] == o;
      }
    }
  }

  lemma StartCountdown(g: Graph, indegree: map<string, nat>, ready: set<string>, id: string,
                       dependents: map<string, set<string>>, children: set<string>, o: seq<string>,
                       done: set<string>)
    requires ValidGraph(g) && IsDependents(g, g.Keys, dependents) && Tally(g, indegree, ready, "", {}, done)
    requires Greedy(g, o) && Elements(o) == done && IsLeastReady(g, done, id)
    requires children == if id in dependents then dependents[id] else {}
    ensures Tally(g, indegree, ready - {id}, id, children, done + {id})
    ensures forall x :: x in children ==> DependsOn(g, x, id) && x !in done + {id}
  {
    assert forall x :: x in children <==> Edge(dependents, id, x);
    forall x | x in children
      ensures DependsOn(g, x, id) && x !in done + {id}
    {
      if x in done {
        DoneIsClosed(g, o, x);
      }
    }
    forall x | x in g
      ensures Tallied(g, indegree, ready - {id}, Seen(id, children, done + {id}, x), done + {id}, x)
    {
      assert Tallied(g, indegree, ready, Seen("", {}, done, x), done, x);
      if x in children {
        assert (done + {id}) - {id} == done;
      } else {
        assert !DependsOn(g, x, id);
        assert Deps(g, x) - (done + {id}) == Deps(g, x) - done;
      }
    }
  }

  lemma DoneIsClosed(g: Graph, o: seq<string>, x: string)
    requires Greedy(g, o) && x in o
    ensures x in g && Deps(g, x) <= Elements(o)
  {
    var i :| 0 <= i < |o| && o[i] == x;
    assert IsLeastReady(g, Elements(o[..i]), o[i]);
  }

  lemma NothingReady(g: Graph, indegree: map<string, nat>, o: seq<string>, done: set<string>)
    requires Tally(g, indegree, {}, "", {}, done) && Greedy(g, o) && Elements(o) == done
    ensures forall x :: !Ready(g, done, x)
    ensures forall x :: x in g ==> (indegree[x] > 0 <==> x !in o)
  {
    forall x | x in g
      ensures !Ready(g, done, x) && (indegree[x] > 0 <==> x !in o)
    {
      assert Tallied(g, indegree, {}, Seen("", {}, done, x), done, x);
      if x in o {
        DoneIsClosed(g, o, x);
        assert Deps(g, x) - done == {};
      } else {
        var d :| d in Deps(g, x) && d !in done;
        assert d in Deps(g, x) - done;
      }
    }
  }

  lemma MissingOne(a: set<string>, b: set<string>)
    requires a <= b && |a| != |b|
    ensures exists x :: x in b && x !in a
  {
    assert a != b;
  }

  lemma FullOrder(g: Graph, o: seq<string>)
    requires Greedy(g, o) && Elements(o) == g.Keys
    ensures IsOrder(g, o) && forall p :: IsOrder(g, p) ==> LexAtMost(o, p)
  {
    GreedyIsFeasible(g, o);
    forall p | IsOrder(g, p)
      ensures LexAtMost(o, p)
    {
      GreedyIsLeast(g, o, p);
    }
  }

  lemma NothingLeft(a: set<string>, b: set<string>)
    ensures a - b == {} <==> a <= b
  {
    if a - b == {} {
      assert forall x :: x in a ==> x !in a - b;
    }
  }

  lemma Full(a: set<string>, b: set<string>)
    requires a <= b && |a| == |b|
    ensures a == b
  {
    assert b == a + (b - a);
  }
}
