/**
 The dependency order of checks (src/config.rs:636-697): Kahn's algorithm with an
 ordered ready set.
 */
module CheckGraph {
  import opened Order

  /** Every check with its dependencies, which normalization has sorted and freed of
      duplicates. */
  type Graph = map<string, seq<string>>

  function Deps(g: Graph, x: string): set<string>
    requires x in g
  {
    Elements(g[x])
  }

  /** What `validate_dependencies` accepts: no check depends on itself or on an unknown
      check. */
  predicate ValidGraph(g: Graph) {
    forall x :: x in g ==> Ascending(g[x]) && x !in Deps(g, x) && Deps(g, x) <= g.Keys
  }

  /** Every dependency of `x` is done and `x` is not. */
  predicate Ready(g: Graph, done: set<string>, x: string) {
    x in g && x !in done && Deps(g, x) <= done
  }

  /** An execution order: every check once, after all its dependencies. */
  predicate IsOrder(g: Graph, o: seq<string>) {
    Elements(o) == g.Keys && Feasible(g, o)
  }

  /** Every check of the sequence comes once, after all its dependencies. */
  predicate Feasible(g: Graph, o: seq<string>) {
    forall i :: 0 <= i < |o| ==> Ready(g, Elements(o[..i]), o[i])
  }

  /** At every point the least ready check comes next. */
  ghost predicate Greedy(g: Graph, o: seq<string>) {
    forall i :: 0 <= i < |o| ==> IsLeastReady(g, Elements(o[..i]), o[i])
  }

  ghost predicate IsLeastReady(g: Graph, done: set<string>, x: string) {
    Ready(g, done, x) && forall y :: Ready(g, done, y) ==> x == y || Less(x, y)
  }

  /** Lexicographic order of sequences of ids. */
  predicate LexAtMost(a: seq<string>, b: seq<string>) {
    if a == [] then true
    else if b == [] then false
    else Less(a[0], b[0]) || (a[0] == b[0] && LexAtMost(a[1..], b[1..]))
  }

  // ---------------------------------------------------------------------------
  // Cycles
  // ---------------------------------------------------------------------------

  /** A walk along dependencies. */
  predicate Walk(g: Graph, w: seq<string>) {
    && w != []
    && (forall i :: 0 <= i < |w| ==> w[i] in g)
    && (forall i :: 0 <= i < |w| - 1 ==> w[i + 1] in Deps(g, w[i]))
  }

  predicate Repeats(w: seq<string>) {
    exists i, j :: 0 <= i < j < |w| && w[i] == w[j]
  }

  /** `x` is on a dependency cycle or transitively depends on one. */
  ghost predicate ReachesCycle(g: Graph, x: string) {
    exists w :: Walk(g, w) && w[0] == x && Repeats(w)
  }

  ghost predicate Acyclic(g: Graph) {
    forall x :: x in g ==> !ReachesCycle(g, x)
  }

  // ---------------------------------------------------------------------------
  // The greedy order is the least order
  // ---------------------------------------------------------------------------

  lemma {:induction false} GreedyIsLeastFrom(g: Graph, o: seq<string>, p: seq<string>, i: nat)
    requires Greedy(g, o) && IsOrder(g, p) && i <= |o| && i <= |p| && o[..i] == p[..i]
    requires |o| <= |p|
    ensures LexAtMost(o[i..], p[i..])
    decreases |o| - i
  {
    if i < |o| {
      assert IsLeastReady(g, Elements(o[..i]), o[i]);
      assert Ready(g, Elements(p[..i]), p[i]);
      if o[i] == p[i] {
        assert o[..i + 1] == o[..i] + [o[i]] && p[..i + 1] == p[..i] + [p[i]];
        GreedyIsLeastFrom(g, o, p, i + 1);
        assert o[i..][1..] == o[i + 1..] && p[i..][1..] == p[i + 1..];
      }
    }
  }

  lemma GreedyIsFeasible(g: Graph, o: seq<string>)
    requires Greedy(g, o)
    ensures Feasible(g, o)
  {
    forall i | 0 <= i < |o|
      ensures Ready(g, Elements(o[..i]), o[i])
    {
      assert IsLeastReady(g, Elements(o[..i]), o[i]);
    }
  }

  lemma {:induction false} PrefixSize(g: Graph, o: seq<string>, n: nat)
    requires n <= |o| && Feasible(g, o)
    ensures |Elements(o[..n])| == n
  {
    if n > 0 {
      PrefixSize(g, o, n - 1);
      assert Ready(g, Elements(o[..n - 1]), o[n - 1]);
      assert Elements(o[..n]) == Elements(o[..n - 1]) + {o[n - 1]} by {
        assert o[..n] == o[..n - 1] + [o[n - 1]];
      }
    }
  }

  lemma GreedyIsLeast(g: Graph, o: seq<string>, p: seq<string>)
    requires Greedy(g, o) && IsOrder(g, o) && IsOrder(g, p)
    ensures LexAtMost(o, p)
  {
    PrefixSize(g, o, |o|);
    PrefixSize(g, p, |p|);
    assert o[..|o|] == o && p[..|p|] == p && o[0..] == o && p[0..] == p;
    GreedyIsLeastFrom(g, o, p, 0);
  }

  // ---------------------------------------------------------------------------
  // What is left over are the checks that reach a cycle
  // ---------------------------------------------------------------------------

  /** A walk that starts in the order goes strictly backwards in it. */
  lemma {:induction false} WalkGoesBack(g: Graph, o: seq<string>, w: seq<string>, m: nat)
    requires Feasible(g, o) && Walk(g, w) && m < |o| && w[0] == o[m] && |w| >= 2
    ensures w[|w| - 1] in o[..m]
    decreases |w|
  {
    assert Ready(g, Elements(o[..m]), o[m]);
    assert w[1] in Elements(o[..m]);
    var n :| 0 <= n < m && o[n] == w[1];
    if |w| > 2 {
      WalkGoesBack(g, o, w[1..], n);
      assert w[1..][|w| - 2] == w[|w| - 1];
      assert o[..m][..n] == o[..n];
    }
  }

  lemma OrderedReachesNoCycle(g: Graph, o: seq<string>, m: nat)
    requires Feasible(g, o) && m < |o|
    ensures !ReachesCycle(g, o[m])
  {
    forall w | Walk(g, w) && w[0] == o[m]
      ensures !Repeats(w)
    {
      if Repeats(w) {
        var i, j :| 0 <= i < j < |w| && w[i] == w[j];
        var k := PositionOf(g, o, w, m, i);
        var part := w[i..j + 1];
        assert Walk(g, part);
        WalkGoesBack(g, o, part, k);
        assert false;
      }
    }
  }

  /** Every check a walk from the order visits is in the order. */
  lemma PositionOf(g: Graph, o: seq<string>, w: seq<string>, m: nat, i: nat) returns (k: nat)
    requires Feasible(g, o) && Walk(g, w) && m < |o| && w[0] == o[m] && i < |w|
    ensures k < |o| && o[k] == w[i]
  {
    if i == 0 {
      k := m;
    } else {
      assert Walk(g, w[..i + 1]);
      WalkGoesBack(g, o, w[..i + 1], m);
      k :| 0 <= k < m && o[k] == w[i];
    }
  }

  /** A graph that has an execution order has no cycle. */
  lemma OrderIsAcyclic(g: Graph, o: seq<string>)
    requires IsOrder(g, o)
    ensures Acyclic(g)
  {
    forall x | x in g
      ensures !ReachesCycle(g, x)
    {
      assert x in Elements(o);
      var m :| 0 <= m < |o| && o[m] == x;
      OrderedReachesNoCycle(g, o, m);
    }
  }

  /** No check of `left` is ready when the others are done. */
  ghost predicate Blocked(g: Graph, left: set<string>) {
    left <= g.Keys && forall x {:trigger Waits(g, left, x)} :: x in left ==> Waits(g, left, x)
  }

  predicate Waits(g: Graph, left: set<string>, x: string) {
    x in g && exists d :: d in Deps(g, x) && d in left
  }

  lemma {:induction false} LongWalk(g: Graph, left: set<string>, x: string, n: nat) returns (w: seq<string>)
    requires Blocked(g, left) && x in left
    ensures Walk(g, w) && w[0] == x && |w| == n + 1 && forall i :: 0 <= i < |w| ==> w[i] in left
    decreases n
  {
    if n == 0 {
      w := [x];
    } else {
      assert Waits(g, left, x);
      var d :| d in Deps(g, x) && d in left;
      var rest := LongWalk(g, left, d, n - 1);
      w := [x] + rest;
    }
  }

  lemma {:induction false} Pigeonhole(w: seq<string>, s: set<string>)
    requires (forall i :: 0 <= i < |w| ==> w[i] in s) && |w| > |s|
    ensures Repeats(w)
    decreases |w|
  {
    var x := w[0];
    var rest := w[1..];
    if x in rest {
      var j :| 0 <= j < |rest| && rest[j] == x;
      assert w[j + 1] == w[0];
    } else {
      assert forall i :: 0 <= i < |rest| ==> rest[i] in s - {x};
      Pigeonhole(rest, s - {x});
      var i, j :| 0 <= i < j < |rest| && rest[i] == rest[j];
      assert w[i + 1] == w[j + 1];
    }
  }

  lemma BlockedReachesCycle(g: Graph, left: set<string>, x: string)
    requires Blocked(g, left) && x in left
    ensures ReachesCycle(g, x)
  {
    var w := LongWalk(g, left, x, |left|);
    Pigeonhole(w, left);
  }

  /** When a greedy order cannot be continued, exactly the checks missing from it reach a
      cycle. */
  lemma LeftoverReachesCycle(g: Graph, o: seq<string>)
    requires ValidGraph(g) && Greedy(g, o) && Elements(o) <= g.Keys
    requires forall x :: !Ready(g, Elements(o), x)
    ensures forall x :: x in g ==> (x !in o <==> ReachesCycle(g, x))
  {
    GreedyIsFeasible(g, o);
    var left := g.Keys - Elements(o);
    forall x | x in left
      ensures Waits(g, left, x)
    {
      assert !Ready(g, Elements(o), x);
      var d :| d in Deps(g, x) && d !in Elements(o);
      assert d in left;
    }
    forall x | x in g
      ensures x !in o <==> ReachesCycle(g, x)
    {
      if x in o {
        var m :| 0 <= m < |o| && o[m] == x;
        OrderedReachesNoCycle(g, o, m);
      } else {
        BlockedReachesCycle(g, left, x);
      }
    }
  }
}
