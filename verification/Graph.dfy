/** Dependency graphs of tasks: the cycle check, the dispatch order and the ancestor walk. */
module Graph {
  import opened Prelude

  type Graph = map<Key, set<Key>>

  ghost predicate Closed(g: Graph) {
    forall k | k in g :: g[k] <= g.Keys
  }

  /** A walk along dependency edges, from a task towards its dependencies. */
  ghost predicate Path(g: Graph, p: seq<Key>) {
    p != [] && forall i | 0 <= i < |p| - 1 :: p[i] in g && p[i + 1] in g[p[i]]
  }

  ghost predicate PathBetween(g: Graph, p: seq<Key>, from: Key, to: Key) {
    Path(g, p) && |p| >= 2 && p[0] == from && p[|p| - 1] == to
  }

  /** `a` is a transitive predecessor of `b`. */
  ghost predicate Precedes(g: Graph, a: Key, b: Key) {
    exists p :: PathBetween(g, p, b, a)
  }

  ghost predicate Acyclic(g: Graph) {
    forall k :: !Precedes(g, k, k)
  }

  ghost predicate DownClosed(g: Graph, s: set<Key>) {
    forall k | k in s && k in g :: g[k] <= s
  }

  lemma {:induction false} PathStays(g: Graph, s: set<Key>, p: seq<Key>)
    requires Path(g, p) && DownClosed(g, s)
    requires p[0] in s
    ensures forall k | k in p :: k in s
    decreases |p|
  {
    if |p| > 1 {
      assert p[1] in g[p[0]];
      assert Path(g, p[1..]);
      PathStays(g, s, p[1..]);
      assert p == [p[0]] + p[1..];
    }
  }

  /** Whatever contains a task's direct dependencies and is closed under dependencies
      contains all its transitive predecessors. */
  lemma PredecessorsWithin(g: Graph, s: set<Key>, b: Key)
    requires b in g && g[b] <= s && DownClosed(g, s)
    ensures forall a | Precedes(g, a, b) :: a in s
  {
    forall a | Precedes(g, a, b) ensures a in s {
      var p :| PathBetween(g, p, b, a);
      assert p[1] in g[p[0]];
      assert Path(g, p[1..]);
      PathStays(g, s, p[1..]);
      assert p[1..][|p| - 2] == a;
    }
  }

  lemma DirectPrecedes(g: Graph, a: Key, b: Key)
    requires b in g && a in g[b]
    ensures Precedes(g, a, b)
  {
    assert PathBetween(g, [b, a], b, a);
  }

  lemma PrecedesStep(g: Graph, a: Key, m: Key, b: Key)
    requires Precedes(g, m, b) && m in g && a in g[m]
    ensures Precedes(g, a, b)
  {
    var p :| PathBetween(g, p, b, m);
    assert PathBetween(g, p + [a], b, a);
  }

  lemma {:induction false} Pigeonhole(u: set<Key>, p: seq<Key>) returns (i: nat, j: nat)
    requires forall k | k in p :: k in u
    requires |p| > |u|
    ensures i < j < |p| && p[i] == p[j]
    decreases |u|
  {
    var last := p[|p| - 1];
    if i' :| 0 <= i' < |p| - 1 && p[i'] == last {
      i, j := i', |p| - 1;
    } else {
      forall k | k in p[..|p| - 1] ensures k in u - {last} {
        var n :| 0 <= n < |p| - 1 && p[n] == k;
        assert p[n] in p;
      }
      i, j := Pigeonhole(u - {last}, p[..|p| - 1]);
    }
  }

  lemma {:induction false} EndlessWalk(g: Graph, u: set<Key>, n: nat) returns (p: seq<Key>)
    requires u != {} && u <= g.Keys && n >= 1
    requires forall k | k in u :: g[k] * u != {}
    ensures |p| == n && Path(g, p) && forall k | k in p :: k in u
  {
    if n == 1 {
      var k :| k in u;
      p := [k];
    } else {
      var q := EndlessWalk(g, u, n - 1);
      var last := q[|q| - 1];
      assert last in q;
      var k :| k in g[last] * u;
      p := q + [k];
    }
  }

  /** When every task of a nonempty set waits for another task of the set, there is a cycle. */
  lemma StuckHasCycle(g: Graph, u: set<Key>)
    requires u != {} && u <= g.Keys
    requires forall k | k in u :: g[k] * u != {}
    ensures !Acyclic(g)
  {
    var p := EndlessWalk(g, u, |u| + 1);
    var i, j := Pigeonhole(u, p);
    var c := p[i..j + 1];
    forall n | 0 <= n < |c| - 1 ensures c[n] in g && c[n + 1] in g[c[n]] {
      assert c[n] == p[i + n] && c[n + 1] == p[i + n + 1];
    }
    assert PathBetween(g, c, p[i], p[i]);
    assert Precedes(g, p[i], p[i]);
  }

  /** A graph whose tasks can be retired one after another, each after its dependencies, has no cycle:
      adding tasks that depend only on an acyclic, closed part keeps that part acyclic. */
  lemma RetireKeepsAcyclic(g: Graph, removed: set<Key>, ready: set<Key>)
    requires removed <= g.Keys && ready <= g.Keys && ready !! removed
    requires DownClosed(g, removed)
    requires forall k | k in removed :: !Precedes(g, k, k)
    requires forall k | k in ready :: g[k] <= removed
    ensures DownClosed(g, removed + ready)
    ensures forall k | k in removed + ready :: !Precedes(g, k, k)
  {
    forall k | k in ready ensures !Precedes(g, k, k) {
      PredecessorsWithin(g, removed, k);
    }
  }

  /** The cycle check of the task-list validation: rounds that retire every task whose
      dependencies are all retired, until nothing is left or nothing moves. */
  method HasNoCycle(pending: Graph) returns (ok: bool)
    requires Closed(pending)
    ensures ok <==> Acyclic(pending)
  {
    var removed: set<Key> := {};
    while |removed| < |pending.Keys|
      invariant removed <= pending.Keys && DownClosed(pending, removed)
      invariant forall k | k in removed :: !Precedes(pending, k, k)
      decreases |pending.Keys| - |removed|
    {
      var ready := set k | k in pending.Keys && k !in removed && pending[k] <= removed;
      if ready == {} {
        var u := pending.Keys - removed;
        ProperSubsetLeaves(removed, pending.Keys);
        forall k | k in u ensures pending[k] * u != {} {
          assert k !in ready;
          var d :| d in pending[k] && d !in removed;
          assert d in pending[k] * u;
        }
        StuckHasCycle(pending, u);
        return false;
      }
      RetireKeepsAcyclic(pending, removed, ready);
      assert |removed + ready| == |removed| + |ready|;
      BoundedCard(removed + ready, pending.Keys);
      removed := removed + ready;
    }
    SubsetFull(removed, pending.Keys);
    forall k ensures Precedes(pending, k, k) ==> k in removed {
      OnlyKnownTasksWait(pending, k, k);
    }
    return true;
  }

  lemma BoundedCard(a: set<Key>, b: set<Key>)
    requires a <= b
    ensures |a| <= |b|
  {
    assert b == a + (b - a);
    assert |b| == |a| + |b - a|;
  }

  lemma ProperSubsetLeaves(a: set<Key>, b: set<Key>)
    requires a <= b && |a| < |b|
    ensures b - a != {}
  {
    assert b == a + (b - a);
    assert |b| == |a| + |b - a|;
  }

  lemma SubsetFull(a: set<Key>, b: set<Key>)
    requires a <= b && |a| >= |b|
    ensures a == b
  {
    assert b == a + (b - a);
    assert |b| == |a| + |b - a|;
  }

  /** Some waiting task of an acyclic graph depends on no waiting task. */
  lemma SomeTaskIsReady(g: Graph, u: set<Key>)
    requires Acyclic(g) && u != {} && u <= g.Keys
    ensures exists k :: k in u && g[k] * u == {}
  {
    if forall k | k in u :: g[k] * u != {} {
      StuckHasCycle(g, u);
    }
  }

  lemma OnlyKnownTasksWait(g: Graph, a: Key, b: Key)
    ensures Precedes(g, a, b) ==> b in g
  {
    if Precedes(g, a, b) {
      var p :| PathBetween(g, p, b, a);
      assert p[0] in g;
    }
  }

  /** A path of a larger graph that stays within the unchanged part is a path of that part. */
  lemma PathWithinPart(g: Graph, h: Graph, p: seq<Key>, from: Key, to: Key)
    requires Closed(g) && from in g
    requires forall k | k in g :: k in h && h[k] == g[k]
    requires PathBetween(h, p, from, to)
    ensures PathBetween(g, p, from, to)
  {
    PathStays(h, g.Keys, p);
    forall i | 0 <= i < |p| - 1 ensures p[i] in g && p[i + 1] in g[p[i]] {
      assert p[i] in p && p[i + 1] in h[p[i]];
    }
  }

  /** A new task without dependencies cannot close a cycle. */
  lemma AddLeaf(g: Graph, k: Key)
    requires Closed(g) && Acyclic(g) && k !in g
    ensures Closed(g[k := {}]) && Acyclic(g[k := {}])
  {
    var h := g[k := {}];
    forall a ensures Precedes(h, a, a) ==> Precedes(g, a, a) {
      if Precedes(h, a, a) {
        var p :| PathBetween(h, p, a, a);
        assert p[1] in h[p[0]];
        PathWithinPart(g, h, p, a, a);
      }
    }
  }
}
