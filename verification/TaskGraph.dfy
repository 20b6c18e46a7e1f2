/** Validation of a task list, the dispatch order of the stored slots and a slot's ancestors. */
module TaskGraph {
  import opened Prelude
  import opened Graph
  import opened Tables
  import opened Text

  // ---- Validation of submitted tasks ----

  /** The declared dependencies followed by the reviewed tasks, each once. */
  function Merge(deps: seq<string>, reviews: seq<string>): (r: seq<string>)
    requires Distinct(deps)
    ensures Distinct(r)
    ensures forall k :: k in r <==> k in deps || k in reviews
    ensures (forall k | k in reviews :: k in deps) ==> r == deps
    decreases |reviews|
  {
    if reviews == [] then deps
    else if reviews[0] in deps then Merge(deps, reviews[1..])
    else Merge(deps + [reviews[0]], reviews[1..])
  }

  /** The key of the draft at position `i`. */
  function KeyAt(d: Draft, i: nat): string {
    if d.key.Some? then d.key.value else KeyName(Unnamed(i))
  }

  predicate WellFormed(d: Draft, i: nat) {
    Distinct(d.dependsOn) && Distinct(d.reviewOf) && Distinct(d.exclude)
    && KeyAt(d, i) !in Merge(d.dependsOn, d.reviewOf)
  }

  function NamedAll(names: seq<string>): (r: seq<Key>)
    ensures |r| == |names|
  {
    seq(|names|, i requires 0 <= i < |names| => Named(names[i]))
  }

  /** The validated form: a definite key, and the reviewed tasks among the dependencies. */
  function Specified(d: Draft, i: nat): Task
    requires WellFormed(d, i)
  {
    Task(Named(KeyAt(d, i)), d.pool, NamedAll(Merge(d.dependsOn, d.reviewOf)), NamedAll(d.reviewOf), d.exclude)
  }

  function SpecifiedAll(drafts: seq<Draft>): (r: seq<Task>)
    requires forall i | 0 <= i < |drafts| :: WellFormed(drafts[i], i)
  {
    seq(|drafts|, i requires 0 <= i < |drafts| => Specified(drafts[i], i))
  }

  /** What the validation accepts. */
  ghost predicate Acceptable(drafts: seq<Draft>) {
    && 1 <= |drafts| <= MAX_TASKS
    && (forall i | 0 <= i < |drafts| :: WellFormed(drafts[i], i))
    && SoundTasks(SpecifiedAll(drafts))
  }

  lemma NamedElements(names: seq<string>)
    ensures forall k :: k in NamedAll(names) <==> k.Named? && k.name in names
    ensures Distinct(names) ==> Distinct(NamedAll(names))
  {
    forall k: Key | k.Named? && k.name in names ensures k in NamedAll(names) {
      var i :| 0 <= i < |names| && names[i] == k.name;
      assert NamedAll(names)[i] == k;
    }
  }

  lemma SpecifiedIsSound(d: Draft, i: nat)
    requires WellFormed(d, i)
    ensures SoundTask(Specified(d, i))
  {
    NamedElements(Merge(d.dependsOn, d.reviewOf));
    NamedElements(d.reviewOf);
  }

  /** Validation of each draft by itself. */
  method EachSpecified(drafts: seq<Draft>) returns (r: Option<seq<Task>>)
    ensures r.Some? <==> forall i | 0 <= i < |drafts| :: WellFormed(drafts[i], i)
    ensures r.Some? ==> r.value == SpecifiedAll(drafts) && forall i | 0 <= i < |drafts| :: SoundTask(r.value[i])
  {
    var result: seq<Task> := [];
    for i := 0 to |drafts|
      invariant forall j | 0 <= j < i :: WellFormed(drafts[j], j)
      invariant |result| == i && forall j | 0 <= j < i :: result[j] == Specified(drafts[j], j) && SoundTask(result[j])
    {
      if !WellFormed(drafts[i], i) { return None; }
      SpecifiedIsSound(drafts[i], i);
      result := result + [Specified(drafts[i], i)];
    }
    assert result == SpecifiedAll(drafts);
    return Some(result);
  }

  lemma SpecifiedInPlace(drafts: seq<Draft>)
    requires forall i | 0 <= i < |drafts| :: WellFormed(drafts[i], i)
    ensures KeysInPlace(SpecifiedAll(drafts))
  {
  }

  method TaskSpecs(drafts: seq<Draft>) returns (r: Option<seq<Task>>)
    ensures r.Some? <==> Acceptable(drafts)
    ensures r.Some? ==> r.value == SpecifiedAll(drafts) && SoundTasks(r.value)
  {
    if drafts == [] || |drafts| > MAX_TASKS { return None; }
    r := EachSpecified(drafts);
    if r.None? { return; }
    SpecifiedInPlace(drafts);
    if !DistinctKeys(r.value) { return None; }
    var ok := SoundDependencies(GraphOf(r.value));
    if !ok { return None; }
  }

  /** Every dependency is known, and there is no cycle. */
  method SoundDependencies(pending: Graph) returns (ok: bool)
    ensures ok <==> Closed(pending) && Acyclic(pending)
  {
    if exists k, d | k in pending && d in pending[k] :: d !in pending { return false; }
    assert forall k, d | k in pending && d in pending[k] :: d in pending;
    ok := HasNoCycle(pending);
  }

  /** Tasks without a key never get each other's key. */
  lemma DefaultKeysDiffer(drafts: seq<Draft>, i: nat, j: nat)
    requires i < |drafts| && j < |drafts| && i != j && drafts[i].key.None? && drafts[j].key.None?
    ensures KeyAt(drafts[i], i) != KeyAt(drafts[j], j)
  {
    DecimalReads(i + 1);
    DecimalReads(j + 1);
    assert KeyName(Unnamed(i))[|"task-"|..] == Decimal(i + 1) && KeyName(Unnamed(j))[|"task-"|..] == Decimal(j + 1);
  }

  /** But a task may not be given the key that another one, without a key, gets from its position. */
  lemma DefaultKeyIsTaken(drafts: seq<Draft>, i: nat, j: nat)
    requires i < |drafts| && j < |drafts| && i != j
    requires drafts[i].key.None? && drafts[j].key == Some("task-" + Decimal(i + 1))
    ensures !Acceptable(drafts)
  {
    if forall n | 0 <= n < |drafts| :: WellFormed(drafts[n], n) {
      var lo, hi := if i < j then i else j, if i < j then j else i;
      assert SpecifiedAll(drafts)[lo].key == SpecifiedAll(drafts)[hi].key;
    }
  }

  lemma GraphAt(tasks: seq<Task>, i: nat)
    requires i < |tasks| && DistinctKeys(tasks)
    ensures tasks[i].key in GraphOf(tasks)
    ensures GraphOf(tasks)[tasks[i].key] == set d | d in tasks[i].dependsOn
  {
    assert tasks[i].key in Keys(tasks);
  }

  function NamesOf(keys: seq<Key>): (r: seq<string>)
    ensures |r| == |keys|
  {
    seq(|keys|, i requires 0 <= i < |keys| => KeyName(keys[i]))
  }

  /** A stored task as it is submitted to validation again. */
  function DraftOf(t: Task): Draft {
    Draft(Some(KeyName(t.key)), t.pool, NamesOf(t.dependsOn), NamesOf(t.reviewOf), t.exclude)
  }

  function DraftsOf(tasks: seq<Task>): (r: seq<Draft>)
    ensures |r| == |tasks|
  {
    seq(|tasks|, i requires 0 <= i < |tasks| => DraftOf(tasks[i]))
  }

  lemma NamesRoundTrip(keys: seq<Key>)
    requires forall k | k in keys :: k.Named?
    ensures NamedAll(NamesOf(keys)) == keys
    ensures forall k: Key | k.Named? :: k.name in NamesOf(keys) <==> k in keys
    ensures Distinct(keys) ==> Distinct(NamesOf(keys))
  {
    assert forall i | 0 <= i < |keys| :: keys[i] in keys && NamedAll(NamesOf(keys))[i] == keys[i];
    forall k: Key | k.Named? && k in keys ensures k.name in NamesOf(keys) {
      var i :| 0 <= i < |keys| && keys[i] == k;
      assert NamesOf(keys)[i] == k.name;
    }
  }

  lemma StoredTaskNormalizes(t: Task, i: nat)
    requires SoundTask(t) && t.key.Named?
    ensures WellFormed(DraftOf(t), i) && Specified(DraftOf(t), i) == t
  {
    NamesRoundTrip(t.dependsOn);
    NamesRoundTrip(t.reviewOf);
    var d := DraftOf(t);
    forall k | k in d.reviewOf ensures k in d.dependsOn {
      var n :| 0 <= n < |t.reviewOf| && d.reviewOf[n] == k;
      assert t.reviewOf[n] in t.reviewOf && t.reviewOf[n].Named?;
    }
    assert Merge(d.dependsOn, d.reviewOf) == d.dependsOn;
  }

  /** The stored tasks of a planned run validate to themselves. */
  lemma StoredTasksNormalize(tasks: seq<Task>)
    requires SoundTasks(tasks) && forall i | 0 <= i < |tasks| :: tasks[i].key.Named?
    ensures forall i | 0 <= i < |tasks| :: WellFormed(DraftsOf(tasks)[i], i)
    ensures SpecifiedAll(DraftsOf(tasks)) == tasks
  {
    forall i | 0 <= i < |tasks| ensures WellFormed(DraftsOf(tasks)[i], i) && Specified(DraftsOf(tasks)[i], i) == tasks[i] {
      assert SoundTask(tasks[i]);
      StoredTaskNormalizes(tasks[i], i);
    }
  }

  // ---- Dispatch order ----

  function KeysAt(tasks: seq<Task>, order: seq<nat>): set<Key> {
    set n | 0 <= n < |order| && order[n] < |tasks| :: tasks[order[n]].key
  }

  predicate ReadyAfter(tasks: seq<Task>, done: seq<nat>, i: nat) {
    i < |tasks| && i !in done && Subset(tasks[i].dependsOn, KeysAt(tasks, done))
  }

  /** The rows below `n` that one round appends, in row order. */
  function Round(tasks: seq<Task>, done: seq<nat>, n: nat): (r: seq<nat>)
    requires n <= |tasks|
    ensures Distinct(r)
    ensures forall i: nat :: i in r <==> i < n && ReadyAfter(tasks, done, i)
  {
    if n == 0 then []
    else if ReadyAfter(tasks, done, n - 1) then Round(tasks, done, n - 1) + [n - 1]
    else Round(tasks, done, n - 1)
  }

  ghost predicate OrderPrefix(tasks: seq<Task>, order: seq<nat>) {
    && Distinct(order)
    && (forall n | 0 <= n < |order| :: order[n] < |tasks|)
    && (forall n | 0 <= n < |order| :: Subset(tasks[order[n]].dependsOn, KeysAt(tasks, order[..n])))
  }

  function Elements(order: seq<nat>): set<nat> {
    set n | 0 <= n < |order| :: order[n]
  }

  function Upto(n: nat): (s: set<nat>)
    ensures |s| == n && forall i: nat :: i in s <==> i < n
  {
    if n == 0 then {} else Upto(n - 1) + {n - 1}
  }

  lemma {:induction false} CardOfDistinct(order: seq<nat>)
    requires Distinct(order)
    ensures |Elements(order)| == |order|
  {
    if order == [] {
      assert Elements(order) == {};
    } else {
      var front := order[..|order| - 1];
      CardOfDistinct(front);
      assert Elements(order) == Elements(front) + {order[|front|]};
      assert order[|front|] !in Elements(front);
    }
  }

  lemma BoundedRows(a: set<nat>, b: set<nat>)
    requires a <= b
    ensures |a| <= |b|
    ensures |a| == |b| ==> a == b
  {
    assert b == a + (b - a);
    assert |b| == |a| + |b - a|;
  }

  lemma DistinctWithin(order: seq<nat>, n: nat)
    requires Distinct(order) && forall i | 0 <= i < |order| :: order[i] < n
    ensures |order| <= n
    ensures |order| == n ==> forall i: nat | i < n :: i in order
  {
    CardOfDistinct(order);
    BoundedRows(Elements(order), Upto(n));
    if |order| == n {
      forall i: nat | i < n ensures i in order {
        assert i in Upto(n);
        assert i in Elements(order);
      }
    }
  }

  /** A list shorter than the table misses some row. */
  lemma SomeRowIsMissing(order: seq<nat>, n: nat) returns (i: nat)
    requires Distinct(order) && |order| < n
    ensures i < n && i !in order
  {
    CardOfDistinct(order);
    if Upto(n) <= Elements(order) {
      BoundedRows(Upto(n), Elements(order));
    }
    i :| i in Upto(n) && i !in Elements(order);
    assert forall j | 0 <= j < |order| :: order[j] in Elements(order);
  }

  lemma RoundExtends(tasks: seq<Task>, order: seq<nat>)
    requires OrderPrefix(tasks, order)
    ensures OrderPrefix(tasks, order + Round(tasks, order, |tasks|))
  {
    var ready := Round(tasks, order, |tasks|);
    var next := order + ready;
    forall a, b | 0 <= a < b < |next| ensures next[a] != next[b] {
      if a < |order| <= b { assert next[b] in ready && next[a] in order; }
    }
    forall n | 0 <= n < |next| ensures next[n] < |tasks| {
      if n >= |order| { assert next[n] in ready; }
    }
    forall n | 0 <= n < |next| ensures Subset(tasks[next[n]].dependsOn, KeysAt(tasks, next[..n])) {
      if n < |order| {
        assert next[..n] == order[..n];
      } else {
        assert next[n] in ready;
        assert forall m | 0 <= m < |order| :: next[..n][m] == order[m];
        assert KeysAt(tasks, order) <= KeysAt(tasks, next[..n]);
      }
    }
  }

  /** In a sound graph a round never comes out empty before every row is listed. */
  lemma RoundMoves(tasks: seq<Task>, order: seq<nat>)
    requires SoundTasks(tasks) && OrderPrefix(tasks, order) && |order| < |tasks|
    ensures Round(tasks, order, |tasks|) != []
  {
    var missing := SomeRowIsMissing(order, |tasks|);
    var g := GraphOf(tasks);
    var u := set i | 0 <= i < |tasks| && i !in order :: tasks[i].key;
    assert tasks[missing].key in u;
    SomeTaskIsReady(g, u);
    var k :| k in u && g[k] * u == {};
    var i: nat :| i < |tasks| && i !in order && tasks[i].key == k;
    GraphAt(tasks, i);
    forall d | d in tasks[i].dependsOn ensures d in KeysAt(tasks, order) {
      DependencyListed(tasks, order, u, i, d);
    }
    assert ReadyAfter(tasks, order, i);
    assert i in Round(tasks, order, |tasks|);
  }

  lemma DependencyListed(tasks: seq<Task>, order: seq<nat>, u: set<Key>, i: nat, d: Key)
    requires SoundTasks(tasks) && i < |tasks| && d in tasks[i].dependsOn
    requires u == set j | 0 <= j < |tasks| && j !in order :: tasks[j].key
    requires GraphOf(tasks)[tasks[i].key] * u == {}
    ensures d in KeysAt(tasks, order)
  {
    var g := GraphOf(tasks);
    GraphAt(tasks, i);
    assert d in g[tasks[i].key] && d in g.Keys;
    var j: nat :| j < |tasks| && tasks[j].key == d;
    assert d !in g[tasks[i].key] * u;
    assert j in order;
    var n :| 0 <= n < |order| && order[n] == j;
  }

  /** The order that repeated rounds produce; total because the stored graph is sound. */
  ghost function OrderFrom(tasks: seq<Task>, order: seq<nat>): (r: seq<nat>)
    requires SoundTasks(tasks) && OrderPrefix(tasks, order)
    ensures OrderPrefix(tasks, r) && |r| == |tasks|
    decreases |tasks| - |order|
  {
    DistinctWithin(order, |tasks|);
    if |order| == |tasks| then order
    else
      RoundMoves(tasks, order);
      RoundExtends(tasks, order);
      DistinctWithin(order + Round(tasks, order, |tasks|), |tasks|);
      OrderFrom(tasks, order + Round(tasks, order, |tasks|))
  }

  ghost function DispatchOrder(tasks: seq<Task>): (r: seq<nat>)
    requires SoundTasks(tasks)
  {
    OrderFrom(tasks, [])
  }

  /** Every slot is listed exactly once, after everything it depends on. */
  lemma DispatchOrderIsTopological(tasks: seq<Task>)
    requires SoundTasks(tasks)
    ensures var r := DispatchOrder(tasks);
            && |r| == |tasks| && Distinct(r)
            && (forall i: nat | i < |tasks| :: i in r)
            && (forall n, d | 0 <= n < |r| && r[n] < |tasks| && d in tasks[r[n]].dependsOn ::
                  exists m :: 0 <= m < n && r[m] < |tasks| && tasks[r[m]].key == d)
  {
    var r := DispatchOrder(tasks);
    DistinctWithin(r, |tasks|);
    forall n, d | 0 <= n < |r| && r[n] < |tasks| && d in tasks[r[n]].dependsOn
      ensures exists m :: 0 <= m < n && r[m] < |tasks| && tasks[r[m]].key == d
    {
      assert d in KeysAt(tasks, r[..n]);
      var m :| 0 <= m < n && r[..n][m] < |tasks| && tasks[r[..n][m]].key == d;
      assert r[m] == r[..n][m];
    }
  }

  /** One round: the rows whose dependencies are listed, in row order. */
  method NextRound(tasks: seq<Task>, order: seq<nat>) returns (ready: seq<nat>)
    ensures ready == Round(tasks, order, |tasks|)
  {
    ready := [];
    for i := 0 to |tasks|
      invariant ready == Round(tasks, order, i)
    {
      if i !in order && Subset(tasks[i].dependsOn, KeysAt(tasks, order)) { ready := ready + [i]; }
    }
  }

  lemma RoundOrders(tasks: seq<Task>, order: seq<nat>)
    requires SoundTasks(tasks) && OrderPrefix(tasks, order) && |order| < |tasks|
    ensures var next := order + Round(tasks, order, |tasks|);
            && Round(tasks, order, |tasks|) != [] && OrderPrefix(tasks, next) && |next| <= |tasks|
            && OrderFrom(tasks, next) == OrderFrom(tasks, order)
  {
    RoundMoves(tasks, order);
    RoundExtends(tasks, order);
    DistinctWithin(order, |tasks|);
    DistinctWithin(order + Round(tasks, order, |tasks|), |tasks|);
  }

  /** The ordering loop; on the graphs the protocol stores it never gives up. */
  method OrderedSlots(tasks: seq<Task>) returns (ordered: Option<seq<nat>>)
    requires SoundTasks(tasks)
    ensures ordered == Some(DispatchOrder(tasks))
  {
    var order: seq<nat> := [];
    while |order| < |tasks|
      invariant OrderPrefix(tasks, order)
      invariant |order| <= |tasks|
      invariant OrderFrom(tasks, order) == DispatchOrder(tasks)
      decreases |tasks| - |order|
    {
      RoundOrders(tasks, order);
      var ready := NextRound(tasks, order);
      if ready == [] { return None; }
      order := order + ready;
    }
    return Some(order);
  }

  // ---- Ancestors ----

  /** The rows of an order whose key is in `keys`. */
  function Select(tasks: seq<Task>, order: seq<nat>, keys: set<Key>): (r: seq<nat>)
    requires forall n | 0 <= n < |order| :: order[n] < |tasks|
    ensures forall i: nat :: i in r <==> i in order && i < |tasks| && tasks[i].key in keys
  {
    if order == [] then []
    else
      var front := Select(tasks, order[..|order| - 1], keys);
      var last := order[|order| - 1];
      assert forall i: nat :: i in order <==> i in order[..|order| - 1] || i == last;
      if tasks[last].key in keys then front + [last] else front
  }

  ghost function PredecessorKeys(tasks: seq<Task>, k: Key): set<Key> {
    set a | a in Keys(tasks) && Precedes(GraphOf(tasks), a, k)
  }

  /** What the ancestor walk knows: everything collected or stacked is a predecessor, and whatever a
      collected key (or the target) depends on is collected or stacked. */
  ghost predicate Walking(tasks: seq<Task>, k0: Key, required: set<Key>, frontier: seq<Key>) {
    var g := GraphOf(tasks);
    && required <= Keys(tasks)
    && (forall a | a in frontier :: a in Keys(tasks) && Precedes(g, a, k0))
    && (forall a | a in required :: Precedes(g, a, k0))
    && k0 in g
    && (forall a | a in g[k0] :: a in required || a in frontier)
    && (forall a, d | a in required && a in g && d in g[a] :: d in required || d in frontier)
  }

  lemma StartWalk(tasks: seq<Task>, target: nat)
    requires SoundTasks(tasks) && target < |tasks|
    ensures Walking(tasks, tasks[target].key, {}, tasks[target].dependsOn)
  {
    GraphAt(tasks, target);
    var g := GraphOf(tasks);
    var k0 := tasks[target].key;
    forall a | a in tasks[target].dependsOn ensures a in Keys(tasks) && Precedes(g, a, k0) {
      assert a in g[k0] && a in g.Keys;
      DirectPrecedes(g, a, k0);
    }
  }

  lemma Expand(tasks: seq<Task>, k0: Key, required: set<Key>, frontier: seq<Key>, row: nat)
    requires SoundTasks(tasks) && row < |tasks|
    requires Walking(tasks, k0, required, frontier + [tasks[row].key])
    ensures Walking(tasks, k0, required + {tasks[row].key}, frontier + tasks[row].dependsOn)
  {
    var g := GraphOf(tasks);
    var k := tasks[row].key;
    GraphAt(tasks, row);
    var stack := frontier + [k];
    assert forall a :: a in stack <==> a in frontier || a == k;
    assert k in stack;
    forall a | a in tasks[row].dependsOn ensures a in Keys(tasks) && Precedes(g, a, k0) {
      assert a in g[k] && a in g.Keys;
      PrecedesStep(g, a, k, k0);
    }
  }

  lemma Skip(tasks: seq<Task>, k0: Key, required: set<Key>, frontier: seq<Key>, k: Key)
    requires Walking(tasks, k0, required, frontier + [k]) && k in required
    ensures Walking(tasks, k0, required, frontier)
  {
    assert forall a :: a in frontier + [k] <==> a in frontier || a == k;
  }

  lemma TopIsKnown(tasks: seq<Task>, k0: Key, required: set<Key>, frontier: seq<Key>, k: Key)
    requires Walking(tasks, k0, required, frontier + [k])
    ensures k in Keys(tasks)
    ensures k !in required ==> |Keys(tasks) - (required + {k})| < |Keys(tasks) - required|
  {
    assert k in frontier + [k];
    if k !in required {
      assert Keys(tasks) - required == (Keys(tasks) - (required + {k})) + {k};
    }
  }

  lemma WalkFinds(tasks: seq<Task>, k0: Key, required: set<Key>)
    requires SoundTasks(tasks) && Walking(tasks, k0, required, [])
    ensures required == PredecessorKeys(tasks, k0)
  {
    var g := GraphOf(tasks);
    assert DownClosed(g, required);
    PredecessorsWithin(g, required, k0);
  }

  /** The ancestor walk: a stack of keys still to expand, the answer in dispatch order. */
  method Ancestors(tasks: seq<Task>, target: nat) returns (r: Option<seq<nat>>)
    requires SoundTasks(tasks) && target < |tasks|
    ensures r == Some(Select(tasks, DispatchOrder(tasks), PredecessorKeys(tasks, tasks[target].key)))
  {
    var ordered := OrderedSlots(tasks);
    if ordered.None? { return None; }
    var k0 := tasks[target].key;
    var required: set<Key> := {};
    var frontier := tasks[target].dependsOn;
    StartWalk(tasks, target);
    while frontier != []
      invariant Walking(tasks, k0, required, frontier)
      decreases |Keys(tasks) - required|, |frontier|
    {
      var k := frontier[|frontier| - 1];
      ghost var was := frontier;
      frontier := frontier[..|frontier| - 1];
      assert was == frontier + [k];
      TopIsKnown(tasks, k0, required, frontier, k);
      if k in required {
        Skip(tasks, k0, required, frontier, k);
      } else {
        var row := SlotOfKey(tasks, k);
        Expand(tasks, k0, required, frontier, row);
        required := required + {k};
        frontier := frontier + tasks[row].dependsOn;
      }
    }
    WalkFinds(tasks, k0, required);
    return Some(Select(tasks, ordered.value, required));
  }

  function SlotOfKey(tasks: seq<Task>, k: Key): (r: nat)
    requires k in Keys(tasks)
    ensures r < |tasks| && tasks[r].key == k
  {
    var n := |tasks| - 1;
    if tasks[n].key == k then n
    else
      assert k in Keys(tasks[..n]) by {
        var i :| 0 <= i < |tasks| && tasks[i].key == k;
        assert tasks[..n][i].key == k;
      }
      SlotOfKey(tasks[..n], k)
  }
}
