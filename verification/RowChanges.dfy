/** How the slot-table invariant survives the two kinds of row change: one row replaced, one row added. */
module RowChanges {
  import opened Graph
  import opened Tables
  import opened TaskGraph
  import opened Invariant

  lemma SameTasks(a: seq<Slot>, b: seq<Slot>)
    requires |a| == |b| && forall i | 0 <= i < |a| :: TaskOf(a[i]) == TaskOf(b[i])
    ensures TasksOf(a) == TasksOf(b)
  {
    assert forall i | 0 <= i < |a| :: TasksOf(a)[i] == TasksOf(b)[i];
  }

  lemma RowUnchanged(prior: Db, next: Db, s: Slot)
    requires SlotShape(s)
    ensures RowEvolves(next, s, s)
  {
  }

  /** Nobody but row `i` may hold the owner that row `i` is about to have. */
  predicate OwnerFree(slots: seq<Slot>, i: nat, t: Slot) {
    t.owner.Some? ==> forall j | 0 <= j < |slots| && j != i :: slots[j].owner != t.owner
  }

  lemma OneRow(prior: Db, next: Db, i: nat, t: Slot)
    requires RowsInv(prior) && i < |prior.slots|
    requires next.slots == prior.slots[i := t]
    requires TaskOf(t) == TaskOf(prior.slots[i]) && next.run.planned == prior.run.planned
    requires RowEvolves(next, prior.slots[i], t) && SlotShape(t) && OwnerFree(prior.slots, i, t)
    requires prior.inputs <= next.inputs && InputsDone(next)
    ensures RowsInv(next) && RowsEvolve(prior, next)
  {
    SameTasks(prior.slots, next.slots);
    forall j | 0 <= j < |prior.slots| ensures RowEvolves(next, prior.slots[j], next.slots[j]) {
      if j != i { RowUnchanged(prior, next, prior.slots[j]); }
    }
    RowsKeepInvariant(prior, next);
  }

  /** Tables other than the slots do not matter to the slot invariant, except that inputs must be done. */
  lemma NoRow(prior: Db, next: Db)
    requires RowsInv(prior) && next.slots == prior.slots && next.run.planned == prior.run.planned
    requires prior.inputs <= next.inputs && InputsDone(next)
    ensures RowsInv(next) && RowsEvolve(prior, next)
  {
    forall j | 0 <= j < |prior.slots| ensures RowEvolves(next, prior.slots[j], next.slots[j]) {
      RowUnchanged(prior, next, prior.slots[j]);
    }
    RowsKeepInvariant(prior, next);
  }

  lemma AppendedTasks(slots: seq<Slot>, t: Slot)
    ensures TasksOf(slots + [t]) == TasksOf(slots) + [TaskOf(t)]
  {
  }

  lemma LeafTaskSound(tasks: seq<Task>, t: Task)
    requires SoundTasks(tasks) && t.dependsOn == [] && t.reviewOf == [] && t.exclude == []
    requires forall i | 0 <= i < |tasks| :: tasks[i].key != t.key
    requires t.key.Unnamed? ==> t.key.row == |tasks|
    ensures SoundTasks(tasks + [t])
  {
    var more := tasks + [t];
    var g, h := GraphOf(tasks), GraphOf(more);
    assert t.key !in g;
    AddLeaf(g, t.key);
    LeafGraph(tasks, t);
    forall i | 0 <= i < |more| ensures SoundTask(more[i]) {
      if i < |tasks| { assert SoundTask(tasks[i]); }
    }
  }

  lemma LeafGraph(tasks: seq<Task>, t: Task)
    requires DistinctKeys(tasks) && t.dependsOn == []
    requires forall i | 0 <= i < |tasks| :: tasks[i].key != t.key
    ensures GraphOf(tasks + [t]) == GraphOf(tasks)[t.key := {}]
  {
    var more := tasks + [t];
    var g, h := GraphOf(tasks)[t.key := {}], GraphOf(more);
    assert DistinctKeys(more);
    forall k ensures k in g <==> k in h {
      if k in Keys(tasks) {
        var i :| 0 <= i < |tasks| && tasks[i].key == k;
        assert more[i].key == k;
      }
      if k == t.key { assert more[|tasks|].key == k; }
    }
    forall k | k in h ensures g[k] == h[k] {
      var i: nat :| i < |more| && more[i].key == k;
      GraphAt(more, i);
      if i < |tasks| { GraphAt(tasks, i); }
    }
  }

  /** A new slot without dependencies, unclaimed or claimed by a worker that holds nothing. */
  lemma AddRow(prior: Db, next: Db, t: Slot)
    requires RowsInv(prior)
    requires next.slots == prior.slots + [t] && next.inputs == prior.inputs && next.run.planned == prior.run.planned
    requires t.dependsOn == [] && t.reviewOf == [] && t.exclude == []
    requires NewRow(next, t) && SlotShape(t)
    requires forall i | 0 <= i < |prior.slots| :: prior.slots[i].key != t.key
    requires OwnerFree(prior.slots, |prior.slots|, t)
    requires t.key.Unnamed? ==> t.key.row == |prior.slots|
    ensures RowsInv(next) && RowsEvolve(prior, next)
  {
    AppendedTasks(prior.slots, t);
    forall i | 0 <= i < |prior.slots| ensures TasksOf(prior.slots)[i].key != t.key {
      assert TasksOf(prior.slots)[i].key == prior.slots[i].key;
    }
    LeafTaskSound(TasksOf(prior.slots), TaskOf(t));
    forall j | 0 <= j < |prior.slots| ensures RowEvolves(next, prior.slots[j], next.slots[j]) {
      RowUnchanged(prior, next, prior.slots[j]);
    }
    forall p | p in next.inputs ensures DoneRow(next.slots, p.1) { assert DoneRow(prior.slots, p.1); }
    RowsKeepInvariant(prior, next);
  }
}
