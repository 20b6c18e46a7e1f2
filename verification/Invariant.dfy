/** What every reachable database satisfies, and how one transaction may change it. */
module Invariant {
  import opened Prelude
  import opened Tables

  // ---- One state ----

  predicate SlotShape(s: Slot) {
    && (s.status == Claimed <==> s.owner.Some?)
    && (s.status == Done <==> s.completedBy.Some?)
    && (s.status == Done ==> s.commit.Some?)
    && (s.status == Available ==> s.start.None?)
  }

  predicate OneLease(slots: seq<Slot>) {
    forall i, j | 0 <= i < j < |slots| :: slots[i].owner.Some? ==> slots[i].owner != slots[j].owner
  }

  /** A claimed slot waits for nothing, and its owner reviews nobody's work but others'. */
  predicate ClaimSound(slots: seq<Slot>, s: Slot) {
    s.status == Claimed && s.owner.Some? ==>
      && Subset(s.dependsOn, DoneKeys(slots))
      && forall k | k in s.reviewOf :: k !in ProducedKeys(slots, s.owner.value)
  }

  predicate DoneRow(slots: seq<Slot>, j: nat) {
    j < |slots| && slots[j].status == Done
  }

  predicate InputsDone(db: Db) {
    forall p | p in db.inputs :: DoneRow(db.slots, p.1)
  }

  /** Row `j` is a done input of `w`, applied already or still among `pending`. */
  predicate InputRow(db: Db, w: Worker, pending: seq<nat>, j: nat) {
    DoneRow(db.slots, j) && ((w, j) in db.inputs || j in pending)
  }

  /** `keys` contains `deps`, is closed under dependencies, and consists of inputs of `w`. */
  ghost predicate Covered(db: Db, w: Worker, pending: seq<nat>, deps: seq<Key>, keys: set<Key>) {
    && Subset(deps, keys)
    && forall k | k in keys ::
         exists j: nat :: InputRow(db, w, pending, j) && db.slots[j].key == k && Subset(db.slots[j].dependsOn, keys)
  }

  ghost predicate InputsClosed(db: Db, w: Worker, pending: seq<nat>, deps: seq<Key>) {
    exists keys :: Covered(db, w, pending, deps, keys)
  }

  ghost predicate StartSound(db: Db, s: Slot) {
    s.status == Claimed && s.owner.Some? && s.start.Some? ==> InputsClosed(db, s.owner.value, [], s.dependsOn)
  }

  predicate RunShape(db: Db) {
    && (db.run.state != Open ==> AllDone(db.slots) && AllSettled(db.delegations) && db.run.integrator.Some?)
    && (db.run.state == Open ==> !db.run.attempted && db.run.integratorGeneration == 0 && db.run.integrator.None?)
    && (db.run.candidate.Some? ==> db.run.attempted)
    && (db.run.state == Integrated ==> db.run.candidate.Some?)
  }

  predicate TailShape(db: Db) {
    db.tail.Some? ==>
      && (db.run.state != Integrated ==> db.tail.value.status == TailPending && db.tail.value.owner.None?)
      && (db.run.state == Integrated ==> db.tail.value.status != TailPending)
      && (db.tail.value.status == TailActive ==> db.tail.value.owner == db.run.integrator)
  }

  predicate RecordSound(db: Db, r: Reclaim) {
    && r.slot < |db.slots|
    && r.oldGeneration <= db.slots[r.slot].generation
    && (db.slots[r.slot].status == Claimed ==>
          r.oldGeneration < db.slots[r.slot].generation)
    && (r.resolution.Some? <==> r.resolutionCommit.Some?)
  }

  predicate Records(db: Db) {
    && (forall n | 0 <= n < |db.reclaims| :: RecordSound(db, db.reclaims[n]))
    && (forall m, n | 0 <= m < n < |db.reclaims| ::
          (db.reclaims[m].slot, db.reclaims[m].oldGeneration) != (db.reclaims[n].slot, db.reclaims[n].oldGeneration))
  }

  /** Only the slots of workers that joined an unplanned run have no key of their own. */
  predicate KeyedRows(db: Db) {
    db.run.planned ==> forall i | 0 <= i < |db.slots| :: db.slots[i].key.Named?
  }

  /** The slot table: a sound graph, one lease per worker, sound claims and closed inputs. */
  ghost predicate RowsInv(db: Db) {
    && SoundTasks(TasksOf(db.slots)) && KeyedRows(db)
    && (forall i | 0 <= i < |db.slots| :: SlotShape(db.slots[i]))
    && OneLease(db.slots)
    && (forall i | 0 <= i < |db.slots| :: ClaimSound(db.slots, db.slots[i]))
    && InputsDone(db)
    && (forall i | 0 <= i < |db.slots| :: StartSound(db, db.slots[i]))
  }

  ghost predicate Inv(db: Db) {
    RowsInv(db) && RunShape(db) && TailShape(db) && Records(db)
  }

  // ---- Two states ----

  predicate SameLease(s: Slot, t: Slot) {
    && s.status == Claimed && t.status == Claimed && s.owner == t.owner
    && (t.generation == s.generation || (s.generation == 0 && t.generation == 1))
  }

  predicate FreshLease(slots: seq<Slot>, s: Slot, t: Slot) {
    && t.status == Claimed && t.start.None? && t.generation > s.generation
    && TaskOf(t) == TaskOf(s)
    && ClaimSound(slots, t)
  }

  ghost predicate RowEvolves(next: Db, s: Slot, t: Slot) {
    && t.key == s.key
    && t.generation >= s.generation
    && (s.status == Done ==> t == s)
    && (s.status != Available ==> TaskOf(t) == TaskOf(s))
    && (t.status == Claimed ==> SameLease(s, t) || FreshLease(next.slots, s, t))
    && (t.status == Claimed && t.start.Some? && s.start.None? ==> StartSound(next, t))
  }

  predicate NewRow(db: Db, t: Slot) {
    && (db.run.planned ==> t.key.Named?)
    && t.start.None? && t.completedBy.None? && t.status != Done
    && (t.status == Claimed ==> t.dependsOn == [] && t.reviewOf == [])
  }

  ghost predicate RowsEvolve(prior: Db, next: Db) {
    && |prior.slots| <= |next.slots|
    && prior.inputs <= next.inputs
    && (forall i | 0 <= i < |prior.slots| :: RowEvolves(next, prior.slots[i], next.slots[i]))
    && (forall i | |prior.slots| <= i < |next.slots| :: NewRow(next, next.slots[i]))
    && InputsDone(next)
  }

  function Rank(s: RunState): nat {
    match s case Open => 0 case Integrating => 1 case Integrated => 2
  }

  predicate RunEvolves(prior: Db, next: Db) {
    && Rank(prior.run.state) <= Rank(next.run.state) <= Rank(prior.run.state) + 1
    && (prior.run.state != Open ==> next.slots == prior.slots && next.delegations == prior.delegations)
    && next.run.integratorGeneration >= prior.run.integratorGeneration
    && (next.run.integrator != prior.run.integrator ==> next.run.integratorGeneration > prior.run.integratorGeneration)
    && (prior.run.attempted ==> next.run.attempted)
    && next.run.planned == prior.run.planned
  }

  predicate RecordEvolves(r: Reclaim, q: Reclaim) {
    && q.slot == r.slot && q.oldOwner == r.oldOwner && q.oldGeneration == r.oldGeneration && q.oldStart == r.oldStart
    && (r.resolutionCommit.Some? ==> q.resolution == r.resolution && q.resolutionCommit == r.resolutionCommit)
    && (r.adoptedBy.Some? ==> q.adoptedBy == r.adoptedBy)
  }

  predicate RecordsEvolve(prior: Db, next: Db) {
    && |prior.reclaims| <= |next.reclaims|
    && forall n | 0 <= n < |prior.reclaims| :: RecordEvolves(prior.reclaims[n], next.reclaims[n])
  }

  ghost predicate Evolves(prior: Db, next: Db) {
    RowsEvolve(prior, next) && RunEvolves(prior, next) && RecordsEvolve(prior, next)
  }

  // ---- What evolution keeps by itself ----

  lemma DoneKeysGrow(prior: Db, next: Db)
    requires RowsEvolve(prior, next)
    ensures DoneKeys(prior.slots) <= DoneKeys(next.slots)
  {
    forall k | k in DoneKeys(prior.slots) ensures k in DoneKeys(next.slots) {
      var i :| 0 <= i < |prior.slots| && prior.slots[i].status == Done && prior.slots[i].key == k;
      assert RowEvolves(next, prior.slots[i], next.slots[i]);
    }
  }

  /** Covered inputs stay covered: done rows never change and applied inputs are never forgotten. */
  lemma CoverStays(prior: Db, next: Db, w: Worker, pending: seq<nat>, deps: seq<Key>)
    requires RowsEvolve(prior, next)
    requires InputsClosed(prior, w, pending, deps)
    ensures InputsClosed(next, w, pending, deps)
  {
    var keys :| Covered(prior, w, pending, deps, keys);
    forall k | k in keys
      ensures exists j: nat :: InputRow(next, w, pending, j) && next.slots[j].key == k && Subset(next.slots[j].dependsOn, keys)
    {
      var j: nat :| InputRow(prior, w, pending, j) && prior.slots[j].key == k && Subset(prior.slots[j].dependsOn, keys);
      assert RowEvolves(next, prior.slots[j], next.slots[j]);
      assert InputRow(next, w, pending, j);
    }
    assert Covered(next, w, pending, deps, keys);
  }

  lemma SameKeySameRow(slots: seq<Slot>, i: nat, j: nat)
    requires DistinctKeys(TasksOf(slots)) && i < |slots| && j < |slots|
    requires slots[i].key == slots[j].key
    ensures i == j
  {
    assert TasksOf(slots)[i].key == slots[i].key && TasksOf(slots)[j].key == slots[j].key;
  }

  lemma ClaimStaysSound(prior: Db, next: Db, i: nat)
    requires RowsEvolve(prior, next) && i < |prior.slots|
    requires SoundTasks(TasksOf(prior.slots)) && SoundTasks(TasksOf(next.slots))
    requires forall j | 0 <= j < |prior.slots| :: SlotShape(prior.slots[j])
    requires forall j | 0 <= j < |next.slots| :: SlotShape(next.slots[j])
    requires ClaimSound(prior.slots, prior.slots[i]) && SameLease(prior.slots[i], next.slots[i])
    ensures ClaimSound(next.slots, next.slots[i])
  {
    var s, t := prior.slots[i], next.slots[i];
    assert RowEvolves(next, s, t);
    DoneKeysGrow(prior, next);
    assert t.dependsOn == TaskOf(t).dependsOn == s.dependsOn;
    assert t.reviewOf == TaskOf(t).reviewOf == s.reviewOf;
    if t.owner.Some? {
      forall k | k in t.reviewOf ensures k !in ProducedKeys(next.slots, t.owner.value) {
        ReviewedWorkStays(prior, next, i, k);
      }
    }
  }

  lemma ReviewedWorkStays(prior: Db, next: Db, i: nat, k: Key)
    requires RowsEvolve(prior, next) && i < |prior.slots|
    requires SoundTasks(TasksOf(prior.slots)) && SoundTasks(TasksOf(next.slots))
    requires forall j | 0 <= j < |next.slots| :: SlotShape(next.slots[j])
    requires prior.slots[i].owner.Some? && prior.slots[i].status == Claimed
    requires ClaimSound(prior.slots, prior.slots[i])
    requires k in prior.slots[i].reviewOf
    ensures k !in ProducedKeys(next.slots, prior.slots[i].owner.value)
  {
    var w := prior.slots[i].owner.value;
    assert SoundTask(TasksOf(prior.slots)[i]);
    assert k in prior.slots[i].dependsOn;
    var j: nat :| j < |prior.slots| && prior.slots[j].status == Done && prior.slots[j].key == k;
    assert RowEvolves(next, prior.slots[j], next.slots[j]);
    assert prior.slots[j].completedBy != Some(w);
    if k in ProducedKeys(next.slots, w) {
      var n: nat :| n < |next.slots| && next.slots[n].completedBy == Some(w) && next.slots[n].key == k;
      SameKeySameRow(next.slots, n, j);
    }
  }

  /** The slot part of the invariant follows from evolution, shape, a sound graph and unique leases. */
  lemma RowsKeepInvariant(prior: Db, next: Db)
    requires RowsInv(prior) && RowsEvolve(prior, next)
    requires SoundTasks(TasksOf(next.slots))
    requires forall i | 0 <= i < |next.slots| :: SlotShape(next.slots[i])
    ensures forall i | 0 <= i < |next.slots| :: ClaimSound(next.slots, next.slots[i])
    ensures forall i | 0 <= i < |next.slots| :: StartSound(next, next.slots[i])
  {
    forall i | 0 <= i < |next.slots| ensures ClaimSound(next.slots, next.slots[i]) && StartSound(next, next.slots[i]) {
      if i < |prior.slots| {
        var s, t := prior.slots[i], next.slots[i];
        assert RowEvolves(next, s, t);
        if SameLease(s, t) {
          ClaimStaysSound(prior, next, i);
          if s.start.Some? && t.start.Some? {
            assert StartSound(prior, s);
            assert t.dependsOn == TaskOf(t).dependsOn == s.dependsOn;
            CoverStays(prior, next, s.owner.value, [], s.dependsOn);
          }
        }
      } else {
        assert NewRow(next, next.slots[i]);
      }
    }
  }
}
