/** What holds over whole runs of the collaboration protocol. */
module Safety {
  import opened Prelude
  import opened Graph
  import opened Tables
  import opened TaskGraph
  import opened Transactions
  import opened Invariant
  import opened Steps
  import opened Protocol

  lemma ReachableSound(s: System, run: seq<Event>)
    requires Initial(s)
    ensures SystemInv(Execute(s, run))
  {
    InitialKeeps(s);
    AlwaysSound(s, run);
  }

  lemma {:induction false} ExecuteTwice(s: System, first: seq<Event>, second: seq<Event>)
    ensures Execute(s, first + second) == Execute(Execute(s, first), second)
    decreases |second|
  {
    if second == [] {
      assert first + second == first;
    } else {
      var both := first + second;
      var front, e := second[..|second| - 1], second[|second| - 1];
      assert both[..|both| - 1] == first + front && both[|both| - 1] == e;
      ExecuteTwice(s, first, front);
      assert Execute(s, both) == Step(Execute(s, first + front), e.action, e.now);
    }
  }

  // ---- The graph ----

  /** In every reachable state the stored graph is closed and acyclic, so the dispatch order exists and
      lists each slot once, after its dependencies. */
  lemma GraphStaysSound(s: System, run: seq<Event>)
    requires Initial(s)
    ensures var tasks := TasksOf(Execute(s, run).db.slots);
            && Closed(GraphOf(tasks)) && Acyclic(GraphOf(tasks)) && SoundTasks(tasks)
            && |DispatchOrder(tasks)| == |tasks| && Distinct(DispatchOrder(tasks))
            && (forall i: nat | i < |tasks| :: i in DispatchOrder(tasks))
            && (forall n, d | 0 <= n < |tasks| && DispatchOrder(tasks)[n] < |tasks|
                              && d in tasks[DispatchOrder(tasks)[n]].dependsOn ::
                  exists m :: 0 <= m < n && DispatchOrder(tasks)[m] < |tasks| && tasks[DispatchOrder(tasks)[m]].key == d)
  {
    ReachableSound(s, run);
    DispatchOrderIsTopological(TasksOf(Execute(s, run).db.slots));
  }

  // ---- Claims ----

  lemma CompletedIsProduced(slots: seq<Slot>, j: nat, w: Worker)
    requires j < |slots|
    ensures slots[j].completedBy == Some(w) ==> slots[j].key in ProducedKeys(slots, w)
  {
  }

  /** A worker holds at most one slot, a held slot waits for nothing, and its owner completed nothing it reviews. */
  lemma ClaimSafety(s: System, run: seq<Event>)
    requires Initial(s)
    ensures var slots := Execute(s, run).db.slots;
            && (forall i, j, w | 0 <= i < |slots| && 0 <= j < |slots| && HoldsSlot(slots[i], w) && HoldsSlot(slots[j], w) :: i == j)
            && (forall i, k | 0 <= i < |slots| && slots[i].status == Claimed && k in slots[i].dependsOn :: k in DoneKeys(slots))
            && (forall i, j | 0 <= i < |slots| && 0 <= j < |slots| && slots[i].status == Claimed
                              && slots[j].key in slots[i].reviewOf :: slots[j].completedBy != slots[i].owner)
  {
    ReachableSound(s, run);
    var slots := Execute(s, run).db.slots;
    forall i | 0 <= i < |slots| && slots[i].status == Claimed
      ensures (forall k | k in slots[i].dependsOn :: k in DoneKeys(slots))
      ensures forall j | 0 <= j < |slots| && slots[j].key in slots[i].reviewOf :: slots[j].completedBy != slots[i].owner
    {
      assert SlotShape(slots[i]) && ClaimSound(slots, slots[i]);
      forall j: nat | j < |slots| && slots[j].key in slots[i].reviewOf ensures slots[j].completedBy != slots[i].owner {
        CompletedIsProduced(slots, j, slots[i].owner.value);
      }
    }
  }

  /** Whoever finishes a review through the ordinary path completed none of the reviewed tasks. */
  lemma OrdinaryReviewsAreIndependent(s: System, run: seq<Event>, w: Worker, row: nat, generation: nat, commit: Commit, now: Time)
    requires Initial(s)
    requires Finish(Execute(s, run).db, w, row, generation, commit, now).Some?
    ensures var prior := Execute(s, run).db;
            var next := Finish(prior, w, row, generation, commit, now).value;
            && next.slots[row].completedBy == Some(w)
            && forall j | 0 <= j < |next.slots| && next.slots[j].key in next.slots[row].reviewOf :: next.slots[j].completedBy != Some(w)
  {
    ReachableSound(s, run);
    var prior := Execute(s, run).db;
    var next := Finish(prior, w, row, generation, commit, now).value;
    assert ClaimSound(prior.slots, prior.slots[row]);
    assert SoundTask(TasksOf(prior.slots)[row]);
    assert prior.slots[row].key !in prior.slots[row].reviewOf;
    forall j: nat | j < |next.slots| && next.slots[j].key in next.slots[row].reviewOf ensures next.slots[j].completedBy != Some(w) {
      CompletedIsProduced(prior.slots, j, w);
    }
  }

  /** A held slot whose start commit is recorded has every transitive predecessor done and applied to its
      owner's worktree, whatever interleaved between the reservation and the binding. */
  lemma InputClosure(s: System, run: seq<Event>, i: nat, j: nat)
    requires Initial(s)
    requires var slots := Execute(s, run).db.slots;
             i < |slots| && j < |slots| && slots[i].status == Claimed && slots[i].owner.Some? && slots[i].start.Some?
             && Precedes(GraphOf(TasksOf(slots)), slots[j].key, slots[i].key)
    ensures var db := Execute(s, run).db;
            db.slots[j].status == Done && (db.slots[i].owner.value, j) in db.inputs
  {
    ReachableSound(s, run);
    var db := Execute(s, run).db;
    var tasks := TasksOf(db.slots);
    assert StartSound(db, db.slots[i]);
    var w := db.slots[i].owner.value;
    var keys :| Covered(db, w, [], db.slots[i].dependsOn, keys);
    var g := GraphOf(tasks);
    GraphAt(tasks, i);
    assert tasks[i].key == db.slots[i].key;
    forall k | k in keys && k in g ensures g[k] <= keys {
      var n: nat :| InputRow(db, w, [], n) && db.slots[n].key == k && Subset(db.slots[n].dependsOn, keys);
      assert tasks[n].key == k;
      GraphAt(tasks, n);
    }
    PredecessorsWithin(g, keys, db.slots[i].key);
    var n: nat :| InputRow(db, w, [], n) && db.slots[n].key == db.slots[j].key && Subset(db.slots[n].dependsOn, keys);
    SameKeySameRow(db.slots, n, j);
  }

  // ---- Fencing ----

  /** What is left of the lease (row, generation) that `owner` once held: still that owner's, or gone for good. */
  predicate Fenced(slots: seq<Slot>, row: nat, generation: nat, owner: Option<Worker>) {
    && row < |slots|
    && (slots[row].generation > generation
        || (slots[row].generation == generation && (slots[row].status == Claimed ==> slots[row].owner == owner)))
  }

  lemma {:induction false} FencedForever(s: System, run: seq<Event>, row: nat, generation: nat, owner: Option<Worker>)
    requires SystemInv(s) && Fenced(s.db.slots, row, generation, owner)
    ensures Fenced(Execute(s, run).db.slots, row, generation, owner)
    decreases |run|
  {
    if run != [] {
      var front := Execute(s, run[..|run| - 1]);
      FencedForever(s, run[..|run| - 1], row, generation, owner);
      AlwaysSound(s, run[..|run| - 1]);
      StepKeeps(front, run[|run| - 1].action, run[|run| - 1].now);
      assert RowEvolves(Execute(s, run).db, front.db.slots[row], Execute(s, run).db.slots[row]);
    }
  }

  predicate SameGeneration(s: Slot, t: Slot) {
    s.status == Claimed && t.status == Claimed && s.generation == t.generation
  }

  /** A lease generation never decreases, and no (slot, generation) pair ever has two owners. */
  lemma OneOwnerPerGeneration(s: System, before: seq<Event>, after: seq<Event>, row: nat)
    requires Initial(s) && row < |Execute(s, before).db.slots|
    ensures var prior := Execute(s, before).db.slots;
            var next := Execute(s, before + after).db.slots;
            && row < |next| && prior[row].generation <= next[row].generation
            && (SameGeneration(prior[row], next[row]) ==> prior[row].owner == next[row].owner)
  {
    ReachableSound(s, before);
    ExecuteTwice(s, before, after);
    var mid := Execute(s, before);
    FencedForever(mid, after, row, mid.db.slots[row].generation, mid.db.slots[row].owner);
  }

  /** A worker whose lease on a row was superseded never owns that row under that generation again. */
  lemma SupersededForever(s: System, before: seq<Event>, after: seq<Event>, row: nat, w: Worker, generation: nat)
    requires Initial(s) && row < |Execute(s, before).db.slots|
    requires Execute(s, before).db.slots[row].generation >= generation
    requires ActiveSlot(Execute(s, before).db.slots, w, generation) != Some(row)
    ensures ActiveSlot(Execute(s, before + after).db.slots, w, generation) != Some(row)
  {
    ReachableSound(s, before);
    ExecuteTwice(s, before, after);
    var mid := Execute(s, before);
    var owner := mid.db.slots[row].owner;
    assert SlotShape(mid.db.slots[row]);
    if mid.db.slots[row].generation == generation && owner == Some(w) {
      HeldRow(mid.db.slots, row, w);
    }
    FencedForever(mid, after, row, mid.db.slots[row].generation, owner);
  }

  /** Every generation-checked write of a slot is refused to whoever does not hold that slot under that generation. */
  lemma GenerationCheckedWrites(db: Db, w: Worker, row: nat, generation: nat, start: Option<Commit>, commit: Commit,
                                r: Resource, now: Time)
    requires ActiveSlot(db.slots, w, generation) != Some(row)
    ensures Finish(db, w, row, generation, commit, now).None?
    ensures CheckpointTx(db, w, generation, row, start, commit, now).None?
    ensures ResourceBlocked(db, w, row, generation, r, now).None?
    ensures Bind(db, w, row, generation, commit).None?
    ensures var h := Heartbeat(db, w, generation, now);
            h.Some? && row < |db.slots| ==> h.value.slots[row] == db.slots[row]
  {
  }

  // ---- Completion ----

  lemma {:induction false} DoneForever(s: System, run: seq<Event>, row: nat)
    requires SystemInv(s) && row < |s.db.slots| && s.db.slots[row].status == Done
    ensures row < |Execute(s, run).db.slots| && Execute(s, run).db.slots[row] == s.db.slots[row]
    decreases |run|
  {
    if run != [] {
      var front := Execute(s, run[..|run| - 1]);
      DoneForever(s, run[..|run| - 1], row);
      AlwaysSound(s, run[..|run| - 1]);
      StepKeeps(front, run[|run| - 1].action, run[|run| - 1].now);
      assert RowEvolves(Execute(s, run).db, front.db.slots[row], Execute(s, run).db.slots[row]);
    }
  }

  /** Once a slot is done its commit, its completer and its task never change. */
  lemma AcceptedResultIsFinal(s: System, before: seq<Event>, after: seq<Event>, row: nat)
    requires Initial(s)
    requires row < |Execute(s, before).db.slots| && Execute(s, before).db.slots[row].status == Done
    ensures row < |Execute(s, before + after).db.slots|
    ensures Execute(s, before + after).db.slots[row] == Execute(s, before).db.slots[row]
  {
    ReachableSound(s, before);
    ExecuteTwice(s, before, after);
    DoneForever(Execute(s, before), after, row);
  }

  lemma {:induction false} RecordForever(s: System, run: seq<Event>, n: nat)
    requires SystemInv(s) && n < |s.db.reclaims|
    ensures n < |Execute(s, run).db.reclaims|
    ensures RecordEvolves(s.db.reclaims[n], Execute(s, run).db.reclaims[n])
    decreases |run|
  {
    if run != [] {
      var front := Execute(s, run[..|run| - 1]);
      RecordForever(s, run[..|run| - 1], n);
      AlwaysSound(s, run[..|run| - 1]);
      StepKeeps(front, run[|run| - 1].action, run[|run| - 1].now);
      assert RecordEvolves(front.db.reclaims[n], Execute(s, run).db.reclaims[n]);
    }
  }

  /** A lease is reclaimed at most once, and its late result is resolved at most once: later reports under it
      either repeat the same commit and change nothing, or are refused. */
  lemma LateResultResolvedOnce(s: System, before: seq<Event>, after: seq<Event>, n: nat, commit: Commit, now: Time)
    requires Initial(s)
    requires n < |Execute(s, before).db.reclaims| && Execute(s, before).db.reclaims[n].resolutionCommit.Some?
    ensures var r := Execute(s, before).db.reclaims[n];
            var db := Execute(s, before + after).db;
            && n < |db.reclaims| && db.reclaims[n].resolution == r.resolution && db.reclaims[n].resolutionCommit == r.resolutionCommit
            && (forall m | 0 <= m < |db.reclaims| && m != n :: (db.reclaims[m].slot, db.reclaims[m].oldGeneration) != (r.slot, r.oldGeneration))
            && (FinishLate(db, r.oldOwner, r.slot, r.oldGeneration, commit, now).Some? ==>
                  Some(commit) == r.resolutionCommit && FinishLate(db, r.oldOwner, r.slot, r.oldGeneration, commit, now).value == db)
  {
    ReachableSound(s, before);
    ExecuteTwice(s, before, after);
    RecordForever(Execute(s, before), after, n);
    ReachableSound(s, before + after);
    var r := Execute(s, before).db.reclaims[n];
    var db := Execute(s, before + after).db;
    assert RecordEvolves(r, db.reclaims[n]);
    forall m | 0 <= m < |db.reclaims| && m != n
      ensures (db.reclaims[m].slot, db.reclaims[m].oldGeneration) != (r.slot, r.oldGeneration)
    {
      var lo, hi := if m < n then m else n, if m < n then n else m;
      assert (db.reclaims[lo].slot, db.reclaims[lo].oldGeneration) != (db.reclaims[hi].slot, db.reclaims[hi].oldGeneration);
    }
    var found := LeaseRecord(db.reclaims, r.slot, r.oldOwner, r.oldGeneration);
    if found.Some? { assert found.value == n; }
  }

  // ---- After the election ----

  predicate ClosedSince(prior: Db, next: Db) {
    && next.run.state != Open && Rank(prior.run.state) <= Rank(next.run.state)
    && next.slots == prior.slots && next.delegations == prior.delegations
    && next.run.integratorGeneration >= prior.run.integratorGeneration
    && (next.run.integrator != prior.run.integrator ==> next.run.integratorGeneration > prior.run.integratorGeneration)
    && (prior.run.attempted ==> next.run.attempted)
  }

  lemma {:induction false} ClosedForever(s: System, run: seq<Event>)
    requires SystemInv(s) && s.db.run.state != Open
    ensures ClosedSince(s.db, Execute(s, run).db)
    decreases |run|
  {
    if run != [] {
      var front := Execute(s, run[..|run| - 1]);
      ClosedForever(s, run[..|run| - 1]);
      AlwaysSound(s, run[..|run| - 1]);
      StepKeeps(front, run[|run| - 1].action, run[|run| - 1].now);
    }
  }

  /** Once a run has left the open state every slot is done and every delegation settled, neither table changes
      again, the state only moves on, the integrator changes only under a larger generation, and an active serial
      tail belongs to the current integrator. */
  lemma ElectionIsFinal(s: System, before: seq<Event>, after: seq<Event>)
    requires Initial(s) && Execute(s, before).db.run.state != Open
    ensures var prior := Execute(s, before).db;
            var next := Execute(s, before + after).db;
            && AllDone(prior.slots) && AllSettled(prior.delegations)
            && next.slots == prior.slots && next.delegations == prior.delegations
            && next.run.state != Open && Rank(prior.run.state) <= Rank(next.run.state)
            && next.run.integratorGeneration >= prior.run.integratorGeneration
            && (next.run.integratorGeneration == prior.run.integratorGeneration ==> next.run.integrator == prior.run.integrator)
            && (next.tail.Some? && next.tail.value.status == TailActive ==>
                  next.run.state == Integrated && next.tail.value.owner == next.run.integrator)
  {
    ReachableSound(s, before);
    ReachableSound(s, before + after);
    ExecuteTwice(s, before, after);
    ClosedForever(Execute(s, before), after);
  }

  lemma ReplayIsOver(s: System, run: seq<Event>, w: Worker, head: Commit)
    requires SystemInv(s) && s.db.run.attempted
    ensures BeginReplay(Execute(s, run).db, w, head).None?
  {
    ClosedForever(s, run);
  }

  lemma StepAfter(s: System, before: seq<Event>, e: Event)
    ensures Execute(s, before + [e]) == Step(Execute(s, before), e.action, e.now)
  {
    assert (before + [e])[..|before|] == before;
  }

  /** The automatic replay starts at most once in a run, whoever is the integrator. */
  lemma ReplayStartsOnce(s: System, before: seq<Event>, after: seq<Event>, w: Worker, head: Commit, v: Worker, other: Commit, now: Time)
    requires Initial(s)
    requires BeginReplay(Execute(s, before).db, w, head).Some?
    ensures BeginReplay(Execute(s, before + [Event(DoBeginReplay(w, head), now)] + after).db, v, other).None?
  {
    var e := Event(DoBeginReplay(w, head), now);
    ReachableSound(s, before + [e]);
    StepAfter(s, before, e);
    ExecuteTwice(s, before + [e], after);
    ReplayIsOver(Execute(s, before + [e]), after, v, other);
  }
}
