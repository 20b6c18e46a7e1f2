/** Every write transaction keeps the invariant, evolves the tables lawfully, and loses no election. */
module Steps {
  import opened Prelude
  import opened Tables
  import opened TaskGraph
  import opened Transactions
  import opened Invariant
  import opened RowChanges

  /** The step kept everything, and if the run is ready to integrate now it already was. */
  ghost predicate Good(prior: Db, next: Db) {
    && Inv(next) && Evolves(prior, next)
    && (ReadyToIntegrate(next) ==> ReadyToIntegrate(prior))
  }

  lemma Unchanged(db: Db)
    requires Inv(db)
    ensures Good(db, db)
  {
    NoRow(db, db);
  }

  /** A step that touches neither slots, inputs, delegations, records, the run nor the tail. */
  lemma SideTable(prior: Db, next: Db)
    requires Inv(prior)
    requires next.slots == prior.slots && next.inputs == prior.inputs && next.delegations == prior.delegations
    requires next.reclaims == prior.reclaims && next.tail == prior.tail
    requires next.run == prior.run
    ensures Good(prior, next)
  {
    NoRow(prior, next);
  }

  lemma RecordsStay(prior: Db, next: Db)
    requires Records(prior) && RowsEvolve(prior, next) && next.reclaims == prior.reclaims
    ensures Records(next) && RecordsEvolve(prior, next)
  {
    forall n | 0 <= n < |next.reclaims| ensures RecordSound(next, next.reclaims[n]) {
      assert RecordSound(prior, prior.reclaims[n]);
      var r := prior.reclaims[n].slot;
      assert RowEvolves(next, prior.slots[r], next.slots[r]);
    }
  }

  lemma HeldRow(slots: seq<Slot>, i: nat, w: Worker)
    requires OneLease(slots) && i < |slots| && HoldsSlot(slots[i], w)
    ensures forall j | 0 <= j < |slots| && j != i :: slots[j].owner != Some(w)
    ensures HeldSlot(slots, w) == Some(i)
  {
  }

  /** A worker without a claimed slot owns no row. */
  lemma NothingHeld(slots: seq<Slot>, w: Worker)
    requires forall i | 0 <= i < |slots| :: SlotShape(slots[i])
    requires HeldSlot(slots, w).None?
    ensures forall i | 0 <= i < |slots| :: slots[i].owner != Some(w)
  {
    forall i | 0 <= i < |slots| ensures slots[i].owner != Some(w) {
      assert !HoldsSlot(slots[i], w) && SlotShape(slots[i]);
    }
  }

  /** A claimed row changes without being completed: a touch, a checkpoint, a binding or a release. */
  lemma ClaimedRowStep(prior: Db, next: Db, i: nat, t: Slot)
    requires Inv(prior) && i < |prior.slots| && prior.slots[i].status == Claimed
    requires next.slots == prior.slots[i := t] && t.status != Done
    requires TaskOf(t) == TaskOf(prior.slots[i])
    requires RowEvolves(next, prior.slots[i], t) && SlotShape(t)
    requires t.owner.None? || t.owner == prior.slots[i].owner
    requires next.inputs == prior.inputs && next.delegations == prior.delegations && next.tail == prior.tail
    requires next.run.(revision := prior.run.revision) == prior.run
    ensures RowsInv(next) && RowsEvolve(prior, next) && RunEvolves(prior, next) && RunShape(next) && TailShape(next)
    ensures prior.run.state == Open && !AllDone(next.slots)
  {
    var s := prior.slots[i];
    assert SlotShape(s);
    HeldRow(prior.slots, i, s.owner.value);
    assert next.slots[i] == t;
    forall p | p in next.inputs ensures DoneRow(next.slots, p.1) { assert DoneRow(prior.slots, p.1); }
    OneRow(prior, next, i, t);
  }

  lemma HeartbeatGood(db: Db, w: Worker, generation: nat, now: Time)
    requires Inv(db) && Heartbeat(db, w, generation, now).Some?
    ensures Good(db, Heartbeat(db, w, generation, now).value)
  {
    var next := Heartbeat(db, w, generation, now).value;
    if db.run.integrator == Some(w) && db.run.state != Open {
      NoRow(db, next);
    } else {
      var i := ActiveSlot(db.slots, w, generation).value;
      ClaimedRowStep(db, next, i, next.slots[i]);
      RecordsStay(db, next);
    }
  }

  lemma CheckpointGood(db: Db, w: Worker, generation: nat, row: nat, start: Option<Commit>, commit: Commit, now: Time)
    requires Inv(db) && CheckpointTx(db, w, generation, row, start, commit, now).Some?
    ensures Good(db, CheckpointTx(db, w, generation, row, start, commit, now).value)
  {
    var next := CheckpointTx(db, w, generation, row, start, commit, now).value;
    ClaimedRowStep(db, next, row, next.slots[row]);
    RecordsStay(db, next);
  }

  /** The lease a reclaim records was not recorded before, and the slot moves past it when leased again. */
  lemma NewRecordSound(prior: Db, next: Db, i: nat)
    requires Inv(prior) && i < |prior.slots| && prior.slots[i].status == Claimed && prior.slots[i].owner.Some?
    requires RowsEvolve(prior, next)
    requires next.slots[i].status != Claimed || next.slots[i].generation > prior.slots[i].generation
    requires next.reclaims == prior.reclaims + [RecordOf(i, prior.slots[i], prior.slots[i].owner.value)]
    ensures Records(next) && RecordsEvolve(prior, next)
  {
    forall n | 0 <= n < |next.reclaims| ensures RecordSound(next, next.reclaims[n]) {
      if n < |prior.reclaims| {
        assert RecordSound(prior, prior.reclaims[n]);
        var r := prior.reclaims[n].slot;
        assert RowEvolves(next, prior.slots[r], next.slots[r]);
      } else {
        assert RowEvolves(next, prior.slots[i], next.slots[i]);
      }
    }
  }

  lemma ReclaimGood(db: Db, k: string, force: bool, now: Time)
    requires Inv(db) && ReclaimTask(db, k, force, now).Some?
    ensures Good(db, ReclaimTask(db, k, force, now).value)
  {
    var next := ReclaimTask(db, k, force, now).value;
    var i := SlotByName(db.slots, k).value;
    ClaimedRowStep(db, next, i, Released(db.slots[i]));
    NewRecordSound(db, next, i);
  }

  lemma ResourceBlockedGood(db: Db, w: Worker, row: nat, generation: nat, r: Resource, now: Time)
    requires Inv(db) && ResourceBlocked(db, w, row, generation, r, now).Some?
    ensures Good(db, ResourceBlocked(db, w, row, generation, r, now).value)
  {
    var next := ResourceBlocked(db, w, row, generation, r, now).value;
    ClaimedRowStep(db, next, row, next.slots[row]);
    RecordsStay(db, next);
  }

  // ---- Graph changes ----

  lemma SpecifiedFront(a: seq<Draft>, b: seq<Draft>)
    requires forall i | 0 <= i < |a + b| :: WellFormed((a + b)[i], i)
    ensures forall i | 0 <= i < |a| :: WellFormed(a[i], i)
    ensures SpecifiedAll(a + b)[..|a|] == SpecifiedAll(a)
  {
    forall i | 0 <= i < |a| ensures WellFormed(a[i], i) && SpecifiedAll(a + b)[i] == Specified(a[i], i) {
      assert (a + b)[i] == a[i];
    }
  }

  lemma AppendedTasksOf(slots: seq<Slot>, added: seq<Task>)
    ensures TasksOf(slots + FreshSlots(added)) == TasksOf(slots) + added
  {
  }

  lemma PublishedTasks(db: Db, i: nat, batch: seq<Draft>, now: Time)
    requires RowsInv(db) && db.run.planned && i < |db.slots| && Acceptable(DraftsOf(TasksOf(db.slots)) + batch)
    ensures var current := DraftsOf(TasksOf(db.slots));
            var added := SpecifiedAll(current + batch)[|current|..];
            TasksOf(Touch(db, i, now).slots + FreshSlots(added)) == SpecifiedAll(current + batch)
  {
    var tasks := TasksOf(db.slots);
    var current := DraftsOf(tasks);
    var all := SpecifiedAll(current + batch);
    StoredTasksNormalize(tasks);
    SpecifiedFront(current, batch);
    SameTasks(db.slots, Touch(db, i, now).slots);
    AppendedTasksOf(Touch(db, i, now).slots, all[|current|..]);
    assert all == all[..|current|] + all[|current|..];
  }

  predicate OnlyTouched(a: seq<Slot>, b: seq<Slot>) {
    |a| == |b| && forall i | 0 <= i < |a| :: b[i] == a[i].(lastSeen := b[i].lastSeen)
  }

  lemma AddedRowsEvolve(prior: Db, mid: Db, next: Db, added: seq<Slot>)
    requires RowsInv(prior) && RowsEvolve(prior, mid) && OnlyTouched(prior.slots, mid.slots)
    requires next.slots == mid.slots + added && next.inputs == mid.inputs == prior.inputs
    requires forall i | 0 <= i < |added| :: NewRow(next, added[i]) && added[i].status == Available
    ensures RowsEvolve(prior, next)
  {
    forall j | 0 <= j < |prior.slots| ensures RowEvolves(next, prior.slots[j], next.slots[j]) {
      assert RowEvolves(mid, prior.slots[j], mid.slots[j]);
    }
    forall p | p in next.inputs ensures DoneRow(next.slots, p.1) { assert DoneRow(mid.slots, p.1); }
  }

  /** Some slots appear unclaimed behind the others, in a graph that is still sound. */
  lemma AddedRows(prior: Db, mid: Db, next: Db, added: seq<Slot>)
    requires RowsInv(prior) && RowsInv(mid) && RowsEvolve(prior, mid) && OnlyTouched(prior.slots, mid.slots)
    requires next.slots == mid.slots + added && next.inputs == mid.inputs == prior.inputs
    requires next.run.planned == mid.run.planned && SoundTasks(TasksOf(next.slots))
    requires forall i | 0 <= i < |added| ::
               NewRow(next, added[i]) && added[i].status == Available && added[i].owner.None? && SlotShape(added[i])
    ensures RowsInv(next) && RowsEvolve(prior, next)
  {
    AddedRowsEvolve(prior, mid, next, added);
    RowsKeepInvariant(prior, next);
  }

  lemma PublishParts(db: Db, w: Worker, generation: nat, batch: seq<Draft>, now: Time) returns (i: nat)
    requires Publish(db, w, generation, batch, now).Some?
    ensures i < |db.slots| && HoldsSlot(db.slots[i], w) && db.run.state == Open && db.run.planned
    ensures var all := DraftsOf(TasksOf(db.slots)) + batch;
            && Acceptable(all)
            && Publish(db, w, generation, batch, now).value
                 == (var mid := Touch(db, i, now);
                     mid.(slots := mid.slots + FreshSlots(SpecifiedAll(all)[|db.slots|..]),
                          run := db.run.(revision := db.run.revision + 1)))
  {
    i := ActiveSlot(db.slots, w, generation).value;
  }

  lemma PublishAppends(db: Db, w: Worker, generation: nat, batch: seq<Draft>, now: Time) returns (i: nat, added: seq<Task>)
    requires Inv(db) && Publish(db, w, generation, batch, now).Some?
    ensures i < |db.slots| && HoldsSlot(db.slots[i], w) && db.run.state == Open && db.run.planned
    ensures var mid := Touch(db, i, now);
            Publish(db, w, generation, batch, now).value
              == mid.(slots := mid.slots + FreshSlots(added), run := db.run.(revision := db.run.revision + 1))
    ensures SoundTasks(TasksOf(Touch(db, i, now).slots + FreshSlots(added)))
    ensures forall n | 0 <= n < |added| :: added[n].key.Named?
  {
    i := PublishParts(db, w, generation, batch, now);
    var all := SpecifiedAll(DraftsOf(TasksOf(db.slots)) + batch);
    added := all[|db.slots|..];
    PublishedTasks(db, i, batch, now);
    forall n | 0 <= n < |added| ensures added[n].key.Named? { assert added[n] == all[|db.slots| + n]; }
  }

  lemma TouchGood(db: Db, i: nat, now: Time)
    requires Inv(db) && i < |db.slots| && db.slots[i].status == Claimed
    ensures Good(db, Touch(db, i, now)) && OnlyTouched(db.slots, Touch(db, i, now).slots)
  {
    var mid := Touch(db, i, now);
    ClaimedRowStep(db, mid, i, mid.slots[i]);
    RecordsStay(db, mid);
  }

  lemma AppendGood(db: Db, i: nat, added: seq<Task>, now: Time, next: Db)
    requires Inv(db) && i < |db.slots| && db.slots[i].status == Claimed && db.run.state == Open && db.run.planned
    requires var mid := Touch(db, i, now);
             next == mid.(slots := mid.slots + FreshSlots(added), run := db.run.(revision := db.run.revision + 1))
    requires SoundTasks(TasksOf(next.slots)) && forall n | 0 <= n < |added| :: added[n].key.Named?
    ensures Good(db, next)
  {
    TouchGood(db, i, now);
    AddedRows(db, Touch(db, i, now), next, FreshSlots(added));
    RecordsStay(db, next);
    assert next.slots[i].status == Claimed;
  }

  lemma PublishGood(db: Db, w: Worker, generation: nat, batch: seq<Draft>, now: Time)
    requires Inv(db) && Publish(db, w, generation, batch, now).Some?
    ensures Good(db, Publish(db, w, generation, batch, now).value)
  {
    var i, added := PublishAppends(db, w, generation, batch, now);
    AppendGood(db, i, added, now, Publish(db, w, generation, batch, now).value);
  }

  lemma RevisedTasks(db: Db, slots: seq<Slot>, n: nat, edited: Draft)
    requires RowsInv(db) && db.run.planned && TasksOf(slots) == TasksOf(db.slots) && n < |slots| == |db.slots|
    requires Acceptable(DraftsOf(TasksOf(slots))[n := edited]) && WellFormed(edited, n)
    requires edited.key == Some(KeyName(slots[n].key))
    ensures SoundTasks(TasksOf(slots[n := Revised(slots[n], Specified(edited, n))]))
  {
    var tasks := TasksOf(slots);
    var drafts := DraftsOf(tasks)[n := edited];
    StoredTasksNormalize(tasks);
    var revised := TasksOf(slots[n := Revised(slots[n], Specified(edited, n))]);
    forall i | 0 <= i < |revised| ensures revised[i] == SpecifiedAll(drafts)[i] {
      if i != n {
        assert drafts[i] == DraftsOf(tasks)[i] && SpecifiedAll(DraftsOf(tasks))[i] == tasks[i];
        assert revised[i] == TaskOf(slots[i]);
      } else {
        assert tasks[n].key == slots[n].key && slots[n].key.Named?;
      }
    }
    assert revised == SpecifiedAll(drafts);
  }

  /** An unclaimed row gets new contents; every other row stays. */
  lemma RevisedRow(prior: Db, next: Db, n: nat, t: Slot)
    requires RowsInv(prior) && n < |prior.slots| && prior.slots[n].status == Available
    requires next.slots == prior.slots[n := t] && next.inputs == prior.inputs && next.run.planned == prior.run.planned
    requires t.key == prior.slots[n].key && t.generation == prior.slots[n].generation
    requires t.status == Available && SlotShape(t) && t.owner.None?
    requires SoundTasks(TasksOf(next.slots))
    ensures RowsInv(next) && RowsEvolve(prior, next)
  {
    forall j | 0 <= j < |prior.slots| ensures RowEvolves(next, prior.slots[j], next.slots[j]) {
      if j != n { RowUnchanged(prior, next, prior.slots[j]); }
    }
    forall p | p in next.inputs ensures DoneRow(next.slots, p.1) { assert DoneRow(prior.slots, p.1); }
    RowsKeepInvariant(prior, next);
  }

  lemma ReviseRows(db: Db, mid: Db, i: nat, next: Db, n: nat)
    requires Inv(db) && i < |db.slots| && n < |db.slots| && i != n
    requires db.slots[i].status == Claimed && db.slots[n].status == Available
    requires RowsEvolve(db, mid) && |mid.slots| == |db.slots| == |next.slots|
    requires mid.slots[n] == db.slots[n] && mid.inputs == db.inputs
    requires RowsEvolve(mid, next) && RowsInv(next)
    requires forall j | 0 <= j < |db.slots| && j != n :: next.slots[j] == mid.slots[j]
    requires next.slots[n].status == Available && next.inputs == mid.inputs
    ensures RowsEvolve(db, next)
  {
    forall j | 0 <= j < |db.slots| ensures RowEvolves(next, db.slots[j], next.slots[j]) {
      assert RowEvolves(mid, db.slots[j], mid.slots[j]);
      assert RowEvolves(next, mid.slots[j], next.slots[j]);
      assert StartSound(next, next.slots[j]) && ClaimSound(next.slots, next.slots[j]);
    }
  }

  lemma ReviseEdits(db: Db, w: Worker, generation: nat, k: string, changed: Draft, revision: nat, now: Time)
    returns (i: nat, n: nat, t: Slot)
    requires Inv(db) && Revise(db, w, generation, k, changed, revision, now).Some?
    ensures i < |db.slots| && n < |db.slots| && HoldsSlot(db.slots[i], w) && db.slots[n].status == Available
    ensures db.run.state == Open && t.(pool := db.slots[n].pool, dependsOn := db.slots[n].dependsOn,
                                       reviewOf := db.slots[n].reviewOf, exclude := db.slots[n].exclude) == db.slots[n]
    ensures var mid := Touch(db, i, now);
            && SoundTasks(TasksOf(mid.slots[n := t]))
            && Revise(db, w, generation, k, changed, revision, now).value
                 == mid.(slots := mid.slots[n := t], run := db.run.(revision := db.run.revision + 1))
  {
    i := ActiveSlot(db.slots, w, generation).value;
    n := SlotByKey(db.slots, Named(k)).value;
    var mid := Touch(db, i, now);
    var edited := changed.(key := Some(k));
    assert WellFormed(DraftsOf(TasksOf(db.slots))[n := edited][n], n);
    t := Revised(mid.slots[n], Specified(edited, n));
    SameTasks(db.slots, mid.slots);
    RevisedTasks(db, mid.slots, n, edited);
  }

  lemma EditGood(db: Db, i: nat, n: nat, t: Slot, now: Time, next: Db)
    requires Inv(db) && i < |db.slots| && n < |db.slots| && db.slots[i].status == Claimed && db.slots[n].status == Available
    requires t.(pool := db.slots[n].pool, dependsOn := db.slots[n].dependsOn,
                reviewOf := db.slots[n].reviewOf, exclude := db.slots[n].exclude) == db.slots[n]
    requires var mid := Touch(db, i, now);
             && SoundTasks(TasksOf(mid.slots[n := t]))
             && next == mid.(slots := mid.slots[n := t], run := db.run.(revision := db.run.revision + 1))
    ensures Good(db, next)
  {
    var mid := Touch(db, i, now);
    TouchGood(db, i, now);
    assert SlotShape(mid.slots[n]);
    RevisedRow(mid, next, n, t);
    ReviseRows(db, mid, i, next, n);
    RecordsStay(db, next);
    assert next.slots[i].status == Claimed;
  }

  lemma ReviseGood(db: Db, w: Worker, generation: nat, k: string, changed: Draft, revision: nat, now: Time)
    requires Inv(db) && Revise(db, w, generation, k, changed, revision, now).Some?
    ensures Good(db, Revise(db, w, generation, k, changed, revision, now).value)
  {
    var i, n, t := ReviseEdits(db, w, generation, k, changed, revision, now);
    EditGood(db, i, n, t, now, Revise(db, w, generation, k, changed, revision, now).value);
  }

  // ---- Delegations ----

  /** One delegation changes or appears while the run is open. */
  lemma DelegationStep(prior: Db, next: Db)
    requires Inv(prior) && prior.run.state == Open
    requires next == prior.(delegations := next.delegations)
    requires AllDone(next.slots) && AllSettled(next.delegations) ==> ReadyToIntegrate(prior) || next.slots == []
    ensures Good(prior, next)
  {
    NoRow(prior, next);
    RecordsStay(prior, next);
  }

  lemma DelegateGood(db: Db, w: Worker, key: string, work: string, recipient: Option<Worker>)
    requires Inv(db) && Delegate(db, w, key, work, recipient).Some?
    ensures Good(db, Delegate(db, w, key, work, recipient).value)
  {
    var next := Delegate(db, w, key, work, recipient).value;
    if next == db { Unchanged(db); } else {
      assert !Settled(next.delegations[|db.delegations|]);
      DelegationStep(db, next);
    }
  }

  lemma AcceptGood(db: Db, w: Worker, id: nat)
    requires Inv(db) && Accept(db, w, id).Some?
    ensures Good(db, Accept(db, w, id).value)
  {
    var next := Accept(db, w, id).value;
    if next == db { Unchanged(db); } else {
      assert !Settled(next.delegations[id]);
      DelegationStep(db, next);
    }
  }

  lemma RejectGood(db: Db, w: Worker, id: nat)
    requires Inv(db) && Reject(db, w, id).Some?
    ensures Good(db, Reject(db, w, id).value)
  {
    var next := Reject(db, w, id).value;
    if next == db { Unchanged(db); } else {
      assert !Settled(next.delegations[id]);
      DelegationStep(db, next);
    }
  }

  lemma ReofferGood(db: Db, w: Worker, id: nat, recipient: Option<Worker>)
    requires Inv(db) && Reoffer(db, w, id, recipient).Some?
    ensures Good(db, Reoffer(db, w, id, recipient).value)
  {
    var next := Reoffer(db, w, id, recipient).value;
    if next == db { Unchanged(db); } else {
      assert !Settled(next.delegations[id]);
      DelegationStep(db, next);
    }
  }

  /** Everything but the election: a completion keeps the invariant and evolves the tables. */
  lemma CompleteKeeps(db: Db, w: Worker, id: nat, result: string, commit: Option<Commit>)
    requires Inv(db) && Complete(db, w, id, result, commit).Some?
    ensures Inv(Complete(db, w, id, result, commit).value) && Evolves(db, Complete(db, w, id, result, commit).value)
  {
    var next := Complete(db, w, id, result, commit).value;
    NoRow(db, next);
    RecordsStay(db, next);
  }

  /** Only the slots and the inputs matter to the evolution of the rows. */
  lemma SameRowsEvolve(prior: Db, mid: Db, next: Db)
    requires RowsInv(mid) && RowsEvolve(prior, mid)
    requires next.slots == mid.slots && next.inputs == mid.inputs && next.run.planned == mid.run.planned
    ensures RowsInv(next) && RowsEvolve(prior, next)
  {
    NoRow(mid, next);
    forall j | 0 <= j < |prior.slots| ensures RowEvolves(next, prior.slots[j], next.slots[j]) {
      assert RowEvolves(mid, prior.slots[j], mid.slots[j]);
      assert StartSound(next, next.slots[j]);
    }
  }

  /** Electing where every obligation may just have been settled leaves nothing ready and unelected. */
  lemma ElectGood(prior: Db, mid: Db, w: Worker, now: Time)
    requires prior.run == mid.run && prior.run.state == Open
    requires Inv(mid) && Evolves(prior, mid)
    ensures Good(prior, Elect(mid, w, now))
  {
    var next := Elect(mid, w, now);
    if ReadyToIntegrate(mid) {
      SameRowsEvolve(prior, mid, next);
      SameRecords(mid, next);
    }
  }

  lemma SameRecords(mid: Db, next: Db)
    requires Records(mid) && next.slots == mid.slots && next.reclaims == mid.reclaims
    ensures Records(next)
  {
    forall n | 0 <= n < |next.reclaims| ensures RecordSound(next, next.reclaims[n]) {
      assert RecordSound(mid, mid.reclaims[n]);
    }
  }

  lemma ElectTxGood(db: Db, w: Worker, now: Time)
    requires Inv(db) && ElectTx(db, w, now).Some?
    ensures Good(db, ElectTx(db, w, now).value)
  {
    Unchanged(db);
    if db.run.state == Open { ElectGood(db, db, w, now); }
  }

  lemma CancelGood(db: Db, w: Worker, id: nat, reason: string, now: Time)
    requires Inv(db) && Cancel(db, w, id, reason, now).Some?
    ensures Good(db, Cancel(db, w, id, reason, now).value)
  {
    var next := Cancel(db, w, id, reason, now).value;
    if next == db {
      Unchanged(db);
    } else {
      var cleared := db.(delegations :=
        db.delegations[id := db.delegations[id].(status := Cancelled, result := Some(reason))]);
      NoRow(db, cleared);
      RecordsStay(db, cleared);
      var i := SlotOf(db.slots, w).value;
      if db.slots[i].status == Done { ElectGood(db, cleared, w, now); }
    }
  }

  // ---- Completion ----

  lemma CompletedRow(prior: Db, mid: Db, row: nat, w: Worker, commit: Commit)
    requires Inv(prior) && prior.run.state == Open
    requires row < |prior.slots| && prior.slots[row].status != Done
    requires mid.slots == prior.slots[row := Finished(prior.slots[row], w, commit)]
    requires mid.inputs == prior.inputs + {(w, row)}
    requires mid.run == prior.run && mid.tail == prior.tail && mid.delegations == prior.delegations
    ensures RowsInv(mid) && RowsEvolve(prior, mid) && RunShape(mid) && TailShape(mid) && RunEvolves(prior, mid)
  {
    var t := Finished(prior.slots[row], w, commit);
    assert SlotShape(prior.slots[row]);
    forall p | p in mid.inputs ensures DoneRow(mid.slots, p.1) {
      if p in prior.inputs { assert DoneRow(prior.slots, p.1); }
    }
    OneRow(prior, mid, row, t);
  }

  lemma FinishGood(db: Db, w: Worker, row: nat, generation: nat, commit: Commit, now: Time)
    requires Inv(db) && Finish(db, w, row, generation, commit, now).Some?
    ensures Good(db, Finish(db, w, row, generation, commit, now).value)
  {
    var mid := RecordInput(db.(slots := db.slots[row := Finished(db.slots[row], w, commit)]), w, row);
    CompletedRow(db, mid, row, w, commit);
    RecordsStay(db, mid);
    ElectGood(db, mid, w, now);
  }

  lemma ResolvedRecords(prior: Db, next: Db, n: nat, r: Reclaim)
    requires Records(prior) && RowsEvolve(prior, next) && n < |prior.reclaims|
    requires next.reclaims == prior.reclaims[n := r]
    requires RecordEvolves(prior.reclaims[n], r) && (r.resolution.Some? <==> r.resolutionCommit.Some?)
    ensures Records(next) && RecordsEvolve(prior, next)
  {
    forall m | 0 <= m < |next.reclaims| ensures RecordSound(next, next.reclaims[m]) {
      assert RecordSound(prior, prior.reclaims[m]);
      var s := prior.reclaims[m].slot;
      assert RowEvolves(next, prior.slots[s], next.slots[s]);
    }
  }

  lemma AcceptLateGood(db: Db, w: Worker, row: nat, n: nat, resolved: Reclaim, stops: set<Worker>, commit: Commit, now: Time)
    requires Inv(db) && n < |db.reclaims| && row < |db.slots| && Acceptance(db, row, w)
    requires RecordEvolves(db.reclaims[n], resolved) && (resolved.resolution.Some? <==> resolved.resolutionCommit.Some?)
    ensures var done := db.(reclaims := db.reclaims[n := resolved], slots := db.slots[row := Finished(db.slots[row], w, commit)],
                            stopOrders := db.stopOrders + stops);
            Good(db, Elect(RecordInput(done, w, row), w, now))
  {
    var done := db.(reclaims := db.reclaims[n := resolved], slots := db.slots[row := Finished(db.slots[row], w, commit)],
                    stopOrders := db.stopOrders + stops);
    var mid := RecordInput(done, w, row);
    CompletedRow(db, mid, row, w, commit);
    ResolvedRecords(db, mid, n, resolved);
    ElectGood(db, mid, w, now);
  }

  lemma PreservedGood(db: Db, n: nat, resolved: Reclaim)
    requires Inv(db) && n < |db.reclaims|
    requires RecordEvolves(db.reclaims[n], resolved) && (resolved.resolution.Some? <==> resolved.resolutionCommit.Some?)
    ensures Good(db, db.(reclaims := db.reclaims[n := resolved]))
  {
    var noted := db.(reclaims := db.reclaims[n := resolved]);
    NoRow(db, noted);
    ResolvedRecords(db, noted, n, resolved);
  }

  lemma FinishLateGood(db: Db, w: Worker, row: nat, generation: nat, commit: Commit, now: Time)
    requires Inv(db) && FinishLate(db, w, row, generation, commit, now).Some?
    ensures Good(db, FinishLate(db, w, row, generation, commit, now).value)
  {
    var n := LeaseRecord(db.reclaims, row, w, generation).value;
    var record := db.reclaims[n];
    if record.resolutionCommit.Some? {
      Unchanged(db);
    } else {
      var accepted := Acceptance(db, row, w);
      var resolved := record.(resolution := Some(if accepted then Accepted else Preserved), resolutionCommit := Some(commit));
      if !accepted {
        PreservedGood(db, n, resolved);
      } else {
        var s := db.slots[row];
        var stops := if s.status == Claimed && s.owner.Some? && s.owner.value != w then {s.owner.value} else {};
        AcceptLateGood(db, w, row, n, resolved, stops, commit, now);
      }
    }
  }

  // ---- Integration ----

  lemma IntegrationStep(prior: Db, next: Db)
    requires Inv(prior)
    requires next == prior.(run := next.run, tail := next.tail)
    requires RunShape(next) && TailShape(next) && RunEvolves(prior, next)
    requires prior.run.state != Open
    ensures Good(prior, next)
  {
    NoRow(prior, next);
    RecordsStay(prior, next);
  }

  lemma TakeOverGood(db: Db, w: Worker, seen: Observed, force: bool, now: Time)
    requires Inv(db) && TakeOver(db, w, seen, force, now).Some?
    ensures Good(db, TakeOver(db, w, seen, force, now).value)
  {
    if seen.integrator == Some(w) { Unchanged(db); } else {
      IntegrationStep(db, TakeOver(db, w, seen, force, now).value);
    }
  }

  lemma BeginReplayGood(db: Db, w: Worker, head: Commit)
    requires Inv(db) && BeginReplay(db, w, head).Some?
    ensures Good(db, BeginReplay(db, w, head).value)
  {
    IntegrationStep(db, BeginReplay(db, w, head).value);
  }

  lemma EndReplayGood(db: Db, w: Worker, head: Commit, now: Time)
    requires Inv(db) && EndReplay(db, w, head, now).Some?
    ensures Good(db, EndReplay(db, w, head, now).value)
  {
    if EndReplay(db, w, head, now).value == db { Unchanged(db); } else {
      IntegrationStep(db, EndReplay(db, w, head, now).value);
    }
  }

  lemma ResolveReplayGood(db: Db, w: Worker, head: Commit, now: Time)
    requires Inv(db) && ResolveReplay(db, w, head, now).Some?
    ensures Good(db, ResolveReplay(db, w, head, now).value)
  {
    IntegrationStep(db, ResolveReplay(db, w, head, now).value);
  }

  lemma IntegrationCompleteGood(db: Db, w: Worker, candidate: Commit, now: Time)
    requires Inv(db) && IntegrationComplete(db, w, candidate, now).Some?
    ensures Good(db, IntegrationComplete(db, w, candidate, now).value)
  {
    IntegrationStep(db, IntegrationComplete(db, w, candidate, now).value);
  }

  lemma SerialCompleteGood(db: Db, w: Worker, head: Commit)
    requires Inv(db) && SerialComplete(db, w, head).Some?
    ensures Good(db, SerialComplete(db, w, head).value)
  {
    IntegrationStep(db, SerialComplete(db, w, head).value);
  }
}
