/** The claiming transactions keep the invariant: due reviews, the reservation, recorded inputs, the binding. */
module ClaimSteps {
  import opened Prelude
  import opened Tables
  import opened Scheduling
  import opened Transactions
  import opened Invariant
  import opened RowChanges
  import opened Steps

  // ---- Due reviews ----

  predicate LeafRow(s: Slot) {
    s == FreshSlot(Task(s.key, s.pool, [], [], [])) && s.key.Named?
  }

  /** Some unclaimed slots without dependencies were appended; the tables a claim works on are otherwise the same. */
  ghost predicate Extension(db: Db, mid: Db) {
    && RowsInv(mid)
    && |db.slots| <= |mid.slots| && mid.slots[..|db.slots|] == db.slots
    && (forall i | |db.slots| <= i < |mid.slots| :: LeafRow(mid.slots[i]))
    && mid.inputs == db.inputs && mid.delegations == db.delegations && mid.reclaims == db.reclaims
    && mid.tail == db.tail && mid.workers == db.workers
    && mid.run.(revision := db.run.revision) == db.run
  }

  lemma NothingExtended(db: Db)
    requires RowsInv(db)
    ensures Extension(db, db)
  {
    assert db.slots[..|db.slots|] == db.slots;
  }

  lemma OneReviewExtends(db: Db, mid: Db, n: nat, now: Time)
    requires Extension(db, mid) && n < |mid.reviews|
    ensures Extension(db, PublishReview(mid, n, now))
  {
    if ReviewDue(mid, mid.reviews[n], now) { DueReviewExtends(db, mid, n, now); }
  }

  lemma DueReviewExtends(db: Db, mid: Db, n: nat, now: Time)
    requires Extension(db, mid) && n < |mid.reviews| && ReviewDue(mid, mid.reviews[n], now)
    ensures Extension(db, PublishReview(mid, n, now))
  {
    var next := PublishReview(mid, n, now);
    AddRow(mid, next, next.slots[|mid.slots|]);
    assert next.slots[..|db.slots|] == mid.slots[..|db.slots|];
  }

  lemma {:induction false} ReviewsExtend(db: Db, n: nat, now: Time)
    requires RowsInv(db) && n <= |db.reviews|
    ensures Extension(db, PublishReviews(db, n, now))
  {
    if n == 0 {
      NothingExtended(db);
    } else {
      var mid, next := PublishReviews(db, n - 1, now), PublishReviews(db, n, now);
      assert next == PublishReview(mid, n - 1, now);
      ReviewsExtend(db, n - 1, now);
      OneReviewExtends(db, mid, n - 1, now);
    }
  }

  lemma DueReviewsExtend(db: Db, now: Time)
    requires RowsInv(db)
    ensures Extension(db, PublishDueReviews(db, now))
  {
    ReviewsExtend(db, |db.reviews|, now);
  }

  /** An extension followed by a lawful row evolution is a lawful evolution. */
  lemma ExtensionThen(db: Db, mid: Db, next: Db)
    requires Extension(db, mid) && RowsEvolve(mid, next)
    requires forall i | |db.slots| <= i < |mid.slots| :: NewRow(next, next.slots[i])
    ensures RowsEvolve(db, next)
  {
    forall i | 0 <= i < |db.slots| ensures RowEvolves(next, db.slots[i], next.slots[i]) {
      assert mid.slots[..|db.slots|][i] == mid.slots[i];
      assert RowEvolves(next, mid.slots[i], next.slots[i]);
    }
  }

  lemma ExtensionRecords(db: Db, mid: Db, next: Db)
    requires Extension(db, mid) && Records(db)
    ensures Records(mid)
  {
    forall n | 0 <= n < |mid.reclaims| ensures RecordSound(mid, mid.reclaims[n]) {
      assert RecordSound(db, db.reclaims[n]);
      assert mid.slots[..|db.slots|][db.reclaims[n].slot] == mid.slots[db.reclaims[n].slot];
    }
  }

  /** Between the due reviews and the end of a reservation: an open run in which the claim works. */
  ghost predicate Working(db: Db, mid: Db, w: Worker) {
    && Inv(db) && db.run.state == Open && HeldSlot(db.slots, w).None?
    && Extension(db, mid)
  }

  lemma NobodyInExtension(db: Db, mid: Db, w: Worker)
    requires Working(db, mid, w)
    ensures forall j | 0 <= j < |mid.slots| :: mid.slots[j].owner != Some(w)
  {
    NothingHeld(db.slots, w);
    forall j | 0 <= j < |mid.slots| ensures mid.slots[j].owner != Some(w) {
      if j < |db.slots| { assert mid.slots[..|db.slots|][j] == mid.slots[j]; }
    }
  }

  // ---- The lease ----

  /** What a reservation leaves behind before obligations are adopted: worker `w` holds row `row`. */
  ghost predicate Reserved(db: Db, next: Db, w: Worker, row: nat) {
    && RowsInv(next) && RowsEvolve(db, next)
    && Records(next) && RecordsEvolve(db, next)
    && row < |next.slots| && HoldsSlot(next.slots[row], w) && next.slots[row].generation > 0
    && next.tail == db.tail
    && next.run.(revision := db.run.revision) == db.run
    && db.run.state == Open
  }

  lemma PickedClaimSound(mid: Db, next: Db, w: Worker, now: Time, only: Option<set<Pool>>, row: nat, t: Slot)
    requires RowsInv(mid) && row < |mid.slots| && Candidate(mid, w, now, only, mid.slots[row])
    requires t.status == Claimed && t.owner == Some(w) && TaskOf(t) == TaskOf(mid.slots[row])
    requires t.completedBy == mid.slots[row].completedBy
    requires next.slots == mid.slots[row := t]
    ensures ClaimSound(next.slots, t)
  {
    var s := mid.slots[row];
    assert SlotShape(s) && ClaimSound(mid.slots, s);
    assert Subset(s.dependsOn, DoneKeys(mid.slots));
    assert t.dependsOn == TaskOf(t).dependsOn == s.dependsOn && t.reviewOf == TaskOf(t).reviewOf == s.reviewOf;
    forall k | k in DoneKeys(mid.slots) ensures k in DoneKeys(next.slots) {
      var i :| 0 <= i < |mid.slots| && mid.slots[i].status == Done && mid.slots[i].key == k;
      assert next.slots[i] == mid.slots[i];
    }
    forall k | k in ProducedKeys(next.slots, w) ensures k in ProducedKeys(mid.slots, w) {
      var i :| 0 <= i < |next.slots| && next.slots[i].completedBy == Some(w) && next.slots[i].key == k;
      assert mid.slots[i].completedBy == Some(w) && mid.slots[i].key == k;
    }
  }

  /** Taking an unclaimed slot, or an expired lease together with its record. */
  lemma PickedReserved(db: Db, mid: Db, w: Worker, now: Time, only: Option<set<Pool>>, row: nat, next: Db)
    requires Working(db, mid, w)
    requires row < |mid.slots| && Candidate(mid, w, now, only, mid.slots[row])
    requires TakeSlot(mid, row, w, now) == Some(next)
    ensures Reserved(db, next, w, row)
  {
    var s, t := mid.slots[row], next.slots[row];
    assert SlotShape(s);
    PickedClaimSound(mid, next, w, now, only, row, t);
    NobodyInExtension(db, mid, w);
    forall p | p in next.inputs ensures DoneRow(next.slots, p.1) { assert DoneRow(mid.slots, p.1); }
    OneRow(mid, next, row, t);
    if row >= |db.slots| { assert LeafRow(s); }
    ExtensionThen(db, mid, next);
    ExtensionRecords(db, mid, next);
    if s.status == Claimed { PickedRecord(mid, next, row); } else { RecordsStay(mid, next); }
  }

  lemma PickedRecord(mid: Db, next: Db, i: nat)
    requires Records(mid) && RowsInv(mid) && i < |mid.slots| && mid.slots[i].status == Claimed && mid.slots[i].owner.Some?
    requires RowsEvolve(mid, next) && next.slots[i].generation > mid.slots[i].generation
    requires next.reclaims == mid.reclaims + [RecordOf(i, mid.slots[i], mid.slots[i].owner.value)]
    ensures Records(next) && RecordsEvolve(mid, next)
  {
    forall n | 0 <= n < |next.reclaims| ensures RecordSound(next, next.reclaims[n]) {
      if n < |mid.reclaims| {
        assert RecordSound(mid, mid.reclaims[n]);
        var r := mid.reclaims[n].slot;
        assert RowEvolves(next, mid.slots[r], next.slots[r]);
      }
    }
  }

  lemma OfferReserved(db: Db, mid: Db, w: Worker, offer: nat, now: Time)
    requires Working(db, mid, w) && offer < |mid.delegations|
    requires ClaimOffer(mid, w, offer, now).Some?
    ensures Reserved(db, ClaimOffer(mid, w, offer, now).value.0, w, ClaimOffer(mid, w, offer, now).value.1)
  {
    var (next, row) := ClaimOffer(mid, w, offer, now).value;
    NobodyInExtension(db, mid, w);
    AddRow(mid, next, next.slots[row]);
    forall i | |db.slots| <= i < |mid.slots| ensures NewRow(next, next.slots[i]) { assert LeafRow(mid.slots[i]); }
    ExtensionThen(db, mid, next);
    ExtensionRecords(db, mid, next);
    RecordsStay(mid, next);
  }

  /** The tables the choice itself may change are not those of the slot invariant. */
  lemma ChooseKeepsTables(mid: Db, w: Worker, now: Time, only: Option<set<Pool>>)
    requires RowsInv(mid)
    ensures var (chosen, pick) := Choose(mid, w, now, only);
      && RowsInv(chosen) && chosen.slots == mid.slots && chosen.inputs == mid.inputs && chosen.run == mid.run
      && chosen.delegations == mid.delegations && chosen.reclaims == mid.reclaims && chosen.tail == mid.tail
      && chosen.workers == mid.workers
      && (pick.Some? ==> pick.value < |mid.slots|)
      && (pick.Some? ==> (Ready(mid.slots, mid.slots[pick.value]) || Stale(mid.slots[pick.value], w, now)))
      && (pick.Some? ==> Eligible(chosen, w, only, chosen.slots[pick.value]))
  {
    NoRow(mid, Choose(mid, w, now, only).0);
  }

  lemma NewLeaseReserved(db: Db, w: Worker, only: Option<set<Pool>>, wait: bool, now: Time)
    requires Inv(db) && db.run.state == Open && HeldSlot(db.slots, w).None?
    requires NewLease(db, w, only, wait, now).Some?
    ensures var (next, row) := NewLease(db, w, only, wait, now).value;
            if row.Some? then Reserved(db, next, w, row.value) else Good(db, next)
  {
    var mid := PublishDueReviews(db, now);
    DueReviewsExtend(db, now);
    var (chosen, pick) := Choose(mid, w, now, only);
    ChooseKeepsTables(mid, w, now, only);
    assert Extension(db, chosen);
    var (next, row) := NewLease(db, w, only, wait, now).value;
    if pick.Some? {
      PickedLeaseReserved(db, chosen, w, now, only, pick.value, next);
    } else if row.Some? {
      var offer := PoolOffer(chosen.delegations, w, 0);
      OfferReserved(db, chosen, w, offer.value, now);
    } else {
      IdleClaimGood(db, chosen);
    }
  }

  /** As above, for the database in which the rotation has already advanced. */
  lemma PickedLeaseReserved(db: Db, chosen: Db, w: Worker, now: Time, only: Option<set<Pool>>, row: nat, next: Db)
    requires Working(db, chosen, w)
    requires row < |chosen.slots| && (Ready(chosen.slots, chosen.slots[row]) || Stale(chosen.slots[row], w, now))
    requires Eligible(chosen, w, only, chosen.slots[row])
    requires TakeSlot(chosen, row, w, now) == Some(next)
    ensures Reserved(db, next, w, row)
  {
    var uncapped := chosen.(caps := map[]);
    NoRow(chosen, uncapped);
    assert Candidate(uncapped, w, now, only, chosen.slots[row]) by {
      assert Names(uncapped, w) == Names(chosen, w);
    }
    var plain := next.(caps := map[]);
    assert next.slots == chosen.slots[row := next.slots[row]];
    PickedReserved(db, uncapped, w, now, only, row, plain);
    SameRowsEvolve(db, plain, next);
    SameRecords(plain, next);
  }

  lemma IdleClaimGood(db: Db, chosen: Db)
    requires Inv(db) && db.run.state == Open && Extension(db, chosen)
    ensures Good(db, chosen)
  {
    NoRow(chosen, chosen);
    forall i | |db.slots| <= i < |chosen.slots| ensures NewRow(chosen, chosen.slots[i]) { assert LeafRow(chosen.slots[i]); }
    ExtensionThen(db, chosen, chosen);
    ExtensionRecords(db, chosen, chosen);
    if |db.slots| < |chosen.slots| {
      assert LeafRow(chosen.slots[|db.slots|]);
      assert chosen.slots[|db.slots|].status == Available;
    } else {
      assert chosen.slots == db.slots;
    }
  }

  lemma ResumeReserved(db: Db, w: Worker, row: nat, now: Time)
    requires Inv(db) && row < |db.slots| && HoldsSlot(db.slots[row], w)
    ensures Reserved(db, db.(slots := db.slots[row := Renewed(db.slots[row], now)]), w, row)
  {
    var next := db.(slots := db.slots[row := Renewed(db.slots[row], now)]);
    ClaimedRowStep(db, next, row, next.slots[row]);
    RecordsStay(db, next);
  }

  /** A held slot rules out an election, so whatever happens to the delegations is harmless. */
  lemma ReservedGood(db: Db, next: Db, w: Worker, row: nat)
    requires Inv(db) && Reserved(db, next, w, row)
    ensures Good(db, next)
  {
    assert next.slots[row].status == Claimed;
  }

  lemma ReservedStays(db: Db, mid: Db, next: Db, w: Worker, row: nat)
    requires Reserved(db, mid, w, row)
    requires next.slots == mid.slots && next.inputs == mid.inputs && next.tail == mid.tail && next.run == mid.run
    requires Records(next) && RecordsEvolve(db, next)
    ensures Reserved(db, next, w, row)
  {
    SameRowsEvolve(db, mid, next);
  }

  /** Adoption moves obligations and marks the record. */
  lemma AdoptReserved(db: Db, mid: Db, w: Worker, row: nat)
    requires Reserved(db, mid, w, row) && Adopt(Register(mid, w), w, row).Some?
    ensures Reserved(db, Adopt(Register(mid, w), w, row).value, w, row)
  {
    var reg := Register(mid, w);
    var next := Adopt(reg, w, row).value;
    assert reg == mid.(workers := reg.workers);
    var last := LatestReclaim(reg.reclaims, row);
    if last.Some? && reg.reclaims[last.value].adoptedBy.None? {
      var q := mid.reclaims[last.value].(adoptedBy := Some(w));
      assert next == reg.(delegations := next.delegations, reclaims := mid.reclaims[last.value := q]);
      AdoptedRecords(mid, next, last.value, q);
      AdoptedEvolve(db, mid, next, last.value, q);
    } else {
      SameRecords(mid, next);
    }
    ReservedStays(db, mid, next, w, row);
  }

  lemma AdoptedRecords(mid: Db, next: Db, n: nat, q: Reclaim)
    requires Records(mid) && n < |mid.reclaims| && next.slots == mid.slots
    requires next.reclaims == mid.reclaims[n := q] && q == mid.reclaims[n].(adoptedBy := q.adoptedBy)
    ensures Records(next)
  {
    forall m | 0 <= m < |next.reclaims| ensures RecordSound(next, next.reclaims[m]) {
      assert RecordSound(mid, mid.reclaims[m]);
    }
  }

  lemma AdoptedEvolve(db: Db, mid: Db, next: Db, n: nat, q: Reclaim)
    requires RecordsEvolve(db, mid) && n < |mid.reclaims| && mid.reclaims[n].adoptedBy.None?
    requires next.reclaims == mid.reclaims[n := q] && q == mid.reclaims[n].(adoptedBy := q.adoptedBy)
    ensures RecordsEvolve(db, next)
  {
    forall m | 0 <= m < |db.reclaims| ensures RecordEvolves(db.reclaims[m], next.reclaims[m]) {
      assert RecordEvolves(db.reclaims[m], mid.reclaims[m]);
    }
  }

  lemma RenewedLease(db: Db, mid: Db, w: Worker, row: nat, now: Time)
    requires Reserved(db, mid, w, row) && mid.slots[row].lastSeen == Some(now)
    ensures mid.(slots := mid.slots[row := Renewed(mid.slots[row], now)]) == mid
  {
    assert Renewed(mid.slots[row], now) == mid.slots[row];
  }

  lemma ReserveGood(db: Db, w: Worker, only: Option<set<Pool>>, wait: bool, now: Time)
    requires Inv(db) && Reserve(db, w, only, wait, now).Some?
    ensures var (next, row) := Reserve(db, w, only, wait, now).value;
            Good(db, next) && (row.Some? ==> Reserved(db, next, w, row.value))
  {
    var held := HeldSlot(db.slots, w);
    if held.None? && db.run.state != Open {
      Unchanged(db);
    } else if held.Some? {
      var mid := db.(slots := db.slots[held.value := Renewed(db.slots[held.value], now)]);
      ResumeReserved(db, w, held.value, now);
      AdoptReserved(db, mid, w, held.value);
      assert Conclude(db, w, held.value, now) == Adopt(Register(mid, w), w, held.value);
      ReservedGood(db, Conclude(db, w, held.value, now).value, w, held.value);
    } else {
      FreshReserveGood(db, w, only, wait, now);
    }
  }

  lemma FreshReserveGood(db: Db, w: Worker, only: Option<set<Pool>>, wait: bool, now: Time)
    requires Inv(db) && Reserve(db, w, only, wait, now).Some?
    requires HeldSlot(db.slots, w).None? && db.run.state == Open
    ensures var (next, row) := Reserve(db, w, only, wait, now).value;
            Good(db, next) && (row.Some? ==> Reserved(db, next, w, row.value))
  {
    NewLeaseReserved(db, w, only, wait, now);
    var (mid, row) := NewLease(db, w, only, wait, now).value;
    if row.Some? {
      NewLeaseIsTouched(db, w, only, wait, now);
      RenewedLease(db, mid, w, row.value, now);
      AdoptReserved(db, mid, w, row.value);
      ReservedGood(db, Conclude(mid, w, row.value, now).value, w, row.value);
    }
  }

  lemma NewLeaseIsTouched(db: Db, w: Worker, only: Option<set<Pool>>, wait: bool, now: Time)
    requires NewLease(db, w, only, wait, now).Some?
    ensures var (next, row) := NewLease(db, w, only, wait, now).value;
            row.Some? ==> row.value < |next.slots| && next.slots[row.value].lastSeen == Some(now)
  {
  }

  // ---- Inputs, binding, joining ----

  lemma RecordInputGood(db: Db, w: Worker, source: nat)
    requires Inv(db) && DoneRow(db.slots, source)
    ensures Good(db, RecordInput(db, w, source))
  {
    NoRow(db, RecordInput(db, w, source));
    RecordsStay(db, RecordInput(db, w, source));
  }

  /** The start commit may be recorded once every transitive predecessor is an applied input. */
  lemma BindGood(db: Db, w: Worker, row: nat, generation: nat, head: Commit)
    requires Inv(db) && Bind(db, w, row, generation, head).Some?
    requires InputsClosed(db, w, [], db.slots[row].dependsOn)
    ensures Good(db, Bind(db, w, row, generation, head).value)
  {
    var next := Bind(db, w, row, generation, head).value;
    var s, t := db.slots[row], next.slots[row];
    BindCover(db, next, w, row, s.dependsOn);
    assert RowEvolves(next, s, t);
    ClaimedRowStep(db, next, row, t);
    RecordsStay(db, next);
  }

  lemma BindCover(db: Db, next: Db, w: Worker, row: nat, deps: seq<Key>)
    requires row < |db.slots| && db.slots[row].status == Claimed
    requires |next.slots| == |db.slots| && next.slots == db.slots[row := next.slots[row]] && next.inputs == db.inputs
    requires InputsClosed(db, w, [], deps)
    ensures InputsClosed(next, w, [], deps)
  {
    var keys :| Covered(db, w, [], deps, keys);
    forall k | k in keys
      ensures exists j: nat :: InputRow(next, w, [], j) && next.slots[j].key == k && Subset(next.slots[j].dependsOn, keys)
    {
      var j: nat :| InputRow(db, w, [], j) && db.slots[j].key == k && Subset(db.slots[j].dependsOn, keys);
      assert InputRow(next, w, [], j);
    }
    assert Covered(next, w, [], deps, keys);
  }

  lemma JoinGood(db: Db, w: Worker, now: Time)
    requires Inv(db) && Join(db, w, now).Some?
    ensures Good(db, Join(db, w, now).value)
  {
    var next := Join(db, w, now).value;
    if next.slots == db.slots {
      Unchanged(db);
    } else {
      NothingHeld(db.slots, w);
      forall i | 0 <= i < |db.slots| ensures db.slots[i].key != Unnamed(|db.slots|) {
        assert TasksOf(db.slots)[i].key == db.slots[i].key;
      }
      AddRow(db, next, next.slots[|db.slots|]);
      RecordsStay(db, next);
      assert next.slots[|db.slots|].status == Claimed;
    }
  }

  lemma SetCapGood(db: Db, r: Resource, max: nat, pools: set<Pool>)
    requires Inv(db) && SetCap(db, r, max, pools).Some?
    ensures Good(db, SetCap(db, r, max, pools).value)
  {
    SideTable(db, SetCap(db, r, max, pools).value);
  }

  lemma SetOperatorsGood(db: Db, workers: set<Worker>, pools: set<Pool>)
    requires Inv(db) && SetOperators(db, workers, pools).Some?
    ensures Good(db, SetOperators(db, workers, pools).value)
  {
    SideTable(db, SetOperators(db, workers, pools).value);
  }

  lemma SetReviewGood(db: Db, name: string, pool: Pool, interval: Time)
    requires Inv(db) && SetReview(db, name, pool, interval).Some?
    ensures Good(db, SetReview(db, name, pool, interval).value)
  {
    SideTable(db, SetReview(db, name, pool, interval).value);
  }
}
