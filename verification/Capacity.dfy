/** Resource ceilings: which steps keep the number of claimed slots of every capped pool set within its cap. */
module Capacity {
  import opened Prelude
  import opened Tables
  import opened TaskGraph
  import opened Scheduling
  import opened Transactions
  import opened Invariant
  import opened ClaimSteps
  import opened Protocol
  import opened Frames
  import opened Leases

  predicate WithinCap(slots: seq<Slot>, c: Cap) {
    |ClaimedIn(slots, c.pools)| <= c.max
  }

  predicate WithinCaps(db: Db) {
    forall r | r in db.caps :: WithinCap(db.slots, db.caps[r])
  }

  lemma SmallerSet(a: set<nat>, b: set<nat>)
    requires a <= b
    ensures |a| <= |b|
  {
    BoundedRows(a, b);
  }

  lemma ShrinkKeeps(prior: Db, next: Db)
    requires WithinCaps(prior) && next.caps == prior.caps && ClaimsShrink(prior.slots, next.slots)
    ensures WithinCaps(next)
  {
    forall r | r in next.caps ensures WithinCap(next.slots, next.caps[r]) {
      assert WithinCap(prior.slots, prior.caps[r]);
      SmallerSet(ClaimedIn(next.slots, next.caps[r].pools), ClaimedIn(prior.slots, prior.caps[r].pools));
    }
  }

  /** The returned slot was one of the claimed ones, so the learned ceiling still covers the peers. */
  lemma ResourceBlockedWithin(db: Db, w: Worker, row: nat, generation: nat, r: Resource, now: Time)
    requires WithinCaps(db) && ResourceBlocked(db, w, row, generation, r, now).Some?
    ensures WithinCaps(ResourceBlocked(db, w, row, generation, r, now).value)
  {
    var next := ResourceBlocked(db, w, row, generation, r, now).value;
    assert ClaimsShrink(db.slots, next.slots);
    forall q | q in next.caps ensures WithinCap(next.slots, next.caps[q]) {
      if q == r {
        var pools := next.caps[r].pools;
        var peers := ClaimedIn(db.slots, pools) - {row};
        assert ClaimedIn(next.slots, pools) == peers;
        assert row in ClaimedIn(db.slots, pools);
        assert |ClaimedIn(db.slots, pools)| == |peers| + 1;
        if r in db.caps { assert WithinCap(db.slots, db.caps[r]); }
      } else {
        assert WithinCap(db.slots, db.caps[q]);
        SmallerSet(ClaimedIn(next.slots, next.caps[q].pools), ClaimedIn(db.slots, db.caps[q].pools));
      }
    }
  }

  lemma ResetWithin(db: Db, now: Time)
    requires WithinCaps(db)
    ensures WithinCaps(ResetLearned(db, now))
  {
    var next := ResetLearned(db, now);
    forall r | r in next.caps ensures WithinCap(next.slots, next.caps[r]) {
      assert WithinCap(db.slots, db.caps[r]);
    }
  }

  /** Leasing a chosen slot: a ready one takes a free place, an expired one keeps the place it had. */
  lemma PickedWithin(reset: Db, w: Worker, now: Time, only: Option<set<Pool>>, row: nat, next: Db)
    requires WithinCaps(reset) && row < |reset.slots| && Candidate(reset, w, now, only, reset.slots[row])
    requires next.caps == reset.caps && |next.slots| == |reset.slots|
    requires next.slots == reset.slots[row := next.slots[row]]
    requires next.slots[row].pool == reset.slots[row].pool
    ensures WithinCaps(next)
  {
    var s := reset.slots[row];
    forall r | r in next.caps ensures WithinCap(next.slots, next.caps[r]) {
      var c := reset.caps[r];
      assert WithinCap(reset.slots, c) && CapAllows(reset, now, s, r);
      var before, after := ClaimedIn(reset.slots, c.pools), ClaimedIn(next.slots, c.pools);
      if s.status == Available && s.pool in c.pools {
        assert after <= before + {row};
        SmallerSet(after, before + {row});
      } else {
        assert after <= before;
        SmallerSet(after, before);
      }
    }
  }

  /** A claim that takes a slot of the task graph, or nothing, stays within every cap. */
  lemma ReserveWithin(db: Db, w: Worker, only: Option<set<Pool>>, wait: bool, now: Time)
    requires Inv(db) && WithinCaps(db) && Reserve(db, w, only, wait, now).Some?
    requires !TakesOffer(db, w, only, now)
    ensures WithinCaps(Reserve(db, w, only, wait, now).value.0)
  {
    var held := HeldSlot(db.slots, w);
    if held.Some? {
      ConcludeWithin(db, w, held.value, now);
    } else if db.run.state == Open {
      NewLeaseWithin(db, w, only, wait, now);
      var (mid, row) := NewLease(db, w, only, wait, now).value;
      if row.Some? {
        ConcludeWithin(mid, w, row.value, now);
        assert Reserve(db, w, only, wait, now).value.0 == Conclude(mid, w, row.value, now).value;
      }
    }
  }

  /** The claim finds no slot and falls back on a delegation offered to anybody. */
  ghost predicate TakesOffer(db: Db, w: Worker, only: Option<set<Pool>>, now: Time) {
    && HeldSlot(db.slots, w).None? && db.run.state == Open
    && Choose(PublishDueReviews(db, now), w, now, only).1.None?
    && PoolOffer(db.delegations, w, 0).Some?
  }

  /** The rest of a reservation changes neither the claims nor the caps. */
  lemma ConcludeSameClaims(mid: Db, w: Worker, row: nat, now: Time)
    requires Conclude(mid, w, row, now).Some?
    ensures var next := Conclude(mid, w, row, now).value;
            next.caps == mid.caps && ClaimsShrink(mid.slots, next.slots) && ClaimsShrink(next.slots, mid.slots)
  {
  }

  lemma ConcludeWithin(mid: Db, w: Worker, row: nat, now: Time)
    requires Conclude(mid, w, row, now).Some?
    ensures WithinCaps(Conclude(mid, w, row, now).value) <==> WithinCaps(mid)
  {
    var next := Conclude(mid, w, row, now).value;
    ConcludeSameClaims(mid, w, row, now);
    if WithinCaps(mid) { ShrinkKeeps(mid, next); }
    if WithinCaps(next) { ShrinkKeeps(next, mid); }
  }

  lemma {:induction false} ReviewsKeepCaps(db: Db, n: nat, now: Time)
    requires n <= |db.reviews|
    ensures PublishReviews(db, n, now).caps == db.caps
  {
    if n > 0 { ReviewsKeepCaps(db, n - 1, now); }
  }

  lemma ReviewsWithin(db: Db, now: Time)
    requires RowsInv(db) && WithinCaps(db)
    ensures WithinCaps(PublishDueReviews(db, now))
  {
    var mid := PublishDueReviews(db, now);
    DueReviewsExtend(db, now);
    ReviewsKeepCaps(db, |db.reviews|, now);
    forall i | 0 <= i < |mid.slots| && mid.slots[i].status == Claimed
      ensures i < |db.slots| && mid.slots[i] == db.slots[i]
    {
      assert i >= |db.slots| ==> LeafRow(mid.slots[i]);
      PrefixRow(db, mid, i);
    }
    ShrinkKeeps(db, mid);
  }

  /** The choice is made among candidates of the database with the learned ceilings reset. */
  lemma ChosenWithin(mid: Db, w: Worker, only: Option<set<Pool>>, now: Time, next: Db)
    requires WithinCaps(mid) && Choose(mid, w, now, only).1.Some?
    requires var row := Choose(mid, w, now, only).1.value;
             && row < |mid.slots| && |next.slots| == |mid.slots|
             && next.slots == mid.slots[row := next.slots[row]] && next.slots[row].pool == mid.slots[row].pool
    requires next.caps == Choose(mid, w, now, only).0.caps
    ensures WithinCaps(next)
  {
    ResetWithin(mid, now);
    PickedWithin(ResetLearned(mid, now), w, now, only, Choose(mid, w, now, only).1.value, next);
  }

  lemma NewLeaseWithin(db: Db, w: Worker, only: Option<set<Pool>>, wait: bool, now: Time)
    requires Inv(db) && WithinCaps(db) && HeldSlot(db.slots, w).None? && db.run.state == Open
    requires NewLease(db, w, only, wait, now).Some? && !TakesOffer(db, w, only, now)
    ensures WithinCaps(NewLease(db, w, only, wait, now).value.0)
  {
    var mid := PublishDueReviews(db, now);
    DueReviewsExtend(db, now);
    ReviewsWithin(db, now);
    ResetWithin(mid, now);
    var (chosen, pick) := Choose(mid, w, now, only);
    if pick.Some? {
      assert NewLease(db, w, only, wait, now).value.0 == TakeSlot(chosen, pick.value, w, now).value;
      ChosenWithin(mid, w, only, now, TakeSlot(chosen, pick.value, w, now).value);
    } else {
      assert NewLease(db, w, only, wait, now).value.0 == chosen;
    }
  }

  // ---- A delegation claimed as a slot of its own answers to no cap ----

  lemma OneMoreClaim(slots: seq<Slot>, more: Slot, pools: set<Pool>)
    requires more.status == Claimed
    ensures |ClaimedIn(slots + [more], pools)| == |ClaimedIn(slots, pools)| + if more.pool in pools then 1 else 0
  {
    var before, after := ClaimedIn(slots, pools), ClaimedIn(slots + [more], pools);
    if more.pool in pools {
      assert after == before + {|slots|};
    } else {
      assert after == before;
    }
  }

  /** A free place is left in every cap over the pool that delegated work is put in. */
  predicate RoomForOffer(db: Db) {
    forall r | r in db.caps && "default" in db.caps[r].pools :: |ClaimedIn(db.slots, db.caps[r].pools)| < db.caps[r].max
  }

  lemma OneMoreKeepsCapsExactly(db: Db, next: Db, more: Slot)
    requires WithinCaps(db) && next.caps == db.caps && next.slots == db.slots + [more]
    requires more.status == Claimed && more.pool == "default"
    ensures WithinCaps(next) <==> RoomForOffer(db)
  {
    forall r | r in db.caps
      ensures WithinCap(next.slots, db.caps[r])
         <==> ("default" in db.caps[r].pools ==> |ClaimedIn(db.slots, db.caps[r].pools)| < db.caps[r].max)
    {
      assert WithinCap(db.slots, db.caps[r]);
      OneMoreClaim(db.slots, more, db.caps[r].pools);
    }
    if WithinCaps(next) {
      forall r | r in db.caps && "default" in db.caps[r].pools
        ensures |ClaimedIn(db.slots, db.caps[r].pools)| < db.caps[r].max
      {
        assert WithinCap(next.slots, next.caps[r]);
      }
    }
  }

  /** Claiming an offered delegation keeps the caps exactly when each of them happens to have a free place: the claim
      itself does not look. */
  lemma OfferKeepsCapsExactly(chosen: Db, w: Worker, offer: nat, now: Time)
    requires WithinCaps(chosen) && offer < |chosen.delegations| && ClaimOffer(chosen, w, offer, now).Some?
    ensures WithinCaps(ClaimOffer(chosen, w, offer, now).value.0) <==> RoomForOffer(chosen)
  {
    var next := ClaimOffer(chosen, w, offer, now).value.0;
    OneMoreKeepsCapsExactly(chosen, next, next.slots[|chosen.slots|]);
  }

  /** A claim that falls back on a delegation: within the caps afterwards exactly if there was room. */
  lemma OfferReserveExactly(db: Db, w: Worker, only: Option<set<Pool>>, wait: bool, now: Time)
    requires Inv(db) && WithinCaps(db) && Reserve(db, w, only, wait, now).Some?
    requires TakesOffer(db, w, only, now)
    ensures WithinCaps(Reserve(db, w, only, wait, now).value.0)
       <==> RoomForOffer(Choose(PublishDueReviews(db, now), w, now, only).0)
  {
    var mid := PublishDueReviews(db, now);
    DueReviewsExtend(db, now);
    ReviewsWithin(db, now);
    ResetWithin(mid, now);
    var chosen := Choose(mid, w, now, only).0;
    assert chosen == ResetLearned(mid, now);
    var offer := PoolOffer(chosen.delegations, w, 0);
    assert chosen.delegations == db.delegations;
    var (leased, row) := NewLease(db, w, only, wait, now).value;
    assert row.Some? && ClaimOffer(chosen, w, offer.value, now) == Some((leased, row.value));
    OfferKeepsCapsExactly(chosen, w, offer.value, now);
    ConcludeWithin(leased, w, row.value, now);
  }

  // ---- The other transactions ----

  /** A worker that brings its own slot to an unplanned run: within the caps exactly if there was room for it. */
  lemma JoinKeepsCapsExactly(db: Db, w: Worker, now: Time)
    requires WithinCaps(db) && Join(db, w, now).Some?
    ensures WithinCaps(Join(db, w, now).value) <==> Join(db, w, now).value.slots == db.slots || RoomForOffer(db)
  {
    var next := Join(db, w, now).value;
    if next.slots != db.slots {
      assert next == db.(slots := db.slots + [next.slots[|db.slots|]]);
      OneMoreKeepsCapsExactly(db, next, next.slots[|db.slots|]);
    }
  }

  /** An operator's cap holds at once exactly if it is not below what is claimed already. */
  lemma SetCapKeepsCapsExactly(db: Db, r: Resource, max: nat, pools: set<Pool>)
    requires WithinCaps(db) && SetCap(db, r, max, pools).Some?
    ensures WithinCaps(SetCap(db, r, max, pools).value) <==> |ClaimedIn(db.slots, pools)| <= max
  {
    var next := SetCap(db, r, max, pools).value;
    if |ClaimedIn(db.slots, pools)| <= max {
      forall q | q in next.caps ensures WithinCap(next.slots, next.caps[q]) {
        if q != r { assert WithinCap(db.slots, db.caps[q]); }
      }
    }
    if WithinCaps(next) { assert WithinCap(next.slots, next.caps[r]); }
  }

  lemma TouchWithin(db: Db, a: Action, now: Time)
    requires TouchAction(a) && WithinCaps(db) && Apply(db, a, now).Some?
    ensures WithinCaps(Apply(db, a, now).value)
  {
    ApplyFrame(db, a, now);
    match a {
      case DoHeartbeat(w, g) => HeartbeatKeeps(db, w, g, now);
      case DoReclaim(k, force) => ReclaimEnds(db, k, force, now);
      case DoCheckpoint(w, g, row, start, commit) => CheckpointKeeps(db, w, g, row, start, commit, now);
    }
    ShrinkKeeps(db, Apply(db, a, now).value);
  }

  lemma GraphWithin(db: Db, a: Action, now: Time)
    requires GraphAction(a) && WithinCaps(db) && Apply(db, a, now).Some?
    ensures WithinCaps(Apply(db, a, now).value)
  {
    ApplyFrame(db, a, now);
    match a {
      case DoPublish(w, g, batch) => PublishKeeps(db, w, g, batch, now);
      case DoRevise(w, g, k, changed, revision) => ReviseKeeps(db, w, g, k, changed, revision, now);
    }
    ShrinkKeeps(db, Apply(db, a, now).value);
  }

  lemma WorkWithin(db: Db, a: Action, now: Time)
    requires a.DoBind? || a.DoFinish? || a.DoFinishLate?
    requires WithinCaps(db) && Apply(db, a, now).Some?
    ensures WithinCaps(Apply(db, a, now).value)
  {
    ApplyFrame(db, a, now);
    match a {
      case DoBind(f, head) => BindKeeps(db, f.worker, f.row, f.generation, head, now);
      case DoFinish(w, row, g, commit) => FinishEnds(db, w, row, g, commit, now);
      case DoFinishLate(w, row, g, commit) => FinishLateEnds(db, w, row, g, commit, now);
    }
    ShrinkKeeps(db, Apply(db, a, now).value);
  }

  // ---- Every step, exactly ----

  ghost predicate ClaimLeavesRoom(db: Db, w: Worker, only: Option<set<Pool>>, now: Time) {
    TakesOffer(db, w, only, now) ==> RoomForOffer(Choose(PublishDueReviews(db, now), w, now, only).0)
  }

  /** The step leaves room where the code does not look for it: an operator's cap, a worker's own slot, and a claim that
      falls back on a delegation. */
  ghost predicate LeavesRoom(db: Db, a: Action, now: Time) {
    match a
    case DoSetCap(_, max, pools) => |ClaimedIn(db.slots, pools)| <= max
    case DoJoin(w) => (var next := Join(db, w, now); next.None? || next.value.slots == db.slots || RoomForOffer(db))
    case DoReserve(w, only, _) => ClaimLeavesRoom(db, w, only, now)
    case _ => true
  }

  lemma PolicyOrSlotHolds(db: Db, a: Action, now: Time)
    requires a.DoSetCap? || a.DoJoin?
    requires WithinCaps(db) && Apply(db, a, now).Some?
    ensures WithinCaps(Apply(db, a, now).value) <==> LeavesRoom(db, a, now)
  {
    match a
    case DoSetCap(r, max, pools) => SetCapKeepsCapsExactly(db, r, max, pools);
    case DoJoin(w) => JoinKeepsCapsExactly(db, w, now);
  }

  lemma ReserveHolds(db: Db, w: Worker, only: Option<set<Pool>>, wait: bool, now: Time)
    requires Inv(db) && WithinCaps(db) && Reserve(db, w, only, wait, now).Some?
    ensures WithinCaps(Reserve(db, w, only, wait, now).value.0) <==> ClaimLeavesRoom(db, w, only, now)
  {
    if TakesOffer(db, w, only, now) { OfferReserveExactly(db, w, only, wait, now); }
    else { ReserveWithin(db, w, only, wait, now); }
  }

  /** From counts within the caps every step keeps them there exactly if it leaves room in the three cases in which the
      code does not look. */
  lemma CapsHoldExactly(s: System, a: Action, now: Time)
    requires SystemInv(s) && WithinCaps(s.db) && Apply(s.db, a, now).Some?
    ensures WithinCaps(Apply(s.db, a, now).value) <==> LeavesRoom(s.db, a, now)
  {
    if a.DoSetCap? || a.DoJoin? { PolicyOrSlotHolds(s.db, a, now); }
    else if a.DoReserve? { ReserveHolds(s.db, a.w, a.only, a.wait, now); }
    else if a.DoResourceBlocked? { ResourceBlockedWithin(s.db, a.w, a.row, a.generation, a.resource, now); }
    else if TouchAction(a) { TouchWithin(s.db, a, now); }
    else if GraphAction(a) { GraphWithin(s.db, a, now); }
    else if a.DoBind? || a.DoFinish? || a.DoFinishLate? { WorkWithin(s.db, a, now); }
    else { SlotsUntouched(s.db, a, now); }
  }

  lemma SlotsUntouched(db: Db, a: Action, now: Time)
    requires !TouchesSlots(a) && !a.DoSetCap? && WithinCaps(db) && Apply(db, a, now).Some?
    ensures WithinCaps(Apply(db, a, now).value)
  {
    ApplyFrame(db, a, now);
    ShrinkKeeps(db, Apply(db, a, now).value);
  }

  ghost predicate EventLeavesRoom(s: System, e: Event) {
    Enabled(s, e.action) && Apply(s.db, e.action, e.now).Some? ==> LeavesRoom(s.db, e.action, e.now)
  }

  ghost predicate Capped(s: System, run: seq<Event>) {
    forall n | 0 <= n < |run| :: EventLeavesRoom(Execute(s, run[..n]), run[n])
  }

  ghost predicate AlwaysWithinCaps(s: System, run: seq<Event>) {
    forall n | 0 <= n <= |run| :: WithinCaps(Execute(s, run[..n]).db)
  }

  lemma EventHolds(s: System, e: Event)
    requires SystemInv(s) && WithinCaps(s.db)
    ensures WithinCaps(Step(s, e.action, e.now).db) <==> EventLeavesRoom(s, e)
  {
    if Enabled(s, e.action) && Apply(s.db, e.action, e.now).Some? { CapsHoldExactly(s, e.action, e.now); }
  }

  lemma StepHolds(s: System, run: seq<Event>, n: nat)
    requires SystemInv(s) && n < |run| && WithinCaps(Execute(s, run[..n]).db)
    ensures WithinCaps(Execute(s, run[..n + 1]).db) <==> EventLeavesRoom(Execute(s, run[..n]), run[n])
  {
    AlwaysSound(s, run[..n]);
    assert run[..n + 1][..n] == run[..n];
    EventHolds(Execute(s, run[..n]), run[n]);
  }

  lemma {:induction false} HoldsUpTo(s: System, run: seq<Event>, n: nat)
    requires SystemInv(s) && WithinCaps(s.db) && Capped(s, run) && n <= |run|
    ensures WithinCaps(Execute(s, run[..n]).db)
  {
    if n > 0 {
      HoldsUpTo(s, run, n - 1);
      StepHolds(s, run, n - 1);
    }
  }

  lemma RoomIsNeeded(s: System, run: seq<Event>, n: nat)
    requires SystemInv(s) && AlwaysWithinCaps(s, run) && n < |run|
    ensures EventLeavesRoom(Execute(s, run[..n]), run[n])
  {
    assert WithinCaps(Execute(s, run[..n]).db) && WithinCaps(Execute(s, run[..n + 1]).db);
    StepHolds(s, run, n);
  }

  /** Along a whole run, in any interleaving, every cap is respected at all times, also while ceilings are learned and
      reset, exactly if every step leaves room in those three cases. */
  lemma CapsHoldThroughout(s: System, run: seq<Event>)
    requires SystemInv(s) && WithinCaps(s.db)
    ensures AlwaysWithinCaps(s, run) <==> Capped(s, run)
  {
    if AlwaysWithinCaps(s, run) {
      forall n: nat | n < |run| ensures EventLeavesRoom(Execute(s, run[..n]), run[n]) { RoomIsNeeded(s, run, n); }
    }
    if Capped(s, run) {
      forall n: nat | n <= |run| ensures WithinCaps(Execute(s, run[..n]).db) { HoldsUpTo(s, run, n); }
    }
  }
}
