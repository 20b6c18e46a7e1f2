/** How leases end: what each transaction leaves of them, and how long an unforced lease lasts. */
module Leases {
  import opened Prelude
  import opened Tables
  import opened Scheduling
  import opened Transactions
  import opened Invariant
  import opened ClaimSteps
  import opened Protocol
  import opened Frames
  import opened Safety

  // ---- Transaction by transaction ----

  /** The lease goes on, touched now or not. */
  predicate Kept(s: Slot, t: Slot, now: Time) {
    SameLease(s, t) && t.pool == s.pool && (t.lastSeen == s.lastSeen || t.lastSeen == Some(now))
  }

  /** Whatever is claimed in `b` was claimed in `a`, in the same pool. */
  predicate ClaimsShrink(a: seq<Slot>, b: seq<Slot>) {
    forall i | 0 <= i < |b| && b[i].status == Claimed :: i < |a| && a[i].status == Claimed && a[i].pool == b[i].pool
  }

  /** No row is newly leased, and every leased row but one keeps its lease. */
  predicate LeasesKept(a: seq<Slot>, b: seq<Slot>, but: Option<nat>, now: Time) {
    && |a| <= |b| && ClaimsShrink(a, b)
    && forall i | 0 <= i < |a| && a[i].status == Claimed && but != Some(i) :: Kept(a[i], b[i], now)
  }

  lemma SlotsUnchanged(a: seq<Slot>, now: Time)
    ensures LeasesKept(a, a, None, now)
  {
  }

  lemma OneRowChanges(a: seq<Slot>, b: seq<Slot>, row: nat, now: Time)
    requires row < |a| == |b| && b == a[row := b[row]]
    requires b[row].status == Claimed ==> a[row].status == Claimed && b[row].pool == a[row].pool
    ensures LeasesKept(a, b, Some(row), now)
    ensures (a[row].status == Claimed ==> Kept(a[row], b[row], now)) ==> LeasesKept(a, b, None, now)
  {
  }

  lemma HeartbeatKeeps(db: Db, w: Worker, g: nat, now: Time)
    requires Heartbeat(db, w, g, now).Some?
    ensures var next := Heartbeat(db, w, g, now).value;
            LeasesKept(db.slots, next.slots, None, now)
  {
    var next := Heartbeat(db, w, g, now).value;
    if next.slots == db.slots { SlotsUnchanged(db.slots, now); }
    else { OneRowChanges(db.slots, next.slots, ActiveSlot(db.slots, w, g).value, now); }
  }

  lemma CheckpointKeeps(db: Db, w: Worker, g: nat, row: nat, start: Option<Commit>, commit: Commit, now: Time)
    requires CheckpointTx(db, w, g, row, start, commit, now).Some?
    ensures var next := CheckpointTx(db, w, g, row, start, commit, now).value;
            LeasesKept(db.slots, next.slots, None, now)
  {
    OneRowChanges(db.slots, CheckpointTx(db, w, g, row, start, commit, now).value.slots, row, now);
  }

  lemma ReclaimEnds(db: Db, k: string, force: bool, now: Time)
    requires ReclaimTask(db, k, force, now).Some?
    ensures var next := ReclaimTask(db, k, force, now).value;
            LeasesKept(db.slots, next.slots, SlotByName(db.slots, k), now)
  {
    OneRowChanges(db.slots, ReclaimTask(db, k, force, now).value.slots, SlotByName(db.slots, k).value, now);
  }

  lemma ResourceBlockedEnds(db: Db, w: Worker, row: nat, g: nat, r: Resource, now: Time)
    requires ResourceBlocked(db, w, row, g, r, now).Some?
    ensures var next := ResourceBlocked(db, w, row, g, r, now).value;
            LeasesKept(db.slots, next.slots, Some(row), now)
  {
    OneRowChanges(db.slots, ResourceBlocked(db, w, row, g, r, now).value.slots, row, now);
  }

  lemma BindKeeps(db: Db, w: Worker, row: nat, g: nat, head: Commit, now: Time)
    requires Bind(db, w, row, g, head).Some?
    ensures var next := Bind(db, w, row, g, head).value;
            LeasesKept(db.slots, next.slots, None, now)
  {
    OneRowChanges(db.slots, Bind(db, w, row, g, head).value.slots, row, now);
  }

  lemma PublishKeeps(db: Db, w: Worker, g: nat, batch: seq<Draft>, now: Time)
    requires Publish(db, w, g, batch, now).Some?
    ensures LeasesKept(db.slots, Publish(db, w, g, batch, now).value.slots, None, now)
  {
    var mid := Touch(db, ActiveSlot(db.slots, w, g).value, now);
    OneRowChanges(db.slots, mid.slots, ActiveSlot(db.slots, w, g).value, now);
    assert mid.slots <= Publish(db, w, g, batch, now).value.slots;
  }

  lemma ReviseKeeps(db: Db, w: Worker, g: nat, k: string, changed: Draft, revision: nat, now: Time)
    requires Revise(db, w, g, k, changed, revision, now).Some?
    ensures LeasesKept(db.slots, Revise(db, w, g, k, changed, revision, now).value.slots, None, now)
  {
    var mid := Touch(db, ActiveSlot(db.slots, w, g).value, now);
    OneRowChanges(db.slots, mid.slots, ActiveSlot(db.slots, w, g).value, now);
  }

  lemma FinishEnds(db: Db, w: Worker, row: nat, g: nat, commit: Commit, now: Time)
    requires Finish(db, w, row, g, commit, now).Some?
    ensures ActiveSlot(db.slots, w, g) == Some(row)
    ensures LeasesKept(db.slots, Finish(db, w, row, g, commit, now).value.slots, Some(row), now)
  {
    OneRowChanges(db.slots, Finish(db, w, row, g, commit, now).value.slots, row, now);
  }

  lemma FinishLateEnds(db: Db, w: Worker, row: nat, g: nat, commit: Commit, now: Time)
    requires FinishLate(db, w, row, g, commit, now).Some?
    ensures LeaseRecord(db.reclaims, row, w, g).Some?
    ensures LeasesKept(db.slots, FinishLate(db, w, row, g, commit, now).value.slots, Some(row), now)
  {
    var next := FinishLate(db, w, row, g, commit, now).value;
    if next.slots == db.slots { SlotsUnchanged(db.slots, now); }
    else { OneRowChanges(db.slots, next.slots, row, now); }
  }

  // ---- Claims ----

  lemma PrefixRow(db: Db, mid: Db, i: nat)
    requires Extension(db, mid) && i < |db.slots|
    ensures mid.slots[i] == db.slots[i]
  {
    assert mid.slots[..|db.slots|][i] == mid.slots[i];
  }

  /** A choice leads to a lease of the chosen row; without one the last row may be new. */
  lemma ChosenLease(chosen: Db, pick: Option<nat>, w: Worker, wait: bool, now: Time, i: nat)
    requires LeaseChosen(chosen, pick, w, wait, now).Some? && i < |chosen.slots|
    ensures var (next, row) := LeaseChosen(chosen, pick, w, wait, now).value;
            && |chosen.slots| <= |next.slots|
            && (row != Some(i) ==> next.slots[i] == chosen.slots[i])
            && (row == Some(i) ==> pick == Some(i))
  {
  }

  /** A new lease replaces no row but the one it takes, and takes a claimed row only when its lease expired. */
  lemma NewLeaseRow(db: Db, w: Worker, only: Option<set<Pool>>, wait: bool, now: Time, i: nat)
    requires Inv(db) && NewLease(db, w, only, wait, now).Some?
    requires i < |db.slots| && db.slots[i].status == Claimed
    ensures var (next, row) := NewLease(db, w, only, wait, now).value;
            && i < |next.slots|
            && (row != Some(i) ==> next.slots[i] == db.slots[i])
            && (row == Some(i) ==> db.slots[i].owner != Some(w) && Expired(db.slots[i], now))
  {
    var mid := PublishDueReviews(db, now);
    DueReviewsExtend(db, now);
    ChooseKeepsTables(mid, w, now, only);
    PrefixRow(db, mid, i);
    var choice := Choose(mid, w, now, only);
    ChosenLease(choice.0, choice.1, w, wait, now, i);
  }

  lemma ConcludeKeeps(db: Db, w: Worker, row: nat, now: Time, i: nat)
    requires Conclude(db, w, row, now).Some? && i < |db.slots| && db.slots[i].status == Claimed
    ensures var next := Conclude(db, w, row, now).value; i < |next.slots| && Kept(db.slots[i], next.slots[i], now)
  {
  }

  predicate KeptOrTaken(db: Db, next: Db, w: Worker, now: Time, i: nat)
    requires i < |db.slots|
  {
    && i < |next.slots|
    && (Kept(db.slots[i], next.slots[i], now) || (db.slots[i].owner != Some(w) && Expired(db.slots[i], now)))
  }

  lemma FreshReserveEnds(db: Db, w: Worker, only: Option<set<Pool>>, wait: bool, now: Time, i: nat)
    requires Inv(db) && HeldSlot(db.slots, w).None? && NewLease(db, w, only, wait, now).Some?
    requires i < |db.slots| && db.slots[i].status == Claimed
    ensures var (mid, row) := NewLease(db, w, only, wait, now).value;
            && KeptOrTaken(db, mid, w, now, i)
            && (row.Some? && Conclude(mid, w, row.value, now).Some? ==>
                  KeptOrTaken(db, Conclude(mid, w, row.value, now).value, w, now, i))
  {
    NewLeaseRow(db, w, only, wait, now, i);
    var (mid, row) := NewLease(db, w, only, wait, now).value;
    if row.Some? && Conclude(mid, w, row.value, now).Some? && row != Some(i) { ConcludeKeeps(mid, w, row.value, now, i); }
  }

  lemma ReserveEnds(db: Db, w: Worker, only: Option<set<Pool>>, wait: bool, now: Time, i: nat)
    requires Inv(db) && Reserve(db, w, only, wait, now).Some?
    requires i < |db.slots| && db.slots[i].status == Claimed
    ensures KeptOrTaken(db, Reserve(db, w, only, wait, now).value.0, w, now, i)
  {
    var held := HeldSlot(db.slots, w);
    if held.Some? { ConcludeKeeps(db, w, held.value, now, i); }
    else if db.run.state == Open { FreshReserveEnds(db, w, only, wait, now, i); }
  }

  // ---- All transactions ----

  /** The only reasons for which a worker stops holding a slot. */
  predicate LeaseEnds(db: Db, a: Action, now: Time, i: nat)
    requires i < |db.slots|
  {
    match a
    case DoReclaim(k, force) => KeyName(db.slots[i].key) == k && (force || Expired(db.slots[i], now))
    case DoReserve(w, _, _) => db.slots[i].owner != Some(w) && Expired(db.slots[i], now)
    case DoResourceBlocked(w, row, g, _) => row == i && db.slots[i].owner == Some(w) && db.slots[i].generation == g
    case DoFinish(w, row, g, _) => row == i && db.slots[i].owner == Some(w) && db.slots[i].generation == g
    case DoFinishLate(w, row, g, _) => row == i && LeaseRecord(db.reclaims, row, w, g).Some?
    case _ => false
  }

  predicate KeptOrEnds(db: Db, a: Action, now: Time, next: Db, i: nat)
    requires i < |db.slots|
  {
    i < |next.slots| && (Kept(db.slots[i], next.slots[i], now) || LeaseEnds(db, a, now, i))
  }

  lemma TouchEnds(db: Db, a: Action, now: Time, i: nat)
    requires TouchAction(a) && Apply(db, a, now).Some? && i < |db.slots| && db.slots[i].status == Claimed
    ensures KeptOrEnds(db, a, now, Apply(db, a, now).value, i)
  {
    match a
    case DoHeartbeat(w, g) => HeartbeatKeeps(db, w, g, now);
    case DoReclaim(k, force) => ReclaimEnds(db, k, force, now);
    case DoCheckpoint(w, g, row, start, commit) => CheckpointKeeps(db, w, g, row, start, commit, now);
  }

  lemma GraphEnds(db: Db, a: Action, now: Time, i: nat)
    requires GraphAction(a) && Apply(db, a, now).Some? && i < |db.slots| && db.slots[i].status == Claimed
    ensures KeptOrEnds(db, a, now, Apply(db, a, now).value, i)
  {
    match a
    case DoPublish(w, g, batch) => PublishKeeps(db, w, g, batch, now);
    case DoRevise(w, g, k, changed, revision) => ReviseKeeps(db, w, g, k, changed, revision, now);
  }

  lemma WorkEnds(db: Db, a: Action, now: Time, i: nat)
    requires a.DoBind? || a.DoFinish? || a.DoFinishLate?
    requires Apply(db, a, now).Some? && i < |db.slots| && db.slots[i].status == Claimed
    ensures KeptOrEnds(db, a, now, Apply(db, a, now).value, i)
  {
    match a
    case DoBind(f, head) => BindKeeps(db, f.worker, f.row, f.generation, head, now);
    case DoFinish(w, row, g, commit) => FinishEnds(db, w, row, g, commit, now);
    case DoFinishLate(w, row, g, commit) => FinishLateEnds(db, w, row, g, commit, now);
  }

  lemma JoinKeeps(db: Db, w: Worker, now: Time, i: nat)
    requires Join(db, w, now).Some? && i < |db.slots| && db.slots[i].status == Claimed
    ensures i < |Join(db, w, now).value.slots| && Kept(db.slots[i], Join(db, w, now).value.slots[i], now)
  {
  }

  lemma ReserveOrEnds(db: Db, a: Action, now: Time, i: nat)
    requires a.DoReserve? && Inv(db) && Apply(db, a, now).Some? && i < |db.slots| && db.slots[i].status == Claimed
    ensures KeptOrEnds(db, a, now, Apply(db, a, now).value, i)
  {
    match a
    case DoReserve(w, only, wait) => ReserveEnds(db, w, only, wait, now, i);
  }

  lemma JoinOrReturnEnds(db: Db, a: Action, now: Time, i: nat)
    requires a.DoJoin? || a.DoResourceBlocked?
    requires Apply(db, a, now).Some? && i < |db.slots| && db.slots[i].status == Claimed
    ensures KeptOrEnds(db, a, now, Apply(db, a, now).value, i)
  {
    match a
    case DoResourceBlocked(w, row, g, r) => ResourceBlockedEnds(db, w, row, g, r, now);
    case DoJoin(w) => JoinKeeps(db, w, now, i);
  }

  /** A worker loses a slot only by finishing or returning it, by a late finish under an earlier lease of that slot,
      by an operator's forced reclaim, or after more than the lease time without any recorded activity. */
  lemma LeaseEndsOnlyFor(s: System, a: Action, now: Time, i: nat)
    requires SystemInv(s) && Apply(s.db, a, now).Some?
    requires i < |s.db.slots| && s.db.slots[i].status == Claimed
    ensures KeptOrEnds(s.db, a, now, Apply(s.db, a, now).value, i)
  {
    if TouchAction(a) { TouchEnds(s.db, a, now, i); }
    else if GraphAction(a) { GraphEnds(s.db, a, now, i); }
    else if a.DoReserve? { ReserveOrEnds(s.db, a, now, i); }
    else if SlotAction(a) { JoinOrReturnEnds(s.db, a, now, i); }
    else if a.DoBind? || a.DoFinish? || a.DoFinishLate? { WorkEnds(s.db, a, now, i); }
    else { ApplyFrame(s.db, a, now); }
  }

  // ---- Whole runs ----

  /** The clock does not go back. */
  predicate Clocked(run: seq<Event>) {
    forall m, n | 0 <= m < n < |run| :: run[m].now <= run[n].now
  }

  /** Row `i` is still under the lease that `t` is, and was not seen before `since`. */
  predicate SeenSince(db: Db, i: nat, t: Slot, since: Time) {
    && i < |db.slots| && SameLease(t, db.slots[i])
    && db.slots[i].lastSeen.Some? && db.slots[i].lastSeen.value >= since
  }

  /** The ends of a lease that do not depend on the clock: its holder finishes or returns the slot, an operator forces a
      reclaim, or late work under an earlier lease of the slot is reported. */
  predicate EndsByAct(db: Db, a: Action, i: nat)
    requires i < |db.slots|
  {
    match a
    case DoReclaim(k, force) => force && KeyName(db.slots[i].key) == k
    case DoResourceBlocked(w, row, g, _) => row == i && db.slots[i].owner == Some(w) && db.slots[i].generation == g
    case DoFinish(w, row, g, _) => row == i && db.slots[i].owner == Some(w) && db.slots[i].generation == g
    case DoFinishLate(w, row, g, _) => row == i && LeaseRecord(db.reclaims, row, w, g).Some?
    case _ => false
  }

  /** Along the run only the clock could end the lease on row `i`. */
  ghost predicate OnlyTimeEnds(s: System, run: seq<Event>, i: nat) {
    forall n | 0 <= n < |run| :: i < |Execute(s, run[..n]).db.slots| ==> !EndsByAct(Execute(s, run[..n]).db, run[n].action, i)
  }

  lemma FrontOnlyTime(s: System, run: seq<Event>, i: nat)
    requires run != [] && OnlyTimeEnds(s, run, i)
    ensures OnlyTimeEnds(s, run[..|run| - 1], i)
  {
    var front := run[..|run| - 1];
    forall n | 0 <= n < |front| ensures front[..n] == run[..n] && front[n] == run[n] {}
    forall n | 0 <= n < |front| && i < |Execute(s, front[..n]).db.slots|
      ensures !EndsByAct(Execute(s, front[..n]).db, front[n].action, i)
    {
      assert i < |Execute(s, run[..n]).db.slots|;
    }
  }

  lemma SameLeaseOn(s: Slot, t: Slot, u: Slot)
    requires SameLease(s, t) && SameLease(t, u)
    ensures s.generation > 0 ==> SameLease(s, u)
  {
  }

  lemma LeaseLastsStep(s: System, a: Action, now: Time, i: nat, t: Slot, since: Time)
    requires SystemInv(s) && t.generation > 0 && SeenSince(s.db, i, t, since)
    requires since <= now <= since + LEASE_SECONDS && !EndsByAct(s.db, a, i)
    ensures SeenSince(Step(s, a, now).db, i, t, since)
  {
    if Enabled(s, a) && Apply(s.db, a, now).Some? {
      var next := Apply(s.db, a, now).value;
      LeaseEndsOnlyFor(s, a, now, i);
      assert !LeaseEnds(s.db, a, now, i);
      SameLeaseOn(t, s.db.slots[i], next.slots[i]);
    }
  }

  /** A lease touched at `since` lasts for the lease time: whatever anybody does, it is still held, and seen no earlier,
      as long as no event comes more than 600 seconds later and nothing but time could end it. */
  lemma {:induction false} LeaseLasts(s: System, run: seq<Event>, i: nat, since: Time)
    requires SystemInv(s) && Clocked(run) && i < |s.db.slots| && s.db.slots[i].generation > 0
    requires SeenSince(s.db, i, s.db.slots[i], since)
    requires forall n | 0 <= n < |run| :: since <= run[n].now <= since + LEASE_SECONDS
    requires OnlyTimeEnds(s, run, i)
    ensures SeenSince(Execute(s, run).db, i, s.db.slots[i], since)
    decreases |run|
  {
    if run != [] {
      var front, e := run[..|run| - 1], run[|run| - 1];
      FrontOnlyTime(s, run, i);
      LeaseLasts(s, front, i, since);
      AlwaysSound(s, front);
      assert !EndsByAct(Execute(s, front).db, e.action, i);
      LeaseLastsStep(Execute(s, front), e.action, e.now, i, s.db.slots[i], since);
    }
  }

  /** So an unforced loss of a lease, by anybody, comes more than 600 seconds after the last time it was touched. */
  lemma UnforcedLossIsLate(s: System, before: seq<Event>, after: seq<Event>, i: nat)
    requires Initial(s) && Clocked(before + after) && before != []
    requires var mid := Execute(s, before).db;
             i < |mid.slots| && mid.slots[i].status == Claimed && mid.slots[i].generation > 0
             && mid.slots[i].lastSeen == Some(before[|before| - 1].now)
    requires OnlyTimeEnds(Execute(s, before), after, i)
    requires var end := Execute(s, before + after).db;
             !(i < |end.slots| && SameLease(Execute(s, before).db.slots[i], end.slots[i]))
    ensures exists n :: 0 <= n < |after| && after[n].now > before[|before| - 1].now + LEASE_SECONDS
  {
    ReachableSound(s, before);
    ExecuteTwice(s, before, after);
    var mid := Execute(s, before);
    var since := before[|before| - 1].now;
    var all := before + after;
    forall m, n | 0 <= m < n < |after| ensures after[m].now <= after[n].now {
      assert all[|before| + m] == after[m] && all[|before| + n] == after[n];
    }
    forall n | 0 <= n < |after| ensures since <= after[n].now {
      assert all[|before| - 1] == before[|before| - 1] && all[|before| + n] == after[n];
    }
    if forall n | 0 <= n < |after| :: after[n].now <= since + LEASE_SECONDS {
      LeaseLasts(mid, after, i, since);
    }
  }
}
