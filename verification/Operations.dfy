/** What single calls mean for their callers, across calls and over whole runs. */
module Operations {
  import opened Prelude
  import opened Tables
  import opened Scheduling
  import opened Transactions
  import opened Invariant
  import opened Steps
  import opened ClaimSteps
  import opened Protocol
  import opened Frames
  import opened Safety

  // ---- Reclaimed work can still be reported ----

  /** The last record names the lease that was taken away, with its start and its last checkpoint. */
  lemma ReclaimIsRecorded(db: Db, k: string, force: bool, now: Time)
    requires ReclaimTask(db, k, force, now).Some?
    ensures var i := SlotByName(db.slots, k).value;
            var s, next := db.slots[i], ReclaimTask(db, k, force, now).value;
            && s.owner.Some? && |next.reclaims| == |db.reclaims| + 1
            && next.reclaims[|db.reclaims|] == RecordOf(i, s, s.owner.value)
            && LeaseRecord(next.reclaims, i, s.owner.value, s.generation) == Some(|db.reclaims|)
  {
  }

  lemma RecordIsFound(db: Db, n: nat)
    requires Records(db) && n < |db.reclaims|
    ensures LeaseRecord(db.reclaims, db.reclaims[n].slot, db.reclaims[n].oldOwner, db.reclaims[n].oldGeneration) == Some(n)
  {
  }

  lemma ReportIsHeard(db: Db, n: nat, commit: Commit, now: Time)
    requires Inv(db) && n < |db.reclaims|
    ensures var r := db.reclaims[n];
            FinishLate(db, r.oldOwner, r.slot, r.oldGeneration, commit, now).Some? <==>
              r.oldStart.Some? && (r.resolutionCommit.None? || r.resolutionCommit == Some(commit))
  {
    RecordIsFound(db, n);
    assert RecordSound(db, db.reclaims[n]);
  }

  /** Whatever happens to the slot afterwards, work done under a lost lease can be reported exactly if its inputs had
      been bound, until one commit was reported for it, and then only that commit. */
  lemma LostWorkStaysReportable(s: System, before: seq<Event>, after: seq<Event>, n: nat, commit: Commit, now: Time)
    requires Initial(s) && n < |Execute(s, before).db.reclaims|
    ensures var r, db := Execute(s, before).db.reclaims[n], Execute(s, before + after).db;
            && n < |db.reclaims|
            && (FinishLate(db, r.oldOwner, r.slot, r.oldGeneration, commit, now).Some? <==>
                  r.oldStart.Some? && (db.reclaims[n].resolutionCommit.None? || db.reclaims[n].resolutionCommit == Some(commit)))
  {
    ReachableSound(s, before);
    ReachableSound(s, before + after);
    ExecuteTwice(s, before, after);
    RecordForever(Execute(s, before), after, n);
    ReportIsHeard(Execute(s, before + after).db, n, commit, now);
  }

  /** A worker whose slot is reclaimed, forced or not, can from then on report its work under the lost lease, for as long
      as nothing else was reported under it, if it had got its inputs; and never if it had not. */
  lemma ReclaimedWorkIsReportable(s: System, before: seq<Event>, k: string, force: bool, at: Time, after: seq<Event>,
                                  commit: Commit, now: Time)
    requires Initial(s)
    requires var db := Execute(s, before).db; ReclaimTask(db, k, force, at).Some?
    ensures var db := Execute(s, before).db;
            var i := SlotByName(db.slots, k).value;
            var lost, later := db.slots[i], Execute(s, before + [Event(DoReclaim(k, force), at)] + after).db;
            && lost.owner.Some? && |db.reclaims| < |later.reclaims|
            && var told := later.reclaims[|db.reclaims|].resolutionCommit;
               (FinishLate(later, lost.owner.value, i, lost.generation, commit, now).Some? <==>
                 lost.start.Some? && (told.None? || told == Some(commit)))
  {
    var db, run := Execute(s, before).db, before + [Event(DoReclaim(k, force), at)];
    assert run[..|run| - 1] == before;
    ReclaimIsRecorded(db, k, force, at);
    assert Execute(s, run).db == ReclaimTask(db, k, force, at).value;
    LostWorkStaysReportable(s, run, after, |db.reclaims|, commit, now);
  }

  /** An accepted late result stops the worker that had replaced its author: it may not claim until it acknowledges,
      and its own finish is refused. */
  lemma ReplacedWorkerStops(db: Db, w: Worker, row: nat, g: nat, commit: Commit, now: Time, v: Worker, other: Commit,
                            only: Option<set<Pool>>, wait: bool, later: Time)
    requires Inv(db) && FinishLate(db, w, row, g, commit, now).Some?
    requires row < |db.slots| && HoldsSlot(db.slots[row], v) && v != w
    requires FinishLate(db, w, row, g, commit, now).value.slots != db.slots
    ensures var next := FinishLate(db, w, row, g, commit, now).value;
            && next.slots[row].completedBy == Some(w)
            && Reserve(next, v, only, wait, later).None?
            && Finish(next, v, row, db.slots[row].generation, other, later).None?
  {
  }

  // ---- Claims whose reply was lost ----

  lemma ConcludeAgain(db: Db, w: Worker, row: nat, now: Time, later: Time)
    requires Conclude(db, w, row, now).Some?
    ensures var mid := Conclude(db, w, row, now).value;
            && row < |mid.slots|
            && Conclude(mid, w, row, later) == Some(mid.(slots := mid.slots[row := mid.slots[row].(lastSeen := Some(later))]))
  {
    var renewed := db.(slots := db.slots[row := Renewed(db.slots[row], now)]);
    var reg := Register(renewed, w);
    var mid := Adopt(reg, w, row).value;
    var last := LatestReclaim(reg.reclaims, row);
    if last.Some? && reg.reclaims[last.value].adoptedBy.None? {
      LatestStays(reg.reclaims, mid.reclaims, row);
    }
    assert w in mid.workers;
  }

  lemma {:induction false} LatestStays(a: seq<Reclaim>, b: seq<Reclaim>, row: nat)
    requires |a| == |b| && forall i | 0 <= i < |a| :: a[i].slot == b[i].slot
    ensures LatestReclaim(a, row) == LatestReclaim(b, row)
    decreases |a|
  {
    if a != [] { LatestStays(a[..|a| - 1], b[..|b| - 1], row); }
  }

  lemma ReserveConcludes(db: Db, w: Worker, only: Option<set<Pool>>, wait: bool, now: Time) returns (mid: Db)
    requires Reserve(db, w, only, wait, now).Some? && Reserve(db, w, only, wait, now).value.1.Some?
    ensures var row := Reserve(db, w, only, wait, now).value.1.value;
            Conclude(mid, w, row, now) == Some(Reserve(db, w, only, wait, now).value.0)
    ensures mid.stopOrders == db.stopOrders && w !in db.retired && w !in db.stopOrders
  {
    var held := HeldSlot(db.slots, w);
    if held.Some? {
      mid := db;
    } else {
      mid := NewLease(db, w, only, wait, now).value.0;
      StopOrdersStay(db, w, only, wait, now);
    }
  }

  lemma {:induction false} ReviewsStop(db: Db, n: nat, now: Time)
    requires n <= |db.reviews|
    ensures PublishReviews(db, n, now).stopOrders == db.stopOrders
  {
    if n > 0 { ReviewsStop(db, n - 1, now); }
  }

  lemma LeaseStop(chosen: Db, pick: Option<nat>, w: Worker, wait: bool, now: Time)
    requires LeaseChosen(chosen, pick, w, wait, now).Some?
    ensures LeaseChosen(chosen, pick, w, wait, now).value.0.stopOrders == chosen.stopOrders
  {
  }

  lemma StopOrdersStay(db: Db, w: Worker, only: Option<set<Pool>>, wait: bool, now: Time)
    requires NewLease(db, w, only, wait, now).Some?
    ensures NewLease(db, w, only, wait, now).value.0.stopOrders == db.stopOrders
  {
    ReviewsStop(db, |db.reviews|, now);
    var choice := Choose(PublishDueReviews(db, now), w, now, only);
    LeaseStop(choice.0, choice.1, w, wait, now);
  }

  /** A worker that holds a slot resumes it. */
  lemma ReserveResumes(db: Db, w: Worker, only: Option<set<Pool>>, wait: bool, now: Time, row: nat)
    requires w !in db.retired && w !in db.stopOrders && HeldSlot(db.slots, w) == Some(row)
    ensures var r := Conclude(db, w, row, now);
            Reserve(db, w, only, wait, now) == if r.None? then None else Some((r.value, Some(row)))
  {
  }

  lemma ReservedIsHeld(db: Db, w: Worker, only: Option<set<Pool>>, wait: bool, now: Time)
    requires Inv(db) && Reserve(db, w, only, wait, now).Some? && Reserve(db, w, only, wait, now).value.1.Some?
    ensures var (mid, row) := Reserve(db, w, only, wait, now).value; HeldSlot(mid.slots, w) == row
  {
    ReserveGood(db, w, only, wait, now);
    var (mid, row) := Reserve(db, w, only, wait, now).value;
    HeldRow(mid.slots, row.value, w);
  }

  lemma ConcludeStop(db: Db, w: Worker, row: nat, now: Time)
    requires Conclude(db, w, row, now).Some?
    ensures Conclude(db, w, row, now).value.stopOrders == db.stopOrders
  {
  }

  lemma ReservedMayResume(db: Db, w: Worker, only: Option<set<Pool>>, wait: bool, now: Time) returns (leased: Db)
    requires Reserve(db, w, only, wait, now).Some? && Reserve(db, w, only, wait, now).value.1.Some?
    ensures var (mid, row) := Reserve(db, w, only, wait, now).value;
            && w !in mid.retired && w !in mid.stopOrders && Conclude(leased, w, row.value, now) == Some(mid)
  {
    leased := ReserveConcludes(db, w, only, wait, now);
    ReserveFrame(db, w, only, wait, now);
    ConcludeStop(leased, w, Reserve(db, w, only, wait, now).value.1.value, now);
  }

  /** A claim that is repeated, because its reply was lost, resumes the same slot under the same generation and changes
      nothing but the time of the last touch. */
  lemma RepeatedClaimResumes(db: Db, w: Worker, only: Option<set<Pool>>, wait: bool, now: Time,
                             again: Option<set<Pool>>, waitAgain: bool, later: Time)
    requires Inv(db) && Reserve(db, w, only, wait, now).Some? && Reserve(db, w, only, wait, now).value.1.Some?
    ensures var (mid, row) := Reserve(db, w, only, wait, now).value;
            && row.value < |mid.slots|
            && Reserve(mid, w, again, waitAgain, later)
                 == Some((mid.(slots := mid.slots[row.value := mid.slots[row.value].(lastSeen := Some(later))]), row))
  {
    var (mid, row) := Reserve(db, w, only, wait, now).value;
    ReservedIsHeld(db, w, only, wait, now);
    var leased := ReservedMayResume(db, w, only, wait, now);
    ConcludeAgain(leased, w, row.value, now, later);
    ReserveResumes(mid, w, again, waitAgain, later, row.value);
  }

  /** A worker that joins an unplanned run with a slot of its own reserves just that slot, under the first generation. */
  lemma JoinedWorkerGetsItsSlot(db: Db, w: Worker, now: Time, only: Option<set<Pool>>, wait: bool, later: Time)
    requires Inv(db) && Join(db, w, now).Some? && Join(db, w, now).value.slots != db.slots
    requires w !in db.retired && w !in db.stopOrders
    ensures var mid := Join(db, w, now).value;
            var r := Reserve(mid, w, only, wait, later);
            && r.Some? && r.value.1 == Some(|db.slots|) && |r.value.0.slots| == |db.slots| + 1
            && HoldsSlot(r.value.0.slots[|db.slots|], w) && r.value.0.slots[|db.slots|].generation == 1
  {
    var mid := Join(db, w, now).value;
    JoinedRowIsHeld(db, w, now);
    JoinedRowIsFresh(db, mid);
    ReserveResumes(mid, w, only, wait, later, |db.slots|);
  }

  lemma JoinedRowIsHeld(db: Db, w: Worker, now: Time)
    requires Inv(db) && Join(db, w, now).Some? && Join(db, w, now).value.slots != db.slots
    ensures var mid := Join(db, w, now).value;
            && mid == db.(slots := mid.slots) && |mid.slots| == |db.slots| + 1
            && HeldSlot(mid.slots, w) == Some(|db.slots|) && mid.slots[|db.slots|].generation == 0
  {
  }

  lemma JoinedRowIsFresh(db: Db, mid: Db)
    requires Inv(db) && mid.reclaims == db.reclaims
    ensures LatestReclaim(mid.reclaims, |db.slots|).None?
  {
    forall n | 0 <= n < |mid.reclaims| ensures mid.reclaims[n].slot != |db.slots| {
      assert RecordSound(db, db.reclaims[n]);
    }
  }

  // ---- Calls whose reply was lost ----

  lemma RepeatedOffer(db: Db, a: Action, now: Time, later: Time)
    requires OfferAction(a) && Apply(db, a, now).Some?
    ensures Apply(Apply(db, a, now).value, a, later) == Apply(db, a, now)
  {
    match a
    case DoDelegate(w, key, work, recipient) => RepeatedDelegate(db, w, key, work, recipient);
    case DoAccept(w, id) => RepeatedAccept(db, w, id);
    case DoReject(w, id) => RepeatedReject(db, w, id);
    case DoReoffer(w, id, recipient) => RepeatedReoffer(db, w, id, recipient);
  }

  lemma RepeatedDelegate(db: Db, w: Worker, key: string, work: string, recipient: Option<Worker>)
    ensures var r := Delegate(db, w, key, work, recipient); r.Some? ==> Delegate(r.value, w, key, work, recipient) == r
  {
  }

  lemma RepeatedAccept(db: Db, w: Worker, id: nat)
    ensures var r := Accept(db, w, id); r.Some? ==> Accept(r.value, w, id) == r
  {
  }

  lemma RepeatedReject(db: Db, w: Worker, id: nat)
    ensures var r := Reject(db, w, id); r.Some? ==> Reject(r.value, w, id) == r
  {
  }

  lemma RepeatedReoffer(db: Db, w: Worker, id: nat, recipient: Option<Worker>)
    ensures var r := Reoffer(db, w, id, recipient); r.Some? ==> Reoffer(r.value, w, id, recipient) == r
  {
  }

  lemma RepeatedCancel(db: Db, w: Worker, id: nat, text: string, now: Time, later: Time)
    ensures var r := Cancel(db, w, id, text, now); r.Some? ==> Cancel(r.value, w, id, text, later) == r
  {
  }

  lemma RepeatedComplete(db: Db, w: Worker, id: nat, text: string, cited: Option<Commit>)
    ensures var r := Complete(db, w, id, text, cited); r.Some? ==> Complete(r.value, w, id, text, cited) == r
  {
  }

  lemma LateIsResolved(db: Db, w: Worker, row: nat, g: nat, commit: Commit, now: Time)
    requires FinishLate(db, w, row, g, commit, now).Some?
    ensures var n, next := LeaseRecord(db.reclaims, row, w, g), FinishLate(db, w, row, g, commit, now).value;
            && n.Some? && row < |next.slots| && db.reclaims[n.value].oldStart.Some?
            && next.reclaims == db.reclaims[n.value := db.reclaims[n.value].(resolution := next.reclaims[n.value].resolution,
                                                                             resolutionCommit := Some(commit))]
  {
  }

  lemma RepeatedFinishLate(db: Db, w: Worker, row: nat, g: nat, commit: Commit, now: Time, later: Time)
    requires FinishLate(db, w, row, g, commit, now).Some?
    ensures var r := FinishLate(db, w, row, g, commit, now); FinishLate(r.value, w, row, g, commit, later) == r
  {
    LateIsResolved(db, w, row, g, commit, now);
    SameRecordFound(db.reclaims, FinishLate(db, w, row, g, commit, now).value.reclaims, row, w, g);
  }

  lemma {:induction false} SameRecordFound(a: seq<Reclaim>, b: seq<Reclaim>, row: nat, w: Worker, g: nat)
    requires |a| == |b|
    requires forall i | 0 <= i < |a| :: (a[i].slot, a[i].oldOwner, a[i].oldGeneration) == (b[i].slot, b[i].oldOwner, b[i].oldGeneration)
    ensures LeaseRecord(a, row, w, g) == LeaseRecord(b, row, w, g)
    decreases |a|
  {
    if a != [] { SameRecordFound(a[..|a| - 1], b[..|b| - 1], row, w, g); }
  }

  lemma RepeatedHandover(db: Db, w: Worker, commit: Commit, now: Time, later: Time)
    ensures var r := IntegrationComplete(db, w, commit, now); r.Some? ==> IntegrationComplete(r.value, w, commit, later) == r
    ensures var r := SerialComplete(db, w, commit); r.Some? ==> SerialComplete(r.value, w, commit) == r
  {
  }

  /** The calls that may be repeated as they are when their reply was lost. */
  predicate Repeatable(a: Action) {
    OfferAction(a) || SettlingAction(a) || a.DoFinishLate? || a.DoIntegrationComplete? || a.DoSerialComplete?
  }

  lemma RepeatedReport(db: Db, a: Action, now: Time, later: Time)
    requires a.DoFinishLate? || a.DoIntegrationComplete? || a.DoSerialComplete?
    requires Apply(db, a, now).Some?
    ensures Apply(Apply(db, a, now).value, a, later) == Apply(db, a, now)
  {
    match a
    case DoFinishLate(w, row, g, commit) => RepeatedFinishLate(db, w, row, g, commit, now, later);
    case DoIntegrationComplete(w, commit) => RepeatedHandover(db, w, commit, now, later);
    case DoSerialComplete(w, commit) => RepeatedHandover(db, w, commit, now, later);
  }

  lemma RepeatedSettling(db: Db, a: Action, now: Time, later: Time)
    requires SettlingAction(a) && Apply(db, a, now).Some?
    ensures Apply(Apply(db, a, now).value, a, later) == Apply(db, a, now)
  {
    match a
    case DoCancel(w, id, text) => RepeatedCancel(db, w, id, text, now, later);
    case DoComplete(w, id, text, cited) => RepeatedComplete(db, w, id, text, cited);
  }

  /** Repeating such a call answers again and changes nothing. */
  lemma RepeatedCallChangesNothing(db: Db, a: Action, now: Time, later: Time)
    requires Repeatable(a) && Apply(db, a, now).Some?
    ensures Apply(Apply(db, a, now).value, a, later) == Apply(db, a, now)
  {
    if OfferAction(a) { RepeatedOffer(db, a, now, later); }
    else if SettlingAction(a) { RepeatedSettling(db, a, now, later); }
    else { RepeatedReport(db, a, now, later); }
  }

  // ---- Retirement and pool operators ----

  lemma {:induction false} RetiredForever(s: System, run: seq<Event>)
    ensures s.db.retired <= Execute(s, run).db.retired
    decreases |run|
  {
    if run != [] {
      var front, e := run[..|run| - 1], run[|run| - 1];
      RetiredForever(s, front);
      var mid := Execute(s, front).db;
      if Apply(mid, e.action, e.now).Some? { ApplyFrame(mid, e.action, e.now); }
    }
  }

  /** A retired worker never reserves anything again, whatever happens later. */
  lemma RetiredWorkersClaimNothing(s: System, before: seq<Event>, after: seq<Event>, w: Worker, only: Option<set<Pool>>,
                                   wait: bool, now: Time)
    requires w in Execute(s, before).db.retired
    ensures Reserve(Execute(s, before + after).db, w, only, wait, now).None?
  {
    ExecuteTwice(s, before, after);
    RetiredForever(Execute(s, before), after);
  }

  /** Only operators of a pool get its slots; delegated work, which becomes a slot of the default pool, is the exception. */
  lemma OperatedPoolsAreReserved(db: Db, w: Worker, only: Option<set<Pool>>, wait: bool, now: Time)
    requires Inv(db) && NewLease(db, w, only, wait, now).Some? && NewLease(db, w, only, wait, now).value.1.Some?
    ensures var (mid, row) := NewLease(db, w, only, wait, now).value;
            && row.value < |mid.slots|
            && (mid.slots[row.value].pool in db.operators && w !in db.operators[mid.slots[row.value].pool] ==>
                  mid.slots[row.value].key == DelegationKey(row.value) && mid.slots[row.value].pool == "default")
  {
    ReviewsFrame(db, |db.reviews|, now);
    DueReviewsExtend(db, now);
    var due := PublishDueReviews(db, now);
    ChooseKeepsTables(due, w, now, only);
    var (chosen, pick) := Choose(due, w, now, only);
    LeaseIsChosenOrOffered(chosen, pick, w, wait, now);
  }

  lemma LeaseIsChosenOrOffered(chosen: Db, pick: Option<nat>, w: Worker, wait: bool, now: Time)
    requires LeaseChosen(chosen, pick, w, wait, now).Some? && LeaseChosen(chosen, pick, w, wait, now).value.1.Some?
    ensures var (next, row) := LeaseChosen(chosen, pick, w, wait, now).value;
            && row.value < |next.slots|
            && if pick.Some? && pick.value < |chosen.slots|
               then row == pick && next.slots[row.value].pool == chosen.slots[row.value].pool
               else next.slots[row.value].key == DelegationKey(row.value) && next.slots[row.value].pool == "default"
  {
  }

  // ---- Learned ceilings ----

  /** The cap an operator set, whatever was learned since. */
  function OperatorCap(db: Db, r: Resource): Option<Cap> {
    if r !in db.caps then None
    else if r !in db.learned then Some(db.caps[r])
    else if db.learned[r].None? then None
    else Some(Cap(db.learned[r].value, db.caps[r].pools))
  }

  lemma LearningKeepsCap(db: Db, w: Worker, row: nat, g: nat, r: Resource, now: Time, q: Resource)
    requires db.learned.Keys <= db.caps.Keys && ResourceBlocked(db, w, row, g, r, now).Some?
    ensures var next := ResourceBlocked(db, w, row, g, r, now).value;
            OperatorCap(next, q) == OperatorCap(db, q) && next.learned.Keys <= next.caps.Keys
  {
  }

  lemma ResettingKeepsCap(db: Db, now: Time, q: Resource)
    requires db.learned.Keys <= db.caps.Keys
    ensures OperatorCap(ResetLearned(db, now), q) == OperatorCap(db, q)
    ensures ResetLearned(db, now).learned.Keys <= ResetLearned(db, now).caps.Keys
  {
  }

  lemma SetCapKeepsOthers(db: Db, r: Resource, max: nat, pools: set<Pool>, q: Resource)
    requires db.learned.Keys <= db.caps.Keys && SetCap(db, r, max, pools).Some?
    ensures var next := SetCap(db, r, max, pools).value;
            && next.learned.Keys <= next.caps.Keys
            && OperatorCap(next, q) == if q == r then Some(Cap(max, pools)) else OperatorCap(db, q)
  {
  }

  lemma SameCeilingsSameCap(db: Db, next: Db, q: Resource)
    requires SameCeilings(db, next)
    ensures OperatorCap(next, q) == OperatorCap(db, q)
  {
  }

  lemma ReserveKeepsCap(db: Db, w: Worker, only: Option<set<Pool>>, wait: bool, now: Time, q: Resource)
    requires db.learned.Keys <= db.caps.Keys && Reserve(db, w, only, wait, now).Some?
    ensures var next := Reserve(db, w, only, wait, now).value.0;
            OperatorCap(next, q) == OperatorCap(db, q) && next.learned.Keys <= next.caps.Keys
  {
    ReserveFrame(db, w, only, wait, now);
    var next, due := Reserve(db, w, only, wait, now).value.0, PublishDueReviews(db, now);
    if SameCeilings(db, next) {
      SameCeilingsSameCap(db, next, q);
    } else {
      SameCeilingsSameCap(db, due, q);
      ResettingKeepsCap(due, now, q);
      SameCeilingsSameCap(ResetLearned(due, now), next, q);
    }
  }

  ghost predicate CapKept(db: Db, a: Action, next: Db, q: Resource) {
    && next.learned.Keys <= next.caps.Keys
    && (OperatorCap(next, q) == OperatorCap(db, q) || (a.DoSetCap? && a.resource == q))
  }

  lemma CeilingStepKeepsCap(db: Db, a: Action, now: Time, q: Resource)
    requires TouchesCeilings(a) && db.learned.Keys <= db.caps.Keys && Apply(db, a, now).Some?
    ensures CapKept(db, a, Apply(db, a, now).value, q)
  {
    match a
    case DoReserve(w, only, wait) => ReserveKeepsCap(db, w, only, wait, now, q);
    case DoResourceBlocked(w, row, g, r) => LearningKeepsCap(db, w, row, g, r, now, q);
    case DoSetCap(r, max, pools) => SetCapKeepsOthers(db, r, max, pools, q);
  }

  lemma OtherStepKeepsCap(db: Db, a: Action, now: Time, q: Resource)
    requires !TouchesCeilings(a) && db.learned.Keys <= db.caps.Keys && Apply(db, a, now).Some?
    ensures CapKept(db, a, Apply(db, a, now).value, q)
  {
    ApplyFrame(db, a, now);
    SameCeilingsSameCap(db, Apply(db, a, now).value, q);
  }

  /** Learning lowers ceilings and resets raise them again, but the operator's own cap is never lost: over any run it
      changes only when an operator sets it. */
  lemma {:induction false} OperatorCapIsKept(s: System, run: seq<Event>, q: Resource)
    requires s.db.learned.Keys <= s.db.caps.Keys
    requires forall n | 0 <= n < |run| :: !(run[n].action.DoSetCap? && run[n].action.resource == q)
    ensures OperatorCap(Execute(s, run).db, q) == OperatorCap(s.db, q)
    ensures Execute(s, run).db.learned.Keys <= Execute(s, run).db.caps.Keys
    decreases |run|
  {
    if run != [] {
      var front, e := run[..|run| - 1], run[|run| - 1];
      OperatorCapIsKept(s, front, q);
      var mid := Execute(s, front).db;
      if Apply(mid, e.action, e.now).Some? {
        if TouchesCeilings(e.action) { CeilingStepKeepsCap(mid, e.action, e.now, q); }
        else { OtherStepKeepsCap(mid, e.action, e.now, q); }
      }
    }
  }

  // ---- Integration ----

  /** A worker that is not, or no longer, the integrator cannot move the integration: nothing it calls changes the run. */
  lemma OnlyTheIntegratorIntegrates(db: Db, w: Worker, g: nat, commit: Commit, now: Time)
    requires Inv(db) && db.run.state != Open && db.run.integrator != Some(w)
    ensures BeginReplay(db, w, commit).None? && ResolveReplay(db, w, commit, now).None?
    ensures IntegrationComplete(db, w, commit, now).None? && Heartbeat(db, w, g, now).None?
    ensures EndReplay(db, w, commit, now).Some? ==> EndReplay(db, w, commit, now).value == db
    ensures SerialComplete(db, w, commit).Some? ==> SerialComplete(db, w, commit).value == db
  {
  }

  lemma HandoverKeepsCompleteTail(db: Db, a: Action, now: Time)
    requires HandoverAction(a) && Inv(db) && Apply(db, a, now).Some?
    requires db.tail.Some? && db.tail.value.status == TailComplete
    ensures Apply(db, a, now).value.tail == db.tail
  {
  }

  /** The serial tail completes once: then its final head and its owner never change. */
  lemma {:induction false} TailIsFinal(s: System, run: seq<Event>)
    requires SystemInv(s) && s.db.tail.Some? && s.db.tail.value.status == TailComplete
    ensures Execute(s, run).db.tail == s.db.tail
    decreases |run|
  {
    if run != [] {
      var front, e := run[..|run| - 1], run[|run| - 1];
      TailIsFinal(s, front);
      AlwaysSound(s, front);
      var mid := Execute(s, front).db;
      if Apply(mid, e.action, e.now).Some? {
        if HandoverAction(e.action) { HandoverKeepsCompleteTail(mid, e.action, e.now); }
        else { ApplyFrame(mid, e.action, e.now); }
      }
    }
  }
}
