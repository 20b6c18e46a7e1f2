/** Delegated work over whole runs: nothing that was delegated is ever dropped, altered or settled by a stranger. */
module Obligations {
  import opened Prelude
  import opened Tables
  import opened Scheduling
  import opened Transactions
  import opened Invariant
  import opened ClaimSteps
  import opened Protocol
  import opened Frames
  import opened Safety

  /** How one delegation may look after a step.  The work and its request key stay; a settled one is final; only
      accepted work is completed, only unaccepted work is cancelled, and only offered work is accepted, by the worker
      it is offered to and never by its sender. */
  predicate MayFollow(d: Delegation, e: Delegation) {
    && e.requestKey == d.requestKey && e.work == d.work
    && (Settled(d) ==> e == d)
    && (e.status == Completed && d.status != Completed ==>
          d.status == Taken && e.sender == d.sender && e.recipient == d.recipient)
    && (e.status == Cancelled && d.status != Cancelled ==>
          (d.status == Offered || d.status == Rejected) && e.sender == d.sender)
    && (e.status == Taken && d.status != Taken ==>
          && d.status == Offered && e.sender == d.sender && e.recipient.Some? && e.recipient.value != e.sender
          && (d.recipient.Some? ==> e.recipient == d.recipient))
  }

  predicate Conserved(a: seq<Delegation>, b: seq<Delegation>) {
    && |a| <= |b|
    && (forall i | 0 <= i < |a| :: MayFollow(a[i], b[i]))
    && (forall i | |a| <= i < |b| :: b[i].status == Offered)
    && (DistinctRequests(a) ==> DistinctRequests(b))
  }

  predicate SettlesNothing(a: seq<Delegation>, b: seq<Delegation>) {
    |a| <= |b| && forall i | 0 <= i < |a| :: Settled(b[i]) ==> Settled(a[i])
  }

  predicate SettlesAtMost(a: seq<Delegation>, b: seq<Delegation>, id: nat) {
    |a| <= |b| && forall i | 0 <= i < |a| && i != id :: Settled(b[i]) ==> Settled(a[i])
  }

  lemma Same(a: seq<Delegation>)
    ensures Conserved(a, a) && SettlesNothing(a, a)
  {
  }

  lemma OneDelegation(a: seq<Delegation>, id: nat, d: Delegation)
    requires id < |a| && MayFollow(a[id], d) && d.sender == a[id].sender
    ensures Conserved(a, a[id := d])
  {
  }

  lemma NewDelegation(a: seq<Delegation>, d: Delegation)
    requires d.status == Offered && RequestOf(a, d.sender, d.requestKey).None?
    ensures Conserved(a, a + [d])
  {
  }

  // ---- Recovery ----

  /** What adoption does: every open obligation of the former owner now belongs to the new one, what the former owner
      had accepted is offered to anybody again, and everything else stays. */
  predicate Moved(ds: seq<Delegation>, moved: seq<Delegation>, former: Worker, w: Worker) {
    && |moved| == |ds|
    && forall i | 0 <= i < |ds| :: MovedOne(ds[i], moved[i], former, w)
  }

  predicate MovedOne(d: Delegation, e: Delegation, former: Worker, w: Worker) {
    && e.work == d.work && e.requestKey == d.requestKey
    && (Settled(d) ==> e == d)
    && (!Settled(d) ==>
          && !Settled(e) && e.sender == (if d.sender == former then w else d.sender)
          && if d.recipient == Some(former) && d.status != Offered then e.status == Offered && e.recipient.None?
             else e.status == d.status && e.recipient == d.recipient)
  }

  lemma TransferMoves(ds: seq<Delegation>, former: Worker, w: Worker)
    ensures Moved(ds, TransferAll(ds, former, w), former, w)
  {
  }

  lemma MovedIsConserved(ds: seq<Delegation>, moved: seq<Delegation>, former: Worker, w: Worker)
    requires Moved(ds, moved, former, w) && DistinctRequests(moved)
    ensures Conserved(ds, moved) && SettlesNothing(ds, moved)
  {
    forall i | 0 <= i < |ds| ensures MayFollow(ds[i], moved[i]) && (Settled(moved[i]) ==> Settled(ds[i])) {
      assert MovedOne(ds[i], moved[i], former, w);
    }
  }

  /** The unadopted last loss of a lease on the row, if any, names the former owner. */
  function FormerOwner(db: Db, row: nat): Option<Worker> {
    var last := LatestReclaim(db.reclaims, row);
    if last.None? || db.reclaims[last.value].adoptedBy.Some? then None else Some(db.reclaims[last.value].oldOwner)
  }

  lemma AdoptionMovesObligations(db: Db, w: Worker, row: nat)
    requires Adopt(db, w, row).Some?
    ensures var next := Adopt(db, w, row).value;
            && Conserved(db.delegations, next.delegations) && SettlesNothing(db.delegations, next.delegations)
            && (if FormerOwner(db, row).None? then next.delegations == db.delegations
                else Moved(db.delegations, next.delegations, FormerOwner(db, row).value, w))
  {
    var former := FormerOwner(db, row);
    if former.Some? {
      TransferMoves(db.delegations, former.value, w);
      MovedIsConserved(db.delegations, TransferAll(db.delegations, former.value, w), former.value, w);
    } else {
      Same(db.delegations);
    }
  }

  /** Adoption is refused exactly when the new owner already used a request key of an open obligation it would get. */
  lemma AdoptionRefusedExactly(db: Db, w: Worker, row: nat)
    requires DistinctRequests(db.delegations)
    ensures Adopt(db, w, row).None? <==>
              && FormerOwner(db, row).Some?
              && exists i, j | 0 <= i < |db.delegations| && 0 <= j < |db.delegations| ::
                   Collides(db.delegations, FormerOwner(db, row).value, w, i, j)
  {
    if FormerOwner(db, row).Some? { Collisions(db.delegations, FormerOwner(db, row).value, w); }
  }

  /** Open obligation `i` of the former owner has the request key of some delegation of the new one. */
  predicate Collides(ds: seq<Delegation>, former: Worker, w: Worker, i: nat, j: nat)
    requires i < |ds| && j < |ds|
  {
    former != w && ds[i].sender == former && !Settled(ds[i]) && ds[j].sender == w && ds[j].requestKey == ds[i].requestKey
  }

  lemma Collisions(ds: seq<Delegation>, former: Worker, w: Worker)
    requires DistinctRequests(ds)
    ensures DistinctRequests(TransferAll(ds, former, w)) <==>
              forall i, j | 0 <= i < |ds| && 0 <= j < |ds| :: !Collides(ds, former, w, i, j)
  {
    var moved := TransferAll(ds, former, w);
    if DistinctRequests(moved) {
      forall i, j | 0 <= i < |ds| && 0 <= j < |ds| ensures !Collides(ds, former, w, i, j) {
        var lo, hi := if i < j then i else j, if i < j then j else i;
        if i != j { assert (moved[lo].sender, moved[lo].requestKey) != (moved[hi].sender, moved[hi].requestKey); }
      }
    }
    if forall i, j | 0 <= i < |ds| && 0 <= j < |ds| :: !Collides(ds, former, w, i, j) {
      forall i, j | 0 <= i < j < |moved|
        ensures (moved[i].sender, moved[i].requestKey) != (moved[j].sender, moved[j].requestKey)
      {
        assert !Collides(ds, former, w, i, j) && !Collides(ds, former, w, j, i);
        assert (ds[i].sender, ds[i].requestKey) != (ds[j].sender, ds[j].requestKey);
      }
    }
  }

  // ---- Steps ----

  lemma DelegateConserves(db: Db, w: Worker, key: string, work: string, recipient: Option<Worker>)
    requires Delegate(db, w, key, work, recipient).Some?
    ensures Conserved(db.delegations, Delegate(db, w, key, work, recipient).value.delegations)
    ensures SettlesNothing(db.delegations, Delegate(db, w, key, work, recipient).value.delegations)
  {
    Same(db.delegations);
    var next := Delegate(db, w, key, work, recipient).value;
    if next != db { NewDelegation(db.delegations, next.delegations[|db.delegations|]); }
  }

  lemma AcceptConserves(db: Db, w: Worker, id: nat)
    requires Accept(db, w, id).Some?
    ensures Conserved(db.delegations, Accept(db, w, id).value.delegations)
    ensures SettlesNothing(db.delegations, Accept(db, w, id).value.delegations)
  {
    Same(db.delegations);
    var next := Accept(db, w, id).value;
    if next != db { OneDelegation(db.delegations, id, next.delegations[id]); }
  }

  lemma RejectConserves(db: Db, w: Worker, id: nat)
    requires Reject(db, w, id).Some?
    ensures Conserved(db.delegations, Reject(db, w, id).value.delegations)
    ensures SettlesNothing(db.delegations, Reject(db, w, id).value.delegations)
  {
    Same(db.delegations);
    OneDelegation(db.delegations, id, Reject(db, w, id).value.delegations[id]);
  }

  lemma ReofferConserves(db: Db, w: Worker, id: nat, recipient: Option<Worker>)
    requires Reoffer(db, w, id, recipient).Some?
    ensures Conserved(db.delegations, Reoffer(db, w, id, recipient).value.delegations)
    ensures SettlesNothing(db.delegations, Reoffer(db, w, id, recipient).value.delegations)
  {
    Same(db.delegations);
    OneDelegation(db.delegations, id, Reoffer(db, w, id, recipient).value.delegations[id]);
  }

  lemma CancelConserves(db: Db, w: Worker, id: nat, text: string, now: Time)
    requires Cancel(db, w, id, text, now).Some?
    ensures Conserved(db.delegations, Cancel(db, w, id, text, now).value.delegations)
    ensures id < |db.delegations| && db.delegations[id].sender == w
    ensures SettlesAtMost(db.delegations, Cancel(db, w, id, text, now).value.delegations, id)
  {
    OneDelegation(db.delegations, id, Cancel(db, w, id, text, now).value.delegations[id]);
    Same(db.delegations);
  }

  lemma CompleteConserves(db: Db, w: Worker, id: nat, text: string, cited: Option<Commit>)
    requires Complete(db, w, id, text, cited).Some?
    ensures Conserved(db.delegations, Complete(db, w, id, text, cited).value.delegations)
    ensures id < |db.delegations| && (Settled(db.delegations[id]) || db.delegations[id].recipient == Some(w))
    ensures SettlesAtMost(db.delegations, Complete(db, w, id, text, cited).value.delegations, id)
  {
    OneDelegation(db.delegations, id, Complete(db, w, id, text, cited).value.delegations[id]);
    Same(db.delegations);
  }

  lemma OfferConserves(db: Db, a: Action, now: Time)
    requires OfferAction(a) && Apply(db, a, now).Some?
    ensures Conserved(db.delegations, Apply(db, a, now).value.delegations)
    ensures SettlesNothing(db.delegations, Apply(db, a, now).value.delegations)
  {
    match a
    case DoDelegate(w, key, work, recipient) => DelegateConserves(db, w, key, work, recipient);
    case DoAccept(w, id) => AcceptConserves(db, w, id);
    case DoReject(w, id) => RejectConserves(db, w, id);
    case DoReoffer(w, id, recipient) => ReofferConserves(db, w, id, recipient);
  }

  lemma SettlingConserves(db: Db, a: Action, now: Time)
    requires SettlingAction(a) && Apply(db, a, now).Some?
    ensures Conserved(db.delegations, Apply(db, a, now).value.delegations)
  {
    match a
    case DoCancel(w, id, text) => CancelConserves(db, w, id, text, now);
    case DoComplete(w, id, text, cited) => CompleteConserves(db, w, id, text, cited);
  }

  lemma ConcludeConserves(db: Db, w: Worker, row: nat, now: Time)
    requires Conclude(db, w, row, now).Some?
    ensures Conserved(db.delegations, Conclude(db, w, row, now).value.delegations)
    ensures SettlesNothing(db.delegations, Conclude(db, w, row, now).value.delegations)
  {
    AdoptionMovesObligations(Register(db.(slots := db.slots[row := Renewed(db.slots[row], now)]), w), w, row);
  }

  /** A lease that comes from an offer changes that offer alone, and its slot was never reclaimed before. */
  lemma LeaseConserves(db: Db, w: Worker, only: Option<set<Pool>>, wait: bool, now: Time)
    requires Inv(db) && NewLease(db, w, only, wait, now).Some?
    ensures var (mid, row) := NewLease(db, w, only, wait, now).value;
            && Conserved(db.delegations, mid.delegations) && SettlesNothing(db.delegations, mid.delegations)
            && (mid.delegations != db.delegations ==> row.Some? && LatestReclaim(mid.reclaims, row.value).None?)
  {
    var due := PublishDueReviews(db, now);
    DueReviewsExtend(db, now);
    ChooseKeepsTables(due, w, now, only);
    var (chosen, pick) := Choose(due, w, now, only);
    var (mid, row) := NewLease(db, w, only, wait, now).value;
    if mid.delegations == db.delegations {
      Same(db.delegations);
    } else {
      var offer := PoolOffer(chosen.delegations, w, 0).value;
      assert ClaimOffer(chosen, w, offer, now) == Some((mid, row.value));
      OneDelegation(db.delegations, offer, mid.delegations[offer]);
      forall n | 0 <= n < |db.reclaims| ensures db.reclaims[n].slot < row.value { assert RecordSound(db, db.reclaims[n]); }
    }
  }

  /** A fresh lease and what its owner inherits with it, together. */
  lemma FreshReserveConserves(db: Db, w: Worker, only: Option<set<Pool>>, wait: bool, now: Time)
    requires Inv(db) && NewLease(db, w, only, wait, now).Some?
    ensures var (mid, row) := NewLease(db, w, only, wait, now).value;
            && Conserved(db.delegations, mid.delegations) && SettlesNothing(db.delegations, mid.delegations)
            && (row.Some? && Conclude(mid, w, row.value, now).Some? ==>
                  && Conserved(db.delegations, Conclude(mid, w, row.value, now).value.delegations)
                  && SettlesNothing(db.delegations, Conclude(mid, w, row.value, now).value.delegations))
  {
    LeaseConserves(db, w, only, wait, now);
    var (mid, row) := NewLease(db, w, only, wait, now).value;
    if row.Some? && Conclude(mid, w, row.value, now).Some? { ConcludeConserves(mid, w, row.value, now); }
  }

  lemma ReserveConserves(db: Db, w: Worker, only: Option<set<Pool>>, wait: bool, now: Time)
    requires Inv(db) && Reserve(db, w, only, wait, now).Some?
    ensures Conserved(db.delegations, Reserve(db, w, only, wait, now).value.0.delegations)
    ensures SettlesNothing(db.delegations, Reserve(db, w, only, wait, now).value.0.delegations)
  {
    var held := HeldSlot(db.slots, w);
    if held.Some? { ConcludeConserves(db, w, held.value, now); }
    else if db.run.state == Open { FreshReserveConserves(db, w, only, wait, now); }
    else { Same(db.delegations); }
  }

  /** One step of any worker conserves the delegated work. */
  lemma StepConserves(s: System, a: Action, now: Time)
    requires SystemInv(s) && Apply(s.db, a, now).Some?
    ensures Conserved(s.db.delegations, Apply(s.db, a, now).value.delegations)
  {
    if a.DoReserve? { ReserveConserves(s.db, a.w, a.only, a.wait, now); }
    else if OfferAction(a) { OfferConserves(s.db, a, now); }
    else if SettlingAction(a) { SettlingConserves(s.db, a, now); }
    else { ApplyFrame(s.db, a, now); Same(s.db.delegations); }
  }

  predicate SettledBy(d: Delegation, id: nat, a: Action) {
    || (a.DoComplete? && a.id == id && d.recipient == Some(a.w))
    || (a.DoCancel? && a.id == id && d.sender == a.w)
  }

  lemma SettlingActionSettles(db: Db, a: Action, now: Time, i: nat)
    requires SettlingAction(a) && Apply(db, a, now).Some?
    requires i < |db.delegations| && i < |Apply(db, a, now).value.delegations|
    requires !Settled(db.delegations[i]) && Settled(Apply(db, a, now).value.delegations[i])
    ensures SettledBy(db.delegations[i], i, a)
  {
    match a
    case DoCancel(w, id, text) => CancelConserves(db, w, id, text, now);
    case DoComplete(w, id, text, cited) => CompleteConserves(db, w, id, text, cited);
  }

  /** Work is settled only by its recipient completing it or by its sender cancelling it. */
  lemma SettledOnlyBy(s: System, a: Action, now: Time, i: nat)
    requires SystemInv(s) && Apply(s.db, a, now).Some?
    requires i < |s.db.delegations| && !Settled(s.db.delegations[i])
    ensures i < |Apply(s.db, a, now).value.delegations|
    ensures Settled(Apply(s.db, a, now).value.delegations[i]) ==> SettledBy(s.db.delegations[i], i, a)
  {
    StepConserves(s, a, now);
    if a.DoReserve? { ReserveConserves(s.db, a.w, a.only, a.wait, now); }
    else if OfferAction(a) { OfferConserves(s.db, a, now); }
    else if !SettlingAction(a) { ApplyFrame(s.db, a, now); }
    else if Settled(Apply(s.db, a, now).value.delegations[i]) { SettlingActionSettles(s.db, a, now, i); }
  }

  // ---- Whole runs ----

  /** Request keys stay unique per sender, so a retried delegation always finds its own row. */
  lemma {:induction false} RequestsStayDistinct(s: System, run: seq<Event>)
    requires Initial(s)
    ensures DistinctRequests(Execute(s, run).db.delegations)
    decreases |run|
  {
    if run != [] {
      var front, e := run[..|run| - 1], run[|run| - 1];
      RequestsStayDistinct(s, front);
      ReachableSound(s, front);
      var mid := Execute(s, front);
      if Enabled(mid, e.action) && Apply(mid.db, e.action, e.now).Some? { StepConserves(mid, e.action, e.now); }
    }
  }

  /** `d` is still there as `e`: the same work under the same request key, and final once settled. */
  predicate StillThere(d: Delegation, ds: seq<Delegation>, n: nat) {
    n < |ds| && ds[n].requestKey == d.requestKey && ds[n].work == d.work && (Settled(d) ==> ds[n] == d)
  }

  lemma {:induction false} StillThereAfter(s: System, run: seq<Event>, n: nat)
    requires SystemInv(s) && n < |s.db.delegations|
    ensures StillThere(s.db.delegations[n], Execute(s, run).db.delegations, n)
    decreases |run|
  {
    if run != [] {
      var front, e := run[..|run| - 1], run[|run| - 1];
      StillThereAfter(s, front, n);
      AlwaysSound(s, front);
      var mid := Execute(s, front);
      if Enabled(mid, e.action) && Apply(mid.db, e.action, e.now).Some? {
        StepConserves(mid, e.action, e.now);
        assert MayFollow(mid.db.delegations[n], Execute(s, run).db.delegations[n]);
      }
    }
  }

  /** Whatever leases are lost, recovered or handed over, delegated work is never dropped or altered, and its outcome
      is final. */
  lemma DelegatedWorkIsConserved(s: System, before: seq<Event>, after: seq<Event>, n: nat)
    requires Initial(s) && n < |Execute(s, before).db.delegations|
    ensures StillThere(Execute(s, before).db.delegations[n], Execute(s, before + after).db.delegations, n)
  {
    ReachableSound(s, before);
    ExecuteTwice(s, before, after);
    StillThereAfter(Execute(s, before), after, n);
  }
}
