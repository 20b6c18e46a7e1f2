/** Tables that only some transactions may touch. */
module Frames {
  import opened Prelude
  import opened Tables
  import opened Scheduling
  import opened Transactions
  import opened Protocol

  predicate TouchesSlots(a: Action) {
    TouchAction(a) || GraphAction(a) || SlotAction(a) || a.DoBind? || a.DoFinish? || a.DoFinishLate?
  }

  predicate TouchesCeilings(a: Action) {
    a.DoReserve? || a.DoResourceBlocked? || a.DoSetCap?
  }

  /** Only claims move the rotation, only delegation transactions and claims touch delegations, only operators, resource
      reports and claims touch ceilings, only the transactions above touch slots, only a handover touches the serial
      tail, and nobody returns from retirement. */
  ghost predicate Frame(a: Action, db: Db, next: Db) {
    && (next.dispatch == db.dispatch || a.DoReserve?)
    && (next.delegations == db.delegations || a.DoReserve? || DelegationAction(a))
    && (SameCeilings(db, next) || TouchesCeilings(a))
    && (next.slots == db.slots || TouchesSlots(a))
    && (next.tail == db.tail || HandoverAction(a))
    && db.retired <= next.retired
  }

  predicate SameCeilings(db: Db, next: Db) {
    next.caps == db.caps && next.learned == db.learned
  }

  predicate SameFrame(db: Db, next: Db) {
    && next.dispatch == db.dispatch && next.delegations == db.delegations && SameCeilings(db, next)
    && next.retired == db.retired && next.tail == db.tail
  }

  predicate SameButTail(db: Db, next: Db) {
    && next.dispatch == db.dispatch && next.delegations == db.delegations && SameCeilings(db, next)
    && next.retired == db.retired && next.slots == db.slots
  }

  predicate SameButDelegations(db: Db, next: Db) {
    && next.dispatch == db.dispatch && SameCeilings(db, next) && next.retired == db.retired && next.slots == db.slots
    && next.tail == db.tail
  }

  // ---- Transaction by transaction ----

  lemma HeartbeatFrame(db: Db, w: Worker, g: nat, now: Time)
    ensures var r := Heartbeat(db, w, g, now); r.Some? ==> SameFrame(db, r.value)
  {
  }

  lemma ReclaimFrame(db: Db, k: string, force: bool, now: Time)
    ensures var r := ReclaimTask(db, k, force, now); r.Some? ==> SameFrame(db, r.value)
  {
  }

  lemma CheckpointFrame(db: Db, w: Worker, g: nat, row: nat, start: Option<Commit>, commit: Commit, now: Time)
    ensures var r := CheckpointTx(db, w, g, row, start, commit, now); r.Some? ==> SameFrame(db, r.value)
  {
  }

  lemma PublishFrame(db: Db, w: Worker, g: nat, batch: seq<Draft>, now: Time)
    ensures var r := Publish(db, w, g, batch, now); r.Some? ==> SameFrame(db, r.value)
  {
  }

  lemma ReviseFrame(db: Db, w: Worker, g: nat, k: string, changed: Draft, revision: nat, now: Time)
    ensures var r := Revise(db, w, g, k, changed, revision, now); r.Some? ==> SameFrame(db, r.value)
  {
  }

  lemma BindFrame(db: Db, w: Worker, row: nat, g: nat, commit: Commit)
    ensures var r := Bind(db, w, row, g, commit); r.Some? ==> SameFrame(db, r.value)
  {
  }

  lemma JoinFrame(db: Db, w: Worker, now: Time)
    ensures var r := Join(db, w, now); r.Some? ==> SameFrame(db, r.value)
  {
  }

  lemma FinishFrame(db: Db, w: Worker, row: nat, g: nat, commit: Commit, now: Time)
    ensures var r := Finish(db, w, row, g, commit, now); r.Some? ==> SameFrame(db, r.value)
  {
  }

  lemma FinishLateFrame(db: Db, w: Worker, row: nat, g: nat, commit: Commit, now: Time)
    ensures var r := FinishLate(db, w, row, g, commit, now); r.Some? ==> SameFrame(db, r.value)
  {
  }

  lemma TakeOverFrame(db: Db, w: Worker, seen: Observed, force: bool, now: Time)
    ensures var r := TakeOver(db, w, seen, force, now); r.Some? ==> SameButTail(db, r.value)
  {
  }

  lemma BeginReplayFrame(db: Db, w: Worker, commit: Commit)
    ensures var r := BeginReplay(db, w, commit); r.Some? ==> SameFrame(db, r.value) && SameButTail(db, r.value)
  {
  }

  lemma EndReplayFrame(db: Db, w: Worker, commit: Commit, now: Time)
    ensures var r := EndReplay(db, w, commit, now); r.Some? ==> SameFrame(db, r.value) && SameButTail(db, r.value)
  {
  }

  lemma ResolveReplayFrame(db: Db, w: Worker, commit: Commit, now: Time)
    ensures var r := ResolveReplay(db, w, commit, now); r.Some? ==> SameFrame(db, r.value) && SameButTail(db, r.value)
  {
  }

  lemma IntegrationCompleteFrame(db: Db, w: Worker, commit: Commit, now: Time)
    ensures var r := IntegrationComplete(db, w, commit, now); r.Some? ==> SameButTail(db, r.value)
  {
  }

  lemma SerialCompleteFrame(db: Db, w: Worker, commit: Commit)
    ensures var r := SerialComplete(db, w, commit); r.Some? ==> SameButTail(db, r.value)
  {
  }

  lemma DelegateFrame(db: Db, w: Worker, key: string, work: string, recipient: Option<Worker>)
    ensures var r := Delegate(db, w, key, work, recipient); r.Some? ==> SameButDelegations(db, r.value)
  {
  }

  lemma AcceptFrame(db: Db, w: Worker, id: nat)
    ensures var r := Accept(db, w, id); r.Some? ==> SameButDelegations(db, r.value)
  {
  }

  lemma RejectFrame(db: Db, w: Worker, id: nat)
    ensures var r := Reject(db, w, id); r.Some? ==> SameButDelegations(db, r.value)
  {
  }

  lemma ReofferFrame(db: Db, w: Worker, id: nat, recipient: Option<Worker>)
    ensures var r := Reoffer(db, w, id, recipient); r.Some? ==> SameButDelegations(db, r.value)
  {
  }

  lemma CancelFrame(db: Db, w: Worker, id: nat, text: string, now: Time)
    ensures var r := Cancel(db, w, id, text, now); r.Some? ==> SameButDelegations(db, r.value)
  {
  }

  lemma CompleteFrame(db: Db, w: Worker, id: nat, text: string, cited: Option<Commit>)
    ensures var r := Complete(db, w, id, text, cited); r.Some? ==> SameButDelegations(db, r.value)
  {
  }

  lemma {:induction false} ReviewsFrame(db: Db, n: nat, now: Time)
    requires n <= |db.reviews|
    ensures var next := PublishReviews(db, n, now); SameFrame(db, next) && next.operators == db.operators
  {
    if n > 0 {
      var mid := PublishReviews(db, n - 1, now);
      ReviewsFrame(db, n - 1, now);
      assert PublishReviews(db, n, now) == PublishReview(mid, n - 1, now);
    }
  }

  /** What a claim leaves alone after it chose. */
  predicate SameSince(db: Db, next: Db) {
    next.dispatch == db.dispatch && SameCeilings(db, next) && next.retired == db.retired && next.tail == db.tail
  }

  lemma LeaseFrame(chosen: Db, pick: Option<nat>, w: Worker, wait: bool, now: Time)
    requires LeaseChosen(chosen, pick, w, wait, now).Some?
    ensures SameSince(chosen, LeaseChosen(chosen, pick, w, wait, now).value.0)
  {
  }

  lemma NewLeaseFrame(db: Db, w: Worker, only: Option<set<Pool>>, wait: bool, now: Time)
    requires NewLease(db, w, only, wait, now).Some?
    ensures var next := NewLease(db, w, only, wait, now).value.0;
            && next.retired == db.retired && next.tail == db.tail
            && SameCeilings(ResetLearned(PublishDueReviews(db, now), now), next)
            && SameCeilings(db, PublishDueReviews(db, now))
  {
    ReviewsFrame(db, |db.reviews|, now);
    var choice := Choose(PublishDueReviews(db, now), w, now, only);
    LeaseFrame(choice.0, choice.1, w, wait, now);
  }

  lemma ConcludeFrame(db: Db, w: Worker, row: nat, now: Time)
    requires Conclude(db, w, row, now).Some?
    ensures SameSince(db, Conclude(db, w, row, now).value)
  {
  }

  /** A claim changes ceilings only by resetting what was learned. */
  lemma ReserveFrame(db: Db, w: Worker, only: Option<set<Pool>>, wait: bool, now: Time)
    requires Reserve(db, w, only, wait, now).Some?
    ensures var next := Reserve(db, w, only, wait, now).value.0;
            && next.retired == db.retired && next.tail == db.tail
            && (SameCeilings(db, next)
                || (SameCeilings(db, PublishDueReviews(db, now))
                    && SameCeilings(ResetLearned(PublishDueReviews(db, now), now), next)))
  {
    var held := HeldSlot(db.slots, w);
    if held.Some? {
      ConcludeFrame(db, w, held.value, now);
    } else if db.run.state == Open {
      NewLeaseFrame(db, w, only, wait, now);
      var (mid, row) := NewLease(db, w, only, wait, now).value;
      if row.Some? { ConcludeFrame(mid, w, row.value, now); }
    }
  }

  // ---- All transactions ----

  lemma TouchFrame(db: Db, a: Action, now: Time)
    requires TouchAction(a) && Apply(db, a, now).Some?
    ensures Frame(a, db, Apply(db, a, now).value)
  {
    match a
    case DoHeartbeat(w, g) => HeartbeatFrame(db, w, g, now);
    case DoReclaim(k, force) => ReclaimFrame(db, k, force, now);
    case DoCheckpoint(w, g, row, start, commit) => CheckpointFrame(db, w, g, row, start, commit, now);
  }

  lemma GraphFrame(db: Db, a: Action, now: Time)
    requires GraphAction(a) && Apply(db, a, now).Some?
    ensures Frame(a, db, Apply(db, a, now).value)
  {
    match a
    case DoPublish(w, g, batch) => PublishFrame(db, w, g, batch, now);
    case DoRevise(w, g, k, changed, revision) => ReviseFrame(db, w, g, k, changed, revision, now);
  }

  lemma CompletionFrame(db: Db, a: Action, now: Time)
    requires CompletionAction(a) && Apply(db, a, now).Some?
    ensures Frame(a, db, Apply(db, a, now).value)
  {
    match a
    case DoFinish(w, row, g, commit) => FinishFrame(db, w, row, g, commit, now);
    case DoFinishLate(w, row, g, commit) => FinishLateFrame(db, w, row, g, commit, now);
    case DoElect(w) =>
  }

  lemma OfferFrame(db: Db, a: Action, now: Time)
    requires OfferAction(a) && Apply(db, a, now).Some?
    ensures Frame(a, db, Apply(db, a, now).value)
  {
    match a
    case DoDelegate(w, key, work, recipient) => DelegateFrame(db, w, key, work, recipient);
    case DoAccept(w, id) => AcceptFrame(db, w, id);
    case DoReject(w, id) => RejectFrame(db, w, id);
    case DoReoffer(w, id, recipient) => ReofferFrame(db, w, id, recipient);
  }

  lemma SettlingFrame(db: Db, a: Action, now: Time)
    requires SettlingAction(a) && Apply(db, a, now).Some?
    ensures Frame(a, db, Apply(db, a, now).value)
  {
    match a
    case DoCancel(w, id, text) => CancelFrame(db, w, id, text, now);
    case DoComplete(w, id, text, cited) => CompleteFrame(db, w, id, text, cited);
  }

  lemma ReplayFrame(db: Db, a: Action, now: Time)
    requires ReplayAction(a) && Apply(db, a, now).Some?
    ensures Frame(a, db, Apply(db, a, now).value)
  {
    match a
    case DoBeginReplay(w, commit) => BeginReplayFrame(db, w, commit);
    case DoEndReplay(w, commit) => EndReplayFrame(db, w, commit, now);
    case DoResolveReplay(w, commit) => ResolveReplayFrame(db, w, commit, now);
  }

  lemma HandoverFrame(db: Db, a: Action, now: Time)
    requires HandoverAction(a) && Apply(db, a, now).Some?
    ensures Frame(a, db, Apply(db, a, now).value)
  {
    match a
    case DoTakeOver(w, seen, force) => TakeOverFrame(db, w, seen, force, now);
    case DoIntegrationComplete(w, commit) => IntegrationCompleteFrame(db, w, commit, now);
    case DoSerialComplete(w, commit) => SerialCompleteFrame(db, w, commit);
  }

  lemma PolicyFrame(db: Db, a: Action, now: Time)
    requires PolicyAction(a) && Apply(db, a, now).Some?
    ensures Frame(a, db, Apply(db, a, now).value)
  {
  }

  lemma InputFrame(db: Db, a: Action, now: Time)
    requires InputAction(a) && Apply(db, a, now).Some?
    ensures Frame(a, db, Apply(db, a, now).value)
  {
    match a
    case DoBind(f, commit) => BindFrame(db, f.worker, f.row, f.generation, commit);
    case _ =>
  }

  lemma SlotFrame(db: Db, a: Action, now: Time)
    requires SlotAction(a) && Apply(db, a, now).Some?
    ensures Frame(a, db, Apply(db, a, now).value)
  {
    match a
    case DoReserve(w, only, wait) => ReserveFrame(db, w, only, wait, now);
    case DoJoin(w) => JoinFrame(db, w, now);
    case _ =>
  }

  lemma ApplyFrame(db: Db, a: Action, now: Time)
    requires Apply(db, a, now).Some?
    ensures Frame(a, db, Apply(db, a, now).value)
  {
    if TouchAction(a) { TouchFrame(db, a, now); }
    else if GraphAction(a) { GraphFrame(db, a, now); }
    else if CompletionAction(a) { CompletionFrame(db, a, now); }
    else if PolicyAction(a) { PolicyFrame(db, a, now); }
    else if OfferAction(a) { OfferFrame(db, a, now); }
    else if SettlingAction(a) { SettlingFrame(db, a, now); }
    else if ReplayAction(a) { ReplayFrame(db, a, now); }
    else if HandoverAction(a) { HandoverFrame(db, a, now); }
    else if InputAction(a) { InputFrame(db, a, now); }
    else { SlotFrame(db, a, now); }
  }
}
