/** One function per write transaction of the protocol.  `None` means the transaction raised and was
    rolled back; `Some(db)` is the committed database.  Git observations made before a transaction
    enter as arguments. */
module Transactions {
  import opened Prelude
  import opened Tables
  import opened TaskGraph
  import opened Scheduling

  // ---- Leases ----

  function Touch(db: Db, i: nat, now: Time): Db
    requires i < |db.slots|
  {
    db.(slots := db.slots[i := db.slots[i].(lastSeen := Some(now))])
  }

  function Heartbeat(db: Db, w: Worker, generation: nat, now: Time): Option<Db> {
    if db.run.integrator == Some(w) && db.run.state != Open then
      if generation != db.run.integratorGeneration then None
      else Some(db.(run := db.run.(integratorSeen := Some(now))))
    else
      var i := ActiveSlot(db.slots, w, generation);
      if i.None? then None else Some(Touch(db, i.value, now))
  }

  function Released(s: Slot): Slot {
    s.(status := Available, owner := None, start := None, lastSeen := None, checkpoint := None)
  }

  function RecordOf(i: nat, s: Slot, owner: Worker): Reclaim {
    Reclaim(i, owner, s.generation, s.start, s.checkpoint, None, None, None)
  }

  /** Takes a claimed slot away from its owner, keeping a record of the lost lease. */
  function ReclaimSlot(db: Db, i: nat): Option<Db>
    requires i < |db.slots|
  {
    var s := db.slots[i];
    if s.status != Claimed || s.owner.None? then None
    else Some(db.(slots := db.slots[i := Released(s)],
                  reclaims := db.reclaims + [RecordOf(i, s, s.owner.value)]))
  }

  predicate Expired(s: Slot, now: Time) {
    s.lastSeen.Some? && now - s.lastSeen.value > LEASE_SECONDS
  }

  function ReclaimTask(db: Db, k: string, force: bool, now: Time): Option<Db> {
    var i := SlotByName(db.slots, k);
    if db.run.state != Open || i.None? || db.slots[i.value].status != Claimed then None
    else if !force && !Expired(db.slots[i.value], now) then None
    else ReclaimSlot(db, i.value)
  }

  function CheckpointTx(db: Db, w: Worker, generation: nat, row: nat, start: Option<Commit>,
                        commit: Commit, now: Time): Option<Db> {
    var i := ActiveSlot(db.slots, w, generation);
    if i.None? || i.value != row || db.slots[i.value].start != start then None
    else
      var s := db.slots[i.value];
      Some(db.(slots := db.slots[i.value := s.(lastSeen := Some(now), checkpoint := Some(commit))]))
  }

  // ---- The task graph ----

  function FreshSlots(tasks: seq<Task>): seq<Slot> {
    seq(|tasks|, i requires 0 <= i < |tasks| => FreshSlot(tasks[i]))
  }

  ghost function Publish(db: Db, w: Worker, generation: nat, batch: seq<Draft>, now: Time): Option<Db> {
    var i := ActiveSlot(db.slots, w, generation);
    if batch == [] || db.run.state != Open || !db.run.planned || i.None? then None
    else
      var current := DraftsOf(TasksOf(db.slots));
      if !Acceptable(current + batch) then None
      else
        var added := SpecifiedAll(current + batch)[|current|..];
        var touched := Touch(db, i.value, now);
        Some(touched.(slots := touched.slots + FreshSlots(added),
                      run := db.run.(revision := db.run.revision + 1)))
  }

  function Revised(s: Slot, t: Task): Slot {
    s.(pool := t.pool, dependsOn := t.dependsOn, reviewOf := t.reviewOf, exclude := t.exclude)
  }

  ghost function Revise(db: Db, w: Worker, generation: nat, k: string, changed: Draft, revision: nat, now: Time): Option<Db> {
    var i := ActiveSlot(db.slots, w, generation);
    var t := SlotByKey(db.slots, Named(k));
    if db.run.state != Open || !db.run.planned || db.run.revision != revision || i.None? || t.None? then None
    else if db.slots[t.value].status != Available then None
    else
      var edited := changed.(key := Some(k));
      var drafts := DraftsOf(TasksOf(db.slots))[t.value := edited];
      if !Acceptable(drafts) then None
      else
        assert WellFormed(drafts[t.value], t.value);
        var touched := Touch(db, i.value, now);
        Some(touched.(slots := touched.slots[t.value := Revised(touched.slots[t.value], Specified(edited, t.value))],
                      run := db.run.(revision := db.run.revision + 1)))
  }

  // ---- Resource capacity, pool operators, reviews, retirement ----

  predicate KnownPools(db: Db, pools: set<Pool>) {
    forall p | p in pools :: exists i | 0 <= i < |db.slots| :: db.slots[i].pool == p
  }

  function SetCap(db: Db, r: Resource, max: nat, pools: set<Pool>): Option<Db> {
    if db.run.state != Open || max < 1 || pools == {} || !KnownPools(db, pools) then None
    else Some(db.(caps := db.caps[r := Cap(max, pools)], learned := db.learned - {r}, blocks := db.blocks - {r}))
  }

  /** A clean, unstarted slot goes back and the ceiling drops to the peers that are still running. */
  function ResourceBlocked(db: Db, w: Worker, row: nat, generation: nat, r: Resource, now: Time): Option<Db> {
    var i := ActiveSlot(db.slots, w, generation);
    if i.None? || i.value != row || db.run.state != Open then None
    else
      var s := db.slots[i.value];
      var pools := if r in db.caps then db.caps[r].pools else {s.pool};
      if s.pool !in pools then None
      else
        var active := |ClaimedIn(db.slots, pools) - {i.value}|;
        var seen := if active > 1 then active else 1;
        var capacity := if r in db.caps && db.caps[r].max < seen then db.caps[r].max else seen;
        var free := s.(status := Available, owner := None, start := None, lastSeen := None,
                       generation := s.generation + 1);
        Some(db.(slots := db.slots[i.value := free],
                 caps := db.caps[r := Cap(capacity, pools)],
                 learned := if r in db.learned then db.learned
                            else db.learned[r := if r in db.caps then Some(db.caps[r].max) else None],
                 blocks := if active == 0 then db.blocks[r := now + 60] else db.blocks))
  }

  function SetOperators(db: Db, workers: set<Worker>, pools: set<Pool>): Option<Db> {
    if db.run.state != Open || workers == {} || pools == {} || !KnownPools(db, pools) then None
    else Some(db.(operators := map p | p in db.operators.Keys + pools ::
                                 if p in pools then workers else db.operators[p]))
  }

  function SetReview(db: Db, name: string, pool: Pool, interval: Time): (r: Option<Db>)
    ensures r.Some? ==> r.value == db.(reviews := r.value.reviews)
  {
    if db.run.state != Open || !(60 <= interval <= 86400) then None
    else if exists i | 0 <= i < |db.reviews| :: db.reviews[i].name == name then
      Some(db.(reviews := seq(|db.reviews|, i requires 0 <= i < |db.reviews| =>
        if db.reviews[i].name == name then db.reviews[i].(pool := pool, interval := interval) else db.reviews[i])))
    else Some(db.(reviews := db.reviews + [Review(name, pool, interval, 0, None)]))
  }

  function Retire(db: Db, w: Worker): Option<Db> {
    if w !in db.workers then None
    else Some(db.(retired := db.retired + {w}))
  }

  function AcknowledgeStop(db: Db, w: Worker): Option<Db> {
    Some(db.(stopOrders := db.stopOrders - {w}))
  }

  // ---- Claiming ----

  predicate ReviewDue(db: Db, v: Review, now: Time) {
    && (v.lastPublished == 0 || now - v.lastPublished >= v.interval)
    && (v.latest.None? ||
        var row := SlotByKey(db.slots, v.latest.value);
        row.None? || db.slots[row.value].status == Done)
    && SlotByKey(db.slots, Named(v.name + "-" + Decimal(now))).None?
  }

  function PublishReview(db: Db, n: nat, now: Time): Db
    requires n < |db.reviews|
  {
    var v := db.reviews[n];
    if !ReviewDue(db, v, now) then db
    else
      var k := Named(v.name + "-" + Decimal(now));
      db.(slots := db.slots + [FreshSlot(Task(k, v.pool, [], [], []))],
          reviews := db.reviews[n := v.(lastPublished := now, latest := Some(k))],
          run := db.run.(revision := db.run.revision + 1))
  }

  function PublishReviews(db: Db, n: nat, now: Time): (r: Db)
    requires n <= |db.reviews|
    ensures |r.reviews| == |db.reviews|
  {
    if n == 0 then db
    else
      PublishReview(PublishReviews(db, n - 1, now), n - 1, now)
  }

  /** Periodic reviews appear at claim boundaries, until the operated pools have nothing left to do. */
  function PublishDueReviews(db: Db, now: Time): Db {
    if db.operators.Keys != {} &&
       (forall i | 0 <= i < |db.slots| && db.slots[i].pool in db.operators :: db.slots[i].status == Done)
    then db
    else PublishReviews(db, |db.reviews|, now)
  }

  function Leased(s: Slot, w: Worker, now: Time): Slot {
    s.(status := Claimed, owner := Some(w), generation := s.generation + 1, lastSeen := Some(now))
  }

  /** Leases the chosen slot, revoking the expired lease it may still be under. */
  function TakeSlot(db: Db, row: nat, w: Worker, now: Time): (r: Option<Db>)
    requires row < |db.slots|
    ensures r.Some? ==> |r.value.slots| == |db.slots| && r.value.slots == db.slots[row := r.value.slots[row]]
    ensures r.Some? ==> TaskOf(r.value.slots[row]) == TaskOf(db.slots[row])
    ensures r.Some? ==> r.value == db.(slots := r.value.slots, reclaims := r.value.reclaims)
  {
    var freed := if db.slots[row].status == Claimed then ReclaimSlot(db, row) else Some(db);
    if freed.None? then None
    else Some(freed.value.(slots := freed.value.slots[row := Leased(freed.value.slots[row], w, now)]))
  }

  /** The first delegation offered to anybody, by another worker. */
  function PoolOffer(delegations: seq<Delegation>, w: Worker, from: nat): (r: Option<nat>)
    requires from <= |delegations|
    ensures r.Some? ==> r.value < |delegations| && delegations[r.value].status == Offered
                        && delegations[r.value].recipient.None? && delegations[r.value].sender != w
    decreases |delegations| - from
  {
    if from == |delegations| then None
    else if delegations[from].status == Offered && delegations[from].recipient.None? && delegations[from].sender != w
    then Some(from)
    else PoolOffer(delegations, w, from + 1)
  }

  function DelegationKey(row: nat): Key {
    Named("delegation-" + Decimal(row + 1))
  }

  /** Turns a pool offer into a claimed slot of its own. */
  function ClaimOffer(db: Db, w: Worker, offer: nat, now: Time): Option<(Db, nat)>
    requires offer < |db.delegations|
  {
    var row := |db.slots|;
    if SlotByKey(db.slots, DelegationKey(row)).Some? then None
    else
      var s := Leased(FreshSlot(Task(DelegationKey(row), "default", [], [], [])), w, now);
      var d := db.delegations[offer].(status := Taken, recipient := Some(w));
      Some((db.(slots := db.slots + [s], delegations := db.delegations[offer := d]), row))
  }

  /** The lease that follows a choice: the chosen slot, otherwise an offered delegation.
      The row is absent when the transaction commits without a lease. */
  function LeaseChosen(chosen: Db, pick: Option<nat>, w: Worker, wait: bool, now: Time): Option<(Db, Option<nat>)> {
    if pick.Some? && pick.value < |chosen.slots| then
      var taken := TakeSlot(chosen, pick.value, w, now);
      if taken.None? then None else Some((taken.value, pick))
    else if !chosen.run.planned then None
    else
      var offer := PoolOffer(chosen.delegations, w, 0);
      if offer.None? then (if wait then Some((chosen, None)) else None)
      else
        var taken := ClaimOffer(chosen, w, offer.value, now);
        if taken.None? then None else Some((taken.value.0, Some(taken.value.1)))
  }

  /** A fresh lease for a worker that holds none: a slot, a rescued slot, or a delegation. */
  ghost function NewLease(db: Db, w: Worker, only: Option<set<Pool>>, wait: bool, now: Time): Option<(Db, Option<nat>)> {
    var choice := Choose(PublishDueReviews(db, now), w, now, only);
    LeaseChosen(choice.0, choice.1, w, wait, now)
  }

  function LatestReclaim(reclaims: seq<Reclaim>, row: nat): (r: Option<nat>)
    ensures r.Some? ==> r.value < |reclaims| && reclaims[r.value].slot == row
    ensures forall i | (if r.Some? then r.value + 1 else 0) <= i < |reclaims| :: reclaims[i].slot != row
  {
    if reclaims == [] then None
    else if reclaims[|reclaims| - 1].slot == row then Some(|reclaims| - 1)
    else LatestReclaim(reclaims[..|reclaims| - 1], row)
  }

  /** Open obligations follow the task to its new owner; what the old owner had accepted is offered again. */
  function Transfer(d: Delegation, from: Worker, to: Worker): Delegation {
    var e := if d.sender == from && !Settled(d) then d.(sender := to) else d;
    if e.recipient == Some(from) && (e.status == Taken || e.status == Rejected)
    then e.(status := Offered, recipient := None) else e
  }

  function TransferAll(ds: seq<Delegation>, from: Worker, to: Worker): (r: seq<Delegation>)
    ensures |r| == |ds|
  {
    seq(|ds|, i requires 0 <= i < |ds| => Transfer(ds[i], from, to))
  }

  /** A sender uses each request key once. */
  predicate DistinctRequests(ds: seq<Delegation>) {
    forall i, j | 0 <= i < j < |ds| :: (ds[i].sender, ds[i].requestKey) != (ds[j].sender, ds[j].requestKey)
  }

  /** The new owner adopts the obligations left by the slot's last reclaim. */
  function Adopt(db: Db, w: Worker, row: nat): (r: Option<Db>)
    ensures r.Some? ==> r.value == db.(delegations := r.value.delegations, reclaims := r.value.reclaims)
  {
    var last := LatestReclaim(db.reclaims, row);
    if last.None? || db.reclaims[last.value].adoptedBy.Some? then Some(db)
    else
      var moved := TransferAll(db.delegations, db.reclaims[last.value].oldOwner, w);
      if !DistinctRequests(moved) then None
      else Some(db.(delegations := moved,
                    reclaims := db.reclaims[last.value := db.reclaims[last.value].(adoptedBy := Some(w))]))
  }

  function Renewed(s: Slot, now: Time): Slot {
    s.(generation := if s.generation == 0 then 1 else s.generation, lastSeen := Some(now))
  }

  function Register(db: Db, w: Worker): Db {
    if w in db.workers then db else db.(workers := db.workers + [w])
  }

  /** The rest of a reservation, for the slot the worker now holds. */
  function Conclude(db: Db, w: Worker, row: nat, now: Time): (r: Option<Db>)
    ensures r.Some? ==> row < |db.slots| && r.value.slots == db.slots[row := Renewed(db.slots[row], now)]
  {
    if row >= |db.slots| then None
    else Adopt(Register(db.(slots := db.slots[row := Renewed(db.slots[row], now)]), w), w, row)
  }

  /** The reservation transaction of a claim: resume the held slot or take a new lease. */
  ghost function Reserve(db: Db, w: Worker, only: Option<set<Pool>>, wait: bool, now: Time): Option<(Db, Option<nat>)> {
    if w in db.retired || w in db.stopOrders then None
    else
      var held := HeldSlot(db.slots, w);
      if held.None? && db.run.state != Open then
        (if wait || w in db.workers then Some((db, None)) else None)
      else
        var leased := if held.Some? then Some((db, held)) else NewLease(db, w, only, wait, now);
        if leased.None? || leased.value.1.None? then leased
        else
          var r := Conclude(leased.value.0, w, leased.value.1.value, now);
          if r.None? then None else Some((r.value, leased.value.1))
  }

  /** Records one materialized input of a worker. */
  function RecordInput(db: Db, w: Worker, source: nat): Db {
    db.(inputs := db.inputs + {(w, source)})
  }

  /** The last step of a claim: the verified inputs become the start of the task. */
  function Bind(db: Db, w: Worker, row: nat, generation: nat, head: Commit): Option<Db> {
    var i := ActiveSlot(db.slots, w, generation);
    if i.None? || i.value != row then None
    else Some(db.(slots := db.slots[row := db.slots[row].(start := Some(head))]))
  }

  /** A worker of an unplanned run brings its own slot unless one is waiting for it. */
  function Join(db: Db, w: Worker, now: Time): Option<Db> {
    if db.run.planned then None
    else if SlotOf(db.slots, w).Some? then Some(db)
    else if db.run.state != Open then None
    else if exists i | 0 <= i < |db.slots| :: db.slots[i].status == Available || Stale(db.slots[i], w, now) then Some(db)
    else
      var row := |db.slots|;
      var s := FreshSlot(Task(Unnamed(row), "default", [], [], [])).(status := Claimed, owner := Some(w));
      Some(db.(slots := db.slots + [s]))
  }

  // ---- Delegations ----

  predicate Bound(db: Db, w: Worker) {
    var i := HeldSlot(db.slots, w);
    i.Some? && db.slots[i.value].start.Some?
  }

  function RequestOf(ds: seq<Delegation>, w: Worker, key: string): (r: Option<nat>)
    ensures r.Some? ==> r.value < |ds| && ds[r.value].sender == w && ds[r.value].requestKey == key
    ensures r.None? ==> forall i | 0 <= i < |ds| :: (ds[i].sender, ds[i].requestKey) != (w, key)
  {
    if ds == [] then None
    else if ds[|ds| - 1].sender == w && ds[|ds| - 1].requestKey == key then Some(|ds| - 1)
    else RequestOf(ds[..|ds| - 1], w, key)
  }

  function Delegate(db: Db, w: Worker, key: string, work: string, recipient: Option<Worker>): Option<Db> {
    var known := RequestOf(db.delegations, w, key);
    if recipient == Some(w) || SlotOf(db.slots, w).None? then None
    else if known.Some? then (if db.delegations[known.value].work == work then Some(db) else None)
    else if db.run.state != Open || !Bound(db, w) then None
    else if recipient.Some? && !Bound(db, recipient.value) then None
    else Some(db.(delegations := db.delegations + [Delegation(w, key, recipient, work, Offered, None, None)]))
  }

  function Accept(db: Db, w: Worker, id: nat): Option<Db> {
    if id >= |db.delegations| then None
    else
      var d := db.delegations[id];
      if d.status == Taken && d.recipient == Some(w) then Some(db)
      else if db.run.state != Open || d.status != Offered then None
      else if d.sender == w || (d.recipient.Some? && d.recipient != Some(w)) || !Bound(db, w) then None
      else Some(db.(delegations := db.delegations[id := d.(status := Taken, recipient := Some(w))]))
  }

  function Reject(db: Db, w: Worker, id: nat): Option<Db> {
    if id >= |db.delegations| || db.delegations[id].recipient != Some(w) then None
    else
      var d := db.delegations[id];
      if d.status == Rejected then Some(db)
      else if (d.status != Offered && d.status != Taken) || db.run.state != Open then None
      else Some(db.(delegations := db.delegations[id := d.(status := Rejected)]))
  }

  function Reoffer(db: Db, w: Worker, id: nat, recipient: Option<Worker>): Option<Db> {
    if recipient == Some(w) || id >= |db.delegations| || db.delegations[id].sender != w || db.run.state != Open then None
    else
      var d := db.delegations[id];
      if d.status == Offered && d.recipient == recipient then Some(db)
      else if d.status != Rejected || (recipient.Some? && !Bound(db, recipient.value)) then None
      else Some(db.(delegations := db.delegations[id := d.(status := Offered, recipient := recipient)]))
  }

  function Cancel(db: Db, w: Worker, id: nat, reason: string, now: Time): (r: Option<Db>)
    ensures r.Some? ==> r.value == db.(delegations := r.value.delegations, run := r.value.run)
  {
    if id >= |db.delegations| || db.delegations[id].sender != w then None
    else
      var d := db.delegations[id];
      if d.status == Cancelled then Some(db)
      else if db.run.state != Open || (d.status != Offered && d.status != Rejected) then None
      else
        var cleared := db.(delegations := db.delegations[id := d.(status := Cancelled, result := Some(reason))]);
        var i := SlotOf(db.slots, w);
        if i.None? then None
        else if db.slots[i.value].status == Done then Some(Elect(cleared, w, now))
        else Some(cleared)
  }

  /** The write half of a completion; the check that the recipient still holds a slot happened earlier,
      in a transaction of its own. */
  function Complete(db: Db, w: Worker, id: nat, result: string, commit: Option<Commit>): Option<Db> {
    if id >= |db.delegations| then None
    else
      var d := db.delegations[id];
      if d.status == Completed && d.result == Some(result) && d.commit == commit then Some(db)
      else if d.status != Taken || d.recipient != Some(w) || db.run.state != Open then None
      else Some(db.(delegations :=
        db.delegations[id := d.(status := Completed, result := Some(result), commit := commit)]))
  }

  // ---- Completion and election ----

  predicate ReadyToIntegrate(db: Db) {
    db.run.state == Open && db.slots != [] && AllDone(db.slots) && AllSettled(db.delegations)
  }

  function Elect(db: Db, w: Worker, now: Time): (r: Db)
    ensures r == db.(run := r.run)
  {
    if ReadyToIntegrate(db)
    then db.(run := db.run.(state := Integrating, integrator := Some(w), integratorGeneration := 1,
                            integratorSeen := Some(now)))
    else db
  }

  function ElectTx(db: Db, w: Worker, now: Time): Option<Db> {
    var i := SlotOf(db.slots, w);
    if i.None? || db.slots[i.value].status != Done then None else Some(Elect(db, w, now))
  }

  function Finished(s: Slot, w: Worker, commit: Commit): Slot {
    s.(status := Done, commit := Some(commit), completedBy := Some(w), owner := None)
  }

  predicate Involves(d: Delegation, w: Worker) {
    d.sender == w || d.recipient == Some(w)
  }

  /** The committing transaction of `finish`: the lease observed before the Git checks must still stand. */
  function Finish(db: Db, w: Worker, row: nat, generation: nat, commit: Commit, now: Time): (r: Option<Db>)
    ensures r.Some? ==> r.value == db.(slots := r.value.slots, inputs := r.value.inputs, run := r.value.run)
  {
    var i := ActiveSlot(db.slots, w, generation);
    if i.None? || i.value != row || db.slots[row].start.None? then None
    else if exists n | 0 <= n < |db.delegations| ::
              db.delegations[n].recipient == Some(w) &&
              (db.delegations[n].status == Offered || db.delegations[n].status == Taken) then None
    else if db.run.state != Open then None
    else Some(Elect(RecordInput(db.(slots := db.slots[row := Finished(db.slots[row], w, commit)]), w, row), w, now))
  }

  function LeaseRecord(reclaims: seq<Reclaim>, row: nat, w: Worker, generation: nat): (r: Option<nat>)
    ensures r.Some? ==> r.value < |reclaims| && reclaims[r.value].slot == row
                        && reclaims[r.value].oldOwner == w && reclaims[r.value].oldGeneration == generation
    ensures r.None? ==> forall i | 0 <= i < |reclaims| ::
              (reclaims[i].slot, reclaims[i].oldOwner, reclaims[i].oldGeneration) != (row, w, generation)
  {
    if reclaims == [] then None
    else
      var r := reclaims[|reclaims| - 1];
      if r.slot == row && r.oldOwner == w && r.oldGeneration == generation then Some(|reclaims| - 1)
      else LeaseRecord(reclaims[..|reclaims| - 1], row, w, generation)
  }

  predicate Acceptance(db: Db, row: nat, w: Worker)
    requires row < |db.slots|
  {
    var s := db.slots[row];
    && db.run.state == Open
    && s.status != Done
    && (s.status == Claimed && s.owner.Some? ==>
          forall n | 0 <= n < |db.delegations| :: !Involves(db.delegations[n], s.owner.value))
    && (forall n | 0 <= n < |db.delegations| :: Involves(db.delegations[n], w) ==> Settled(db.delegations[n]))
  }

  /** The committing transaction of a finish reported under a lease that was reclaimed meanwhile. */
  function FinishLate(db: Db, w: Worker, row: nat, generation: nat, commit: Commit, now: Time): (r: Option<Db>)
    ensures r.Some? ==> r.value == db.(slots := r.value.slots, inputs := r.value.inputs, run := r.value.run,
                                       reclaims := r.value.reclaims, stopOrders := r.value.stopOrders)
  {
    var n := LeaseRecord(db.reclaims, row, w, generation);
    if n.None? || row >= |db.slots| || db.reclaims[n.value].oldStart.None? then None
    else
      var record := db.reclaims[n.value];
      if record.resolutionCommit.Some? then (if record.resolutionCommit == Some(commit) then Some(db) else None)
      else
        var accepted := Acceptance(db, row, w);
        var resolved := record.(resolution := Some(if accepted then Accepted else Preserved),
                                resolutionCommit := Some(commit));
        var noted := db.(reclaims := db.reclaims[n.value := resolved]);
        if !accepted then Some(noted)
        else
          var s := db.slots[row];
          var stops := if s.status == Claimed && s.owner.Some? && s.owner.value != w then {s.owner.value} else {};
          var done := noted.(slots := db.slots[row := Finished(s, w, commit)],
                             stopOrders := db.stopOrders + stops);
          Some(Elect(RecordInput(done, w, row), w, now))
  }

  // ---- Integration ----

  /** What a takeover observed before its Git checks. */
  datatype Observed = Observed(state: RunState, integrator: Option<Worker>, generation: nat, tailOpen: bool)

  function TakeOver(db: Db, w: Worker, seen: Observed, force: bool, now: Time): Option<Db> {
    if !(seen.state == Integrating || (seen.state == Integrated && seen.tailOpen)) then None
    else if seen.integrator == Some(w) then Some(db)
    else if db.run.integrator != seen.integrator || db.run.integratorGeneration != seen.generation
            || db.run.state != seen.state then None
    else if !force && (db.run.integratorSeen.None? || now - db.run.integratorSeen.value <= LEASE_SECONDS) then None
    else
      var tail := if seen.tailOpen && db.tail.Some? && db.tail.value.status == TailActive
                     && db.tail.value.owner == seen.integrator
                  then Some(db.tail.value.(owner := Some(w))) else db.tail;
      Some(db.(run := db.run.(integrator := Some(w), integratorGeneration := db.run.integratorGeneration + 1,
                              integratorSeen := Some(now)),
               tail := tail))
  }

  /** The write intent of the automatic replay, persisted before Git is touched. */
  function BeginReplay(db: Db, w: Worker, head: Commit): Option<Db> {
    if db.run.state != Integrating || db.run.integrator != Some(w) || db.run.attempted then None
    else Some(db.(run := db.run.(attempted := true, startHead := Some(head))))
  }

  /** The head an uninterrupted replay produced; ignored when the integrator changed meanwhile. */
  function EndReplay(db: Db, w: Worker, head: Commit, now: Time): Option<Db> {
    if !db.run.attempted then None
    else if db.run.state == Integrating && db.run.integrator == Some(w)
    then Some(db.(run := db.run.(candidate := Some(head), integratorSeen := Some(now))))
    else Some(db)
  }

  function ResolveReplay(db: Db, w: Worker, head: Commit, now: Time): Option<Db> {
    if !db.run.attempted || db.run.candidate.Some? || db.run.state != Integrating || db.run.integrator != Some(w) then None
    else Some(db.(run := db.run.(candidate := Some(head), integratorSeen := Some(now))))
  }

  function IntegrationComplete(db: Db, w: Worker, candidate: Commit, now: Time): Option<Db> {
    if db.run.candidate != Some(candidate) || db.run.integrator != Some(w) || db.run.state == Open then None
    else
      var closed :=
        if db.run.state == Integrating
        then db.(run := db.run.(state := Integrated, integratorSeen := Some(now)),
                 tail := if db.tail.Some? && db.tail.value.status == TailPending
                         then Some(db.tail.value.(status := TailActive, owner := Some(w))) else db.tail)
        else db;
      if closed.tail.Some? && closed.tail.value.owner != Some(w) then None else Some(closed)
  }

  function SerialComplete(db: Db, w: Worker, head: Commit): Option<Db> {
    if db.tail.None? || db.tail.value.owner != Some(w) then None
    else if db.tail.value.status == TailComplete then (if db.tail.value.finalHead == Some(head) then Some(db) else None)
    else if db.tail.value.status == TailActive
    then Some(db.(tail := Some(db.tail.value.(status := TailComplete, finalHead := Some(head)))))
    else None
  }

  // ---- Creation ----

  function NewRun(project: string, planned: bool): Run {
    Run(project, planned, Open, 1, None, 0, None, false, None, None)
  }

  function EmptyDb(project: string, planned: bool, slots: seq<Slot>, tail: Option<Tail>): Db {
    Db(NewRun(project, planned), slots, [], [], {}, [], {}, {}, map[], map[], map[], map[], [], map[], tail)
  }

  /** A planned run: its task list validated and stored in order. */
  ghost function CreateRun(project: string, drafts: seq<Draft>, withTail: bool): Option<Db> {
    if !Acceptable(drafts) then None
    else Some(EmptyDb(project, true, FreshSlots(SpecifiedAll(drafts)),
                      if withTail then Some(Tail(TailPending, None, None)) else None))
  }

  function CreateUnplanned(project: string): Db {
    EmptyDb(project, false, [], None)
  }
}
