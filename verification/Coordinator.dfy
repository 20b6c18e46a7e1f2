/** The coordinator: the tables of one run as fields, and one method per write transaction that updates
    them row by row.  Every method is proved against its transaction function, so it commits exactly the
    database that function describes and rolls back completely when it refuses; and it keeps the invariant
    of the machine, with the claims in flight, and lets the tables evolve only lawfully. */
module Coordinator {
  import opened Prelude
  import opened Tables
  import opened TaskGraph
  import opened Scheduling
  import T = Transactions
  import opened Invariant
  import opened Steps
  import opened ClaimSteps
  import P = Protocol

  /** The committed database, or everything as before. */
  ghost predicate Commits(ok: bool, prior: Db, next: Db, spec: Option<Db>) {
    if ok then spec == Some(next) else spec.None? && next == prior
  }

  /** As above, and no row, record or run state went astray. */
  ghost predicate Outcome(ok: bool, prior: Db, next: Db, spec: Option<Db>) {
    Evolves(prior, next) && Commits(ok, prior, next, spec)
  }

  class Coordinator {
    var run: Run
    var slots: seq<Slot>
    var reclaims: seq<Reclaim>
    var delegations: seq<Delegation>
    var inputs: set<(Worker, nat)>
    var workers: seq<Worker>
    var retired: set<Worker>
    var stopOrders: set<Worker>
    var caps: map<Resource, Cap>
    var learned: map<Resource, Option<nat>>
    var blocks: map<Resource, Time>
    var operators: map<Pool, set<Worker>>
    var reviews: seq<Review>
    var dispatch: map<Pool, nat>
    var tail: Option<Tail>
    /** The claims that were reserved and may still be bound. */
    ghost var flights: set<P.Flight>

    function Contents(): Db
      reads this
    {
      Db(run, slots, reclaims, delegations, inputs, workers, retired, stopOrders,
         caps, learned, blocks, operators, reviews, dispatch, tail)
    }

    ghost function Machine(): P.System
      reads this
    {
      P.System(Contents(), flights)
    }

    ghost predicate Valid()
      reads this
    {
      P.SystemInv(Machine())
    }

    /** What a transaction has to show: the database it commits is sound and evolved lawfully. */
    lemma Sound(next: Option<Db>)
      requires Valid() && (next.Some? ==> Inv(next.value) && Evolves(Contents(), next.value))
      ensures Evolves(Contents(), Contents())
      ensures next.Some? ==> P.SystemInv(P.System(next.value, flights))
    {
      Unchanged(Contents());
      if next.Some? { P.FlightsStay(Machine(), next.value); }
    }

    // ---- Leases ----

    method TouchOwner(w: Worker, generation: nat, now: Time) returns (i: Option<nat>)
      modifies this`slots
      ensures i == ActiveSlot(old(slots), w, generation)
      ensures Contents() == if i.Some? then T.Touch(old(Contents()), i.value, now) else old(Contents())
    {
      i := ActiveSlot(slots, w, generation);
      if i.Some? { slots := slots[i.value := slots[i.value].(lastSeen := Some(now))]; }
    }

    method Heartbeat(w: Worker, generation: nat, now: Time) returns (ok: bool)
      requires Valid()
      modifies this
      ensures Valid() && flights == old(flights)
      ensures Outcome(ok, old(Contents()), Contents(), T.Heartbeat(old(Contents()), w, generation, now))
    {
      ghost var next := T.Heartbeat(Contents(), w, generation, now);
      if next.Some? { HeartbeatGood(Contents(), w, generation, now); }
      Sound(next);
      if run.integrator == Some(w) && run.state != Open {
        if generation != run.integratorGeneration { return false; }
        run := run.(integratorSeen := Some(now));
        ok := true;
      } else {
        var i := TouchOwner(w, generation, now);
        ok := i.Some?;
      }
    }

    method ReclaimSlot(i: nat)
      requires i < |slots| && slots[i].status == Claimed && slots[i].owner.Some?
      modifies this`slots, this`reclaims
      ensures T.ReclaimSlot(old(Contents()), i) == Some(Contents())
    {
      var s := slots[i];
      reclaims := reclaims + [Reclaim(i, s.owner.value, s.generation, s.start, s.checkpoint, None, None, None)];
      slots := slots[i := s.(status := Available, owner := None, start := None, lastSeen := None, checkpoint := None)];
    }

    method ReclaimTask(k: string, force: bool, now: Time) returns (ok: bool)
      requires Valid()
      modifies this
      ensures Valid() && flights == old(flights)
      ensures Outcome(ok, old(Contents()), Contents(), T.ReclaimTask(old(Contents()), k, force, now))
    {
      ghost var next := T.ReclaimTask(Contents(), k, force, now);
      if next.Some? { ReclaimGood(Contents(), k, force, now); }
      Sound(next);
      if run.state != Open { return false; }
      var i := SlotByName(slots, k);
      if i.None? || slots[i.value].status != Claimed || slots[i.value].owner.None? { return false; }
      var seen := slots[i.value].lastSeen;
      if !force && (seen.None? || now - seen.value <= LEASE_SECONDS) { return false; }
      ReclaimSlot(i.value);
      return true;
    }

    method Checkpoint(w: Worker, generation: nat, row: nat, start: Option<Commit>, commit: Commit, now: Time) returns (ok: bool)
      requires Valid()
      modifies this
      ensures Valid() && flights == old(flights)
      ensures Outcome(ok, old(Contents()), Contents(),
                                 T.CheckpointTx(old(Contents()), w, generation, row, start, commit, now))
    {
      ghost var next := T.CheckpointTx(Contents(), w, generation, row, start, commit, now);
      if next.Some? { CheckpointGood(Contents(), w, generation, row, start, commit, now); }
      Sound(next);
      var i := ActiveSlot(slots, w, generation);
      if i.None? || i.value != row || slots[row].start != start { return false; }
      i := TouchOwner(w, generation, now);
      slots := slots[row := slots[row].(checkpoint := Some(commit))];
      assert slots == old(slots)[row := old(slots)[row].(lastSeen := Some(now), checkpoint := Some(commit))];
      return true;
    }

    // ---- The task graph ----

    method InsertSlots(added: seq<Task>)
      modifies this`slots
      ensures slots == old(slots) + T.FreshSlots(added)
    {
      for n := 0 to |added|
        invariant slots == old(slots) + T.FreshSlots(added)[..n]
      {
        slots := slots + [FreshSlot(added[n])];
      }
      assert T.FreshSlots(added)[..|added|] == T.FreshSlots(added);
    }

    method PublishTask(w: Worker, generation: nat, batch: seq<Draft>, now: Time) returns (ok: bool)
      requires Valid()
      modifies this
      ensures Valid() && flights == old(flights)
      ensures Outcome(ok, old(Contents()), Contents(), T.Publish(old(Contents()), w, generation, batch, now))
    {
      ghost var next := T.Publish(Contents(), w, generation, batch, now);
      if next.Some? { PublishGood(Contents(), w, generation, batch, now); }
      Sound(next);
      ok := AppendTasks(w, generation, batch, now);
    }

    method AppendTasks(w: Worker, generation: nat, batch: seq<Draft>, now: Time) returns (ok: bool)
      modifies this
      ensures flights == old(flights)
      ensures Commits(ok, old(Contents()), Contents(), T.Publish(old(Contents()), w, generation, batch, now))
    {
      if batch == [] || run.state != Open || !run.planned || ActiveSlot(slots, w, generation).None? { return false; }
      var current := DraftsOf(TasksOf(slots));
      var validated := TaskSpecs(current + batch);
      if validated.None? { return false; }
      var i := TouchOwner(w, generation, now);
      var added := validated.value[|current|..];
      InsertSlots(added);
      run := run.(revision := run.revision + 1);
      return true;
    }

    method ReviseTask(w: Worker, generation: nat, k: string, changed: Draft, revision: nat, now: Time) returns (ok: bool)
      requires Valid()
      modifies this
      ensures Valid() && flights == old(flights)
      ensures Outcome(ok, old(Contents()), Contents(),
                                 T.Revise(old(Contents()), w, generation, k, changed, revision, now))
    {
      ghost var next := T.Revise(Contents(), w, generation, k, changed, revision, now);
      if next.Some? { ReviseGood(Contents(), w, generation, k, changed, revision, now); }
      Sound(next);
      ok := EditTask(w, generation, k, changed, revision, now);
    }

    method EditTask(w: Worker, generation: nat, k: string, changed: Draft, revision: nat, now: Time) returns (ok: bool)
      modifies this
      ensures flights == old(flights)
      ensures Commits(ok, old(Contents()), Contents(),
                                 T.Revise(old(Contents()), w, generation, k, changed, revision, now))
    {
      if run.state != Open || !run.planned || run.revision != revision { return false; }
      var target := SlotByKey(slots, Named(k));
      if ActiveSlot(slots, w, generation).None? || target.None? || slots[target.value].status != Available { return false; }
      var final := ValidateEdit(target.value, changed.(key := Some(k)));
      if final.None? { return false; }
      var i := TouchOwner(w, generation, now);
      WriteEdit(target.value, final.value);
      return true;
    }

    method WriteEdit(n: nat, final: Task)
      requires n < |slots|
      modifies this`slots, this`run
      ensures Contents() == old(Contents()).(slots := old(slots)[n := T.Revised(old(slots)[n], final)],
                                             run := old(run).(revision := old(run).revision + 1))
    {
      slots := slots[n := slots[n].(pool := final.pool, dependsOn := final.dependsOn,
                                    reviewOf := final.reviewOf, exclude := final.exclude)];
      run := run.(revision := run.revision + 1);
    }

    /** The whole task list is validated again with one row edited. */
    method ValidateEdit(n: nat, edited: Draft) returns (final: Option<Task>)
      requires n < |slots|
      ensures var drafts := DraftsOf(TasksOf(slots))[n := edited];
              && (final.Some? <==> Acceptable(drafts))
              && (final.Some? ==> WellFormed(edited, n) && final.value == Specified(edited, n))
    {
      var drafts := DraftsOf(TasksOf(slots))[n := edited];
      var validated := TaskSpecs(drafts);
      if validated.None? { return None; }
      assert WellFormed(drafts[n], n);
      return Some(validated.value[n]);
    }

    // ---- Capacity ----

    method ResourceBlocked(w: Worker, row: nat, generation: nat, r: Resource, now: Time) returns (ok: bool)
      requires Valid()
      modifies this
      ensures Valid() && flights == old(flights)
      ensures Outcome(ok, old(Contents()), Contents(),
                                 T.ResourceBlocked(old(Contents()), w, row, generation, r, now))
    {
      ghost var next := T.ResourceBlocked(Contents(), w, row, generation, r, now);
      if next.Some? { ResourceBlockedGood(Contents(), w, row, generation, r, now); }
      Sound(next);
      ok := ReturnSlot(w, row, generation, r, now);
    }

    method ReturnSlot(w: Worker, row: nat, generation: nat, r: Resource, now: Time) returns (ok: bool)
      modifies this
      ensures flights == old(flights)
      ensures Commits(ok, old(Contents()), Contents(),
                                 T.ResourceBlocked(old(Contents()), w, row, generation, r, now))
    {
      var i := ActiveSlot(slots, w, generation);
      if i.None? || i.value != row || run.state != Open { return false; }
      var s := slots[row];
      var known := r in caps;
      var pools := if known then caps[r].pools else {s.pool};
      if s.pool !in pools { return false; }
      var active := |ClaimedIn(slots, pools) - {row}|;
      LowerCeiling(r, pools, active, now);
      slots := slots[row := s.(status := Available, owner := None, start := None, lastSeen := None,
                               generation := s.generation + 1)];
      return true;
    }

    /** The ceiling drops to the peers that still run; what it was is remembered once. */
    method LowerCeiling(r: Resource, pools: set<Pool>, active: nat, now: Time)
      modifies this`caps, this`learned, this`blocks
      ensures var seen := if active > 1 then active else 1;
              caps == old(caps)[r := Cap(if r in old(caps) && old(caps)[r].max < seen then old(caps)[r].max else seen, pools)]
      ensures learned == if r in old(learned) then old(learned)
                         else old(learned)[r := if r in old(caps) then Some(old(caps)[r].max) else None]
      ensures blocks == if active == 0 then old(blocks)[r := now + 60] else old(blocks)
    {
      var known := r in caps;
      var capacity := if active > 1 then active else 1;
      if known && caps[r].max < capacity { capacity := caps[r].max; }
      if r !in learned { learned := learned[r := if known then Some(caps[r].max) else None]; }
      caps := caps[r := Cap(capacity, pools)];
      if active == 0 { blocks := blocks[r := now + 60]; }
    }

    // ---- Set-up by the operator ----

    method SetResourceCap(r: Resource, max: nat, pools: set<Pool>) returns (ok: bool)
      requires Valid()
      modifies this
      ensures Valid() && flights == old(flights)
      ensures Outcome(ok, old(Contents()), Contents(), T.SetCap(old(Contents()), r, max, pools))
    {
      ghost var next := T.SetCap(Contents(), r, max, pools);
      if next.Some? { SetCapGood(Contents(), r, max, pools); }
      Sound(next);
      if run.state != Open || max < 1 || pools == {} || !T.KnownPools(Contents(), pools) { return false; }
      caps := caps[r := Cap(max, pools)];
      learned := learned - {r};
      blocks := blocks - {r};
      return true;
    }

    method SetPoolOperators(ids: set<Worker>, pools: set<Pool>) returns (ok: bool)
      requires Valid()
      modifies this`operators
      ensures Valid()
      ensures Outcome(ok, old(Contents()), Contents(), T.SetOperators(old(Contents()), ids, pools))
    {
      ghost var next := T.SetOperators(Contents(), ids, pools);
      if next.Some? { SetOperatorsGood(Contents(), ids, pools); }
      Sound(next);
      ok := AssignOperators(ids, pools);
    }

    method AssignOperators(ids: set<Worker>, pools: set<Pool>) returns (ok: bool)
      modifies this`operators
      ensures Commits(ok, old(Contents()), Contents(), T.SetOperators(old(Contents()), ids, pools))
    {
      if run.state != Open || ids == {} || pools == {} || !T.KnownPools(Contents(), pools) { return false; }
      operators := operators + map p | p in pools :: ids;
      assert operators == map p | p in old(operators).Keys + pools :: if p in pools then ids else old(operators)[p];
      return true;
    }

    method RetireWorker(w: Worker) returns (ok: bool)
      requires Valid()
      modifies this`retired
      ensures Valid()
      ensures Outcome(ok, old(Contents()), Contents(), T.Retire(old(Contents()), w))
    {
      ghost var next := T.Retire(Contents(), w);
      if next.Some? { SideTable(Contents(), next.value); }
      Sound(next);
      if w !in workers { return false; }
      retired := retired + {w};
      return true;
    }

    // ---- Claiming ----

    method PublishReview(n: nat, now: Time)
      requires n < |reviews|
      modifies this`slots, this`reviews, this`run
      ensures Contents() == T.PublishReview(old(Contents()), n, now)
    {
      var v := reviews[n];
      if T.ReviewDue(Contents(), v, now) {
        var k := Named(v.name + "-" + Decimal(now));
        slots := slots + [FreshSlot(Task(k, v.pool, [], [], []))];
        reviews := reviews[n := v.(lastPublished := now, latest := Some(k))];
        run := run.(revision := run.revision + 1);
      }
    }

    method PublishDueReviews(now: Time)
      modifies this`slots, this`reviews, this`run
      ensures Contents() == T.PublishDueReviews(old(Contents()), now)
    {
      if operators.Keys != {} &&
         (forall i | 0 <= i < |slots| && slots[i].pool in operators :: slots[i].status == Done) { return; }
      var n := 0;
      while n < |reviews|
        invariant n <= |reviews| == |old(reviews)|
        invariant Contents() == T.PublishReviews(old(Contents()), n, now)
      {
        PublishReview(n, now);
        n := n + 1;
        assert T.PublishReviews(old(Contents()), n, now) == T.PublishReview(T.PublishReviews(old(Contents()), n - 1, now), n - 1, now);
      }
    }

    /** Scores are compared as the rows come; the first least one wins. */
    method Least(n: nat, among: set<nat>, score: nat -> Score) returns (best: Option<nat>)
      ensures best == Best(n, among, score)
    {
      best := None;
      for i := 0 to n
        invariant best == Best(i, among, score)
      {
        if i in among && (best.None? || Less(score(i), score(best.value))) { best := Some(i); }
      }
    }

    method NextSequence() returns (next: nat)
      ensures next == 1 + Highest(dispatch)
    {
      var highest := 0;
      var left := dispatch.Keys;
      while left != {}
        invariant left <= dispatch.Keys
        invariant forall p | p in dispatch && p !in left :: dispatch[p] <= highest
        invariant highest == 0 || exists p :: p in dispatch && dispatch[p] == highest
        decreases left
      {
        var p :| p in left;
        if dispatch[p] > highest { highest := dispatch[p]; }
        left := left - {p};
      }
      return 1 + highest;
    }

    /** One scan of the slots collects the ready and the expired candidates. */
    method Candidates(w: Worker, now: Time, only: Option<set<Pool>>) returns (ready: set<nat>, stale: set<nat>)
      ensures ready == ReadyCandidates(Contents(), w, now, only)
      ensures stale == StaleCandidates(Contents(), w, now, only)
    {
      ready, stale := {}, {};
      for i := 0 to |slots|
        invariant ready == set j | 0 <= j < i && slots[j].status == Available && Candidate(Contents(), w, now, only, slots[j])
        invariant stale == set j | 0 <= j < i && slots[j].status == Claimed && Candidate(Contents(), w, now, only, slots[j])
      {
        if Candidate(Contents(), w, now, only, slots[i]) {
          if slots[i].status == Available { ready := ready + {i}; }
          else if slots[i].status == Claimed { stale := stale + {i}; }
        }
      }
    }

    method ResetCeilings(now: Time)
      modifies this`caps, this`learned, this`blocks
      ensures Contents() == ResetLearned(old(Contents()), now)
    {
      var gone := Recovered(Contents(), now);
      caps := map r | r in caps && (r in gone ==> learned[r].Some?) ::
                if r in gone then caps[r].(max := learned[r].value) else caps[r];
      learned := learned - gone;
      blocks := blocks - gone;
    }

    method Pick(w: Worker, now: Time, only: Option<set<Pool>>) returns (pick: Option<nat>)
      ensures pick == Choice(Contents(), w, now, only)
    {
      var db := Contents();
      var ready, stale := Candidates(w, now, only);
      pick := Least(|slots|, Urgent(db, now, stale), UrgentScore(db, w, now));
      if pick.Some? { return; }
      var best := Least(|slots|, ready, ReadyScore(db, now));
      if best.None? {
        pick := Least(|slots|, stale, StaleScore(db, w, now));
      } else {
        pick := Least(|slots|, Critical(db, w, now, stale, best.value), StaleScore(db, w, now));
        if pick.None? || Overdue(db, slots[best.value]) { pick := best; }
      }
    }

    method ChooseSlot(w: Worker, now: Time, only: Option<set<Pool>>) returns (pick: Option<nat>)
      modifies this`caps, this`learned, this`blocks, this`dispatch
      ensures (Contents(), pick) == Choose(old(Contents()), w, now, only)
    {
      ResetCeilings(now);
      pick := Pick(w, now, only);
      AdvanceRotation(pick);
    }

    method AdvanceRotation(pick: Option<nat>)
      requires pick.Some? ==> pick.value < |slots|
      modifies this`dispatch
      ensures Contents() == Advanced(old(Contents()), pick)
    {
      if pick.Some? {
        var next := NextSequence();
        dispatch := dispatch[slots[pick.value].pool := next];
      }
    }

    /** Leases the chosen slot; an expired lease on it is revoked first. */
    method TakeSlot(row: nat, w: Worker, now: Time) returns (ok: bool)
      requires row < |slots|
      modifies this`slots, this`reclaims
      ensures ok <==> T.TakeSlot(old(Contents()), row, w, now).Some?
      ensures ok ==> T.TakeSlot(old(Contents()), row, w, now) == Some(Contents())
    {
      if slots[row].status == Claimed {
        if slots[row].owner.None? { return false; }
        ReclaimSlot(row);
      }
      var s := slots[row];
      slots := slots[row := s.(status := Claimed, owner := Some(w), generation := s.generation + 1, lastSeen := Some(now))];
      return true;
    }

    method ClaimOffer(w: Worker, offer: nat, now: Time) returns (row: Option<nat>)
      requires offer < |delegations|
      modifies this`slots, this`delegations
      ensures var spec := T.ClaimOffer(old(Contents()), w, offer, now);
              if row.Some? then spec == Some((Contents(), row.value)) else spec.None? && Contents() == old(Contents())
    {
      var n := |slots|;
      if SlotByKey(slots, T.DelegationKey(n)).Some? { return None; }
      var s := FreshSlot(Task(T.DelegationKey(n), "default", [], [], []));
      slots := slots + [s.(status := Claimed, owner := Some(w), generation := 1, lastSeen := Some(now))];
      delegations := delegations[offer := delegations[offer].(status := Taken, recipient := Some(w))];
      return Some(n);
    }

    method OfferLease(w: Worker, wait: bool, now: Time) returns (ok: bool, row: Option<nat>)
      modifies this`slots, this`delegations
      ensures var offer := T.PoolOffer(old(delegations), w, 0);
              if offer.None? then ok == wait && row.None? && Contents() == old(Contents())
              else var taken := T.ClaimOffer(old(Contents()), w, offer.value, now);
                   ok == taken.Some? && (ok ==> row.Some? && taken == Some((Contents(), row.value)))
    {
      var offer := T.PoolOffer(delegations, w, 0);
      if offer.None? { return wait, None; }
      row := ClaimOffer(w, offer.value, now);
      return row.Some?, row;
    }

    method LeaseChosen(pick: Option<nat>, w: Worker, wait: bool, now: Time) returns (ok: bool, row: Option<nat>)
      requires pick.Some? ==> pick.value < |slots|
      modifies this`slots, this`reclaims, this`delegations
      ensures var spec := T.LeaseChosen(old(Contents()), pick, w, wait, now);
              ok == spec.Some? && (ok ==> spec == Some((Contents(), row)))
    {
      row := pick;
      if pick.Some? {
        ok := TakeSlot(pick.value, w, now);
      } else if !run.planned {
        ok := false;
      } else {
        ok, row := OfferLease(w, wait, now);
      }
    }

    method ChooseDue(w: Worker, only: Option<set<Pool>>, now: Time) returns (pick: Option<nat>)
      modifies this`slots, this`reviews, this`run, this`caps, this`learned, this`blocks, this`dispatch
      ensures (Contents(), pick) == Choose(T.PublishDueReviews(old(Contents()), now), w, now, only)
    {
      PublishDueReviews(now);
      pick := ChooseSlot(w, now, only);
    }

    method NewLease(w: Worker, only: Option<set<Pool>>, wait: bool, now: Time) returns (ok: bool, row: Option<nat>)
      modifies this
      ensures flights == old(flights)
      ensures var spec := T.NewLease(old(Contents()), w, only, wait, now);
              ok == spec.Some? && (ok ==> spec == Some((Contents(), row)))
    {
      var pick := ChooseDue(w, only, now);
      ok, row := LeaseChosen(pick, w, wait, now);
    }

    /** The new owner takes over the open obligations recorded with the slot's last reclaim. */
    method Adopt(w: Worker, row: nat) returns (ok: bool)
      modifies this`delegations, this`reclaims
      ensures ok <==> T.Adopt(old(Contents()), w, row).Some?
      ensures ok ==> T.Adopt(old(Contents()), w, row) == Some(Contents())
    {
      var last := T.LatestReclaim(reclaims, row);
      if last.None? || reclaims[last.value].adoptedBy.Some? { return true; }
      var moved := T.TransferAll(delegations, reclaims[last.value].oldOwner, w);
      if !T.DistinctRequests(moved) { return false; }
      delegations := moved;
      reclaims := reclaims[last.value := reclaims[last.value].(adoptedBy := Some(w))];
      return true;
    }

    method RestoreRows(saved: Db)
      modifies this`run, this`slots, this`reclaims, this`delegations, this`inputs, this`workers
      ensures run == saved.run && slots == saved.slots && reclaims == saved.reclaims
      ensures delegations == saved.delegations && inputs == saved.inputs && workers == saved.workers
    {
      run, slots, reclaims := saved.run, saved.slots, saved.reclaims;
      delegations, inputs, workers := saved.delegations, saved.inputs, saved.workers;
    }

    method RestorePolicies(saved: Db)
      modifies this`retired, this`stopOrders, this`caps, this`learned, this`blocks, this`operators, this`reviews, this`dispatch, this`tail
      ensures retired == saved.retired && stopOrders == saved.stopOrders && caps == saved.caps && learned == saved.learned
      ensures blocks == saved.blocks && operators == saved.operators && reviews == saved.reviews
      ensures dispatch == saved.dispatch && tail == saved.tail
    {
      retired, stopOrders, caps, learned := saved.retired, saved.stopOrders, saved.caps, saved.learned;
      blocks, operators, reviews := saved.blocks, saved.operators, saved.reviews;
      dispatch, tail := saved.dispatch, saved.tail;
    }

    method Rollback(saved: Db)
      modifies this
      ensures flights == old(flights)
      ensures Contents() == saved
    {
      RestoreRows(saved);
      RestorePolicies(saved);
    }

    method Conclude(w: Worker, row: nat, now: Time) returns (ok: bool)
      modifies this
      ensures flights == old(flights)
      ensures ok <==> T.Conclude(old(Contents()), w, row, now).Some?
      ensures ok ==> T.Conclude(old(Contents()), w, row, now) == Some(Contents())
    {
      if row >= |slots| { return false; }
      var s := slots[row];
      slots := slots[row := s.(generation := if s.generation == 0 then 1 else s.generation, lastSeen := Some(now))];
      if w !in workers { workers := workers + [w]; }
      ok := Adopt(w, row);
    }

    /** The reservation transaction of a claim.  A slot whose inputs are not bound yet starts a claim in flight. */
    method Reserve(w: Worker, only: Option<set<Pool>>, wait: bool, now: Time) returns (ok: bool, row: Option<nat>)
      requires Valid()
      modifies this
      ensures Valid() && Evolves(old(Contents()), Contents())
      ensures var spec := T.Reserve(old(Contents()), w, only, wait, now);
              if ok then spec == Some((Contents(), row)) else spec.None? && Contents() == old(Contents())
      ensures old(flights) <= flights
      ensures ok && row.Some? ==> row.value < |slots| && HoldsSlot(slots[row.value], w)
      ensures ok && row.Some? && row.value < |slots| && slots[row.value].start.None? ==>
                P.Flight(w, row.value, slots[row.value].generation, None) in flights
    {
      var saved := Contents();
      ghost var spec := T.Reserve(saved, w, only, wait, now);
      if spec.Some? { ReserveGood(saved, w, only, wait, now); }
      Sound(if spec.Some? then Some(spec.value.0) else None);
      ok, row := TryReserve(w, only, wait, now);
      if !ok { Rollback(saved); }
      if ok && row.Some? && slots[row.value].start.None? {
        flights := flights + {P.Flight(w, row.value, slots[row.value].generation, None)};
      }
    }

    method TryReserve(w: Worker, only: Option<set<Pool>>, wait: bool, now: Time) returns (ok: bool, row: Option<nat>)
      modifies this
      ensures flights == old(flights)
      ensures var spec := T.Reserve(old(Contents()), w, only, wait, now);
              ok == spec.Some? && (ok ==> spec == Some((Contents(), row)))
    {
      if w in retired || w in stopOrders { return false, None; }
      row := HeldSlot(slots, w);
      if row.Some? {
        ok := Conclude(w, row.value, now);
        return;
      }
      if run.state != Open { return wait || w in workers, None; }
      ok, row := NewLease(w, only, wait, now);
      if ok && row.Some? { ok := Conclude(w, row.value, now); }
    }

    method Join(w: Worker, now: Time) returns (ok: bool)
      requires Valid()
      modifies this
      ensures Valid() && flights == old(flights)
      ensures Outcome(ok, old(Contents()), Contents(), T.Join(old(Contents()), w, now))
    {
      ghost var next := T.Join(Contents(), w, now);
      if next.Some? { JoinGood(Contents(), w, now); }
      Sound(next);
      if run.planned { return false; }
      if SlotOf(slots, w).Some? { return true; }
      if run.state != Open { return false; }
      if exists i | 0 <= i < |slots| :: slots[i].status == Available || Stale(slots[i], w, now) { return true; }
      var s := FreshSlot(Task(Unnamed(|slots|), "default", [], [], []));
      slots := slots + [s.(status := Claimed, owner := Some(w))];
      return true;
    }

    /** The read between reservation and materialization: the predecessors not yet applied, in dispatch order. */
    method PlanInputs(f: P.Flight) returns (plan: Option<P.Plan>)
      requires Valid() && f in flights
      modifies this`flights
      ensures Valid() && plan == P.ReadPlan(Contents(), f) && plan.Some?
      ensures flights == old(flights) + {f.(plan := plan)}
    {
      assert P.FlightSound(Contents(), f);
      var tasks := TasksOf(slots);
      var ancestors := Ancestors(tasks, f.row);
      if ancestors.None? { return None; }
      var sources := MissingInputs(f.worker, ancestors.value);
      plan := Some(P.Plan(sources, set i | 0 <= i < |slots| && slots[i].status == Done));
      P.PlanSound(Contents(), f);
      flights := flights + {f.(plan := plan)};
    }

    method MissingInputs(w: Worker, rows: seq<nat>) returns (missing: seq<nat>)
      ensures missing == P.Missing(Contents(), w, rows)
    {
      missing := [];
      for n := 0 to |rows|
        invariant missing + P.Missing(Contents(), w, rows[n..]) == P.Missing(Contents(), w, rows)
      {
        assert rows[n..][1..] == rows[n + 1..];
        if (w, rows[n]) !in inputs { missing := missing + [rows[n]]; }
      }
    }

    /** Notes the first planned input as applied, once Git has it in the worktree. */
    method RecordInput(f: P.Flight) returns (rest: P.Flight)
      requires Valid() && f in flights && f.plan.Some? && f.plan.value.sources != []
      requires f.plan.value.sources[0] in f.plan.value.doneAtRead
      modifies this`inputs, this`flights
      ensures Valid() && Evolves(old(Contents()), Contents())
      ensures Contents() == T.RecordInput(old(Contents()), f.worker, f.plan.value.sources[0])
      ensures rest == f.(plan := Some(f.plan.value.(sources := f.plan.value.sources[1..])))
      ensures flights == old(flights) + {rest}
    {
      ghost var next := T.RecordInput(Contents(), f.worker, f.plan.value.sources[0]);
      assert P.FlightSound(Contents(), f);
      RecordInputGood(Contents(), f.worker, f.plan.value.sources[0]);
      P.RecordSoundFlight(Contents(), f);
      Sound(Some(next));
      rest := f.(plan := Some(f.plan.value.(sources := f.plan.value.sources[1..])));
      inputs := inputs + {(f.worker, f.plan.value.sources[0])};
      flights := flights + {rest};
    }

    /** With every planned input applied the verified head becomes the start of the task, if the lease still stands. */
    method Bind(f: P.Flight, head: Commit) returns (ok: bool)
      requires Valid() && f in flights && f.plan.Some? && f.plan.value.sources == []
      modifies this`slots
      ensures Valid()
      ensures Outcome(ok, old(Contents()), Contents(), T.Bind(old(Contents()), f.worker, f.row, f.generation, head))
    {
      ghost var next := T.Bind(Contents(), f.worker, f.row, f.generation, head);
      assert P.FlightSound(Contents(), f);
      if next.Some? { BindGood(Contents(), f.worker, f.row, f.generation, head); }
      Sound(next);
      var current := ActiveSlot(slots, f.worker, f.generation);
      if current.None? || current.value != f.row { return false; }
      slots := slots[f.row := slots[f.row].(start := Some(head))];
      return true;
    }

    // ---- Completion ----

    method Elect(w: Worker, now: Time) returns (elected: bool)
      modifies this`run
      ensures elected == T.ReadyToIntegrate(old(Contents()))
      ensures Contents() == T.Elect(old(Contents()), w, now)
    {
      elected := run.state == Open && slots != [] && AllDone(slots) && AllSettled(delegations);
      if elected {
        run := run.(state := Integrating, integrator := Some(w), integratorGeneration := 1, integratorSeen := Some(now));
      }
    }

    method Finish(w: Worker, row: nat, generation: nat, commit: Commit, now: Time) returns (ok: bool)
      requires Valid()
      modifies this
      ensures Valid() && flights == old(flights)
      ensures Outcome(ok, old(Contents()), Contents(),
                                 T.Finish(old(Contents()), w, row, generation, commit, now))
    {
      ghost var next := T.Finish(Contents(), w, row, generation, commit, now);
      if next.Some? { FinishGood(Contents(), w, row, generation, commit, now); }
      Sound(next);
      ok := AcceptResult(w, row, generation, commit, now);
    }

    method AcceptResult(w: Worker, row: nat, generation: nat, commit: Commit, now: Time) returns (ok: bool)
      modifies this
      ensures flights == old(flights)
      ensures Commits(ok, old(Contents()), Contents(),
                                 T.Finish(old(Contents()), w, row, generation, commit, now))
    {
      var current := ActiveSlot(slots, w, generation);
      if current.None? || current.value != row || slots[row].start.None? { return false; }
      if exists n | 0 <= n < |delegations| :: delegations[n].recipient == Some(w) &&
           (delegations[n].status == Offered || delegations[n].status == Taken) { return false; }
      if run.state != Open { return false; }
      slots := slots[row := slots[row].(status := Done, commit := Some(commit), completedBy := Some(w), owner := None)];
      inputs := inputs + {(w, row)};
      var elected := Elect(w, now);
      return true;
    }

    method FinishReclaimed(w: Worker, row: nat, generation: nat, commit: Commit, now: Time) returns (ok: bool)
      requires Valid()
      modifies this
      ensures Valid() && flights == old(flights)
      ensures Outcome(ok, old(Contents()), Contents(),
                                 T.FinishLate(old(Contents()), w, row, generation, commit, now))
    {
      ghost var next := T.FinishLate(Contents(), w, row, generation, commit, now);
      if next.Some? { FinishLateGood(Contents(), w, row, generation, commit, now); }
      Sound(next);
      ok := ResolveLate(w, row, generation, commit, now);
    }

    method ResolveLate(w: Worker, row: nat, generation: nat, commit: Commit, now: Time) returns (ok: bool)
      modifies this
      ensures flights == old(flights)
      ensures Commits(ok, old(Contents()), Contents(),
                                 T.FinishLate(old(Contents()), w, row, generation, commit, now))
    {
      var n := T.LeaseRecord(reclaims, row, w, generation);
      if n.None? || row >= |slots| || reclaims[n.value].oldStart.None? { return false; }
      var record := reclaims[n.value];
      if record.resolutionCommit.Some? {
        return record.resolutionCommit == Some(commit);
      }
      if T.Acceptance(Contents(), row, w) {
        reclaims := reclaims[n.value := record.(resolution := Some(Accepted), resolutionCommit := Some(commit))];
        AcceptLate(w, row, commit, now);
      } else {
        reclaims := reclaims[n.value := record.(resolution := Some(Preserved), resolutionCommit := Some(commit))];
      }
      return true;
    }

    /** The late result becomes the slot's result; a replacement still at work is told to stop. */
    method AcceptLate(w: Worker, row: nat, commit: Commit, now: Time)
      requires row < |slots|
      modifies this`slots, this`inputs, this`stopOrders, this`run
      ensures var before := old(Contents());
              var s := before.slots[row];
              var stops := if s.status == Claimed && s.owner.Some? && s.owner.value != w then {s.owner.value} else {};
              Contents() == T.Elect(T.RecordInput(before.(slots := before.slots[row := T.Finished(s, w, commit)],
                                                          stopOrders := before.stopOrders + stops), w, row), w, now)
    {
      var s := slots[row];
      slots := slots[row := s.(status := Done, commit := Some(commit), completedBy := Some(w), owner := None)];
      inputs := inputs + {(w, row)};
      if s.status == Claimed && s.owner.Some? && s.owner.value != w { stopOrders := stopOrders + {s.owner.value}; }
      var elected := Elect(w, now);
    }

    // ---- Delegations ----

    method Delegate(w: Worker, key: string, work: string, recipient: Option<Worker>) returns (ok: bool)
      requires Valid()
      modifies this`delegations
      ensures Valid()
      ensures Outcome(ok, old(Contents()), Contents(), T.Delegate(old(Contents()), w, key, work, recipient))
    {
      ghost var next := T.Delegate(Contents(), w, key, work, recipient);
      if next.Some? { DelegateGood(Contents(), w, key, work, recipient); }
      Sound(next);
      if recipient == Some(w) || SlotOf(slots, w).None? { return false; }
      var known := T.RequestOf(delegations, w, key);
      if known.Some? { return delegations[known.value].work == work; }
      if run.state != Open || !T.Bound(Contents(), w) { return false; }
      if recipient.Some? && !T.Bound(Contents(), recipient.value) { return false; }
      delegations := delegations + [Delegation(w, key, recipient, work, Offered, None, None)];
      return true;
    }

    method AcceptDelegation(w: Worker, id: nat) returns (ok: bool)
      requires Valid()
      modifies this`delegations
      ensures Valid()
      ensures Outcome(ok, old(Contents()), Contents(), T.Accept(old(Contents()), w, id))
    {
      ghost var next := T.Accept(Contents(), w, id);
      if next.Some? { AcceptGood(Contents(), w, id); }
      Sound(next);
      if id >= |delegations| { return false; }
      var d := delegations[id];
      if d.status == Taken && d.recipient == Some(w) { return true; }
      if run.state != Open || d.status != Offered || d.sender == w { return false; }
      if d.recipient.Some? && d.recipient.value != w { return false; }
      if !T.Bound(Contents(), w) { return false; }
      delegations := delegations[id := d.(status := Taken, recipient := Some(w))];
      return true;
    }

    method RejectDelegation(w: Worker, id: nat) returns (ok: bool)
      requires Valid()
      modifies this`delegations
      ensures Valid()
      ensures Outcome(ok, old(Contents()), Contents(), T.Reject(old(Contents()), w, id))
    {
      ghost var next := T.Reject(Contents(), w, id);
      if next.Some? { RejectGood(Contents(), w, id); }
      Sound(next);
      if id >= |delegations| || delegations[id].recipient != Some(w) { return false; }
      if delegations[id].status == Rejected { return true; }
      if (delegations[id].status != Offered && delegations[id].status != Taken) || run.state != Open { return false; }
      delegations := delegations[id := delegations[id].(status := Rejected)];
      return true;
    }

    method ReofferDelegation(w: Worker, id: nat, recipient: Option<Worker>) returns (ok: bool)
      requires Valid()
      modifies this`delegations
      ensures Valid()
      ensures Outcome(ok, old(Contents()), Contents(), T.Reoffer(old(Contents()), w, id, recipient))
    {
      ghost var next := T.Reoffer(Contents(), w, id, recipient);
      if next.Some? { ReofferGood(Contents(), w, id, recipient); }
      Sound(next);
      if recipient == Some(w) || id >= |delegations| || delegations[id].sender != w || run.state != Open { return false; }
      var d := delegations[id];
      if d.status == Offered && d.recipient == recipient { return true; }
      if d.status != Rejected { return false; }
      if recipient.Some? && !T.Bound(Contents(), recipient.value) { return false; }
      delegations := delegations[id := d.(status := Offered, recipient := recipient)];
      return true;
    }

    method CancelDelegation(w: Worker, id: nat, reason: string, now: Time) returns (ok: bool)
      requires Valid()
      modifies this
      ensures Valid() && flights == old(flights)
      ensures Outcome(ok, old(Contents()), Contents(), T.Cancel(old(Contents()), w, id, reason, now))
    {
      ghost var next := T.Cancel(Contents(), w, id, reason, now);
      if next.Some? { CancelGood(Contents(), w, id, reason, now); }
      Sound(next);
      if id >= |delegations| || delegations[id].sender != w { return false; }
      var d := delegations[id];
      if d.status == Cancelled { return true; }
      if run.state != Open || (d.status != Offered && d.status != Rejected) { return false; }
      var mine := SlotOf(slots, w);
      if mine.None? { return false; }
      delegations := delegations[id := d.(status := Cancelled, result := Some(reason))];
      if slots[mine.value].status == Done { var elected := Elect(w, now); }
      return true;
    }

    /** The write half of a completion; it does not elect. */
    method CompleteDelegation(w: Worker, id: nat, result: string, commit: Option<Commit>) returns (ok: bool)
      requires Valid()
      modifies this
      ensures Valid() && flights == old(flights)
      ensures Outcome(ok, old(Contents()), Contents(), T.Complete(old(Contents()), w, id, result, commit))
    {
      ghost var next := T.Complete(Contents(), w, id, result, commit);
      if next.Some? { CompleteKeeps(Contents(), w, id, result, commit); }
      Sound(next);
      if id >= |delegations| { return false; }
      var d := delegations[id];
      if d.status == Completed && d.result == Some(result) && d.commit == commit { return true; }
      if d.status != Taken || d.recipient != Some(w) || run.state != Open { return false; }
      delegations := delegations[id := d.(status := Completed, result := Some(result), commit := commit)];
      return true;
    }

    // ---- Integration ----

    method ReclaimIntegrator(w: Worker, seen: T.Observed, force: bool, now: Time) returns (ok: bool)
      requires Valid()
      modifies this
      ensures Valid() && flights == old(flights)
      ensures Outcome(ok, old(Contents()), Contents(), T.TakeOver(old(Contents()), w, seen, force, now))
    {
      ghost var next := T.TakeOver(Contents(), w, seen, force, now);
      if next.Some? { TakeOverGood(Contents(), w, seen, force, now); }
      Sound(next);
      ok := ReplaceIntegrator(w, seen, force, now);
    }

    method ReplaceIntegrator(w: Worker, seen: T.Observed, force: bool, now: Time) returns (ok: bool)
      modifies this`run, this`tail
      ensures Commits(ok, old(Contents()), Contents(), T.TakeOver(old(Contents()), w, seen, force, now))
    {
      if !(seen.state == Integrating || (seen.state == Integrated && seen.tailOpen)) { return false; }
      if seen.integrator == Some(w) { return true; }
      if run.integrator != seen.integrator || run.integratorGeneration != seen.generation || run.state != seen.state {
        return false;
      }
      if !force && (run.integratorSeen.None? || now - run.integratorSeen.value <= LEASE_SECONDS) { return false; }
      run := run.(integrator := Some(w), integratorGeneration := run.integratorGeneration + 1, integratorSeen := Some(now));
      if seen.tailOpen && tail.Some? && tail.value.status == TailActive && tail.value.owner == seen.integrator {
        tail := Some(tail.value.(owner := Some(w)));
      }
      return true;
    }

    method IntegrationComplete(w: Worker, candidate: Commit, now: Time) returns (ok: bool)
      requires Valid()
      modifies this
      ensures Valid() && flights == old(flights)
      ensures Outcome(ok, old(Contents()), Contents(), T.IntegrationComplete(old(Contents()), w, candidate, now))
    {
      ghost var next := T.IntegrationComplete(Contents(), w, candidate, now);
      if next.Some? { IntegrationCompleteGood(Contents(), w, candidate, now); }
      Sound(next);
      if run.candidate != Some(candidate) || run.integrator != Some(w) || run.state == Open { return false; }
      var owner := if tail.None? then Some(w)
                   else if run.state == Integrating && tail.value.status == TailPending then Some(w)
                   else tail.value.owner;
      if owner != Some(w) { return false; }
      if run.state == Integrating {
        run := run.(state := Integrated, integratorSeen := Some(now));
        if tail.Some? && tail.value.status == TailPending {
          tail := Some(tail.value.(status := TailActive, owner := Some(w)));
        }
      }
      return true;
    }

    /** The write intent of the automatic replay, recorded before Git is touched. */
    method BeginReplay(w: Worker, head: Commit) returns (ok: bool)
      requires Valid()
      modifies this
      ensures Valid() && flights == old(flights)
      ensures Outcome(ok, old(Contents()), Contents(), T.BeginReplay(old(Contents()), w, head))
    {
      ghost var next := T.BeginReplay(Contents(), w, head);
      if next.Some? { BeginReplayGood(Contents(), w, head); }
      Sound(next);
      if run.state != Integrating || run.integrator != Some(w) || run.attempted { return false; }
      run := run.(attempted := true, startHead := Some(head));
      return true;
    }

    /** The head of a replay that ran through; an integrator replaced meanwhile writes nothing. */
    method EndReplay(w: Worker, head: Commit, now: Time) returns (ok: bool)
      requires Valid()
      modifies this`run
      ensures Valid()
      ensures Outcome(ok, old(Contents()), Contents(), T.EndReplay(old(Contents()), w, head, now))
    {
      ghost var next := T.EndReplay(Contents(), w, head, now);
      if next.Some? { EndReplayGood(Contents(), w, head, now); }
      Sound(next);
      if !run.attempted { return false; }
      if run.state == Integrating && run.integrator == Some(w) {
        run := run.(candidate := Some(head), integratorSeen := Some(now));
      }
      return true;
    }

    method ResolveReplay(w: Worker, head: Commit, now: Time) returns (ok: bool)
      requires Valid()
      modifies this`run
      ensures Valid()
      ensures Outcome(ok, old(Contents()), Contents(), T.ResolveReplay(old(Contents()), w, head, now))
    {
      ghost var next := T.ResolveReplay(Contents(), w, head, now);
      if next.Some? { ResolveReplayGood(Contents(), w, head, now); }
      Sound(next);
      if !run.attempted || run.candidate.Some? || run.state != Integrating || run.integrator != Some(w) { return false; }
      run := run.(candidate := Some(head), integratorSeen := Some(now));
      return true;
    }

    method SerialComplete(w: Worker, head: Commit) returns (ok: bool)
      requires Valid()
      modifies this
      ensures Valid() && flights == old(flights)
      ensures Outcome(ok, old(Contents()), Contents(), T.SerialComplete(old(Contents()), w, head))
    {
      ghost var next := T.SerialComplete(Contents(), w, head);
      if next.Some? { SerialCompleteGood(Contents(), w, head); }
      Sound(next);
      if tail.None? || tail.value.owner != Some(w) { return false; }
      if tail.value.status == TailComplete { return tail.value.finalHead == Some(head); }
      if tail.value.status != TailActive { return false; }
      tail := Some(tail.value.(status := TailComplete, finalHead := Some(head)));
      return true;
    }
  }
}
