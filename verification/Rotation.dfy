/** Fair rotation: with nothing to rescue and equally loaded pools, a waiting pool is served within as many
    dispatches as there are pools. */
module Rotation {
  import opened Prelude
  import opened Tables
  import opened Scheduling
  import opened Transactions
  import opened Protocol
  import opened Frames

  /** One dispatch: the database the claim chose in, and the claim. */
  datatype Dispatch = Dispatch(db: Db, worker: Worker, now: Time, only: Option<set<Pool>>)

  ghost function After(d: Dispatch): Db {
    Choose(d.db, d.worker, d.now, d.only).0
  }

  ghost function Chosen(d: Dispatch): Option<nat> {
    Choose(d.db, d.worker, d.now, d.only).1
  }

  ghost function Waiting(d: Dispatch): set<nat> {
    ReadyCandidates(ResetLearned(d.db, d.now), d.worker, d.now, d.only)
  }

  /** No expired lease and no due review competes, and the pools with a ready slot carry equal live load. */
  ghost predicate Calm(d: Dispatch) {
    var db := ResetLearned(d.db, d.now);
    && StaleCandidates(db, d.worker, d.now, d.only) == {}
    && (forall i | i in Waiting(d) :: i < |db.slots| && !Overdue(db, db.slots[i]))
    && (forall i, j | i in Waiting(d) && j in Waiting(d) && i < |db.slots| && j < |db.slots| ::
          LiveLoad(db.slots, d.now, db.slots[i].pool) == LiveLoad(db.slots, d.now, db.slots[j].pool))
  }

  /** Nothing to rescue: the choice is the best ready slot. */
  lemma CalmPick(d: Dispatch)
    requires Calm(d)
    ensures var db := ResetLearned(d.db, d.now);
            Choice(db, d.worker, d.now, d.only) == Best(|db.slots|, Waiting(d), ReadyScore(db, d.now))
  {
    var db := ResetLearned(d.db, d.now);
    var stale := StaleCandidates(db, d.worker, d.now, d.only);
    assert Urgent(db, d.now, stale) == {};
    var best := Best(|db.slots|, Waiting(d), ReadyScore(db, d.now));
    if best.Some? { assert Critical(db, d.worker, d.now, stale, best.value) == {}; }
  }

  lemma BestIsOldest(db: Db, now: Time, among: set<nat>, waiting: nat)
    requires waiting in among && waiting < |db.slots|
    requires forall i | i in among :: i < |db.slots| && !Overdue(db, db.slots[i])
    requires forall i, j | i in among && j in among ::
               LiveLoad(db.slots, now, db.slots[i].pool) == LiveLoad(db.slots, now, db.slots[j].pool)
    ensures var best := Best(|db.slots|, among, ReadyScore(db, now));
            && best.Some? && best.value in among
            && LastDispatch(db, db.slots[best.value].pool) <= LastDispatch(db, db.slots[waiting].pool)
  {
    var score := ReadyScore(db, now);
    var best := Best(|db.slots|, among, score);
    assert !Less(score(waiting), score(best.value));
  }

  ghost function BestReady(d: Dispatch): Option<nat> {
    Best(|d.db.slots|, Waiting(d), ReadyScore(ResetLearned(d.db, d.now), d.now))
  }

  lemma ChosenIs(d: Dispatch)
    ensures var reset := ResetLearned(d.db, d.now);
            Chosen(d) == Choice(reset, d.worker, d.now, d.only) && After(d) == Advanced(reset, Chosen(d))
  {
  }

  lemma AfterIs(d: Dispatch)
    requires Chosen(d).Some?
    ensures Chosen(d).value < |d.db.slots|
    ensures After(d).dispatch == d.db.dispatch[d.db.slots[Chosen(d).value].pool := 1 + Highest(d.db.dispatch)]
  {
    ChosenIs(d);
  }

  lemma CalmChosen(d: Dispatch)
    requires Calm(d)
    ensures Chosen(d) == BestReady(d)
  {
    ChosenIs(d);
    CalmPick(d);
  }

  lemma BestReadyIsOldest(d: Dispatch, waiting: nat)
    requires Calm(d) && waiting in Waiting(d)
    ensures BestReady(d).Some? && BestReady(d).value < |d.db.slots| && BestReady(d).value in Waiting(d)
    ensures LastDispatch(d.db, d.db.slots[BestReady(d).value].pool) <= LastDispatch(d.db, d.db.slots[waiting].pool)
  {
    BestIsOldest(ResetLearned(d.db, d.now), d.now, Waiting(d), waiting);
  }

  /** A calm dispatch takes a ready slot of the pool served longest ago, and moves that pool to the end. */
  lemma CalmChoice(d: Dispatch, waiting: nat)
    requires Calm(d) && waiting in Waiting(d)
    ensures Chosen(d).Some? && Chosen(d).value < |d.db.slots| && Chosen(d).value in Waiting(d)
    ensures LastDispatch(d.db, d.db.slots[Chosen(d).value].pool) <= LastDispatch(d.db, d.db.slots[waiting].pool)
    ensures After(d).dispatch == d.db.dispatch[d.db.slots[Chosen(d).value].pool := 1 + Highest(d.db.dispatch)]
  {
    CalmChosen(d);
    BestReadyIsOldest(d, waiting);
    AfterIs(d);
  }

  // ---- Least recently served, on the rotation table alone ----

  function LastOf(last: map<Pool, nat>, q: Pool): nat {
    if q in last then last[q] else 0
  }

  /** Pools other than `p` that would still be served before it. */
  function Ahead(last: map<Pool, nat>, pools: set<Pool>, p: Pool): set<Pool> {
    set q | q in pools && q != p && LastOf(last, q) <= LastOf(last, p)
  }

  /** Serving `q`, not after `p`, and moving it to the end. */
  ghost predicate Serve(last: map<Pool, nat>, next: map<Pool, nat>, pools: set<Pool>, p: Pool, q: Pool) {
    && q in pools && LastOf(last, q) <= LastOf(last, p)
    && next == last[q := 1 + Highest(last)]
  }

  lemma OvertakenOnce(last: map<Pool, nat>, next: map<Pool, nat>, pools: set<Pool>, p: Pool, q: Pool)
    requires Serve(last, next, pools, p, q) && q != p
    ensures |Ahead(next, pools, p)| < |Ahead(last, pools, p)|
  {
    assert q in Ahead(last, pools, p);
    assert LastOf(last, p) <= Highest(last);
    assert Ahead(next, pools, p) == Ahead(last, pools, p) - {q};
  }

  lemma OthersAhead(last: map<Pool, nat>, pools: set<Pool>, p: Pool)
    requires p in pools
    ensures |Ahead(last, pools, p)| < |pools|
  {
    var rest := pools - {p};
    assert rest == Ahead(last, pools, p) + (rest - Ahead(last, pools, p));
    assert pools == rest + {p};
  }

  // ---- The same for dispatches ----

  /** Consecutive dispatches: between two of them nothing touches the rotation. */
  ghost predicate Consecutive(run: seq<Dispatch>) {
    forall t | 0 <= t < |run| - 1 :: run[t + 1].db.dispatch == After(run[t]).dispatch
  }

  /** Pool `p` has a ready slot this worker may take. */
  ghost predicate Offers(d: Dispatch, p: Pool) {
    exists i :: i in Waiting(d) && i < |d.db.slots| && d.db.slots[i].pool == p
  }

  ghost function ServedPool(d: Dispatch): Option<Pool> {
    if Chosen(d).Some? && Chosen(d).value < |d.db.slots| then Some(d.db.slots[Chosen(d).value].pool) else None
  }

  ghost predicate WithinPools(d: Dispatch, pools: set<Pool>) {
    forall i | i in Waiting(d) && i < |d.db.slots| :: d.db.slots[i].pool in pools
  }

  lemma DispatchServes(d: Dispatch, pools: set<Pool>, p: Pool)
    requires Calm(d) && Offers(d, p) && WithinPools(d, pools)
    ensures ServedPool(d).Some? && Serve(d.db.dispatch, After(d).dispatch, pools, p, ServedPool(d).value)
  {
    var i :| i in Waiting(d) && i < |d.db.slots| && d.db.slots[i].pool == p;
    CalmChoice(d, i);
  }

  /** A calm dispatch at which pool `p` has an eligible ready slot. */
  ghost predicate SteadyAt(d: Dispatch, pools: set<Pool>, p: Pool) {
    Calm(d) && Offers(d, p) && WithinPools(d, pools)
  }

  /** As many such dispatches in a row as there are pools. */
  ghost predicate Steady(ds: seq<Dispatch>, from: nat, pools: set<Pool>, p: Pool) {
    && p in pools && from + |pools| <= |ds|
    && forall n {:trigger SteadyAt(ds[n], pools, p)} | from <= n < from + |pools| :: SteadyAt(ds[n], pools, p)
  }

  ghost function TableAt(ds: seq<Dispatch>, n: nat): map<Pool, nat>
    requires n <= |ds|
  {
    if n < |ds| then ds[n].db.dispatch else if n == 0 then map[] else After(ds[n - 1]).dispatch
  }

  lemma SteadyServes(ds: seq<Dispatch>, from: nat, pools: set<Pool>, p: Pool, n: nat)
    requires Consecutive(ds) && Steady(ds, from, pools, p) && from <= n < from + |pools|
    ensures ServedPool(ds[n]).Some? && Serve(TableAt(ds, n), TableAt(ds, n + 1), pools, p, ServedPool(ds[n]).value)
  {
    assert SteadyAt(ds[n], pools, p);
    DispatchServes(ds[n], pools, p);
  }

  /** While `p` is not served, every dispatch serves one of the pools ahead of it, for good. */
  lemma {:induction false} FewLeftAhead(ds: seq<Dispatch>, from: nat, pools: set<Pool>, p: Pool, t: nat)
    requires Consecutive(ds) && Steady(ds, from, pools, p) && t <= |pools|
    requires forall n | from <= n < from + t :: ServedPool(ds[n]) != Some(p)
    ensures |Ahead(TableAt(ds, from + t), pools, p)| + t < |pools|
  {
    if t == 0 {
      OthersAhead(TableAt(ds, from), pools, p);
    } else {
      var n := from + t - 1;
      FewLeftAhead(ds, from, pools, p, t - 1);
      SteadyServes(ds, from, pools, p, n);
      OvertakenOnce(TableAt(ds, n), TableAt(ds, n + 1), pools, p, ServedPool(ds[n]).value);
    }
  }

  /** A pool with an eligible ready slot at every dispatch is served within as many dispatches as there are pools. */
  lemma BoundedWait(ds: seq<Dispatch>, from: nat, pools: set<Pool>, p: Pool) returns (t: nat)
    requires Consecutive(ds) && Steady(ds, from, pools, p)
    ensures from <= t < from + |pools| && ServedPool(ds[t]) == Some(p)
  {
    if forall n | from <= n < from + |pools| :: ServedPool(ds[n]) != Some(p) {
      FewLeftAhead(ds, from, pools, p, |pools|);
    }
    t :| from <= t < from + |pools| && ServedPool(ds[t]) == Some(p);
  }

  /** Only claims advance the rotation. */
  lemma RotationMovesOnlyInClaims(db: Db, a: Action, now: Time)
    requires Apply(db, a, now).Some? && !a.DoReserve?
    ensures Apply(db, a, now).value.dispatch == db.dispatch
  {
    ApplyFrame(db, a, now);
  }

  // ---- The dispatches of a protocol run ----

  /** The event is a claim that commits and chooses, because its worker holds nothing and the run is open. */
  ghost predicate Dispatches(db: Db, e: Event) {
    && e.action.DoReserve? && HeldSlot(db.slots, e.action.w).None? && db.run.state == Open
    && Reserve(db, e.action.w, e.action.only, e.action.wait, e.now).Some?
  }

  ghost function DispatchOf(db: Db, e: Event): Dispatch
    requires e.action.DoReserve?
  {
    Dispatch(PublishDueReviews(db, e.now), e.action.w, e.now, e.action.only)
  }

  lemma LeaseTakesChoice(chosen: Db, pick: Option<nat>, w: Worker, wait: bool, now: Time)
    requires LeaseChosen(chosen, pick, w, wait, now).Some?
    ensures var (next, row) := LeaseChosen(chosen, pick, w, wait, now).value;
            && next.dispatch == chosen.dispatch
            && (pick.Some? && pick.value < |chosen.slots| ==>
                  && row == pick && pick.value < |next.slots| && HoldsSlot(next.slots[pick.value], w)
                  && next.slots[pick.value].pool == chosen.slots[pick.value].pool)
  {
  }

  lemma ConcludeKeepsHold(db: Db, w: Worker, row: nat, now: Time)
    requires Conclude(db, w, row, now).Some? && row < |db.slots| && HoldsSlot(db.slots[row], w)
    ensures var next := Conclude(db, w, row, now).value;
            && next.dispatch == db.dispatch && row < |next.slots| && HoldsSlot(next.slots[row], w)
            && next.slots[row].pool == db.slots[row].pool
  {
    ConcludeFrame(db, w, row, now);
  }

  ghost function ClaimOf(w: Worker, only: Option<set<Pool>>, wait: bool, now: Time): Event {
    Event(DoReserve(w, only, wait), now)
  }

  /** The database after dispatch `d`: the rotation moved, and the worker holds a slot of the pool that was served. */
  ghost predicate Lands(d: Dispatch, next: Db) {
    && next.dispatch == After(d).dispatch
    && (ServedPool(d).Some? ==>
          && Chosen(d).value < |next.slots| && HoldsSlot(next.slots[Chosen(d).value], d.worker)
          && next.slots[Chosen(d).value].pool == ServedPool(d).value)
  }

  lemma LeaseOfDispatch(db: Db, w: Worker, only: Option<set<Pool>>, wait: bool, now: Time)
    requires NewLease(db, w, only, wait, now).Some?
    ensures var d := DispatchOf(db, ClaimOf(w, only, wait, now));
            var (mid, row) := NewLease(db, w, only, wait, now).value;
            Lands(d, mid) && (ServedPool(d).Some? ==> row == Chosen(d))
  {
    var d := DispatchOf(db, ClaimOf(w, only, wait, now));
    assert NewLease(db, w, only, wait, now) == LeaseChosen(After(d), Chosen(d), w, wait, now);
    ChosenIs(d);
    LeaseTakesChoice(After(d), Chosen(d), w, wait, now);
  }

  lemma LandsConcluded(d: Dispatch, mid: Db, row: nat, now: Time)
    requires Lands(d, mid) && Conclude(mid, d.worker, row, now).Some? && (ServedPool(d).Some? ==> Chosen(d) == Some(row))
    ensures Lands(d, Conclude(mid, d.worker, row, now).value)
  {
    ConcludeFrame(mid, d.worker, row, now);
    if ServedPool(d).Some? { ConcludeKeepsHold(mid, d.worker, row, now); }
  }

  lemma ReserveIsLease(db: Db, w: Worker, only: Option<set<Pool>>, wait: bool, now: Time)
    requires Dispatches(db, ClaimOf(w, only, wait, now))
    ensures var lease, r := NewLease(db, w, only, wait, now), Reserve(db, w, only, wait, now);
            && lease.Some?
            && (if lease.value.1.None? then r.value.0 == lease.value.0
                else Conclude(lease.value.0, w, lease.value.1.value, now) == Some(r.value.0))
  {
  }

  /** A dispatch of the protocol is one of the list above: it moves the rotation in the same way, and its worker then
      holds a slot of the pool that was served. */
  lemma DispatchIsClaim(db: Db, w: Worker, only: Option<set<Pool>>, wait: bool, now: Time)
    requires Dispatches(db, ClaimOf(w, only, wait, now))
    ensures Lands(DispatchOf(db, ClaimOf(w, only, wait, now)), Reserve(db, w, only, wait, now).value.0)
  {
    ReserveIsLease(db, w, only, wait, now);
    LeaseOfDispatch(db, w, only, wait, now);
    var (mid, row) := NewLease(db, w, only, wait, now).value;
    if row.Some? { LandsConcluded(DispatchOf(db, ClaimOf(w, only, wait, now)), mid, row.value, now); }
  }

  lemma DispatchStartsHere(db: Db, e: Event)
    requires e.action.DoReserve?
    ensures DispatchOf(db, e).db.dispatch == db.dispatch
  {
    ReviewsFrame(db, |db.reviews|, e.now);
  }

  /** A claim that does not choose leaves the rotation alone. */
  lemma ResumeKeepsRotation(db: Db, w: Worker, only: Option<set<Pool>>, wait: bool, now: Time)
    requires Reserve(db, w, only, wait, now).Some? && !Dispatches(db, Event(DoReserve(w, only, wait), now))
    ensures Reserve(db, w, only, wait, now).value.0.dispatch == db.dispatch
  {
    var held := HeldSlot(db.slots, w);
    if held.Some? { ConcludeFrame(db, w, held.value, now); }
  }

  lemma ReserveRotation(db: Db, w: Worker, only: Option<set<Pool>>, wait: bool, now: Time)
    ensures var e := Event(DoReserve(w, only, wait), now);
            if Dispatches(db, e) then
              && DispatchOf(db, e).db.dispatch == db.dispatch
              && Reserve(db, w, only, wait, now).value.0.dispatch == After(DispatchOf(db, e)).dispatch
            else Reserve(db, w, only, wait, now).Some? ==> Reserve(db, w, only, wait, now).value.0.dispatch == db.dispatch
  {
    DispatchStartsHere(db, ClaimOf(w, only, wait, now));
    if Dispatches(db, ClaimOf(w, only, wait, now)) { DispatchIsClaim(db, w, only, wait, now); }
    else if Reserve(db, w, only, wait, now).Some? { ResumeKeepsRotation(db, w, only, wait, now); }
  }

  /** The rotation after an event. */
  ghost function NextTable(db: Db, e: Event): map<Pool, nat> {
    if Dispatches(db, e) then After(DispatchOf(db, e)).dispatch else db.dispatch
  }

  lemma ReserveStep(s: System, w: Worker, only: Option<set<Pool>>, wait: bool, now: Time)
    ensures Step(s, DoReserve(w, only, wait), now).db.dispatch == NextTable(s.db, Event(DoReserve(w, only, wait), now))
  {
    ReserveRotation(s.db, w, only, wait, now);
  }

  lemma OtherStep(s: System, e: Event)
    requires !e.action.DoReserve?
    ensures Step(s, e.action, e.now).db.dispatch == NextTable(s.db, e)
  {
    if Apply(s.db, e.action, e.now).Some? { RotationMovesOnlyInClaims(s.db, e.action, e.now); }
  }

  lemma RotationStep(s: System, e: Event)
    ensures Step(s, e.action, e.now).db.dispatch == NextTable(s.db, e)
    ensures Dispatches(s.db, e) ==> DispatchOf(s.db, e).db.dispatch == s.db.dispatch
  {
    match e.action
    case DoReserve(w, only, wait) =>
      assert e == Event(DoReserve(w, only, wait), e.now);
      ReserveRotation(s.db, w, only, wait, e.now);
      ReserveStep(s, w, only, wait, e.now);
    case _ => OtherStep(s, e);
  }

  ghost function WithDispatch(ds: seq<Dispatch>, db: Db, e: Event): seq<Dispatch> {
    if Dispatches(db, e) then ds + [DispatchOf(db, e)] else ds
  }

  /** All dispatches of a run, in order. */
  ghost function DispatchesOf(s: System, run: seq<Event>): seq<Dispatch>
    decreases |run|
  {
    if run == [] then []
    else WithDispatch(DispatchesOf(s, run[..|run| - 1]), Execute(s, run[..|run| - 1]).db, run[|run| - 1])
  }

  /** The rotation after all the dispatches. */
  ghost function Rotated(start: map<Pool, nat>, ds: seq<Dispatch>): map<Pool, nat> {
    if ds == [] then start else After(ds[|ds| - 1]).dispatch
  }

  lemma OneMoreDispatch(start: map<Pool, nat>, ds: seq<Dispatch>, d: Dispatch)
    requires Consecutive(ds) && d.db.dispatch == Rotated(start, ds)
    ensures Consecutive(ds + [d]) && Rotated(start, ds + [d]) == After(d).dispatch
  {
    var more := ds + [d];
    forall t | 0 <= t < |more| - 1 ensures more[t + 1].db.dispatch == After(more[t]).dispatch {
      assert more[t] == ds[t];
      if t + 1 < |ds| { assert more[t + 1] == ds[t + 1]; }
    }
  }

  lemma NextDispatch(start: map<Pool, nat>, ds: seq<Dispatch>, s: System, e: Event)
    requires Consecutive(ds) && s.db.dispatch == Rotated(start, ds)
    ensures Consecutive(WithDispatch(ds, s.db, e))
    ensures Rotated(start, WithDispatch(ds, s.db, e)) == Step(s, e.action, e.now).db.dispatch
  {
    RotationStep(s, e);
    if Dispatches(s.db, e) { OneMoreDispatch(start, ds, DispatchOf(s.db, e)); }
  }

  /** Whatever the workers do in between, the dispatches of a run follow each other in the rotation. */
  lemma {:induction false} RunsAreConsecutive(s: System, run: seq<Event>)
    ensures Consecutive(DispatchesOf(s, run))
    ensures Execute(s, run).db.dispatch == Rotated(s.db.dispatch, DispatchesOf(s, run))
    decreases |run|
  {
    if run != [] {
      var front := run[..|run| - 1];
      RunsAreConsecutive(s, front);
      NextDispatch(s.db.dispatch, DispatchesOf(s, front), Execute(s, front), run[|run| - 1]);
    }
  }

  /** In a run of the protocol, among as many consecutive dispatches as there are pools, a pool that has an eligible
      ready slot at each of them is served, as long as these are calm. */
  lemma WaitIsBounded(s: System, run: seq<Event>, from: nat, pools: set<Pool>, p: Pool) returns (t: nat)
    requires Steady(DispatchesOf(s, run), from, pools, p)
    ensures from <= t < from + |pools| && ServedPool(DispatchesOf(s, run)[t]) == Some(p)
  {
    RunsAreConsecutive(s, run);
    t := BoundedWait(DispatchesOf(s, run), from, pools, p);
  }
}
