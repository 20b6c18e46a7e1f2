/** Which slot a claim takes: eligibility, capacity limits, rescue of expired leases and fair rotation. */
module Scheduling {
  import opened Prelude
  import opened Tables

  // ---- Names, liveness and load ----

  function WorkerNumber(workers: seq<Worker>, w: Worker): nat {
    if workers == [] then 1
    else if workers[0] == w then 1
    else 1 + WorkerNumber(workers[1..], w)
  }

  /** The names under which a task may exclude this worker. */
  function Names(db: Db, w: Worker): set<string> {
    var n := Decimal(WorkerNumber(db.workers, w));
    {w, db.run.project + "-worker" + n, "worker" + n}
  }

  predicate Live(s: Slot, now: Time) {
    s.status == Claimed && (s.lastSeen.None? || s.lastSeen.value >= now - LEASE_SECONDS)
  }

  predicate Stale(s: Slot, w: Worker, now: Time) {
    s.status == Claimed && !Live(s, now) && s.owner != Some(w)
  }

  predicate Ready(slots: seq<Slot>, s: Slot) {
    s.status == Available && Subset(s.dependsOn, DoneKeys(slots))
  }

  function LiveIn(slots: seq<Slot>, now: Time, pools: set<Pool>): set<nat> {
    set i | 0 <= i < |slots| && Live(slots[i], now) && slots[i].pool in pools
  }

  function LiveLoad(slots: seq<Slot>, now: Time, pool: Pool): nat {
    |LiveIn(slots, now, {pool})|
  }

  function StaleKeys(slots: seq<Slot>, w: Worker, now: Time): set<Key> {
    set i | 0 <= i < |slots| && Stale(slots[i], w, now) :: slots[i].key
  }

  /** Row `j` waits, for `k` among others, and everything it waits for is held by expired leases. */
  predicate BlockedOn(slots: seq<Slot>, w: Worker, now: Time, j: nat, k: Key)
    requires j < |slots|
  {
    var done := DoneKeys(slots);
    && slots[j].status == Available
    && k in slots[j].dependsOn && k !in done
    && forall d | d in slots[j].dependsOn && d !in done :: d in StaleKeys(slots, w, now)
  }

  predicate Rescues(slots: seq<Slot>, w: Worker, now: Time, i: nat)
    requires i < |slots|
  {
    exists j | 0 <= j < |slots| :: BlockedOn(slots, w, now, j, slots[i].key)
  }

  /** The load of an expired lease: the least loaded among its pool and the pools it blocks. */
  function RescueLoad(slots: seq<Slot>, w: Worker, now: Time, i: nat, n: nat): nat
    requires i < |slots| && n <= |slots|
  {
    if n == 0 then LiveLoad(slots, now, slots[i].pool)
    else
      var rest := RescueLoad(slots, w, now, i, n - 1);
      if BlockedOn(slots, w, now, n - 1, slots[i].key) && LiveLoad(slots, now, slots[n - 1].pool) < rest
      then LiveLoad(slots, now, slots[n - 1].pool) else rest
  }

  // ---- Eligibility and capacity ----

  predicate Eligible(db: Db, w: Worker, only: Option<set<Pool>>, s: Slot) {
    && (only.None? || s.pool in only.value)
    && (s.pool !in db.operators || w in db.operators[s.pool])
    && (forall x | x in s.exclude :: x !in Names(db, w))
    && (forall k | k in s.reviewOf :: k !in ProducedKeys(db.slots, w))
  }

  predicate CooledDown(db: Db, now: Time, r: Resource) {
    r !in db.blocks || db.blocks[r] <= now
  }

  /** Learned ceilings whose last reservation has gone and whose retry delay has passed. */
  function Recovered(db: Db, now: Time): set<Resource> {
    set r | r in db.learned && r in db.caps
      && ClaimedIn(db.slots, db.caps[r].pools) == {} && CooledDown(db, now, r)
  }

  function ResetLearned(db: Db, now: Time): Db {
    var gone := Recovered(db, now);
    db.(caps := map r | r in db.caps && (r in gone ==> db.learned[r].Some?) ::
                  if r in gone then db.caps[r].(max := db.learned[r].value) else db.caps[r],
        learned := db.learned - gone,
        blocks := db.blocks - gone)
  }

  predicate CapAllows(db: Db, now: Time, s: Slot, r: Resource)
    requires r in db.caps
  {
    s.pool in db.caps[r].pools ==>
      && CooledDown(db, now, r)
      && |if s.status == Available then ClaimedIn(db.slots, db.caps[r].pools)
          else LiveIn(db.slots, now, db.caps[r].pools)| < db.caps[r].max
  }

  predicate Candidate(db: Db, w: Worker, now: Time, only: Option<set<Pool>>, s: Slot) {
    && (Ready(db.slots, s) || Stale(s, w, now))
    && Eligible(db, w, only, s)
    && (forall r | r in db.caps :: CapAllows(db, now, s, r))
  }

  function ReadyCandidates(db: Db, w: Worker, now: Time, only: Option<set<Pool>>): set<nat> {
    set i | 0 <= i < |db.slots| && db.slots[i].status == Available && Candidate(db, w, now, only, db.slots[i])
  }

  function StaleCandidates(db: Db, w: Worker, now: Time, only: Option<set<Pool>>): set<nat> {
    set i | 0 <= i < |db.slots| && db.slots[i].status == Claimed && Candidate(db, w, now, only, db.slots[i])
  }

  // ---- The choice ----

  datatype Score = Score(a: int, b: int, c: int, d: int)

  predicate Less(x: Score, y: Score) {
    x.a < y.a || (x.a == y.a && (x.b < y.b || (x.b == y.b && (x.c < y.c || (x.c == y.c && x.d < y.d)))))
  }

  /** The row below `n` with the least score. */
  function Best(n: nat, among: set<nat>, score: nat -> Score): (r: Option<nat>)
    ensures r.None? <==> forall i: nat | i < n :: i !in among
    ensures r.Some? ==> r.value < n && r.value in among
    ensures r.Some? ==> forall i: nat | i < n && i in among :: !Less(score(i), score(r.value))
  {
    if n == 0 then None
    else
      var front := Best(n - 1, among, score);
      if n - 1 !in among then front
      else if front.None? || Less(score(n - 1), score(front.value)) then Some(n - 1)
      else front
  }

  function LastDispatch(db: Db, pool: Pool): nat {
    if pool in db.dispatch then db.dispatch[pool] else 0
  }

  /** A slot stored without a task key counts as due while some review was never published. */
  predicate Overdue(db: Db, s: Slot) {
    exists i | 0 <= i < |db.reviews| ::
      db.reviews[i].latest == if db.run.planned || s.key.Named? then Some(s.key) else None
  }

  function UrgentScore(db: Db, w: Worker, now: Time): nat -> Score {
    (i: nat) => if i < |db.slots| && db.slots[i].lastSeen.Some?
         then Score(db.slots[i].lastSeen.value, RescueLoad(db.slots, w, now, i, |db.slots|),
                    LastDispatch(db, db.slots[i].pool), i)
         else Score(0, 0, 0, i)
  }

  function ReadyScore(db: Db, now: Time): nat -> Score {
    (i: nat) => if i < |db.slots|
         then Score(if Overdue(db, db.slots[i]) then 0 else 1, LiveLoad(db.slots, now, db.slots[i].pool),
                    LastDispatch(db, db.slots[i].pool), i)
         else Score(0, 0, 0, i)
  }

  function StaleScore(db: Db, w: Worker, now: Time): nat -> Score {
    (i: nat) => if i < |db.slots|
         then Score(RescueLoad(db.slots, w, now, i, |db.slots|), LastDispatch(db, db.slots[i].pool), i, 0)
         else Score(0, 0, i, 0)
  }

  function Urgent(db: Db, now: Time, stale: set<nat>): set<nat> {
    set i | i in stale && i < |db.slots| && db.slots[i].lastSeen.Some?
      && now - db.slots[i].lastSeen.value >= PRIORITY_RECLAIM_SECONDS
  }

  function Critical(db: Db, w: Worker, now: Time, stale: set<nat>, best: nat): set<nat>
    requires best < |db.slots|
  {
    set i | i in stale && i < |db.slots| && Rescues(db.slots, w, now, i)
      && RescueLoad(db.slots, w, now, i, |db.slots|) < LiveLoad(db.slots, now, db.slots[best].pool)
  }

  /** The slot a claim takes among the candidates, if any. */
  function Choice(db: Db, w: Worker, now: Time, only: Option<set<Pool>>): (r: Option<nat>)
    ensures r.Some? ==> r.value < |db.slots| && Candidate(db, w, now, only, db.slots[r.value])
    ensures r.None? ==> forall i | 0 <= i < |db.slots| :: !Candidate(db, w, now, only, db.slots[i])
  {
    var n := |db.slots|;
    var ready := ReadyCandidates(db, w, now, only);
    var stale := StaleCandidates(db, w, now, only);
    var urgent := Best(n, Urgent(db, now, stale), UrgentScore(db, w, now));
    if urgent.Some? then urgent
    else
      var best := Best(n, ready, ReadyScore(db, now));
      if best.None? then
        assert forall i: nat | i < n && Candidate(db, w, now, only, db.slots[i]) :: i in ready || i in stale;
        Best(n, stale, StaleScore(db, w, now))
      else
        var critical := Best(n, Critical(db, w, now, stale, best.value), StaleScore(db, w, now));
        if critical.Some? && !Overdue(db, db.slots[best.value]) then critical else best
  }

  /** The largest sequence number handed out so far. */
  ghost function Highest(dispatch: map<Pool, nat>): (r: nat)
    ensures forall p | p in dispatch :: dispatch[p] <= r
    ensures r == 0 || exists p :: p in dispatch && dispatch[p] == r
  {
    HighestOf(dispatch, dispatch.Keys)
  }

  ghost function HighestOf(dispatch: map<Pool, nat>, pools: set<Pool>): (r: nat)
    requires pools <= dispatch.Keys
    ensures forall p | p in pools :: dispatch[p] <= r
    ensures r == 0 || exists p :: p in pools && dispatch[p] == r
    decreases |pools|
  {
    if pools == {} then 0
    else
      var p :| p in pools;
      var rest := HighestOf(dispatch, pools - {p});
      if dispatch[p] >= rest then dispatch[p] else rest
  }

  /** Learned ceilings are reset on every attempt; the rotation advances only when a slot is taken. */
  ghost function Choose(db: Db, w: Worker, now: Time, only: Option<set<Pool>>): (r: (Db, Option<nat>))
    ensures r.1.Some? ==> r.1.value < |r.0.slots|
  {
    var reset := ResetLearned(db, now);
    var pick := Choice(reset, w, now, only);
    (Advanced(reset, pick), pick)
  }

  /** The pool of the chosen slot moves to the end of the rotation. */
  ghost function Advanced(db: Db, pick: Option<nat>): Db
    requires pick.Some? ==> pick.value < |db.slots|
  {
    if pick.None? then db
    else db.(dispatch := db.dispatch[db.slots[pick.value].pool := 1 + Highest(db.dispatch)])
  }
}
