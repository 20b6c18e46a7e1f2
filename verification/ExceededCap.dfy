/** A reachable run that exceeds a cap: a delegation is claimed as a slot of its own while the cap is used up. */
module ExceededCap {
  import opened Prelude
  import opened Graph
  import opened Tables
  import opened TaskGraph
  import opened Scheduling
  import opened Transactions
  import opened RowChanges
  import opened Protocol
  import opened Capacity
  import opened Scenario

  const ONLY_DRAFT := Draft(None, "default", [], [], [])
  const ONLY_TASK := Task(Named("task-1"), "default", [], [], [])
  const CAPS: map<Resource, Cap> := map["gpu" := Cap(1, {"default"})]
  const OFFER := Delegation("S", "k", None, "work", Offered, None, None)

  function Planned(slots: seq<Slot>): Db {
    EmptyDb("p", true, slots, None)
  }

  function Started(): System {
    System(Planned([FreshSlot(ONLY_TASK)]), {})
  }

  function LeasedTask(generation: nat, start: Option<Commit>): Slot {
    FreshSlot(ONLY_TASK).(status := Claimed, owner := Some("S"), start := start, generation := generation, lastSeen := Some(1))
  }

  function CappedRows(slots: seq<Slot>, delegations: seq<Delegation>, workers: seq<Worker>): Db {
    Planned(slots).(caps := CAPS, delegations := delegations, workers := workers,
                    dispatch := if workers == [] then map[] else map["default" := 1])
  }

  lemma StartIsInitial()
    ensures Initial(Started()) && WithinCaps(Started().db)
  {
    var none: seq<Task> := [];
    assert SoundTasks(none) by { forall k ensures !Precedes(GraphOf(none), k, k) { OnlyKnownTasksWait(GraphOf(none), k, k); } }
    LeafTaskSound(none, ONLY_TASK);
    assert Decimal(1) == "1" && "task-" + "1" == "task-1";
    var drafts := [ONLY_DRAFT];
    assert WellFormed(ONLY_DRAFT, 0);
    assert SpecifiedAll(drafts) == [ONLY_TASK] == none + [ONLY_TASK];
    assert FreshSlots([ONLY_TASK]) == [FreshSlot(ONLY_TASK)];
    assert CreateRun("p", drafts, false) == Some(Started().db);
  }

  lemma CapIsSet() returns (run: seq<Event>)
    ensures Reaches(Started(), run, CappedRows([FreshSlot(ONLY_TASK)], [], []))
  {
    var db := Started().db;
    assert Execute(Started(), []).db == db;
    assert db.slots[0].pool == "default";
    assert db.caps["gpu" := Cap(1, {"default"})] == CAPS;
    run := Then(Started(), [], DoSetCap("gpu", 1, {"default"}));
  }

  lemma NothingLearned(db: Db)
    requires db.learned == map[] && db.blocks == map[] && db.reviews == [] && db.operators == map[]
    ensures PublishDueReviews(db, 1) == db && ResetLearned(db, 1) == db
  {
    assert Recovered(db, 1) == {};
  }

  lemma FirstClaim(db: Db)
    requires db == CappedRows([FreshSlot(ONLY_TASK)], [], [])
    ensures Reserve(db, "S", None, false, 1) == Some((CappedRows([LeasedTask(1, None)], [], ["S"]), Some(0)))
  {
    NothingLearned(db);
    assert ClaimedIn(db.slots, {"default"}) == {};
    assert Candidate(db, "S", 1, None, db.slots[0]);
    assert Choice(db, "S", 1, None) == Some(0);
    FirstChoice(db, "S", 0, 1);
    var mid := db.(dispatch := map["default" := 1], slots := [LeasedTask(1, None)]);
    assert db.slots[0 := Leased(db.slots[0], "S", 1)] == mid.slots;
    assert NewLease(db, "S", None, false, 1) == Some((mid, Some(0)));
    assert mid.slots[0 := Renewed(mid.slots[0], 1)] == mid.slots;
    assert mid.workers + ["S"] == ["S"];
    NewReservation(db, "S", mid, 0, CappedRows([LeasedTask(1, None)], [], ["S"]));
  }

  /** The only place under the cap is taken. */
  lemma CapIsTaken() returns (run: seq<Event>)
    ensures Reaches(Started(), run, CappedRows([LeasedTask(1, Some("a"))], [], ["S"]))
  {
    StartIsInitial();
    run := CapIsSet();
    var db := CappedRows([FreshSlot(ONLY_TASK)], [], []);
    FirstClaim(db);
    var reserved := CappedRows([LeasedTask(1, None)], [], ["S"]);
    HeldBy(reserved.slots, 0, "S");
    run := Starts(Started(), run, db, reserved, "S", 0, "a");
    assert reserved.slots[0 := LeasedTask(1, Some("a"))] == [LeasedTask(1, Some("a"))];
  }

  lemma CapIsUsedUp() returns (run: seq<Event>)
    ensures Reaches(Started(), run, CappedRows([LeasedTask(1, Some("a"))], [OFFER], ["S"]))
  {
    run := CapIsTaken();
    HeldBy([LeasedTask(1, Some("a"))], 0, "S");
    run := Then(Started(), run, DoDelegate("S", "k", "work", None));
    assert Execute(Started(), run).db.delegations == [OFFER];
  }

  lemma NothingElseToClaim(db: Db)
    requires db == CappedRows([LeasedTask(1, Some("a"))], [OFFER], ["S"])
    ensures HeldSlot(db.slots, "W").None? && Choose(PublishDueReviews(db, 1), "W", 1, None) == (db, None)
  {
    NothingLearned(db);
    assert !Candidate(db, "W", 1, None, db.slots[0]);
  }

  lemma OfferIsClaimed(db: Db)
    requires db == CappedRows([LeasedTask(1, Some("a"))], [OFFER], ["S"])
    ensures var r := Reserve(db, "W", None, false, 1);
            r.Some? && r.value.0.caps == CAPS && |r.value.0.slots| == 2
            && forall i | 0 <= i < 2 :: r.value.0.slots[i].status == Claimed && r.value.0.slots[i].pool == "default"
  {
    NothingElseToClaim(db);
    assert DelegationKey(1).name[0] != "task-1"[0];
    assert PoolOffer(db.delegations, "W", 0) == Some(0);
    var taken := ClaimOffer(db, "W", 0, 1).value;
    assert NewLease(db, "W", None, false, 1) == Some((taken.0, Some(1)));
    assert LatestReclaim(db.reclaims, 1).None?;
  }

  lemma OneIsWithin(slots: seq<Slot>)
    requires |slots| == 1
    ensures WithinCap(slots, CAPS["gpu"])
  {
    SmallerSet(ClaimedIn(slots, {"default"}), {0});
  }

  lemma TwoAreTooMany(slots: seq<Slot>)
    requires |slots| == 2 && forall i | 0 <= i < 2 :: slots[i].status == Claimed && slots[i].pool == "default"
    ensures !WithinCap(slots, CAPS["gpu"])
  {
    assert ClaimedIn(slots, {"default"}) == {0, 1};
  }

  lemma ClaimExceeds(db: Db)
    requires db == CappedRows([LeasedTask(1, Some("a"))], [OFFER], ["S"])
    ensures WithinCaps(db)
    ensures Reserve(db, "W", None, false, 1).Some? && !WithinCaps(Reserve(db, "W", None, false, 1).value.0)
  {
    OneIsWithin(db.slots);
    OfferIsClaimed(db);
    var next := Reserve(db, "W", None, false, 1).value.0;
    TwoAreTooMany(next.slots);
    assert "gpu" in next.caps;
  }

  /** Every cap is respected, the claim commits, and then a cap is not. */
  ghost predicate Exceeds(s: System, w: Worker, now: Time) {
    && WithinCaps(s.db) && Reserve(s.db, w, None, false, now).Some?
    && !WithinCaps(Reserve(s.db, w, None, false, now).value.0)
  }

  lemma ClaimOfSecond(s: System)
    requires s.db == CappedRows([LeasedTask(1, Some("a"))], [OFFER], ["S"])
    ensures Exceeds(s, "W", 1)
  {
    ClaimExceeds(s.db);
  }

  /** From the creation of a run a state is reached in which one more claim exceeds a cap. */
  lemma CapCanBeExceeded() returns (start: System, run: seq<Event>)
    ensures Initial(start) && Exceeds(Execute(start, run), "W", 1)
  {
    start := Started();
    StartIsInitial();
    run := CapIsUsedUp();
    ClaimOfSecond(Execute(start, run));
  }
}
