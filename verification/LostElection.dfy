/** A reachable run that loses its election: a completion written after the last slot was finished. */
module LostElection {
  import opened Prelude
  import opened Tables
  import opened Scheduling
  import opened Transactions
  import opened Protocol
  import opened Scenario

  const START := System(CreateUnplanned("p"), {})

  function Lease(n: nat, w: Worker, generation: nat, start: Option<Commit>): Slot {
    FreshSlot(Task(Unnamed(n), "default", [], [], [])).(status := Claimed, owner := Some(w), start := start,
      generation := generation, lastSeen := if generation == 0 then None else Some(1))
  }

  function Free(n: nat, generation: nat): Slot {
    FreshSlot(Task(Unnamed(n), "default", [], [], [])).(generation := generation)
  }

  function Rows(slots: seq<Slot>, reclaims: seq<Reclaim>, delegations: seq<Delegation>, workers: seq<Worker>): Db {
    CreateUnplanned("p").(slots := slots, reclaims := reclaims, delegations := delegations, workers := workers,
                          dispatch := if |workers| < 3 then map[] else map["default" := 1])
  }

  const SENDER := Lease(0, "S", 1, Some("a"))
  const LOST_W := Reclaim(1, "W", 1, Some("b"), None, None, None, None)
  const LOST_R := Reclaim(1, "R", 2, Some("c"), None, None, None, None)
  const OFFER := Delegation("S", "k", Some("R"), "work", Offered, None, None)

  lemma SenderReserves(db: Db)
    requires db == Rows([Lease(0, "S", 0, None)], [], [], [])
    ensures Reserve(db, "S", None, false, 1) == Some((Rows([Lease(0, "S", 1, None)], [], [], ["S"]), Some(0)))
  {
    HeldBy(db.slots, 0, "S");
    FirstReservation(db, "S", 0);
    assert db.slots[0 := Renewed(db.slots[0], 1)] == [Lease(0, "S", 1, None)];
    assert db.workers + ["S"] == ["S"];
  }

  lemma SenderStarts() returns (run: seq<Event>)
    ensures Reaches(START, run, Rows([SENDER], [], [], ["S"]))
  {
    assert Execute(START, []).db == Rows([], [], [], []);
    run := Then(START, [], DoJoin("S"));
    var db := Execute(START, run).db;
    assert db == Rows([Lease(0, "S", 0, None)], [], [], []);
    SenderReserves(db);
    var reserved := Rows([Lease(0, "S", 1, None)], [], [], ["S"]);
    run := Starts(START, run, db, reserved, "S", 0, "a");
    assert reserved.slots[0 := SENDER] == [SENDER];
  }

  lemma SecondReserves(db: Db)
    requires db == Rows([SENDER, Lease(1, "W", 0, None)], [], [], ["S"])
    ensures Reserve(db, "W", None, false, 1)
         == Some((Rows([SENDER, Lease(1, "W", 1, None)], [], [], ["S", "W"]), Some(1)))
  {
    HeldBy(db.slots, 1, "W");
    FirstReservation(db, "W", 1);
    assert db.slots[1 := Renewed(db.slots[1], 1)] == [SENDER, Lease(1, "W", 1, None)];
    assert db.workers + ["W"] == ["S", "W"];
  }

  lemma SecondStarts() returns (run: seq<Event>)
    ensures Reaches(START, run, Rows([SENDER, Lease(1, "W", 1, Some("b"))], [], [], ["S", "W"]))
  {
    run := SenderStarts();
    run := Then(START, run, DoJoin("W"));
    var db := Execute(START, run).db;
    assert db == Rows([SENDER, Lease(1, "W", 0, None)], [], [], ["S"]);
    SecondReserves(db);
    var reserved := Rows([SENDER, Lease(1, "W", 1, None)], [], [], ["S", "W"]);
    run := Starts(START, run, db, reserved, "W", 1, "b");
    assert reserved.slots[1 := Lease(1, "W", 1, Some("b"))] == [SENDER, Lease(1, "W", 1, Some("b"))];
  }

  lemma SecondByName(slots: seq<Slot>)
    requires |slots| == 2 && slots[0].key == Unnamed(0) && slots[1].key == Unnamed(1)
    ensures SlotByName(slots, "task-2") == Some(1)
  {
    assert Decimal(1) == "1" && Decimal(2) == "2";
    assert "task-" + "1" == "task-1" && "task-" + "2" == "task-2";
    assert "task-1"[5] != "task-2"[5];
    assert NamedFrom(slots, "task-2", 1) == Some(1);
  }

  lemma SecondIsReclaimed() returns (run: seq<Event>)
    ensures Reaches(START, run, Rows([SENDER, Free(1, 1)], [LOST_W], [], ["S", "W"]))
  {
    run := SecondStarts();
    SecondByName(Execute(START, run).db.slots);
    run := Then(START, run, DoReclaim("task-2", true));
    assert Execute(START, run).db.slots == [SENDER, Free(1, 1)];
  }

  lemma NothingIsDue(db: Db)
    requires db == Rows([SENDER, Free(1, 1)], [LOST_W], [], ["S", "W"])
    ensures PublishDueReviews(db, 1) == db && ResetLearned(db, 1) == db
  {
    assert Recovered(db, 1) == {};
  }

  /** The only candidate is the slot that was taken back. */
  lemma OnlyCandidate(db: Db)
    requires db == Rows([SENDER, Free(1, 1)], [LOST_W], [], ["S", "W"])
    ensures Choice(db, "R", 1, None) == Some(1)
  {
    assert Candidate(db, "R", 1, None, db.slots[1]);
  }

  lemma RecipientChooses(db: Db)
    requires db == Rows([SENDER, Free(1, 1)], [LOST_W], [], ["S", "W"])
    ensures Choose(PublishDueReviews(db, 1), "R", 1, None) == (db.(dispatch := map["default" := 1]), Some(1))
  {
    NothingIsDue(db);
    OnlyCandidate(db);
    FirstChoice(db, "R", 1, 1);
  }

  const ADOPTED_W := LOST_W.(adoptedBy := Some("R"))

  function LeasedToRecipient(): Db {
    Rows([SENDER, Lease(1, "R", 2, None)], [LOST_W], [], ["S", "W"]).(dispatch := map["default" := 1])
  }

  lemma RecipientConcludes()
    ensures Conclude(LeasedToRecipient(), "R", 1, 1)
         == Some(Rows([SENDER, Lease(1, "R", 2, None)], [ADOPTED_W], [], ["S", "W", "R"]))
  {
    var leased := LeasedToRecipient();
    assert leased.slots[1 := Renewed(leased.slots[1], 1)] == leased.slots;
    assert Register(leased, "R").workers == ["S", "W", "R"];
    AdoptsLost(Register(leased, "R"));
  }

  lemma RecipientLeases(db: Db)
    requires db == Rows([SENDER, Free(1, 1)], [LOST_W], [], ["S", "W"])
    ensures NewLease(db, "R", None, false, 1) == Some((LeasedToRecipient(), Some(1)))
  {
    RecipientChooses(db);
    assert db.slots[1 := Leased(db.slots[1], "R", 1)] == [SENDER, Lease(1, "R", 2, None)];
  }

  lemma RecipientReserves(db: Db)
    requires db == Rows([SENDER, Free(1, 1)], [LOST_W], [], ["S", "W"])
    ensures Reserve(db, "R", None, false, 1)
         == Some((Rows([SENDER, Lease(1, "R", 2, None)], [ADOPTED_W], [], ["S", "W", "R"]), Some(1)))
  {
    RecipientLeases(db);
    RecipientConcludes();
    NewReservation(db, "R", LeasedToRecipient(), 1,
                   Rows([SENDER, Lease(1, "R", 2, None)], [ADOPTED_W], [], ["S", "W", "R"]));
  }

  lemma AdoptsLost(db: Db)
    requires db.reclaims == [LOST_W] && db.delegations == []
    ensures Adopt(db, "R", 1) == Some(db.(reclaims := [ADOPTED_W]))
  {
    assert LatestReclaim(db.reclaims, 1) == Some(0);
    assert TransferAll(db.delegations, "W", "R") == [];
    assert db.reclaims[0 := ADOPTED_W] == [ADOPTED_W];
  }

  lemma RecipientStarts() returns (run: seq<Event>)
    ensures Reaches(START, run, Rows([SENDER, Lease(1, "R", 2, Some("c"))], [ADOPTED_W], [], ["S", "W", "R"]))
  {
    run := SecondIsReclaimed();
    var db := Rows([SENDER, Free(1, 1)], [LOST_W], [], ["S", "W"]);
    RecipientReserves(db);
    var reserved := Rows([SENDER, Lease(1, "R", 2, None)], [ADOPTED_W], [], ["S", "W", "R"]);
    HeldBy(reserved.slots, 1, "R");
    run := Starts(START, run, db, reserved, "R", 1, "c");
    assert reserved.slots[1 := Lease(1, "R", 2, Some("c"))] == [SENDER, Lease(1, "R", 2, Some("c"))];
  }

  lemma RecipientIsOffered() returns (run: seq<Event>)
    ensures Reaches(START, run, Rows([SENDER, Lease(1, "R", 2, Some("c"))], [ADOPTED_W], [OFFER], ["S", "W", "R"]))
  {
    run := RecipientStarts();
    var slots := [SENDER, Lease(1, "R", 2, Some("c"))];
    HeldBy(slots, 0, "S");
    HeldBy(slots, 1, "R");
    run := Then(START, run, DoDelegate("S", "k", "work", Some("R")));
    assert Execute(START, run).db.delegations == [OFFER];
  }

  lemma RecipientAccepts() returns (run: seq<Event>)
    ensures Reaches(START, run, Rows([SENDER, Lease(1, "R", 2, Some("c"))], [ADOPTED_W], [OFFER.(status := Taken)], ["S", "W", "R"]))
  {
    run := RecipientIsOffered();
    HeldBy([SENDER, Lease(1, "R", 2, Some("c"))], 1, "R");
    run := Then(START, run, DoAccept("R", 0));
    assert Execute(START, run).db.delegations == [OFFER.(status := Taken)];
  }

  lemma RecipientIsReclaimed() returns (run: seq<Event>)
    ensures Reaches(START, run, Rows([SENDER, Free(1, 2)], [ADOPTED_W, LOST_R], [OFFER.(status := Taken)], ["S", "W", "R"]))
  {
    run := RecipientAccepts();
    SecondByName(Execute(START, run).db.slots);
    run := Then(START, run, DoReclaim("task-2", true));
    assert Execute(START, run).db.slots == [SENDER, Free(1, 2)];
  }

  lemma SecondFinishesLate() returns (run: seq<Event>)
    ensures var db := Execute(START, run).db;
            && db.slots == [SENDER, Finished(Free(1, 2), "W", "d")] && db.delegations == [OFFER.(status := Taken)]
            && db.run == CreateUnplanned("p").run
  {
    run := RecipientIsReclaimed();
    var db := Execute(START, run).db;
    assert LeaseRecord(db.reclaims, 1, "W", 1) == Some(0);
    assert Acceptance(db, 1, "W");
    run := Then(START, run, DoFinishLate("W", 1, 1, "d"));
    assert db.slots[1 := Finished(Free(1, 2), "W", "d")] == [SENDER, Finished(Free(1, 2), "W", "d")];
    assert Execute(START, run).db.slots[0].status != Done;
  }

  lemma SenderFinishes() returns (run: seq<Event>)
    ensures var db := Execute(START, run).db;
            && db.slots == [Finished(SENDER, "S", "e"), Finished(Free(1, 2), "W", "d")]
            && db.delegations == [OFFER.(status := Taken)] && db.run == CreateUnplanned("p").run
  {
    run := SecondFinishesLate();
    var db := Execute(START, run).db;
    HeldBy(db.slots, 0, "S");
    run := Then(START, run, DoFinish("S", 0, 1, "e"));
    assert db.slots[0 := Finished(SENDER, "S", "e")] == [Finished(SENDER, "S", "e"), Finished(Free(1, 2), "W", "d")];
    assert !Settled(db.delegations[0]);
  }

  /** From the creation of a run: everything is done and settled, the run is open, and nobody was elected.  The
      recipient's slot was reclaimed and finished by another worker between the two halves of its completion. */
  lemma ElectionCanBeLost() returns (start: System, run: seq<Event>)
    ensures Initial(start) && ReadyToIntegrate(Execute(start, run).db)
  {
    start := START;
    run := SenderFinishes();
    run := Then(START, run, DoComplete("R", 0, "done", None));
    var db := Execute(START, run).db;
    assert Settled(db.delegations[0]);
  }
}
