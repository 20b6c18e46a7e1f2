/** A reachable run whose recovery is refused: the only worker left used the request key that it would inherit. */
module RefusedRecovery {
  import opened Prelude
  import opened Tables
  import opened Scheduling
  import opened Transactions
  import opened Protocol
  import opened Scenario
  import opened LostElection

  const OF_SENDER := Delegation("S", "k", None, "work", Offered, None, None)
  const OF_SECOND := Delegation("W", "k", None, "other work", Offered, None, None)
  const LOST_S := Reclaim(0, "S", 1, Some("a"), None, None, None, None)
  const DONE_W := Finished(Lease(1, "W", 1, Some("b")), "W", "c")

  lemma SenderDelegates() returns (run: seq<Event>)
    ensures Reaches(START, run, Rows([SENDER, Lease(1, "W", 1, Some("b"))], [], [OF_SENDER], ["S", "W"]))
  {
    run := SecondStarts();
    HeldBy([SENDER, Lease(1, "W", 1, Some("b"))], 0, "S");
    run := Then(START, run, DoDelegate("S", "k", "work", None));
    assert Execute(START, run).db.delegations == [OF_SENDER];
  }

  /** Both workers delegated under the same request key of their own. */
  lemma BothDelegate() returns (run: seq<Event>)
    ensures Reaches(START, run, Rows([SENDER, Lease(1, "W", 1, Some("b"))], [], [OF_SENDER, OF_SECOND], ["S", "W"]))
  {
    run := SenderDelegates();
    HeldBy([SENDER, Lease(1, "W", 1, Some("b"))], 1, "W");
    assert RequestOf([OF_SENDER], "W", "k").None?;
    run := Then(START, run, DoDelegate("W", "k", "other work", None));
    assert Execute(START, run).db.delegations == [OF_SENDER, OF_SECOND];
  }

  lemma FirstByName(slots: seq<Slot>)
    requires |slots| == 2 && slots[0].key == Unnamed(0)
    ensures SlotByName(slots, "task-1") == Some(0)
  {
    assert Decimal(1) == "1" && "task-" + "1" == "task-1";
  }

  lemma SenderIsReclaimed() returns (run: seq<Event>)
    ensures Reaches(START, run, Rows([Free(0, 1), Lease(1, "W", 1, Some("b"))], [LOST_S], [OF_SENDER, OF_SECOND], ["S", "W"]))
  {
    run := BothDelegate();
    FirstByName(Execute(START, run).db.slots);
    run := Then(START, run, DoReclaim("task-1", true));
    assert Execute(START, run).db.slots == [Free(0, 1), Lease(1, "W", 1, Some("b"))];
  }

  /** What is left: the lost slot, and a second worker that finished its own and could take it. */
  predicate LeftOver(db: Db) {
    && db.run == CreateUnplanned("p").run && db.slots == [Free(0, 1), DONE_W] && db.reclaims == [LOST_S]
    && db.delegations == [OF_SENDER, OF_SECOND]
    && db.retired == {} && db.stopOrders == {} && db.caps == map[] && db.learned == map[] && db.blocks == map[]
    && db.operators == map[] && db.reviews == [] && db.dispatch == map[] && "W" in db.workers
  }

  lemma SecondFinishes() returns (run: seq<Event>)
    ensures LeftOver(Execute(START, run).db)
  {
    run := SenderIsReclaimed();
    var db := Execute(START, run).db;
    HeldBy(db.slots, 1, "W");
    run := Then(START, run, DoFinish("W", 1, 1, "c"));
    assert db.slots[1 := DONE_W] == [Free(0, 1), DONE_W];
    assert Execute(START, run).db.slots[0].status != Done;
  }

  lemma NothingIsDue(db: Db, now: Time)
    requires LeftOver(db)
    ensures PublishDueReviews(db, now) == db && ResetLearned(db, now) == db && HeldSlot(db.slots, "W").None?
  {
    assert Recovered(db, now) == {};
  }

  lemma OnlyCandidate(db: Db, now: Time)
    requires LeftOver(db)
    ensures Choice(db, "W", now, None) == Some(0)
  {
    assert Candidate(db, "W", now, None, db.slots[0]);
  }

  /** The lost slot is what a claim chooses. */
  lemma LostSlotIsChosen(db: Db, now: Time)
    requires LeftOver(db)
    ensures PublishDueReviews(db, now) == db && HeldSlot(db.slots, "W").None?
    ensures Choose(db, "W", now, None) == (db.(dispatch := map["default" := 1]), Some(0))
  {
    NothingIsDue(db, now);
    OnlyCandidate(db, now);
    FirstChoice(db, "W", 0, now);
  }

  lemma KeysCollide(db: Db, row: nat)
    requires db.reclaims == [LOST_S] && db.delegations == [OF_SENDER, OF_SECOND] && row == 0
    ensures Adopt(db, "W", row).None?
  {
    assert LatestReclaim(db.reclaims, row) == Some(0);
    var moved := TransferAll(db.delegations, "S", "W");
    assert (moved[0].sender, moved[0].requestKey) == (moved[1].sender, moved[1].requestKey);
  }

  lemma LeaseIsRolledBack(db: Db, wait: bool, now: Time)
    requires LeftOver(db)
    ensures Reserve(db, "W", None, wait, now).None?
  {
    LostSlotIsChosen(db, now);
    var chosen := db.(dispatch := map["default" := 1]);
    var leased := TakeSlot(chosen, 0, "W", now).value;
    assert NewLease(db, "W", None, wait, now) == Some((leased, Some(0)));
    var renewed := leased.(slots := leased.slots[0 := Renewed(leased.slots[0], now)]);
    KeysCollide(Register(renewed, "W"), 0);
    assert Conclude(leased, "W", 0, now).None?;
  }

  /** A claim at this time chooses the lost slot and is rolled back. */
  ghost predicate Refused(db: Db, wait: bool, now: Time) {
    Choose(PublishDueReviews(db, now), "W", now, None).1 == Some(0) && Reserve(db, "W", None, wait, now).None?
  }

  lemma IsRefused(db: Db, wait: bool, now: Time)
    requires LeftOver(db)
    ensures Refused(db, wait, now)
  {
    LostSlotIsChosen(db, now);
    LeaseIsRolledBack(db, wait, now);
  }

  /** From the creation of a run: an open run with a lost slot that a worker holding nothing may claim, and that its claim
      chooses, at any time, but every such claim is rolled back. */
  lemma RecoveryCanBeRefused() returns (start: System, run: seq<Event>)
    ensures Initial(start) && Execute(start, run).db.run.state == Open && HeldSlot(Execute(start, run).db.slots, "W").None?
    ensures forall wait, now :: Refused(Execute(start, run).db, wait, now)
  {
    start := START;
    InitialKeeps(start);
    run := SecondFinishes();
    var db := Execute(START, run).db;
    NothingIsDue(db, 0);
    forall wait, now ensures Refused(db, wait, now) { IsRefused(db, wait, now); }
  }
}
