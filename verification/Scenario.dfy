/** Building concrete runs of the protocol step by step. */
module Scenario {
  import opened Prelude
  import opened Graph
  import opened Tables
  import opened TaskGraph
  import opened Scheduling
  import opened Transactions
  import opened Invariant
  import opened Protocol

  /** The database this run reaches. */
  ghost predicate Reaches(start: System, run: seq<Event>, db: Db) {
    Execute(start, run).db == db
  }

  lemma Sound(start: System, run: seq<Event>)
    requires Initial(start)
    ensures SystemInv(Execute(start, run))
  {
    InitialKeeps(start);
    AlwaysSound(start, run);
  }

  lemma Then(start: System, run: seq<Event>, a: Action) returns (next: seq<Event>)
    requires var s := Execute(start, run); Enabled(s, a) && Apply(s.db, a, 1).Some?
    ensures var s := Execute(start, run);
            Execute(start, next) == System(Apply(s.db, a, 1).value, s.flights + Launched(s, a, 1))
  {
    next := run + [Event(a, 1)];
    assert next[..|next| - 1] == run;
  }

  lemma SomethingIn(s: seq<nat>)
    ensures s != [] ==> exists i: nat :: i in s
  {
    if s != [] { assert s[0] in s; }
  }

  lemma NothingToApply(db: Db, f: Flight)
    requires Inv(db) && f.row < |db.slots| && db.slots[f.row].dependsOn == []
    ensures ReadPlan(db, f).Some? && ReadPlan(db, f).value.sources == []
  {
    var tasks := TasksOf(db.slots);
    var k := db.slots[f.row].key;
    var g := GraphOf(tasks);
    GraphAt(tasks, f.row);
    assert tasks[f.row].key == k;
    PredecessorsWithin(g, {}, k);
    DispatchOrderIsTopological(tasks);
    assert PredecessorKeys(tasks, k) == {};
    var ancestors := Select(tasks, DispatchOrder(tasks), {});
    assert forall i: nat :: i !in ancestors;
    SomethingIn(ancestors);
  }

  lemma Reserved(start: System, run: seq<Event>, db: Db, reserved: Db, w: Worker, row: nat) returns (next: seq<Event>)
    requires Reaches(start, run, db) && Reserve(db, w, None, false, 1) == Some((reserved, Some(row)))
    requires row < |reserved.slots| && reserved.slots[row].start.None?
    ensures Reaches(start, next, reserved) && Flight(w, row, reserved.slots[row].generation, None) in Execute(start, next).flights
  {
    next := Then(start, run, DoReserve(w, None, false));
  }

  /** A claim of a task without dependencies goes through: reservation, plan and binding. */
  lemma Starts(start: System, run: seq<Event>, db: Db, reserved: Db, w: Worker, row: nat, commit: Commit) returns (next: seq<Event>)
    requires Initial(start) && Reaches(start, run, db) && Reserve(db, w, None, false, 1) == Some((reserved, Some(row)))
    requires row < |reserved.slots| && reserved.slots[row].start.None? && reserved.slots[row].dependsOn == []
    requires HeldSlot(reserved.slots, w) == Some(row)
    ensures Reaches(start, next, reserved.(slots := reserved.slots[row := reserved.slots[row].(start := Some(commit))]))
  {
    var r1 := Reserved(start, run, db, reserved, w, row);
    next := Binds(start, r1, reserved, Flight(w, row, reserved.slots[row].generation, None), commit);
  }

  lemma Binds(start: System, run: seq<Event>, reserved: Db, f: Flight, commit: Commit) returns (next: seq<Event>)
    requires Initial(start) && Reaches(start, run, reserved) && f in Execute(start, run).flights
    requires f.row < |reserved.slots| && reserved.slots[f.row].dependsOn == []
    requires HeldSlot(reserved.slots, f.worker) == Some(f.row) && reserved.slots[f.row].generation == f.generation
    ensures Reaches(start, next, reserved.(slots := reserved.slots[f.row := reserved.slots[f.row].(start := Some(commit))]))
  {
    Sound(start, run);
    NothingToApply(reserved, f);
    var r2 := Then(start, run, DoPlan(f));
    var planned := f.(plan := ReadPlan(reserved, f));
    assert planned in Execute(start, r2).flights;
    next := Then(start, r2, DoBind(planned, commit));
  }

  /** A reservation of a held slot, for a worker not seen before and a slot never reclaimed. */
  lemma FirstReservation(db: Db, w: Worker, row: nat)
    requires HeldSlot(db.slots, w) == Some(row) && w !in db.retired && w !in db.stopOrders && w !in db.workers
    requires db.reclaims == []
    ensures Reserve(db, w, None, false, 1)
         == Some((db.(slots := db.slots[row := Renewed(db.slots[row], 1)], workers := db.workers + [w]), Some(row)))
  {
    assert LatestReclaim(db.reclaims, row).None?;
  }

  lemma HeldBy(slots: seq<Slot>, i: nat, w: Worker)
    requires i < |slots| && HoldsSlot(slots[i], w) && forall j | 0 <= j < |slots| && j != i :: !HoldsSlot(slots[j], w)
    ensures HeldSlot(slots, w) == Some(i)
  {
  }

  /** A reservation of a newly leased slot. */
  lemma NewReservation(db: Db, w: Worker, mid: Db, row: nat, reserved: Db)
    requires HeldSlot(db.slots, w).None? && w !in db.retired && w !in db.stopOrders && db.run.state == Open
    requires NewLease(db, w, None, false, 1) == Some((mid, Some(row))) && Conclude(mid, w, row, 1) == Some(reserved)
    ensures Reserve(db, w, None, false, 1) == Some((reserved, Some(row)))
  {
  }

  lemma NoRotationYet(pool: Pool)
    ensures var none: map<Pool, nat> := map[]; none[pool := 1 + Highest(none)] == map[pool := 1]
  {
    var none: map<Pool, nat> := map[];
    assert Highest(none) == 0;
  }

  /** The first dispatch of a run starts the rotation at the pool of the chosen slot. */
  lemma FirstChoice(db: Db, w: Worker, row: nat, now: Time)
    requires ResetLearned(db, now) == db && Choice(db, w, now, None) == Some(row) && db.dispatch == map[]
    requires row < |db.slots|
    ensures Choose(db, w, now, None) == (db.(dispatch := map[db.slots[row].pool := 1]), Some(row))
  {
    NoRotationYet(db.slots[row].pool);
    assert Choose(db, w, now, None).0 == db.(dispatch := db.dispatch[db.slots[row].pool := 1 + Highest(db.dispatch)]);
  }
}
