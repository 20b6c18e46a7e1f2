/** Who elects the integrator, and how an election can be lost. */
module Election {
  import opened Tables
  import opened Transactions
  import opened Protocol
  import opened Safety

  // ---- No lost election ----

  /** Delegation `id` is the only obligation left in a run whose slots are all done. */
  predicate LastObligation(db: Db, id: nat) {
    && db.slots != [] && AllDone(db.slots)
    && id < |db.delegations| && db.delegations[id].status == Taken
    && forall n | 0 <= n < |db.delegations| && n != id :: Settled(db.delegations[n])
  }

  /** A step leaves an open run with nothing left to do and nobody elected exactly when it is a delegation's
      completion written after the last slot was finished: the completing transaction does not elect. */
  lemma ElectionLostExactly(s: System, a: Action, now: Time)
    requires SystemInv(s) && Enabled(s, a) && Apply(s.db, a, now).Some?
    requires !ReadyToIntegrate(s.db)
    ensures ReadyToIntegrate(Apply(s.db, a, now).value) <==> a.DoComplete? && LastObligation(s.db, a.id)
  {
    ApplyKeeps(s, a, now);
    if a.DoComplete? {
      var prior, next := s.db, Apply(s.db, a, now).value;
      if next != prior {
        forall n | 0 <= n < |prior.delegations| && n != a.id ensures next.delegations[n] == prior.delegations[n] {}
        assert Settled(next.delegations[a.id]);
        if ReadyToIntegrate(next) {
          forall n | 0 <= n < |prior.delegations| && n != a.id ensures Settled(prior.delegations[n]) {
            assert Settled(next.delegations[n]);
          }
        }
      }
    }
  }

  /** Every completion is written while its recipient still holds a slot, as when reading and writing are one step. */
  ghost predicate PromptCompletions(s: System, run: seq<Event>) {
    forall n | 0 <= n < |run| && run[n].action.DoComplete? ::
      HeldSlot(Execute(s, run[..n]).db.slots, run[n].action.w).Some?
  }

  /** In such runs no reachable state is open with every slot done and every delegation settled: whichever finish,
      late finish or cancellation settles the last obligation elects the integrator in the same transaction. */
  lemma {:induction false} NoElectionIsLost(s: System, run: seq<Event>)
    requires Initial(s) && PromptCompletions(s, run)
    ensures !ReadyToIntegrate(Execute(s, run).db)
    decreases |run|
  {
    if run == [] {
      NothingDoneInitially(s);
    } else {
      var front := run[..|run| - 1];
      forall n | 0 <= n < |front| ensures front[..n] == run[..n] {}
      NoElectionIsLost(s, front);
      ReachableSound(s, front);
      var mid := Execute(s, front);
      var e := run[|run| - 1];
      if Enabled(mid, e.action) && Apply(mid.db, e.action, e.now).Some? {
        ElectionLostExactly(mid, e.action, e.now);
      }
    }
  }

  lemma NothingDoneInitially(s: System)
    requires Initial(s)
    ensures !ReadyToIntegrate(s.db)
  {
    if s.db.slots != [] { assert s.db.slots[0].status == Available; }
  }
}
