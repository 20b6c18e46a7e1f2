/** The protocol as a state machine: any number of workers interleave write transactions, and claims are
    several transactions with Git work between them. */
module Protocol {
  import opened Prelude
  import opened Graph
  import opened Tables
  import opened TaskGraph
  import opened Transactions
  import opened Invariant
  import opened Steps
  import opened ClaimSteps

  /** What a claim read before materializing its inputs. */
  datatype Plan = Plan(sources: seq<nat>, doneAtRead: set<nat>)

  /** A claim between its reservation and its binding. */
  datatype Flight = Flight(worker: Worker, row: nat, generation: nat, plan: Option<Plan>)

  datatype System = System(db: Db, flights: set<Flight>)

  datatype Action =
    | DoHeartbeat(w: Worker, generation: nat)
    | DoReclaim(key: string, force: bool)
    | DoCheckpoint(w: Worker, generation: nat, row: nat, start: Option<Commit>, commit: Commit)
    | DoPublish(w: Worker, generation: nat, batch: seq<Draft>)
    | DoRevise(w: Worker, generation: nat, key: string, changed: Draft, revision: nat)
    | DoSetCap(resource: Resource, max: nat, pools: set<Pool>)
    | DoResourceBlocked(w: Worker, row: nat, generation: nat, resource: Resource)
    | DoSetOperators(workers: set<Worker>, pools: set<Pool>)
    | DoSetReview(name: string, pool: Pool, interval: Time)
    | DoRetire(w: Worker)
    | DoAcknowledgeStop(w: Worker)
    | DoReserve(w: Worker, only: Option<set<Pool>>, wait: bool)
    | DoPlan(flight: Flight)
    | DoRecord(flight: Flight)
    | DoBind(flight: Flight, commit: Commit)
    | DoJoin(w: Worker)
    | DoDelegate(w: Worker, request: string, work: string, recipient: Option<Worker>)
    | DoAccept(w: Worker, id: nat)
    | DoReject(w: Worker, id: nat)
    | DoReoffer(w: Worker, id: nat, recipient: Option<Worker>)
    | DoCancel(w: Worker, id: nat, text: string)
    | DoComplete(w: Worker, id: nat, text: string, cited: Option<Commit>)
    | DoFinish(w: Worker, row: nat, generation: nat, commit: Commit)
    | DoFinishLate(w: Worker, row: nat, generation: nat, commit: Commit)
    | DoElect(w: Worker)
    | DoTakeOver(w: Worker, seen: Observed, force: bool)
    | DoBeginReplay(w: Worker, commit: Commit)
    | DoEndReplay(w: Worker, commit: Commit)
    | DoResolveReplay(w: Worker, commit: Commit)
    | DoIntegrationComplete(w: Worker, commit: Commit)
    | DoSerialComplete(w: Worker, commit: Commit)

  /** Applied inputs are skipped; everything else is applied in dispatch order. */
  function Missing(db: Db, w: Worker, rows: seq<nat>): (r: seq<nat>)
    ensures forall i: nat :: i in r <==> i in rows && (w, i) !in db.inputs
  {
    if rows == [] then []
    else
      assert forall i: nat :: i in rows <==> i == rows[0] || i in rows[1..];
      if (w, rows[0]) in db.inputs then Missing(db, w, rows[1..]) else [rows[0]] + Missing(db, w, rows[1..])
  }

  ghost function ReadPlan(db: Db, f: Flight): Option<Plan> {
    var tasks := TasksOf(db.slots);
    if !SoundTasks(tasks) || f.row >= |db.slots| then None
    else
      var ancestors := Select(tasks, DispatchOrder(tasks), PredecessorKeys(tasks, db.slots[f.row].key));
      Some(Plan(Missing(db, f.worker, ancestors), set i | 0 <= i < |db.slots| && db.slots[i].status == Done))
  }

  /** The effect of a transaction on the database. */
  ghost function Apply(db: Db, a: Action, now: Time): Option<Db> {
    match a
    case DoHeartbeat(w, g) => Heartbeat(db, w, g, now)
    case DoReclaim(k, force) => ReclaimTask(db, k, force, now)
    case DoCheckpoint(w, g, row, start, commit) => CheckpointTx(db, w, g, row, start, commit, now)
    case DoPublish(w, g, batch) => Publish(db, w, g, batch, now)
    case DoRevise(w, g, k, changed, revision) => Revise(db, w, g, k, changed, revision, now)
    case DoSetCap(r, max, pools) => SetCap(db, r, max, pools)
    case DoResourceBlocked(w, row, g, r) => ResourceBlocked(db, w, row, g, r, now)
    case DoSetOperators(workers, pools) => SetOperators(db, workers, pools)
    case DoSetReview(name, pool, interval) => SetReview(db, name, pool, interval)
    case DoRetire(w) => Retire(db, w)
    case DoAcknowledgeStop(w) => AcknowledgeStop(db, w)
    case DoReserve(w, only, wait) =>
      var r := Reserve(db, w, only, wait, now);
      if r.None? then None else Some(r.value.0)
    case DoPlan(f) => if ReadPlan(db, f).None? then None else Some(db)
    case DoRecord(f) =>
      if f.plan.None? || f.plan.value.sources == [] || f.plan.value.sources[0] !in f.plan.value.doneAtRead then None
      else Some(RecordInput(db, f.worker, f.plan.value.sources[0]))
    case DoBind(f, commit) =>
      if f.plan.None? || f.plan.value.sources != [] then None else Bind(db, f.worker, f.row, f.generation, commit)
    case DoJoin(w) => Join(db, w, now)
    case DoDelegate(w, key, work, recipient) => Delegate(db, w, key, work, recipient)
    case DoAccept(w, id) => Accept(db, w, id)
    case DoReject(w, id) => Reject(db, w, id)
    case DoReoffer(w, id, recipient) => Reoffer(db, w, id, recipient)
    case DoCancel(w, id, text) => Cancel(db, w, id, text, now)
    case DoComplete(w, id, text, cited) => Complete(db, w, id, text, cited)
    case DoFinish(w, row, g, commit) => Finish(db, w, row, g, commit, now)
    case DoFinishLate(w, row, g, commit) => FinishLate(db, w, row, g, commit, now)
    case DoElect(w) => ElectTx(db, w, now)
    case DoTakeOver(w, seen, force) => TakeOver(db, w, seen, force, now)
    case DoBeginReplay(w, commit) => BeginReplay(db, w, commit)
    case DoEndReplay(w, commit) => EndReplay(db, w, commit, now)
    case DoResolveReplay(w, commit) => ResolveReplay(db, w, commit, now)
    case DoIntegrationComplete(w, commit) => IntegrationComplete(db, w, commit, now)
    case DoSerialComplete(w, commit) => SerialComplete(db, w, commit)
  }

  /** The claim that an action starts or advances.  Flights are never removed: a claim may die at any
      point or be repeated, and a flight that is never advanced again is a dead one. */
  ghost function Launched(s: System, a: Action, now: Time): set<Flight> {
    match a
    case DoReserve(w, only, wait) =>
      var r := Reserve(s.db, w, only, wait, now);
      if r.None? || r.value.1.None? || r.value.1.value >= |r.value.0.slots| then {}
      else
        var row := r.value.1.value;
        if r.value.0.slots[row].start.Some? then {}
        else {Flight(w, row, r.value.0.slots[row].generation, None)}
    case DoPlan(f) => {f.(plan := ReadPlan(s.db, f))}
    case DoRecord(f) =>
      if f.plan.None? || f.plan.value.sources == [] || f.plan.value.sources[0] !in f.plan.value.doneAtRead then {}
      else {f.(plan := Some(f.plan.value.(sources := f.plan.value.sources[1..])))}
    case _ => {}
  }

  predicate Enabled(s: System, a: Action) {
    match a
    case DoPlan(f) => f in s.flights
    case DoRecord(f) => f in s.flights
    case DoBind(f, _) => f in s.flights
    case _ => true
  }

  /** A transaction that raises changes nothing. */
  ghost function Step(s: System, a: Action, now: Time): System {
    if !Enabled(s, a) || Apply(s.db, a, now).None? then s
    else System(Apply(s.db, a, now).value, s.flights + Launched(s, a, now))
  }

  datatype Event = Event(action: Action, now: Time)

  ghost function Execute(s: System, run: seq<Event>): System
    decreases |run|
  {
    if run == [] then s
    else
      var front := Execute(s, run[..|run| - 1]);
      Step(front, run[|run| - 1].action, run[|run| - 1].now)
  }

  ghost predicate Initial(s: System) {
    && s.flights == {}
    && ((exists project, drafts, withTail :: CreateRun(project, drafts, withTail) == Some(s.db))
        || exists project :: s.db == CreateUnplanned(project))
  }

  // ---- The invariant of the machine ----

  predicate ActiveAt(slots: seq<Slot>, row: nat, w: Worker, generation: nat) {
    row < |slots| && HoldsSlot(slots[row], w) && slots[row].generation == generation
  }

  /** While a planned claim still owns its slot, every transitive predecessor is applied or still to be applied. */
  ghost predicate FlightSound(db: Db, f: Flight) {
    && f.row < |db.slots| && 0 < f.generation <= db.slots[f.row].generation
    && (f.plan.Some? ==> forall d | d in f.plan.value.doneAtRead :: DoneRow(db.slots, d))
    && (f.plan.Some? && Subset(f.plan.value.sources, f.plan.value.doneAtRead)
        && ActiveAt(db.slots, f.row, f.worker, f.generation) ==>
          InputsClosed(db, f.worker, f.plan.value.sources, db.slots[f.row].dependsOn))
  }

  ghost predicate SystemInv(s: System) {
    Inv(s.db) && forall f | f in s.flights :: FlightSound(s.db, f)
  }

  lemma FlightStays(prior: Db, next: Db, f: Flight)
    requires Inv(prior) && RowsEvolve(prior, next) && FlightSound(prior, f)
    ensures FlightSound(next, f)
  {
    var s, t := prior.slots[f.row], next.slots[f.row];
    assert RowEvolves(next, s, t);
    if f.plan.Some? {
      forall d | d in f.plan.value.doneAtRead ensures DoneRow(next.slots, d) {
        assert DoneRow(prior.slots, d);
        assert RowEvolves(next, prior.slots[d], next.slots[d]);
      }
      if Subset(f.plan.value.sources, f.plan.value.doneAtRead) && ActiveAt(next.slots, f.row, f.worker, f.generation) {
        assert SameLease(s, t);
        assert t.dependsOn == TaskOf(t).dependsOn == s.dependsOn;
        CoverStays(prior, next, f.worker, f.plan.value.sources, s.dependsOn);
      }
    }
  }

  /** A lawful change of the database leaves every claim in flight sound. */
  lemma FlightsStay(s: System, next: Db)
    requires SystemInv(s) && Inv(next) && RowsEvolve(s.db, next)
    ensures SystemInv(System(next, s.flights))
  {
    forall f | f in s.flights ensures FlightSound(next, f) { FlightStays(s.db, next, f); }
  }

  /** Reading the ancestors of a held slot: all its transitive predecessors are applied or planned. */
  lemma PlanSound(db: Db, f: Flight)
    requires Inv(db) && f.row < |db.slots| && 0 < f.generation <= db.slots[f.row].generation
    requires ReadPlan(db, f).Some?
    ensures FlightSound(db, f.(plan := ReadPlan(db, f)))
  {
    var plan := ReadPlan(db, f).value;
    if Subset(plan.sources, plan.doneAtRead) {
      var tasks := TasksOf(db.slots);
      var target := db.slots[f.row].key;
      var keys := PredecessorKeys(tasks, target);
      DispatchOrderIsTopological(tasks);
      assert tasks[f.row].key == target;
      GraphAt(tasks, f.row);
      forall d | d in db.slots[f.row].dependsOn ensures d in keys {
        DirectPredecessor(tasks, f.row, d);
      }
      forall k | k in keys
        ensures exists j: nat :: InputRow(db, f.worker, plan.sources, j) && db.slots[j].key == k
                                 && Subset(db.slots[j].dependsOn, keys)
      {
        var j := SlotOfKey(tasks, k);
        assert db.slots[j].key == k && j in DispatchOrder(tasks);
        assert (f.worker, j) in db.inputs || j in plan.sources;
        assert DoneRow(db.slots, j);
        forall d | d in db.slots[j].dependsOn ensures d in keys { IndirectPredecessor(tasks, j, target, d); }
        assert InputRow(db, f.worker, plan.sources, j);
      }
      assert Covered(db, f.worker, plan.sources, db.slots[f.row].dependsOn, keys);
    }
  }

  lemma DirectPredecessor(tasks: seq<Task>, row: nat, d: Key)
    requires SoundTasks(tasks) && row < |tasks| && d in tasks[row].dependsOn
    ensures d in PredecessorKeys(tasks, tasks[row].key)
  {
    GraphAt(tasks, row);
    var g := GraphOf(tasks);
    assert d in g[tasks[row].key] && d in g.Keys;
    DirectPrecedes(g, d, tasks[row].key);
  }

  lemma IndirectPredecessor(tasks: seq<Task>, j: nat, target: Key, d: Key)
    requires SoundTasks(tasks) && j < |tasks| && tasks[j].key in PredecessorKeys(tasks, target)
    requires d in tasks[j].dependsOn
    ensures d in PredecessorKeys(tasks, target)
  {
    GraphAt(tasks, j);
    var g := GraphOf(tasks);
    assert d in g[tasks[j].key] && d in g.Keys;
    PrecedesStep(g, d, tasks[j].key, target);
  }

  /** Recording the first planned input turns it from planned into applied. */
  lemma RecordSoundFlight(db: Db, f: Flight)
    requires Inv(db) && FlightSound(db, f) && f.plan.Some? && f.plan.value.sources != []
    requires f.plan.value.sources[0] in f.plan.value.doneAtRead
    ensures FlightSound(RecordInput(db, f.worker, f.plan.value.sources[0]),
                        f.(plan := Some(f.plan.value.(sources := f.plan.value.sources[1..]))))
  {
    var p := f.plan.value;
    var next := RecordInput(db, f.worker, p.sources[0]);
    var rest := p.sources[1..];
    if Subset(rest, p.doneAtRead) && ActiveAt(next.slots, f.row, f.worker, f.generation) {
      assert Subset(p.sources, p.doneAtRead);
      var deps := db.slots[f.row].dependsOn;
      var keys :| Covered(db, f.worker, p.sources, deps, keys);
      forall k | k in keys
        ensures exists j: nat :: InputRow(next, f.worker, rest, j) && next.slots[j].key == k
                                 && Subset(next.slots[j].dependsOn, keys)
      {
        var j: nat :| InputRow(db, f.worker, p.sources, j) && db.slots[j].key == k && Subset(db.slots[j].dependsOn, keys);
        assert j in p.sources ==> j == p.sources[0] || j in rest;
        assert InputRow(next, f.worker, rest, j);
      }
      assert Covered(next, f.worker, rest, deps, keys);
    }
  }

  // ---- Every step ----

  // The transactions, group by group.

  predicate TouchAction(a: Action) {
    a.DoHeartbeat? || a.DoReclaim? || a.DoCheckpoint?
  }

  predicate GraphAction(a: Action) {
    a.DoPublish? || a.DoRevise?
  }

  predicate StopAction(a: Action) {
    a.DoRetire? || a.DoAcknowledgeStop?
  }

  predicate PolicyAction(a: Action) {
    a.DoSetCap? || a.DoSetOperators? || a.DoSetReview? || StopAction(a)
  }

  predicate InputAction(a: Action) {
    a.DoPlan? || a.DoRecord? || a.DoBind?
  }

  predicate SlotAction(a: Action) {
    a.DoResourceBlocked? || a.DoReserve? || a.DoJoin?
  }

  predicate DelegationAction(a: Action) {
    OfferAction(a) || SettlingAction(a)
  }

  predicate OfferAction(a: Action) {
    a.DoDelegate? || a.DoAccept? || a.DoReject? || a.DoReoffer?
  }

  predicate SettlingAction(a: Action) {
    a.DoCancel? || a.DoComplete?
  }

  predicate CompletionAction(a: Action) {
    a.DoFinish? || a.DoFinishLate? || a.DoElect?
  }

  predicate ReplayAction(a: Action) {
    a.DoBeginReplay? || a.DoEndReplay? || a.DoResolveReplay?
  }

  predicate HandoverAction(a: Action) {
    a.DoTakeOver? || a.DoIntegrationComplete? || a.DoSerialComplete?
  }

  // Everything but the election, for every transaction.

  lemma TouchActionKeeps(db: Db, a: Action, now: Time)
    requires TouchAction(a) && Inv(db) && Apply(db, a, now).Some?
    ensures Good(db, Apply(db, a, now).value)
  {
    match a
    case DoHeartbeat(w, g) => HeartbeatGood(db, w, g, now);
    case DoReclaim(k, force) => ReclaimGood(db, k, force, now);
    case DoCheckpoint(w, g, row, start, commit) => CheckpointGood(db, w, g, row, start, commit, now);
  }

  lemma GraphActionKeeps(db: Db, a: Action, now: Time)
    requires GraphAction(a) && Inv(db) && Apply(db, a, now).Some?
    ensures Good(db, Apply(db, a, now).value)
  {
    match a
    case DoPublish(w, g, batch) => PublishGood(db, w, g, batch, now);
    case DoRevise(w, g, k, changed, revision) => ReviseGood(db, w, g, k, changed, revision, now);
  }

  lemma PolicyActionKeeps(db: Db, a: Action, now: Time)
    requires PolicyAction(a) && !StopAction(a) && Inv(db) && Apply(db, a, now).Some?
    ensures Good(db, Apply(db, a, now).value)
  {
    match a
    case DoSetCap(r, max, pools) => SetCapGood(db, r, max, pools);
    case DoSetOperators(workers, pools) => SetOperatorsGood(db, workers, pools);
    case DoSetReview(name, pool, interval) => SetReviewGood(db, name, pool, interval);
  }

  lemma StopActionKeeps(db: Db, a: Action, now: Time)
    requires StopAction(a) && Inv(db) && Apply(db, a, now).Some?
    ensures Good(db, Apply(db, a, now).value)
  {
    SideTable(db, Apply(db, a, now).value);
  }

  lemma RecordActionKeeps(s: System, f: Flight, now: Time)
    requires SystemInv(s) && f in s.flights && Apply(s.db, DoRecord(f), now).Some?
    ensures Good(s.db, Apply(s.db, DoRecord(f), now).value)
  {
    assert FlightSound(s.db, f);
    RecordInputGood(s.db, f.worker, f.plan.value.sources[0]);
  }

  lemma BindActionKeeps(s: System, f: Flight, commit: Commit, now: Time)
    requires SystemInv(s) && f in s.flights && Apply(s.db, DoBind(f, commit), now).Some?
    ensures Good(s.db, Apply(s.db, DoBind(f, commit), now).value)
  {
    assert FlightSound(s.db, f);
    BindGood(s.db, f.worker, f.row, f.generation, commit);
  }

  lemma InputActionKeeps(s: System, a: Action, now: Time)
    requires InputAction(a) && SystemInv(s) && Enabled(s, a) && Apply(s.db, a, now).Some?
    ensures Good(s.db, Apply(s.db, a, now).value)
  {
    match a
    case DoPlan(f) => Unchanged(s.db);
    case DoRecord(f) => RecordActionKeeps(s, f, now);
    case DoBind(f, commit) => BindActionKeeps(s, f, commit, now);
  }

  lemma SlotActionKeeps(db: Db, a: Action, now: Time)
    requires SlotAction(a) && Inv(db) && Apply(db, a, now).Some?
    ensures Good(db, Apply(db, a, now).value)
  {
    match a
    case DoResourceBlocked(w, row, g, r) => ResourceBlockedGood(db, w, row, g, r, now);
    case DoReserve(w, only, wait) => ReserveGood(db, w, only, wait, now);
    case DoJoin(w) => JoinGood(db, w, now);
  }

  lemma OfferActionKeeps(db: Db, a: Action, now: Time)
    requires OfferAction(a) && Inv(db) && Apply(db, a, now).Some?
    ensures Good(db, Apply(db, a, now).value)
  {
    match a
    case DoDelegate(w, key, work, recipient) => DelegateGood(db, w, key, work, recipient);
    case DoAccept(w, id) => AcceptGood(db, w, id);
    case DoReject(w, id) => RejectGood(db, w, id);
    case DoReoffer(w, id, recipient) => ReofferGood(db, w, id, recipient);
  }

  lemma SettlingActionKeeps(db: Db, a: Action, now: Time)
    requires SettlingAction(a) && Inv(db) && Apply(db, a, now).Some?
    ensures Inv(Apply(db, a, now).value) && Evolves(db, Apply(db, a, now).value)
    ensures !a.DoComplete? ==> Good(db, Apply(db, a, now).value)
  {
    match a
    case DoCancel(w, id, text) => CancelGood(db, w, id, text, now);
    case DoComplete(w, id, text, cited) => CompleteKeeps(db, w, id, text, cited);
  }

  lemma LateActionKeeps(db: Db, a: Action, now: Time)
    requires a.DoFinishLate? && Inv(db) && Apply(db, a, now).Some?
    ensures Good(db, Apply(db, a, now).value)
  {
    match a
    case DoFinishLate(w, row, g, commit) => FinishLateGood(db, w, row, g, commit, now);
  }

  lemma FinishActionKeeps(db: Db, a: Action, now: Time)
    requires a.DoFinish? || a.DoElect?
    requires Inv(db) && Apply(db, a, now).Some?
    ensures Good(db, Apply(db, a, now).value)
  {
    match a
    case DoFinish(w, row, g, commit) => FinishGood(db, w, row, g, commit, now);
    case DoElect(w) => ElectTxGood(db, w, now);
  }

  lemma ReplayActionKeeps(db: Db, a: Action, now: Time)
    requires ReplayAction(a) && Inv(db) && Apply(db, a, now).Some?
    ensures Good(db, Apply(db, a, now).value)
  {
    match a
    case DoBeginReplay(w, commit) => BeginReplayGood(db, w, commit);
    case DoEndReplay(w, commit) => EndReplayGood(db, w, commit, now);
    case DoResolveReplay(w, commit) => ResolveReplayGood(db, w, commit, now);
  }

  lemma HandoverActionKeeps(db: Db, a: Action, now: Time)
    requires HandoverAction(a) && Inv(db) && Apply(db, a, now).Some?
    ensures Good(db, Apply(db, a, now).value)
  {
    match a
    case DoTakeOver(w, seen, force) => TakeOverGood(db, w, seen, force, now);
    case DoIntegrationComplete(w, commit) => IntegrationCompleteGood(db, w, commit, now);
    case DoSerialComplete(w, commit) => SerialCompleteGood(db, w, commit);
  }

  /** Every transaction keeps the invariant and lets the tables evolve; all but the completion of a delegation also
      keep elections. */
  lemma ApplyKeeps(s: System, a: Action, now: Time)
    requires SystemInv(s) && Enabled(s, a) && Apply(s.db, a, now).Some?
    ensures Inv(Apply(s.db, a, now).value) && Evolves(s.db, Apply(s.db, a, now).value)
    ensures !a.DoComplete? ==> Good(s.db, Apply(s.db, a, now).value)
  {
    var db := s.db;
    if TouchAction(a) { TouchActionKeeps(db, a, now); }
    else if GraphAction(a) { GraphActionKeeps(db, a, now); }
    else if StopAction(a) { StopActionKeeps(db, a, now); }
    else if PolicyAction(a) { PolicyActionKeeps(db, a, now); }
    else if InputAction(a) { InputActionKeeps(s, a, now); }
    else if a.DoFinishLate? { LateActionKeeps(db, a, now); }
    else if CompletionAction(a) { FinishActionKeeps(db, a, now); }
    else if ReplayAction(a) { ReplayActionKeeps(db, a, now); }
    else if HandoverAction(a) { HandoverActionKeeps(db, a, now); }
    else if SlotAction(a) { SlotActionKeeps(db, a, now); }
    else if OfferAction(a) { OfferActionKeeps(db, a, now); }
    else { SettlingActionKeeps(db, a, now); }
  }

  lemma LaunchedSound(s: System, a: Action, now: Time, f: Flight)
    requires SystemInv(s) && Enabled(s, a) && Apply(s.db, a, now).Some? && f in Launched(s, a, now)
    ensures FlightSound(Apply(s.db, a, now).value, f)
  {
    match a
    case DoReserve(w, only, wait) => ReserveGood(s.db, w, only, wait, now);
    case DoPlan(g) => assert FlightSound(s.db, g); PlanSound(s.db, g);
    case DoRecord(g) => assert FlightSound(s.db, g); RecordSoundFlight(s.db, g);
    case _ =>
  }

  /** One step of any worker, however interleaved, keeps the machine invariant. */
  lemma StepKeeps(s: System, a: Action, now: Time)
    requires SystemInv(s)
    ensures SystemInv(Step(s, a, now)) && Evolves(s.db, Step(s, a, now).db)
  {
    if !Enabled(s, a) || Apply(s.db, a, now).None? {
      Unchanged(s.db);
    } else {
      ApplyKeeps(s, a, now);
      var t := Step(s, a, now);
      forall f | f in t.flights ensures FlightSound(t.db, f) {
        if f in s.flights { FlightStays(s.db, t.db, f); } else { LaunchedSound(s, a, now, f); }
      }
    }
  }

  lemma PlannedKeeps(project: string, drafts: seq<Draft>, withTail: bool)
    requires CreateRun(project, drafts, withTail).Some?
    ensures Inv(CreateRun(project, drafts, withTail).value)
  {
    var db := CreateRun(project, drafts, withTail).value;
    var tasks := SpecifiedAll(drafts);
    assert TasksOf(db.slots) == tasks;
    forall i | 0 <= i < |db.slots| ensures db.slots[i].key.Named? { assert db.slots[i].key == tasks[i].key; }
  }

  lemma UnplannedKeeps(project: string)
    ensures Inv(CreateUnplanned(project))
  {
    var none: seq<Task> := [];
    assert TasksOf(CreateUnplanned(project).slots) == none;
    forall k ensures !Precedes(GraphOf(none), k, k) { OnlyKnownTasksWait(GraphOf(none), k, k); }
  }

  lemma InitialKeeps(s: System)
    requires Initial(s)
    ensures SystemInv(s)
  {
    if project, drafts, withTail :| CreateRun(project, drafts, withTail) == Some(s.db) {
      PlannedKeeps(project, drafts, withTail);
    } else {
      var project :| s.db == CreateUnplanned(project);
      UnplannedKeeps(project);
    }
  }

  /** Every reachable state satisfies the invariant. */
  lemma {:induction false} AlwaysSound(s: System, run: seq<Event>)
    requires SystemInv(s)
    ensures SystemInv(Execute(s, run))
    decreases |run|
  {
    if run != [] {
      AlwaysSound(s, run[..|run| - 1]);
      StepKeeps(Execute(s, run[..|run| - 1]), run[|run| - 1].action, run[|run| - 1].now);
    }
  }
}
