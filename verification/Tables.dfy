/** The rows of one collaboration run.  Slots, reclaim records and delegations are numbered by the
    database from 1 without gaps and never deleted, so each table is a sequence: row `i` of the
    sequence is number `i + 1`. */
module Tables {
  import opened Prelude
  import opened Graph

  type Worker = string
  type Commit = string
  type Pool = string
  type Resource = string
  type Time = nat

  const LEASE_SECONDS: Time := 600
  const PRIORITY_RECLAIM_SECONDS: Time := 1800
  const MAX_TASKS: nat := 10000

  /** A task as a caller submits it: an absent key defaults to one made from the position in the list. */
  datatype Draft = Draft(key: Option<string>, pool: Pool, dependsOn: seq<string>, reviewOf: seq<string>, exclude: seq<string>)

  /** A task as it is validated and stored. */
  datatype Task = Task(key: Key, pool: Pool, dependsOn: seq<Key>, reviewOf: seq<Key>, exclude: seq<string>)

  datatype Status = Available | Claimed | Done

  datatype Slot = Slot(
    key: Key, pool: Pool, dependsOn: seq<Key>, reviewOf: seq<Key>, exclude: seq<string>,
    status: Status, owner: Option<Worker>, start: Option<Commit>, commit: Option<Commit>,
    completedBy: Option<Worker>, generation: nat, lastSeen: Option<Time>, checkpoint: Option<Commit>)

  datatype RunState = Open | Integrating | Integrated

  datatype Run = Run(
    project: string, planned: bool, state: RunState, revision: nat,
    integrator: Option<Worker>, integratorGeneration: nat, integratorSeen: Option<Time>,
    attempted: bool, startHead: Option<Commit>, candidate: Option<Commit>)

  datatype Resolution = Accepted | Preserved

  datatype Reclaim = Reclaim(
    slot: nat, oldOwner: Worker, oldGeneration: nat, oldStart: Option<Commit>,
    checkpoint: Option<Commit>, adoptedBy: Option<Worker>,
    resolution: Option<Resolution>, resolutionCommit: Option<Commit>)

  datatype DelegationStatus = Offered | Taken | Rejected | Completed | Cancelled

  datatype Delegation = Delegation(
    sender: Worker, requestKey: string, recipient: Option<Worker>, work: string,
    status: DelegationStatus, result: Option<string>, commit: Option<Commit>)

  datatype Cap = Cap(max: nat, pools: set<Pool>)

  datatype Review = Review(name: string, pool: Pool, interval: Time, lastPublished: Time, latest: Option<Key>)

  datatype TailStatus = TailPending | TailActive | TailComplete
  datatype Tail = Tail(status: TailStatus, owner: Option<Worker>, finalHead: Option<Commit>)

  datatype Db = Db(
    run: Run, slots: seq<Slot>, reclaims: seq<Reclaim>, delegations: seq<Delegation>,
    inputs: set<(Worker, nat)>, workers: seq<Worker>, retired: set<Worker>, stopOrders: set<Worker>,
    caps: map<Resource, Cap>, learned: map<Resource, Option<nat>>, blocks: map<Resource, Time>,
    operators: map<Pool, set<Worker>>, reviews: seq<Review>, dispatch: map<Pool, nat>,
    tail: Option<Tail>)

  // ---- Lookups ----

  function FreshSlot(t: Task): Slot {
    Slot(t.key, t.pool, t.dependsOn, t.reviewOf, t.exclude,
         Available, None, None, None, None, 0, None, None)
  }

  function TaskOf(s: Slot): Task {
    Task(s.key, s.pool, s.dependsOn, s.reviewOf, s.exclude)
  }

  function TasksOf(slots: seq<Slot>): seq<Task> {
    seq(|slots|, i requires 0 <= i < |slots| => TaskOf(slots[i]))
  }

  predicate HoldsSlot(s: Slot, w: Worker) {
    s.status == Claimed && s.owner == Some(w)
  }

  /** The slot a worker currently holds. */
  function HeldSlot(slots: seq<Slot>, w: Worker): (r: Option<nat>)
    ensures r.Some? ==> r.value < |slots| && HoldsSlot(slots[r.value], w)
    ensures r.None? ==> forall i | 0 <= i < |slots| :: !HoldsSlot(slots[i], w)
  {
    if slots == [] then None
    else if HoldsSlot(slots[|slots| - 1], w) then Some(|slots| - 1)
    else HeldSlot(slots[..|slots| - 1], w)
  }

  /** The last slot a worker completed. */
  function CompletedSlot(slots: seq<Slot>, w: Worker): (r: Option<nat>)
    ensures r.Some? ==> r.value < |slots| && slots[r.value].completedBy == Some(w)
    ensures r.None? ==> forall i | 0 <= i < |slots| :: slots[i].completedBy != Some(w)
  {
    if slots == [] then None
    else if slots[|slots| - 1].completedBy == Some(w) then Some(|slots| - 1)
    else CompletedSlot(slots[..|slots| - 1], w)
  }

  /** A worker's slot: the one it holds, otherwise the last one it completed. */
  function SlotOf(slots: seq<Slot>, w: Worker): (r: Option<nat>)
    ensures r.Some? ==> r.value < |slots|
  {
    var held := HeldSlot(slots, w);
    if held.Some? then held else CompletedSlot(slots, w)
  }

  /** The claimed slot a generation-checked write is allowed to touch. */
  function ActiveSlot(slots: seq<Slot>, w: Worker, generation: nat): (r: Option<nat>)
    ensures r.Some? ==> r.value < |slots| && HoldsSlot(slots[r.value], w) && slots[r.value].generation == generation
  {
    var held := HeldSlot(slots, w);
    if held.Some? && slots[held.value].generation == generation then held else None
  }

  function SlotByKey(slots: seq<Slot>, k: Key): (r: Option<nat>)
    ensures r.Some? ==> r.value < |slots| && slots[r.value].key == k
    ensures r.None? ==> forall i | 0 <= i < |slots| :: slots[i].key != k
  {
    if slots == [] then None
    else if slots[|slots| - 1].key == k then Some(|slots| - 1)
    else SlotByKey(slots[..|slots| - 1], k)
  }

  /** The name under which callers know a slot. */
  function KeyName(k: Key): string {
    match k
    case Named(name) => name
    case Unnamed(row) => "task-" + Decimal(row + 1)
  }

  /** The first slot of that name, from row `from` on. */
  function NamedFrom(slots: seq<Slot>, name: string, from: nat): (r: Option<nat>)
    requires from <= |slots|
    ensures r.Some? ==> from <= r.value < |slots| && KeyName(slots[r.value].key) == name
    ensures forall i | from <= i < (if r.Some? then r.value else |slots|) :: KeyName(slots[i].key) != name
    decreases |slots| - from
  {
    if from == |slots| then None
    else if KeyName(slots[from].key) == name then Some(from)
    else NamedFrom(slots, name, from + 1)
  }

  function SlotByName(slots: seq<Slot>, name: string): (r: Option<nat>)
    ensures r.Some? ==> r.value < |slots| && KeyName(slots[r.value].key) == name
  {
    NamedFrom(slots, name, 0)
  }

  function DoneKeys(slots: seq<Slot>): set<Key> {
    set i | 0 <= i < |slots| && slots[i].status == Done :: slots[i].key
  }

  function ProducedKeys(slots: seq<Slot>, w: Worker): set<Key> {
    set i | 0 <= i < |slots| && slots[i].completedBy == Some(w) :: slots[i].key
  }

  predicate Subset<T(==)>(xs: seq<T>, s: set<T>) {
    forall x | x in xs :: x in s
  }

  predicate AllDone(slots: seq<Slot>) {
    forall i | 0 <= i < |slots| :: slots[i].status == Done
  }

  predicate Settled(d: Delegation) {
    d.status == Completed || d.status == Cancelled
  }

  predicate AllSettled(delegations: seq<Delegation>) {
    forall i | 0 <= i < |delegations| :: Settled(delegations[i])
  }

  /** The claimed slots whose pool is one of `pools`. */
  function ClaimedIn(slots: seq<Slot>, pools: set<Pool>): set<nat> {
    set i | 0 <= i < |slots| && slots[i].status == Claimed && slots[i].pool in pools
  }

  // ---- The dependency graph of the stored rows ----

  function GraphOf(tasks: seq<Task>): Graph {
    map k | k in Keys(tasks) :: DependsOn(tasks, k)
  }

  function Keys(tasks: seq<Task>): set<Key> {
    set i | 0 <= i < |tasks| :: tasks[i].key
  }

  function DependsOn(tasks: seq<Task>, k: Key): set<Key> {
    set i, d | 0 <= i < |tasks| && tasks[i].key == k && d in tasks[i].dependsOn :: d
  }

  predicate DistinctKeys(tasks: seq<Task>) {
    forall i, j | 0 <= i < j < |tasks| :: tasks[i].key != tasks[j].key
  }

  /** A task submitted without a key is known by its position. */
  predicate KeysInPlace(tasks: seq<Task>) {
    forall i | 0 <= i < |tasks| :: tasks[i].key.Unnamed? ==> tasks[i].key.row == i
  }

  ghost predicate SoundTasks(tasks: seq<Task>) {
    && DistinctKeys(tasks) && KeysInPlace(tasks)
    && (forall i | 0 <= i < |tasks| :: SoundTask(tasks[i]))
    && Closed(GraphOf(tasks))
    && Acyclic(GraphOf(tasks))
  }

  predicate SoundTask(t: Task) {
    && Distinct(t.dependsOn) && Distinct(t.reviewOf) && Distinct(t.exclude)
    && (forall k | k in t.reviewOf :: k in t.dependsOn)
    && (forall k | k in t.dependsOn :: k.Named?)
    && t.key !in t.dependsOn
  }
}
