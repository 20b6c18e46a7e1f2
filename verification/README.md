# Verified models of Codex Loop's coordination core

This project models, in Dafny, the parts of Codex Loop on which several agents depend at once, and proves what they
promise over whole runs. `dafny verify dfyconfig.toml` checks all of it.

**Same-host collaboration** (`Prelude`, `Graph`, `Tables`, `TaskGraph`, `Scheduling`, `Transactions`, `Invariant`,
`RowChanges`, `Steps`, `ClaimSteps`, `Protocol`, `Frames`, `Safety`, `Leases`, `Election`, `Obligations`, `Capacity`,
`Rotation`, `Operations`, `Coordinator`; concrete runs in `Scenario`, `LostElection`, `RefusedRecovery`, `ExceededCap`).
Workers claim slots of a task graph under 600-second leases with generations, lose and recover them, finish (also late),
delegate, elect one integrator and hand a serial tail to it. Every write of the original runs under `BEGIN IMMEDIATE`, so
each write block is one transaction: `Transactions` has one function for each, `None` standing for an exception and its
rollback. `Protocol` interleaves the transactions of any number of workers; a claim is four of them (reserve, read the
plan, record each input, bind), with Git work in between, and may die or be repeated at any point. The class
`Coordinator` has the tables as fields and one method per transaction: each is proved to commit what its function
describes or to change nothing, to keep the invariant of the whole machine, claims in flight included, and to let rows,
records and the run evolve only lawfully; what the single calls mean for their callers is proved in `Operations`,
`Leases`, `Obligations` and `Capacity`. Rows are numbered by the database without gaps and never deleted, so a table is
a sequence and row `i` is number `i + 1`.

**Portable publish** (`GitObjects`, `Text`, `CheckpointMessage`, `PortablePublish`, `PublishSessions`,
`PublishProgress`). A receipt, a token and one observed result determine the next action; all durable progress is in a
remote staging branch. Commits are content-addressed values, so an object stands for its id. Any number of sessions act
against one honest remote, lose replies, die and start again from the receipt alone; other writers may move the target
branch, but not the staging branch.

**Store-backed publish** (`StablePublish`). The class `Publisher` holds the persisted state, tied to the history of all
calls; acknowledgements and reconciliations are compared over whole histories. The original ends its last
acknowledgement by recording an outcome under a transport that the recording function refuses, after the phase
`complete` was persisted; the model goes up to that persisted phase.

**Output retention and framing** (`HeadTail`, `Utf8`, `OutputStream`). A head/tail buffer that agrees with keeping the
whole stream and cutting it afterwards, and a framer for UTF-8 (section 4 of RFC 3629) with a frame quota, a bounded
queue and exact omission counts. The strict decoder of `Utf8` reports the first error with the span CPython gives it.

**Guarded relay** (`Base64`, `Relay`, `RelayMarkers`, `RelayMetadata`, `RelayRoundTrip`, `RelayEnvelope`). Base64
(section 4 of RFC 4648) between markers, found again inside noise. Strict decoding is that of Python 3.11 and later.

**Repository continuity and tree digests** (`Continuity`, `TreeDigest`). Ancestry reasoning on commit graphs, and the
canonical recursive encoding of directory trees. Digests are kept as the object they were computed from; no property of
a hash function is assumed.

## Where the code does not do what it is meant to

- An election can be lost. `complete_delegation` checks the recipient's slot in one transaction and writes in another,
  and the write does not elect. When the recipient's slot is reclaimed and finished by somebody else in between, the run
  stays open with nothing left to do and nobody elected: `LostElection.ElectionCanBeLost` is such a run, and
  `Election.ElectionLostExactly` says that no other step can do this. An explicit `elect` call still recovers.
- A lost lease can be impossible to take over: when the new owner already used the request key of an open delegation
  that it would inherit, the uniqueness of (sender, request key) aborts the recovery.
  `Obligations.AdoptionRefusedExactly` gives the exact condition, `RefusedRecovery.RecoveryCanBeRefused` such a run.
- Caps can be exceeded: a claimed pool delegation and a worker that joins an unplanned run look at no cap, and an
  operator may set one below what is claimed. `Capacity.CapsHoldThroughout` says over whole runs exactly when every cap
  is respected; `ExceededCap.CapCanBeExceeded` is a run that exceeds one.
- A checkpoint message puts the path before the trailers, so a file name with a newline can pose as one:
  `CheckpointMessage.NewlinePathMisleads` is such a name, and `CheckpointMessage.CursorReadsBack` gives the exact
  condition on paths. The publish theorems assume receipts whose paths meet it.
- A frame cut from malformed bytes can itself end in an unfinished character (`Utf8.MalformedCutIsNotStable`).
  `Utf8.BoundaryOfAnything` says where any bytes are cut, `Utf8.CutIsStableExactly` exactly when cutting again changes
  nothing, and `OutputStream.FrameOutput` that the frames of a stream that comes out whole are all well-formed exactly
  when the stream is.
- A supplied source provenance makes a workspace ready even when the observed remote contradicts it:
  `Continuity.ReadyUnconfirmedExactly` gives the exact condition and `Continuity.ReadyUnconfirmed` two such workspaces.

## Model

| member | source | states |
|---|---|---|
| Graph.HasNoCycle | scripts/codex_loop_runtime/local_collaboration.py:554-559 | the retiring rounds answer true exactly when the dependency graph has no cycle, and they terminate |
| Graph.StuckHasCycle | scripts/codex_loop_runtime/local_collaboration.py:555-558 | if every task left waits for another task left, there really is a cycle, so a refusal is never wrong |
| TaskGraph.TaskSpecs | scripts/codex_loop_runtime/local_collaboration.py:514-560 | a submitted list is accepted exactly when its size, lists, keys (absent ones taken from the position), dependencies and acyclicity are legal, and the answer is the list with definite keys and with the reviews merged into the dependencies |
| TaskGraph.Merge | scripts/codex_loop_runtime/local_collaboration.py:535 | each declared dependency and each reviewed task once, and nothing else |
| TaskGraph.DefaultKeysDiffer | scripts/codex_loop_runtime/local_collaboration.py:522-523 | tasks without a key never get the same one |
| TaskGraph.DefaultKeyIsTaken | scripts/codex_loop_runtime/local_collaboration.py:522-548 | but a list in which a task is given the key that another, without a key, gets from its position is refused |
| TaskGraph.StoredTasksNormalize | scripts/codex_loop_runtime/local_collaboration.py:563-570 | a stored list passes validation unchanged, so publishing and revising do not rewrite other tasks |
| TaskGraph.OrderedSlots | scripts/codex_loop_runtime/local_collaboration.py:821-833 | on every sound stored graph the ordering loop succeeds and returns the dispatch order |
| TaskGraph.DispatchOrderIsTopological | scripts/codex_loop_runtime/local_collaboration.py:821-833 | that order lists each slot exactly once, after everything it depends on |
| TaskGraph.Ancestors | scripts/codex_loop_runtime/local_collaboration.py:1176-1186 | the stack walk returns exactly the transitive predecessors, in dispatch order |
| Safety.GraphStaysSound | scripts/codex_loop_runtime/local_collaboration.py:725-789 | in every reachable state the stored graph is closed and acyclic, so ordering never fails |
| Coordinator.Coordinator.PublishTask | scripts/codex_loop_runtime/local_collaboration.py:732-752 | validates stored tasks and batch together, appends the batch behind the stored tasks and advances the revision, or changes nothing; either way the machine invariant holds and every row evolved lawfully |
| Coordinator.Coordinator.ReviseTask | scripts/codex_loop_runtime/local_collaboration.py:764-789 | edits one unclaimed task under the expected revision after the whole list was validated with the edit, keeping every other row and the machine invariant |
| Coordinator.Coordinator.PublishDueReviews | scripts/codex_loop_runtime/local_collaboration.py:978-1008 | appends the reviews that are due, in table order, unless the operated pools are finished |
| Coordinator.Coordinator.Candidates | scripts/codex_loop_runtime/local_collaboration.py:1043-1121 | the slots a worker may take: ready or expired, eligible, and within every ceiling |
| Coordinator.Coordinator.Pick | scripts/codex_loop_runtime/local_collaboration.py:1125-1167 | the choice among them: long expired, then critical rescues, ready by rotation, other expired leases |
| Coordinator.Coordinator.ChooseSlot | scripts/codex_loop_runtime/local_collaboration.py:1037-1173 | choice and rotation step together, against the specification of the choice |
| Coordinator.Coordinator.Reserve | scripts/codex_loop_runtime/local_collaboration.py:1301-1420 | the whole reservation of a claim: resume, take or refuse; a refusal anywhere rolls back every table; the worker then holds the slot, and a claim whose inputs are still to be bound is in flight |
| Coordinator.Coordinator.PlanInputs | scripts/codex_loop_runtime/local_collaboration.py:1445-1459 | the read after a reservation always succeeds and lists exactly the predecessors not yet applied, in dispatch order; the claim stays sound |
| Protocol.StepKeeps | scripts/codex_loop_runtime/local_collaboration.py:1294-1493 | one transaction of any worker, however claims in flight are interleaved, keeps the machine invariant and lets rows evolve only lawfully |
| Protocol.AlwaysSound | scripts/codex_loop_runtime/local_collaboration.py:1294-1493 | the invariant over every run |
| Protocol.PlanSound | scripts/codex_loop_runtime/local_collaboration.py:1450-1459 | what a claim reads before materializing covers every transitive predecessor |
| Safety.ClaimSafety | scripts/codex_loop_runtime/local_collaboration.py:1037-1081 | a worker holds at most one slot, a held slot waits for nothing, its owner completed nothing it reviews |
| Safety.OrdinaryReviewsAreIndependent | scripts/codex_loop_runtime/local_collaboration.py:1923-1941 | whoever finishes a review in the ordinary way completed none of the reviewed tasks |
| Safety.InputClosure | scripts/codex_loop_runtime/local_collaboration.py:1445-1493 | a held slot with a start commit has every transitive predecessor done and applied to its owner, whatever interleaved |
| Safety.OneOwnerPerGeneration | scripts/codex_loop_runtime/local_collaboration.py:1371-1382 | generations never decrease and no (slot, generation) pair has two owners over a whole run |
| Safety.SupersededForever | scripts/codex_loop_runtime/local_collaboration.py:591-599 | a superseded lease never becomes valid again |
| Safety.GenerationCheckedWrites | scripts/codex_loop_runtime/local_collaboration.py:591-607 | finish, checkpoint, resource report, binding and heartbeat are refused to, or leave the row alone for, whoever does not hold it |
| Leases.LeaseEndsOnlyFor | scripts/codex_loop_runtime/local_collaboration.py:704-721 | a worker loses a slot only by its own finish or return, a late finish under an earlier lease, a forced reclaim, or after more than 600 seconds without a touch |
| Leases.LeaseLasts | scripts/codex_loop_runtime/local_collaboration.py:602-607 | over whole runs: a touched lease is still held, and seen no earlier, as long as no event comes more than 600 seconds later and nothing but time could end it |
| Leases.UnforcedLossIsLate | scripts/codex_loop_runtime/local_collaboration.py:704-721 | under a clock that does not go back, a lease that is lost without such an act was last touched more than 600 seconds before some event |
| Safety.AcceptedResultIsFinal | scripts/codex_loop_runtime/local_collaboration.py:1923-1941 | a done slot never changes again: commit, completer and task |
| Safety.LateResultResolvedOnce | scripts/codex_loop_runtime/local_collaboration.py:1774-1869 | each lost lease is recorded once and resolved at most once; later reports repeat it without effect or are refused |
| Election.ElectionLostExactly | scripts/codex_loop_runtime/local_collaboration.py:1755-1771 | a step leaves an open run finished, settled and unelected exactly when it is the write half of a completion that settles the last obligation |
| Election.NoElectionIsLost | scripts/codex_loop_runtime/local_collaboration.py:1755-1771 | if completions are one step, no reachable state lacks its election |
| LostElection.ElectionCanBeLost | scripts/codex_loop_runtime/local_collaboration.py:1715-1744 | a concrete run from creation in which the two-part completion loses the election |
| Safety.ElectionIsFinal | scripts/codex_loop_runtime/local_collaboration.py:1969-2014 | after the election slots and delegations are finished and frozen, the state only moves on, the integrator changes only under a larger generation and owns an active tail |
| Safety.ReplayStartsOnce | scripts/codex_loop_runtime/local_collaboration.py:2051-2055 | over a whole run the automatic replay starts at most once |
| Obligations.AdoptionMovesObligations | scripts/codex_loop_runtime/local_collaboration.py:1407-1419 | taking over a lost lease moves every open obligation of the former owner to the new one, offers again what the former owner had taken, and touches nothing settled |
| Obligations.AdoptionRefusedExactly | scripts/codex_loop_runtime/local_collaboration.py:1409-1414 | the move is refused, with the whole transaction, exactly when the new owner already used a request key that it would inherit |
| RefusedRecovery.RecoveryCanBeRefused | scripts/codex_loop_runtime/local_collaboration.py:1407-1414 | a concrete run from creation after which the one worker left chooses the lost slot at any time and every such claim is rolled back |
| Obligations.StepConserves | scripts/codex_loop_runtime/local_collaboration.py:1597-1744 | every step keeps each delegation with its work and request key, changes no settled one, and completes or cancels or accepts only from the right status |
| Obligations.SettledOnlyBy | scripts/codex_loop_runtime/local_collaboration.py:1689-1744 | work is settled only by its recipient completing it or by its sender cancelling it |
| Obligations.RequestsStayDistinct | scripts/codex_loop_runtime/local_collaboration.py:1615-1621 | a sender never has two delegations under one request key, through recoveries too |
| Obligations.DelegatedWorkIsConserved | scripts/codex_loop_runtime/local_collaboration.py:1407-1419 | over whole runs, delegated work is never dropped or altered and its outcome is final |
| Capacity.ResourceBlockedWithin | scripts/codex_loop_runtime/local_collaboration.py:906-933 | learning a ceiling leaves every pool set within its cap |
| Capacity.OfferKeepsCapsExactly | scripts/codex_loop_runtime/local_collaboration.py:1361-1370 | a delegation claimed as a slot respects the caps exactly when each happens to have room, since the claim does not look |
| Capacity.JoinKeepsCapsExactly | scripts/codex_loop_runtime/local_collaboration.py:1287-1290 | the same for a worker that brings its own slot to an unplanned run |
| Capacity.SetCapKeepsCapsExactly | scripts/codex_loop_runtime/local_collaboration.py:868-883 | an operator cap holds at once exactly if it is not below what is claimed already |
| Capacity.CapsHoldExactly | scripts/codex_loop_runtime/local_collaboration.py:1083-1121 | from counts within the caps every step keeps them there exactly if it leaves room in those three cases; overlapping pool sets and learned ceilings included |
| Capacity.CapsHoldThroughout | scripts/codex_loop_runtime/local_collaboration.py:1083-1121 | over whole runs every cap is respected at all times exactly if every step leaves room in those three cases |
| ExceededCap.CapCanBeExceeded | scripts/codex_loop_runtime/local_collaboration.py:1361-1370 | a concrete run from creation after which one more claim exceeds a cap that was respected |
| Rotation.CalmChoice | scripts/codex_loop_runtime/local_collaboration.py:1154-1172 | without rescues and due reviews, under equal load, the pool served longest ago is served and moves to the end |
| Rotation.RotationMovesOnlyInClaims | scripts/codex_loop_runtime/local_collaboration.py:1169-1172 | nothing but a claim touches the rotation |
| Rotation.DispatchIsClaim | scripts/codex_loop_runtime/local_collaboration.py:1325-1378 | a claim that chooses moves the rotation to its pool, and its worker then holds a slot of that pool |
| Rotation.RunsAreConsecutive | scripts/codex_loop_runtime/local_collaboration.py:1169-1172 | the dispatches of any run follow each other in the rotation, whatever happens in between |
| Rotation.WaitIsBounded | scripts/codex_loop_runtime/local_collaboration.py:1125-1173 | in a run of the protocol, among as many consecutive calm dispatches as there are pools, a pool with an eligible ready slot at each of them is served |
| Scheduling.Choice | scripts/codex_loop_runtime/local_collaboration.py:1081-1167 | a chosen slot is a candidate, and nothing is chosen only if there is none |
| Operations.ReclaimedWorkIsReportable | scripts/codex_loop_runtime/local_collaboration.py:704-721 | from then on the worker whose slot was reclaimed, forced or not, can report its work under the lost lease exactly if it had got its inputs and no other commit was reported under it |
| Operations.LostWorkStaysReportable | scripts/codex_loop_runtime/local_collaboration.py:610-629 | whatever happens to the slot later, work under a reclaimed lease can be reported exactly if its inputs had been bound, until one commit was reported for it, and then only that commit |
| Operations.ReplacedWorkerStops | scripts/codex_loop_runtime/local_collaboration.py:1836-1853 | an accepted late result stops the worker that replaced its author: no further claim, and its own finish is refused |
| Operations.RepeatedClaimResumes | scripts/codex_loop_runtime/local_collaboration.py:1301-1385 | a claim repeated after a lost reply resumes the same slot under the same generation and changes nothing but its last touch |
| Operations.JoinedWorkerGetsItsSlot | scripts/codex_loop_runtime/local_collaboration.py:1278-1291 | a worker that joined with its own slot reserves just that slot, under generation 1 |
| Operations.RepeatedCallChangesNothing | scripts/codex_loop_runtime/local_collaboration.py:1597-1744 | a delegation call, late report or handover repeated after a lost reply answers again and changes nothing |
| Operations.RetiredWorkersClaimNothing | scripts/codex_loop_runtime/local_collaboration.py:1011-1034 | a retired worker reserves nothing in any later state |
| Operations.OperatedPoolsAreReserved | scripts/codex_loop_runtime/local_collaboration.py:940-956 | slots of an operated pool go to its operators only, except delegated work in the default pool |
| Operations.OperatorCapIsKept | scripts/codex_loop_runtime/local_collaboration.py:906-933 | over any run of learning and resetting, the cap an operator set is not lost until an operator sets another |
| Operations.OnlyTheIntegratorIntegrates | scripts/codex_loop_runtime/local_collaboration.py:2047-2066 | a worker that is not, or no longer, the integrator changes nothing in the integration |
| Operations.TailIsFinal | scripts/codex_loop_runtime/local_collaboration.py:2215-2226 | a completed serial tail keeps its final head and owner in every later state |
| CheckpointMessage.CursorReadsBack | scripts/codex_loop_runtime/release_lineage.py:1214-1239 | a checkpoint message reads back to its own cursor exactly when no later line of its path poses as a trailer with another value |
| CheckpointMessage.OneLinePathIsHarmless | scripts/codex_loop_runtime/release_lineage.py:1214-1221 | paths without newline always read back |
| CheckpointMessage.NewlinePathMisleads | scripts/codex_loop_runtime/release_lineage.py:1214-1239 | a path with a newline that makes the first checkpoint read as the seventh |
| PortablePublish.CompleteOnlyAudited | scripts/codex_loop_runtime/release_lineage.py:1409-1620 | COMPLETE is returned only for a commit read back with the audited tree and the planned parent |
| PortablePublish.ResumeAtCursor | scripts/codex_loop_runtime/release_lineage.py:1429-1460 | a session that observes the k-th checkpoint continues at item k |
| PortablePublish.BaseIsAncestor | scripts/codex_loop_runtime/release_lineage.py:1490-1516 | every checkpoint descends from the base and differs from it |
| PublishSessions.MoveKeeps | scripts/codex_loop_runtime/release_lineage.py:1363-1621 | a dispatch, a lost reply, an acknowledgement, a death or a restart of any session keeps what all sessions and the staging branch may rely on |
| PublishSessions.StagingIsAlwaysACheckpoint | scripts/codex_loop_runtime/release_lineage.py:1318-1562 | whatever any number of sessions do, the staging branch is absent or at a checkpoint with exactly the first k items applied, naming k, from which every session resumes at item k |
| PublishSessions.StagingOnlyAdvances | scripts/codex_loop_runtime/release_lineage.py:1518-1562 | the staging branch never disappears and never moves back to an earlier checkpoint |
| PublishSessions.TargetWritesArePublications | scripts/codex_loop_runtime/release_lineage.py:1564-1588 | the only commits ever written to the target carry the audited tree on the planned base, and are fast-forwards |
| PublishSessions.CompletionIsReal | scripts/codex_loop_runtime/release_lineage.py:1604-1620 | a session that reports completion has read such a commit |
| PublishProgress.EveryAckMakesProgress | scripts/codex_loop_runtime/release_lineage.py:1363-1621 | a bound on the acknowledgements left drops with every accepted one, whatever the remote replies |
| PublishProgress.HonestStep | scripts/codex_loop_runtime/release_lineage.py:1363-1621 | alone with an honest remote a session never fails, and it ends only with the target published |
| PublishProgress.DriveCompletes | scripts/codex_loop_runtime/release_lineage.py:1358-1621 | such a session completes within its bound |
| PublishProgress.AnyCrashCanBeFinished | scripts/codex_loop_runtime/release_lineage.py:1358-1621 | from whatever any crowd of dying sessions left behind, one more session publishes the target within 5n + 9 acknowledgements |
| GitObjects.AncestorAntisymmetric | scripts/codex_loop_runtime/repository_continuity.py:59-60 | ancestry on commits has no cycles |
| StablePublish.Publisher.Acknowledge | scripts/codex_loop_runtime/release_lineage.py:1883-2010 | the stored state is always that of the whole history; an acknowledgement never moves the cursor back, no state that may write the target is stored without both verifications in the history, and completion is stored only for the audited commit |
| StablePublish.Publisher.ReconcileHeads | scripts/codex_loop_runtime/release_lineage.py:2013-2093 | accepted exactly for the refs seen before or after the write; a write that happened leads to the state that its acknowledgement and readback would have led to |
| StablePublish.ReconcileIsLostAck | scripts/codex_loop_runtime/release_lineage.py:2030-2085 | by what was observed: if the ref is at the written commit, the write and its readback count as acknowledged; otherwise the state is the one before the write |
| StablePublish.ReconcilableHeads | scripts/codex_loop_runtime/release_lineage.py:2030-2085 | in every reached state a reconciliation is accepted exactly for the ref before or after its write, with the tree that belongs to it |
| StablePublish.LostCheckpointIsRecovered | scripts/codex_loop_runtime/release_lineage.py:2042-2064 | a checkpoint write whose reply was lost is recovered: same state as with both acknowledgements, cursor one further |
| StablePublish.LostPublicationIsRecovered | scripts/codex_loop_runtime/release_lineage.py:2069-2075 | the same for the write to the target |
| StablePublish.ReconcilingAddsNothing | scripts/codex_loop_runtime/release_lineage.py:2013-2093 | every state reached with reconciliations is reached by acknowledgements alone |
| StablePublish.CursorStep | scripts/codex_loop_runtime/release_lineage.py:1936-1948 | the cursor advances by one, only after the staging branch was seen at the pending checkpoint |
| StablePublish.CursorNeverMovesBack | scripts/codex_loop_runtime/release_lineage.py:1883-2093 | over whole runs the cursor never moves back |
| StablePublish.VerifiedFirst | scripts/codex_loop_runtime/release_lineage.py:1949-1968 | before any write to the target the staging head was verified to carry the target tree after all paths, then the target head to be the base |
| StablePublish.CompleteIsReadBack | scripts/codex_loop_runtime/release_lineage.py:1975-1987 | completion follows a readback with the target tree on the planned base |
| HeadTail.SummaryIsExact | scripts/codex_loop_runtime/output_buffer.py:87-97 | the summary keeps the two ends of the stream within the budget and counts the rest exactly |
| HeadTail.SummaryOfChunk | scripts/codex_loop_runtime/output_buffer.py:37-61 | what one more chunk does to the summary of the stream so far |
| HeadTail.MergeIsSummary | scripts/codex_loop_runtime/output_buffer.py:63-85 | two summaries determine the summary of both streams, for every budget |
| HeadTail.Buffer.constructor | scripts/codex_loop_runtime/output_buffer.py:16-24 | an empty buffer is the summary of the empty stream |
| HeadTail.Buffer.FillHead | scripts/codex_loop_runtime/output_buffer.py:37-41 | fills the head up to its budget and returns the rest |
| HeadTail.Buffer.PushTail | scripts/codex_loop_runtime/output_buffer.py:43-57 | keeps the last bytes and counts the dropped ones |
| HeadTail.Buffer.PushChunk | scripts/codex_loop_runtime/output_buffer.py:59-61 | the buffer stays the summary of everything pushed |
| HeadTail.Buffer.PushBuffer | scripts/codex_loop_runtime/output_buffer.py:63-85 | after appending a later summary, or the buffer itself, it is the summary of both streams; different budgets are refused |
| HeadTail.Buffer.ToBytes | scripts/codex_loop_runtime/output_buffer.py:87-88 | gives the whole stream exactly when it fits |
| Utf8.ScanIsExact | scripts/codex_loop_runtime/output_stream.py:14-23 | the decoder takes exactly the characters of RFC 3629 section 4 and waits exactly for their beginnings |
| Utf8.DecodesExactly | scripts/codex_loop_runtime/output_stream.py:14-17 | strict decoding succeeds exactly on well-formed bytes |
| Utf8.Utf8Boundary | scripts/codex_loop_runtime/output_stream.py:9-27 | the loop over the last three bytes computes the specified cut |
| Utf8.BoundaryIsExact | scripts/codex_loop_runtime/output_stream.py:9-27 | on any beginning of a well-formed stream the cut is the end of the last complete character |
| Utf8.PrefixHasCut | scripts/codex_loop_runtime/output_stream.py:9-27 | every beginning of a well-formed stream has such a cut, at most three bytes from its end |
| Utf8.BoundaryOfAnything | scripts/codex_loop_runtime/output_stream.py:9-27 | for all bytes, malformed or not, the cut is where an unfinished last character begins, or the end |
| Utf8.CutIsStableExactly | scripts/codex_loop_runtime/output_stream.py:9-35 | what a cut keeps is kept by a second cut exactly when it does not end in an unfinished character itself |
| Utf8.MalformedCutIsNotStable | scripts/codex_loop_runtime/output_stream.py:9-27 | two malformed bytes for which it does |
| OutputStream.Framer.constructor | scripts/codex_loop_runtime/output_stream.py:58-76 | an empty framer with its quota |
| OutputStream.Framer.Push | scripts/codex_loop_runtime/output_stream.py:82-102 | keeps the earliest bytes up to the cap, cut at a character boundary, and counts the rest |
| OutputStream.Framer.Cut | scripts/codex_loop_runtime/output_stream.py:104-120 | cuts ready bytes into frames within the cap, whole characters for text |
| OutputStream.Framer.Drain | scripts/codex_loop_runtime/output_stream.py:104-130 | nothing is lost uncounted; a final drain empties the queue; after any schedule of pushes and drains from which nothing was left out, a well-formed stream has been sent whole in well-formed frames |
| OutputStream.Framer.LosslessIsExact | scripts/codex_loop_runtime/output_stream.py:49-130 | while nothing was omitted, frames and queue are the stream |
| OutputStream.NothingLeftOut | scripts/codex_loop_runtime/output_stream.py:49-130 | bytes left from a stream that are as many as the stream are the stream |
| OutputStream.FrameOutput | scripts/codex_loop_runtime/output_stream.py:38-46 | frames within the cap, bytes only left out; output that is the whole stream is in well-formed frames exactly when the stream is well-formed; with frames to spare a well-formed stream comes out whole exactly when its chunks fit |
| Base64.RoundTrip | scripts/codex_loop_runtime/model_relay.py:67 | decoding base64 gives back every byte string, over any alphabet |
| Relay.Guard | scripts/codex_loop_runtime/model_relay.py:40-49 | the guard loop returns the first characters of the guard text; sizes outside the bounds are refused |
| Relay.WrapSqueezes | scripts/codex_loop_runtime/model_relay.py:52-55 | wrapped text without its whitespace is the encoded text, for every width |
| Relay.Find | scripts/codex_loop_runtime/model_relay.py:153-154 | the leftmost match, or none |
| RelayMetadata.MetadataReads | scripts/codex_loop_runtime/model_relay.py:96-125 | metadata lines written for an envelope read back |
| RelayMarkers.AfterNoise | scripts/codex_loop_runtime/model_relay.py:129-154 | noise without markers does not complete one with what follows |
| RelayRoundTrip.LocateFramed | scripts/codex_loop_runtime/model_relay.py:128-161 | in any noise the metadata and payload of a transfer are found |
| RelayEnvelope.Build | scripts/codex_loop_runtime/model_relay.py:58-83 | builds the envelope exactly for legal ids, guard sizes and widths |
| RelayEnvelope.WrappedPayload | scripts/codex_loop_runtime/model_relay.py:52-55 | every legal line width is a legal wrapping of the payload |
| RelayEnvelope.RoundTrip | scripts/codex_loop_runtime/model_relay.py:52-204 | the data comes back from inside any noise, with the payload wrapped again in any way |
| RelayEnvelope.TruncationIsSafe | scripts/codex_loop_runtime/model_relay.py:128-204 | a truncated envelope gives exactly the data when its payload end arrived, and fails otherwise |
| Continuity.SyncIsExact | scripts/codex_loop_runtime/repository_continuity.py:130-223 | each synchronization state holds exactly under its own condition on the commit graph; the conditions exclude each other |
| Continuity.ReadyProvenanceHolds | scripts/codex_loop_runtime/repository_continuity.py:282-335 | a provenance that allows changes names a present base with its tree in the history of HEAD |
| Continuity.ProvenanceSurvivesGrowth | scripts/codex_loop_runtime/repository_continuity.py:87-127 | the same provenance is accepted for every later HEAD that descends from this one, unless the remote is then seen to be unrelated |
| Continuity.ReadyExactly | scripts/codex_loop_runtime/repository_continuity.py:295-335 | without a supplied provenance a workspace is ready exactly when the remote was observed, is known here and is related |
| Continuity.SuppliedReadyExactly | scripts/codex_loop_runtime/repository_continuity.py:282-294 | with a supplied provenance a workspace is ready exactly when that is accepted and the remote was not seen to be unrelated |
| Continuity.ReadyUnconfirmedExactly | scripts/codex_loop_runtime/repository_continuity.py:282-335 | it is ready although the observed remote does not confirm it exactly when an accepted provenance was supplied and the remote is missing here or has another tree |
| Continuity.ReadyUnconfirmed | scripts/codex_loop_runtime/repository_continuity.py:130-223 | one repository that is ready with a contradicted HEAD tree, and ready with a remote head that is not present |
| TreeDigest.ListingOrderIsIrrelevant | scripts/codex_loop_runtime/deployment_manifest.py:189-213 | the digest of a directory does not depend on the order of its listing |
| TreeDigest.SameDigestExactly | scripts/codex_loop_runtime/deployment_manifest.py:189-213 | two trees have the same digest exactly when they hold the same names, modes and contents at every level |
| TreeDigest.EncodeInjective | scripts/codex_loop_runtime/deployment_manifest.py:207-213 | different lists of entries are never encoded alike |

## Left out

- Git and the file system: worktree paths, patch replay, cherry-picks, refs and cleanliness checks. Observations made before a transaction are arguments of it; a worktree is bound to a slot exactly when its start commit is.
- Several runs in one database, schema upgrades and rows written before task keys existed. One planned or unplanned run is modelled; a slot without a key is known by its position.
- Messages, inbox, notices, idle-wait heartbeats, the activity hook and the collaboration status view. Of the notices only the stop order is kept, as a set of workers that may not claim until they acknowledge it.
- The acceptance gate of one named run and its addendum to the serial tail.
- Syntax of identifiers and texts, titles, instructions, isolation roles. Time is in whole seconds, so a due review is named by the very second that is recorded for it.
- Configuring a recurring review and acknowledging a stop order: transactions of every run, without a method in `Coordinator`.
- `finish` with automatic claim: the claim that follows is a claim like any other. Retried calls that return an earlier answer without writing are not transactions.
- Election.NoElectionIsLost: holds for runs in which a completion is written while its recipient still holds a slot, as if check and write were one step; without that it is false, see above.
- Rotation.WaitIsBounded: only for dispatches without expired leases or due reviews to prefer and with equal live load, since the code prefers those.
- PublishSessions.StagingIsAlwaysACheckpoint: another writer of the staging branch, and a forced update of it, are outside the model.
- PublishProgress.AnyCrashCanBeFinished: for histories in which nobody else moved the target; otherwise the code fails closed.
- The portable token codec and the validation of receipt files: the state is passed on as a value, and a receipt is assumed to carry the tree that its items produce.
- The connector queue that uploads blobs in batches, and publishing by native Git: loops without a property beyond their bounds.
- Relay.Find: matching is defined on characters and fixed-length patterns; file handling and telemetry fields of the relay are not modelled, and metadata integers are read in ASCII digits of any length.
- HeadTail.Buffer.ToBytes: the variant that prints an omission marker between the halves is not modelled.
- Continuity.ReadyProvenanceHolds: ids are compared in normal form; the warm and cold recovery choices after a rejected workspace are a priority list and are not modelled.
- TreeDigest.SameDigestExactly: the `.git` entry of the root is taken as already removed, and other file types than files, links and directories, for which the code raises, do not occur.
