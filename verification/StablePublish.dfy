/** The store-backed publish: its state is persisted after every acknowledgement, and a lost acknowledgement is
    reconciled from the observed branch heads. */
module StablePublish {
  import opened Prelude

  type Sha = string

  /** One changed path: the blob it must have, or its deletion. */
  datatype Item = Item(path: string, blob: Option<Sha>)

  datatype Manifest = Manifest(items: seq<Item>, base: Sha, baseTree: Sha, targetTree: Sha)

  datatype Phase =
    | CreateStagingBranch | StagingBranchReadback
    | PathBlob | PathTree | PathCommit | PathRefUpdate | PathRefReadback
    | StagingVerify | FinalCommit | TargetRefPrecondition | TargetRefUpdate | TargetRefReadback
    | FinalCommitReadback | Complete

  datatype State = State(
    phase: Phase, cursor: nat, head: Sha, tree: Sha,
    pendingTree: Option<Sha>, pendingCommit: Option<Sha>, verifiedBlob: Option<Sha>,
    finalCommit: Option<Sha>, targetVerified: Option<Sha>)

  /** The observed fields an acknowledgement may carry. */
  datatype Result = Result(ok: bool, sha: Option<Sha>, tree: Option<Sha>, parent: Option<Sha>)

  /** The branch heads observed for a reconciliation. */
  datatype Heads = Heads(staging: Option<Sha>, stagingTree: Option<Sha>, target: Option<Sha>)

  function Started(m: Manifest): State {
    State(CreateStagingBranch, 0, m.base, m.baseTree, None, None, None, None, None)
  }

  function FirstPathPhase(m: Manifest, cursor: nat): Phase {
    if cursor >= |m.items| then StagingVerify
    else if m.items[cursor].blob.None? then PathTree
    else PathBlob
  }

  /** The checkpoint is on the staging branch: on to the next path. */
  function Advanced(m: Manifest, st: State, commit: Sha, tree: Sha): State {
    st.(phase := FirstPathPhase(m, st.cursor + 1), cursor := st.cursor + 1, head := commit, tree := tree,
        pendingTree := None, pendingCommit := None, verifiedBlob := None)
  }

  // ---- Acknowledging ----

  function AckPath(m: Manifest, st: State, res: Result): Option<State> {
    match st.phase
    case PathBlob =>
      if st.cursor >= |m.items| || res.sha.None? || res.sha != m.items[st.cursor].blob then None
      else Some(st.(phase := PathTree, verifiedBlob := res.sha))
    case PathTree =>
      if res.sha.None? || (st.cursor + 1 == |m.items| && res.sha != Some(m.targetTree)) then None
      else Some(st.(phase := PathCommit, pendingTree := res.sha))
    case PathCommit =>
      if res.sha.None? then None else Some(st.(phase := PathRefUpdate, pendingCommit := res.sha))
    case PathRefUpdate =>
      if !res.ok then None else Some(st.(phase := PathRefReadback))
    case PathRefReadback =>
      if res.sha.None? || res.sha != st.pendingCommit || st.pendingTree.None? then None
      else Some(Advanced(m, st, st.pendingCommit.value, st.pendingTree.value))
    case _ => None
  }

  function AckTarget(m: Manifest, st: State, res: Result): Option<State> {
    match st.phase
    case StagingVerify =>
      if res.sha != Some(st.head) || res.tree != Some(m.targetTree) then None else Some(st.(phase := FinalCommit))
    case FinalCommit =>
      if res.sha.None? then None else Some(st.(phase := TargetRefPrecondition, finalCommit := res.sha))
    case TargetRefPrecondition =>
      if res.sha != Some(m.base) then None else Some(st.(phase := TargetRefUpdate, targetVerified := res.sha))
    case TargetRefUpdate =>
      if !res.ok then None else Some(st.(phase := TargetRefReadback))
    case TargetRefReadback =>
      if res.sha.None? || res.sha != st.finalCommit then None else Some(st.(phase := FinalCommitReadback))
    case FinalCommitReadback =>
      if res.sha.None? || res.sha != st.finalCommit || res.tree != Some(m.targetTree) || res.parent != Some(m.base) then None
      else Some(st.(phase := Complete))
    case _ => None
  }

  /** The state after an acknowledgement; `None` when it is refused and nothing is persisted. */
  function Ack(m: Manifest, st: State, res: Result): Option<State> {
    match st.phase
    case CreateStagingBranch => if !res.ok then None else Some(st.(phase := StagingBranchReadback))
    case StagingBranchReadback =>
      if res.sha != Some(m.base) then None else Some(st.(phase := FirstPathPhase(m, st.cursor)))
    case PathBlob => AckPath(m, st, res)
    case PathTree => AckPath(m, st, res)
    case PathCommit => AckPath(m, st, res)
    case PathRefUpdate => AckPath(m, st, res)
    case PathRefReadback => AckPath(m, st, res)
    case _ => AckTarget(m, st, res)
  }

  // ---- Reconciling ----

  function ReconcileStart(m: Manifest, st: State, seen: Heads): Option<State> {
    if seen.staging != Some(m.base) || (seen.stagingTree.Some? && seen.stagingTree.value != m.baseTree) then None
    else Some(st.(phase := FirstPathPhase(m, st.cursor)))
  }

  function ReconcilePath(m: Manifest, st: State, seen: Heads): Option<State> {
    if seen.staging.None? || st.pendingCommit.None? || st.pendingTree.None? then None
    else
      var moved := seen.staging == st.pendingCommit;
      if seen.stagingTree.Some? && seen.stagingTree.value != (if moved then st.pendingTree.value else st.tree) then None
      else if moved then Some(Advanced(m, st, st.pendingCommit.value, st.pendingTree.value))
      else if seen.staging.value == st.head then Some(st.(phase := PathRefUpdate))
      else None
  }

  function ReconcileTarget(m: Manifest, st: State, seen: Heads): Option<State> {
    if seen.target.None? || st.finalCommit.None? then None
    else if seen.target == st.finalCommit then Some(st.(phase := FinalCommitReadback))
    else if seen.target.value == m.base then Some(st.(phase := TargetRefUpdate))
    else None
  }

  function Reconcile(m: Manifest, st: State, seen: Heads): Option<State> {
    match st.phase
    case CreateStagingBranch => ReconcileStart(m, st, seen)
    case StagingBranchReadback => ReconcileStart(m, st, seen)
    case PathRefUpdate => ReconcilePath(m, st, seen)
    case PathRefReadback => ReconcilePath(m, st, seen)
    case TargetRefUpdate => ReconcileTarget(m, st, seen)
    case TargetRefReadback => ReconcileTarget(m, st, seen)
    case PathBlob => Some(st)
    case PathTree => Some(st)
    case _ => None
  }

  // ---- Runs ----

  datatype Step = Acked(res: Result) | Reconciled(seen: Heads)

  function After(m: Manifest, st: State, s: Step): State {
    var next := match s case Acked(res) => Ack(m, st, res) case Reconciled(seen) => Reconcile(m, st, seen);
    if next.Some? then next.value else st
  }

  function Run(m: Manifest, steps: seq<Step>): State {
    if steps == [] then Started(m) else After(m, Run(m, steps[..|steps| - 1]), steps[|steps| - 1])
  }

  predicate AcksOnly(steps: seq<Step>) {
    forall i | 0 <= i < |steps| :: steps[i].Acked?
  }

  lemma RunOneMore(m: Manifest, steps: seq<Step>, s: Step)
    ensures Run(m, steps + [s]) == After(m, Run(m, steps), s)
  {
    var all := steps + [s];
    assert all[..|all| - 1] == steps;
  }

  // ---- Lost acknowledgements ----

  const OK := Result(true, None, None, None)

  function Saw(sha: Option<Sha>): Result {
    Result(true, sha, None, None)
  }

  /** What a reconciliation does to a state that waits for a ref step, by what was observed: if the ref moved, the
      write and its readback count as acknowledged; if it did not, the state is the one before the write. */
  lemma ReconcileIsLostAck(m: Manifest, st: State, seen: Heads)
    requires Reconcile(m, st, seen).Some?
    ensures var next := Reconcile(m, st, seen).value;
            match st.phase
            case CreateStagingBranch => Ack(m, Ack(m, st, OK).value, Saw(seen.staging)) == Some(next)
            case StagingBranchReadback => Ack(m, st, Saw(seen.staging)) == Some(next)
            case PathRefUpdate =>
              if seen.staging == st.pendingCommit then Ack(m, Ack(m, st, OK).value, Saw(seen.staging)) == Some(next)
              else next == st
            case PathRefReadback =>
              if seen.staging == st.pendingCommit then Ack(m, st, Saw(seen.staging)) == Some(next)
              else next == st.(phase := PathRefUpdate)
            case TargetRefUpdate =>
              if seen.target == st.finalCommit then Ack(m, Ack(m, st, OK).value, Saw(seen.target)) == Some(next)
              else next == st
            case TargetRefReadback =>
              if seen.target == st.finalCommit then Ack(m, st, Saw(seen.target)) == Some(next)
              else next == st.(phase := TargetRefUpdate)
            case _ => next == st
  {
  }

  /** The staging branch carries `head`, with `tree` if a tree was observed. */
  predicate SeenAt(seen: Heads, head: Sha, tree: Sha) {
    seen.staging == Some(head) && (seen.stagingTree.None? || seen.stagingTree == Some(tree))
  }

  /** Which observations a reconciliation accepts, in a state that was reached. */
  predicate Reconcilable(m: Manifest, st: State, seen: Heads) {
    match st.phase
    case CreateStagingBranch | StagingBranchReadback => SeenAt(seen, m.base, m.baseTree)
    case PathRefUpdate | PathRefReadback =>
      && st.pendingCommit.Some? && st.pendingTree.Some?
      && (SeenAt(seen, st.pendingCommit.value, st.pendingTree.value)
          || (SeenAt(seen, st.head, st.tree) && seen.staging != st.pendingCommit))
    case TargetRefUpdate | TargetRefReadback => seen.target.Some? && (seen.target == st.finalCommit || seen.target == Some(m.base))
    case PathBlob | PathTree => true
    case _ => false
  }

  /** What the later steps need was recorded by the earlier ones. */
  predicate Recorded(st: State) {
    && (st.phase == PathCommit ==> st.pendingTree.Some?)
    && (st.phase == PathRefUpdate || st.phase == PathRefReadback ==> st.pendingTree.Some? && st.pendingCommit.Some?)
    && (st.phase == TargetRefPrecondition || Publishing(st.phase) ==> st.finalCommit.Some?)
  }

  lemma AckRecords(m: Manifest, st: State, res: Result)
    requires Recorded(st) && Ack(m, st, res).Some?
    ensures Recorded(Ack(m, st, res).value)
  {
  }

  lemma ReconcileRecords(m: Manifest, st: State, seen: Heads)
    requires Recorded(st) && Reconcile(m, st, seen).Some?
    ensures Recorded(Reconcile(m, st, seen).value)
  {
  }

  lemma {:induction false} AlwaysRecorded(m: Manifest, steps: seq<Step>)
    ensures Recorded(Run(m, steps))
  {
    if steps != [] {
      var st, last := Run(m, steps[..|steps| - 1]), steps[|steps| - 1];
      AlwaysRecorded(m, steps[..|steps| - 1]);
      match last
      case Acked(res) => if Ack(m, st, res).Some? { AckRecords(m, st, res); }
      case Reconciled(seen) => if Reconcile(m, st, seen).Some? { ReconcileRecords(m, st, seen); }
    }
  }

  /** A reconciliation of a reached state is accepted exactly when the ref is seen before or after its write, with
      the tree that belongs to it if one was observed. */
  lemma ReconcilableHeads(m: Manifest, steps: seq<Step>, seen: Heads)
    ensures Reconcile(m, Run(m, steps), seen).Some? <==> Reconcilable(m, Run(m, steps), seen)
  {
    AlwaysRecorded(m, steps);
  }

  /** A checkpoint write that happened while its reply was lost is recovered: reconciling from the moved branch leads
      exactly where the write and its readback would have led, one path further. */
  lemma LostCheckpointIsRecovered(m: Manifest, steps: seq<Step>, seen: Heads)
    requires Run(m, steps).phase == PathRefUpdate && seen.staging == Run(m, steps).pendingCommit
    requires seen.stagingTree.None? || seen.stagingTree == Run(m, steps).pendingTree
    ensures Run(m, steps + [Reconciled(seen)]) == Run(m, steps + [Acked(OK), Acked(Saw(seen.staging))])
    ensures Run(m, steps + [Reconciled(seen)]).cursor == Run(m, steps).cursor + 1
    ensures Some(Run(m, steps + [Reconciled(seen)]).head) == seen.staging
  {
    AlwaysRecorded(m, steps);
    ReconcilableHeads(m, steps, seen);
    ReconcileIsLostAck(m, Run(m, steps), seen);
    RunOneMore(m, steps, Reconciled(seen));
    TwoMore(m, steps, Acked(OK), Acked(Saw(seen.staging)));
  }

  /** The same for the write to the target. */
  lemma LostPublicationIsRecovered(m: Manifest, steps: seq<Step>, seen: Heads)
    requires Run(m, steps).phase == TargetRefUpdate && seen.target == Run(m, steps).finalCommit
    ensures Run(m, steps + [Reconciled(seen)]) == Run(m, steps + [Acked(OK), Acked(Saw(seen.target))])
    ensures Run(m, steps + [Reconciled(seen)]).phase == FinalCommitReadback
  {
    AlwaysRecorded(m, steps);
    assert Publishing(Run(m, steps).phase);
    ReconcilableHeads(m, steps, seen);
    assert Reconcilable(m, Run(m, steps), seen);
    ReconcileIsLostAck(m, Run(m, steps), seen);
    RunOneMore(m, steps, Reconciled(seen));
    TwoMore(m, steps, Acked(OK), Acked(Saw(seen.target)));
  }

  lemma TwoMore(m: Manifest, steps: seq<Step>, s: Step, t: Step)
    ensures Run(m, steps + [s, t]) == After(m, After(m, Run(m, steps), s), t)
  {
    assert steps + [s, t] == (steps + [s]) + [t];
    RunOneMore(m, steps, s);
    RunOneMore(m, steps + [s], t);
  }

  /** The phase of the write that a readback phase reads back. */
  function WriteOf(p: Phase): Phase {
    match p
    case PathRefReadback => PathRefUpdate
    case TargetRefReadback => TargetRefUpdate
    case _ => p
  }

  predicate ReadsBack(p: Phase) {
    p == PathRefReadback || p == TargetRefReadback
  }

  lemma OnlyWritesLeadToReadback(m: Manifest, st: State, res: Result)
    requires Ack(m, st, res).Some? && ReadsBack(Ack(m, st, res).value.phase)
    ensures st == Ack(m, st, res).value.(phase := WriteOf(Ack(m, st, res).value.phase))
  {
  }

  /** A state waiting for a readback was reached by acknowledging the write that it reads back. */
  lemma {:induction false} BeforeReadback(m: Manifest, steps: seq<Step>) returns (before: seq<Step>)
    requires AcksOnly(steps) && ReadsBack(Run(m, steps).phase)
    ensures AcksOnly(before) && Run(m, before) == Run(m, steps).(phase := WriteOf(Run(m, steps).phase))
  {
    before := steps[..|steps| - 1];
    var st, last := Run(m, before), steps[|steps| - 1];
    if Ack(m, st, last.res).None? { before := BeforeReadback(m, before); }
    else { OnlyWritesLeadToReadback(m, st, last.res); }
  }

  /** Reconciling reaches no state that ordinary acknowledgements could not have reached. */
  lemma {:induction false} ReconcilingAddsNothing(m: Manifest, steps: seq<Step>) returns (acks: seq<Step>)
    ensures AcksOnly(acks) && Run(m, acks) == Run(m, steps)
  {
    if steps == [] {
      acks := [];
    } else {
      var front, last := steps[..|steps| - 1], steps[|steps| - 1];
      acks := ReconcilingAddsNothing(m, front);
      if last.Acked? {
        RunOneMore(m, acks, last);
        acks := acks + [last];
      } else if Reconcile(m, Run(m, acks), last.seen).Some? {
        acks := InsteadOfReconciling(m, acks, last.seen);
      }
    }
  }

  lemma InsteadOfReconciling(m: Manifest, acks: seq<Step>, seen: Heads) returns (other: seq<Step>)
    requires AcksOnly(acks) && Reconcile(m, Run(m, acks), seen).Some?
    ensures AcksOnly(other) && Run(m, other) == Reconcile(m, Run(m, acks), seen).value
  {
    var st := Run(m, acks);
    ReconcileIsLostAck(m, st, seen);
    match st.phase
    case CreateStagingBranch => other := Acknowledged(m, acks, OK, Saw(seen.staging));
    case StagingBranchReadback => other := acks + [Acked(Saw(seen.staging))]; RunOneMore(m, acks, Acked(Saw(seen.staging)));
    case PathRefUpdate =>
      if seen.staging == st.pendingCommit { other := Acknowledged(m, acks, OK, Saw(seen.staging)); } else { other := acks; }
    case TargetRefUpdate =>
      if seen.target == st.finalCommit { other := Acknowledged(m, acks, OK, Saw(seen.target)); } else { other := acks; }
    case PathRefReadback =>
      if seen.staging == st.pendingCommit {
        other := acks + [Acked(Saw(seen.staging))];
        RunOneMore(m, acks, Acked(Saw(seen.staging)));
      } else {
        other := BeforeReadback(m, acks);
      }
    case TargetRefReadback =>
      if seen.target == st.finalCommit {
        other := acks + [Acked(Saw(seen.target))];
        RunOneMore(m, acks, Acked(Saw(seen.target)));
      } else {
        other := BeforeReadback(m, acks);
      }
    case _ => other := acks;
  }

  lemma Acknowledged(m: Manifest, acks: seq<Step>, a: Result, b: Result) returns (more: seq<Step>)
    requires AcksOnly(acks) && Ack(m, Run(m, acks), a).Some? && Ack(m, Ack(m, Run(m, acks), a).value, b).Some?
    ensures AcksOnly(more) && Some(Run(m, more)) == Ack(m, Ack(m, Run(m, acks), a).value, b)
  {
    more := acks + [Acked(a), Acked(b)];
    TwoMore(m, acks, Acked(a), Acked(b));
  }

  // ---- Progress is never lost ----

  /** The cursor moves by one step forward at most, and only when the staging branch was seen at the pending
      checkpoint, which then is the recorded head. */
  lemma CursorStep(m: Manifest, st: State, s: Step)
    ensures var next := After(m, st, s);
            && st.cursor <= next.cursor <= st.cursor + 1
            && (next.cursor > st.cursor ==>
                  && st.pendingCommit == Some(next.head) && st.pendingTree == Some(next.tree)
                  && match s
                     case Acked(res) => res.sha == Some(next.head)
                     case Reconciled(seen) => seen.staging == Some(next.head))
            && (next.cursor == st.cursor ==> next.head == st.head && next.tree == st.tree)
  {
  }

  lemma {:induction false} CursorNeverMovesBack(m: Manifest, first: seq<Step>, more: seq<Step>)
    ensures Run(m, first).cursor <= Run(m, first + more).cursor <= Run(m, first).cursor + |more|
    decreases |more|
  {
    if more == [] {
      assert first + more == first;
    } else {
      var front := more[..|more| - 1];
      CursorNeverMovesBack(m, first, front);
      assert first + more == (first + front) + [more[|more| - 1]];
      RunOneMore(m, first + front, more[|more| - 1]);
      CursorStep(m, Run(m, first + front), more[|more| - 1]);
    }
  }

  // ---- What precedes every write to the target ----

  /** Step `i` verified that the staging head carries the target tree. */
  predicate StagingVerified(m: Manifest, steps: seq<Step>, i: nat)
    requires i < |steps|
  {
    var st := Run(m, steps[..i]);
    && st.phase == StagingVerify && st.cursor >= |m.items|
    && steps[i].Acked? && steps[i].res.sha == Some(st.head) && steps[i].res.tree == Some(m.targetTree)
  }

  /** Step `j` verified that the target branch is still at the planned base. */
  predicate TargetVerified(m: Manifest, steps: seq<Step>, j: nat)
    requires j < |steps|
  {
    Run(m, steps[..j]).phase == TargetRefPrecondition && steps[j].Acked? && steps[j].res.sha == Some(m.base)
  }

  predicate Publishing(p: Phase) {
    p == TargetRefUpdate || p == TargetRefReadback || p == FinalCommitReadback || p == Complete
  }

  predicate Finalizing(p: Phase) {
    p == FinalCommit || p == TargetRefPrecondition || Publishing(p)
  }

  lemma {:induction false} AllPathsFirst(m: Manifest, steps: seq<Step>)
    ensures var st := Run(m, steps); st.phase == StagingVerify ==> st.cursor >= |m.items|
  {
    if steps != [] { AllPathsFirst(m, steps[..|steps| - 1]); }
  }

  lemma StillVerified(m: Manifest, steps: seq<Step>, n: nat, i: nat)
    requires i < n <= |steps|
    ensures StagingVerified(m, steps[..n], i) ==> StagingVerified(m, steps, i)
    ensures TargetVerified(m, steps[..n], i) ==> TargetVerified(m, steps, i)
  {
    assert steps[..n][..i] == steps[..i];
  }

  ghost predicate StagingWasVerified(m: Manifest, steps: seq<Step>) {
    exists i :: 0 <= i < |steps| && StagingVerified(m, steps, i)
  }

  ghost predicate TargetWasVerified(m: Manifest, steps: seq<Step>) {
    exists i, j :: 0 <= i < j < |steps| && StagingVerified(m, steps, i) && TargetVerified(m, steps, j)
  }

  lemma VerificationStays(m: Manifest, steps: seq<Step>, n: nat)
    requires n <= |steps|
    ensures StagingWasVerified(m, steps[..n]) ==> StagingWasVerified(m, steps)
    ensures TargetWasVerified(m, steps[..n]) ==> TargetWasVerified(m, steps)
  {
    if StagingWasVerified(m, steps[..n]) {
      var i :| 0 <= i < n && StagingVerified(m, steps[..n], i);
      StillVerified(m, steps, n, i);
    }
    if TargetWasVerified(m, steps[..n]) {
      var i, j :| 0 <= i < j < n && StagingVerified(m, steps[..n], i) && TargetVerified(m, steps[..n], j);
      StillVerified(m, steps, n, i);
      StillVerified(m, steps, n, j);
    }
  }

  /** A state in which the target may be written was preceded, in this order, by the verification that the staging
      head carries the target tree after all paths, and by the verification that the target is at the base. */
  lemma {:induction false} VerifiedFirst(m: Manifest, steps: seq<Step>)
    ensures Finalizing(Run(m, steps).phase) ==> StagingWasVerified(m, steps)
    ensures Publishing(Run(m, steps).phase) ==> TargetWasVerified(m, steps)
    decreases |steps|
  {
    if steps != [] {
      var n := |steps| - 1;
      var st, last := Run(m, steps[..n]), steps[n];
      VerifiedFirst(m, steps[..n]);
      VerificationStays(m, steps, n);
      AllPathsFirst(m, steps[..n]);
      if st.phase == StagingVerify && last.Acked? && Ack(m, st, last.res).Some? {
        assert StagingVerified(m, steps, n);
      }
      if st.phase == TargetRefPrecondition && last.Acked? && Ack(m, st, last.res).Some? {
        assert TargetVerified(m, steps, n);
        var i :| 0 <= i < n && StagingVerified(m, steps[..n], i);
        StillVerified(m, steps, n, i);
      }
    }
  }

  /** Completion follows a readback of the final commit with the target tree on the planned base. */
  lemma CompleteIsReadBack(m: Manifest, st: State, s: Step)
    requires After(m, st, s).phase == Complete && st.phase != Complete
    ensures s.Acked? && s.res.sha.Some? && s.res.sha == st.finalCommit
            && s.res.tree == Some(m.targetTree) && s.res.parent == Some(m.base)
  {
  }

  // ---- The stored state ----

  lemma AfterAck(m: Manifest, log: seq<Step>, res: Result)
    ensures var st, next := Run(m, log), Run(m, log + [Acked(res)]);
            && next == After(m, st, Acked(res)) && st.cursor <= next.cursor <= st.cursor + 1
            && (Publishing(next.phase) ==> TargetWasVerified(m, log + [Acked(res)]))
            && (next.phase == Complete && st.phase != Complete ==>
                  res.sha == st.finalCommit && res.tree == Some(m.targetTree) && res.parent == Some(m.base))
  {
    RunOneMore(m, log, Acked(res));
    CursorStep(m, Run(m, log), Acked(res));
    VerifiedFirst(m, log + [Acked(res)]);
    if After(m, Run(m, log), Acked(res)).phase == Complete && Run(m, log).phase != Complete {
      CompleteIsReadBack(m, Run(m, log), Acked(res));
    }
  }

  lemma AfterReconciling(m: Manifest, log: seq<Step>, seen: Heads)
    ensures var st, next := Run(m, log), Run(m, log + [Reconciled(seen)]);
            && next == After(m, st, Reconciled(seen)) && st.cursor <= next.cursor <= st.cursor + 1
            && (Reconcile(m, st, seen).Some? <==> Reconcilable(m, st, seen))
            && (st.phase == PathRefUpdate && Reconcilable(m, st, seen) && seen.staging == st.pendingCommit ==>
                  next == Run(m, log + [Acked(OK), Acked(Saw(seen.staging))]))
            && (st.phase == TargetRefUpdate && Reconcilable(m, st, seen) && seen.target == st.finalCommit ==>
                  next == Run(m, log + [Acked(OK), Acked(Saw(seen.target))]))
  {
    var st := Run(m, log);
    RunOneMore(m, log, Reconciled(seen));
    CursorStep(m, st, Reconciled(seen));
    ReconcilableHeads(m, log, seen);
    if Reconcilable(m, st, seen) {
      if st.phase == PathRefUpdate && seen.staging == st.pendingCommit { LostCheckpointIsRecovered(m, log, seen); }
      if st.phase == TargetRefUpdate && seen.target == st.finalCommit { LostPublicationIsRecovered(m, log, seen); }
    }
  }

  /** The stored state of one publish action. */
  class Publisher {
    const m: Manifest
    var st: State
    /** Every acknowledgement and reconciliation so far, accepted or refused. */
    ghost var log: seq<Step>

    /** The stored state is the one that the whole history leads to. */
    ghost predicate Valid()
      reads this
    {
      st == Run(m, log)
    }

    constructor (m: Manifest)
      ensures Valid() && this.m == m && log == []
    {
      this.m := m;
      st := State(CreateStagingBranch, 0, m.base, m.baseTree, None, None, None, None, None);
      log := [];
    }

    /** The changed copy of the state that an acknowledgement leads to. */
    method Advance(res: Result) returns (r: Option<State>)
      ensures r == Ack(m, st, res)
    {
      var next := st;
      match st.phase {
        case CreateStagingBranch | PathRefUpdate | TargetRefUpdate =>
          if !res.ok { return None; }
          next := next.(phase :=
            if st.phase == CreateStagingBranch then StagingBranchReadback
            else if st.phase == PathRefUpdate then PathRefReadback
            else TargetRefReadback);
        case StagingBranchReadback =>
          if res.sha != Some(m.base) { return None; }
          next := next.(phase := FirstPathPhase(m, st.cursor));
        case PathBlob =>
          if st.cursor >= |m.items| || res.sha.None? || res.sha != m.items[st.cursor].blob { return None; }
          next := next.(verifiedBlob := res.sha);
          next := next.(phase := PathTree);
        case PathTree =>
          if res.sha.None? { return None; }
          if st.cursor + 1 == |m.items| && res.sha.value != m.targetTree { return None; }
          next := next.(pendingTree := res.sha);
          next := next.(phase := PathCommit);
        case PathCommit =>
          if res.sha.None? { return None; }
          next := next.(pendingCommit := res.sha);
          next := next.(phase := PathRefUpdate);
        case PathRefReadback =>
          if res.sha.None? || st.pendingCommit.None? || res.sha.value != st.pendingCommit.value { return None; }
          if st.pendingTree.None? { return None; }
          next := next.(head := st.pendingCommit.value, tree := st.pendingTree.value, cursor := st.cursor + 1);
          next := next.(pendingCommit := None, pendingTree := None, verifiedBlob := None);
          next := next.(phase := FirstPathPhase(m, st.cursor + 1));
        case StagingVerify =>
          if res.sha.None? || res.tree.None? || res.sha.value != st.head || res.tree.value != m.targetTree { return None; }
          next := next.(phase := FinalCommit);
        case FinalCommit =>
          if res.sha.None? { return None; }
          next := next.(finalCommit := res.sha);
          next := next.(phase := TargetRefPrecondition);
        case TargetRefPrecondition =>
          if res.sha.None? || res.sha.value != m.base { return None; }
          next := next.(targetVerified := res.sha);
          next := next.(phase := TargetRefUpdate);
        case TargetRefReadback =>
          if res.sha.None? || st.finalCommit.None? || res.sha.value != st.finalCommit.value { return None; }
          next := next.(phase := FinalCommitReadback);
        case FinalCommitReadback =>
          if res.sha.None? || st.finalCommit.None? || res.tree.None? || res.parent.None? { return None; }
          if res.sha.value != st.finalCommit.value || res.tree.value != m.targetTree || res.parent.value != m.base { return None; }
          next := next.(phase := Complete);
        case Complete => return None;
      }
      return Some(next);
    }

    method Acknowledge(res: Result) returns (ok: bool)
      requires Valid()
      modifies this
      ensures Valid() && log == old(log) + [Acked(res)]
      ensures ok <==> Ack(m, old(st), res).Some?
      ensures old(st).cursor <= st.cursor <= old(st).cursor + 1
      ensures Publishing(st.phase) ==> TargetWasVerified(m, log)
      ensures st.phase == Complete && old(st).phase != Complete ==>
                res.sha == old(st).finalCommit && res.tree == Some(m.targetTree) && res.parent == Some(m.base)
    {
      AfterAck(m, log, res);
      log := log + [Acked(res)];
      var next := Advance(res);
      if next.None? { return false; }
      st := next.value;
      return true;
    }

    /** The changed copy of the state that a reconciliation leads to. */
    method Resolve(seen: Heads) returns (r: Option<State>)
      ensures r == Reconcile(m, st, seen)
    {
      var next := st;
      match st.phase {
        case CreateStagingBranch | StagingBranchReadback =>
          if seen.staging.None? || seen.staging.value != m.base { return None; }
          if seen.stagingTree.Some? && seen.stagingTree.value != m.baseTree { return None; }
          next := next.(phase := FirstPathPhase(m, st.cursor));
        case PathRefUpdate | PathRefReadback =>
          if seen.staging.None? || st.pendingCommit.None? || st.pendingTree.None? { return None; }
          var observed, pending := seen.staging.value, st.pendingCommit.value;
          if seen.stagingTree.Some? {
            var expected := if observed == pending then st.pendingTree.value else st.tree;
            if seen.stagingTree.value != expected { return None; }
          }
          if observed == pending {
            next := next.(head := pending, tree := st.pendingTree.value, cursor := st.cursor + 1);
            next := next.(pendingCommit := None, pendingTree := None, verifiedBlob := None);
            next := next.(phase := FirstPathPhase(m, st.cursor + 1));
          } else if observed == st.head {
            next := next.(phase := PathRefUpdate);
          } else {
            return None;
          }
        case TargetRefUpdate | TargetRefReadback =>
          if seen.target.None? || st.finalCommit.None? { return None; }
          if seen.target.value == st.finalCommit.value {
            next := next.(phase := FinalCommitReadback);
          } else if seen.target.value == m.base {
            next := next.(phase := TargetRefUpdate);
          } else {
            return None;
          }
        case PathBlob | PathTree => return Some(st);
        case _ => return None;
      }
      return Some(next);
    }

    method ReconcileHeads(seen: Heads) returns (ok: bool)
      requires Valid()
      modifies this
      ensures Valid() && log == old(log) + [Reconciled(seen)]
      ensures ok <==> Reconcilable(m, old(st), seen)
      ensures old(st).cursor <= st.cursor <= old(st).cursor + 1
      ensures ok && old(st).phase == PathRefUpdate && seen.staging == old(st).pendingCommit ==>
                st == Run(m, old(log) + [Acked(OK), Acked(Saw(seen.staging))])
      ensures ok && old(st).phase == TargetRefUpdate && seen.target == old(st).finalCommit ==>
                st == Run(m, old(log) + [Acked(OK), Acked(Saw(seen.target))])
    {
      AfterReconciling(m, log, seen);
      log := log + [Reconciled(seen)];
      var next := Resolve(seen);
      if next.None? { return false; }
      st := next.value;
      return true;
    }
  }
}
