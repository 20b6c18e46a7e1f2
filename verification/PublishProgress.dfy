/** Completion of the portable publish: the number of acknowledgements left drops with every one accepted, and an
    honest remote with no other writer takes a session from any restart point to a published target. */
module PublishProgress {
  import opened Prelude
  import opened GitObjects
  import opened PortablePublish
  import opened PublishSessions

  /** An upper bound on the acknowledgements until completion: five for each path left, five for the target, and
      up to four to find the resume point. */
  function AcksLeft(r: Receipt, st: State): int {
    var n := |r.items|;
    match st.phase
    case TargetObserve => 5 * n + 9
    case StagingObserve => 5 * n + 8
    case StagingCreate => 5 * n + 7
    case StagingConfirm => 5 * n + 6
    case PathBlob => 5 * (n - st.cursor) + 5
    case PathTree => 5 * (n - st.cursor) + 4
    case PathCommit => 5 * (n - st.cursor) + 3
    case PathRefUpdate => 5 * (n - st.cursor) + 2
    case PathRefReadback => 5 * (n - st.cursor) + 1
    case TargetRecheck => 5
    case FinalCommit => 4
    case TargetRefUpdate => 3
    case TargetRefReadback => 2
    case FinalCommitReadback => 1
    case TargetExistingVerify => 1
  }

  /** Every accepted acknowledgement brings the session closer to its end, whatever the remote replies. */
  lemma {:induction false} EveryAckMakesProgress(r: Receipt, st: State, res: Result)
    requires Acknowledge(r, st, res).Continue?
    ensures 0 < AcksLeft(r, Acknowledge(r, st, res).state) < AcksLeft(r, st)
  {
    var st' := Acknowledge(r, st, res).state;
    if st.phase == StagingObserve || st.phase == StagingConfirm {
      if !res.notFound && res.sha != Some(CommitId(r.base)) {
        var cursor := M.CursorOf(r.stamp, res.message).value;
        assert st' == PathStart(r, cursor, res.sha.value, res.tree.value).state;
      }
    }
  }

  // ---- An honest remote with one session ----

  /** What dead sessions may leave behind: the staging branch at a checkpoint or absent, and the target at the
      planned base or already published. */
  ghost predicate RestartPoint(r: Receipt, m: Remote) {
    StagingSound(r, m) && (m.target == r.base || Published(r, m.target))
  }

  ghost predicate TargetInStep(r: Receipt, m: Remote, st: State) {
    && (st.phase == TargetExistingVerify ==> st.observed == Some(CommitId(m.target)) && Published(r, m.target))
    && (st.phase == FinalCommit || st.phase == TargetRefUpdate ==> m.target == r.base)
    && (st.phase == TargetRefReadback || st.phase == FinalCommitReadback ==>
          st.finalCommit == Some(CommitId(m.target)) && Published(r, m.target))
  }

  ghost predicate StagingInStep(m: Remote, st: State) {
    && (st.phase == StagingCreate ==> m.staging.None?)
    && (st.phase == StagingConfirm ==> m.staging.Some?)
    && (InPath(st.phase) ==> m.staging.Some?)
    && (InPath(st.phase) && st.phase != PathRefReadback ==> st.currentHead == Some(CommitId(m.staging.value)))
    && (st.phase == PathRefUpdate ==>
          st.pendingCommit.Some? && st.pendingCommit.value.CommitId?
          && st.pendingCommit.value.commit.parents == [m.staging.value])
    && (st.phase == PathRefReadback ==> st.pendingCommit == Some(CommitId(m.staging.value)))
  }

  /** The session's state agrees with the remote, as it does when nobody else writes. */
  ghost predicate InStep(r: Receipt, m: Remote, st: State) {
    RestartPoint(r, m) && StateSound(r, st) && TargetInStep(r, m, st) && StagingInStep(m, st)
  }

  /** The session is told to go on with a state in step, or it is done and the target is published. */
  ghost predicate Advances(r: Receipt, m: Remote, out: Outcome) {
    && !out.Failure?
    && (out.Continue? ==> InStep(r, m, out.state) && out.request == RequestFor(r, out.state))
    && (out.Complete? ==> Published(r, m.target) && out.commit == CommitId(m.target))
  }

  lemma {:induction false} ObserveTargetStep(r: Receipt, m: Remote, st: State, nonce: nat)
    requires SoundReceipt(r) && InStep(r, m, st) && (st.phase == TargetObserve || st.phase == TargetRecheck)
    ensures var (m', res) := Serve(m, RequestFor(r, st), nonce); Advances(r, m', Acknowledge(r, st, res))
  {
  }

  lemma {:induction false} PublishStep(r: Receipt, m: Remote, st: State, nonce: nat)
    requires SoundReceipt(r) && InStep(r, m, st) && (st.phase == FinalCommit || st.phase == TargetRefUpdate)
    ensures var (m', res) := Serve(m, RequestFor(r, st), nonce); Advances(r, m', Acknowledge(r, st, res))
  {
    if st.phase == TargetRefUpdate {
      var c := st.finalCommit.value.commit;
      assert AncestorOrEqual(r.base, c.parents[0]);
      assert AncestorOrEqual(r.base, c);
    }
  }

  lemma {:induction false} ReadTargetStep(r: Receipt, m: Remote, st: State, nonce: nat)
    requires SoundReceipt(r) && InStep(r, m, st) && st.phase == TargetRefReadback
    ensures var (m', res) := Serve(m, RequestFor(r, st), nonce); Advances(r, m', Acknowledge(r, st, res))
  {
  }

  lemma {:induction false} VerifyStep(r: Receipt, m: Remote, st: State, nonce: nat)
    requires SoundReceipt(r) && InStep(r, m, st)
    requires st.phase == FinalCommitReadback || st.phase == TargetExistingVerify
    ensures var (m', res) := Serve(m, RequestFor(r, st), nonce); Advances(r, m', Acknowledge(r, st, res))
  {
    assert Published(r, m.target);
  }

  lemma {:induction false} TargetStep(r: Receipt, m: Remote, st: State, nonce: nat)
    requires SoundReceipt(r) && InStep(r, m, st)
    requires !InPath(st.phase) && !st.phase.StagingObserve? && !st.phase.StagingConfirm? && !st.phase.StagingCreate?
    ensures var (m', res) := Serve(m, RequestFor(r, st), nonce); Advances(r, m', Acknowledge(r, st, res))
  {
    if st.phase == TargetObserve || st.phase == TargetRecheck { ObserveTargetStep(r, m, st, nonce); }
    else if st.phase == FinalCommit || st.phase == TargetRefUpdate { PublishStep(r, m, st, nonce); }
    else if st.phase == TargetRefReadback { ReadTargetStep(r, m, st, nonce); }
    else { VerifyStep(r, m, st, nonce); }
  }

  lemma {:induction false} PathStartInStep(r: Receipt, m: Remote, k: nat)
    requires RestartPoint(r, m) && m.staging.Some?
    requires k <= |r.items| && Checkpoint(r, m.staging.value, k)
    ensures Advances(r, m, PathStart(r, k, CommitId(m.staging.value), TreeId(TreeAt(r, k))))
  {
  }

  lemma {:induction false} StagingStep(r: Receipt, m: Remote, st: State, nonce: nat)
    requires SoundReceipt(r) && InStep(r, m, st)
    requires st.phase == StagingObserve || st.phase == StagingConfirm || st.phase == StagingCreate
    ensures var (m', res) := Serve(m, RequestFor(r, st), nonce); Advances(r, m', Acknowledge(r, st, res))
  {
    if st.phase == StagingCreate { assert Checkpoint(r, r.base, 0); }
    else if m.staging.Some? {
      var c := m.staging.value;
      var k: nat :| k <= |r.items| && Checkpoint(r, c, k);
      ResumeAtCursor(r, c, k, st);
      PathStartInStep(r, m, k);
    }
  }

  lemma {:induction false} CommitServed(r: Receipt, m: Remote, st: State, nonce: nat) returns (c: Commit)
    requires SoundReceipt(r) && InStep(r, m, st) && st.phase == PathCommit
    ensures Serve(m, RequestFor(r, st), nonce) == (m, Created(CommitId(c)))
    ensures c.parents == [m.staging.value] && Checkpoint(r, c, st.cursor + 1)
  {
    c := Commit([m.staging.value], TreeAt(r, st.cursor + 1), M.Message(r.stamp, st.cursor + 1, r.items[st.cursor].path), nonce);
  }

  lemma {:induction false} CommitInStep(r: Receipt, m: Remote, st: State, c: Commit)
    requires InStep(r, m, st) && st.phase == PathCommit
    requires c.parents == [m.staging.value] && Checkpoint(r, c, st.cursor + 1)
    ensures InStep(r, m, st.(phase := PathRefUpdate, pendingCommit := Some(CommitId(c))))
  {
  }

  lemma {:induction false} CommitStep(r: Receipt, m: Remote, st: State, nonce: nat)
    requires SoundReceipt(r) && InStep(r, m, st) && st.phase == PathCommit
    ensures var (m', res) := Serve(m, RequestFor(r, st), nonce); Advances(r, m', Acknowledge(r, st, res))
  {
    var c := CommitServed(r, m, st, nonce);
    CommitInStep(r, m, st, c);
  }

  lemma {:induction false} RefUpdateServed(r: Receipt, m: Remote, st: State, nonce: nat)
    requires SoundReceipt(r) && InStep(r, m, st) && st.phase == PathRefUpdate
    ensures st.pendingCommit.Some? && st.pendingCommit.value.CommitId?
    ensures Serve(m, RequestFor(r, st), nonce)
         == (m.(staging := Some(st.pendingCommit.value.commit)), NO_RESULT.(ok := true))
  {
    var c := st.pendingCommit.value.commit;
    assert AncestorOrEqual(m.staging.value, c.parents[0]);
    assert AncestorOrEqual(m.staging.value, c);
  }

  lemma {:induction false} RefUpdateInStep(r: Receipt, m: Remote, st: State)
    requires InStep(r, m, st) && st.phase == PathRefUpdate
    ensures InStep(r, m.(staging := Some(st.pendingCommit.value.commit)), st.(phase := PathRefReadback))
  {
    assert SomeCheckpoint(r, st.pendingCommit.value.commit);
  }

  lemma {:induction false} RefUpdateStep(r: Receipt, m: Remote, st: State, nonce: nat)
    requires SoundReceipt(r) && InStep(r, m, st) && st.phase == PathRefUpdate
    ensures var (m', res) := Serve(m, RequestFor(r, st), nonce); Advances(r, m', Acknowledge(r, st, res))
  {
    RefUpdateServed(r, m, st, nonce);
    RefUpdateInStep(r, m, st);
  }

  lemma {:induction false} ReadbackOutcome(r: Receipt, st: State, c: Commit)
    requires SoundReceipt(r) && st.phase == PathRefReadback && st.cursor < |r.items| && Checkpoint(r, c, st.cursor + 1)
    requires st.pendingCommit == Some(CommitId(c)) && st.pendingTree == Some(TreeId(c.tree))
    ensures Acknowledge(r, st, HeadOf(c)) == PathStart(r, st.cursor + 1, CommitId(c), TreeId(TreeAt(r, st.cursor + 1)))
  {
    M.CursorReadsBack(r.stamp, st.cursor + 1, r.items[st.cursor].path);
  }

  lemma {:induction false} ReadbackStep(r: Receipt, m: Remote, st: State, nonce: nat)
    requires SoundReceipt(r) && InStep(r, m, st) && st.phase == PathRefReadback
    ensures var (m', res) := Serve(m, RequestFor(r, st), nonce); Advances(r, m', Acknowledge(r, st, res))
  {
    ReadbackOutcome(r, st, m.staging.value);
    PathStartInStep(r, m, st.cursor + 1);
  }

  lemma {:induction false} TreeStep(r: Receipt, m: Remote, st: State, nonce: nat)
    requires SoundReceipt(r) && InStep(r, m, st) && st.phase == PathTree
    ensures var (m', res) := Serve(m, RequestFor(r, st), nonce); Advances(r, m', Acknowledge(r, st, res))
  {
    var res := Serve(m, RequestFor(r, st), nonce).1;
    assert res == Created(TreeId(TreeAt(r, st.cursor + 1)));
  }

  lemma {:induction false} BlobStep(r: Receipt, m: Remote, st: State, nonce: nat)
    requires SoundReceipt(r) && InStep(r, m, st) && st.phase == PathBlob
    ensures var (m', res) := Serve(m, RequestFor(r, st), nonce); Advances(r, m', Acknowledge(r, st, res))
  {
  }

  lemma {:induction false} PathStep(r: Receipt, m: Remote, st: State, nonce: nat)
    requires SoundReceipt(r) && InStep(r, m, st) && InPath(st.phase)
    ensures var (m', res) := Serve(m, RequestFor(r, st), nonce); Advances(r, m', Acknowledge(r, st, res))
  {
    match st.phase
    case PathCommit => CommitStep(r, m, st, nonce);
    case PathRefUpdate => RefUpdateStep(r, m, st, nonce);
    case PathRefReadback => ReadbackStep(r, m, st, nonce);
    case PathTree => TreeStep(r, m, st, nonce);
    case _ => BlobStep(r, m, st, nonce);
  }

  lemma {:induction false} HonestStep(r: Receipt, m: Remote, st: State, nonce: nat)
    requires SoundReceipt(r) && InStep(r, m, st)
    ensures var (m', res) := Serve(m, RequestFor(r, st), nonce); Advances(r, m', Acknowledge(r, st, res))
  {
    if InPath(st.phase) { PathStep(r, m, st, nonce); }
    else if st.phase == StagingObserve || st.phase == StagingConfirm || st.phase == StagingCreate { StagingStep(r, m, st, nonce); }
    else { TargetStep(r, m, st, nonce); }
  }

  lemma {:induction false} AcksLeftPositive(r: Receipt, st: State)
    requires StateSound(r, st)
    ensures 0 < AcksLeft(r, st) <= 5 * |r.items| + 9
  {
  }

  /** A session alone with an honest remote, dispatching and acknowledging until it stops. */
  ghost function Drive(r: Receipt, m: Remote, st: State, nonces: nat -> nat): (Remote, Outcome, nat)
    requires SoundReceipt(r) && InStep(r, m, st)
    decreases AcksLeft(r, st)
  {
    AcksLeftPositive(r, st);
    HonestStep(r, m, st, nonces(0));
    var (m', res) := Serve(m, RequestFor(r, st), nonces(0));
    var out := Acknowledge(r, st, res);
    if out.Continue? then
      EveryAckMakesProgress(r, st, res);
      var (last, end, acks) := Drive(r, m', out.state, i => nonces(i + 1));
      (last, end, acks + 1)
    else (m', out, 1)
  }

  lemma {:induction false} DriveCompletes(r: Receipt, m: Remote, st: State, nonces: nat -> nat)
    requires SoundReceipt(r) && InStep(r, m, st)
    ensures var (last, end, acks) := Drive(r, m, st, nonces);
            end.Complete? && end.commit == CommitId(last.target) && Published(r, last.target) && acks <= AcksLeft(r, st)
    decreases AcksLeft(r, st)
  {
    AcksLeftPositive(r, st);
    HonestStep(r, m, st, nonces(0));
    var (m', res) := Serve(m, RequestFor(r, st), nonces(0));
    var out := Acknowledge(r, st, res);
    if out.Continue? {
      EveryAckMakesProgress(r, st, res);
      DriveCompletes(r, m', out.state, i => nonces(i + 1));
    }
  }

  // ---- What a crowd of dying sessions leaves is always a restart point ----

  lemma {:induction false} RunsLeaveARestartPoint(r: Receipt, m: Remote, moves: seq<Move>)
    requires SoundReceipt(r) && m.staging.None? && (m.target == r.base || Published(r, m.target))
    requires forall i | 0 <= i < |moves| :: !moves[i].Foreign?
    ensures RestartPoint(r, Run(r, World(m, map[]), moves).remote)
    decreases |moves|
  {
    RunKeeps(r, World(m, map[]), moves);
    if moves != [] {
      var before := moves[..|moves| - 1];
      RunsLeaveARestartPoint(r, m, before);
      RunKeeps(r, World(m, map[]), before);
      TargetWritesArePublications(r, Run(r, World(m, map[]), before), moves[|moves| - 1]);
    }
  }

  /** However many sessions acted and wherever they died, one more session that starts from the receipt alone and
      is then left alone publishes the target within 5n + 9 acknowledgements. */
  lemma {:induction false} AnyCrashCanBeFinished(r: Receipt, m: Remote, moves: seq<Move>, nonces: nat -> nat)
    requires SoundReceipt(r) && m.staging.None? && (m.target == r.base || Published(r, m.target))
    requires forall i | 0 <= i < |moves| :: !moves[i].Foreign?
    ensures var left := Run(r, World(m, map[]), moves).remote;
            InStep(r, left, Start().state)
    ensures var (last, end, acks) := Drive(r, Run(r, World(m, map[]), moves).remote, Start().state, nonces);
            end.Complete? && end.commit == CommitId(last.target) && Published(r, last.target) && acks <= 5 * |r.items| + 9
  {
    RunsLeaveARestartPoint(r, m, moves);
    DriveCompletes(r, Run(r, World(m, map[]), moves).remote, Start().state, nonces);
  }
}
