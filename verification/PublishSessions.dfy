/** Any number of publishing sessions against one remote: they act in any order, lose replies, die at any point
    and start again from the receipt alone. */
module PublishSessions {
  import opened Prelude
  import opened GitObjects
  import opened PortablePublish

  datatype Session = Session(state: State, request: Request, reply: Option<Result>)

  datatype World = World(remote: Remote, sessions: map<nat, Session>)

  datatype Move =
    | Begin(id: nat)
    | Dispatch(id: nat, nonce: nat)
    | DispatchLost(id: nat, nonce: nat)
    | Ack(id: nat)
    | Die(id: nat)
    | Foreign(target: Commit)

  function Next(r: Receipt, w: World, mv: Move): World {
    match mv
    case Begin(id) => w.(sessions := w.sessions[id := Session(Start().state, Start().request, None)])
    case Dispatch(id, nonce) =>
      if id !in w.sessions then w
      else
        var (m, res) := Serve(w.remote, w.sessions[id].request, nonce);
        World(m, w.sessions[id := w.sessions[id].(reply := Some(res))])
    case DispatchLost(id, nonce) =>
      if id !in w.sessions then w else w.(remote := Serve(w.remote, w.sessions[id].request, nonce).0)
    case Ack(id) =>
      if id !in w.sessions || w.sessions[id].reply.None? then w
      else
        var out := Acknowledge(r, w.sessions[id].state, w.sessions[id].reply.value);
        if out.Continue? then w.(sessions := w.sessions[id := Session(out.state, out.request, None)])
        else w.(sessions := w.sessions - {id})
    case Die(id) => w.(sessions := w.sessions - {id})
    case Foreign(target) => w.(remote := w.remote.(target := target))
  }

  // ---- What a session knows ----

  /** The commit a publish may put on the target branch. */
  predicate Published(r: Receipt, c: Commit) {
    c.parents == [r.base] && c.tree == r.targetTree && c.message == r.sourceMessage
  }

  predicate HeadAt(r: Receipt, head: Option<Id>, k: nat)
    requires k <= |r.items|
  {
    head.Some? && head.value.CommitId? && Checkpoint(r, head.value.commit, k)
  }

  predicate FinalAt(r: Receipt, id: Option<Id>) {
    id.Some? && id.value.CommitId? && Published(r, id.value.commit)
  }

  predicate InPath(p: Phase) {
    p == PathBlob || p == PathTree || p == PathCommit || p == PathRefUpdate || p == PathRefReadback
  }

  predicate StateSound(r: Receipt, st: State) {
    && (InPath(st.phase) ==>
          && st.cursor < |r.items| && HeadAt(r, st.currentHead, st.cursor)
          && st.currentTree == Some(TreeId(TreeAt(r, st.cursor))))
    && (st.phase == PathBlob ==> r.items[st.cursor].entry.Some?)
    && (st.phase == PathCommit || st.phase == PathRefUpdate || st.phase == PathRefReadback ==>
          st.pendingTree == Some(TreeId(TreeAt(r, st.cursor + 1))))
    && (st.phase == PathRefUpdate || st.phase == PathRefReadback ==> HeadAt(r, st.pendingCommit, st.cursor + 1))
    && (st.phase == TargetRefUpdate || st.phase == TargetRefReadback || st.phase == FinalCommitReadback ==>
          FinalAt(r, st.finalCommit))
    && (st.phase == TargetExistingVerify ==> st.observed.Some? && st.observed.value.CommitId?)
  }

  /** The one request each phase waits for. */
  function RequestFor(r: Receipt, st: State): Request
    requires StateSound(r, st)
  {
    match st.phase
    case TargetObserve => Fetch(Target)
    case TargetRecheck => Fetch(Target)
    case TargetExistingVerify => FetchCommit(st.observed.value)
    case StagingObserve => Fetch(Staging)
    case StagingConfirm => Fetch(Staging)
    case StagingCreate => CreateBranch(CommitId(r.base))
    case PathBlob => CreateBlob(r.items[st.cursor].entry.value.blob)
    case PathTree => CreateTree(st.currentTree.value, r.items[st.cursor])
    case PathCommit => CreateCommit(M.Message(r.stamp, st.cursor + 1, r.items[st.cursor].path), st.pendingTree.value, st.currentHead.value)
    case PathRefUpdate => UpdateRef(Staging, st.pendingCommit.value)
    case PathRefReadback => Fetch(Staging)
    case FinalCommit => CreateCommit(r.sourceMessage, TreeId(r.targetTree), CommitId(r.base))
    case TargetRefUpdate => UpdateRef(Target, st.finalCommit.value)
    case TargetRefReadback => Fetch(Target)
    case FinalCommitReadback => FetchCommit(st.finalCommit.value)
  }

  ghost predicate StagingHead(r: Receipt, res: Result) {
    res == NO_RESULT.(notFound := true) || exists c, k: nat :: k <= |r.items| && Checkpoint(r, c, k) && res == HeadOf(c)
  }

  /** A reply an honest remote may have given at some time. */
  ghost predicate HonestReply(r: Receipt, q: Request, res: Result) {
    match q
    case Fetch(Target) => exists c :: res == HeadOf(c)
    case Fetch(Staging) => StagingHead(r, res)
    case CreateBlob(content) => res == Created(BlobId(content))
    case CreateTree(base, item) => base.TreeId? && res == Created(TreeId(ApplyItem(base.tree, item)))
    case CreateCommit(message, tree, parent) =>
      tree.TreeId? && parent.CommitId?
      && exists nonce :: res == Created(CommitId(Commit([parent.commit], tree.tree, message, nonce)))
    case FetchCommit(sha) => sha.CommitId? ==> res == HeadOf(sha.commit)
    case CreateBranch(_) => true
    case UpdateRef(_, _) => true
  }

  ghost predicate SessionSound(r: Receipt, s: Session) {
    && StateSound(r, s.state) && s.request == RequestFor(r, s.state)
    && (s.reply.Some? ==> HonestReply(r, s.request, s.reply.value))
  }

  ghost predicate StagingSound(r: Receipt, m: Remote) {
    m.staging.Some? ==> SomeCheckpoint(r, m.staging.value)
  }

  ghost predicate WorldSound(r: Receipt, w: World) {
    StagingSound(r, w.remote) && forall id | id in w.sessions :: SessionSound(r, w.sessions[id])
  }

  // ---- One move ----

  lemma {:induction false} ServeSound(r: Receipt, m: Remote, st: State, nonce: nat)
    requires SoundReceipt(r) && StagingSound(r, m) && StateSound(r, st)
    ensures var (m', res) := Serve(m, RequestFor(r, st), nonce);
            StagingSound(r, m') && HonestReply(r, RequestFor(r, st), res)
  {
    var q := RequestFor(r, st);
    var (m', res) := Serve(m, q, nonce);
    match q
    case Fetch(Target) => assert res == HeadOf(m.target);
    case Fetch(Staging) => if m.staging.Some? { assert SomeCheckpoint(r, m.staging.value); }
    case CreateBranch(sha) => assert Checkpoint(r, r.base, 0);
    case UpdateRef(Staging, sha) => assert Checkpoint(r, sha.commit, st.cursor + 1);
    case CreateCommit(message, tree, parent) =>
      assert res == Created(CommitId(Commit([parent.commit], tree.tree, message, nonce)));
    case _ =>
  }

  /** The next state is one the session may be in, and its request is the one that state waits for. */
  ghost predicate GoesOn(r: Receipt, out: Outcome) {
    out.Continue? ==> StateSound(r, out.state) && out.request == RequestFor(r, out.state)
  }

  lemma {:induction false} PathStartSound(r: Receipt, c: Commit, k: nat)
    requires k <= |r.items| && Checkpoint(r, c, k)
    ensures var out := PathStart(r, k, CommitId(c), TreeId(TreeAt(r, k)));
            out.Continue? && GoesOn(r, out)
  {
  }

  lemma {:induction false} AckStagingSound(r: Receipt, st: State, res: Result)
    requires SoundReceipt(r) && StagingHead(r, res)
    requires st.phase == StagingObserve || st.phase == StagingConfirm
    ensures GoesOn(r, Acknowledge(r, st, res))
  {
    if res != NO_RESULT.(notFound := true) {
      var c, k: nat :| k <= |r.items| && Checkpoint(r, c, k) && res == HeadOf(c);
      ResumeAtCursor(r, c, k, st);
      PathStartSound(r, c, k);
    }
  }

  lemma {:induction false} AckTreeSound(r: Receipt, st: State, res: Result)
    requires StateSound(r, st) && st.phase == PathTree && HonestReply(r, RequestFor(r, st), res)
    ensures GoesOn(r, AckPath(r, st, res))
  {
    assert res == Created(TreeId(TreeAt(r, st.cursor + 1)));
  }

  lemma {:induction false} AckCommitSound(r: Receipt, st: State, res: Result)
    requires StateSound(r, st) && st.phase == PathCommit && HonestReply(r, RequestFor(r, st), res)
    ensures GoesOn(r, AckPath(r, st, res))
  {
    var m := M.Message(r.stamp, st.cursor + 1, r.items[st.cursor].path);
    var nonce :| res == Created(CommitId(Commit([st.currentHead.value.commit], TreeAt(r, st.cursor + 1), m, nonce)));
    assert Checkpoint(r, res.sha.value.commit, st.cursor + 1);
  }

  lemma {:induction false} AckReadbackSound(r: Receipt, st: State, res: Result)
    requires StateSound(r, st) && st.phase == PathRefReadback
    ensures GoesOn(r, AckPath(r, st, res))
  {
    PathStartSound(r, st.pendingCommit.value.commit, st.cursor + 1);
  }

  lemma {:induction false} AckPathSound(r: Receipt, st: State, res: Result)
    requires StateSound(r, st) && InPath(st.phase) && HonestReply(r, RequestFor(r, st), res)
    ensures GoesOn(r, AckPath(r, st, res))
  {
    match st.phase
    case PathTree => AckTreeSound(r, st, res);
    case PathCommit => AckCommitSound(r, st, res);
    case PathRefReadback => AckReadbackSound(r, st, res);
    case PathBlob => AckBlobSound(r, st, res);
    case PathRefUpdate => AckRefUpdateSound(r, st, res);
  }

  lemma {:induction false} AckBlobSound(r: Receipt, st: State, res: Result)
    requires StateSound(r, st) && st.phase == PathBlob && HonestReply(r, RequestFor(r, st), res)
    ensures GoesOn(r, AckPath(r, st, res))
  {
  }

  lemma {:induction false} AckRefUpdateSound(r: Receipt, st: State, res: Result)
    requires StateSound(r, st) && st.phase == PathRefUpdate && HonestReply(r, RequestFor(r, st), res)
    ensures GoesOn(r, AckPath(r, st, res))
  {
  }

  lemma {:induction false} AckObservedSound(r: Receipt, st: State, res: Result)
    requires StateSound(r, st) && (st.phase == TargetObserve || st.phase == TargetRecheck)
    requires HonestReply(r, RequestFor(r, st), res)
    ensures GoesOn(r, Acknowledge(r, st, res))
  {
  }

  lemma {:induction false} AckCreatedSound(r: Receipt, st: State, res: Result)
    requires StateSound(r, st) && st.phase == FinalCommit && HonestReply(r, RequestFor(r, st), res)
    ensures GoesOn(r, Acknowledge(r, st, res))
  {
    var nonce :| res == Created(CommitId(Commit([r.base], r.targetTree, r.sourceMessage, nonce)));
    assert FinalAt(r, res.sha);
  }

  lemma {:induction false} AckTargetSound(r: Receipt, st: State, res: Result)
    requires StateSound(r, st) && !InPath(st.phase) && st.phase != StagingObserve && st.phase != StagingConfirm
    requires HonestReply(r, RequestFor(r, st), res)
    ensures GoesOn(r, Acknowledge(r, st, res))
  {
    match st.phase
    case FinalCommit => AckCreatedSound(r, st, res);
    case TargetObserve => AckObservedSound(r, st, res);
    case TargetRecheck => AckObservedSound(r, st, res);
    case _ =>
  }

  lemma {:induction false} AckSound(r: Receipt, st: State, res: Result)
    requires SoundReceipt(r) && StateSound(r, st) && HonestReply(r, RequestFor(r, st), res)
    ensures GoesOn(r, Acknowledge(r, st, res))
  {
    if InPath(st.phase) { AckPathSound(r, st, res); }
    else if st.phase == StagingObserve || st.phase == StagingConfirm { AckStagingSound(r, st, res); }
    else { AckTargetSound(r, st, res); }
  }

  lemma {:induction false} MoveKeeps(r: Receipt, w: World, mv: Move)
    requires SoundReceipt(r) && WorldSound(r, w)
    ensures WorldSound(r, Next(r, w, mv))
  {
    match mv
    case Dispatch(id, nonce) => if id in w.sessions { ServeSound(r, w.remote, w.sessions[id].state, nonce); }
    case DispatchLost(id, nonce) => if id in w.sessions { ServeSound(r, w.remote, w.sessions[id].state, nonce); }
    case Ack(id) =>
      if id in w.sessions && w.sessions[id].reply.Some? {
        var s := w.sessions[id];
        AckSound(r, s.state, s.reply.value);
      }
    case _ =>
  }

  // ---- Whole runs ----

  function Run(r: Receipt, w: World, moves: seq<Move>): World
    decreases |moves|
  {
    if moves == [] then w else Next(r, Run(r, w, moves[..|moves| - 1]), moves[|moves| - 1])
  }

  lemma {:induction false} RunKeeps(r: Receipt, w: World, moves: seq<Move>)
    requires SoundReceipt(r) && WorldSound(r, w)
    ensures WorldSound(r, Run(r, w, moves))
    decreases |moves|
  {
    if moves != [] {
      RunKeeps(r, w, moves[..|moves| - 1]);
      MoveKeeps(r, Run(r, w, moves[..|moves| - 1]), moves[|moves| - 1]);
    }
  }

  /** `c` is the checkpoint after the first k items: the base tree with exactly those applied, naming cursor k, and
      a session that observes it continues at item k. */
  ghost predicate ResumableAt(r: Receipt, c: Commit, k: nat)
    requires k <= |r.items|
  {
    && Checkpoint(r, c, k) && c.tree == TreeAt(r, k)
    && (k == 0 ==> c == r.base)
    && (k > 0 ==> M.CursorOf(r.stamp, c.message) == Some(k))
    && Acknowledge(r, Fresh(StagingObserve), HeadOf(c)) == PathStart(r, k, CommitId(c), TreeId(TreeAt(r, k)))
  }

  ghost predicate Resumable(r: Receipt, c: Commit) {
    exists k: nat :: k <= |r.items| && ResumableAt(r, c, k)
  }

  /** Whatever any number of sessions do, wherever they die and restart, and whoever moves the target branch, the
      staging branch is absent or at a checkpoint from which every session resumes at the right item. */
  lemma {:induction false} StagingIsAlwaysACheckpoint(r: Receipt, m: Remote, moves: seq<Move>)
    requires SoundReceipt(r) && m.staging.None?
    ensures var staging := Run(r, World(m, map[]), moves).remote.staging; staging.Some? ==> Resumable(r, staging.value)
  {
    RunKeeps(r, World(m, map[]), moves);
    var staging := Run(r, World(m, map[]), moves).remote.staging;
    if staging.Some? {
      var k: nat :| k <= |r.items| && Checkpoint(r, staging.value, k);
      ResumeAtCursor(r, staging.value, k, Fresh(StagingObserve));
      if k > 0 { M.CursorReadsBack(r.stamp, k, r.items[k - 1].path); }
      assert ResumableAt(r, staging.value, k);
    }
  }

  lemma {:induction false} CheckpointHeight(r: Receipt, c: Commit, k: nat)
    requires k <= |r.items| && Checkpoint(r, c, k)
    ensures Height(c) == Height(r.base) + k
    decreases k
  {
    if k > 0 {
      CheckpointHeight(r, c.parents[0], k - 1);
      assert Tallest(c, 1) == Height(c.parents[0]) by { assert Tallest(c, 0) == 0; }
    }
  }

  /** An honest remote never takes a branch away or back. */
  lemma {:induction false} ServeOnlyAdvances(m: Remote, q: Request, nonce: nat)
    requires m.staging.Some?
    ensures var m' := Serve(m, q, nonce).0;
            m'.staging.Some? && AncestorOrEqual(m.staging.value, m'.staging.value) && AncestorOrEqual(m.target, m'.target)
  {
  }

  lemma {:induction false} LaterCheckpoint(r: Receipt, a: Commit, k: nat, c: Commit, n: nat)
    requires k <= |r.items| && n <= |r.items|
    requires Checkpoint(r, a, k) && Checkpoint(r, c, n) && AncestorOrEqual(a, c)
    ensures k <= n
  {
    CheckpointHeight(r, a, k);
    CheckpointHeight(r, c, n);
    AncestorIsSmaller(a, c);
  }

  /** No move takes the staging branch away or back to an earlier checkpoint. */
  lemma {:induction false} StagingOnlyAdvances(r: Receipt, w: World, mv: Move, k: nat)
    requires SoundReceipt(r) && WorldSound(r, w)
    requires w.remote.staging.Some? && k <= |r.items| && Checkpoint(r, w.remote.staging.value, k)
    ensures var staging := Next(r, w, mv).remote.staging;
            && staging.Some? && AncestorOrEqual(w.remote.staging.value, staging.value)
            && exists n: nat :: k <= n <= |r.items| && Checkpoint(r, staging.value, n)
  {
    MoveKeeps(r, w, mv);
    var next := Next(r, w, mv).remote.staging;
    if (mv.Dispatch? || mv.DispatchLost?) && mv.id in w.sessions {
      ServeOnlyAdvances(w.remote, w.sessions[mv.id].request, mv.nonce);
    }
    assert SomeCheckpoint(r, next.value);
    var n: nat :| n <= |r.items| && Checkpoint(r, next.value, n);
    LaterCheckpoint(r, w.remote.staging.value, k, next.value, n);
  }

  lemma {:induction false} ServedTarget(r: Receipt, m: Remote, st: State, nonce: nat)
    requires StateSound(r, st)
    ensures var target := Serve(m, RequestFor(r, st), nonce).0.target;
            target != m.target ==> Published(r, target) && AncestorOrEqual(m.target, target)
  {
    match st.phase
    case TargetRefUpdate => assert FinalAt(r, st.finalCommit);
    case _ =>
  }

  /** The only commits the protocol ever writes to the target branch are publications of the audited tree on the
      planned base, and it writes them only as fast-forwards. */
  lemma {:induction false} TargetWritesArePublications(r: Receipt, w: World, mv: Move)
    requires SoundReceipt(r) && WorldSound(r, w) && !mv.Foreign?
    ensures var target := Next(r, w, mv).remote.target;
            target != w.remote.target ==> Published(r, target) && AncestorOrEqual(w.remote.target, target)
  {
    if (mv.Dispatch? || mv.DispatchLost?) && mv.id in w.sessions {
      ServedTarget(r, w.remote, w.sessions[mv.id].state, mv.nonce);
    }
  }

  /** A session that reports completion read back a commit that has the audited tree and the planned base as its
      only parent. */
  lemma {:induction false} CompletionIsReal(r: Receipt, s: Session)
    requires SoundReceipt(r) && SessionSound(r, s) && s.reply.Some?
    requires Acknowledge(r, s.state, s.reply.value).Complete?
    ensures var id := Acknowledge(r, s.state, s.reply.value).commit;
            id.CommitId? && id.commit.tree == r.targetTree && id.commit.parents == [r.base]
  {
    CompleteOnlyAudited(r, s.state, s.reply.value);
  }
}
