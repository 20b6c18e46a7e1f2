/** The portable publish: a receipt, a token and one observed result determine the next action.  All durable
    progress is in the remote staging branch. */
module PortablePublish {
  import opened Prelude
  import opened GitObjects
  import M = CheckpointMessage

  // ---- Object ids ----

  datatype Id = BlobId(blob: string) | TreeId(tree: Tree) | CommitId(commit: Commit)

  // ---- Receipt ----

  /** One changed path: its new entry, or its deletion. */
  datatype Item = Item(path: string, entry: Option<Entry>)

  datatype Receipt = Receipt(stamp: M.Stamp, base: Commit, baseTree: Tree, targetTree: Tree,
                             sourceMessage: string, items: seq<Item>)

  function ApplyItem(t: Tree, item: Item): Tree {
    if item.entry.None? then t - {item.path} else t[item.path := item.entry.value]
  }

  /** The base tree with the first `k` items applied. */
  function TreeAt(r: Receipt, k: nat): Tree
    requires k <= |r.items|
  {
    if k == 0 then r.baseTree else ApplyItem(TreeAt(r, k - 1), r.items[k - 1])
  }

  /** What the export guarantees about a receipt; its paths must not pose as checkpoint trailers. */
  predicate SoundReceipt(r: Receipt) {
    && M.SoundStamp(r.stamp) && r.stamp.total == |r.items|
    && r.baseTree == r.base.tree && TreeAt(r, |r.items|) == r.targetTree
    && forall i | 0 <= i < |r.items| :: M.HarmlessPath(r.stamp, i + 1, r.items[i].path)
  }

  // ---- Requests and results ----

  datatype Branch = Target | Staging

  datatype Request =
    | Fetch(branch: Branch)
    | CreateBranch(sha: Id)
    | CreateBlob(content: string)
    | CreateTree(baseTree: Id, item: Item)
    | CreateCommit(message: string, tree: Id, parent: Id)
    | UpdateRef(branch: Branch, sha: Id)
    | FetchCommit(sha: Id)

  /** The fields an acknowledgement may carry; absent ones are `None` or false. */
  datatype Result = Result(sha: Option<Id>, tree: Option<Id>, parent: Option<Id>, message: string, ok: bool, notFound: bool)

  const NO_RESULT := Result(None, None, None, "", false, false)

  datatype Phase =
    | TargetObserve | TargetRecheck | TargetExistingVerify
    | StagingObserve | StagingConfirm | StagingCreate
    | PathBlob | PathTree | PathCommit | PathRefUpdate | PathRefReadback
    | FinalCommit | TargetRefUpdate | TargetRefReadback | FinalCommitReadback

  datatype State = State(
    phase: Phase, cursor: nat, currentHead: Option<Id>, currentTree: Option<Id>,
    pendingTree: Option<Id>, pendingCommit: Option<Id>, finalCommit: Option<Id>, observed: Option<Id>)

  function Fresh(phase: Phase): State {
    State(phase, 0, None, None, None, None, None, None)
  }

  datatype Outcome =
    | Continue(state: State, request: Request)
    | Complete(commit: Id, tree: Id, parent: Id)
    | Failure

  // ---- The acknowledgement function ----

  function Start(): Outcome {
    Continue(Fresh(TargetObserve), Fetch(Target))
  }

  function PathStart(r: Receipt, cursor: nat, head: Id, tree: Id): Outcome {
    var st := Fresh(TargetRecheck).(cursor := cursor, currentHead := Some(head), currentTree := Some(tree));
    if cursor >= |r.items| then Continue(st, Fetch(Target))
    else if r.items[cursor].entry.None? then Continue(st.(phase := PathTree), CreateTree(tree, r.items[cursor]))
    else Continue(st.(phase := PathBlob), CreateBlob(r.items[cursor].entry.value.blob))
  }

  function AckTarget(r: Receipt, st: State, res: Result): Outcome {
    if res.sha.None? then Failure
    else if res.sha.value != CommitId(r.base) then
      Continue(Fresh(TargetExistingVerify).(cursor := st.cursor, observed := res.sha), FetchCommit(res.sha.value))
    else if st.phase == TargetObserve then Continue(Fresh(StagingObserve), Fetch(Staging))
    else Continue(st.(phase := FinalCommit), CreateCommit(r.sourceMessage, TreeId(r.targetTree), CommitId(r.base)))
  }

  function AckStaging(r: Receipt, st: State, res: Result): Outcome {
    if res.notFound then
      if st.phase == StagingConfirm then Failure
      else Continue(Fresh(StagingCreate), CreateBranch(CommitId(r.base)))
    else if res.sha.None? || res.tree.None? then Failure
    else if res.sha.value == CommitId(r.base) then
      if res.tree.value != TreeId(r.baseTree) then Failure
      else PathStart(r, 0, CommitId(r.base), TreeId(r.baseTree))
    else
      var cursor := M.CursorOf(r.stamp, res.message);
      if cursor.None? || cursor.value > |r.items| then Failure
      else if cursor.value == |r.items| && res.tree.value != TreeId(r.targetTree) then Failure
      else PathStart(r, cursor.value, res.sha.value, res.tree.value)
  }

  function AckPath(r: Receipt, st: State, res: Result): Outcome
    requires st.cursor < |r.items|
  {
    var item := r.items[st.cursor];
    match st.phase
    case PathBlob =>
      if item.entry.None? || st.currentTree.None? || res.sha != Some(BlobId(item.entry.value.blob)) then Failure
      else Continue(st.(phase := PathTree), CreateTree(st.currentTree.value, item))
    case PathTree =>
      if res.sha.None? || st.currentHead.None? then Failure
      else if st.cursor == |r.items| - 1 && res.sha.value != TreeId(r.targetTree) then Failure
      else Continue(st.(phase := PathCommit, pendingTree := res.sha),
                    CreateCommit(M.Message(r.stamp, st.cursor + 1, item.path), res.sha.value, st.currentHead.value))
    case PathCommit =>
      if res.sha.None? then Failure
      else Continue(st.(phase := PathRefUpdate, pendingCommit := res.sha), UpdateRef(Staging, res.sha.value))
    case PathRefUpdate =>
      if !res.ok then Failure else Continue(st.(phase := PathRefReadback), Fetch(Staging))
    case PathRefReadback =>
      if res.sha.None? || res.tree.None? || res.sha != st.pendingCommit || res.tree != st.pendingTree then Failure
      else if M.CursorOf(r.stamp, res.message) != Some(st.cursor + 1) then Failure
      else PathStart(r, st.cursor + 1, res.sha.value, res.tree.value)
    case _ => Failure
  }

  function AckFinal(r: Receipt, st: State, res: Result): Outcome {
    match st.phase
    case FinalCommit =>
      if res.sha.None? then Failure
      else Continue(st.(phase := TargetRefUpdate, finalCommit := res.sha), UpdateRef(Target, res.sha.value))
    case TargetRefUpdate =>
      if !res.ok then Failure else Continue(st.(phase := TargetRefReadback), Fetch(Target))
    case TargetRefReadback =>
      if res.sha.None? || res.sha != st.finalCommit then Failure
      else Continue(st.(phase := FinalCommitReadback), FetchCommit(res.sha.value))
    case FinalCommitReadback =>
      if st.finalCommit.None? || res.sha != st.finalCommit || res.tree != Some(TreeId(r.targetTree))
         || res.parent != Some(CommitId(r.base)) then Failure
      else Complete(res.sha.value, res.tree.value, res.parent.value)
    case TargetExistingVerify =>
      if st.observed.None? || res.sha != st.observed || res.tree != Some(TreeId(r.targetTree))
         || res.parent != Some(CommitId(r.base)) then Failure
      else Complete(res.sha.value, res.tree.value, res.parent.value)
    case _ => Failure
  }

  function Acknowledge(r: Receipt, st: State, res: Result): Outcome {
    match st.phase
    case TargetObserve => AckTarget(r, st, res)
    case TargetRecheck => AckTarget(r, st, res)
    case StagingObserve => AckStaging(r, st, res)
    case StagingConfirm => AckStaging(r, st, res)
    case StagingCreate => if !res.ok then Failure else Continue(Fresh(StagingConfirm), Fetch(Staging))
    case PathBlob => if st.cursor < |r.items| then AckPath(r, st, res) else Failure
    case PathTree => if st.cursor < |r.items| then AckPath(r, st, res) else Failure
    case PathCommit => if st.cursor < |r.items| then AckPath(r, st, res) else Failure
    case PathRefUpdate => if st.cursor < |r.items| then AckPath(r, st, res) else Failure
    case PathRefReadback => if st.cursor < |r.items| then AckPath(r, st, res) else Failure
    case _ => AckFinal(r, st, res)
  }

  /** Completion is reported only for a commit read back with the audited tree and the planned parent,
      whatever results are passed in. */
  lemma {:induction false} CompleteOnlyAudited(r: Receipt, st: State, res: Result)
    requires Acknowledge(r, st, res).Complete?
    ensures var c := Acknowledge(r, st, res);
            && c.tree == TreeId(r.targetTree) && c.parent == CommitId(r.base)
            && res.sha == Some(c.commit) && res.tree == Some(c.tree) && res.parent == Some(c.parent)
            && (Some(c.commit) == st.finalCommit || Some(c.commit) == st.observed)
            && (st.phase == FinalCommitReadback || st.phase == TargetExistingVerify)
  {
  }

  // ---- The remote ----

  datatype Remote = Remote(target: Commit, staging: Option<Commit>)

  function HeadOf(c: Commit): Result {
    Result(Some(CommitId(c)), Some(TreeId(c.tree)),
           if |c.parents| == 1 then Some(CommitId(c.parents[0])) else None, c.message, false, false)
  }

  function Created(id: Id): Result {
    NO_RESULT.(sha := Some(id))
  }

  /** What an honest remote does with a request: branches are created once and move only forward. */
  function Serve(m: Remote, q: Request, nonce: nat): (Remote, Result) {
    match q
    case Fetch(Target) => (m, HeadOf(m.target))
    case Fetch(Staging) => (m, if m.staging.None? then NO_RESULT.(notFound := true) else HeadOf(m.staging.value))
    case CreateBranch(sha) =>
      if m.staging.None? && sha.CommitId? then (m.(staging := Some(sha.commit)), NO_RESULT.(ok := true)) else (m, NO_RESULT)
    case CreateBlob(content) => (m, Created(BlobId(content)))
    case CreateTree(base, item) => (m, if base.TreeId? then Created(TreeId(ApplyItem(base.tree, item))) else NO_RESULT)
    case CreateCommit(message, tree, parent) =>
      (m, if tree.TreeId? && parent.CommitId? then Created(CommitId(Commit([parent.commit], tree.tree, message, nonce))) else NO_RESULT)
    case UpdateRef(Staging, sha) =>
      if m.staging.Some? && sha.CommitId? && AncestorOrEqual(m.staging.value, sha.commit)
      then (m.(staging := Some(sha.commit)), NO_RESULT.(ok := true)) else (m, NO_RESULT)
    case UpdateRef(Target, sha) =>
      if sha.CommitId? && AncestorOrEqual(m.target, sha.commit)
      then (m.(target := sha.commit), NO_RESULT.(ok := true)) else (m, NO_RESULT)
    case FetchCommit(sha) => (m, if sha.CommitId? then HeadOf(sha.commit) else NO_RESULT)
  }

  // ---- Checkpoints ----

  /** `c` is the k-th checkpoint: the base with the first k items applied, one commit each, the last one
      naming cursor k. */
  predicate Checkpoint(r: Receipt, c: Commit, k: nat)
    requires k <= |r.items|
  {
    && c.tree == TreeAt(r, k)
    && if k == 0 then c == r.base
       else |c.parents| == 1 && c.message == M.Message(r.stamp, k, r.items[k - 1].path)
            && Checkpoint(r, c.parents[0], k - 1)
  }

  ghost predicate SomeCheckpoint(r: Receipt, c: Commit) {
    exists k: nat :: k <= |r.items| && Checkpoint(r, c, k)
  }

  lemma {:induction false} BaseIsAncestor(r: Receipt, c: Commit, k: nat)
    requires k <= |r.items| && Checkpoint(r, c, k)
    ensures AncestorOrEqual(r.base, c)
    ensures k > 0 ==> c != r.base
    decreases k
  {
    if k > 0 {
      BaseIsAncestor(r, c.parents[0], k - 1);
      if c == r.base { AncestorIsSmaller(r.base, c.parents[0]); }
    }
  }

  /** A checkpoint's head answers with its own cursor, so resuming from it starts at the right path. */
  lemma {:induction false} ResumeAtCursor(r: Receipt, c: Commit, k: nat, st: State)
    requires SoundReceipt(r) && k <= |r.items| && Checkpoint(r, c, k)
    requires st.phase == StagingObserve || st.phase == StagingConfirm
    ensures Acknowledge(r, st, HeadOf(c)) == PathStart(r, k, CommitId(c), TreeId(TreeAt(r, k)))
  {
    BaseIsAncestor(r, c, k);
    if k > 0 { M.CursorReadsBack(r.stamp, k, r.items[k - 1].path); }
  }
}
