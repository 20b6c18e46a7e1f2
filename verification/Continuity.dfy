/** Entering a repository from an existing workspace: how it relates to the observed remote, and which base it may
    claim to descend from. */
module Continuity {
  import opened Prelude
  import opened GitObjects

  /** What Git reports about a workspace.  The merge base is whichever best common ancestor Git picks. */
  datatype Workspace = Workspace(
    isGit: bool, origin: string, branch: Option<string>, head: Option<Commit>, shallow: Option<bool>,
    objects: set<Commit>, mergeBase: (Commit, Commit) -> Option<Commit>)

  ghost predicate Related(a: Commit, b: Commit) {
    exists c :: AncestorOrEqual(c, a) && AncestorOrEqual(c, b)
  }

  /** A merge base is a common ancestor, and there is none exactly for unrelated histories. */
  ghost predicate SoundMergeBase(w: Workspace) {
    forall a, b ::
      match w.mergeBase(a, b)
      case None => !Related(a, b)
      case Some(c) => AncestorOrEqual(c, a) && AncestorOrEqual(c, b)
  }

  /** Git's object database: HEAD is present, and a complete history is closed under parents. */
  ghost predicate SoundWorkspace(w: Workspace) {
    && SoundMergeBase(w)
    && (w.head.Some? ==> w.head.value in w.objects)
    && (w.shallow == Some(false) ==>
          forall c, i | c in w.objects && 0 <= i < |c.parents| :: c.parents[i] in w.objects)
  }

  lemma {:induction false} HistoryIsPresent(w: Workspace, a: Commit, c: Commit)
    requires SoundWorkspace(w) && w.shallow == Some(false) && c in w.objects && AncestorOrEqual(a, c)
    ensures a in w.objects
    decreases c
  {
    if a != c {
      var i :| 0 <= i < |c.parents| && AncestorOrEqual(a, c.parents[i]);
      HistoryIsPresent(w, a, c.parents[i]);
    }
  }

  // ---- Synchronization with the observed remote ----

  datatype Sync =
    | RemoteUnobserved | ObservationMismatch | InSync | RemoteHeadUnseen
    | LocalAhead | RemoteAhead | Unrelated | Diverged(base: Commit)

  function RemoteSync(w: Workspace, head: Commit, remote: Commit, tree: Tree): Sync {
    if remote == head then (if tree != head.tree then ObservationMismatch else InSync)
    else if remote !in w.objects then RemoteHeadUnseen
    else if remote.tree != tree then ObservationMismatch
    else if AncestorOrEqual(remote, head) then LocalAhead
    else if AncestorOrEqual(head, remote) then RemoteAhead
    else
      match w.mergeBase(head, remote)
      case None => Unrelated
      case Some(base) => Diverged(base)
  }

  /** The remote is known here under exactly the observed tree. */
  predicate Known(w: Workspace, head: Commit, remote: Commit, tree: Tree) {
    (remote == head || remote in w.objects) && remote.tree == tree
  }

  /** Each state holds exactly under its own condition on the commit graph, whatever the order of the tests: the
      conditions exclude each other because history has no cycles. */
  lemma {:induction false} SyncIsExact(w: Workspace, head: Commit, remote: Commit, tree: Tree)
    requires SoundWorkspace(w)
    ensures var s, known := RemoteSync(w, head, remote, tree), Known(w, head, remote, tree);
            && (s.InSync? <==> known && remote == head)
            && (s.RemoteHeadUnseen? <==> remote != head && remote !in w.objects)
            && (s.ObservationMismatch? <==> (remote == head || remote in w.objects) && remote.tree != tree)
            && (s.LocalAhead? <==> known && remote != head && AncestorOrEqual(remote, head))
            && (s.RemoteAhead? <==> known && remote != head && AncestorOrEqual(head, remote))
            && (s.Unrelated? <==> known && !Related(head, remote))
            && (s.Diverged? <==> known && Related(head, remote)
                                 && !AncestorOrEqual(head, remote) && !AncestorOrEqual(remote, head))
            && !s.RemoteUnobserved?
  {
    if AncestorOrEqual(remote, head) && AncestorOrEqual(head, remote) { AncestorAntisymmetric(remote, head); }
    assert AncestorOrEqual(head, head) && AncestorOrEqual(remote, remote);
    var base := w.mergeBase(head, remote);
  }

  // ---- Source provenance ----

  datatype Basis =
    | ExactRemote | RemoteIsAncestor | HeadIsAncestor | SharedMergeBase | StructureOnly | Supplied

  datatype Provenance = Provenance(
    schema: bool, verified: bool, pathBound: bool, repository: string, origin: string, branch: string,
    base: Option<Commit>, tree: Option<Tree>, basis: Basis)

  function OriginHint(repository: string): string {
    "github.com/" + repository
  }

  function Claim(repository: string, branch: string, base: Commit, verified: bool, basis: Basis): Provenance {
    Provenance(true, verified, false, repository, OriginHint(repository), branch, Some(base), Some(base.tree), basis)
  }

  /** Whether a supplied provenance is accepted for a HEAD. */
  predicate Accepted(w: Workspace, p: Provenance, repository: string, branch: string, head: Commit) {
    && p.schema && p.verified && !p.pathBound
    && p.repository == repository && p.origin == OriginHint(repository) && p.branch == branch
    && p.base.Some? && p.tree.Some?
    && p.base.value in w.objects && p.base.value.tree == p.tree.value && AncestorOrEqual(p.base.value, head)
  }

  // ---- The decision ----

  datatype Entered = Refused | Rejected | Hot(ready: bool, provenance: Provenance, sync: Sync)

  predicate Usable(w: Workspace, repository: string, branch: string, supplied: Option<Provenance>) {
    && w.isGit && w.origin == OriginHint(repository)
    && (w.branch.Some? ==> w.branch.value == branch)
    && (w.branch.None? ==> supplied.Some?)
    && w.head.Some? && w.shallow == Some(false)
  }

  function Derived(w: Workspace, repository: string, branch: string, head: Commit, remote: Option<Commit>, sync: Sync): Entered {
    match sync
    case InSync => Hot(true, Claim(repository, branch, head, true, ExactRemote), sync)
    case LocalAhead =>
      if remote.None? then Refused
      else Hot(true, Claim(repository, branch, remote.value, true, RemoteIsAncestor), sync)
    case RemoteAhead => Hot(true, Claim(repository, branch, head, true, HeadIsAncestor), sync)
    case Diverged(base) => Hot(true, Claim(repository, branch, base, true, SharedMergeBase), sync)
    case _ => Hot(false, Claim(repository, branch, head, false, StructureOnly), sync)
  }

  /** `Refused` is an error of the caller, who observed only half of the remote. */
  function HotWorkspace(w: Workspace, repository: string, branch: string, supplied: Option<Provenance>,
                        remote: Option<Commit>, remoteTree: Option<Tree>): Entered {
    if !Usable(w, repository, branch, supplied) then Rejected
    else if remote.Some? != remoteTree.Some? then Refused
    else
      var head := w.head.value;
      var sync := if remote.None? then RemoteUnobserved else RemoteSync(w, head, remote.value, remoteTree.value);
      if sync.Unrelated? then Rejected
      else if supplied.Some? then
        if Accepted(w, supplied.value, repository, branch, head) then Hot(true, supplied.value, sync) else Rejected
      else Derived(w, repository, branch, head, remote, sync)
  }

  /** A provenance that allows changes names a base commit that is present, with its tree, in the history of HEAD;
      it would be accepted if it were supplied. */
  lemma {:induction false} ReadyProvenanceHolds(w: Workspace, repository: string, branch: string, supplied: Option<Provenance>,
                             remote: Option<Commit>, remoteTree: Option<Tree>)
    requires SoundWorkspace(w)
    requires HotWorkspace(w, repository, branch, supplied, remote, remoteTree).Hot?
    requires HotWorkspace(w, repository, branch, supplied, remote, remoteTree).ready
    ensures var p := HotWorkspace(w, repository, branch, supplied, remote, remoteTree).provenance;
            && p.base.Some? && p.base.value in w.objects && p.tree == Some(p.base.value.tree)
            && w.head.Some? && AncestorOrEqual(p.base.value, w.head.value)
            && Accepted(w, p, repository, branch, w.head.value)
  {
    var head := w.head.value;
    var p := HotWorkspace(w, repository, branch, supplied, remote, remoteTree).provenance;
    if supplied.None? && remote.Some? {
      SyncIsExact(w, head, remote.value, remoteTree.value);
      HistoryIsPresent(w, p.base.value, head);
    }
  }

  /** `later` is the same workspace after any work that kept repository, branch and complete history. */
  predicate Grown(w: Workspace, later: Workspace) {
    && later.isGit == w.isGit && later.origin == w.origin && later.branch == w.branch
    && later.shallow == w.shallow && w.objects <= later.objects
    && w.head.Some? && later.head.Some? && AncestorOrEqual(w.head.value, later.head.value)
  }

  /** The same provenance is accepted again for every later HEAD that descends from this one, whatever is then
      observed of the remote unless the histories have become unrelated. */
  lemma {:induction false} ProvenanceSurvivesGrowth(w: Workspace, later: Workspace, repository: string, branch: string,
                                 supplied: Option<Provenance>, remote: Option<Commit>, remoteTree: Option<Tree>,
                                 seen: Option<Commit>, seenTree: Option<Tree>)
    requires SoundWorkspace(w) && SoundWorkspace(later) && Grown(w, later)
    requires HotWorkspace(w, repository, branch, supplied, remote, remoteTree).Hot?
    requires HotWorkspace(w, repository, branch, supplied, remote, remoteTree).ready
    requires seen.Some? == seenTree.Some?
    ensures var p := HotWorkspace(w, repository, branch, supplied, remote, remoteTree).provenance;
            var again := HotWorkspace(later, repository, branch, Some(p), seen, seenTree);
            if seen.Some? && Known(later, later.head.value, seen.value, seenTree.value) && !Related(later.head.value, seen.value)
            then again.Rejected?
            else again.Hot? && again.ready && again.provenance == p
  {
    ReadyProvenanceHolds(w, repository, branch, supplied, remote, remoteTree);
    var p := HotWorkspace(w, repository, branch, supplied, remote, remoteTree).provenance;
    AncestorTransitive(p.base.value, w.head.value, later.head.value);
    if seen.Some? { SyncIsExact(later, later.head.value, seen.value, seenTree.value); }
  }

  /** Without a supplied provenance a workspace is ready exactly when the remote was observed as known and related. */
  lemma {:induction false} ReadyExactly(w: Workspace, repository: string, branch: string, remote: Option<Commit>, remoteTree: Option<Tree>)
    requires SoundWorkspace(w) && Usable(w, repository, branch, None)
    ensures var entry := HotWorkspace(w, repository, branch, None, remote, remoteTree);
            entry.Hot? && entry.ready <==>
              && remote.Some? && remoteTree.Some? && Known(w, w.head.value, remote.value, remoteTree.value)
              && Related(w.head.value, remote.value)
  {
    if remote.Some? && remoteTree.Some? {
      SyncIsExact(w, w.head.value, remote.value, remoteTree.value);
      assert AncestorOrEqual(w.head.value, w.head.value);
    }
  }

  /** With a supplied provenance a workspace is ready exactly when that provenance is accepted and the remote, if it
      was observed, was not seen to be unrelated. */
  lemma {:induction false} SuppliedReadyExactly(w: Workspace, repository: string, branch: string, p: Provenance,
                             remote: Option<Commit>, remoteTree: Option<Tree>)
    requires SoundWorkspace(w) && Usable(w, repository, branch, Some(p))
    ensures var entry := HotWorkspace(w, repository, branch, Some(p), remote, remoteTree);
            entry.Hot? && entry.ready <==>
              && remote.Some? == remoteTree.Some? && Accepted(w, p, repository, branch, w.head.value)
              && (remote.Some? ==> !(Known(w, w.head.value, remote.value, remoteTree.value)
                                     && !Related(w.head.value, remote.value)))
  {
    if remote.Some? && remoteTree.Some? { SyncIsExact(w, w.head.value, remote.value, remoteTree.value); }
  }

  /** The observed remote is present here under the observed tree and shares history with HEAD. */
  ghost predicate Confirmed(w: Workspace, head: Commit, remote: Commit, tree: Tree) {
    Known(w, head, remote, tree) && Related(head, remote)
  }

  /** A workspace is ready although the observed remote does not confirm it exactly when an accepted provenance was
      supplied and the observed remote is missing here or contradicts the tree it has here. */
  lemma {:induction false} ReadyUnconfirmedExactly(w: Workspace, repository: string, branch: string,
                             supplied: Option<Provenance>, remote: Commit, tree: Tree)
    requires SoundWorkspace(w) && Usable(w, repository, branch, supplied)
    ensures var entry := HotWorkspace(w, repository, branch, supplied, Some(remote), Some(tree));
            entry.Hot? && entry.ready && !Confirmed(w, w.head.value, remote, tree) <==>
              && supplied.Some? && Accepted(w, supplied.value, repository, branch, w.head.value)
              && !Known(w, w.head.value, remote, tree)
  {
    if supplied.Some? {
      SuppliedReadyExactly(w, repository, branch, supplied.value, Some(remote), Some(tree));
    } else {
      ReadyExactly(w, repository, branch, Some(remote), Some(tree));
    }
  }

  // ---- Two such workspaces ----

  ghost function AnyCommonAncestor(a: Commit, b: Commit): Option<Commit> {
    if Related(a, b) then
      var c :| AncestorOrEqual(c, a) && AncestorOrEqual(c, b);
      Some(c)
    else None
  }

  const FIRST := Commit([], map[], "first", 0)
  const ELSEWHERE := Commit([], map[], "elsewhere", 0)

  /** A repository of one commit. */
  ghost function OneCommit(): Workspace {
    Workspace(true, OriginHint("o/r"), Some("main"), Some(FIRST), Some(false), {FIRST}, (a, b) => AnyCommonAncestor(a, b))
  }

  /** Ready although HEAD itself was observed with another tree, and although the observed head is not here at all. */
  lemma {:induction false} ReadyUnconfirmed()
    ensures var w, p := OneCommit(), Claim("o/r", "main", FIRST, true, Supplied);
            var other: Tree := map["file" := Entry("100644", "blob", "b")];
            var contradicted := HotWorkspace(w, "o/r", "main", Some(p), Some(FIRST), Some(other));
            var unseen := HotWorkspace(w, "o/r", "main", Some(p), Some(ELSEWHERE), Some(map[]));
            && SoundWorkspace(w)
            && contradicted.Hot? && contradicted.ready && contradicted.sync == ObservationMismatch
            && unseen.Hot? && unseen.ready && unseen.sync == RemoteHeadUnseen
  {
    var other: Tree := map["file" := Entry("100644", "blob", "b")];
    assert "file" in other && "file" !in FIRST.tree;
    assert AncestorOrEqual(FIRST, FIRST);
    assert FIRST.message != ELSEWHERE.message;
  }
}
