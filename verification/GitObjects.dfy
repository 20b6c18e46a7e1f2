/** Git objects.  They are content-addressed, so an object stands for its id. */
module GitObjects {
  datatype Entry = Entry(mode: string, kind: string, blob: string)
  type Tree = map<string, Entry>

  /** The nonce stands for author and time stamps: repeating a create-commit gives a different commit. */
  datatype Commit = Commit(parents: seq<Commit>, tree: Tree, message: string, nonce: nat)

  predicate AncestorOrEqual(a: Commit, c: Commit) {
    a == c || exists i | 0 <= i < |c.parents| :: AncestorOrEqual(a, c.parents[i])
  }

  function Height(c: Commit): nat {
    1 + Tallest(c, |c.parents|)
  }

  function Tallest(c: Commit, n: nat): nat
    requires n <= |c.parents|
    decreases c, n
  {
    if n == 0 then 0
    else
      var rest := Tallest(c, n - 1);
      var h := Height(c.parents[n - 1]);
      if h > rest then h else rest
  }

  lemma {:induction false} ParentIsShorter(c: Commit, n: nat, i: nat)
    requires i < n <= |c.parents|
    ensures Height(c.parents[i]) <= Tallest(c, n)
    decreases n
  {
    if i < n - 1 { ParentIsShorter(c, n - 1, i); }
  }

  lemma {:induction false} AncestorIsSmaller(a: Commit, c: Commit)
    requires AncestorOrEqual(a, c)
    ensures Height(a) <= Height(c)
    decreases c
  {
    if a != c {
      var i :| 0 <= i < |c.parents| && AncestorOrEqual(a, c.parents[i]);
      AncestorIsSmaller(a, c.parents[i]);
      ParentIsShorter(c, |c.parents|, i);
    }
  }

  lemma {:induction false} AncestorTransitive(a: Commit, b: Commit, c: Commit)
    requires AncestorOrEqual(a, b) && AncestorOrEqual(b, c)
    ensures AncestorOrEqual(a, c)
    decreases c
  {
    if b != c {
      var i :| 0 <= i < |c.parents| && AncestorOrEqual(b, c.parents[i]);
      AncestorTransitive(a, b, c.parents[i]);
    }
  }

  /** History has no cycles: two commits that are ancestors of each other are the same. */
  lemma {:induction false} AncestorAntisymmetric(a: Commit, b: Commit)
    requires AncestorOrEqual(a, b) && AncestorOrEqual(b, a)
    ensures a == b
  {
    if a != b {
      var i :| 0 <= i < |b.parents| && AncestorOrEqual(a, b.parents[i]);
      AncestorIsSmaller(a, b.parents[i]);
      ParentIsShorter(b, |b.parents|, i);
      AncestorIsSmaller(b, a);
    }
  }
}
