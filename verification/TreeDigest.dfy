/** The digest of a directory tree: a canonical encoding of its entries, whatever order they are listed in. */
module TreeDigest {
  import opened Prelude

  type Bytes = seq<byte>

  /** Directory listings come in any order.  `executable` is the owner's execute bit. */
  datatype Node = File(executable: bool, content: Bytes) | Link(target: Bytes) | Dir(children: seq<Child>)
  datatype Child = Child(name: Bytes, node: Node)

  /** What is hashed: bytes, and digests of other objects. */
  datatype Token = Byte(b: byte) | Object(d: Digest)

  /** A digest stands for the object it was computed from. */
  datatype Digest = Digest(kind: Bytes, payload: seq<Token>)

  // ---- Order of entries ----

  predicate Less(a: Bytes, b: Bytes)
    decreases |a|
  {
    if b == [] then false
    else if a == [] then true
    else a[0] < b[0] || (a[0] == b[0] && Less(a[1..], b[1..]))
  }

  lemma {:induction false} LessTransitive(a: Bytes, b: Bytes, c: Bytes)
    requires Less(a, b) && Less(b, c)
    ensures Less(a, c)
    decreases |a|
  {
    if a != [] && a[0] == b[0] == c[0] { LessTransitive(a[1..], b[1..], c[1..]); }
  }

  lemma {:induction false} LessTotal(a: Bytes, b: Bytes)
    ensures !Less(a, a)
    ensures a == b || Less(a, b) || Less(b, a)
    decreases |a|
  {
    if a != [] {
      LessTotal(a[1..], a[1..]);
      if b != [] && a[0] == b[0] {
        LessTotal(a[1..], b[1..]);
        assert a == [a[0]] + a[1..] && b == [b[0]] + b[1..];
      }
    }
  }

  // ---- Lines ----

  datatype Line = Line(key: Bytes, mode: Bytes, name: Bytes, digest: Digest)

  const SLASH: byte := 47
  const SPACE: byte := 32
  const MODE_DIR: Bytes := [52, 48, 48, 48, 48]
  const MODE_FILE: Bytes := [49, 48, 48, 54, 52, 52]
  const MODE_EXECUTABLE: Bytes := [49, 48, 48, 55, 53, 53]
  const MODE_LINK: Bytes := [49, 50, 48, 48, 48, 48]
  const BLOB: Bytes := [98, 108, 111, 98]
  const TREE: Bytes := [116, 114, 101, 101]

  function Mode(n: Node): Bytes {
    match n
    case Link(_) => MODE_LINK
    case File(executable, _) => if executable then MODE_EXECUTABLE else MODE_FILE
    case Dir(_) => MODE_DIR
  }

  function Key(name: Bytes, n: Node): Bytes {
    if n.Dir? then name + [SLASH] else name
  }

  function Raw(s: Bytes): seq<Token> {
    seq(|s|, i requires 0 <= i < |s| => Byte(s[i]))
  }

  /** Inserts a line where its key belongs. */
  function Insert(line: Line, sorted: seq<Line>): seq<Line> {
    if sorted == [] then [line]
    else if Less(line.key, sorted[0].key) then [line] + sorted
    else [sorted[0]] + Insert(line, sorted[1..])
  }

  function Sort(lines: seq<Line>): seq<Line> {
    if lines == [] then [] else Insert(lines[|lines| - 1], Sort(lines[..|lines| - 1]))
  }

  function EncodeLine(line: Line): seq<Token> {
    Raw(line.mode) + [Byte(SPACE)] + Raw(line.name) + [Byte(0)] + [Object(line.digest)]
  }

  function Encode(lines: seq<Line>): seq<Token> {
    if lines == [] then [] else Encode(lines[..|lines| - 1]) + EncodeLine(lines[|lines| - 1])
  }

  function LinesOf(children: seq<Child>): (r: seq<Line>)
    ensures |r| == |children|
  {
    seq(|children|, i requires 0 <= i < |children| =>
      Line(Key(children[i].name, children[i].node), Mode(children[i].node), children[i].name, DigestOf(children[i].node)))
  }

  function DigestOf(n: Node): Digest {
    match n
    case File(_, content) => Digest(BLOB, Raw(content))
    case Link(target) => Digest(BLOB, Raw(target))
    case Dir(children) => Digest(TREE, Encode(Sort(LinesOf(children))))
  }

  // ---- Trees that hold the same ----

  /** Names are those a file system allows: distinct within a directory, without slash or zero byte. */
  predicate WellNamed(n: Node) {
    n.Dir? ==>
      && (forall i | 0 <= i < |n.children| :: SLASH !in n.children[i].name && 0 !in n.children[i].name && WellNamed(n.children[i].node))
      && (forall i, j | 0 <= i < j < |n.children| :: n.children[i].name != n.children[j].name)
  }

  /** The same content, modes and names at every level, in whatever order they are listed. */
  predicate Same(a: Node, b: Node)
    decreases a
  {
    match (a, b)
    case (File(x, s), File(y, t)) => x == y && s == t
    case (Link(s), Link(t)) => s == t
    case (Dir(xs), Dir(ys)) =>
      && (forall i | 0 <= i < |xs| :: AmongSecond(xs[i], ys))
      && (forall j | 0 <= j < |ys| :: AmongFirst(xs, ys[j]))
    case _ => false
  }

  predicate AmongSecond(c: Child, ys: seq<Child>)
    decreases c
  {
    exists j | 0 <= j < |ys| :: c.name == ys[j].name && Same(c.node, ys[j].node)
  }

  predicate AmongFirst(xs: seq<Child>, d: Child)
    decreases xs
  {
    exists i | 0 <= i < |xs| :: xs[i].name == d.name && Same(xs[i].node, d.node)
  }

  // ---- Sorting is canonical ----

  function Members(lines: seq<Line>): set<Line> {
    set i | 0 <= i < |lines| :: lines[i]
  }

  predicate Sorted(lines: seq<Line>) {
    forall i, j | 0 <= i < j < |lines| :: Less(lines[i].key, lines[j].key)
  }

  lemma {:induction false} MembersOfOne(line: Line)
    ensures Members([line]) == {line}
  {
    assert [line][0] == line && line in Members([line]);
  }

  lemma {:induction false} SomeMember(s: seq<Line>)
    ensures s != [] ==> Members(s) != {}
  {
    if s != [] { assert s[0] in Members(s); }
  }

  lemma {:induction false} InsertKeeps(line: Line, s: seq<Line>)
    requires Sorted(s) && forall i | 0 <= i < |s| :: s[i].key != line.key
    ensures Sorted(Insert(line, s)) && Members(Insert(line, s)) == Members(s) + {line}
    decreases |s|
  {
    if s == [] {
      MembersOfOne(line);
    } else if Less(line.key, s[0].key) {
      FrontFits(line, s);
      MembersOfOne(line);
      MembersOfSum([line], s);
    } else {
      LessTotal(line.key, s[0].key);
      InsertKeeps(line, s[1..]);
      var rest := Insert(line, s[1..]);
      forall i | 0 <= i < |rest| ensures Less(s[0].key, rest[i].key) {
        assert rest[i] in Members(rest);
      }
      MembersOfSum([s[0]], rest);
      MembersOfSum([s[0]], s[1..]);
      assert s == [s[0]] + s[1..];
    }
  }

  lemma {:induction false} FrontFits(line: Line, s: seq<Line>)
    requires Sorted(s) && s != [] && Less(line.key, s[0].key)
    ensures Sorted([line] + s)
  {
    forall i | 0 <= i < |s| ensures Less(line.key, s[i].key) {
      if i > 0 { LessTransitive(line.key, s[0].key, s[i].key); }
    }
  }

  lemma {:induction false} MembersOfSum(a: seq<Line>, b: seq<Line>)
    ensures Members(a + b) == Members(a) + Members(b)
  {
    forall x | x in Members(b) ensures x in Members(a + b) {
      var i :| 0 <= i < |b| && b[i] == x;
      assert (a + b)[|a| + i] == x;
    }
    forall x | x in Members(a) ensures x in Members(a + b) {
      var i :| 0 <= i < |a| && a[i] == x;
      assert (a + b)[i] == x;
    }
  }

  predicate DistinctKeys(lines: seq<Line>) {
    forall i, j | 0 <= i < j < |lines| :: lines[i].key != lines[j].key
  }

  lemma {:induction false} SortIsSorted(lines: seq<Line>)
    requires DistinctKeys(lines)
    ensures Sorted(Sort(lines)) && Members(Sort(lines)) == Members(lines)
    decreases |lines|
  {
    if lines != [] {
      var front, last := lines[..|lines| - 1], lines[|lines| - 1];
      SortIsSorted(front);
      forall i | 0 <= i < |Sort(front)| ensures Sort(front)[i].key != last.key {
        assert Sort(front)[i] in Members(front);
      }
      InsertKeeps(last, Sort(front));
      MembersOfSum(front, [last]);
      assert lines == front + [last];
    }
  }

  lemma {:induction false} SortedIsUnique(a: seq<Line>, b: seq<Line>)
    requires Sorted(a) && Sorted(b) && Members(a) == Members(b)
    ensures a == b
    decreases |a|
  {
    if a == [] {
      SomeMember(b);
    } else {
      assert a[0] in Members(b);
      assert b != [];
      FirstIsLeast(a, b);
      RestMembers(a, b);
      SortedIsUnique(a[1..], b[1..]);
      assert a == [a[0]] + a[1..] && b == [b[0]] + b[1..];
    }
  }

  lemma {:induction false} FirstIsLeast(a: seq<Line>, b: seq<Line>)
    requires a != [] && b != [] && Sorted(a) && Sorted(b) && Members(a) == Members(b)
    ensures a[0] == b[0]
  {
    assert a[0] in Members(b) && b[0] in Members(a);
    var i :| 0 <= i < |b| && b[i] == a[0];
    var j :| 0 <= j < |a| && a[j] == b[0];
    if i > 0 && j > 0 {
      LessTransitive(a[0].key, b[0].key, a[0].key);
      LessTotal(a[0].key, a[0].key);
    }
  }

  lemma {:induction false} RestMembers(a: seq<Line>, b: seq<Line>)
    requires a != [] && b != [] && Sorted(a) && Sorted(b) && Members(a) == Members(b) && a[0] == b[0]
    ensures Members(a[1..]) == Members(b[1..])
  {
    RestIs(a);
    RestIs(b);
  }

  lemma {:induction false} RestIs(a: seq<Line>)
    requires a != [] && Sorted(a)
    ensures Members(a[1..]) == Members(a) - {a[0]}
  {
    MembersOfSum([a[0]], a[1..]);
    assert a == [a[0]] + a[1..];
    forall i | 0 <= i < |a[1..]| ensures a[1..][i] != a[0] {
      LessTotal(a[0].key, a[0].key);
    }
  }

  // ---- The encoding is injective ----

  predicate Proper(line: Line) {
    && SPACE !in line.mode && 0 !in line.name
    && line.key == if line.mode == MODE_DIR then line.name + [SLASH] else line.name
  }

  predicate AllBytes(t: seq<Token>) {
    forall i | 0 <= i < |t| :: t[i].Byte?
  }

  predicate EndsWithObject(t: seq<Token>) {
    t == [] || t[|t| - 1].Object?
  }

  lemma {:induction false} Unaligned(a: seq<Token>, r: seq<Token>, d: Digest, b: seq<Token>, s: seq<Token>, e: Digest)
    requires AllBytes(r) && EndsWithObject(b) && |a| < |b|
    ensures a + r + [Object(d)] != b + s + [Object(e)]
  {
    var x, y, n := a + r + [Object(d)], b + s + [Object(e)], |b| - 1;
    assert y[n] == b[n];
    if n < |a| + |r| { assert x[n] == r[n - |a|]; }
  }

  lemma {:induction false} SplitLast(a: seq<Token>, r: seq<Token>, d: Digest, b: seq<Token>, s: seq<Token>, e: Digest)
    requires AllBytes(r) && AllBytes(s) && EndsWithObject(a) && EndsWithObject(b)
    requires a + r + [Object(d)] == b + s + [Object(e)]
    ensures a == b && r == s && d == e
  {
    var x, y := a + r + [Object(d)], b + s + [Object(e)];
    assert x[|x| - 1] == Object(d) && y[|y| - 1] == Object(e);
    if |a| < |b| { Unaligned(a, r, d, b, s, e); }
    if |b| < |a| { Unaligned(b, s, e, a, r, d); }
    assert x[..|a|] == a && y[..|b|] == b;
    assert x[|a|..|x| - 1] == r && y[|b|..|y| - 1] == s;
  }

  lemma {:induction false} RawInjective(s: Bytes, t: Bytes)
    requires Raw(s) == Raw(t)
    ensures s == t
  {
    assert |Raw(s)| == |s| && |Raw(t)| == |t|;
    forall i | 0 <= i < |s| ensures s[i] == t[i] { assert Raw(s)[i] == Raw(t)[i]; }
  }

  function Plain(line: Line): Bytes {
    line.mode + [SPACE] + line.name + [0]
  }

  lemma {:induction false} LineParts(line: Line)
    ensures EncodeLine(line) == Raw(Plain(line)) + [Object(line.digest)]
  {
    assert Raw(Plain(line)) == Raw(line.mode) + [Byte(SPACE)] + Raw(line.name) + [Byte(0)];
  }

  lemma {:induction false} EarlierSpace(x: Line, y: Line)
    requires SPACE !in y.mode && |x.mode| < |y.mode|
    ensures Plain(x) != Plain(y)
  {
    assert Plain(x)[|x.mode|] == SPACE;
    assert Plain(y)[|x.mode|] == y.mode[|x.mode|];
  }

  lemma {:induction false} SplitName(x: Line, y: Line)
    requires Proper(x) && Proper(y) && Plain(x) == Plain(y)
    ensures x.mode == y.mode && x.name == y.name && x.key == y.key
  {
    var s, t := Plain(x), Plain(y);
    assert s[|x.mode|] == SPACE && t[|y.mode|] == SPACE;
    if |x.mode| < |y.mode| { EarlierSpace(x, y); }
    if |y.mode| < |x.mode| { EarlierSpace(y, x); }
    assert s[..|x.mode|] == x.mode && t[..|y.mode|] == y.mode;
    assert s[|x.mode| + 1..|s| - 1] == x.name && t[|y.mode| + 1..|t| - 1] == y.name;
  }

  lemma {:induction false} EncodeEnds(lines: seq<Line>)
    ensures EndsWithObject(Encode(lines))
  {
  }

  lemma {:induction false} EncodeNonempty(lines: seq<Line>)
    ensures lines != [] ==> Encode(lines) != []
  {
  }

  lemma {:induction false} LastLine(lines: seq<Line>)
    requires lines != []
    ensures var n := |lines| - 1;
            Encode(lines) == Encode(lines[..n]) + Raw(Plain(lines[n])) + [Object(lines[n].digest)]
  {
    LineParts(lines[|lines| - 1]);
  }

  /** Different lists of lines are never encoded alike. */
  lemma {:induction false} EncodeInjective(a: seq<Line>, b: seq<Line>)
    requires AllProper(a) && AllProper(b) && Encode(a) == Encode(b)
    ensures a == b
    decreases |a|
  {
    if a == [] || b == [] {
      EncodeNonempty(a);
      EncodeNonempty(b);
    } else {
      FrontProper(a);
      FrontProper(b);
      SameLast(a, b);
      EncodeInjective(a[..|a| - 1], b[..|b| - 1]);
      assert a == a[..|a| - 1] + [a[|a| - 1]] && b == b[..|b| - 1] + [b[|b| - 1]];
    }
  }

  ghost predicate AllProper(lines: seq<Line>) {
    forall i | 0 <= i < |lines| :: Proper(lines[i])
  }

  lemma {:induction false} FrontProper(lines: seq<Line>)
    requires AllProper(lines) && lines != []
    ensures AllProper(lines[..|lines| - 1]) && Proper(lines[|lines| - 1])
  {
  }

  lemma {:induction false} SameLast(a: seq<Line>, b: seq<Line>)
    requires a != [] && b != [] && Proper(a[|a| - 1]) && Proper(b[|b| - 1]) && Encode(a) == Encode(b)
    ensures a[|a| - 1] == b[|b| - 1] && Encode(a[..|a| - 1]) == Encode(b[..|b| - 1])
  {
    var x, y := a[|a| - 1], b[|b| - 1];
    var front, other := Encode(a[..|a| - 1]), Encode(b[..|b| - 1]);
    LastLine(a);
    LastLine(b);
    EncodeEnds(a[..|a| - 1]);
    EncodeEnds(b[..|b| - 1]);
    SplitLast(front, Raw(Plain(x)), x.digest, other, Raw(Plain(y)), y.digest);
    RawInjective(Plain(x), Plain(y));
    SplitName(x, y);
  }

  // ---- The digest is canonical and injective ----

  lemma {:induction false} ProperLines(n: Node)
    requires n.Dir? && WellNamed(n)
    ensures var lines := LinesOf(n.children); DistinctKeys(lines) && forall i | 0 <= i < |lines| :: Proper(lines[i])
  {
    var xs := n.children;
    var lines := LinesOf(xs);
    forall i, j | 0 <= i < j < |lines| ensures lines[i].key != lines[j].key {
      KeysDiffer(xs[i].name, xs[i].node, xs[j].name, xs[j].node);
    }
  }

  lemma {:induction false} KeysDiffer(s: Bytes, m: Node, t: Bytes, n: Node)
    requires SLASH !in s && SLASH !in t && s != t
    ensures Key(s, m) != Key(t, n)
  {
    if m.Dir? && n.Dir? {
      assert (s + [SLASH])[..|s|] == s && (t + [SLASH])[..|t|] == t;
    } else if m.Dir? {
      assert Key(s, m)[|s|] == SLASH;
    } else if n.Dir? {
      assert Key(t, n)[|t|] == SLASH;
    }
  }

  lemma {:induction false} LinesDecide(a: Node, b: Node)
    requires a.Dir? && b.Dir? && WellNamed(a) && WellNamed(b)
    ensures DigestOf(a) == DigestOf(b) <==> Members(LinesOf(a.children)) == Members(LinesOf(b.children))
  {
    var x, y := LinesOf(a.children), LinesOf(b.children);
    ProperLines(a);
    ProperLines(b);
    SortIsSorted(x);
    SortIsSorted(y);
    if DigestOf(a) == DigestOf(b) {
      forall i | 0 <= i < |Sort(x)| ensures Proper(Sort(x)[i]) { assert Sort(x)[i] in Members(x); }
      forall i | 0 <= i < |Sort(y)| ensures Proper(Sort(y)[i]) { assert Sort(y)[i] in Members(y); }
      EncodeInjective(Sort(x), Sort(y));
    }
    if Members(x) == Members(y) { SortedIsUnique(Sort(x), Sort(y)); }
  }

  /** The listing order of a directory does not matter. */
  lemma {:induction false} ListingOrderIsIrrelevant(xs: seq<Child>, ys: seq<Child>)
    requires WellNamed(Dir(xs)) && WellNamed(Dir(ys))
    requires (forall c | c in xs :: c in ys) && (forall c | c in ys :: c in xs)
    ensures DigestOf(Dir(xs)) == DigestOf(Dir(ys))
  {
    LinesDecide(Dir(xs), Dir(ys));
    MembersWithin(xs, ys);
    MembersWithin(ys, xs);
  }

  lemma {:induction false} MembersWithin(xs: seq<Child>, ys: seq<Child>)
    requires forall c | c in xs :: c in ys
    ensures Members(LinesOf(xs)) <= Members(LinesOf(ys))
  {
    forall line | line in Members(LinesOf(xs)) ensures line in Members(LinesOf(ys)) {
      var i :| 0 <= i < |xs| && LinesOf(xs)[i] == line;
      assert xs[i] in ys;
      var j :| 0 <= j < |ys| && ys[j] == xs[i];
      assert LinesOf(ys)[j] == line;
    }
  }

  /** Entries of one mode have the same digest exactly when they hold the same at every level. */
  lemma {:induction false} SameDigestExactly(a: Node, b: Node)
    requires WellNamed(a) && WellNamed(b) && Mode(a) == Mode(b)
    ensures DigestOf(a) == DigestOf(b) <==> Same(a, b)
    decreases a
  {
    match a
    case File(_, s) => if DigestOf(a) == DigestOf(b) { RawInjective(s, b.content); }
    case Link(s) => if DigestOf(a) == DigestOf(b) { RawInjective(s, b.target); }
    case Dir(xs) =>
      LinesDecide(a, b);
      forall i, j | 0 <= i < |xs| && 0 <= j < |b.children|
        ensures LinesOf(xs)[i] == LinesOf(b.children)[j]
           <==> (xs[i].name == b.children[j].name && Same(xs[i].node, b.children[j].node))
      {
        SameModes(xs[i].node, b.children[j].node);
        if Mode(xs[i].node) == Mode(b.children[j].node) { SameDigestExactly(xs[i].node, b.children[j].node); }
      }
      SameMembers(xs, b.children);
  }

  lemma {:induction false} SameModes(a: Node, b: Node)
    ensures Same(a, b) ==> Mode(a) == Mode(b)
    ensures Mode(a) == Mode(b) ==> a.Dir? == b.Dir? && a.File? == b.File?
  {
    assert MODE_FILE[3] != MODE_EXECUTABLE[3] && MODE_LINK[1] != MODE_FILE[1] && MODE_LINK[1] != MODE_EXECUTABLE[1];
  }

  /** The lines of two entries are equal exactly when the entries hold the same. */
  predicate LinesMatch(xs: seq<Child>, ys: seq<Child>) {
    forall i, j | 0 <= i < |xs| && 0 <= j < |ys| ::
      LinesOf(xs)[i] == LinesOf(ys)[j] <==> xs[i].name == ys[j].name && Same(xs[i].node, ys[j].node)
  }

  lemma {:induction false} SameMembers(xs: seq<Child>, ys: seq<Child>)
    requires LinesMatch(xs, ys)
    ensures Members(LinesOf(xs)) == Members(LinesOf(ys)) <==> Same(Dir(xs), Dir(ys))
  {
    if Members(LinesOf(xs)) == Members(LinesOf(ys)) { MembersAreSame(xs, ys); }
    if Same(Dir(xs), Dir(ys)) { SameAreMembers(xs, ys); }
  }

  lemma {:induction false} MembersAreSame(xs: seq<Child>, ys: seq<Child>)
    requires LinesMatch(xs, ys) && Members(LinesOf(xs)) == Members(LinesOf(ys))
    ensures Same(Dir(xs), Dir(ys))
  {
    var a, b := LinesOf(xs), LinesOf(ys);
    forall i | 0 <= i < |xs| ensures AmongSecond(xs[i], ys) {
      assert a[i] in Members(b);
      var j :| 0 <= j < |b| && b[j] == a[i];
      assert xs[i].name == ys[j].name && Same(xs[i].node, ys[j].node);
    }
    forall j | 0 <= j < |ys| ensures AmongFirst(xs, ys[j]) {
      assert b[j] in Members(a);
      var i :| 0 <= i < |a| && a[i] == b[j];
      assert xs[i].name == ys[j].name && Same(xs[i].node, ys[j].node);
    }
  }

  lemma {:induction false} SameAreMembers(xs: seq<Child>, ys: seq<Child>)
    requires LinesMatch(xs, ys) && Same(Dir(xs), Dir(ys))
    ensures Members(LinesOf(xs)) == Members(LinesOf(ys))
  {
    var a, b := LinesOf(xs), LinesOf(ys);
    forall i | 0 <= i < |a| ensures a[i] in Members(b) {
      assert AmongSecond(xs[i], ys);
      var j :| 0 <= j < |ys| && xs[i].name == ys[j].name && Same(xs[i].node, ys[j].node);
      assert b[j] == a[i];
    }
    forall j | 0 <= j < |b| ensures b[j] in Members(a) {
      assert AmongFirst(xs, ys[j]);
      var i :| 0 <= i < |xs| && xs[i].name == ys[j].name && Same(xs[i].node, ys[j].node);
      assert a[i] == b[j];
    }
  }
}
