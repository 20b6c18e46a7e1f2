/** The commit message of a staging checkpoint and the cursor read back from it. */
module CheckpointMessage {
  import opened Prelude
  import opened Text

  // ---- The message ----

  /** What of a receipt a message carries: its digest, its target tree as text, and the number of items. */
  datatype Stamp = Stamp(digest: string, tree: string, total: nat)

  predicate SoundStamp(r: Stamp) {
    Digest(r.digest) && ObjectId(r.tree) && forall c | c in r.tree :: LowerHex(c)
  }

  const RECEIPT := "Codex-Loop-Receipt: "
  const CURSOR := "Codex-Loop-Cursor: "
  const TREE := "Codex-Loop-Target-Tree: "

  function Subject(r: Stamp, k: nat): string {
    "codex-loop portable checkpoint " + Decimal(k) + "/" + Decimal(r.total) + ": "
  }

  function WithTrailers(top: string, d: string, c: string, t: string): string {
    top + "\n" + "" + "\n" + d + "\n" + c + "\n" + t
  }

  function Message(r: Stamp, k: nat, path: string): string {
    WithTrailers(Subject(r, k) + path, RECEIPT + r.digest, CURSOR + Decimal(k), TREE + r.tree)
  }

  /** The value of the first line of the given shape. */
  function First(lines: seq<string>, marker: string, shape: string -> bool): (r: Option<string>)
    ensures r.Some? ==> shape(r.value)
  {
    if lines == [] then None
    else if Matches(lines[0], marker, shape) then Some(lines[0][|marker|..])
    else First(lines[1..], marker, shape)
  }

  predicate Matches(line: string, marker: string, shape: string -> bool) {
    marker <= line && shape(line[|marker|..])
  }

  /** The cursor a staging head's message names, unless it is no checkpoint of this receipt. */
  function CursorOf(r: Stamp, message: string): Option<nat> {
    var lines := Lines(message);
    var digest := First(lines, RECEIPT, s => Digest(s));
    var cursor := First(lines, CURSOR, s => Digits(s));
    var tree := First(lines, TREE, s => ObjectId(s));
    if digest.None? || cursor.None? || tree.None? then None
    else if digest.value != r.digest || Lower(tree.value) != r.tree then None
    else
      var k := NatOf(cursor.value);
      if 1 <= k <= r.total then Some(k) else None
  }

  lemma {:induction false} FirstOfSum(a: seq<string>, b: seq<string>, marker: string, shape: string -> bool)
    ensures First(a + b, marker, shape) == if First(a, marker, shape).Some? then First(a, marker, shape) else First(b, marker, shape)
  {
    if a == [] {
      assert a + b == b;
    } else {
      FirstOfSum(a[1..], b, marker, shape);
      assert (a + b)[1..] == a[1..] + b && (a + b)[0] == a[0];
    }
  }

  lemma TrailerLines(top: string, d: string, c: string, t: string)
    requires '\n' !in d && '\n' !in c && '\n' !in t
    ensures Lines(WithTrailers(top, d, c, t)) == Lines(top) + ["", d, c, t]
  {
    AppendLine(top, "");
    AppendLine(top + "\n" + "", d);
    AppendLine(top + "\n" + "" + "\n" + d, c);
    AppendLine(top + "\n" + "" + "\n" + d + "\n" + c, t);
    var l := Lines(top);
    assert l + [""] + [d] + [c] + [t] == l + ["", d, c, t];
  }

  lemma AppendLine(s: string, line: string)
    requires '\n' !in line
    ensures Lines(s + "\n" + line) == Lines(s) + [line]
  {
    LinesAcrossNewline(s, line);
    OneLine(line);
  }

  lemma SubjectLines(subject: string, path: string)
    requires '\n' !in subject
    ensures Lines(subject + path) == [subject + Lines(path)[0]] + Lines(path)[1..]
  {
    OneLine(subject);
    LinesOfSum(subject, path);
    assert Lines(subject)[..0] == [];
  }

  /** The lines of a message: the subject with the path's first line, the rest of the path, and the trailers. */
  lemma MessageLines(r: Stamp, k: nat, path: string)
    requires SoundStamp(r)
    ensures Lines(Message(r, k, path)) == [Subject(r, k) + Lines(path)[0]] + Lines(path)[1..]
              + ["", RECEIPT + r.digest, CURSOR + Decimal(k), TREE + r.tree]
  {
    DecimalReads(k);
    DecimalReads(r.total);
    SubjectLines(Subject(r, k), path);
    TrailerLines(Subject(r, k) + path, RECEIPT + r.digest, CURSOR + Decimal(k), TREE + r.tree);
  }

  lemma FirstOfOne(line: string, marker: string, shape: string -> bool)
    ensures First([line], marker, shape) == if Matches(line, marker, shape) then Some(line[|marker|..]) else None
  {
    assert [line][1..] == [];
  }

  /** A line that carries one marker carries no other. */
  lemma MarkersDiffer(value: string, shape: string -> bool)
    ensures !Matches(RECEIPT + value, CURSOR, shape) && !Matches(RECEIPT + value, TREE, shape)
    ensures !Matches(CURSOR + value, RECEIPT, shape) && !Matches(CURSOR + value, TREE, shape)
    ensures !Matches(TREE + value, RECEIPT, shape) && !Matches(TREE + value, CURSOR, shape)
  {
    assert RECEIPT[11] == 'R' && CURSOR[11] == 'C' && TREE[11] == 'T';
    assert (RECEIPT + value)[11] == 'R' && (CURSOR + value)[11] == 'C' && (TREE + value)[11] == 'T';
  }

  lemma SubjectIsNoTrailer(r: Stamp, k: nat, first: string, marker: string, shape: string -> bool)
    requires marker == RECEIPT || marker == CURSOR || marker == TREE
    ensures !Matches(Subject(r, k) + first, marker, shape)
  {
    var s := "codex-loop portable checkpoint ";
    var rest := Decimal(k) + "/" + Decimal(r.total) + ": ";
    assert Subject(r, k) == s + rest;
    assert (Subject(r, k) + first)[0] == s[0] == 'c';
    assert marker[0] == 'C';
  }

  lemma FirstTrailer(d: string, c: string, t: string, marker: string, value: string, shape: string -> bool)
    requires shape(value)
    requires (marker == RECEIPT && value == d) || (marker == CURSOR && value == c) || (marker == TREE && value == t)
    ensures First(["", RECEIPT + d, CURSOR + c, TREE + t], marker, shape) == Some(value)
  {
    var all := ["", RECEIPT + d, CURSOR + c, TREE + t];
    MarkersDiffer(d, shape);
    MarkersDiffer(c, shape);
    MarkersDiffer(t, shape);
    assert (marker + value)[|marker|..] == value && marker <= marker + value;
    var fromReceipt, fromCursor := [RECEIPT + d, CURSOR + c, TREE + t], [CURSOR + c, TREE + t];
    assert all[1..] == fromReceipt && fromReceipt[1..] == fromCursor && fromCursor[1..] == [TREE + t];
    assert !Matches("", marker, shape);
    assert First(all, marker, shape) == First(fromReceipt, marker, shape);
    FirstOfOne(TREE + t, marker, shape);
    if marker != RECEIPT {
      assert First(fromReceipt, marker, shape) == First(fromCursor, marker, shape);
    }
  }

  lemma TrailerFound(r: Stamp, k: nat, path: string, marker: string, value: string, shape: string -> bool)
    requires SoundStamp(r) && shape(value)
    requires (marker == RECEIPT && value == r.digest) || (marker == CURSOR && value == Decimal(k)) || (marker == TREE && value == r.tree)
    ensures First(Lines(Message(r, k, path)), marker, shape)
         == if First(Lines(path)[1..], marker, shape).Some? then First(Lines(path)[1..], marker, shape) else Some(value)
  {
    MessageLines(r, k, path);
    var line := Subject(r, k) + Lines(path)[0];
    FirstOfSum([line] + Lines(path)[1..], ["", RECEIPT + r.digest, CURSOR + Decimal(k), TREE + r.tree], marker, shape);
    FirstOfSum([line], Lines(path)[1..], marker, shape);
    SubjectIsNoTrailer(r, k, Lines(path)[0], marker, shape);
    FirstOfOne(line, marker, shape);
    FirstTrailer(r.digest, Decimal(k), r.tree, marker, value, shape);
  }

  /** No later line of the path poses as a trailer with another value. */
  predicate HarmlessPath(r: Stamp, k: nat, path: string) {
    var rest := Lines(path)[1..];
    var digest := First(rest, RECEIPT, s => Digest(s));
    var cursor := First(rest, CURSOR, s => Digits(s));
    var tree := First(rest, TREE, s => ObjectId(s));
    && (digest.Some? ==> digest.value == r.digest)
    && (cursor.Some? ==> NatOf(cursor.value) == k)
    && (tree.Some? ==> Lower(tree.value) == r.tree)
  }

  /** A checkpoint's message reads back to its own cursor exactly when its path is harmless. */
  lemma CursorReadsBack(r: Stamp, k: nat, path: string)
    requires SoundStamp(r) && 1 <= k <= r.total
    ensures CursorOf(r, Message(r, k, path)) == Some(k) <==> HarmlessPath(r, k, path)
  {
    DecimalReads(k);
    LowerIdentity(r.tree);
    TrailerFound(r, k, path, RECEIPT, r.digest, s => Digest(s));
    TrailerFound(r, k, path, CURSOR, Decimal(k), s => Digits(s));
    TrailerFound(r, k, path, TREE, r.tree, s => ObjectId(s));
  }

  /** A path on one line is harmless. */
  lemma OneLinePathIsHarmless(r: Stamp, k: nat, path: string)
    requires '\n' !in path
    ensures HarmlessPath(r, k, path)
  {
    OneLine(path);
    assert Lines(path)[1..] == [];
  }

  /** A file name with a newline can pose as a trailer: the first checkpoint of a receipt with seven items,
      for a path whose second line names cursor 7, reads back as the seventh. */
  lemma NewlinePathMisleads(r: Stamp)
    requires SoundStamp(r) && r.total == 7
    ensures CursorOf(r, Message(r, 1, "a" + "\n" + (CURSOR + "7"))) == Some(7)
  {
    var path := "a" + "\n" + (CURSOR + "7");
    LinesAcrossNewline("a", CURSOR + "7");
    OneLine("a");
    OneLine(CURSOR + "7");
    assert Lines(path)[1..] == [CURSOR + "7"];
    assert (CURSOR + "7")[|CURSOR|..] == "7";
    assert NatOf("7") == 7 by { assert "7"[..0] == ""; }
    MarkersDiffer("7", s => Digest(s));
    MarkersDiffer("7", s => ObjectId(s));
    FirstOfOne(CURSOR + "7", RECEIPT, s => Digest(s));
    FirstOfOne(CURSOR + "7", CURSOR, s => Digits(s));
    FirstOfOne(CURSOR + "7", TREE, s => ObjectId(s));
    DecimalReads(1);
    LowerIdentity(r.tree);
    TrailerFound(r, 1, path, RECEIPT, r.digest, s => Digest(s));
    TrailerFound(r, 1, path, CURSOR, Decimal(1), s => Digits(s));
    TrailerFound(r, 1, path, TREE, r.tree, s => ObjectId(s));
  }
}
