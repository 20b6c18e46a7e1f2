/** UTF-8: well-formed streams (section 4 of RFC 3629), the strict decoder that reports the first error of a
    byte string, and the cut that keeps an incomplete last character back. */
module Utf8 {
  import opened Prelude

  // ---- Well-formed byte streams ----

  predicate Cont(b: byte) {
    0x80 <= b <= 0xBF
  }

  /** Lead and second byte of a three-byte character. */
  predicate LeadOfThree(b: byte, c: byte) {
    || (b == 0xE0 && 0xA0 <= c <= 0xBF)
    || (0xE1 <= b <= 0xEC && Cont(c))
    || (b == 0xED && 0x80 <= c <= 0x9F)
    || (0xEE <= b <= 0xEF && Cont(c))
  }

  /** Lead and second byte of a four-byte character. */
  predicate LeadOfFour(b: byte, c: byte) {
    || (b == 0xF0 && 0x90 <= c <= 0xBF)
    || (0xF1 <= b <= 0xF3 && Cont(c))
    || (b == 0xF4 && 0x80 <= c <= 0x8F)
  }

  /** The byte sequences of one character. */
  predicate IsScalar(s: seq<byte>) {
    || (|s| == 1 && s[0] <= 0x7F)
    || (|s| == 2 && 0xC2 <= s[0] <= 0xDF && Cont(s[1]))
    || (|s| == 3 && LeadOfThree(s[0], s[1]) && Cont(s[2]))
    || (|s| == 4 && LeadOfFour(s[0], s[1]) && Cont(s[2]) && Cont(s[3]))
  }

  /** The first `n` bytes are one character. */
  predicate Leading(s: seq<byte>, n: nat) {
    1 <= n <= 4 && n <= |s| && IsScalar(s[..n])
  }

  predicate WellFormed(s: seq<byte>)
    decreases |s|
  {
    s == [] || exists n | 1 <= n <= 4 :: Leading(s, n) && WellFormed(s[n..])
  }

  /** A proper beginning of one character. */
  ghost predicate Incomplete(s: seq<byte>) {
    s != [] && exists more :: more != [] && IsScalar(s + more)
  }

  /** Complete characters and at most one unfinished one, cut at `w`: a beginning of a well-formed stream. */
  ghost predicate CutAt(s: seq<byte>, w: nat) {
    w <= |s| && WellFormed(s[..w]) && (w == |s| || Incomplete(s[w..]))
  }

  ghost function FirstLength(s: seq<byte>): (n: nat)
    requires s != [] && WellFormed(s)
    ensures Leading(s, n) && WellFormed(s[n..])
  {
    var n :| 1 <= n <= 4 && Leading(s, n) && WellFormed(s[n..]);
    n
  }

  // ---- The decoder ----

  datatype Scan = Good(n: nat) | Bad(n: nat) | Unfinished

  function ScanTwo(s: seq<byte>): Scan
    requires s != []
  {
    if |s| < 2 then Unfinished else if !Cont(s[1]) then Bad(1) else Good(2)
  }

  function ScanThree(s: seq<byte>): Scan
    requires s != []
  {
    if |s| < 2 then Unfinished
    else if !Cont(s[1]) || (if s[1] < 0xA0 then s[0] == 0xE0 else s[0] == 0xED) then Bad(1)
    else if |s| < 3 then Unfinished
    else if !Cont(s[2]) then Bad(2)
    else Good(3)
  }

  function ScanFour(s: seq<byte>): Scan
    requires s != []
  {
    if |s| < 2 then Unfinished
    else if !Cont(s[1]) || (if s[1] < 0x90 then s[0] == 0xF0 else s[0] == 0xF4) then Bad(1)
    else if |s| < 3 then Unfinished
    else if !Cont(s[2]) then Bad(2)
    else if |s| < 4 then Unfinished
    else if !Cont(s[3]) then Bad(3)
    else Good(4)
  }

  /** What the decoder makes of the bytes at its position. */
  function ScanAt(s: seq<byte>): (r: Scan)
    requires s != []
    ensures !r.Unfinished? ==> 1 <= r.n <= |s|
    ensures r.Unfinished? ==> |s| <= 3
  {
    if s[0] < 0x80 then Good(1)
    else if s[0] < 0xC2 then Bad(1)
    else if s[0] < 0xE0 then ScanTwo(s)
    else if s[0] < 0xF0 then ScanThree(s)
    else if s[0] < 0xF5 then ScanFour(s)
    else Bad(1)
  }

  datatype Decoded = Text | Error(start: nat, end: nat, unexpectedEnd: bool)

  /** Strict decoding, up to the first error. */
  function Decode(s: seq<byte>): (r: Decoded)
    ensures r.Error? ==> r.start < r.end <= |s|
    ensures r.Error? && r.unexpectedEnd ==> r.end == |s| <= r.start + 3
    decreases |s|
  {
    if s == [] then Text
    else
      match ScanAt(s)
      case Bad(n) => Error(0, n, false)
      case Unfinished => Error(0, |s|, true)
      case Good(n) =>
        match Decode(s[n..])
        case Text => Text
        case Error(start, end, unexpectedEnd) => Error(start + n, end + n, unexpectedEnd)
  }

  /** The decoder takes exactly the characters of the standard, and waits exactly for their beginnings. */
  lemma ScanIsExact(s: seq<byte>)
    requires s != []
    ensures forall n: nat | n <= |s| :: ScanAt(s) == Good(n) <==> IsScalar(s[..n])
    ensures ScanAt(s).Unfinished? <==> Incomplete(s)
  {
    if ScanAt(s).Unfinished? { Completion(s); }
    if Incomplete(s) {
      var more :| more != [] && IsScalar(s + more);
      assert (s + more)[0] == s[0];
      if |s| > 1 { assert (s + more)[1] == s[1]; }
      if |s| > 2 { assert (s + more)[2] == s[2]; }
    }
  }

  lemma Completion(s: seq<byte>)
    requires s != [] && ScanAt(s).Unfinished?
    ensures Incomplete(s)
  {
    var second := if s[0] == 0xE0 then 0xA0 else if s[0] == 0xF0 then 0x90 else 0x80;
    var whole :=
      if |s| == 1 && s[0] < 0xE0 then s + [second]
      else if |s| == 1 && s[0] < 0xF0 then s + [second, 0x80]
      else if |s| == 1 then s + [second, 0x80, 0x80]
      else if |s| == 2 && s[0] < 0xF0 then s + [0x80]
      else if |s| == 2 then s + [0x80, 0x80]
      else s + [0x80];
    assert IsScalar(whole);
    assert whole == s + whole[|s|..];
  }

  /** A byte string decodes without error exactly when it is well-formed. */
  lemma {:induction false} DecodesExactly(s: seq<byte>)
    ensures Decode(s).Text? <==> WellFormed(s)
    decreases |s|
  {
    if s != [] {
      ScanIsExact(s);
      match ScanAt(s)
      case Good(n) => DecodesExactly(s[n..]);
      case _ =>
    }
  }

  // ---- The cut ----

  function Max(a: int, b: int): int {
    if a > b then a else b
  }

  /** The cut reached from position `i`: past decodable text and malformed bytes, up to an unfinished end. */
  function CutFrom(data: seq<byte>, i: nat): (r: nat)
    requires i <= |data|
    ensures i <= r <= |data|
    decreases |data| - i
  {
    if i == |data| then |data|
    else
      match Decode(data[i..])
      case Text => |data|
      case Error(start, end, unexpectedEnd) =>
        if unexpectedEnd then i + start else CutFrom(data, i + end)
  }

  function Boundary(data: seq<byte>): (r: nat)
    ensures |data| - 3 <= r <= |data|
  {
    CutFrom(data, Max(0, |data| - 3))
  }

  /** One attempt to decode the rest: the cut is found, or the search goes on behind malformed bytes. */
  method TryFrom(data: seq<byte>, i: nat) returns (found: bool, next: nat)
    requires i < |data|
    ensures found ==> next == CutFrom(data, i)
    ensures !found ==> i < next <= |data| && CutFrom(data, next) == CutFrom(data, i)
  {
    var segment := data[i..];
    match Decode(segment)
    case Text => return true, |data|;
    case Error(start, end, unexpectedEnd) =>
      if unexpectedEnd && end == |segment| { return true, i + start; }
      return false, i + start + if end - start > 1 then end - start else 1;
  }

  /** Looks only at the last three bytes, where an incomplete character can begin. */
  method Utf8Boundary(data: seq<byte>) returns (boundary: nat)
    ensures boundary == Boundary(data)
  {
    boundary := if |data| > 3 then |data| - 3 else 0;
    while boundary < |data|
      invariant boundary <= |data| && CutFrom(data, boundary) == Boundary(data)
    {
      var found, next := TryFrom(data, boundary);
      if found { return next; }
      boundary := next;
    }
    return |data|;
  }

  /** One decoder step does not change the cut that is reached. */
  lemma CutStep(data: seq<byte>, i: nat)
    requires i < |data|
    ensures ScanAt(data[i..]).Unfinished? ==> CutFrom(data, i) == i
    ensures !ScanAt(data[i..]).Unfinished? ==> CutFrom(data, i) == CutFrom(data, i + ScanAt(data[i..]).n)
  {
    var scan := ScanAt(data[i..]);
    if scan.Good? { assert data[i..][scan.n..] == data[i + scan.n..]; }
  }

  // ---- The cut on arbitrary bytes ----

  /** Inside what one decoder step takes there are only continuation bytes. */
  lemma ScanInterior(s: seq<byte>)
    requires s != []
    ensures forall k | 1 <= k < (if ScanAt(s).Unfinished? then |s| else ScanAt(s).n) :: Cont(s[k])
    ensures ScanAt(s).Unfinished? ==> !Cont(s[0])
  {
  }

  lemma UnfinishedIsIncomplete(s: seq<byte>)
    requires s != []
    ensures ScanAt(s).Unfinished? <==> Incomplete(s)
  {
    ScanIsExact(s);
  }

  lemma {:induction false} CutAtUnfinished(data: seq<byte>, i: nat, j: nat)
    requires i <= j < |data| && Incomplete(data[j..])
    ensures CutFrom(data, i) == j
    decreases j - i
  {
    UnfinishedIsIncomplete(data[j..]);
    ScanInterior(data[j..]);
    CutStep(data, i);
    if i < j {
      ScanInterior(data[i..]);
      assert data[i..][j - i] == data[j..][0];
      CutAtUnfinished(data, i + ScanAt(data[i..]).n, j);
    }
  }

  lemma {:induction false} CutAtEnd(data: seq<byte>, i: nat)
    requires i <= |data| && forall j | i <= j < |data| :: !ScanAt(data[j..]).Unfinished?
    ensures CutFrom(data, i) == |data|
    decreases |data| - i
  {
    if i < |data| {
      CutStep(data, i);
      CutAtEnd(data, i + ScanAt(data[i..]).n);
    }
  }

  /** The bytes end in a character that is not complete. */
  ghost predicate EndsUnfinished(s: seq<byte>) {
    exists j :: 0 <= j < |s| && Incomplete(s[j..])
  }

  lemma UnfinishedIsShort(s: seq<byte>)
    requires s != [] && Incomplete(s)
    ensures |s| <= 3
  {
    ScanIsExact(s);
  }

  /** For all bytes, malformed or not: the cut is where an unfinished last character begins, or the end. */
  lemma BoundaryOfAnything(s: seq<byte>)
    ensures forall j | 0 <= j < |s| && Incomplete(s[j..]) :: Boundary(s) == j
    ensures Boundary(s) < |s| ==> Incomplete(s[Boundary(s)..])
    ensures Boundary(s) == |s| <==> !EndsUnfinished(s)
  {
    var from := Max(0, |s| - 3);
    forall j | 0 <= j < |s| && Incomplete(s[j..]) ensures Boundary(s) == j {
      UnfinishedIsShort(s[j..]);
      CutAtUnfinished(s, from, j);
    }
    if !EndsUnfinished(s) {
      forall j | 0 <= j < |s| ensures !ScanAt(s[j..]).Unfinished? { UnfinishedIsIncomplete(s[j..]); }
      CutAtEnd(s, from);
    } else {
      var j :| 0 <= j < |s| && Incomplete(s[j..]);
    }
  }

  lemma CharacterEndsComplete(s: seq<byte>, n: nat, j: nat)
    requires Leading(s, n) && j < n
    ensures !Incomplete(s[j..])
  {
    ScanIsExact(s);
    ScanInterior(s);
    assert s[j..][0] == s[j] && s[0..] == s;
    if j > 0 {
      ScanIsExact(s[j..]);
      ScanInterior(s[j..]);
    }
  }

  lemma {:induction false} TextEndsComplete(s: seq<byte>, j: nat)
    requires WellFormed(s) && j < |s|
    ensures !Incomplete(s[j..])
    decreases |s|
  {
    var n := FirstLength(s);
    if j >= n {
      TextEndsComplete(s[n..], j - n);
      assert s[n..][j - n..] == s[j..];
    } else {
      CharacterEndsComplete(s, n, j);
    }
  }

  /** On any beginning of a well-formed stream the three-byte look-back finds exactly the end of the last complete
      character. */
  lemma BoundaryIsExact(data: seq<byte>, w: nat)
    requires CutAt(data, w)
    ensures Boundary(data) == w
  {
    BoundaryOfAnything(data);
    if w == |data| {
      assert data[..w] == data;
      forall j: nat | j < |data| ensures !Incomplete(data[j..]) { TextEndsComplete(data, j); }
    }
  }

  /** What a cut keeps is kept by a second cut exactly when it does not end in an unfinished character itself. */
  lemma CutIsStableExactly(s: seq<byte>)
    ensures Boundary(s[..Boundary(s)]) == Boundary(s) <==> !EndsUnfinished(s[..Boundary(s)])
  {
    BoundaryOfAnything(s[..Boundary(s)]);
  }

  /** On malformed bytes it can: after one lead byte another one is cut off, and the first is left at the end. */
  lemma MalformedCutIsNotStable()
    ensures Boundary([0xE2, 0xE2]) == 1 && Boundary([0xE2, 0xE2][..1]) == 0
  {
    var s: seq<byte> := [0xE2, 0xE2];
    assert IsScalar([0xE2] + [0x80, 0x80]);
    assert Incomplete(s[1..]) by { assert s[1..] == [0xE2]; }
    assert Incomplete(s[..1][0..]) by { assert s[..1][0..] == [0xE2]; }
    BoundaryOfAnything(s);
    BoundaryOfAnything(s[..1]);
  }

  // ---- Concatenation ----

  lemma Advance(a: seq<byte>, b: seq<byte>, n: nat)
    requires n <= |a|
    ensures (a + b)[..n] == a[..n] && (a + b)[n..] == a[n..] + b
  {
  }

  lemma {:induction false} WellFormedSum(a: seq<byte>, b: seq<byte>)
    requires WellFormed(a) && WellFormed(b)
    ensures WellFormed(a + b)
    decreases |a|
  {
    if a == [] {
      assert a + b == b;
    } else {
      var n := FirstLength(a);
      WellFormedSum(a[n..], b);
      Advance(a, b, n);
      assert Leading(a + b, n);
    }
  }

  /** The first character of a string is decided by its first bytes alone. */
  lemma ScalarIsUnique(s: seq<byte>, n: nat, m: nat)
    requires n <= |s| && m <= |s| && IsScalar(s[..n]) && IsScalar(s[..m])
    ensures n == m
  {
    assert s[..n][0] == s[0] && s[..m][0] == s[0];
  }

  lemma {:induction false} WellFormedRest(a: seq<byte>, b: seq<byte>)
    requires WellFormed(a) && WellFormed(a + b)
    ensures WellFormed(b)
    decreases |a|
  {
    if a == [] {
      assert a + b == b;
    } else {
      var n, m := FirstLength(a), FirstLength(a + b);
      Advance(a, b, n);
      ScalarIsUnique(a + b, n, m);
      WellFormedRest(a[n..], b);
    }
  }

  lemma SliceOfSlice(s: seq<byte>, n: nat, k: nat)
    requires n <= k <= |s|
    ensures s[..k][n..] == s[n..][..k - n]
  {
  }

  lemma CutAfter(s: seq<byte>, n: nat, k: nat, v: nat)
    requires Leading(s, n) && n <= k <= |s| && CutAt(s[n..][..k - n], v)
    ensures CutAt(s[..k], n + v)
  {
    var front := s[..k];
    SliceOfSlice(s, n, k);
    SliceOfSlice(front, n, n + v);
    assert front[..n + v][..n] == s[..n];
    assert Leading(front[..n + v], n);
    assert front[n..][v..] == front[n + v..];
  }

  lemma StartHasCut(s: seq<byte>, n: nat, k: nat)
    requires 0 < k < n <= |s| && IsScalar(s[..n])
    ensures CutAt(s[..k], 0) && k <= 3
  {
    var front := s[..k];
    assert front + s[k..n] == s[..n];
    assert front[0..] == front && front[..0] == [];
    assert Incomplete(front);
  }

  /** Every beginning of a well-formed stream has its cut, at most three bytes from its end. */
  lemma {:induction false} PrefixHasCut(s: seq<byte>, k: nat) returns (w: nat)
    requires WellFormed(s) && k <= |s|
    ensures CutAt(s[..k], w) && k <= w + 3
    decreases |s|
  {
    if k == 0 {
      w := 0;
    } else {
      var n := FirstLength(s);
      if k < n {
        StartHasCut(s, n, k);
        w := 0;
      } else {
        var v := PrefixHasCut(s[n..], k - n);
        CutAfter(s, n, k, v);
        w := n + v;
      }
    }
  }
}
