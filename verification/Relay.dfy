/** The guarded relay envelope: base64 text between markers, with size and digest, found again inside noise. */
module Relay {
  import opened Prelude
  import opened Text
  import Base64

  // ---- Patterns ----

  /** A literal character, or any lower-case hexadecimal digit. */
  datatype Sym = Lit(c: char) | HexDigit

  type Pattern = seq<Sym>

  predicate Fits(s: Sym, c: char) {
    match s
    case Lit(d) => c == d
    case HexDigit => LowerHex(c)
  }

  function Literal(s: string): (p: Pattern)
    ensures |p| == |s|
  {
    seq(|s|, i requires 0 <= i < |s| => Lit(s[i]))
  }

  predicate MatchAt(p: Pattern, text: string, i: nat) {
    i + |p| <= |text| && forall k | 0 <= k < |p| :: Fits(p[k], text[i + k])
  }

  function Find(p: Pattern, text: string, from: nat): (r: Option<nat>)
    ensures r.Some? ==> from <= r.value && MatchAt(p, text, r.value)
    ensures r.Some? ==> forall j | from <= j < r.value :: !MatchAt(p, text, j)
    ensures r.None? ==> forall j | from <= j :: !MatchAt(p, text, j)
    decreases |text| - from
  {
    if from > |text| then None
    else if MatchAt(p, text, from) then Some(from)
    else Find(p, text, from + 1)
  }

  /** Occurrences that do not overlap, from the left. */
  function Count(p: Pattern, text: string, from: nat): nat
    requires |p| > 0
    decreases |text| - from
  {
    var at := Find(p, text, from);
    if at.None? then 0 else 1 + Count(p, text, at.value + |p|)
  }

  // ---- Hashing, guards, wrapping ----

  /** Digests of bytes and of ASCII text. */
  datatype Hash = Hash(ofBytes: seq<byte> -> string, ofText: string -> string)

  ghost predicate Hexadecimal(h: Hash) {
    (forall d :: Digest(h.ofBytes(d))) && forall s :: Digest(h.ofText(s))
  }

  function HexChar(n: nat): char
    requires n < 16
  {
    if n < 10 then ('0' as int + n) as char else ('a' as int + (n - 10)) as char
  }

  function HexText(n: nat): string {
    if n < 16 then [HexChar(n)] else HexText(n / 16) + [HexChar(n % 16)]
  }

  /** At least four hexadecimal digits. */
  function FourHex(n: nat): string {
    var s := HexText(n);
    if |s| >= 4 then s else seq(4 - |s|, i => '0') + s
  }

  function GuardChunk(h: Hash, tag: string, id: string, n: nat): (r: string)
    requires tag != ""
    ensures |r| >= 1
  {
    [tag[0]] + FourHex(n) + h.ofText(tag + ":" + id + ":" + Decimal(n))
  }

  function GuardChunks(h: Hash, tag: string, id: string, n: nat): (r: string)
    requires tag != ""
    ensures |r| >= n
  {
    if n == 0 then "" else GuardChunks(h, tag, id, n - 1) + GuardChunk(h, tag, id, n - 1)
  }

  /** The first `size` characters of the endless guard text. */
  function GuardText(h: Hash, tag: string, id: string, size: nat): string
    requires tag != ""
  {
    GuardChunks(h, tag, id, size)[..size]
  }

  lemma {:induction false} MoreChunks(h: Hash, tag: string, id: string, n: nat, m: nat)
    requires tag != "" && n <= m
    ensures GuardChunks(h, tag, id, n) <= GuardChunks(h, tag, id, m)
    decreases m - n
  {
    if n < m { MoreChunks(h, tag, id, n, m - 1); }
  }

  const MAX_GUARD: int := 65536

  method Guard(h: Hash, tag: string, id: string, size: int) returns (r: Option<string>)
    requires tag != ""
    ensures r.Some? <==> 0 <= size <= MAX_GUARD
    ensures r.Some? ==> r.value == GuardText(h, tag, id, size)
  {
    if size < 0 || size > MAX_GUARD { return None; }
    var chunks := "";
    var counter := 0;
    while |chunks| < size
      invariant chunks == GuardChunks(h, tag, id, counter)
      decreases size - |chunks|
    {
      chunks := chunks + GuardChunk(h, tag, id, counter);
      counter := counter + 1;
    }
    MoreChunks(h, tag, id, counter, if counter > size then counter else size);
    MoreChunks(h, tag, id, size, if counter > size then counter else size);
    return Some(chunks[..size]);
  }

  predicate LegalWidth(width: int) {
    4 <= width <= 4096 && width % 4 == 0
  }

  function Wrap(encoded: string, width: nat): string
    requires width > 0
  {
    if |encoded| <= width then encoded else encoded[..width] + "\n" + Wrap(encoded[width..], width)
  }

  predicate AsciiSpace(c: char) {
    c == ' ' || c == '\t' || c == '\r' || c == '\n'
  }

  function Squeeze(s: string): string {
    if s == "" then ""
    else if AsciiSpace(s[|s| - 1]) then Squeeze(s[..|s| - 1])
    else Squeeze(s[..|s| - 1]) + [s[|s| - 1]]
  }

  lemma {:induction false} SqueezeSum(a: string, b: string)
    ensures Squeeze(a + b) == Squeeze(a) + Squeeze(b)
    decreases |b|
  {
    if b == "" {
      assert a + b == a;
    } else {
      assert (a + b)[..|a + b| - 1] == a + b[..|b| - 1];
      SqueezeSum(a, b[..|b| - 1]);
    }
  }

  lemma {:induction false} SqueezeSolid(s: string)
    requires forall c | c in s :: !AsciiSpace(c)
    ensures Squeeze(s) == s
    decreases |s|
  {
    if s != "" {
      var front := s[..|s| - 1];
      assert s == front + [s[|s| - 1]];
      assert s[|s| - 1] in s;
      SqueezeSolid(front);
    }
  }

  /** Whatever the line width, the wrapped text squeezes back to the encoded text. */
  lemma {:induction false} WrapSqueezes(encoded: string, width: nat)
    requires width > 0 && forall c | c in encoded :: !AsciiSpace(c)
    ensures Squeeze(Wrap(encoded, width)) == encoded
    decreases |encoded|
  {
    if |encoded| <= width {
      SqueezeSolid(encoded);
    } else {
      var first, rest := encoded[..width], encoded[width..];
      WrapSqueezes(rest, width);
      SqueezeSolid(first);
      SqueezeSum(first + "\n", Wrap(rest, width));
      SqueezeSum(first, "\n");
      assert "\n"[..0] == "";
      assert encoded == first + rest;
      assert first + "" == first;
    }
  }

  lemma {:induction false} SqueezedChars(s: string, c: char)
    requires c in s && !AsciiSpace(c)
    ensures c in Squeeze(s)
    decreases |s|
  {
    var front := s[..|s| - 1];
    assert s == front + [s[|s| - 1]];
    if c in front { SqueezedChars(front, c); }
  }

  // ---- Markers ----

  predicate TransferId(id: string) {
    |id| == 32 && forall c | c in id :: LowerHex(c)
  }

  const TRANSFER_BEGIN := "CODEX_LOOP_TRANSFER_BEGIN:v1:"
  const PAYLOAD_BEGIN := "PAYLOAD_BEGIN:"
  const PAYLOAD_END := "PAYLOAD_END:"
  const TRANSFER_END := "CODEX_LOOP_TRANSFER_END:"

  function Marker(body: string, id: string): (m: string)
    ensures |m| == |body| + |id| + 6
  {
    "<<<" + body + id + ">>>"
  }

  /** The begin marker, with any transfer id. */
  function BeginPattern(): (p: Pattern)
    ensures |p| == |TRANSFER_BEGIN| + 38
  {
    Literal("<<<" + TRANSFER_BEGIN) + seq(32, i => HexDigit) + Literal(">>>")
  }

  // ---- Metadata ----

  predicate LineBreak(c: char) {
    '\n' <= c <= '\r' || '\U{1c}' <= c <= '\U{1e}' || c == '\U{85}' || c == '\U{2028}' || c == '\U{2029}'
  }

  predicate Space(c: char) {
    || LineBreak(c) || c == ' ' || c == '\t' || c == '\U{1f}' || c == '\U{a0}' || c == '\U{1680}'
    || '\U{2000}' <= c <= '\U{200a}' || c == '\U{202f}' || c == '\U{205f}' || c == '\U{3000}'
  }

  /** Lines at any line break; a two-character break gives one more empty line, which metadata ignores. */
  function SplitLines(s: string): seq<string> {
    Lines(seq(|s|, i requires 0 <= i < |s| => if LineBreak(s[i]) then '\n' else s[i]))
  }

  function TrimEnd(s: string): string {
    if s != "" && Space(s[|s| - 1]) then TrimEnd(s[..|s| - 1]) else s
  }

  function Trim(s: string): string {
    if s != "" && Space(s[0]) then Trim(s[1..]) else TrimEnd(s)
  }

  /** Key and value around the first equals sign. */
  function Field(line: string): Option<(string, string)> {
    if line == "" then None
    else if line[0] == '=' then Some(("", line[1..]))
    else
      var rest := Field(line[1..]);
      if rest.None? then None else Some(([line[0]] + rest.value.0, rest.value.1))
  }

  /** The fields of the metadata lines; a repeated key makes them invalid. */
  function Fields(lines: seq<string>): Option<map<string, string>> {
    if lines == [] then Some(map[])
    else
      var front := Fields(lines[..|lines| - 1]);
      var field := Field(Trim(lines[|lines| - 1]));
      if front.None? || field.None? then front
      else if field.value.0 in front.value then None
      else Some(front.value[field.value.0 := field.value.1])
  }

  /** Digits with single underscores between them. */
  predicate Grouped(s: string) {
    s != "" && Digit(s[|s| - 1])
    && (|s| == 1 || Grouped(s[..|s| - 1]) || (s[|s| - 2] == '_' && Grouped(s[..|s| - 2])))
  }

  function Ungrouped(s: string): (r: string)
    requires forall c | c in s :: Digit(c) || c == '_'
    ensures forall c | c in r :: Digit(c)
  {
    if s == "" then ""
    else
      var last := s[|s| - 1];
      assert last in s;
      if last == '_' then Ungrouped(s[..|s| - 1]) else Ungrouped(s[..|s| - 1]) + [last]
  }

  lemma {:induction false} GroupedChars(s: string)
    requires Grouped(s)
    ensures forall c | c in s :: Digit(c) || c == '_'
    decreases |s|
  {
    if |s| > 1 {
      if Grouped(s[..|s| - 1]) {
        GroupedChars(s[..|s| - 1]);
        assert s == s[..|s| - 1] + [s[|s| - 1]];
      } else {
        GroupedChars(s[..|s| - 2]);
        assert s == s[..|s| - 2] + [s[|s| - 2], s[|s| - 1]];
      }
    }
  }

  function Magnitude(s: string): Option<nat> {
    if !Grouped(s) then None
    else
      GroupedChars(s);
      Some(NatOf(Ungrouped(s)))
  }

  function Signed(m: Option<nat>, negative: bool): Option<int> {
    if m.None? then None
    else
      var v: int := m.value;
      Some(if negative then -v else v)
  }

  function IntOfTrimmed(t: string): Option<int> {
    if t == "" then None
    else if t[0] == '-' then Signed(Magnitude(t[1..]), true)
    else if t[0] == '+' then Signed(Magnitude(t[1..]), false)
    else Signed(Magnitude(t), false)
  }

  /** An integer as text: surrounding space and a sign are allowed. */
  function IntOf(s: string): Option<int> {
    IntOfTrimmed(Trim(s))
  }

  datatype Metadata = Metadata(size: nat, digest: string)

  const REQUIRED: set<string> := {"RAW_SIZE", "RAW_SHA256", "ENCODING", "GUARD_BYTES"}

  function ParseMetadata(segment: string): Option<Metadata> {
    var fields := Fields(SplitLines(segment));
    if fields.None? || !(REQUIRED <= fields.value.Keys) then None
    else
      var f := fields.value;
      var size, guard := IntOf(f["RAW_SIZE"]), IntOf(f["GUARD_BYTES"]);
      if f["ENCODING"] != "base64" || size.None? || guard.None? then None
      else if size.value < 0 || guard.value < 0 || guard.value > MAX_GUARD || !Digest(f["RAW_SHA256"]) then None
      else Some(Metadata(size.value, f["RAW_SHA256"]))
  }

  // ---- The decoder ----

  datatype Failure =
    | MarkerMissing | MarkerDuplicated | TruncatedBeforePayload | TruncatedAfterPayload | MarkerOrderInvalid
    | MetadataInvalid | Base64Invalid | SizeMismatch | ShaMismatch

  datatype Decoded = Data(data: seq<byte>) | Failed(failure: Failure)

  function Between(text: string, i: nat, j: nat): string {
    if i <= j <= |text| then text[i..j] else ""
  }

  /** The metadata and payload of the one transfer in a text. */
  datatype Located = Found(metadata: string, payload: string) | Lost(failure: Failure)

  function LocateBetween(text: string, metadataAt: nat, pb: Pattern, from: nat, end: nat): Located {
    if !(metadataAt <= from < end) then Lost(MarkerOrderInvalid)
    else Found(Between(text, metadataAt, from), Between(text, from + |pb|, end))
  }

  function LocatePayload(text: string, metadataAt: nat, pb: Pattern, pe: Pattern): Located
    requires |pb| > 0 && |pe| > 0
  {
    if Count(pb, text, 0) == 0 then Lost(TruncatedBeforePayload)
    else if Count(pe, text, 0) == 0 then Lost(TruncatedAfterPayload)
    else if Count(pb, text, 0) != 1 || Count(pe, text, 0) != 1 then Lost(MarkerDuplicated)
    else LocateBetween(text, metadataAt, pb, Find(pb, text, 0).value, Find(pe, text, 0).value)
  }

  datatype Begun = Begun(at: nat, id: string) | NotBegun(failure: Failure)

  function LocateBegin(text: string): Begun {
    if Count(BeginPattern(), text, 0) == 0 then NotBegun(MarkerMissing)
    else if Count(BeginPattern(), text, 0) != 1 then NotBegun(MarkerDuplicated)
    else
      var begin := Find(BeginPattern(), text, 0).value;
      var idAt := begin + 3 + |TRANSFER_BEGIN|;
      Begun(begin, Between(text, idAt, idAt + 32))
  }

  function Locate(text: string): Located {
    match LocateBegin(text)
    case NotBegun(failure) => Lost(failure)
    case Begun(at, id) =>
      LocatePayload(text, at + |Marker(TRANSFER_BEGIN, id)|, Literal(Marker(PAYLOAD_BEGIN, id)), Literal(Marker(PAYLOAD_END, id)))
  }

  function DecodePayload(h: Hash, metadata: string, payload: string): Decoded {
    var m := ParseMetadata(metadata);
    if m.None? then Failed(MetadataInvalid)
    else
      var data := Base64.DecodeStandard(Squeeze(payload));
      if data.None? then Failed(Base64Invalid)
      else if |data.value| != m.value.size then Failed(SizeMismatch)
      else if h.ofBytes(data.value) != m.value.digest then Failed(ShaMismatch)
      else Data(data.value)
  }

  function Decode(h: Hash, text: string): Decoded {
    match Locate(text)
    case Lost(failure) => Failed(failure)
    case Found(metadata, payload) => DecodePayload(h, metadata, payload)
  }
}
