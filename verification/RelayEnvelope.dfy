/** Building an envelope, and the two promises of the relay: the data comes back from inside any noise, however its
    payload was wrapped again, and a truncated envelope gives the data or fails. */
module RelayEnvelope {
  import opened Prelude
  import opened Text
  import opened Relay
  import opened RelayMarkers
  import opened RelayMetadata
  import opened RelayRoundTrip

  // ---- The characters of an envelope ----

  predicate Plain(s: string) {
    Solid(s) && '<' !in s
  }

  lemma PlainSum(a: string, b: string)
    requires Plain(a) && Plain(b)
    ensures Plain(a + b)
  {
  }

  lemma HexIsPlain(s: string)
    requires forall c | c in s :: LowerHex(c)
    ensures Plain(s)
  {
    forall c | c in s ensures Visible(c) && c != '<' { assert LowerHex(c); }
  }

  lemma {:induction false} HexTextIsHex(n: nat)
    ensures forall c | c in HexText(n) :: LowerHex(c)
  {
    if n >= 16 { HexTextIsHex(n / 16); }
  }

  lemma ChunkIsPlain(h: Hash, tag: string, id: string, n: nat)
    requires Hexadecimal(h) && tag != "" && Plain(tag)
    ensures Plain(GuardChunk(h, tag, id, n))
  {
    var digest := h.ofText(tag + ":" + id + ":" + Decimal(n));
    HexTextIsHex(n);
    HexIsPlain(FourHex(n));
    assert Digest(digest);
    HexIsPlain(digest);
    assert tag[0] in tag;
    assert Plain([tag[0]]);
    PlainSum([tag[0]], FourHex(n));
    PlainSum([tag[0]] + FourHex(n), digest);
  }

  lemma {:induction false} ChunksArePlain(h: Hash, tag: string, id: string, n: nat)
    requires Hexadecimal(h) && tag != "" && Plain(tag)
    ensures Plain(GuardChunks(h, tag, id, n))
  {
    if n > 0 {
      ChunksArePlain(h, tag, id, n - 1);
      ChunkIsPlain(h, tag, id, n - 1);
      PlainSum(GuardChunks(h, tag, id, n - 1), GuardChunk(h, tag, id, n - 1));
    }
  }

  lemma GuardIsPlain(h: Hash, tag: string, id: string, size: nat)
    requires Hexadecimal(h) && tag != "" && Plain(tag)
    ensures Plain(GuardText(h, tag, id, size))
  {
    ChunksArePlain(h, tag, id, size);
    var chunks := GuardChunks(h, tag, id, size);
    forall c | c in chunks[..size] ensures c in chunks {}
  }

  lemma TagsArePlain()
    ensures Plain("PREFIX") && Plain("SUFFIX")
  {
  }

  lemma {:induction false} JoinedLinesPlain(ls: seq<string>)
    requires ls != [] && forall i | 0 <= i < |ls| :: '<' !in ls[i]
    ensures '<' !in JoinLines(ls)
  {
    if |ls| > 1 { JoinedLinesPlain(ls[1..]); }
  }

  // ---- The envelope ----

  function MetadataText(h: Hash, data: seq<byte>, id: string, guardBytes: nat): string {
    JoinLines(MetaLines(|data|, h.ofBytes(data), guardBytes, GuardText(h, "PREFIX", id, guardBytes)))
  }

  function Foot(h: Hash, id: string, guardBytes: nat): string {
    ("\n" + "SUFFIX_GUARD=" + GuardText(h, "SUFFIX", id, guardBytes) + "\n") + (Marker(TRANSFER_END, id) + "\n")
  }

  /** An envelope with its payload wrapped in whatever way. */
  function Envelope(h: Hash, data: seq<byte>, id: string, guardBytes: nat, payload: string): string {
    Framed(id, "", MetadataText(h, data, id, guardBytes), payload, Foot(h, id, guardBytes))
  }

  function Wrapped(data: seq<byte>, width: nat): string
    requires width > 0
  {
    "\n" + Wrap(Base64.EncodeStandard(data), width) + "\n"
  }

  method Build(h: Hash, data: seq<byte>, id: string, guardBytes: int, width: int) returns (r: Option<string>)
    ensures r.Some? <==> TransferId(id) && 0 <= guardBytes <= MAX_GUARD && LegalWidth(width)
    ensures r.Some? ==> r.value == Envelope(h, data, id, guardBytes, Wrapped(data, width))
  {
    if !TransferId(id) { return None; }
    var prefix := Guard(h, "PREFIX", id, guardBytes);
    var suffix := Guard(h, "SUFFIX", id, guardBytes);
    if prefix.None? || suffix.None? || !LegalWidth(width) { return None; }
    var wrapped := Wrap(Base64.EncodeStandard(data), width);
    var lines := [Marker(TRANSFER_BEGIN, id)]
      + MetaLines(|data|, h.ofBytes(data), guardBytes, prefix.value)[1..6]
      + [Marker(PAYLOAD_BEGIN, id), wrapped, Marker(PAYLOAD_END, id), "SUFFIX_GUARD=" + suffix.value, Marker(TRANSFER_END, id)];
    LinesAreFramed(id, MetaLines(|data|, h.ofBytes(data), guardBytes, prefix.value), wrapped, suffix.value);
    return Some(JoinLines(lines) + "\n");
  }

  lemma {:induction false} JoinSum(a: seq<string>, b: seq<string>)
    requires a != [] && b != []
    ensures JoinLines(a + b) == JoinLines(a) + "\n" + JoinLines(b)
  {
    if |a| == 1 {
      assert (a + b)[1..] == b;
    } else {
      assert (a + b)[1..] == a[1..] + b;
      JoinSum(a[1..], b);
    }
  }

  /** The joined lines of an envelope, seen as markers with text between them. */
  lemma LinesAreFramed(id: string, meta: seq<string>, wrapped: string, suffix: string)
    requires |meta| == 7 && meta[0] == "" && meta[6] == ""
    ensures JoinLines([Marker(TRANSFER_BEGIN, id)] + meta[1..6]
              + [Marker(PAYLOAD_BEGIN, id), wrapped, Marker(PAYLOAD_END, id), "SUFFIX_GUARD=" + suffix, Marker(TRANSFER_END, id)]) + "\n"
         == Framed(id, "", JoinLines(meta), "\n" + wrapped + "\n",
                   ("\n" + "SUFFIX_GUARD=" + suffix + "\n") + (Marker(TRANSFER_END, id) + "\n"))
  {
    JoinAll(Marker(TRANSFER_BEGIN, id), meta, Marker(PAYLOAD_BEGIN, id), wrapped, Marker(PAYLOAD_END, id),
            "SUFFIX_GUARD=" + suffix, Marker(TRANSFER_END, id));
    assert "\n" + "SUFFIX_GUARD=" + suffix + "\n" == "\n" + ("SUFFIX_GUARD=" + suffix) + "\n";
  }

  lemma JoinAll(b: string, meta: seq<string>, pb: string, wrapped: string, pe: string, s: string, te: string)
    requires |meta| == 7 && meta[0] == "" && meta[6] == ""
    ensures JoinLines([b] + meta[1..6] + [pb, wrapped, pe, s, te]) + "\n"
         == "" + (b + (JoinLines(meta) + (pb + (("\n" + wrapped + "\n") + (pe + (("\n" + s + "\n") + (te + "\n")))))))
  {
    JoinTail(pb, wrapped, pe, s, te);
    JoinSum([b], meta[1..6]);
    JoinSum([b] + meta[1..6], [pb, wrapped, pe, s, te]);
    JoinMeta(meta);
    FramedText(b, JoinLines(meta[1..6]), pb, wrapped, pe, s, te);
  }

  lemma JoinTail(a: string, b: string, c: string, d: string, e: string)
    ensures JoinLines([a, b, c, d, e]) == a + "\n" + b + "\n" + c + "\n" + d + "\n" + e
  {
    JoinSum([a], [b, c, d, e]);
    JoinSum([b], [c, d, e]);
    JoinSum([c], [d, e]);
    JoinSum([d], [e]);
    assert [a, b, c, d, e] == [a] + [b, c, d, e] && [b, c, d, e] == [b] + [c, d, e];
    assert [c, d, e] == [c] + [d, e] && [d, e] == [d] + [e];
  }

  lemma JoinMeta(meta: seq<string>)
    requires |meta| == 7 && meta[0] == "" && meta[6] == ""
    ensures JoinLines(meta) == "\n" + JoinLines(meta[1..6]) + "\n"
  {
    assert meta == [""] + (meta[1..6] + [""]);
    JoinSum([""], meta[1..6] + [""]);
    JoinSum(meta[1..6], [""]);
  }

  lemma FramedText(b: string, middle: string, pb: string, wrapped: string, pe: string, s: string, te: string)
    ensures b + "\n" + middle + "\n" + (pb + "\n" + wrapped + "\n" + pe + "\n" + s + "\n" + te) + "\n"
         == "" + (b + (("\n" + middle + "\n") + (pb + (("\n" + wrapped + "\n") + (pe + (("\n" + s + "\n") + (te + "\n")))))))
  {
  }

  // ---- The pieces of an envelope hold no stray marker ----

  lemma StandardHasNoBracket(c: char)
    requires Base64.Encoded(Base64.Standard(), c)
    ensures c != '<' && !AsciiSpace(c)
  {
    if c != '=' {
      var i :| 0 <= i < 64 && Base64.Standard()[i] == c;
      assert c == Base64.StandardSymbol(i);
    }
  }

  lemma EncodedChars(data: seq<byte>)
    ensures forall c | c in Base64.EncodeStandard(data) :: c != '<' && !AsciiSpace(c)
  {
    var text := Base64.EncodeStandard(data);
    Base64.EncodeUsesAlphabet(Base64.Standard(), data);
    forall c | c in text ensures c != '<' && !AsciiSpace(c) {
      var i :| 0 <= i < |text| && text[i] == c;
      StandardHasNoBracket(c);
    }
  }

  lemma PayloadHasNoBracket(data: seq<byte>, payload: string)
    requires Squeeze(payload) == Base64.EncodeStandard(data)
    ensures '<' !in payload
  {
    EncodedChars(data);
    if '<' in payload { SqueezedChars(payload, '<'); }
  }

  lemma MetadataHasNoBracket(h: Hash, data: seq<byte>, id: string, guardBytes: nat)
    requires Hexadecimal(h)
    ensures '<' !in MetadataText(h, data, id, guardBytes)
  {
    var guard := GuardText(h, "PREFIX", id, guardBytes);
    TagsArePlain();
    GuardIsPlain(h, "PREFIX", id, guardBytes);
    assert Digest(h.ofBytes(data));
    HexIsPlain(h.ofBytes(data));
    DecimalIsPlain(|data|);
    DecimalIsPlain(guardBytes);
    LinesHaveNoBracket(|data|, h.ofBytes(data), guardBytes, guard);
    JoinedLinesPlain(MetaLines(|data|, h.ofBytes(data), guardBytes, guard));
  }

  lemma DecimalIsPlain(n: nat)
    ensures Plain(Decimal(n))
  {
    DecimalReads(n);
    forall c | c in Decimal(n) ensures LowerHex(c) { assert Digit(c); }
    HexIsPlain(Decimal(n));
  }

  lemma LinesHaveNoBracket(size: nat, digest: string, guardBytes: nat, guard: string)
    requires Plain(Decimal(size)) && Plain(digest) && Plain(Decimal(guardBytes)) && Plain(guard)
    ensures forall i | 0 <= i < 7 :: '<' !in MetaLines(size, digest, guardBytes, guard)[i]
  {
    assert '<' !in "RAW_SIZE" && '<' !in "RAW_SHA256" && '<' !in "ENCODING" && '<' !in "base64";
    assert '<' !in "GUARD_BYTES" && '<' !in "PREFIX_GUARD";
  }

  /** Nothing after the payload end looks like a marker, unless the noise that follows does. */
  lemma FootIsNoise(h: Hash, id: string, guardBytes: nat, post: string)
    requires Hexadecimal(h) && TransferId(id) && Noise(id, post)
    ensures Noise(id, Foot(h, id, guardBytes) + post)
  {
    var pb, pe, te := Marker(PAYLOAD_BEGIN, id), Marker(PAYLOAD_END, id), Marker(TRANSFER_END, id);
    var head := "\n" + "SUFFIX_GUARD=" + GuardText(h, "SUFFIX", id, guardBytes) + "\n";
    TagsArePlain();
    GuardIsPlain(h, "SUFFIX", id, guardBytes);
    assert '<' !in head by { assert '<' !in "\n" && '<' !in "SUFFIX_GUARD="; }
    Bodies();
    NamesDiffer();
    MarkerOf(PAYLOAD_BEGIN, id);
    MarkerOf(PAYLOAD_END, id);
    BeginMatches(id);
    LiteralMatches(pb);
    LiteralMatches(pe);
    NotBegin(TRANSFER_END, id, "\n" + post, 20);
    OtherMarker(PAYLOAD_BEGIN, TRANSFER_END, id, "\n" + post, 0);
    OtherMarker(PAYLOAD_END, TRANSFER_END, id, "\n" + post, 0);
    FootAbsent(BeginPattern(), id, head, post);
    FootAbsent(Literal(pb), id, head, post);
    FootAbsent(Literal(pe), id, head, post);
    assert Foot(h, id, guardBytes) + post == head + (te + ("\n" + post));
  }

  lemma FootAbsent(p: Pattern, id: string, head: string, post: string)
    requires MarkerShaped(p) && TransferId(id) && '<' !in head && Absent(p, post)
    requires !MatchAt(p, Marker(TRANSFER_END, id) + ("\n" + post), 0)
    ensures Absent(p, head + (Marker(TRANSFER_END, id) + ("\n" + post)))
  {
    Bodies();
    MarkerOf(TRANSFER_END, id);
    AfterPlain(p, "\n", post, None);
    AfterMarker(p, Marker(TRANSFER_END, id), "\n" + post, None);
    AfterPlain(p, head, Marker(TRANSFER_END, id) + ("\n" + post), None);
  }

  // ---- Round trip ----

  lemma PayloadDecodes(h: Hash, data: seq<byte>, id: string, guardBytes: nat, payload: string)
    requires Hexadecimal(h) && guardBytes <= MAX_GUARD && Squeeze(payload) == Base64.EncodeStandard(data)
    ensures DecodePayload(h, MetadataText(h, data, id, guardBytes), payload) == Data(data)
  {
    TagsArePlain();
    GuardIsPlain(h, "PREFIX", id, guardBytes);
    assert Digest(h.ofBytes(data));
    MetadataReads(|data|, h.ofBytes(data), guardBytes, GuardText(h, "PREFIX", id, guardBytes));
    Base64.RoundTrip(Base64.Standard(), data);
  }

  /** The data comes back: for all data, transfer ids and guard sizes, between any two pieces of noise, and with the
      payload wrapped again in any way by ASCII whitespace. */
  lemma RoundTrip(h: Hash, data: seq<byte>, id: string, guardBytes: nat, payload: string, pre: string, post: string)
    requires Hexadecimal(h) && TransferId(id) && guardBytes <= MAX_GUARD
    requires Squeeze(payload) == Base64.EncodeStandard(data) && Noise(id, pre) && Noise(id, post)
    ensures Decode(h, pre + Envelope(h, data, id, guardBytes, payload) + post) == Data(data)
  {
    var metadata, foot := MetadataText(h, data, id, guardBytes), Foot(h, id, guardBytes);
    Regroup(id, pre, metadata, payload, foot, post);
    FootIsNoise(h, id, guardBytes, post);
    FramedDecodes(h, data, id, guardBytes, payload, pre, foot + post);
  }

  lemma FramedDecodes(h: Hash, data: seq<byte>, id: string, guardBytes: nat, payload: string, pre: string, post: string)
    requires Hexadecimal(h) && TransferId(id) && guardBytes <= MAX_GUARD
    requires Squeeze(payload) == Base64.EncodeStandard(data) && Noise(id, pre) && Noise(id, post)
    ensures Decode(h, Framed(id, pre, MetadataText(h, data, id, guardBytes), payload, post)) == Data(data)
  {
    MetadataHasNoBracket(h, data, id, guardBytes);
    PayloadHasNoBracket(data, payload);
    LocateFramed(id, pre, MetadataText(h, data, id, guardBytes), payload, post);
    PayloadDecodes(h, data, id, guardBytes, payload);
  }

  lemma Regroup(id: string, pre: string, metadata: string, payload: string, foot: string, post: string)
    ensures pre + Framed(id, "", metadata, payload, foot) + post == Framed(id, pre, metadata, payload, foot + post)
  {
    Nested(pre, Marker(TRANSFER_BEGIN, id), metadata, Marker(PAYLOAD_BEGIN, id), payload, Marker(PAYLOAD_END, id), foot, post);
  }

  lemma Nested(pre: string, b: string, m: string, pb: string, p: string, pe: string, foot: string, post: string)
    ensures pre + ("" + (b + (m + (pb + (p + (pe + foot)))))) + post == pre + (b + (m + (pb + (p + (pe + (foot + post))))))
  {
  }

  /** Every legal line width is one of those ways. */
  lemma WrappedPayload(data: seq<byte>, width: nat)
    requires LegalWidth(width)
    ensures Squeeze(Wrapped(data, width)) == Base64.EncodeStandard(data)
  {
    var text := Base64.EncodeStandard(data);
    EncodedChars(data);
    WrapSqueezes(text, width);
    SqueezeSum("\n" + Wrap(text, width), "\n");
    SqueezeSum("\n", Wrap(text, width));
    assert "\n"[..0] == "";
    assert "" + text + "" == text;
  }

  // ---- Truncation ----

  lemma OnlyInPrefix(p: Pattern, text: string, at: nat, k: nat)
    requires Only(p, text, Some(at)) && k <= |text|
    ensures Only(p, text[..k], if at + |p| <= k then Some(at) else None)
  {
    forall j: nat ensures MatchAt(p, text[..k], j) <==> j == at && at + |p| <= k {
      assert text == text[..k] + text[k..];
      MatchInSum(p, text[..k], text[k..], j);
    }
  }

  lemma LostBefore(text: string, begin: nat, id: string, k: nat, end: nat)
    requires k <= |text| && |id| == 32
    requires Only(BeginPattern(), text, Some(begin)) && Only(Literal(Marker(PAYLOAD_END, id)), text, Some(end))
    requires Between(text, begin + 3 + |TRANSFER_BEGIN|, begin + 3 + |TRANSFER_BEGIN| + 32) == id
    requires k < end + |Marker(PAYLOAD_END, id)|
    ensures Locate(text[..k]).Lost?
  {
    EndIsLost(text, Literal(Marker(PAYLOAD_END, id)), end, k);
    BeginKeptOrLost(text, begin, id, k);
    LostPayload(text[..k], begin + |Marker(TRANSFER_BEGIN, id)|, Literal(Marker(PAYLOAD_BEGIN, id)), Literal(Marker(PAYLOAD_END, id)));
  }

  lemma EndIsLost(text: string, pe: Pattern, end: nat, k: nat)
    requires k <= |text| && |pe| > 0 && Only(pe, text, Some(end)) && k < end + |pe|
    ensures Count(pe, text[..k], 0) == 0
  {
    OnlyInPrefix(pe, text, end, k);
    Counted(pe, text[..k], None);
  }

  lemma BeginKeptOrLost(text: string, begin: nat, id: string, k: nat)
    requires k <= |text| && Only(BeginPattern(), text, Some(begin))
    requires Between(text, begin + 3 + |TRANSFER_BEGIN|, begin + 3 + |TRANSFER_BEGIN| + 32) == id
    ensures LocateBegin(text[..k]) == Begun(begin, id) || LocateBegin(text[..k]).NotBegun?
  {
    OnlyInPrefix(BeginPattern(), text, begin, k);
    if begin + |BeginPattern()| <= k {
      var idAt := begin + 3 + |TRANSFER_BEGIN|;
      assert Between(text[..k], idAt, idAt + 32) == Between(text, idAt, idAt + 32);
      BeginLocated(text[..k], begin, id);
    } else {
      Counted(BeginPattern(), text[..k], None);
    }
  }

  lemma LostPayload(text: string, metadataAt: nat, pb: Pattern, pe: Pattern)
    requires |pb| > 0 && |pe| > 0 && Count(pe, text, 0) == 0
    ensures LocatePayload(text, metadataAt, pb, pe).Lost?
  {
  }

  /** Where the end marker of the payload ends. */
  function EndOfPayload(h: Hash, data: seq<byte>, id: string, guardBytes: nat, payload: string): nat {
    |Marker(TRANSFER_BEGIN, id)| + |MetadataText(h, data, id, guardBytes)| + |Marker(PAYLOAD_BEGIN, id)| + |payload|
    + |Marker(PAYLOAD_END, id)|
  }

  /** A truncated envelope, after any noise, gives exactly the data when its payload end arrived, and fails otherwise. */
  lemma TruncationIsSafe(h: Hash, data: seq<byte>, id: string, guardBytes: nat, payload: string, pre: string, k: nat)
    requires Hexadecimal(h) && TransferId(id) && guardBytes <= MAX_GUARD
    requires Squeeze(payload) == Base64.EncodeStandard(data) && Noise(id, pre)
    requires k <= |pre + Envelope(h, data, id, guardBytes, payload)|
    ensures var r := Decode(h, (pre + Envelope(h, data, id, guardBytes, payload))[..k]);
            if k >= |pre| + EndOfPayload(h, data, id, guardBytes, payload) then r == Data(data) else r.Failed?
  {
    if k >= |pre| + EndOfPayload(h, data, id, guardBytes, payload) {
      KeptPayload(h, data, id, guardBytes, payload, pre, k);
    } else {
      LostPayloadEnd(h, data, id, guardBytes, payload, pre, k);
    }
  }

  lemma NoNoise(id: string)
    requires TransferId(id)
    ensures Noise(id, "")
  {
  }

  lemma FootPrefixIsNoise(h: Hash, id: string, guardBytes: nat, n: nat)
    requires Hexadecimal(h) && TransferId(id) && n <= |Foot(h, id, guardBytes)|
    ensures Noise(id, Foot(h, id, guardBytes)[..n])
  {
    var foot := Foot(h, id, guardBytes);
    NoNoise(id);
    FootIsNoise(h, id, guardBytes, "");
    assert foot + "" == foot == foot[..n] + foot[n..];
    AbsentInPrefix(BeginPattern(), foot[..n], foot[n..]);
    AbsentInPrefix(Literal(Marker(PAYLOAD_BEGIN, id)), foot[..n], foot[n..]);
    AbsentInPrefix(Literal(Marker(PAYLOAD_END, id)), foot[..n], foot[n..]);
  }

  lemma KeptFoot(h: Hash, data: seq<byte>, id: string, guardBytes: nat, payload: string, pre: string, n: nat)
    requires Hexadecimal(h) && TransferId(id) && guardBytes <= MAX_GUARD
    requires Squeeze(payload) == Base64.EncodeStandard(data) && Noise(id, pre)
    requires n <= |Foot(h, id, guardBytes)|
    ensures Decode(h, Framed(id, pre, MetadataText(h, data, id, guardBytes), payload, Foot(h, id, guardBytes)[..n])) == Data(data)
  {
    FootPrefixIsNoise(h, id, guardBytes, n);
    FramedDecodes(h, data, id, guardBytes, payload, pre, Foot(h, id, guardBytes)[..n]);
  }

  lemma KeptPayload(h: Hash, data: seq<byte>, id: string, guardBytes: nat, payload: string, pre: string, k: nat)
    requires Hexadecimal(h) && TransferId(id) && guardBytes <= MAX_GUARD
    requires Squeeze(payload) == Base64.EncodeStandard(data) && Noise(id, pre)
    requires |pre| + EndOfPayload(h, data, id, guardBytes, payload) <= k <= |pre + Envelope(h, data, id, guardBytes, payload)|
    ensures Decode(h, (pre + Envelope(h, data, id, guardBytes, payload))[..k]) == Data(data)
  {
    var n := KeptPart(h, data, id, guardBytes, payload, pre, k);
    KeptFoot(h, data, id, guardBytes, payload, pre, n);
  }

  lemma KeptPart(h: Hash, data: seq<byte>, id: string, guardBytes: nat, payload: string, pre: string, k: nat) returns (n: nat)
    requires |pre| + EndOfPayload(h, data, id, guardBytes, payload) <= k <= |pre + Envelope(h, data, id, guardBytes, payload)|
    ensures n <= |Foot(h, id, guardBytes)|
    ensures (pre + Envelope(h, data, id, guardBytes, payload))[..k]
         == Framed(id, pre, MetadataText(h, data, id, guardBytes), payload, Foot(h, id, guardBytes)[..n])
  {
    n := k - |pre| - EndOfPayload(h, data, id, guardBytes, payload);
    Truncated(id, pre, MetadataText(h, data, id, guardBytes), payload, Foot(h, id, guardBytes), n);
  }

  lemma Truncated(id: string, pre: string, metadata: string, payload: string, foot: string, n: nat)
    requires n <= |foot|
    ensures var all := pre + Framed(id, "", metadata, payload, foot);
            all[..|all| - |foot| + n] == Framed(id, pre, metadata, payload, foot[..n])
  {
    assert pre + Framed(id, "", metadata, payload, foot) == Framed(id, pre, metadata, payload, foot);
    assert Framed(id, pre, metadata, payload, foot) == Framed(id, pre, metadata, payload, foot[..n]) + foot[n..];
  }

  lemma EnvelopeIsFramed(h: Hash, data: seq<byte>, id: string, guardBytes: nat, payload: string, pre: string)
    requires Hexadecimal(h) && TransferId(id) && Squeeze(payload) == Base64.EncodeStandard(data)
    ensures var metadata, foot := MetadataText(h, data, id, guardBytes), Foot(h, id, guardBytes);
            && pre + Envelope(h, data, id, guardBytes, payload) == Framed(id, pre, metadata, payload, foot)
            && Noise(id, foot) && '<' !in metadata && '<' !in payload
  {
    var foot := Foot(h, id, guardBytes);
    Regroup(id, pre, MetadataText(h, data, id, guardBytes), payload, foot, "");
    assert foot + "" == foot && foot[..|foot|] == foot;
    FootPrefixIsNoise(h, id, guardBytes, |foot|);
    MetadataHasNoBracket(h, data, id, guardBytes);
    PayloadHasNoBracket(data, payload);
  }

  lemma LostPayloadEnd(h: Hash, data: seq<byte>, id: string, guardBytes: nat, payload: string, pre: string, k: nat)
    requires Hexadecimal(h) && TransferId(id) && guardBytes <= MAX_GUARD
    requires Squeeze(payload) == Base64.EncodeStandard(data) && Noise(id, pre)
    requires k <= |pre + Envelope(h, data, id, guardBytes, payload)|
    requires k < |pre| + EndOfPayload(h, data, id, guardBytes, payload)
    ensures Decode(h, (pre + Envelope(h, data, id, guardBytes, payload))[..k]).Failed?
  {
    var metadata, foot := MetadataText(h, data, id, guardBytes), Foot(h, id, guardBytes);
    EnvelopeIsFramed(h, data, id, guardBytes, payload, pre);
    LostFramed(id, pre, metadata, payload, foot, k);
  }

  lemma LostPlaced(text: string, id: string, begin: nat, metadata: string, payload: string, k: nat)
    requires k <= |text| && |id| == 32 && Placed(text, id, begin, metadata, payload)
    requires k < begin + |Marker(TRANSFER_BEGIN, id)| + |metadata| + |Marker(PAYLOAD_BEGIN, id)| + |payload|
                 + |Marker(PAYLOAD_END, id)|
    ensures Locate(text[..k]).Lost?
  {
    LostBefore(text, begin, id, k, begin + |Marker(TRANSFER_BEGIN, id)| + |metadata| + |Marker(PAYLOAD_BEGIN, id)| + |payload|);
  }

  lemma LostFramed(id: string, pre: string, metadata: string, payload: string, post: string, k: nat)
    requires TransferId(id) && Noise(id, pre) && Noise(id, post) && '<' !in metadata && '<' !in payload
    requires k <= |Framed(id, pre, metadata, payload, post)|
    requires k < |pre| + |Marker(TRANSFER_BEGIN, id)| + |metadata| + |Marker(PAYLOAD_BEGIN, id)| + |payload|
                 + |Marker(PAYLOAD_END, id)|
    ensures Locate(Framed(id, pre, metadata, payload, post)[..k]).Lost?
  {
    FramedIsPlaced(id, pre, metadata, payload, post);
    LostPlaced(Framed(id, pre, metadata, payload, post), id, |pre|, metadata, payload, k);
  }
}
