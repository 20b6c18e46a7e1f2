/** What was put into an envelope comes out of it: inside any noise, however the payload was wrapped again, and from
    every prefix that still holds the payload. */
module RelayRoundTrip {
  import opened Prelude
  import opened Relay
  import opened RelayMarkers

  // ---- A text with one transfer in it ----

  function Rest(id: string, post: string): string {
    Marker(PAYLOAD_END, id) + post
  }

  function Body(id: string, payload: string, post: string): string {
    Marker(PAYLOAD_BEGIN, id) + (payload + Rest(id, post))
  }

  function Framed(id: string, pre: string, metadata: string, payload: string, post: string): string {
    pre + (Marker(TRANSFER_BEGIN, id) + (metadata + Body(id, payload, post)))
  }

  /** No begin marker of any transfer and no payload marker of this one. */
  ghost predicate Noise(id: string, s: string) {
    Absent(BeginPattern(), s) && Absent(Literal(Marker(PAYLOAD_BEGIN, id)), s) && Absent(Literal(Marker(PAYLOAD_END, id)), s)
  }

  lemma Differ(p: Pattern, m: string, b: string, k: nat)
    requires k < |p| && k < |m| && !Fits(p[k], m[k])
    ensures !MatchAt(p, m + b, 0)
  {
    assert (m + b)[0 + k] == m[k];
  }

  lemma MarkerChar(body: string, id: string, k: nat)
    requires k < |body|
    ensures Marker(body, id)[3 + k] == body[k] && Literal(Marker(body, id))[3 + k] == Lit(body[k])
  {
  }

  lemma BeginChar(k: nat)
    requires k < |TRANSFER_BEGIN|
    ensures BeginPattern()[3 + k] == Lit(TRANSFER_BEGIN[k])
  {
    var head := "<<<" + TRANSFER_BEGIN;
    assert Literal(head)[3 + k] == Lit(head[3 + k]);
  }

  /** Two markers that differ somewhere in their names do not match each other's place. */
  lemma OtherMarker(body: string, other: string, id: string, b: string, k: nat)
    requires k < |body| && k < |other| && body[k] != other[k]
    ensures !MatchAt(Literal(Marker(body, id)), Marker(other, id) + b, 0)
  {
    MarkerChar(body, id, k);
    MarkerChar(other, id, k);
    Differ(Literal(Marker(body, id)), Marker(other, id), b, 3 + k);
  }

  lemma NotBegin(other: string, id: string, b: string, k: nat)
    requires k < |TRANSFER_BEGIN| && k < |other| && TRANSFER_BEGIN[k] != other[k]
    ensures !MatchAt(BeginPattern(), Marker(other, id) + b, 0)
  {
    BeginChar(k);
    MarkerChar(other, id, k);
    Differ(BeginPattern(), Marker(other, id), b, 3 + k);
  }

  lemma NamesDiffer()
    ensures TRANSFER_BEGIN[0] == TRANSFER_END[0] == 'C' && PAYLOAD_BEGIN[0] == PAYLOAD_END[0] == 'P'
    ensures PAYLOAD_BEGIN[8] == 'B' && PAYLOAD_END[8] == 'E'
    ensures TRANSFER_BEGIN[20] == 'B' && TRANSFER_END[20] == 'E'
  {
  }

  /** The only begin marker is the one of the transfer. */
  lemma BeginFound(id: string, pre: string, metadata: string, payload: string, post: string)
    requires TransferId(id) && '<' !in metadata && '<' !in payload
    requires Absent(BeginPattern(), pre) && Absent(BeginPattern(), post)
    ensures Only(BeginPattern(), Framed(id, pre, metadata, payload, post), Some(|pre|))
  {
    var p := BeginPattern();
    BeginMatches(id);
    Bodies();
    NamesDiffer();
    MarkerOf(TRANSFER_BEGIN, id);
    MarkerOf(PAYLOAD_BEGIN, id);
    MarkerOf(PAYLOAD_END, id);
    NotBegin(PAYLOAD_END, id, post, 0);
    AfterMarker(p, Marker(PAYLOAD_END, id), post, None);
    AfterPlain(p, payload, Rest(id, post), None);
    NotBegin(PAYLOAD_BEGIN, id, payload + Rest(id, post), 0);
    AfterMarker(p, Marker(PAYLOAD_BEGIN, id), payload + Rest(id, post), None);
    AfterPlain(p, metadata, Body(id, payload, post), None);
    AtMarker(p, Marker(TRANSFER_BEGIN, id), metadata + Body(id, payload, post));
    AfterNoise(p, pre, Marker(TRANSFER_BEGIN, id), metadata + Body(id, payload, post), Some(0));
  }

  lemma AfterPlainAt(p: Pattern, a: string, b: string, at: nat)
    requires MarkerShaped(p) && '<' !in a && Only(p, b, Some(at))
    ensures Only(p, a + b, Some(|a| + at))
  {
    AfterPlain(p, a, b, Some(at));
  }

  lemma BehindMarker(p: Pattern, m: string, pre: string, rest: string, at: nat)
    requires MarkerShaped(p) && IsMarker(m) && !MatchAt(p, m + rest, 0)
    requires Absent(p, pre) && Only(p, rest, Some(at))
    ensures Only(p, pre + (m + rest), Some(|pre| + |m| + at))
  {
    AfterMarker(p, m, rest, Some(at));
    AfterNoise(p, pre, m, rest, Some(|m| + at));
  }

  lemma Behind(p: Pattern, m: string, pre: string, metadata: string, rest: string, at: nat)
    requires MarkerShaped(p) && IsMarker(m) && '<' !in metadata && !MatchAt(p, m + (metadata + rest), 0)
    requires Absent(p, pre) && Only(p, rest, Some(at))
    ensures Only(p, pre + (m + (metadata + rest)), Some(|pre| + |m| + (|metadata| + at)))
  {
    AfterPlainAt(p, metadata, rest, at);
    BehindMarker(p, m, pre, metadata + rest, |metadata| + at);
  }

  lemma PayloadMarkerFacts(body: string, id: string, rest: string)
    requires TransferId(id) && body != "" && '<' !in body && body[0] == 'P'
    ensures MarkerShaped(Literal(Marker(body, id))) && IsMarker(Marker(TRANSFER_BEGIN, id))
    ensures !MatchAt(Literal(Marker(body, id)), Marker(TRANSFER_BEGIN, id) + rest, 0)
  {
    Bodies();
    NamesDiffer();
    MarkerOf(body, id);
    MarkerOf(TRANSFER_BEGIN, id);
    LiteralMatches(Marker(body, id));
    OtherMarker(body, TRANSFER_BEGIN, id, rest, 0);
  }

  /** A payload marker at `at` behind the metadata is found there. */
  lemma BehindMetadata(body: string, id: string, pre: string, metadata: string, rest: string, at: nat)
    requires TransferId(id) && '<' !in metadata && body != "" && '<' !in body && body[0] == 'P'
    requires Absent(Literal(Marker(body, id)), pre) && Only(Literal(Marker(body, id)), rest, Some(at))
    ensures Only(Literal(Marker(body, id)), pre + (Marker(TRANSFER_BEGIN, id) + (metadata + rest)),
                 Some(|pre| + |Marker(TRANSFER_BEGIN, id)| + (|metadata| + at)))
  {
    PayloadMarkerFacts(body, id, metadata + rest);
    Behind(Literal(Marker(body, id)), Marker(TRANSFER_BEGIN, id), pre, metadata, rest, at);
  }

  lemma PayloadMarkersFound(id: string, payload: string, post: string)
    requires TransferId(id) && '<' !in payload && Noise(id, post)
    ensures Only(Literal(Marker(PAYLOAD_BEGIN, id)), Body(id, payload, post), Some(0))
    ensures Only(Literal(Marker(PAYLOAD_END, id)), Body(id, payload, post), Some(|Marker(PAYLOAD_BEGIN, id)| + |payload|))
  {
    var pb, pe := Marker(PAYLOAD_BEGIN, id), Marker(PAYLOAD_END, id);
    Bodies();
    NamesDiffer();
    MarkerOf(PAYLOAD_BEGIN, id);
    MarkerOf(PAYLOAD_END, id);
    LiteralMatches(pb);
    LiteralMatches(pe);
    OtherMarker(PAYLOAD_BEGIN, PAYLOAD_END, id, post, 8);
    AfterMarker(Literal(pb), pe, post, None);
    AfterPlain(Literal(pb), payload, Rest(id, post), None);
    AtMarker(Literal(pb), pb, payload + Rest(id, post));
    AtMarker(Literal(pe), pe, post);
    AfterPlain(Literal(pe), payload, Rest(id, post), Some(0));
    OtherMarker(PAYLOAD_END, PAYLOAD_BEGIN, id, payload + Rest(id, post), 8);
    AfterMarker(Literal(pe), pb, payload + Rest(id, post), Some(|payload|));
  }

  /** The pieces lie where the decoder looks for them. */
  lemma IdPiece(id: string, pre: string, rest: string)
    requires TransferId(id)
    ensures var idAt := |pre| + 3 + |TRANSFER_BEGIN|;
            Between(pre + (Marker(TRANSFER_BEGIN, id) + rest), idAt, idAt + 32) == id
  {
    var b := Marker(TRANSFER_BEGIN, id);
    var text := pre + (b + rest);
    var idAt := |pre| + 3 + |TRANSFER_BEGIN|;
    assert b[3 + |TRANSFER_BEGIN|..3 + |TRANSFER_BEGIN| + 32] == id;
    assert text[|pre|..|pre| + |b|] == b;
    assert text[idAt..idAt + 32] == b[3 + |TRANSFER_BEGIN|..3 + |TRANSFER_BEGIN| + 32];
  }

  lemma MiddlePiece(a: string, piece: string, rest: string)
    ensures Between(a + (piece + rest), |a|, |a| + |piece|) == piece
  {
  }

  lemma Pieces(id: string, pre: string, metadata: string, payload: string, post: string)
    requires TransferId(id)
    ensures var text := Framed(id, pre, metadata, payload, post);
            var idAt := |pre| + 3 + |TRANSFER_BEGIN|;
            var metadataAt := |pre| + |Marker(TRANSFER_BEGIN, id)|;
            var payloadAt := metadataAt + |metadata| + |Marker(PAYLOAD_BEGIN, id)|;
            && Between(text, idAt, idAt + 32) == id
            && Between(text, metadataAt, metadataAt + |metadata|) == metadata
            && Between(text, payloadAt, payloadAt + |payload|) == payload
  {
    var text := Framed(id, pre, metadata, payload, post);
    var b, pb := Marker(TRANSFER_BEGIN, id), Marker(PAYLOAD_BEGIN, id);
    IdPiece(id, pre, metadata + Body(id, payload, post));
    assert text == (pre + b) + (metadata + Body(id, payload, post));
    MiddlePiece(pre + b, metadata, Body(id, payload, post));
    assert text == (pre + b + metadata + pb) + (payload + Rest(id, post));
    MiddlePiece(pre + b + metadata + pb, payload, Rest(id, post));
  }

  /** The payload markers are found around the payload only. */
  lemma PayloadFound(id: string, pre: string, metadata: string, payload: string, post: string)
    requires TransferId(id) && Noise(id, pre) && Noise(id, post) && '<' !in metadata && '<' !in payload
    ensures var from := |pre| + |Marker(TRANSFER_BEGIN, id)| + |metadata|;
            && Only(Literal(Marker(PAYLOAD_BEGIN, id)), Framed(id, pre, metadata, payload, post), Some(from))
            && Only(Literal(Marker(PAYLOAD_END, id)), Framed(id, pre, metadata, payload, post),
                    Some(from + |Marker(PAYLOAD_BEGIN, id)| + |payload|))
  {
    Bodies();
    NamesDiffer();
    PayloadMarkersFound(id, payload, post);
    BehindMetadata(PAYLOAD_BEGIN, id, pre, metadata, Body(id, payload, post), 0);
    BehindMetadata(PAYLOAD_END, id, pre, metadata, Body(id, payload, post), |Marker(PAYLOAD_BEGIN, id)| + |payload|);
  }

  lemma BeginLocated(text: string, begin: nat, id: string)
    requires Only(BeginPattern(), text, Some(begin))
    requires Between(text, begin + 3 + |TRANSFER_BEGIN|, begin + 3 + |TRANSFER_BEGIN| + 32) == id
    ensures LocateBegin(text) == Begun(begin, id)
  {
    Counted(BeginPattern(), text, Some(begin));
  }

  /** Metadata from `at`, then the payload between its only markers. */
  ghost predicate PayloadAt(text: string, at: nat, pb: Pattern, pe: Pattern, metadata: string, payload: string) {
    var from := at + |metadata|;
    && Only(pb, text, Some(from)) && Only(pe, text, Some(from + |pb| + |payload|))
    && Between(text, at, from) == metadata
    && Between(text, from + |pb|, from + |pb| + |payload|) == payload
  }

  lemma PayloadLocated(text: string, at: nat, pb: Pattern, pe: Pattern, metadata: string, payload: string)
    requires |pb| > 0 && |pe| > 0 && PayloadAt(text, at, pb, pe, metadata, payload)
    ensures LocatePayload(text, at, pb, pe) == Found(metadata, payload)
  {
    Counted(pb, text, Some(at + |metadata|));
    Counted(pe, text, Some(at + |metadata| + |pb| + |payload|));
    LocatedOnce(text, at, pb, pe, metadata, payload);
  }

  lemma LocatedOnce(text: string, at: nat, pb: Pattern, pe: Pattern, metadata: string, payload: string)
    requires |pb| > 0 && |pe| > 0 && Count(pb, text, 0) == 1 && Count(pe, text, 0) == 1
    requires var from := at + |metadata|;
             && Find(pb, text, 0) == Some(from) && Find(pe, text, 0) == Some(from + |pb| + |payload|)
             && Between(text, at, from) == metadata
             && Between(text, from + |pb|, from + |pb| + |payload|) == payload
    ensures LocatePayload(text, at, pb, pe) == Found(metadata, payload)
  {
  }

  /** One transfer lies in a text, its begin marker at `begin`, and no other marker of it. */
  ghost predicate Placed(text: string, id: string, begin: nat, metadata: string, payload: string) {
    && Only(BeginPattern(), text, Some(begin))
    && Between(text, begin + 3 + |TRANSFER_BEGIN|, begin + 3 + |TRANSFER_BEGIN| + 32) == id
    && PayloadAt(text, begin + |Marker(TRANSFER_BEGIN, id)|, Literal(Marker(PAYLOAD_BEGIN, id)),
                 Literal(Marker(PAYLOAD_END, id)), metadata, payload)
  }

  lemma FramedIsPlaced(id: string, pre: string, metadata: string, payload: string, post: string)
    requires TransferId(id) && Noise(id, pre) && Noise(id, post) && '<' !in metadata && '<' !in payload
    ensures Placed(Framed(id, pre, metadata, payload, post), id, |pre|, metadata, payload)
  {
    BeginFound(id, pre, metadata, payload, post);
    PayloadIsPlaced(id, pre, metadata, payload, post);
    Pieces(id, pre, metadata, payload, post);
  }

  lemma PayloadIsPlaced(id: string, pre: string, metadata: string, payload: string, post: string)
    requires TransferId(id) && Noise(id, pre) && Noise(id, post) && '<' !in metadata && '<' !in payload
    ensures PayloadAt(Framed(id, pre, metadata, payload, post), |pre| + |Marker(TRANSFER_BEGIN, id)|,
                      Literal(Marker(PAYLOAD_BEGIN, id)), Literal(Marker(PAYLOAD_END, id)), metadata, payload)
  {
    PayloadFound(id, pre, metadata, payload, post);
    Pieces(id, pre, metadata, payload, post);
  }

  lemma PlacedBegin(text: string, id: string, begin: nat, metadata: string, payload: string)
    requires Placed(text, id, begin, metadata, payload)
    ensures LocateBegin(text) == Begun(begin, id)
  {
    BeginLocated(text, begin, id);
  }

  /** In any noise, the metadata and the payload of a framed transfer are found. */
  lemma LocateFramed(id: string, pre: string, metadata: string, payload: string, post: string)
    requires TransferId(id) && Noise(id, pre) && Noise(id, post) && '<' !in metadata && '<' !in payload
    ensures Locate(Framed(id, pre, metadata, payload, post)) == Found(metadata, payload)
  {
    var text := Framed(id, pre, metadata, payload, post);
    FramedIsPlaced(id, pre, metadata, payload, post);
    PlacedBegin(text, id, |pre|, metadata, payload);
    PayloadLocated(text, |pre| + |Marker(TRANSFER_BEGIN, id)|, Literal(Marker(PAYLOAD_BEGIN, id)),
                   Literal(Marker(PAYLOAD_END, id)), metadata, payload);
  }
}
