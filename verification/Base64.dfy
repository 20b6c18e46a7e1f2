/** Base64 (section 4 of RFC 4648): the padded encoding and the strict decoder, over any alphabet. */
module Base64 {
  import opened Prelude

  predicate Alphabet(al: string) {
    |al| == 64 && Distinct(al) && '=' !in al
  }

  function StandardSymbol(n: nat): char
    requires n < 64
  {
    if n < 26 then ('A' as int + n) as char
    else if n < 52 then ('a' as int + (n - 26)) as char
    else if n < 62 then ('0' as int + (n - 52)) as char
    else if n == 62 then '+'
    else '/'
  }

  function Standard(): (al: string)
    ensures Alphabet(al)
  {
    seq(64, i requires 0 <= i < 64 => StandardSymbol(i))
  }

  function ValueOf(al: string, c: char): (r: Option<nat>)
    ensures r.Some? ==> r.value < |al| && al[r.value] == c
    ensures r.None? ==> c !in al
  {
    if al == "" then None
    else if al[|al| - 1] == c then Some(|al| - 1)
    else ValueOf(al[..|al| - 1], c)
  }

  /** Three bytes as four symbols; missing bytes count as zero and give padding. */
  function EncodeGroup(al: string, a: byte, b: Option<byte>, c: Option<byte>): (r: string)
    requires Alphabet(al)
    ensures |r| == 4
  {
    var y, z := if b.Some? then b.value else 0, if c.Some? then c.value else 0;
    [al[a / 4], al[a % 4 * 16 + y / 16],
     if b.Some? then al[y % 16 * 4 + z / 64] else '=',
     if c.Some? then al[z % 64] else '=']
  }

  function Encode(al: string, data: seq<byte>): (r: string)
    requires Alphabet(al)
  {
    if |data| == 0 then ""
    else if |data| == 1 then EncodeGroup(al, data[0], None, None)
    else if |data| == 2 then EncodeGroup(al, data[0], Some(data[1]), None)
    else EncodeGroup(al, data[0], Some(data[1]), Some(data[2])) + Encode(al, data[3..])
  }

  function Bytes3(p: nat, q: nat, u: nat, v: nat): (r: seq<byte>)
    requires p < 64 && q < 64 && u < 64 && v < 64
  {
    [p * 4 + q / 16, q % 16 * 16 + u / 4, u % 4 * 64 + v]
  }

  /** Four symbols as bytes; padding is allowed only at the end of the text. */
  function DecodeGroup(al: string, g: string, last: bool): (r: Option<seq<byte>>)
    requires Alphabet(al) && |g| == 4
  {
    var p, q, u, v := ValueOf(al, g[0]), ValueOf(al, g[1]), ValueOf(al, g[2]), ValueOf(al, g[3]);
    if p.None? || q.None? then None
    else if u.Some? && v.Some? then Some(Bytes3(p.value, q.value, u.value, v.value))
    else if last && u.Some? && g[3] == '=' then Some(Bytes3(p.value, q.value, u.value, 0)[..2])
    else if last && g[2] == '=' && g[3] == '=' then Some(Bytes3(p.value, q.value, 0, 0)[..1])
    else None
  }

  /** Strict decoding: whole groups, symbols of the alphabet, padding at the end only.  Bits under the padding
      are ignored. */
  function Decode(al: string, text: string): (r: Option<seq<byte>>)
    requires Alphabet(al)
  {
    if text == "" then Some([])
    else if |text| < 4 then None
    else
      var group := DecodeGroup(al, text[..4], |text| == 4);
      var rest := Decode(al, text[4..]);
      if group.None? || rest.None? then None else Some(group.value + rest.value)
  }

  /** Two parts packed into one symbol come apart again. */
  lemma Unpack(a: nat, b: nat, c: nat)
    requires b < 16 && c < 4
    ensures (a * 16 + b) / 16 == a && (a * 16 + b) % 16 == b
    ensures (a * 4 + c) / 4 == a && (a * 4 + c) % 4 == c
  {
  }

  lemma WholeBytes(a: byte, b: byte, c: byte)
    ensures Bytes3(a / 4, a % 4 * 16 + b / 16, b % 16 * 4 + c / 64, c % 64) == [a, b, c]
  {
    Unpack(a % 4, b / 16, 0);
    Unpack(b % 16, 0, c / 64);
  }

  lemma SymbolReads(al: string, n: nat)
    requires Alphabet(al) && n < 64
    ensures ValueOf(al, al[n]) == Some(n) && al[n] != '='
  {
  }

  lemma GroupReads(al: string, a: byte, b: byte, c: byte, last: bool)
    requires Alphabet(al)
    ensures DecodeGroup(al, EncodeGroup(al, a, Some(b), Some(c)), last) == Some([a, b, c])
  {
    SymbolReads(al, a / 4);
    SymbolReads(al, a % 4 * 16 + b / 16);
    SymbolReads(al, b % 16 * 4 + c / 64);
    SymbolReads(al, c % 64);
    WholeBytes(a, b, c);
  }

  lemma PairReads(al: string, a: byte, b: byte)
    requires Alphabet(al)
    ensures DecodeGroup(al, EncodeGroup(al, a, Some(b), None), true) == Some([a, b])
  {
    SymbolReads(al, a / 4);
    SymbolReads(al, a % 4 * 16 + b / 16);
    SymbolReads(al, b % 16 * 4 + 0);
    WholeBytes(a, b, 0);
    var bytes := Bytes3(a / 4, a % 4 * 16 + b / 16, b % 16 * 4, 0);
    assert bytes == [a, b, 0] && bytes[..2] == [a, b];
    assert ValueOf(al, '=').None?;
  }

  lemma SingleReads(al: string, a: byte)
    requires Alphabet(al)
    ensures DecodeGroup(al, EncodeGroup(al, a, None, None), true) == Some([a])
  {
    SymbolReads(al, a / 4);
    SymbolReads(al, a % 4 * 16 + 0);
    WholeBytes(a, 0, 0);
    var bytes := Bytes3(a / 4, a % 4 * 16, 0, 0);
    assert bytes == [a, 0, 0] && bytes[..1] == [a];
    assert ValueOf(al, '=').None?;
  }

  lemma DecodeStep(al: string, group: string, rest: string, bytes: seq<byte>, more: seq<byte>)
    requires Alphabet(al) && |group| == 4
    requires DecodeGroup(al, group, rest == "") == Some(bytes) && Decode(al, rest) == Some(more)
    ensures Decode(al, group + rest) == Some(bytes + more)
  {
    var text := group + rest;
    assert text[..4] == group && text[4..] == rest;
  }

  /** Decoding gives back every byte string. */
  lemma {:induction false} RoundTrip(al: string, data: seq<byte>)
    requires Alphabet(al)
    ensures Decode(al, Encode(al, data)) == Some(data)
    decreases |data|
  {
    if |data| >= 3 {
      var rest := Encode(al, data[3..]);
      RoundTrip(al, data[3..]);
      GroupReads(al, data[0], data[1], data[2], rest == "");
      DecodeStep(al, EncodeGroup(al, data[0], Some(data[1]), Some(data[2])), rest, [data[0], data[1], data[2]], data[3..]);
      assert data == [data[0], data[1], data[2]] + data[3..];
    } else if |data| > 0 {
      ShortTrip(al, data);
    }
  }

  lemma ShortTrip(al: string, data: seq<byte>)
    requires Alphabet(al) && 0 < |data| < 3
    ensures Decode(al, Encode(al, data)) == Some(data)
  {
    var group := Encode(al, data);
    if |data| == 2 {
      PairReads(al, data[0], data[1]);
      assert data == [data[0], data[1]];
    } else {
      SingleReads(al, data[0]);
      assert data == [data[0]];
    }
    DecodeStep(al, group, "", data, []);
    assert group + "" == group && data + [] == data;
  }

  /** The characters of encoded text. */
  predicate Encoded(al: string, c: char) {
    c in al || c == '='
  }

  lemma {:induction false} EncodeUsesAlphabet(al: string, data: seq<byte>)
    requires Alphabet(al)
    ensures forall i | 0 <= i < |Encode(al, data)| :: Encoded(al, Encode(al, data)[i])
    decreases |data|
  {
    if |data| >= 3 {
      EncodeUsesAlphabet(al, data[3..]);
    }
  }

  function EncodeStandard(data: seq<byte>): string {
    Encode(Standard(), data)
  }

  function DecodeStandard(text: string): Option<seq<byte>> {
    Decode(Standard(), text)
  }
}
