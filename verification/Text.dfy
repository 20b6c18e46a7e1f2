/** Lines, decimal numbers and hexadecimal identifiers. */
module Text {
  import opened Prelude

  // ---- Lines ----

  function Lines(s: string): (r: seq<string>)
    ensures |r| >= 1
  {
    if s == "" then [""]
    else
      var rest := Lines(s[1..]);
      if s[0] == '\n' then [""] + rest else [[s[0]] + rest[0]] + rest[1..]
  }

  /** The lines of two texts, the last of the one joined with the first of the other. */
  function Joined(la: seq<string>, lb: seq<string>): seq<string>
    requires |la| >= 1 && |lb| >= 1
  {
    la[..|la| - 1] + [la[|la| - 1] + lb[0]] + lb[1..]
  }

  lemma {:induction false} LinesOfSum(a: string, b: string)
    ensures Lines(a + b) == Joined(Lines(a), Lines(b))
  {
    if a == "" {
      assert a + b == b && "" + Lines(b)[0] == Lines(b)[0];
    } else {
      LinesOfSum(a[1..], b);
      assert (a + b)[1..] == a[1..] + b && (a + b)[0] == a[0];
      OneMoreChar(a[0], Lines(a[1..]), Lines(b));
    }
  }

  /** One more character before the joined lines belongs to the first of them, or ends a line of its own. */
  lemma OneMoreChar(c: char, rest: seq<string>, lb: seq<string>)
    requires |rest| >= 1 && |lb| >= 1
    ensures [""] + Joined(rest, lb) == Joined([""] + rest, lb)
    ensures var joined := Joined(rest, lb); [[c] + joined[0]] + joined[1..] == Joined([[c] + rest[0]] + rest[1..], lb)
  {
    PrependChar(c, rest, lb);
  }

  lemma PrependChar(c: char, rest: seq<string>, lb: seq<string>)
    requires |rest| >= 1 && |lb| >= 1
    ensures var joined := rest[..|rest| - 1] + [rest[|rest| - 1] + lb[0]] + lb[1..];
            var la := [[c] + rest[0]] + rest[1..];
            [[c] + joined[0]] + joined[1..] == la[..|la| - 1] + [la[|la| - 1] + lb[0]] + lb[1..]
  {
    if |rest| == 1 {
      assert [c] + (rest[0] + lb[0]) == ([c] + rest[0]) + lb[0];
    }
  }

  lemma LinesAcrossNewline(a: string, b: string)
    ensures Lines(a + "\n" + b) == Lines(a) + Lines(b)
  {
    var nb := "\n" + b;
    assert nb[1..] == b;
    assert Lines(nb) == [""] + Lines(b);
    LinesOfSum(a, nb);
    assert a + "\n" + b == a + nb;
    assert Joined(Lines(a), [""] + Lines(b)) == Lines(a)[..|Lines(a)| - 1] + [Lines(a)[|Lines(a)| - 1] + ""] + Lines(b);
    var la := Lines(a);
    assert la[|la| - 1] + "" == la[|la| - 1];
    assert la == la[..|la| - 1] + [la[|la| - 1]];
  }

  lemma {:induction false} OneLine(s: string)
    requires '\n' !in s
    ensures Lines(s) == [s]
  {
    if s != "" {
      OneLine(s[1..]);
      assert [s[0]] + s[1..] == s;
    }
  }

  // ---- Numbers and identifiers ----

  predicate Digit(c: char) { '0' <= c <= '9' }
  predicate LowerHex(c: char) { Digit(c) || 'a' <= c <= 'f' }
  predicate Hex(c: char) { LowerHex(c) || 'A' <= c <= 'F' }

  predicate Digits(s: string) { s != "" && forall c | c in s :: Digit(c) }
  predicate Digest(s: string) { |s| == 64 && forall c | c in s :: LowerHex(c) }
  predicate ObjectId(s: string) { 40 <= |s| <= 64 && forall c | c in s :: Hex(c) }

  function ToLower(c: char): char {
    if 'A' <= c <= 'Z' then (c as int + 32) as char else c
  }

  function Lower(s: string): string {
    seq(|s|, i requires 0 <= i < |s| => ToLower(s[i]))
  }

  function NatOf(s: string): nat
    requires forall c | c in s :: Digit(c)
  {
    if s == "" then 0
    else
      var last := s[|s| - 1];
      assert last in s && Digit(last);
      10 * NatOf(s[..|s| - 1]) + (last as int - '0' as int)
  }

  lemma {:induction false} DecimalReads(n: nat)
    ensures Digits(Decimal(n)) && NatOf(Decimal(n)) == n
  {
    if n >= 10 {
      DecimalReads(n / 10);
      DecimalReads(n % 10);
      var s := Decimal(n);
      assert Decimal(n % 10) == [('0' as int + n % 10) as char];
      assert s[..|s| - 1] == Decimal(n / 10);
    } else {
      assert Decimal(n)[..0] == "";
    }
  }

  lemma LowerIdentity(s: string)
    requires forall c | c in s :: LowerHex(c)
    ensures Lower(s) == s
  {
    forall i | 0 <= i < |s| ensures ToLower(s[i]) == s[i] {
      assert s[i] in s;
    }
  }
}
