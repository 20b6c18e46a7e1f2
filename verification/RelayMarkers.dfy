/** Where the markers of an envelope are found: nowhere but where they were written, whatever the noise around. */
module RelayMarkers {
  import opened Prelude
  import opened Relay

  /** Three opening brackets, then no other: the shape of every marker. */
  predicate MarkerShaped(p: Pattern) {
    && |p| > 3 && p[0] == Lit('<') && p[1] == Lit('<') && p[2] == Lit('<')
    && forall k | 3 <= k < |p| :: !Fits(p[k], '<')
  }

  predicate IsMarker(m: string) {
    |m| > 3 && m[..3] == "<<<" && '<' !in m[3..]
  }

  ghost predicate Absent(p: Pattern, text: string) {
    forall j: nat :: !MatchAt(p, text, j)
  }

  /** The only match is at `at`, or there is none. */
  ghost predicate Only(p: Pattern, text: string, at: Option<nat>) {
    forall j: nat :: MatchAt(p, text, j) <==> at == Some(j)
  }

  function Shift(at: Option<nat>, n: nat): Option<nat> {
    if at.None? then None else Some(n + at.value)
  }

  lemma MatchInSum(p: Pattern, a: string, b: string, j: nat)
    ensures j >= |a| ==> (MatchAt(p, a + b, j) <==> MatchAt(p, b, j - |a|))
    ensures j + |p| <= |a| ==> (MatchAt(p, a + b, j) <==> MatchAt(p, a, j))
  {
    var s := a + b;
    if j >= |a| && j + |p| <= |s| {
      forall k | 0 <= k < |p| ensures Fits(p[k], s[j + k]) <==> Fits(p[k], b[j - |a| + k]) {}
    }
    if j + |p| <= |a| {
      forall k | 0 <= k < |p| ensures Fits(p[k], s[j + k]) <==> Fits(p[k], a[j + k]) {}
    }
  }

  /** Text without opening brackets holds no beginning of a marker. */
  lemma AfterPlain(p: Pattern, a: string, b: string, at: Option<nat>)
    requires MarkerShaped(p) && '<' !in a && Only(p, b, at)
    ensures Only(p, a + b, Shift(at, |a|))
  {
    forall j: nat ensures MatchAt(p, a + b, j) <==> Shift(at, |a|) == Some(j) {
      MatchInSum(p, a, b, j);
      if j < |a| && j + |p| <= |a + b| {
        assert a[j] in a;
        assert !Fits(p[0], (a + b)[j + 0]);
      }
    }
  }

  /** A marker overlaps with no other. */
  lemma AfterMarker(p: Pattern, m: string, b: string, at: Option<nat>)
    requires MarkerShaped(p) && IsMarker(m) && Only(p, b, at) && !MatchAt(p, m + b, 0)
    ensures Only(p, m + b, Shift(at, |m|))
  {
    forall j: nat ensures MatchAt(p, m + b, j) <==> Shift(at, |m|) == Some(j) {
      MatchInSum(p, m, b, j);
      if 0 < j < |m| { NoMatchInside(p, m, b, j); }
    }
  }

  lemma NoMatchInside(p: Pattern, m: string, b: string, j: nat)
    requires MarkerShaped(p) && IsMarker(m) && 0 < j < |m|
    ensures !MatchAt(p, m + b, j)
  {
    var s := m + b;
    if j + |p| <= |s| {
      if j >= 3 {
        assert m[j] == m[3..][j - 3];
        assert !Fits(p[0], s[j + 0]);
      } else {
        assert m[3] == m[3..][0];
        assert !Fits(p[3 - j], s[j + (3 - j)]);
      }
    }
  }

  lemma NoMatchAcross(p: Pattern, noise: string, m: string, b: string, j: nat)
    requires MarkerShaped(p) && IsMarker(m) && j < |noise| < j + |p|
    ensures !MatchAt(p, noise + (m + b), j)
  {
    var s := noise + (m + b);
    var k := |noise| - j;
    if j + |p| <= |s| {
      assert m[0] == m[..3][0] && m[1] == m[..3][1] && m[2] == m[..3][2];
      if k >= 3 {
        assert !Fits(p[k], s[j + k]);
      } else {
        assert s[j + 3] == m[3 - k];
        assert !Fits(p[3], s[j + 3]);
      }
    }
  }

  lemma AtMarker(p: Pattern, m: string, b: string)
    requires MarkerShaped(p) && IsMarker(m) && Absent(p, b) && |p| == |m| && MatchAt(p, m, 0)
    ensures Only(p, m + b, Some(0))
  {
    forall j: nat ensures MatchAt(p, m + b, j) <==> j == 0 {
      MatchInSum(p, m, b, j);
      if 0 < j < |m| { NoMatchInside(p, m, b, j); }
    }
  }

  /** Noise that holds no marker does not complete one with the beginning of a marker after it. */
  lemma AfterNoise(p: Pattern, noise: string, m: string, b: string, at: Option<nat>)
    requires MarkerShaped(p) && Absent(p, noise) && IsMarker(m) && Only(p, m + b, at)
    ensures Only(p, noise + (m + b), Shift(at, |noise|))
  {
    var s := noise + (m + b);
    forall j: nat ensures MatchAt(p, s, j) <==> Shift(at, |noise|) == Some(j) {
      MatchInSum(p, noise, m + b, j);
      if j < |noise| < j + |p| { NoMatchAcross(p, noise, m, b, j); }
    }
  }

  lemma AbsentInPrefix(p: Pattern, a: string, b: string)
    requires Absent(p, a + b)
    ensures Absent(p, a)
  {
    forall j: nat ensures !MatchAt(p, a, j) {
      MatchInSum(p, a, b, j);
    }
  }

  /** Counting and finding a pattern that matches at one place, or nowhere. */
  lemma Counted(p: Pattern, text: string, at: Option<nat>)
    requires |p| > 0 && Only(p, text, at)
    ensures Find(p, text, 0) == at
    ensures Count(p, text, 0) == if at.Some? then 1 else 0
  {
    if at.Some? {
      assert MatchAt(p, text, at.value);
      assert Find(p, text, at.value + |p|).None?;
    }
  }

  // ---- The markers of one transfer ----

  lemma LiteralMatches(m: string)
    ensures MatchAt(Literal(m), m, 0)
    ensures IsMarker(m) ==> MarkerShaped(Literal(m))
  {
    if IsMarker(m) {
      var p := Literal(m);
      assert m[0] == m[..3][0] && m[1] == m[..3][1] && m[2] == m[..3][2];
      forall k | 3 <= k < |p| ensures !Fits(p[k], '<') {
        assert m[k] == m[3..][k - 3] && m[3..][k - 3] in m[3..];
      }
    }
  }

  lemma MarkerOf(body: string, id: string)
    requires body != "" && '<' !in body && TransferId(id)
    ensures IsMarker(Marker(body, id))
  {
    var m := Marker(body, id);
    assert m[..3] == "<<<";
    assert m[3..] == body + (id + ">>>");
    forall c | c in m[3..] ensures c != '<' {
      assert c in body || c in id || c in ">>>";
    }
  }

  lemma Bodies()
    ensures '<' !in TRANSFER_BEGIN && '<' !in PAYLOAD_BEGIN && '<' !in PAYLOAD_END && '<' !in TRANSFER_END
  {
  }

  lemma BeginMatches(id: string)
    requires TransferId(id)
    ensures MarkerShaped(BeginPattern()) && MatchAt(BeginPattern(), Marker(TRANSFER_BEGIN, id), 0)
  {
    var m, p, head := Marker(TRANSFER_BEGIN, id), BeginPattern(), "<<<" + TRANSFER_BEGIN;
    Bodies();
    forall k | 0 <= k < |p| ensures Fits(p[k], m[0 + k]) && (k >= 3 ==> !Fits(p[k], '<')) {
      if k < |head| {
        assert p[k] == Lit(head[k]) && m[k] == head[k];
        if k >= 3 { assert head[k] == TRANSFER_BEGIN[k - 3]; }
      } else if k < |head| + 32 {
        assert m[k] == id[k - |head|];
        assert p[k] == HexDigit;
      } else {
        assert m[k] == '>' && p[k] == Lit('>');
      }
    }
  }
}
