/** The metadata lines of an envelope read back as they were written. */
module RelayMetadata {
  import opened Prelude
  import opened Text
  import opened Relay

  function JoinLines(ls: seq<string>): string
    requires ls != []
  {
    if |ls| == 1 then ls[0] else ls[0] + "\n" + JoinLines(ls[1..])
  }

  predicate Visible(c: char) {
    '!' <= c <= '~'
  }

  predicate Solid(s: string) {
    forall c | c in s :: Visible(c)
  }

  lemma VisibleIsNoSpace(c: char)
    requires Visible(c)
    ensures !Space(c) && !LineBreak(c) && !AsciiSpace(c) && c != '\n'
  {
  }

  lemma SolidIsOneLine(s: string)
    requires Solid(s)
    ensures '\n' !in s && forall c | c in s :: !LineBreak(c) && !AsciiSpace(c)
  {
    forall c | c in s ensures !LineBreak(c) && !AsciiSpace(c) && c != '\n' { VisibleIsNoSpace(c); }
  }

  lemma {:induction false} LinesOfJoined(ls: seq<string>)
    requires ls != [] && forall i | 0 <= i < |ls| :: Solid(ls[i])
    ensures SplitLines(JoinLines(ls)) == ls
    ensures Lines(JoinLines(ls)) == ls && forall c | c in JoinLines(ls) :: LineBreak(c) ==> c == '\n'
  {
    var text := JoinLines(ls);
    assert Solid(ls[0]);
    SolidIsOneLine(ls[0]);
    OneLine(ls[0]);
    if |ls| > 1 {
      LinesOfJoined(ls[1..]);
      LinesAcrossNewline(ls[0], JoinLines(ls[1..]));
      assert ls == [ls[0]] + ls[1..];
    }
    forall c | c in text && LineBreak(c) ensures c == '\n' {
      if |ls| > 1 { assert c in ls[0] || c in "\n" || c in JoinLines(ls[1..]); }
    }
    assert seq(|text|, i requires 0 <= i < |text| => if LineBreak(text[i]) then '\n' else text[i]) == text by {
      forall i | 0 <= i < |text| ensures LineBreak(text[i]) ==> text[i] == '\n' { assert text[i] in text; }
    }
  }

  lemma SolidTrims(s: string)
    requires Solid(s)
    ensures Trim(s) == s
  {
    if s != "" {
      assert s[0] in s && s[|s| - 1] in s;
      VisibleIsNoSpace(s[0]);
      VisibleIsNoSpace(s[|s| - 1]);
    }
  }

  lemma {:induction false} FieldOf(key: string, value: string)
    requires '=' !in key
    ensures Field(key + "=" + value) == Some((key, value))
    decreases |key|
  {
    var line := key + "=" + value;
    if key == "" {
      assert line == "=" + value && line[1..] == value;
    } else {
      assert key[0] in key;
      assert line[1..] == key[1..] + "=" + value;
      FieldOf(key[1..], value);
      assert [key[0]] + key[1..] == key;
    }
  }

  lemma SolidField(key: string, value: string)
    requires Solid(key) && Solid(value)
    ensures Solid(key + "=" + value)
  {
    forall c | c in key + "=" + value ensures Visible(c) { assert c in key || c in "=" || c in value; }
  }

  lemma Keys()
    ensures Solid("RAW_SIZE") && Solid("RAW_SHA256") && Solid("ENCODING") && Solid("GUARD_BYTES") && Solid("PREFIX_GUARD")
    ensures Solid("base64") && Solid("")
  {
  }

  lemma {:induction false} OneMoreField(lines: seq<string>, fields: map<string, string>, key: string, value: string)
    requires Fields(lines) == Some(fields) && key !in fields
    requires '=' !in key && Solid(key) && Solid(value)
    ensures Fields(lines + [key + "=" + value]) == Some(fields[key := value])
  {
    var line := key + "=" + value;
    var all := lines + [line];
    assert all[..|all| - 1] == lines;
    SolidField(key, value);
    SolidTrims(line);
    FieldOf(key, value);
  }

  lemma BlankLine(lines: seq<string>)
    ensures Fields(lines + [""]) == Fields(lines)
  {
    var all := lines + [""];
    assert all[..|all| - 1] == lines;
    assert Trim("") == "";
  }

  lemma {:induction false} DigitsGroup(s: string)
    requires Digits(s)
    ensures Grouped(s) && Ungrouped(s) == s
    decreases |s|
  {
    var front := s[..|s| - 1];
    assert s == front + [s[|s| - 1]] && s[|s| - 1] in s;
    if front != "" { DigitsGroup(front); }
  }

  lemma DigitsAreSolid(s: string)
    requires Digits(s)
    ensures Solid(s)
  {
    forall c | c in s ensures Visible(c) { assert Digit(c); }
  }

  lemma IntReads(n: nat)
    ensures IntOf(Decimal(n)) == Some(n) && Solid(Decimal(n))
  {
    var s := Decimal(n);
    DecimalReads(n);
    DigitsGroup(s);
    DigitsAreSolid(s);
    SolidTrims(s);
    assert Digit(s[0]) by { assert s[0] in s; }
  }

  function MetaLines(size: nat, digest: string, guardBytes: nat, guard: string): seq<string> {
    ["", "RAW_SIZE" + "=" + Decimal(size), "RAW_SHA256" + "=" + digest, "ENCODING" + "=" + "base64",
     "GUARD_BYTES" + "=" + Decimal(guardBytes), "PREFIX_GUARD" + "=" + guard, ""]
  }

  lemma KeysDiffer()
    ensures "RAW_SIZE" != "ENCODING"
    ensures |"RAW_SIZE"| < |"RAW_SHA256"| < |"GUARD_BYTES"| < |"PREFIX_GUARD"| && |"ENCODING"| < |"RAW_SHA256"|
  {
    assert "RAW_SIZE"[0] != "ENCODING"[0];
  }

  function SizeFields(size: nat, digest: string): map<string, string> {
    map["RAW_SIZE" := Decimal(size), "RAW_SHA256" := digest]
  }

  lemma FirstFields(size: nat, digest: string)
    requires Solid(digest)
    ensures Fields([""] + ["RAW_SIZE" + "=" + Decimal(size)] + ["RAW_SHA256" + "=" + digest]) == Some(SizeFields(size, digest))
  {
    IntReads(size);
    Keys();
    KeysDiffer();
    BlankLine([]);
    assert [""] == [] + [""];
    OneMoreField([""], map[], "RAW_SIZE", Decimal(size));
    OneMoreField([""] + ["RAW_SIZE" + "=" + Decimal(size)], map["RAW_SIZE" := Decimal(size)], "RAW_SHA256", digest);
  }

  lemma NextFields(lines: seq<string>, size: nat, digest: string, guardBytes: nat)
    requires Fields(lines) == Some(SizeFields(size, digest))
    ensures Fields(lines + ["ENCODING" + "=" + "base64"] + ["GUARD_BYTES" + "=" + Decimal(guardBytes)])
         == Some(SizeFields(size, digest)["ENCODING" := "base64"]["GUARD_BYTES" := Decimal(guardBytes)])
  {
    IntReads(guardBytes);
    Keys();
    KeysDiffer();
    OneMoreField(lines, SizeFields(size, digest), "ENCODING", "base64");
    OneMoreField(lines + ["ENCODING" + "=" + "base64"], SizeFields(size, digest)["ENCODING" := "base64"],
                 "GUARD_BYTES", Decimal(guardBytes));
  }

  lemma LastFields(lines: seq<string>, fields: map<string, string>, guard: string)
    requires Fields(lines) == Some(fields) && "PREFIX_GUARD" !in fields && Solid(guard)
    ensures Fields(lines + ["PREFIX_GUARD" + "=" + guard] + [""]) == Some(fields["PREFIX_GUARD" := guard])
  {
    Keys();
    assert '=' !in "PREFIX_GUARD";
    OneMoreField(lines, fields, "PREFIX_GUARD", guard);
    BlankLine(lines + ["PREFIX_GUARD" + "=" + guard]);
  }

  lemma FieldsOfMeta(size: nat, digest: string, guardBytes: nat, guard: string)
    requires Solid(digest) && Solid(guard)
    ensures Fields(MetaLines(size, digest, guardBytes, guard))
         == Some(SizeFields(size, digest)["ENCODING" := "base64"]["GUARD_BYTES" := Decimal(guardBytes)]["PREFIX_GUARD" := guard])
  {
    var first := [""] + ["RAW_SIZE" + "=" + Decimal(size)] + ["RAW_SHA256" + "=" + digest];
    var next := first + ["ENCODING" + "=" + "base64"] + ["GUARD_BYTES" + "=" + Decimal(guardBytes)];
    FirstFields(size, digest);
    NextFields(first, size, digest, guardBytes);
    KeysDiffer();
    LastFields(next, SizeFields(size, digest)["ENCODING" := "base64"]["GUARD_BYTES" := Decimal(guardBytes)], guard);
    assert MetaLines(size, digest, guardBytes, guard) == next + ["PREFIX_GUARD" + "=" + guard] + [""];
  }

  /** The metadata of an envelope reads back. */
  lemma MetadataReads(size: nat, digest: string, guardBytes: nat, guard: string)
    requires Digest(digest) && Solid(guard) && guardBytes <= MAX_GUARD
    ensures ParseMetadata(JoinLines(MetaLines(size, digest, guardBytes, guard))) == Some(Metadata(size, digest))
  {
    var lines := MetaLines(size, digest, guardBytes, guard);
    assert Solid(digest) by { forall c | c in digest ensures Visible(c) { assert LowerHex(c); } }
    MetaLinesSolid(size, digest, guardBytes, guard);
    LinesOfJoined(lines);
    FieldsOfMeta(size, digest, guardBytes, guard);
    IntReads(size);
    IntReads(guardBytes);
    KeysDiffer();
  }

  lemma MetaLinesSolid(size: nat, digest: string, guardBytes: nat, guard: string)
    requires Solid(digest) && Solid(guard)
    ensures forall i | 0 <= i < 7 :: Solid(MetaLines(size, digest, guardBytes, guard)[i])
  {
    IntReads(size);
    IntReads(guardBytes);
    Keys();
    SolidField("RAW_SIZE", Decimal(size));
    SolidField("RAW_SHA256", digest);
    SolidField("ENCODING", "base64");
    SolidField("GUARD_BYTES", Decimal(guardBytes));
    SolidField("PREFIX_GUARD", guard);
  }
}
