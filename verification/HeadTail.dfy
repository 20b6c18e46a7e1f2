/** Bounded retention of process output: the first half of the budget, the end of the rest, and an exact count
    of what lies between. */
module HeadTail {
  import opened Prelude

  // ---- What a buffer should hold: keep the whole stream, then cut ----

  datatype Summary = Summary(head: seq<byte>, tail: seq<byte>, omitted: nat)

  function HeadBudget(max: nat): nat { max / 2 }

  function TailBudget(max: nat): nat { max - max / 2 }

  function Min(a: nat, b: nat): nat {
    if a < b then a else b
  }

  function Last(s: seq<byte>, n: nat): seq<byte> {
    s[|s| - Min(|s|, n)..]
  }

  /** The direct summary of a whole stream. */
  function SummaryOf(max: nat, stream: seq<byte>): Summary {
    var h := Min(|stream|, HeadBudget(max));
    var tail := Last(stream[h..], TailBudget(max));
    Summary(stream[..h], tail, |stream| - h - |tail|)
  }

  lemma LastOfSum(a: seq<byte>, b: seq<byte>, n: nat)
    ensures |b| >= n ==> Last(a + b, n) == Last(b, n)
    ensures |b| < n ==> Last(a + b, n) == Last(a, n - |b|) + b
    ensures Last(a + b, n) == Last(Last(a, n) + b, n)
  {
  }

  /** The retained bytes are the two ends of the stream, the budget is never exceeded, and nothing is omitted
      exactly when the stream fits. */
  lemma SummaryIsExact(max: nat, stream: seq<byte>)
    ensures var s := SummaryOf(max, stream);
            && s.head <= stream && s.tail == stream[|stream| - |s.tail|..]
            && |s.head| + |s.tail| + s.omitted == |stream|
            && |s.head| + |s.tail| <= max
            && s.omitted == (if |stream| <= max then 0 else |stream| - max)
            && (s.head + s.tail == stream <==> |stream| <= max)
  {
    var s := SummaryOf(max, stream);
    if |stream| <= max {
      assert stream == stream[..|s.head|] + stream[|s.head|..];
    } else {
      assert |s.head + s.tail| < |stream|;
    }
  }

  /** `t` is what the summary `s` becomes when a chunk is appended. */
  predicate Appends(max: nat, s: Summary, chunk: seq<byte>, t: Summary)
    requires |s.head| <= HeadBudget(max)
  {
    var take := Min(HeadBudget(max) - |s.head|, |chunk|);
    && t.head == s.head + chunk[..take]
    && t.tail == Last(s.tail + chunk[take..], TailBudget(max))
    && t.omitted == s.omitted + |s.tail| + |chunk[take..]| - |t.tail|
  }

  lemma ShortSummary(max: nat, stream: seq<byte>)
    requires |stream| <= HeadBudget(max)
    ensures SummaryOf(max, stream) == Summary(stream, [], 0)
  {
    assert stream[..|stream|] == stream && stream[|stream|..] == [];
  }

  lemma SummaryAt(max: nat, stream: seq<byte>, front: seq<byte>, rest: seq<byte>)
    requires stream == front + rest && |front| == Min(|stream|, HeadBudget(max))
    ensures SummaryOf(max, stream) == Summary(front, Last(rest, TailBudget(max)), |rest| - |Last(rest, TailBudget(max))|)
  {
    assert stream[..|front|] == front && stream[|front|..] == rest;
  }

  lemma LongerSummary(max: nat, stream: seq<byte>, chunk: seq<byte>, take: nat)
    requires |stream| <= HeadBudget(max) && take == Min(HeadBudget(max) - |stream|, |chunk|)
    ensures var tail := Last(chunk[take..], TailBudget(max));
            SummaryOf(max, stream + chunk) == Summary(stream + chunk[..take], tail, |chunk| - take - |tail|)
  {
    assert chunk == chunk[..take] + chunk[take..];
    assert stream + chunk == (stream + chunk[..take]) + chunk[take..];
    SummaryAt(max, stream + chunk, stream + chunk[..take], chunk[take..]);
  }

  lemma ChunkFillsHead(max: nat, stream: seq<byte>, chunk: seq<byte>)
    requires |stream| <= HeadBudget(max)
    ensures Appends(max, SummaryOf(max, stream), chunk, SummaryOf(max, stream + chunk))
  {
    var take := Min(HeadBudget(max) - |stream|, |chunk|);
    ShortSummary(max, stream);
    LongerSummary(max, stream, chunk, take);
    HeadFills(max, stream, chunk, SummaryOf(max, stream), SummaryOf(max, stream + chunk));
  }

  lemma HeadFills(max: nat, stream: seq<byte>, chunk: seq<byte>, s: Summary, t: Summary)
    requires |stream| <= HeadBudget(max) && s == Summary(stream, [], 0)
    requires var take := Min(HeadBudget(max) - |stream|, |chunk|);
             var tail := Last(chunk[take..], TailBudget(max));
             t == Summary(stream + chunk[..take], tail, |chunk| - take - |tail|)
    ensures Appends(max, s, chunk, t)
  {
    var take := Min(HeadBudget(max) - |stream|, |chunk|);
    assert [] + chunk[take..] == chunk[take..];
  }

  lemma ChunkGoesToTail(max: nat, stream: seq<byte>, chunk: seq<byte>)
    requires |stream| > HeadBudget(max)
    ensures Appends(max, SummaryOf(max, stream), chunk, SummaryOf(max, stream + chunk))
  {
    var both, h := stream + chunk, HeadBudget(max);
    assert both[..h] == stream[..h] && both[h..] == stream[h..] + chunk;
    assert chunk[0..] == chunk && stream[..h] + chunk[..0] == stream[..h];
    LastOfSum(stream[h..], chunk, TailBudget(max));
  }

  /** Appending a chunk, seen from the summary. */
  lemma SummaryOfChunk(max: nat, stream: seq<byte>, chunk: seq<byte>)
    ensures Appends(max, SummaryOf(max, stream), chunk, SummaryOf(max, stream + chunk))
  {
    if |stream| <= HeadBudget(max) { ChunkFillsHead(max, stream, chunk); } else { ChunkGoesToTail(max, stream, chunk); }
  }

  function JoinedTail(max: nat, earlier: seq<byte>, later: seq<byte>): seq<byte> {
    if |later| == TailBudget(max) then later
    else Last(Last(earlier, TailBudget(max)) + later, TailBudget(max))
  }

  lemma RestDecidesTail(max: nat, earlier: seq<byte>, rest: seq<byte>)
    ensures JoinedTail(max, earlier, Last(rest, TailBudget(max))) == Last(Last(earlier, TailBudget(max)) + rest, TailBudget(max))
  {
    LastOfSum(Last(earlier, TailBudget(max)), rest, TailBudget(max));
    if |rest| < TailBudget(max) { assert Last(rest, TailBudget(max)) == rest; }
  }

  /** Once the head is full, or nothing is left, the rest goes to the tail. */
  lemma AppendRest(max: nat, stream: seq<byte>, rest: seq<byte>)
    requires |stream| >= HeadBudget(max) || rest == []
    ensures var s, u := SummaryOf(max, stream), SummaryOf(max, stream + rest);
            && u.head == s.head && u.tail == Last(s.tail + rest, TailBudget(max))
            && u.omitted == s.omitted + |s.tail| + |rest| - |u.tail|
  {
    SummaryOfChunk(max, stream, rest);
    var s := SummaryOf(max, stream);
    var take := Min(HeadBudget(max) - |s.head|, |rest|);
    assert take == 0;
    assert rest[take..] == rest && s.head + rest[..take] == s.head;
  }

  predicate Merged(max: nat, s: Summary, t: Summary, u: Summary)
    requires |s.head| <= HeadBudget(max)
  {
    var take := Min(HeadBudget(max) - |s.head|, |t.head|);
    && u.head == s.head + t.head[..take]
    && u.tail == JoinedTail(max, s.tail + t.head[take..], t.tail)
    && u.omitted == s.omitted + t.omitted + |s.tail| + |t.head[take..]| + |t.tail| - |u.tail|
  }

  /** What two summaries say about the summary of the two streams together: nothing else about the streams is
      needed, for every budget. */
  lemma MergeIsSummary(max: nat, a: seq<byte>, b: seq<byte>)
    ensures Merged(max, SummaryOf(max, a), SummaryOf(max, b), SummaryOf(max, a + b))
  {
    var t := SummaryOf(max, b);
    var rest := b[|t.head|..];
    assert b == t.head + rest;
    assert a + b == (a + t.head) + rest;
    ChunkThenRest(max, a, t.head, rest);
  }

  lemma ChunkThenRest(max: nat, a: seq<byte>, c: seq<byte>, rest: seq<byte>)
    requires |c| >= HeadBudget(max) || rest == []
    ensures var s, u, tail := SummaryOf(max, a), SummaryOf(max, (a + c) + rest), Last(rest, TailBudget(max));
            var take := Min(HeadBudget(max) - |s.head|, |c|);
            && u.head == s.head + c[..take]
            && u.tail == JoinedTail(max, s.tail + c[take..], tail)
            && u.omitted == s.omitted + |s.tail| + |c[take..]| + |rest| - |u.tail|
  {
    var s := SummaryOf(max, a);
    var take := Min(HeadBudget(max) - |s.head|, |c|);
    SummaryOfChunk(max, a, c);
    AppendRest(max, a + c, rest);
    RestDecidesTail(max, s.tail + c[take..], rest);
  }

  // ---- The buffer ----

  class Buffer {
    const max: nat
    var head: seq<byte>
    var tail: seq<byte>
    var omitted: nat
    /** Everything pushed so far. */
    ghost var stream: seq<byte>

    function Contents(): Summary
      reads this
    {
      Summary(head, tail, omitted)
    }

    ghost predicate Valid()
      reads this
    {
      Contents() == SummaryOf(max, stream)
    }

    constructor (max: nat)
      ensures this.max == max && Valid() && stream == []
    {
      this.max := max;
      head, tail, omitted, stream := [], [], 0, [];
    }

    /** Takes what the head still has room for and returns the rest. */
    method FillHead(data: seq<byte>) returns (rest: seq<byte>)
      requires |head| <= HeadBudget(max)
      modifies this`head
      ensures var take := Min(HeadBudget(max) - |old(head)|, |data|); head == old(head) + data[..take] && rest == data[take..]
    {
      var remaining := HeadBudget(max) - |head|;
      var take := if remaining < |data| then remaining else |data|;
      head := head + data[..take];
      rest := data[take..];
    }

    /** Appends to the tail, dropping its oldest bytes. */
    method PushTail(data: seq<byte>)
      requires |tail| <= TailBudget(max)
      modifies this`tail, this`omitted
      ensures tail == Last(old(tail) + data, TailBudget(max))
      ensures omitted == old(omitted) + |old(tail)| + |data| - |tail|
    {
      if data == [] {
        assert tail + data == tail;
        return;
      }
      var remaining := TailBudget(max) - |tail|;
      var excess := if |data| > remaining then |data| - remaining else 0;
      omitted := omitted + excess;
      if excess <= |tail| {
        tail := tail[excess..] + data;
      } else {
        tail := data[excess - |tail|..];
      }
    }

    method PushChunk(chunk: seq<byte>)
      requires Valid()
      modifies this
      ensures Valid() && stream == old(stream) + chunk
    {
      SummaryOfChunk(max, stream, chunk);
      SummaryIsExact(max, stream);
      var data := FillHead(chunk);
      PushTail(data);
      stream := stream + chunk;
    }

    /** The head of an append: an empty head takes over the later one whole. */
    method JoinHeads(later: seq<byte>) returns (overflow: seq<byte>)
      requires |head| <= HeadBudget(max) && |later| <= HeadBudget(max)
      modifies this`head
      ensures var take := Min(HeadBudget(max) - |old(head)|, |later|);
              head == old(head) + later[..take] && overflow == later[take..]
    {
      if head == [] {
        head := later;
        overflow := [];
      } else {
        overflow := FillHead(later);
      }
    }

    /** The tail of an append: a full later tail replaces everything before it. */
    method JoinTails(overflow: seq<byte>, later: seq<byte>)
      requires |tail| <= TailBudget(max) && |later| <= TailBudget(max)
      modifies this`tail, this`omitted
      ensures tail == JoinedTail(max, old(tail) + overflow, later)
      ensures omitted == old(omitted) + |old(tail)| + |overflow| + |later| - |tail|
    {
      if |later| == TailBudget(max) {
        omitted := omitted + |tail| + |overflow|;
        tail := later;
      } else {
        PushTail(overflow);
        if tail == [] {
          tail := later;
        } else {
          PushTail(later);
        }
      }
    }

    /** Appends a later summary, possibly this buffer itself: the result is the summary of both streams. */
    method PushBuffer(other: Buffer) returns (ok: bool)
      requires Valid() && other.Valid()
      modifies this
      ensures ok == (max == other.max) && Valid()
      ensures stream == if ok then old(stream) + old(other.stream) else old(stream)
      ensures !ok ==> Contents() == old(Contents())
    {
      if max != other.max { return false; }
      ghost var a, b := stream, other.stream;
      Merge(other);
      MergeIsSummary(max, a, b);
      stream := a + b;
      return true;
    }

    /** The fields after an append, from the fields before it alone. */
    method Merge(other: Buffer)
      requires max == other.max && Fits() && other.Fits()
      modifies this`head, this`tail, this`omitted
      ensures Merged(max, old(Contents()), old(other.Contents()), Contents())
    {
      omitted := omitted + other.omitted;
      var sourceHead, sourceTail := other.head, other.tail;
      var overflow := JoinHeads(sourceHead);
      JoinTails(overflow, sourceTail);
    }

    predicate Fits()
      reads this
    {
      |head| <= HeadBudget(max) && |tail| <= TailBudget(max)
    }

    method ToBytes() returns (r: seq<byte>)
      requires Valid()
      ensures r == head + tail && |r| == Min(|stream|, max)
      ensures r == stream <==> |stream| <= max
    {
      SummaryIsExact(max, stream);
      r := head + tail;
    }
  }
}
