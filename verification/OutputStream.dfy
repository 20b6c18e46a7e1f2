/** Framing of process output: frames of bounded size, a bounded queue, a bounded number of frames, and an exact
    account of what was left out. */
module OutputStream {
  import opened Prelude
  import opened Utf8

  const DEFAULT_PENDING_BYTES: nat := 524288
  const DEFAULT_MAX_FRAMES: nat := 10000

  function Concat(parts: seq<seq<byte>>): seq<byte> {
    if parts == [] then [] else Concat(parts[..|parts| - 1]) + parts[|parts| - 1]
  }

  lemma {:induction false} ConcatSum(a: seq<seq<byte>>, b: seq<seq<byte>>)
    ensures Concat(a + b) == Concat(a) + Concat(b)
    decreases |b|
  {
    if b == [] {
      assert a + b == a;
    } else {
      var front := b[..|b| - 1];
      assert (a + b)[..|a + b| - 1] == a + front;
      ConcatSum(a, front);
    }
  }

  /** `part` arises from `whole` by leaving bytes out. */
  predicate LeftFrom(part: seq<byte>, whole: seq<byte>)
    decreases |whole|
  {
    if part == [] then true
    else if whole == [] then false
    else
      var p, w := |part| - 1, |whole| - 1;
      (part[p] == whole[w] && LeftFrom(part[..p], whole[..w])) || LeftFrom(part, whole[..w])
  }

  lemma {:induction false} LeftFromItself(s: seq<byte>)
    ensures LeftFrom(s, s)
    decreases |s|
  {
    if s != [] { LeftFromItself(s[..|s| - 1]); }
  }

  lemma {:induction false} LeftFromSum(part: seq<byte>, whole: seq<byte>, k: nat, more: seq<byte>)
    requires LeftFrom(part, whole) && k <= |more|
    ensures LeftFrom(part + more[..k], whole + more)
    decreases |more|
  {
    if more == [] {
      assert part + more[..k] == part && whole + more == whole;
    } else {
      var n := |more| - 1;
      var w := whole + more;
      assert w[..|w| - 1] == whole + more[..n];
      if k <= n {
        LeftFromSum(part, whole, k, more[..n]);
        assert more[..n][..k] == more[..k];
      } else {
        LeftFromSum(part, whole, n, more[..n]);
        var p := part + more[..k];
        assert p[..|p| - 1] == part + more[..n][..n];
      }
    }
  }

  lemma {:induction false} LeftFromPrefix(part: seq<byte>, whole: seq<byte>, k: nat)
    requires LeftFrom(part, whole) && k <= |part|
    ensures LeftFrom(part[..k], whole)
    decreases |whole|
  {
    if k == |part| {
      assert part[..k] == part;
    } else if k > 0 {
      var p, w := |part| - 1, |whole| - 1;
      if part[p] == whole[w] && LeftFrom(part[..p], whole[..w]) {
        LeftFromPrefix(part[..p], whole[..w], k);
        assert part[..p][..k] == part[..k];
      } else {
        LeftFromPrefix(part, whole[..w], k);
      }
    }
  }

  lemma {:induction false} NothingLeftOut(part: seq<byte>, whole: seq<byte>)
    requires LeftFrom(part, whole)
    ensures |part| <= |whole| && (|part| == |whole| ==> part == whole)
    decreases |whole|
  {
    if part != [] {
      var p, w := |part| - 1, |whole| - 1;
      if part[p] == whole[w] && LeftFrom(part[..p], whole[..w]) {
        NothingLeftOut(part[..p], whole[..w]);
        assert part == part[..p] + [part[p]] && whole == whole[..w] + [whole[w]];
      } else {
        NothingLeftOut(part, whole[..w]);
      }
    }
  }

  // ---- Beginnings of well-formed streams ----

  ghost predicate Beginning(s: seq<byte>) {
    exists more :: WellFormed(s + more)
  }

  lemma BeginningIsCut(s: seq<byte>)
    requires Beginning(s)
    ensures CutAt(s, Boundary(s))
  {
    var more :| WellFormed(s + more);
    var w := PrefixHasCut(s + more, |s|);
    assert (s + more)[..|s|] == s;
    BoundaryIsExact(s, w);
  }

  lemma EarlierBeginning(s: seq<byte>, more: seq<byte>)
    requires Beginning(s + more)
    ensures Beginning(s)
  {
    var rest :| WellFormed((s + more) + rest);
    assert (s + more) + rest == s + (more + rest);
  }

  lemma RestOfBeginning(a: seq<byte>, b: seq<byte>)
    requires WellFormed(a) && Beginning(a + b)
    ensures Beginning(b)
  {
    var more :| WellFormed((a + b) + more);
    assert (a + b) + more == a + (b + more);
    WellFormedRest(a, b + more);
  }

  predicate AllWellFormed(frames: seq<seq<byte>>) {
    forall i | 0 <= i < |frames| :: WellFormed(frames[i])
  }

  predicate Framed(frames: seq<seq<byte>>, max: nat) {
    forall i | 0 <= i < |frames| :: 0 < |frames[i]| <= max
  }

  lemma WholeBoundary(s: seq<byte>)
    requires WellFormed(s)
    ensures Boundary(s) == |s|
  {
    assert s[..|s|] == s;
    BoundaryIsExact(s, |s|);
  }

  lemma FrontBoundary(s: seq<byte>, n: nat)
    requires WellFormed(s) && n <= |s|
    ensures var w := Boundary(s[..n]); n <= w + 3 && w <= n && WellFormed(s[..w]) && WellFormed(s[w..])
  {
    var w := PrefixHasCut(s, n);
    BoundaryIsExact(s[..n], w);
    assert s[..n][..w] == s[..w];
    RestIsText(s, w);
  }

  lemma RestIsText(s: seq<byte>, w: nat)
    requires WellFormed(s) && w <= |s| && WellFormed(s[..w])
    ensures WellFormed(s[w..])
  {
    assert s == s[..w] + s[w..];
    WellFormedRest(s[..w], s[w..]);
  }

  /** One frame taken off well-formed bytes leaves well-formed bytes. */
  lemma FrameCut(rest: seq<byte>, max: nat)
    requires WellFormed(rest) && rest != [] && max >= 4
    ensures var cut := Boundary(rest[..if |rest| < max then |rest| else max]);
            0 < cut <= |rest| && WellFormed(rest[..cut]) && WellFormed(rest[cut..])
  {
    if |rest| < max {
      assert rest[..|rest|] == rest;
      WholeBoundary(rest);
      assert rest[|rest|..] == [];
    } else {
      FrontBoundary(rest, max);
    }
  }

  /** A cut makes progress at the end of the stream and on text, and on text it takes whole characters. */
  lemma CutOfRest(rest: seq<byte>, max: nat, cut: nat, final: bool)
    requires rest != [] && max >= 4
    requires cut == if final && |rest| <= max then |rest| else Boundary(rest[..if |rest| < max then |rest| else max])
    ensures cut <= max && cut <= |rest|
    ensures final || WellFormed(rest) ==> cut > 0
    ensures WellFormed(rest) ==> WellFormed(rest[..cut]) && WellFormed(rest[cut..])
  {
    if WellFormed(rest) {
      FrameCut(rest, max);
      if cut == |rest| { assert rest[..cut] == rest && rest[cut..] == []; }
    }
  }

  lemma TakeFrame(frames: seq<seq<byte>>, ready: seq<byte>, cursor: nat, cut: nat)
    requires cursor + cut <= |ready| && Concat(frames) == ready[..cursor]
    ensures var frame := ready[cursor..][..cut];
            && Concat(frames + [frame]) == ready[..cursor + cut] && ready[cursor..][cut..] == ready[cursor + cut..]
            && (WellFormed(ready[..cursor]) && WellFormed(frame) ==> WellFormed(ready[..cursor + cut]))
  {
    var frame := ready[cursor..][..cut];
    var all := frames + [frame];
    assert all[..|all| - 1] == frames;
    assert ready[..cursor + cut] == ready[..cursor] + frame;
    if WellFormed(ready[..cursor]) && WellFormed(frame) { WellFormedSum(ready[..cursor], frame); }
  }

  /** The frames are the front of the ready bytes, cut into pieces of legal size; of text, into text. */
  predicate CutSoFar(ready: seq<byte>, frames: seq<seq<byte>>, cursor: nat, max: nat) {
    && cursor <= |ready| && Concat(frames) == ready[..cursor] && Framed(frames, max)
    && (WellFormed(ready) ==> AllWellFormed(frames) && WellFormed(ready[..cursor]) && WellFormed(ready[cursor..]))
  }

  lemma NothingCut(ready: seq<byte>, max: nat)
    ensures CutSoFar(ready, [], 0, max)
  {
    assert ready[0..] == ready;
  }

  lemma NextFrame(ready: seq<byte>, frames: seq<seq<byte>>, cursor: nat, max: nat, cut: nat, final: bool)
    requires CutSoFar(ready, frames, cursor, max) && cursor < |ready| && max >= 4
    requires var rest := ready[cursor..];
             cut == if final && |rest| <= max then |rest| else Boundary(rest[..if |rest| < max then |rest| else max])
    ensures cursor + cut <= |ready| && (final || WellFormed(ready) ==> cut > 0)
    ensures cut > 0 ==> CutSoFar(ready, frames + [ready[cursor..][..cut]], cursor + cut, max)
  {
    CutOfRest(ready[cursor..], max, cut, final);
    TakeFrame(frames, ready, cursor, cut);
  }

  /** Sent and queued bytes are the stream with exactly `missing` bytes left out. */
  predicate Accounted(sent: seq<seq<byte>>, queued: seq<byte>, stream: seq<byte>, missing: nat) {
    LeftFrom(Concat(sent) + queued, stream) && |stream| == |Concat(sent)| + |queued| + missing
  }

  predicate SentText(sent: seq<seq<byte>>) {
    WellFormed(Concat(sent)) && AllWellFormed(sent)
  }

  // ---- The framer ----

  class Framer {
    const maxFrame: nat
    const maxPending: nat
    const quota: nat
    var pending: seq<byte>
    var omitted: nat
    var remaining: nat
    /** Everything pushed, every frame sent, every omission reported, and whether the stream was declared over. */
    ghost var stream: seq<byte>
    ghost var sent: seq<seq<byte>>
    ghost var reported: nat
    ghost var finished: bool

    ghost predicate Lossless()
      reads this
    {
      omitted == 0 && reported == 0
    }

    ghost predicate Counted()
      reads this
    {
      && 4 <= maxFrame <= maxPending && |pending| <= maxPending
      && |sent| + remaining == quota && Framed(sent, maxFrame)
      && Accounted(sent, pending, stream, omitted + reported)
    }

    /** Sent and queued bytes are the stream with exactly the counted bytes left out; while nothing is left out of
        the beginning of a well-formed stream, every frame is well-formed. */
    ghost predicate Valid()
      reads this
    {
      && Counted()
      && (!finished && Lossless() && Beginning(stream) ==> SentText(sent))
    }

    constructor (maxFrame: nat, maxPending: nat, quota: nat)
      requires 4 <= maxFrame <= maxPending && quota > 0
      ensures Valid() && stream == [] && sent == [] && reported == 0 && !finished
      ensures this.maxFrame == maxFrame && this.maxPending == maxPending && this.quota == quota
      ensures pending == [] && omitted == 0
    {
      this.maxFrame, this.maxPending, this.quota := maxFrame, maxPending, quota;
      pending, omitted, remaining := [], 0, quota;
      stream, sent, reported, finished := [], [], 0, false;
    }

    /** While nothing is left out, the frames and the queue are the stream itself. */
    lemma LosslessIsExact()
      requires Valid() && Lossless()
      ensures Concat(sent) + pending == stream
    {
      NothingLeftOut(Concat(sent) + pending, stream);
    }

    method Push(data: seq<byte>)
      requires Valid()
      modifies this`pending, this`omitted, this`stream
      ensures Valid() && stream == old(stream) + data
      ensures var all := old(pending) + data;
              && (|all| <= maxPending ==> pending == all && omitted == old(omitted))
              && (|all| > maxPending > |old(pending)| ==> pending == all[..Boundary(all[..maxPending])])
              && (|all| > maxPending == |old(pending)| ==> pending == old(pending))
    {
      ghost var all := pending + data;
      AccountOfPush(data);
      stream := stream + data;
      Enqueue(data);
      assert pending == all[..|pending|];
    }

    /** Keeps the earliest bytes up to the cap, cut at a character boundary, and counts the rest. */
    method Enqueue(data: seq<byte>)
      requires |pending| <= maxPending
      modifies this`pending, this`omitted
      ensures var all := old(pending) + data;
              && pending <= all && |pending| <= maxPending && |pending| + omitted == |all| + old(omitted)
              && (|all| <= maxPending ==> pending == all)
              && (|all| > maxPending > |old(pending)| ==> pending == all[..Boundary(all[..maxPending])])
              && (|all| > maxPending == |old(pending)| ==> pending == old(pending))
    {
      ghost var all := pending + data;
      if data == [] {
        assert all == pending;
        return;
      }
      var available := maxPending - |pending|;
      if available <= 0 {
        omitted := omitted + |data|;
        return;
      }
      if |data| <= available {
        pending := pending + data;
        return;
      }
      pending := pending + data[..available];
      assert pending == all[..maxPending];
      var cutOff := CutPending();
      omitted := omitted + |data| - available + cutOff;
    }

    /** Takes an unfinished last character off the full queue. */
    method CutPending() returns (cutOff: nat)
      modifies this`pending
      ensures pending == old(pending)[..Boundary(old(pending))] && |pending| + cutOff == |old(pending)|
    {
      var complete := Utf8Boundary(pending);
      cutOff := 0;
      if complete < |pending| {
        cutOff := |pending| - complete;
        pending := pending[..complete];
      }
    }

    /** Any beginning of the queue with the new data appended is an honest account of the longer stream. */
    lemma AccountOfPush(data: seq<byte>)
      requires Valid()
      ensures forall k: nat | k <= |pending + data| :: LeftFrom(Concat(sent) + (pending + data)[..k], stream + data)
      ensures Beginning(stream + data) ==> Beginning(stream)
      ensures LeftFrom(Concat(sent) + pending, stream + data)
    {
      var whole := Concat(sent) + pending;
      LeftFromSum(whole, stream, |data|, data);
      assert data[..|data|] == data;
      forall k: nat | k <= |pending + data|
        ensures LeftFrom(Concat(sent) + (pending + data)[..k], stream + data)
      {
        LeftFromPrefix(whole + data, stream + data, |Concat(sent)| + k);
        assert (whole + data)[..|Concat(sent)| + k] == Concat(sent) + (pending + data)[..k];
      }
      assert (pending + data)[..|pending|] == pending;
      if Beginning(stream + data) { EarlierBeginning(stream, data); }
    }

    /** Cuts the ready bytes into frames; the cursor stops short when the frames run out, or at bytes that are not
        text. */
    method Cut(ready: seq<byte>, final: bool) returns (frames: seq<seq<byte>>, cursor: nat)
      requires 4 <= maxFrame
      modifies this`remaining
      ensures CutSoFar(ready, frames, cursor, maxFrame) && |frames| + remaining == old(remaining)
      ensures remaining > 0 && (final || WellFormed(ready)) ==> cursor == |ready|
    {
      frames, cursor := [], 0;
      NothingCut(ready, maxFrame);
      while cursor < |ready| && remaining > 0
        invariant CutSoFar(ready, frames, cursor, maxFrame) && |frames| + remaining == old(remaining)
        decreases |ready| - cursor
      {
        var rest := ready[cursor..];
        var cut: nat;
        if final && |rest| <= maxFrame {
          cut := |rest|;
        } else {
          cut := Utf8Boundary(rest[..if |rest| < maxFrame then |rest| else maxFrame]);
        }
        NextFrame(ready, frames, cursor, maxFrame, cut, final);
        if cut == 0 { break; }
        frames := frames + [rest[..cut]];
        cursor := cursor + cut;
        remaining := remaining - 1;
      }
    }

    method Drain(final: bool) returns (frames: seq<seq<byte>>, left: nat)
      requires Valid()
      modifies this`pending, this`omitted, this`remaining, this`sent, this`reported, this`finished
      ensures Valid() && finished == (old(finished) || final)
      ensures sent == old(sent) + frames && reported == old(reported) + left && omitted == 0
      ensures final ==> pending == []
      ensures remaining > 0 ==> left == old(omitted) && Concat(frames) + pending == old(pending)
      ensures remaining > 0 && !final && Beginning(old(pending)) ==> pending == old(pending)[Boundary(old(pending))..]
      ensures WellFormed(old(pending)) || (!final && Beginning(old(pending))) ==> AllWellFormed(frames)
      ensures final && !old(finished) && Lossless() && WellFormed(stream) ==> Concat(sent) == stream && AllWellFormed(sent)
    {
      var complete := |pending|;
      if !final { complete := Utf8Boundary(pending); }
      AccountOfDrain(complete, final);
      ghost var text := !final && !finished && Lossless() && Beginning(stream);
      assert text ==> WellFormed(pending[..complete]) && SentText(sent);
      ghost var whole := final && !finished && Lossless() && WellFormed(stream);
      if whole { AccountOfEnd(); }
      frames, left := Send(pending[..complete], final);
      assert text ==> SentText(sent);
      if whole && Lossless() { NothingLeftOut(Concat(sent) + pending, stream); }
    }

    /** Sends the ready bytes as far as frames remain. */
    method Send(ready: seq<byte>, final: bool) returns (frames: seq<seq<byte>>, left: nat)
      requires Counted() && ready <= pending
      modifies this`pending, this`omitted, this`remaining, this`sent, this`reported, this`finished
      ensures Counted() && finished == (old(finished) || final)
      ensures sent == old(sent) + frames && reported == old(reported) + left && omitted == 0
      ensures remaining > 0 ==> left == old(omitted) && Concat(frames) + pending == old(pending)
      ensures remaining > 0 && (final || WellFormed(ready)) ==> pending == old(pending)[|ready|..]
      ensures remaining == 0 ==> pending == []
      ensures left >= old(omitted)
      ensures WellFormed(ready) ==> AllWellFormed(frames)
      ensures WellFormed(ready) && old(SentText(sent)) ==> SentText(sent)
    {
      var cursor;
      frames, cursor := Cut(ready, final);
      AccountOfFrames(ready, frames, cursor);
      assert WellFormed(ready) && SentText(sent) ==> SentText(sent + frames);
      left := Settle(cursor);
      sent := sent + frames;
      reported := reported + left;
      finished := finished || final;
    }

    /** Drops the sent bytes, and the rest once no frame is left; reports and forgets the omissions. */
    method Settle(cursor: nat) returns (left: nat)
      requires cursor <= |pending|
      modifies this`pending, this`omitted
      ensures omitted == 0 && pending == if remaining == 0 then [] else old(pending)[cursor..]
      ensures left == old(omitted) + if remaining == 0 then |old(pending)[cursor..]| else 0
    {
      if cursor > 0 { pending := pending[cursor..]; }
      if remaining == 0 && pending != [] {
        omitted := omitted + |pending|;
        pending := [];
      }
      left := omitted;
      omitted := 0;
    }

    /** Frames cut off the front of the queue are accounted for, whether the rest is kept or dropped. */
    lemma AccountOfFrames(ready: seq<byte>, frames: seq<seq<byte>>, cursor: nat)
      requires Accounted(sent, pending, stream, omitted + reported)
      requires ready <= pending && cursor <= |ready| && Concat(frames) == ready[..cursor]
      ensures Concat(frames) + pending[cursor..] == pending
      ensures Accounted(sent + frames, pending[cursor..], stream, omitted + reported)
      ensures Accounted(sent + frames, [], stream, omitted + reported + |pending[cursor..]|)
      ensures SentText(sent) && AllWellFormed(frames) && WellFormed(ready[..cursor]) ==> SentText(sent + frames)
    {
      ConcatSum(sent, frames);
      var before, all := Concat(sent) + pending, Concat(sent + frames);
      assert ready[..cursor] == pending[..cursor];
      assert all + pending[cursor..] == before;
      assert all + [] == before[..|all|];
      LeftFromPrefix(before, stream, |all|);
      if WellFormed(Concat(sent)) && WellFormed(ready[..cursor]) { WellFormedSum(Concat(sent), ready[..cursor]); }
    }

    /** At the end of a well-formed stream what is still queued is well-formed. */
    lemma AccountOfEnd()
      requires Valid() && !finished && Lossless() && WellFormed(stream)
      ensures SentText(sent) && WellFormed(pending) && pending[..|pending|] == pending
    {
      assert stream + [] == stream;
      LosslessIsExact();
      WellFormedRest(Concat(sent), pending);
    }

    lemma AccountOfDrain(complete: nat, final: bool)
      requires Valid() && complete == if final then |pending| else Boundary(pending)
      ensures !finished && Lossless() && Beginning(stream) ==> Beginning(pending)
      ensures Beginning(pending) && !final ==> WellFormed(pending[..complete])
      ensures WellFormed(pending) ==> WellFormed(pending[..complete])
    {
      if !finished && Lossless() && Beginning(stream) {
        LosslessIsExact();
        RestOfBeginning(Concat(sent), pending);
      }
      if Beginning(pending) { BeginningIsCut(pending); }
      if WellFormed(pending) {
        WholeBoundary(pending);
        assert pending[..|pending|] == pending;
      }
    }
  }

  // ---- A whole stream ----

  /** The bytes of an unfinished character at the end. */
  function Kept(s: seq<byte>): (r: nat)
    ensures r <= 3
  {
    |s| - Boundary(s)
  }

  /** Every chunk fits into the queue beside the bytes kept back from the ones before. */
  predicate Fit(chunks: seq<seq<byte>>) {
    forall i | 0 <= i < |chunks| :: |chunks[i]| + Kept(Concat(chunks[..i])) <= DEFAULT_PENDING_BYTES
  }

  lemma FitOneMore(seen: seq<seq<byte>>, chunk: seq<byte>)
    ensures Concat(seen + [chunk]) == Concat(seen) + chunk
    ensures Fit(seen + [chunk]) <==> Fit(seen) && |chunk| + Kept(Concat(seen)) <= DEFAULT_PENDING_BYTES
  {
    var n, more := |seen|, seen + [chunk];
    assert more[..n] == seen && more[n] == chunk;
    forall i | 0 <= i < n ensures more[..i] == seen[..i] && more[i] == seen[i] {}
    if Fit(more) {
      forall i | 0 <= i < n ensures |seen[i]| + Kept(Concat(seen[..i])) <= DEFAULT_PENDING_BYTES {
        assert |more[i]| + Kept(Concat(more[..i])) <= DEFAULT_PENDING_BYTES;
      }
    }
  }

  lemma {:induction false} TextOfFrames(frames: seq<seq<byte>>)
    requires AllWellFormed(frames)
    ensures WellFormed(Concat(frames))
    decreases |frames|
  {
    if frames != [] {
      var front := frames[..|frames| - 1];
      TextOfFrames(front);
      WellFormedSum(Concat(front), frames[|frames| - 1]);
    }
  }

  /** Between drains of a text in which nothing was left out, exactly its unfinished last character is queued. */
  ghost predicate Settled(framer: Framer)
    reads framer
  {
    framer.reported == 0 && framer.remaining > 0 ==> |framer.pending| == Kept(framer.stream)
  }

  /** After a drain of such a text the queue is what the stream keeps back. */
  lemma QueueIsKept(sent: seq<seq<byte>>, queue: seq<byte>, pending: seq<byte>, stream: seq<byte>)
    requires Beginning(queue) && pending == queue[Boundary(queue)..]
    requires WellFormed(Concat(sent)) && Concat(sent) + pending == stream
    ensures |pending| == Kept(stream)
  {
    BeginningIsCut(queue);
    var w := |Concat(sent)|;
    assert stream[..w] == Concat(sent) && stream[w..] == pending;
    BoundaryIsExact(stream, w);
  }

  /** The framer was fed `seen`: while it is a text and frames remain, nothing is left out exactly if all of it fit. */
  ghost predicate Tracks(framer: Framer, seen: seq<seq<byte>>)
    reads framer
  {
    && framer.stream == Concat(seen)
    && (Beginning(framer.stream) && framer.remaining > 0 ==> Settled(framer) && (framer.reported == 0 <==> Fit(seen)))
  }

  /** One chunk pushed and drained. */
  method Feed(framer: Framer, chunk: seq<byte>, ghost seen: seq<seq<byte>>) returns (frames: seq<seq<byte>>)
    requires framer.Valid() && !framer.finished && framer.omitted == 0
    requires framer.maxPending == DEFAULT_PENDING_BYTES && Tracks(framer, seen)
    modifies framer
    ensures framer.Valid() && !framer.finished && framer.omitted == 0 && Tracks(framer, seen + [chunk])
    ensures framer.sent == old(framer.sent) + frames
  {
    FitOneMore(seen, chunk);
    if Beginning(framer.stream + chunk) { EarlierBeginning(framer.stream, chunk); }
    framer.Push(chunk);
    ghost var queue, text := framer.pending, framer.Lossless() && Beginning(framer.stream);
    if text {
      framer.LosslessIsExact();
      RestOfBeginning(Concat(framer.sent), queue);
    }
    var left;
    frames, left := framer.Drain(false);
    if text && framer.remaining > 0 {
      framer.LosslessIsExact();
      QueueIsKept(framer.sent, queue, framer.pending, framer.stream);
    }
  }

  /** Frames a complete stream: bounded frames that leave bytes out only by dropping them.  Of a well-formed stream
      that comes out whole every frame is well-formed, and of no other; and with frames to spare a well-formed stream
      comes out whole exactly when its chunks fit. */
  method FrameOutput(chunks: seq<seq<byte>>, maxFrame: nat) returns (r: Option<seq<seq<byte>>>)
    ensures r.Some? <==> 4 <= maxFrame <= DEFAULT_PENDING_BYTES
    ensures r.Some? ==> Framed(r.value, maxFrame) && |r.value| <= DEFAULT_MAX_FRAMES && LeftFrom(Concat(r.value), Concat(chunks))
    ensures r.Some? && Concat(r.value) == Concat(chunks) ==> (AllWellFormed(r.value) <==> WellFormed(Concat(chunks)))
    ensures r.Some? && WellFormed(Concat(chunks)) && |r.value| < DEFAULT_MAX_FRAMES ==>
              (Concat(r.value) == Concat(chunks) <==> Fit(chunks))
  {
    if !(4 <= maxFrame <= DEFAULT_PENDING_BYTES) { return None; }
    var framer := new Framer(maxFrame, DEFAULT_PENDING_BYTES, DEFAULT_MAX_FRAMES);
    var frames: seq<seq<byte>> := [];
    for n := 0 to |chunks|
      invariant framer.Valid() && !framer.finished && framer.omitted == 0 && fresh(framer)
      invariant framer.sent == frames && Tracks(framer, chunks[..n])
    {
      assert chunks[..n + 1] == chunks[..n] + [chunks[n]];
      var more := Feed(framer, chunks[n], chunks[..n]);
      frames := frames + more;
    }
    assert chunks[..|chunks|] == chunks;
    var more := Finish(framer, chunks);
    return Some(frames + more);
  }

  /** The final drain of a stream that was fed chunk by chunk. */
  method Finish(framer: Framer, ghost seen: seq<seq<byte>>) returns (frames: seq<seq<byte>>)
    requires framer.Valid() && !framer.finished && framer.omitted == 0 && Tracks(framer, seen)
    modifies framer
    ensures framer.Valid() && framer.sent == old(framer.sent) + frames && LeftFrom(Concat(framer.sent), Concat(seen))
    ensures Concat(framer.sent) == Concat(seen) ==> (AllWellFormed(framer.sent) <==> WellFormed(Concat(seen)))
    ensures WellFormed(Concat(seen)) && framer.remaining > 0 ==> (Concat(framer.sent) == Concat(seen) <==> Fit(seen))
  {
    assert Concat(seen) + [] == Concat(seen);
    var left;
    frames, left := framer.Drain(true);
    assert Concat(framer.sent) + [] == Concat(framer.sent);
    WholeExactly(framer);
  }

  /** What was sent of a finished stream is the stream exactly when no byte was reported as left out. */
  lemma WholeExactly(framer: Framer)
    requires framer.Valid() && framer.pending == [] && framer.omitted == 0
    requires framer.Lossless() && WellFormed(framer.stream) ==> AllWellFormed(framer.sent)
    ensures Concat(framer.sent) == framer.stream <==> framer.reported == 0
    ensures Concat(framer.sent) == framer.stream ==> (AllWellFormed(framer.sent) <==> WellFormed(framer.stream))
  {
    assert Concat(framer.sent) + [] == Concat(framer.sent);
    if framer.reported == 0 { framer.LosslessIsExact(); }
    if AllWellFormed(framer.sent) { TextOfFrames(framer.sent); }
  }
}
