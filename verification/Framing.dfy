/**
  Newline framing when every read call builds its own buffered reader, as ReadBytesWithContext does:
  the bytes that reader took past the delimiter die with it. The chunks are what successive reads of
  the connection deliver; nothing is assumed about where the chunk boundaries fall.
 */
module Framing {
  import opened Streams

  /** The state of the reading side once it has been handed all the chunks. */
  function FeedAll(r: Reader, chunks: seq<seq<byte>>): (out: Reader)
    requires r.Valid()
    ensures out.Valid()
    decreases chunks
  {
    if chunks == [] then r else FeedAll(r.Feed(chunks[0]), chunks[1..])
  }

  // ------------------------------------------------------------------------------------------
  // One call, as the loop the source runs
  // ------------------------------------------------------------------------------------------

  /** How one call ends: with a frame, or, at the end of the stream, with an error and what there was. */
  datatype Call =
    | Frame(data: seq<byte>, spill: seq<byte>, rest: seq<seq<byte>>)
    | Short(data: seq<byte>)

  function NextCall(buf: seq<byte>, chunks: seq<seq<byte>>): (r: Call)
    requires Plain(buf)
    ensures r.Frame? ==> IsFrame(r.data) && |r.rest| < |chunks|
    ensures r.Short? ==> Plain(r.data)
    decreases chunks
  {
    if chunks == [] then Short(buf)
    else if Plain(chunks[0]) then NextCall(buf + chunks[0], chunks[1..])
    else Frame(buf + Cut(chunks[0]), Spill(chunks[0]), chunks[1..])
  }

  /** The receiving end of a connection: the chunks its next reads will deliver, and then end of stream. */
  class Inbound {
    var chunks: seq<seq<byte>>

    constructor (chunks: seq<seq<byte>>)
      ensures this.chunks == chunks
    {
      this.chunks := chunks;
    }

    method Read() returns (chunk: seq<byte>, eof: bool)
      modifies this
      ensures eof <==> old(chunks) == []
      ensures !eof ==> [chunk] + chunks == old(chunks)
      ensures eof ==> chunks == []
    {
      if chunks == [] {
        chunk, eof := [], true;
      } else {
        chunk, eof, chunks := chunks[0], false, chunks[1..];
      }
    }
  }

  /** One call of ReadBytesWithContext that is not cancelled; `err` is its error result. */
  method ReadBytes(conn: Inbound) returns (data: seq<byte>, err: bool)
    modifies conn
    ensures err <==> NextCall([], old(conn.chunks)).Short?
    ensures data == NextCall([], old(conn.chunks)).data
    ensures !err ==> conn.chunks == NextCall([], old(conn.chunks)).rest
    ensures err ==> conn.chunks == []
    ensures err <==> !IsFrame(data)
  {
    data := [];
    while true
      invariant Plain(data)
      invariant NextCall(data, conn.chunks) == NextCall([], old(conn.chunks))
      decreases |conn.chunks|
    {
      var chunk, eof := conn.Read();
      if eof {
        return data, true;
      }
      if !Plain(chunk) {
        return data + Cut(chunk), false;
      }
      data := data + chunk;
    }
  }

  /** Successive calls are the reader fold: each takes the next frame of it and drops the next spill. */
  lemma {:induction false} CallsAreTheFold(r: Reader, chunks: seq<seq<byte>>)
    requires r.Valid()
    ensures match NextCall(r.buf, chunks)
            case Frame(data, spill, rest) =>
              var next := Reader([], r.frames + [data], r.spills + [spill]);
              next.Valid() && FeedAll(r, chunks) == FeedAll(next, rest)
            case Short(data) => FeedAll(r, chunks) == Reader(data, r.frames, r.spills)
    decreases chunks
  {
    if chunks != [] && Plain(chunks[0]) {
      CallsAreTheFold(r.Feed(chunks[0]), chunks[1..]);
    }
  }

  // ------------------------------------------------------------------------------------------
  // What the calls return, for every chunking
  // ------------------------------------------------------------------------------------------

  /** The frames of a stream read by one reader that keeps what it has buffered. */
  function Split(s: seq<byte>): seq<seq<byte>> {
    if Plain(s) then [] else [s[..FirstNL(s) + 1]] + Split(s[FirstNL(s) + 1..])
  }

  /** The unfinished frame at its end. */
  function Tail(s: seq<byte>): seq<byte> {
    if Plain(s) then s else Tail(s[FirstNL(s) + 1..])
  }

  function CutAll(chunks: seq<seq<byte>>): seq<byte> {
    if chunks == [] then [] else Cut(chunks[0]) + CutAll(chunks[1..])
  }

  lemma FirstNLIs(s: seq<byte>, k: nat)
    requires k < |s| && s[k] == NL && forall i | 0 <= i < k :: s[i] != NL
    ensures FirstNL(s) == k && !Plain(s)
  {}

  lemma SplitFirst(f: seq<byte>, s: seq<byte>)
    requires IsFrame(f)
    ensures Split(f + s) == [f] + Split(s) && Tail(f + s) == Tail(s)
  {
    FirstNLIs(f + s, |f| - 1);
    assert (f + s)[..|f|] == f && (f + s)[|f|..] == s;
  }

  /**
    Fresh readers split the stream that is left when each chunk is truncated just past its first
    delimiter: that is all the difference from a reader kept between the calls.
   */
  lemma {:induction false} FreshReadersSplitCutStream(r: Reader, chunks: seq<seq<byte>>)
    requires r.Valid()
    ensures FeedAll(r, chunks).frames == r.frames + Split(r.buf + CutAll(chunks))
    ensures FeedAll(r, chunks).buf == Tail(r.buf + CutAll(chunks))
    decreases chunks
  {
    if chunks == [] {
      assert r.buf + CutAll(chunks) == r.buf;
    } else {
      FreshReadersSplitCutStream(r.Feed(chunks[0]), chunks[1..]);
      FeedSplits(r, chunks[0], CutAll(chunks[1..]));
    }
  }

  lemma FeedSplits(r: Reader, c: seq<byte>, rest: seq<byte>)
    requires r.Valid()
    ensures r.Feed(c).frames + Split(r.Feed(c).buf + rest) == r.frames + Split(r.buf + (Cut(c) + rest))
    ensures Tail(r.Feed(c).buf + rest) == Tail(r.buf + (Cut(c) + rest))
  {
    hide Split, Tail, FirstNL;
    ConcatAssoc(r.buf, Cut(c), rest);
    if !Plain(c) {
      var f := r.buf + Cut(c);
      SplitFirst(f, rest);
      assert [] + rest == rest;
      ConcatAssoc(r.frames, [f], Split(rest));
    }
  }

  /** Frames and the bytes dropped after them, in stream order. */
  function Weave(frames: seq<seq<byte>>, spills: seq<seq<byte>>): seq<byte>
    requires |frames| == |spills|
  {
    if frames == [] then [] else
      var n := |frames| - 1;
      Weave(frames[..n], spills[..n]) + frames[n] + spills[n]
  }

  /** Nothing is invented or reordered: frames, spills and the unfinished call rebuild the stream. */
  lemma {:induction false} FramesAndSpillsRebuildStream(r: Reader, chunks: seq<seq<byte>>)
    requires r.Valid()
    ensures Woven(FeedAll(r, chunks)) == Woven(r) + Flatten(chunks)
    decreases chunks
  {
    if chunks == [] {
      assert r.buf + Flatten(chunks) == r.buf;
    } else {
      var c, rest := chunks[0], Flatten(chunks[1..]);
      FramesAndSpillsRebuildStream(r.Feed(c), chunks[1..]);
      FeedKeepsWeave(r, c);
      assert (Woven(r) + c) + rest == Woven(r) + (c + rest);
    }
  }

  function Woven(r: Reader): seq<byte>
    requires r.Valid()
  {
    Weave(r.frames, r.spills) + r.buf
  }

  lemma WeaveNext(frames: seq<seq<byte>>, spills: seq<seq<byte>>, f: seq<byte>, s: seq<byte>)
    requires |frames| == |spills|
    ensures Weave(frames + [f], spills + [s]) == Weave(frames, spills) + f + s
  {
    assert (frames + [f])[..|frames|] == frames && (spills + [s])[..|spills|] == spills;
  }

  lemma Regroup<T>(w: seq<T>, a: seq<T>, b: seq<T>, c: seq<T>)
    ensures (w + (a + b)) + c + [] == (w + a) + (b + c)
  {}

  lemma FeedKeepsWeave(r: Reader, c: seq<byte>)
    requires r.Valid()
    ensures Woven(r.Feed(c)) == Woven(r) + c
  {
    hide Weave, Plain, Cut, Spill;
    if Plain(c) {
      ConcatAssoc(Weave(r.frames, r.spills), r.buf, c);
    } else {
      WeaveNext(r.frames, r.spills, r.buf + Cut(c), Spill(c));
      Regroup(Weave(r.frames, r.spills), r.buf, Cut(c), Spill(c));
    }
  }

  // ------------------------------------------------------------------------------------------
  // When nothing is dropped
  // ------------------------------------------------------------------------------------------

  /** The chunk carries no byte past a delimiter. */
  predicate Clean(c: seq<byte>) {
    forall i | 0 <= i < |c| - 1 :: c[i] != NL
  }

  predicate AllClean(chunks: seq<seq<byte>>) {
    forall c | c in chunks :: Clean(c)
  }

  lemma CleanIffKeptWhole(c: seq<byte>)
    ensures Clean(c) <==> Cut(c) == c
    ensures Clean(c) <==> Spill(c) == []
  {
    if !Plain(c) {
      var k := FirstNL(c);
      assert Clean(c) ==> k == |c| - 1;
    }
  }

  /** Over all calls, no byte is dropped if and only if no chunk carries bytes past a delimiter. */
  lemma {:induction false} LostNothingIffClean(r: Reader, chunks: seq<seq<byte>>)
    requires r.Valid()
    ensures FeedAll(r, chunks).LostNothing() <==> r.LostNothing() && AllClean(chunks)
    decreases chunks
  {
    if chunks != [] {
      var c := chunks[0];
      CleanIffKeptWhole(c);
      LostNothingIffClean(r.Feed(c), chunks[1..]);
      LostNothingStep(r, c);
      assert chunks == [c] + chunks[1..];
    }
  }

  lemma LostNothingStep(r: Reader, c: seq<byte>)
    requires r.Valid()
    ensures r.Feed(c).LostNothing() <==> r.LostNothing() && Clean(c)
  {
    CleanIffKeptWhole(c);
    if !Plain(c) {
      var after := r.Feed(c).spills;
      assert after == r.spills + [Spill(c)];
      if r.LostNothing() && Clean(c) {
        forall s | s in after ensures s == [] {
          assert s in r.spills || s == Spill(c);
        }
      } else if Clean(c) {
        var s :| s in r.spills && s != [];
        assert s in after;
      } else {
        assert after[|r.spills|] in after;
      }
    }
  }

  lemma {:induction false} CutAllClean(chunks: seq<seq<byte>>)
    requires AllClean(chunks)
    ensures CutAll(chunks) == Flatten(chunks)
  {
    if chunks != [] {
      CleanIffKeptWhole(chunks[0]);
      CutAllClean(chunks[1..]);
    }
  }

  /** Messages on the wire, each with the delimiter appended. */
  function Encode(ms: seq<seq<byte>>): seq<seq<byte>>
    ensures |Encode(ms)| == |ms|
  {
    if ms == [] then [] else [ms[0] + [NL]] + Encode(ms[1..])
  }

  predicate Messages(ms: seq<seq<byte>>) {
    forall m | m in ms :: Plain(m)
  }

  lemma {:induction false} SplitEncode(ms: seq<seq<byte>>)
    requires Messages(ms)
    ensures Split(Flatten(Encode(ms))) == Encode(ms) && Tail(Flatten(Encode(ms))) == []
  {
    if ms != [] {
      SplitEncode(ms[1..]);
      assert ms[0] in ms;
      SplitFirst(ms[0] + [NL], Flatten(Encode(ms[1..])));
      assert Encode(ms)[0] == ms[0] + [NL] && Encode(ms)[1..] == Encode(ms[1..]);
    }
  }

  lemma {:induction false} WeaveLength(frames: seq<seq<byte>>, spills: seq<seq<byte>>)
    requires |frames| == |spills|
    ensures |Weave(frames, spills)| == |Flatten(frames)| + |Flatten(spills)|
  {
    if frames != [] {
      var n := |frames| - 1;
      WeaveLength(frames[..n], spills[..n]);
      FlattenConcat(frames[..n], [frames[n]]);
      FlattenConcat(spills[..n], [spills[n]]);
      assert frames == frames[..n] + [frames[n]] && spills == spills[..n] + [spills[n]];
      assert Flatten([frames[n]]) == frames[n] && Flatten([spills[n]]) == spills[n];
    }
  }

  lemma {:induction false} FlattenNothing(ss: seq<seq<byte>>)
    ensures |Flatten(ss)| == 0 ==> forall s | s in ss :: s == []
  {
    if ss != [] {
      FlattenNothing(ss[1..]);
      assert ss == [ss[0]] + ss[1..];
    }
  }

  /**
    The lock-step condition, exactly: for every list of newline-free messages and every chunking of
    their encoding, successive calls return the messages in order, each with its delimiter, if and
    only if no chunk carries bytes past a delimiter.
   */
  lemma MessagesSurviveIffClean(ms: seq<seq<byte>>, chunks: seq<seq<byte>>)
    requires Messages(ms) && Flatten(chunks) == Flatten(Encode(ms))
    ensures FeedAll(IDLE, chunks).frames == Encode(ms) <==> AllClean(chunks)
    ensures AllClean(chunks) ==> FeedAll(IDLE, chunks).buf == []
  {
    var out := FeedAll(IDLE, chunks);
    LostNothingIffClean(IDLE, chunks);
    if AllClean(chunks) {
      FreshReadersSplitCutStream(IDLE, chunks);
      CutAllClean(chunks);
      assert [] + CutAll(chunks) == Flatten(Encode(ms));
      SplitEncode(ms);
    }
    if out.frames == Encode(ms) {
      FramesAndSpillsRebuildStream(IDLE, chunks);
      WeaveLength(out.frames, out.spills);
      assert |Weave(out.frames, out.spills)| <= |Flatten(chunks)|;
      FlattenNothing(out.spills);
    }
  }

  // ------------------------------------------------------------------------------------------
  // The same, for one direction of a live connection
  // ------------------------------------------------------------------------------------------

  /** With one frame left in the stream, a read ends the call only when it takes all of it. */
  lemma CompletesAtEnd(p: Pipe, h: seq<byte>, n: nat)
    requires p.Valid() && IsFrame(h) && p.log[p.Start()..] == h && 0 < n <= |p.log| - p.at
    ensures p.Completes(n) <==> p.at + n == |p.log|
  {
    hide Pipe.Take, Reader.Valid;
    var d := p.at - p.Start();
    var c := p.log[p.at..p.at + n];
    forall i | 0 <= i < n ensures c[i] == h[d + i] {
      assert p.log[p.Start()..][d + i] == p.log[p.at + i];
    }
    if p.at + n == |p.log| {
      assert d + (n - 1) == |h| - 1;
      assert c[n - 1] == NL;
      assert !Plain(c);
    } else {
      assert forall i | 0 <= i < n :: c[i] == h[d + i] && c[i] != NL;
      assert Plain(c);
    }
    assert p.Completes(n) == !Plain(c);
  }

  /** That read gives up exactly the frame and drops nothing. */
  lemma OneFrameLeft(p: Pipe, h: seq<byte>, n: nat)
    requires p.Valid() && IsFrame(h) && p.log[p.Start()..] == h && 0 < n && p.at + n == |p.log|
    requires p.Completes(n)
    ensures p.Take(n).rd.frames == p.rd.frames + [h] && p.Take(n).rd.spills == p.rd.spills + [[]]
  {
    var q := p.Completed(n);
    assert p.log[p.Start()..][q - p.Start()] == p.log[q];
    assert q == |p.log| - 1;
    assert p.log[p.Start()..q + 1] == h && p.log[q + 1..p.at + n] == [];
  }

  /** A stream that begins with the ACK gives its first call exactly the ACK, and drops what came with it. */
  lemma AckFirst(p: Pipe, n: nat)
    requires p.Valid() && |p.log| >= 2 && p.log[..2] == ACK && p.Start() == 0
    requires p.at + n <= |p.log| && p.Completes(n)
    ensures p.Take(n).rd.frames == p.rd.frames + [ACK] && 2 <= p.at + n
    ensures p.Take(n).rd.spills == p.rd.spills + [p.log[2..p.at + n]]
  {
    hide Pipe.Take, Pipe.Valid, Pipe.Completes, Pipe.Start;
    var q := p.Completed(n);
    assert p.log[..2][0] == ACK[0] && p.log[..2][1] == NL;
    OnlyAck(p.log, q);
  }

  lemma OnlyAck(log: seq<byte>, q: nat)
    requires q < |log| && |log| >= 2 && log[0] == ACK[0] && log[1] == NL && IsFrame(log[0..q + 1])
    ensures q == 1 && log[0..q + 1] == ACK
  {
    var frame := log[0..q + 1];
    assert frame[q] == NL;
    assert forall i | 0 <= i < q :: frame[i] == log[i];
  }
}
