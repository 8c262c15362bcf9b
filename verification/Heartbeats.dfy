/** The watchdog's heartbeats on the wire and the loop that judges the frames read from a connection. */
module Heartbeats {
  import opened Streams
  import opened Framing

  type Uuid = u: seq<byte> | |u| == 16 witness [0, 0, 0, 0, 0, 0, 0, 0, 0, 0, 0, 0, 0, 0, 0, 0]

  const NIL: Uuid := [0, 0, 0, 0, 0, 0, 0, 0, 0, 0, 0, 0, 0, 0, 0, 0]

  /** Anything that is not 16 bytes long becomes the nil ID. */
  function FromBytesOrNil(bs: seq<byte>): Uuid {
    if |bs| == 16 then bs else NIL
  }

  /** What a heartbeat writes: the raw ID and the delimiter. */
  function Beat(id: Uuid): (f: seq<byte>)
    ensures |f| == 17 && f[16] == NL
  {
    id + [NL]
  }

  /** The ID a frame carries: the read loop cuts the delimiter off. */
  function Carried(frame: seq<byte>): Uuid
    requires |frame| > 0
  {
    FromBytesOrNil(frame[..|frame| - 1])
  }

  predicate Accepts(id: Uuid, frame: seq<byte>) {
    |frame| > 0 && Carried(frame) == id
  }

  /**
    A frame is accepted exactly when it is the heartbeat itself. The nil ID would accept every frame
    of a wrong length too, which is why no watchdog is made for it.
   */
  lemma AcceptedIff(id: Uuid, frame: seq<byte>)
    requires |frame| > 0 && frame[|frame| - 1] == NL
    ensures Accepts(id, frame) <==> frame == Beat(id) || (id == NIL && |frame| != 17)
  {
    assert frame == frame[..|frame| - 1] + [NL];
    assert Beat(id)[..16] == id;
  }

  // ------------------------------------------------------------------------------------------
  // A stream of heartbeats under any chunking
  // ------------------------------------------------------------------------------------------

  function Beats(id: Uuid, n: nat): (s: seq<byte>)
    ensures |s| == 17 * n
  {
    if n == 0 then [] else Beat(id) + Beats(id, n - 1)
  }

  /** A run of whole heartbeats. */
  predicate InPhase(s: seq<byte>, id: Uuid) {
    s == [] || (|s| >= 17 && s[..17] == Beat(id) && InPhase(s[17..], id))
  }

  lemma {:induction false} BeatsInPhase(id: Uuid, n: nat)
    ensures InPhase(Beats(id, n), id)
  {
    if n > 0 {
      var s := Beats(id, n);
      BeatsInPhase(id, n - 1);
      assert s[..17] == Beat(id) && s[17..] == Beats(id, n - 1);
    }
  }

  /** The first frame is the same for every chunking: the stream up to its first delimiter. */
  lemma {:induction false} FirstFrame(r: Reader, chunks: seq<seq<byte>>)
    requires r.Valid() && !Plain(r.buf + Flatten(chunks))
    ensures var s, out := r.buf + Flatten(chunks), FeedAll(r, chunks);
            && r.frames <= out.frames && |r.frames| < |out.frames|
            && out.frames[|r.frames|] == s[..FirstNL(s) + 1]
    decreases chunks
  {
    hide FirstNL, Plain, Cut;
    var s := r.buf + Flatten(chunks);
    assert r.buf + [] == r.buf;
    if chunks == [] {
      assert false;
    } else {
      var c := chunks[0];
      if Plain(c) {
        assert s == (r.buf + c) + Flatten(chunks[1..]);
        FirstFrame(r.Feed(c), chunks[1..]);
      } else {
        CutIsFirst(r.buf, c, Flatten(chunks[1..]));
        FramesGrow(r.Feed(c), chunks[1..]);
      }
    }
  }

  lemma {:induction false} FramesGrow(r: Reader, chunks: seq<seq<byte>>)
    requires r.Valid()
    ensures r.frames <= FeedAll(r, chunks).frames
    decreases chunks
  {
    if chunks != [] {
      FramesGrow(r.Feed(chunks[0]), chunks[1..]);
    }
  }

  /** For heartbeats that is a piece of the first heartbeat. */
  lemma FirstOfBeats(id: Uuid, n: nat, chunks: seq<seq<byte>>)
    requires n > 0 && Flatten(chunks) == Beats(id, n)
    ensures var frames, b := FeedAll(IDLE, chunks).frames, Beat(id);
            |frames| > 0 && FirstNL(b) < 17 && frames[0] == b[..FirstNL(b) + 1]
  {
    hide FeedAll, FirstNL;
    var s, b := Beats(id, n), Beat(id);
    assert IDLE.buf + Flatten(chunks) == s;
    FirstNLOfPrefix(b, s);
    FirstFrame(IDLE, chunks);
  }

  lemma FirstNLOfPrefix(b: seq<byte>, s: seq<byte>)
    requires b <= s && !Plain(b)
    ensures !Plain(s) && FirstNL(s) == FirstNL(b) && s[..FirstNL(b) + 1] == b[..FirstNL(b) + 1]
  {
    FirstNLIs(s, FirstNL(b));
  }

  /**
    Over any chunking of any number of heartbeats, the first frame the peer reads is accepted if and
    only if the ID contains no delimiter byte.
   */
  lemma FirstBeatAcceptedIff(id: Uuid, n: nat, chunks: seq<seq<byte>>)
    requires id != NIL && n > 0 && Flatten(chunks) == Beats(id, n)
    ensures var frames := FeedAll(IDLE, chunks).frames;
            |frames| > 0 && IsFrame(frames[0]) && (Accepts(id, frames[0]) <==> Plain(id))
  {
    hide FeedAll, Beats, Flatten;
    FirstOfBeats(id, n, chunks);
    var b := Beat(id);
    var frame := b[..FirstNL(b) + 1];
    assert frame[FirstNL(b)] == NL;
    AcceptedIff(id, frame);
    if Plain(id) {
      FirstNLIs(b, 16);
    } else {
      assert b[FirstNL(id)] == NL;
    }
  }

  /** ... and it looks like a handshake's ACK if and only if the ID begins with the ACK's two bytes. */
  lemma FirstBeatIsAckIff(id: Uuid, n: nat, chunks: seq<seq<byte>>)
    requires n > 0 && Flatten(chunks) == Beats(id, n)
    ensures var frames := FeedAll(IDLE, chunks).frames;
            |frames| > 0 && (frames[0] == ACK <==> BeginsAck(id))
  {
    hide FeedAll, Beats, Flatten;
    FirstOfBeats(id, n, chunks);
    AckPrefixIff(id);
  }

  /** The ID begins as a handshake does. */
  predicate BeginsAck(id: Uuid) {
    id[..2] == ACK
  }

  lemma AckPrefixIff(id: Uuid)
    ensures var b := Beat(id); !Plain(b) && (b[..FirstNL(b) + 1] == ACK <==> BeginsAck(id))
  {
    var b := Beat(id);
    assert b[..2] == id[..2];
    if BeginsAck(id) {
      assert b[0] == ACK[0] && b[1] == ACK[1];
      FirstNLIs(b, 1);
    }
  }

  predicate AllAccepted(id: Uuid, frames: seq<seq<byte>>) {
    forall f | f in frames :: f == Beat(id)
  }

  /** The chunk holds no delimiter, or ends in one. */
  predicate EndsOnBoundary(c: seq<byte>) {
    Plain(c) || c[|c| - 1] == NL
  }

  predicate AllOnBoundary(chunks: seq<seq<byte>>) {
    forall c | c in chunks :: EndsOnBoundary(c)
  }

  function WithDelimiter(chunks: seq<seq<byte>>): nat {
    if chunks == [] then 0 else (if Plain(chunks[0]) then 0 else 1) + WithDelimiter(chunks[1..])
  }

  /** In phase, the first frame is the heartbeat. */
  lemma PhaseFrame(id: Uuid, s: seq<byte>)
    requires Plain(id) && InPhase(s, id) && s != []
    ensures !Plain(s) && FirstNL(s) == 16 && s[..17] == Beat(id)
  {
    hide FirstNL;
    assert forall i | 0 <= i < 17 :: s[i] == Beat(id)[i];
    FirstNLIs(s, 16);
  }

  /** What is left after p bytes is in phase exactly when a heartbeat ends there. */
  lemma {:induction false} PhaseRest(id: Uuid, s: seq<byte>, p: nat)
    requires Plain(id) && InPhase(s, id) && 0 < p <= |s|
    ensures s[p - 1] == NL <==> InPhase(s[p..], id)
    ensures s[p - 1] != NL ==> !Plain(s[p..]) && FirstNL(s[p..]) < 16
    decreases |s|
  {
    if p > 17 {
      PhaseRest(id, s[17..], p - 17);
      assert s[17..][p - 17..] == s[p..] && s[17..][p - 18] == s[p - 1];
    } else {
      InsideBeat(id, s, p);
    }
  }

  lemma AtMost(s: seq<byte>, k: nat)
    requires k < |s| && s[k] == NL
    ensures !Plain(s) && FirstNL(s) <= k
  {}

  lemma LateFirst(id: Uuid, s: seq<byte>)
    requires Plain(id) && s != [] && FirstNL(s) < 16
    ensures !InPhase(s, id)
  {
    if InPhase(s, id) {
      PhaseFrame(id, s);
      assert false;
    }
  }

  lemma InsideBeat(id: Uuid, s: seq<byte>, p: nat)
    requires Plain(id) && InPhase(s, id) && 0 < p <= 17 <= |s|
    ensures s[p - 1] == NL <==> InPhase(s[p..], id)
    ensures s[p - 1] != NL ==> !Plain(s[p..]) && FirstNL(s[p..]) < 16
  {
    hide FirstNL;
    assert forall i | 0 <= i < 17 :: s[i] == Beat(id)[i];
    if p < 17 {
      var rest := s[p..];
      assert rest[16 - p] == NL;
      assert s[p - 1] == id[p - 1];
      AtMost(rest, 16 - p);
      LateFirst(id, rest);
    }
  }

  lemma CutIsFirst(buf: seq<byte>, c: seq<byte>, rest: seq<byte>)
    requires Plain(buf) && !Plain(c)
    ensures var s := buf + (c + rest); !Plain(s) && buf + Cut(c) == s[..FirstNL(s) + 1]
  {
    FirstNLIs(buf + (c + rest), |buf| + FirstNL(c));
  }

  /** Where a chunk that holds a delimiter leaves a stream that was in phase. */
  lemma PhaseAfter(id: Uuid, buf: seq<byte>, c: seq<byte>, rest: seq<byte>)
    requires Plain(id) && Plain(buf) && !Plain(c) && InPhase(buf + (c + rest), id)
    ensures buf + Cut(c) == Beat(id)
    ensures EndsOnBoundary(c) <==> InPhase(rest, id)
    ensures !EndsOnBoundary(c) ==> !Plain(rest) && FirstNL(rest) < 16
  {
    hide InPhase, Beat, FirstNL, Plain, Cut;
    var s := buf + (c + rest);
    var p := |buf| + |c|;
    CutIsFirst(buf, c, rest);
    PhaseFrame(id, s);
    PhaseRest(id, s, p);
    assert s[p..] == rest && s[p - 1] == c[|c| - 1];
  }

  /**
    When repeated heartbeats all get through, exactly: for every newline-free ID and every chunking
    of a run of heartbeats, each frame read is the heartbeat if and only if every chunk that holds a
    delimiter ends in one. The watchdog is then reset once per such chunk, not once per heartbeat.
   */
  lemma BeatsAllAcceptedIff(id: Uuid, n: nat, chunks: seq<seq<byte>>)
    requires Plain(id) && Flatten(chunks) == Beats(id, n)
    ensures AllAccepted(id, FeedAll(IDLE, chunks).frames) <==> AllOnBoundary(chunks)
    ensures AllOnBoundary(chunks) ==> |FeedAll(IDLE, chunks).frames| == WithDelimiter(chunks)
    ensures AllOnBoundary(chunks) ==> FeedAll(IDLE, chunks).buf == []
  {
    assert IDLE.buf + Flatten(chunks) == Beats(id, n);
    BeatsInPhase(id, n);
    BeatsAccepted(id, IDLE, chunks);
  }

  lemma {:induction false} BeatsAccepted(id: Uuid, r: Reader, chunks: seq<seq<byte>>)
    requires Plain(id) && r.Valid() && AllAccepted(id, r.frames)
    requires InPhase(r.buf + Flatten(chunks), id)
    ensures AllAccepted(id, FeedAll(r, chunks).frames) <==> AllOnBoundary(chunks)
    ensures AllOnBoundary(chunks) ==> |FeedAll(r, chunks).frames| == |r.frames| + WithDelimiter(chunks)
    ensures AllOnBoundary(chunks) ==> FeedAll(r, chunks).buf == []
    decreases chunks
  {
    if chunks == [] {
      assert r.buf + Flatten(chunks) == r.buf;
      if r.buf != [] {
        PhaseFrame(id, r.buf);
        assert false;
      }
    } else {
      var c, rest := chunks[0], Flatten(chunks[1..]);
      assert chunks == [c] + chunks[1..];
      var next := r.Feed(c);
      if Plain(c) {
        assert next.buf + rest == r.buf + (c + rest);
        BeatsAccepted(id, next, chunks[1..]);
      } else {
        PhaseAfter(id, r.buf, c, rest);
        assert next.buf + rest == rest;
        if EndsOnBoundary(c) {
          BeatsAccepted(id, next, chunks[1..]);
        } else {
          FirstFrame(next, chunks[1..]);
          var out := FeedAll(r, chunks);
          assert |out.frames[|next.frames|]| < 17;
          assert out.frames[|next.frames|] in out.frames;
          assert c in chunks;
        }
      }
    }
  }
}
