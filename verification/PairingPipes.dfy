/** What travels in one direction of a connection: the two frames of a handshake end, or heartbeats. */
module PairingPipes {
  import opened Streams
  import opened Framing
  import opened Heartbeats
  import opened Pairing

  // ------------------------------------------------------------------------------------------
  // A handshake direction
  // ------------------------------------------------------------------------------------------

  /** w of the two frames written, r read, nothing lost, and the rest still to be read. */
  ghost predicate ShakePipe(p: Pipe, f: seq<byte>, g: seq<byte>, w: nat, r: nat) {
    && p.Valid() && r <= w <= r + 1 && w <= 2
    && p.log == Said(f, g, w)
    && p.Start() == |Said(f, g, r)|
    && p.rd.frames == Heard(f, g, r)
    && p.rd.LostNothing()
  }

  lemma ShakeWrite(p: Pipe, f: seq<byte>, g: seq<byte>, w: nat)
    requires w < 2 && ShakePipe(p, f, g, w, w)
    ensures ShakePipe(p.Write(if w == 0 then f else g), f, g, w + 1, w)
  {}

  /** While a frame is under way, what is left of the stream is that frame. */
  lemma ShakeRest(p: Pipe, f: seq<byte>, g: seq<byte>, w: nat, r: nat)
    requires ShakePipe(p, f, g, w, r) && r < w
    ensures p.log[p.Start()..] == if r == 0 then f else g
  {}

  /**
    Whatever the chunks, a read either leaves the frame unfinished or returns exactly it, taking
    everything there was and dropping nothing.
   */
  lemma ShakeTake(p: Pipe, f: seq<byte>, g: seq<byte>, w: nat, r: nat, n: nat)
    requires IsFrame(f) && IsFrame(g) && ShakePipe(p, f, g, w, r) && r < w && 0 < n <= |p.log| - p.at
    ensures p.Completes(n) <==> p.at + n == |p.log|
    ensures ShakePipe(p.Take(n), f, g, w, if p.Completes(n) then r + 1 else r)
    ensures p.Completes(n) ==> p.Take(n).rd.frames != [] && Last(p.Take(n).rd.frames) == if r == 0 then f else g
  {
    hide IsFrame, Pipe.Take, Pipe.Completes;
    ShakeRest(p, f, g, w, r);
    var h := if r == 0 then f else g;
    CompletesAtEnd(p, h, n);
    if p.Completes(n) {
      OneFrameLeft(p, h, n);
    }
  }

  /** While a frame is under way there is something left to read. */
  lemma ShakeUnread(p: Pipe, f: seq<byte>, g: seq<byte>, w: nat, r: nat)
    requires IsFrame(f) && IsFrame(g) && ShakePipe(p, f, g, w, r) && r < w
    ensures p.at < |p.log|
  {
    ShakeRest(p, f, g, w, r);
    hide Said, Heard;
    var h := if r == 0 then f else g;
    assert h[|h| - 1] == NL;
    assert p.at == |p.log| ==> p.rd.buf == h;
  }

  // ------------------------------------------------------------------------------------------
  // A direction that carries heartbeats
  // ------------------------------------------------------------------------------------------

  /** Heartbeats of the ID from the first byte on; the first call still runs if no frame is out yet. */
  ghost predicate BeatPipe(p: Pipe, id: Uuid) {
    p.Valid() && InPhase(p.log, id) && (p.rd.frames == [] ==> p.Start() == 0)
  }

  lemma BeatWrite(p: Pipe, id: Uuid)
    requires BeatPipe(p, id)
    ensures BeatPipe(p.Write(Heartbeats.Beat(id)), id)
  {
    hide InPhase;
    PhaseAppend(p.log, id);
  }

  lemma {:induction false} PhaseAppend(log: seq<byte>, id: Uuid)
    requires InPhase(log, id)
    ensures InPhase(log + Heartbeats.Beat(id), id)
    decreases |log|
  {
    hide Heartbeats.Beat;
    var b := Heartbeats.Beat(id);
    if log == [] {
      assert log + b == b && b[..17] == b && b[17..] == [];
    } else {
      PhaseAppend(log[17..], id);
      assert (log + b)[..17] == log[..17] && (log + b)[17..] == log[17..] + b;
    }
  }

  /**
    A frame read from heartbeats is a piece of one, for any ID and wherever the call began: it cannot go
    past the delimiter that ends each. Without a delimiter in the ID it goes up to it.
   */
  lemma BeatFrame(p: Pipe, id: Uuid, n: nat) returns (k: nat, frame: seq<byte>)
    requires BeatPipe(p, id) && p.at + n <= |p.log| && p.Completes(n)
    ensures IsFrame(frame) && p.Take(n).rd.frames == p.rd.frames + [frame] && Last(p.Take(n).rd.frames) == frame
    ensures k + |frame| <= 17 && frame == Heartbeats.Beat(id)[k..k + |frame|]
    ensures Plain(id) ==> k + |frame| == 17
    ensures p.rd.frames == [] ==> k == 0
  {
    hide Pipe.Valid, Pipe.Take, Pipe.Completes, Heartbeats.Beat, Plain, InPhase, IsFrame;
    var q := p.Completed(n);
    var start := BeatAround(id, p.log, p.Start());
    k, frame := p.Start() - start, p.log[p.Start()..q + 1];
    PieceOfWhole(id, p.log, start, p.Start(), q);
  }

  /** The heartbeat that a position lies in. */
  lemma {:induction false} BeatAround(id: Uuid, log: seq<byte>, s: nat) returns (start: nat)
    requires InPhase(log, id) && s < |log|
    ensures start <= s < start + 17 <= |log| && log[start..start + 17] == Heartbeats.Beat(id)
    ensures s == 0 ==> start == 0
    decreases |log|
  {
    hide Heartbeats.Beat;
    if s < 17 {
      start := 0;
    } else {
      var rest := log[17..];
      var i := BeatAround(id, rest, s - 17);
      start := i + 17;
      assert rest[i..i + 17] == log[start..start + 17];
    }
  }

  lemma EndsBy(frame: seq<byte>, i: nat)
    requires IsFrame(frame) && (i < |frame| ==> frame[i] == NL)
    ensures |frame| <= i + 1
  {}

  /** A frame that begins in a heartbeat ends in it. */
  lemma PieceOfWhole(id: Uuid, log: seq<byte>, start: nat, s: nat, q: nat)
    requires start <= s < start + 17 <= |log| && log[start..start + 17] == Heartbeats.Beat(id)
    requires s <= q < |log| && IsFrame(log[s..q + 1])
    ensures q < start + 17 && log[s..q + 1] == Heartbeats.Beat(id)[s - start..q + 1 - start]
    ensures Plain(id) ==> q == start + 16
  {
    var frame, whole := log[s..q + 1], log[start..start + 17];
    forall i | 0 <= i < 17 ensures whole[i] == log[start + i] {
    }
    forall i | 0 <= i < |frame| ensures frame[i] == log[s + i] {
    }
    assert log[start + 16] == whole[16] == NL;
    EndsBy(frame, start + 16 - s);
    forall i | 0 <= i < |frame| ensures frame[i] == whole[s - start + i] {
      assert whole[s - start + i] == log[start + (s - start + i)];
    }
    assert frame == whole[s - start..q + 1 - start];
    assert frame[|frame| - 1] == whole[q - start];
    assert q < start + 16 ==> id[q - start] == NL;
  }

  lemma BeatTaken(p: Pipe, id: Uuid, n: nat)
    requires BeatPipe(p, id) && p.at + n <= |p.log|
    ensures BeatPipe(p.Take(n), id)
    ensures p.Completes(n) ==> p.Take(n).rd.frames != []
    ensures !p.Completes(n) ==> p.Take(n).rd.frames == p.rd.frames
  {
    hide InPhase, Pipe.Take, Pipe.Completes;
    if p.Completes(n) {
      var k, frame := BeatFrame(p, id, n);
    }
  }

  /** A piece of a heartbeat that a watchdog accepts is a whole one, of the watchdog's own ID. */
  lemma BeatAccepted(id: Uuid, k: nat, frame: seq<byte>, own: Uuid)
    requires IsFrame(frame) && k + |frame| <= 17 && frame == Heartbeats.Beat(id)[k..k + |frame|]
    requires own != NIL && Accepts(own, frame)
    ensures own == id && Plain(id)
  {
    AcceptedIff(own, frame);
    assert k == 0 && frame == Heartbeats.Beat(id);
    assert Heartbeats.Beat(id)[..16] == id && Heartbeats.Beat(own)[..16] == own;
    assert forall i | 0 <= i < 16 :: id[i] == frame[i];
  }

  /** The first frame of heartbeats is the ACK exactly for an ID that begins like it. */
  lemma FirstBeatIsAck(p: Pipe, id: Uuid, n: nat)
    requires BeatPipe(p, id) && p.rd.frames == [] && p.at + n <= |p.log| && p.Completes(n)
    ensures Last(p.Take(n).rd.frames) == ACK <==> BeginsAck(id)
  {
    hide Pipe.Valid, Pipe.Take, Pipe.Completes, InPhase;
    hide Heartbeats.Beat, FirstNL, BeginsAck;
    var k, frame := BeatFrame(p, id, n);
    var b := Heartbeats.Beat(id);
    AckPrefixIff(id);
    FrameOfPrefix(b, frame);
  }

  lemma FrameOfPrefix(b: seq<byte>, frame: seq<byte>)
    requires IsFrame(frame) && frame <= b
    ensures FirstNL(b) == |frame| - 1 && frame == b[..|frame|]
  {
    FirstNLIs(b, |frame| - 1);
  }

  // ------------------------------------------------------------------------------------------
  // What heartbeats can say to the other end of a handshake
  // ------------------------------------------------------------------------------------------

  /** The first frame of heartbeats. */
  function FirstPiece(id: Uuid): seq<byte> {
    Heartbeats.Beat(id)[..FirstNL(Heartbeats.Beat(id)) + 1]
  }

  /** Heartbeats of this ID can pass for an environment and then for the ACK. */
  predicate SaysAck(id: Uuid) {
    MayBeJson(FirstPiece(id)) && exists i :: 0 <= i < 16 && AckAt(id, i)
  }

  predicate AckAt(id: Uuid, i: nat)
    requires i < 16
  {
    Heartbeats.Beat(id)[i] == ACK[0] && Heartbeats.Beat(id)[i + 1] == NL
  }

  lemma FirstBeatPiece(p: Pipe, id: Uuid, n: nat)
    requires BeatPipe(p, id) && p.rd.frames == [] && p.at + n <= |p.log| && p.Completes(n)
    ensures p.Take(n).rd.frames == [FirstPiece(id)]
  {
    hide Pipe.Valid, Pipe.Take, Pipe.Completes, InPhase, Heartbeats.Beat, FirstNL;
    var k, frame := BeatFrame(p, id, n);
    FrameOfPrefix(Heartbeats.Beat(id), frame);
  }

  lemma AckPiece(p: Pipe, id: Uuid, n: nat)
    requires BeatPipe(p, id) && p.at + n <= |p.log| && p.Completes(n) && Last(p.Take(n).rd.frames) == ACK
    ensures exists i :: 0 <= i < 16 && AckAt(id, i)
  {
    hide Pipe.Valid, Pipe.Take, Pipe.Completes, InPhase, Heartbeats.Beat;
    var k, frame := BeatFrame(p, id, n);
    assert frame[0] == Heartbeats.Beat(id)[k] && frame[1] == Heartbeats.Beat(id)[k + 1];
    assert AckAt(id, k);
  }

  /** Without a delimiter in the ID they cannot. */
  lemma PlainNeverSaysAck(id: Uuid)
    requires Plain(id)
    ensures !SaysAck(id)
  {
    hide FirstNL;
    var b := Heartbeats.Beat(id);
    assert forall i | 0 <= i < 16 :: b[i] == id[i];
    FirstNLIs(b, 16);
    assert FirstPiece(id) == b;
    assert forall i | 0 <= i < 16 && AckAt(id, i) :: b[i + 1] == NL && i == 15;
  }
}
