/** Exactly which heartbeats can say the ACK to an enclave whose handshake has landed in a watchdog. */
module AckInBeats {
  import opened Streams
  import opened Framing
  import opened Heartbeats
  import opened Pairing
  import opened PairingPipes

  /** Reads of these sizes lead from one state of a direction to another. */
  ghost predicate ReadsTo(p: Pipe, sizes: seq<nat>, q: Pipe)
    decreases sizes
  {
    if sizes == [] then p == q
    else p.Valid() && p.at + sizes[0] <= |p.log| && ReadsTo(p.Take(sizes[0]), sizes[1..], q)
  }

  /** Read in such chunks, a run of n heartbeats gives first a frame that may be JSON, and then the ACK. */
  ghost predicate Hears(id: Uuid, n: nat, sizes: seq<nat>, q: Pipe) {
    && ReadsTo(Pipe(Heartbeats.Beats(id, n), 0, IDLE), sizes, q)
    && |q.rd.frames| == 2 && MayBeJson(q.rd.frames[0]) && q.rd.frames[1] == ACK
  }

  /** What the frames of heartbeats say of the ID. */
  ghost predicate FramesTell(p: Pipe, id: Uuid) {
    && BeatPipe(p, id)
    && (|p.rd.frames| > 0 ==> p.rd.frames[0] == FirstPiece(id))
    && (forall j | 1 <= j < |p.rd.frames| && p.rd.frames[j] == ACK :: exists i :: 0 <= i < 16 && AckAt(id, i))
  }

  lemma TellStep(p: Pipe, id: Uuid, n: nat)
    requires FramesTell(p, id) && p.at + n <= |p.log|
    ensures FramesTell(p.Take(n), id)
  {
    hide BeatPipe, FirstPiece, AckAt, Pipe.Take, Pipe.Completes, Pipe.Valid;
    BeatTaken(p, id, n);
    if p.Completes(n) {
      var k, frame := BeatFrame(p, id, n);
      if p.rd.frames == [] {
        FirstBeatPiece(p, id, n);
      } else if frame == ACK {
        AckPiece(p, id, n);
      }
    }
  }

  lemma {:induction false} TellRun(p: Pipe, id: Uuid, sizes: seq<nat>, q: Pipe)
    requires FramesTell(p, id) && ReadsTo(p, sizes, q)
    ensures FramesTell(q, id)
    decreases sizes
  {
    hide FramesTell, Pipe.Take, Pipe.Valid;
    if sizes != [] {
      TellStep(p, id, sizes[0]);
      TellRun(p.Take(sizes[0]), id, sizes[1..], q);
    }
  }

  /**
    There are a run of heartbeats and chunks of it in which two reads return something that may be JSON and
    then the ACK, if and only if the ID says so.
   */
  lemma SaysAckIff(id: Uuid)
    ensures SaysAck(id) <==> exists n, sizes, q :: Hears(id, n, sizes, q)
  {
    hide MayBeJson, FirstPiece, AckAt;
    if SaysAck(id) {
      var i :| 0 <= i < 16 && AckAt(id, i);
      var sizes, q := AckHeard(id, i);
      assert Hears(id, 2, sizes, q);
    }
    if n, sizes, q :| Hears(id, n, sizes, q) {
      var p := Pipe(Heartbeats.Beats(id, n), 0, IDLE);
      StartTells(id, n);
      TellRun(p, id, sizes, q);
    }
  }

  lemma StartTells(id: Uuid, n: nat)
    ensures FramesTell(Pipe(Heartbeats.Beats(id, n), 0, IDLE), id)
  {
    BeatsInPhase(id, n);
    hide InPhase, Heartbeats.Beats;
  }

  /** One read takes the first heartbeat and the second up to where the ACK is, the next takes the ACK. */
  lemma AckHeard(id: Uuid, i: nat) returns (sizes: seq<nat>, q: Pipe)
    requires i < 16 && AckAt(id, i) && MayBeJson(FirstPiece(id))
    ensures Hears(id, 2, sizes, q)
  {
    hide MayBeJson, FirstPiece, Pipe.Take, Pipe.Completes, Pipe.Valid, Heartbeats.Beat;
    var p := Pipe(Heartbeats.Beats(id, 2), 0, IDLE);
    StartTells(id, 2);
    TwoBeats(id, i);
    CompletesBy(p, 17 + i, 16);
    FirstBeatPiece(p, id, 17 + i);
    var p1 := p.Take(17 + i);
    AckNext(p1);
    q, sizes := p1.Take(2), [17 + i, 2];
    assert sizes[1..] == [2] && [2][1..] == [];
    assert ReadsTo(q, [], q) && ReadsTo(p1, [2], q) && ReadsTo(p, sizes, q);
  }

  lemma AckNext(p: Pipe)
    requires p.Valid() && p.Start() == p.at && p.at + 2 <= |p.log|
    requires p.log[p.at] == ACK[0] && p.log[p.at + 1] == NL
    ensures p.Take(2).rd.frames == p.rd.frames + [ACK]
  {
    hide Pipe.Valid, Pipe.Take, Pipe.Completes;
    CompletesBy(p, 2, 1);
    var q := p.Completed(2);
    var frame := p.log[p.at..q + 1];
    assert frame[|frame| - 1] == p.log[q];
    assert frame == ACK;
  }

  lemma CompletesBy(p: Pipe, n: nat, k: nat)
    requires p.Valid() && p.at + n <= |p.log| && k < n && p.log[p.at + k] == NL
    ensures p.Completes(n)
  {
    assert p.log[p.at..p.at + n][k] == NL;
  }

  lemma TwoBeats(id: Uuid, i: nat)
    requires i < 16 && AckAt(id, i)
    ensures var log := Heartbeats.Beats(id, 2);
            |log| == 34 && log[16] == NL && log[17 + i] == ACK[0] && log[17 + i + 1] == NL
  {
    var b := Heartbeats.Beat(id);
    assert Heartbeats.Beats(id, 1) == b + Heartbeats.Beats(id, 0);
    assert Heartbeats.Beats(id, 2) == b + Heartbeats.Beats(id, 1);
  }
}
