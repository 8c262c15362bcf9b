/**
  The watchdog itself: read loops on any number of connections share one ticker and one unbuffered
  error channel with the event loop that decides the outcome.
 */
module Watchdog {
  import opened Options
  import opened Streams
  import opened Framing
  import opened Heartbeats

  // ------------------------------------------------------------------------------------------
  // One connection's read loop
  // ------------------------------------------------------------------------------------------

  /** What a read loop leaves behind: how many frames it accepted, and the mismatch that ended it. */
  datatype Verdict = Verdict(accepted: nat, mismatch: Option<Uuid>)

  /** The loop on the chunks that are still to come, call by call. */
  function Judge(id: Uuid, chunks: seq<seq<byte>>): Verdict
    decreases |chunks|
  {
    match NextCall([], chunks)
    case Short(_) => Verdict(0, None)
    case Frame(data, _, rest) =>
      if Accepts(id, data) then
        var v := Judge(id, rest);
        v.(accepted := v.accepted + 1)
      else Verdict(0, Some(Carried(data)))
  }

  /** Whether the context is done, and if so which read finds it so, and whether that read returns nothing at all. */
  datatype Cancellation = Never | At(read: nat, nothing: bool)

  /** How a read loop ends. A read that returns nothing and no error leaves no byte to cut off. */
  datatype LoopEnd = Closed | Mismatch(got: Uuid) | Panics

  /** How many heartbeats of the ID the frames begin with. */
  function Leading(id: Uuid, frames: seq<seq<byte>>): (k: nat)
    ensures k <= |frames| && forall i | 0 <= i < k :: frames[i] == Beat(id)
    ensures k < |frames| ==> frames[k] != Beat(id)
  {
    if frames == [] || frames[0] != Beat(id) then 0 else
      var k := 1 + Leading(id, frames[1..]);
      assert forall i | 1 <= i < k :: frames[i] == frames[1..][i - 1];
      k
  }

  class Watchdog {
    const enclaveID: Uuid
    const interval: int
    var deadline: int       // when the shared ticker next fires

    constructor (id: Uuid, interval: int, now: int)
      requires id != NIL && interval > 0
      ensures enclaveID == id && this.interval == interval && deadline == now + interval
    {
      enclaveID, this.interval, deadline := id, interval, now + interval;
    }

    /**
      Reads frames until the connection ends, the context is done, or a frame is not the heartbeat of this ID.
      A mismatch is reported exactly when a foreign frame is read before the context is found done, with the
      ID that frame carries; a read that finds it done and returns nothing panics. Each heartbeat before that,
      and nothing else, puts the ticker one interval ahead of `clock`, which tells when each frame is handled.
     */
    method HandleConn(conn: Inbound, clock: seq<int>, cancelled: Cancellation) returns (end: LoopEnd)
      requires enclaveID != NIL && |clock| >= |FeedAll(IDLE, conn.chunks).frames|
      modifies this`deadline, conn
      ensures var frames := FeedAll(IDLE, old(conn.chunks)).frames;
              var k := Leading(enclaveID, frames);
              var done := cancelled.At? && cancelled.read <= k;
              var resets := if done then cancelled.read else k;
              && (end.Mismatch? <==> !done && k < |frames|)
              && (end.Mismatch? ==>
                    if |frames[k]| == 17 then end.got + [NL] == frames[k] else end.got == NIL)
              && (end.Panics? <==> done && cancelled.nothing)
              && deadline == if resets == 0 then old(deadline) else clock[resets - 1] + interval
    {
      hide NextCall, Carried, Plain, FeedAll;
      ghost var all := Judge(enclaveID, conn.chunks);
      VerdictOnStream(enclaveID, conn.chunks);
      var k := 0;
      while true
        invariant k + Judge(enclaveID, conn.chunks).accepted == all.accepted
        invariant Judge(enclaveID, conn.chunks).mismatch == all.mismatch
        invariant deadline == if k == 0 then old(deadline) else clock[k - 1] + interval
        invariant cancelled.At? ==> k <= cancelled.read
        decreases |conn.chunks|
      {
        var data, err := [], false;
        if cancelled.At? && cancelled.read == k {
          err := !cancelled.nothing;
        } else {
          data, err := ReadBytes(conn);
        }
        if err {
          return Closed;
        }
        if |data| == 0 {
          return Panics;
        }
        if Carried(data) != enclaveID {
          return Mismatch(Carried(data));
        }
        deadline := clock[k] + interval;
        k := k + 1;
      }
    }
  }

  datatype New = Made(w: Watchdog) | EnclaveIdRequired | TickerPanics

  /** The nil ID is refused, and a ticker needs a positive period. */
  method NewWatchdog(id: Uuid, interval: int, now: int) returns (r: New)
    ensures r.EnclaveIdRequired? <==> id == NIL
    ensures r.TickerPanics? <==> id != NIL && interval <= 0
    ensures r.Made? ==>
              fresh(r.w) && r.w.enclaveID == id && r.w.interval == interval && r.w.deadline == now + interval
  {
    if id == NIL {
      return EnclaveIdRequired;
    }
    if interval <= 0 {
      return TickerPanics;
    }
    var w := new Watchdog(id, interval, now);
    return Made(w);
  }

  /** What a frame carries: its bytes before the delimiter, when those are 16, and otherwise the nil ID. */
  lemma CarriedIs(f: seq<byte>)
    requires IsFrame(f)
    ensures if |f| == 17 then Carried(f) + [NL] == f else Carried(f) == NIL
  {}

  /**
    The loop's verdict is about the frames that fresh readers return: it accepts the leading ones that
    are the heartbeat itself, reports the first that is not, and resets the ticker for no other.
   */
  lemma {:induction false} VerdictIsAboutFrames(id: Uuid, r: Reader, chunks: seq<seq<byte>>)
    requires id != NIL && r.Valid() && r.buf == []
    ensures var all, n, v := FeedAll(r, chunks).frames, |r.frames|, Judge(id, chunks);
            && n + v.accepted <= |all|
            && (forall i | n <= i < n + v.accepted :: all[i] == Beat(id))
            && (v.mismatch == None <==> n + v.accepted == |all|)
            && (v.mismatch.Some? ==>
                  var f := all[n + v.accepted]; f != Beat(id) && |f| > 0 && v.mismatch.value == Carried(f))
    decreases |chunks|
  {
    hide Accepts, Carried, FeedAll, Heartbeats.Beat, NextCall, Reader.Valid;
    CallsAreTheFold(r, chunks);
    var call := NextCall([], chunks);
    if call.Frame? {
      var next := Reader([], r.frames + [call.data], r.spills + [call.spill]);
      FramesGrow(next, call.rest);
      assert FeedAll(r, chunks).frames[|r.frames|] == call.data;
      AcceptedIff(id, call.data);
      if Accepts(id, call.data) {
        VerdictIsAboutFrames(id, next, call.rest);
      }
    }
  }

  lemma LeadingIs(id: Uuid, frames: seq<seq<byte>>, k: nat)
    requires k <= |frames| && (forall i | 0 <= i < k :: frames[i] == Beat(id))
    requires k < |frames| ==> frames[k] != Beat(id)
    ensures Leading(id, frames) == k
  {}

  lemma VerdictOnStream(id: Uuid, chunks: seq<seq<byte>>)
    requires id != NIL
    ensures var frames, v := FeedAll(IDLE, chunks).frames, Judge(id, chunks);
            var k := Leading(id, frames);
            && v.accepted == k && (v.mismatch.Some? <==> k < |frames|)
            && (v.mismatch.Some? ==>
                  if |frames[k]| == 17 then v.mismatch.value + [NL] == frames[k] else v.mismatch.value == NIL)
  {
    hide FeedAll, Judge, Carried, Heartbeats.Beat;
    var frames, v := FeedAll(IDLE, chunks).frames, Judge(id, chunks);
    VerdictIsAboutFrames(id, IDLE, chunks);
    LeadingIs(id, frames, v.accepted);
    if v.mismatch.Some? {
      CarriedIs(frames[v.accepted]);
    }
  }

  // ------------------------------------------------------------------------------------------
  // The event loop against any number of read loops
  // ------------------------------------------------------------------------------------------

  /** What startTicker returns, and when. */
  datatype Outcome = Cancelled(at: int) | TimedOut(at: int) | Mismatched(got: Uuid)

  datatype Handled = Handled(conn: nat, frame: seq<byte>, time: int)

  datatype State = State(
    id: Uuid,
    interval: int,
    start: int,                 // when startTicker reset the ticker
    now: int,
    deadline: int,
    cancelled: bool,
    ended: set<nat>,            // connections whose read loop has returned
    senders: seq<Uuid>,         // read loops blocked on the error channel, with what they send
    handled: seq<Handled>,      // every frame any read loop has judged
    received: nat,              // how often the event loop received a mismatch
    outcome: Option<Outcome>)

  datatype Move =
    | Wait(d: nat)
    | Hear(conn: nat, frame: seq<byte>)   // a read loop judges a frame
    | Drop(conn: nat)                      // a read loop ends on an error
    | Cancel
    | SelectDone | SelectTick | SelectErr(i: nat)

  function Start(id: Uuid, interval: int, now: int): State {
    State(id, interval, now, now, now + interval, false, {}, [], [], 0, None)
  }

  predicate Enabled(s: State, m: Move) {
    match m
    case Wait(_) => true
    case Hear(c, f) => c !in s.ended && IsFrame(f)
    case Drop(_) => true
    case Cancel => true
    case SelectDone => s.outcome.None? && s.cancelled
    case SelectTick => s.outcome.None? && s.now >= s.deadline
    case SelectErr(i) => s.outcome.None? && i < |s.senders|
  }

  function Apply(s: State, m: Move): State
    requires Enabled(s, m)
  {
    match m
    case Wait(d) => s.(now := s.now + d)
    case Hear(c, f) =>
      var t := s.(handled := s.handled + [Handled(c, f, s.now)]);
      if Accepts(s.id, f) then t.(deadline := s.now + s.interval)
      else t.(senders := s.senders + [Carried(f)], ended := s.ended + {c})
    case Drop(c) => s.(ended := s.ended + {c})
    case Cancel => s.(cancelled := true)
    case SelectDone => s.(outcome := Some(Cancelled(s.now)))
    case SelectTick => s.(outcome := Some(TimedOut(s.now)))
    case SelectErr(i) =>
      s.(outcome := Some(Mismatched(s.senders[i])), received := s.received + 1,
         senders := s.senders[..i] + s.senders[i + 1..])
  }

  ghost predicate Run(s: State, ms: seq<Move>, t: State)
    decreases ms
  {
    if ms == [] then s == t else Enabled(s, ms[0]) && Run(Apply(s, ms[0]), ms[1..], t)
  }

  /** The frame was read and does not carry the ID. */
  ghost predicate Foreign(s: State, got: Uuid) {
    exists i :: 0 <= i < |s.handled| && IsFrame(s.handled[i].frame) && Strays(s, i)
                && got == Carried(s.handled[i].frame)
  }

  predicate Strays(s: State, i: nat)
    requires i < |s.handled| && IsFrame(s.handled[i].frame)
  {
    !Accepts(s.id, s.handled[i].frame)
  }

  /** Whether the i-th judged frame put the ticker forward. */
  predicate Reset(s: State, i: nat)
    requires i < |s.handled|
  {
    Accepts(s.id, s.handled[i].frame)
  }

  /** The deadline is one interval after the last reset, and no reset lies in the future. */
  ghost predicate DeadlineInv(s: State) {
    && s.interval > 0 && s.start <= s.now
    && s.deadline <= s.now + s.interval
    && s.start + s.interval <= s.deadline
    && (forall i | 0 <= i < |s.handled| :: s.handled[i].time <= s.now)
    && (forall i | 0 <= i < |s.handled| && Reset(s, i) :: s.handled[i].time + s.interval <= s.deadline)
  }

  ghost predicate SendersInv(s: State) {
    forall k | 0 <= k < |s.senders| :: Foreign(s, s.senders[k])
  }

  ghost predicate OutcomeInv(s: State) {
    && (s.outcome.None? ==> s.received == 0)
    && s.received <= 1
    && match s.outcome
       case None => true
       case Some(Cancelled(_)) => s.cancelled && s.received == 0
       case Some(TimedOut(t)) => s.start + s.interval <= t && s.received == 0
       case Some(Mismatched(got)) => Foreign(s, got)
  }

  ghost predicate Inv(s: State) {
    DeadlineInv(s) && SendersInv(s) && OutcomeInv(s)
  }

  /** More judged frames never unmake a foreign one. */
  lemma ForeignStays(s: State, t: State, got: Uuid)
    requires s.handled <= t.handled && s.id == t.id && Foreign(s, got)
    ensures Foreign(t, got)
  {
    var i :| 0 <= i < |s.handled| && IsFrame(s.handled[i].frame) && Strays(s, i) && got == Carried(s.handled[i].frame);
    assert t.handled[i] == s.handled[i];
    assert Strays(t, i);
  }

  lemma SendersStep(s: State, m: Move)
    requires Enabled(s, m) && SendersInv(s)
    ensures SendersInv(Apply(s, m))
  {
    var t := Apply(s, m);
    forall k | 0 <= k < |t.senders| ensures Foreign(t, t.senders[k]) {
      match m
      case Hear(c, f) =>
        if k < |s.senders| {
          ForeignStays(s, t, s.senders[k]);
        } else {
          assert Strays(t, |s.handled|);
        }
      case SelectErr(i) =>
        var j := if k < i then k else k + 1;
        ForeignStays(s, t, s.senders[j]);
      case _ =>
        ForeignStays(s, t, s.senders[k]);
    }
  }

  lemma OutcomeStep(s: State, m: Move)
    requires Enabled(s, m) && Inv(s)
    ensures OutcomeInv(Apply(s, m))
  {
    var t := Apply(s, m);
    if s.outcome.Some? && s.outcome.value.Mismatched? {
      ForeignStays(s, t, s.outcome.value.got);
    }
    match m
    case SelectErr(i) => ForeignStays(s, t, s.senders[i]);
    case _ =>
  }

  lemma DeadlineStep(s: State, m: Move)
    requires Enabled(s, m) && DeadlineInv(s)
    ensures DeadlineInv(Apply(s, m))
  {
    var t := Apply(s, m);
    forall i | 0 <= i < |t.handled| && Reset(t, i) ensures t.handled[i].time + t.interval <= t.deadline {
      if i < |s.handled| {
        assert Reset(s, i);
      }
    }
  }

  lemma {:induction false} RunKeepsInv(s: State, ms: seq<Move>, t: State)
    requires Inv(s) && Run(s, ms, t)
    ensures Inv(t) && t.id == s.id && t.interval == s.interval && t.start == s.start && s.handled <= t.handled
    decreases ms
  {
    if ms != [] {
      DeadlineStep(s, ms[0]);
      SendersStep(s, ms[0]);
      OutcomeStep(s, ms[0]);
      RunKeepsInv(Apply(s, ms[0]), ms[1..], t);
    }
  }

  /** The outcome, once there, is never replaced, and no further mismatch is received. */
  lemma {:induction false} OutcomeIsFinal(s: State, ms: seq<Move>, t: State)
    requires s.outcome.Some? && Run(s, ms, t)
    ensures t.outcome == s.outcome && t.received == s.received
    decreases ms
  {
    if ms != [] {
      OutcomeIsFinal(Apply(s, ms[0]), ms[1..], t);
    }
  }

  /**
    What each outcome means, in every run: cancellation was asked for; or some connection read a frame
    that is not the ID; at most one mismatch is ever received.
   */
  lemma OutcomeIsSound(id: Uuid, interval: int, now: int, ms: seq<Move>, t: State)
    requires interval > 0 && Run(Start(id, interval, now), ms, t)
    ensures t.received <= 1
    ensures t.outcome.Some? && t.outcome.value.Cancelled? ==> t.cancelled
    ensures t.outcome.Some? && t.outcome.value.Mismatched? ==> t.received == 1 && Foreign(t, t.outcome.value.got)
  {
    RunKeepsInv(Start(id, interval, now), ms, t);
    MismatchIsReceived(Start(id, interval, now), ms, t);
  }

  lemma {:induction false} MismatchIsReceived(s: State, ms: seq<Move>, t: State)
    requires Run(s, ms, t)
    requires s.outcome.None? ==> s.received == 0
    requires s.outcome.Some? && s.outcome.value.Mismatched? ==> s.received == 1
    ensures t.outcome.Some? && t.outcome.value.Mismatched? ==> t.received == 1
    decreases ms
  {
    if ms != [] {
      MismatchIsReceived(Apply(s, ms[0]), ms[1..], t);
    }
  }

  /**
    A timeout at time t means that one whole interval had passed since the ticker was started and since
    every heartbeat accepted before it, on whatever connection.
   */
  lemma TimeoutMeansSilence(id: Uuid, interval: int, now: int, ms: seq<Move>, s: State, t: State)
    requires interval > 0 && Run(Start(id, interval, now), ms, s)
    requires Enabled(s, SelectTick) && t == Apply(s, SelectTick)
    ensures t.outcome == Some(TimedOut(s.now)) && now + interval <= s.now
    ensures forall i | 0 <= i < |s.handled| && Reset(s, i) :: s.handled[i].time + interval <= s.now
  {
    RunKeepsInv(Start(id, interval, now), ms, s);
  }

  /** No heartbeat of the ID is read in the run. */
  ghost predicate Silent(id: Uuid, ms: seq<Move>) {
    forall c :: Hear(c, Heartbeats.Beat(id)) !in ms
  }

  lemma {:induction false} SilenceMovesNothing(s: State, ms: seq<Move>, t: State)
    requires s.id != NIL && Run(s, ms, t) && Silent(s.id, ms)
    ensures t.deadline == s.deadline && t.interval == s.interval
    decreases ms
  {
    hide Accepts, Heartbeats.Beat;
    if ms != [] {
      assert ms[0] in ms;
      if ms[0].Hear? {
        AcceptedIff(s.id, ms[0].frame);
      }
      assert forall m | m in ms[1..] :: m in ms;
      SilenceMovesNothing(Apply(s, ms[0]), ms[1..], t);
    }
  }

  /**
    Exactly when the event loop can time out: until the first heartbeat on any connection, when an interval
    has passed since the start; after it, when one has passed since the last. And an interval in which
    nothing happens always is enough.
   */
  lemma TimesOutIff(id: Uuid, interval: int, now: int, ms: seq<Move>, s: State, c: nat, ns: seq<Move>, t: State)
    requires id != NIL && interval > 0 && Run(Start(id, interval, now), ms, s)
    ensures Silent(id, ms) ==> (Enabled(s, SelectTick) <==> s.outcome.None? && now + interval <= s.now)
    ensures var beat := Hear(c, Heartbeats.Beat(id));
            Enabled(s, beat) && Run(Apply(s, beat), ns, t) && Silent(id, ns) ==>
              (Enabled(t, SelectTick) <==> t.outcome.None? && s.now + interval <= t.now)
    ensures s.outcome.None? ==>
              var u := Apply(s, Wait(interval));
              Enabled(u, SelectTick) && Apply(u, SelectTick).outcome == Some(TimedOut(s.now + interval))
  {
    hide Accepts, Heartbeats.Beat, Silent, Run, Inv, Apply, Enabled;
    RunReports(id, interval, now, ms, s);
    AnIntervalIsEnough(s);
    if Silent(id, ms) {
      SilentTicks(Start(id, interval, now), ms, s);
    }
    var beat := Hear(c, Heartbeats.Beat(id));
    if Enabled(s, beat) && Run(Apply(s, beat), ns, t) && Silent(id, ns) {
      BeatMoves(s, c);
      SilentTicks(Apply(s, beat), ns, t);
    }
  }

  lemma SilentTicks(s: State, ms: seq<Move>, t: State)
    requires s.id != NIL && Run(s, ms, t) && Silent(s.id, ms)
    ensures Enabled(t, SelectTick) <==> t.outcome.None? && s.deadline <= t.now
  {
    hide Run, Silent;
    SilenceMovesNothing(s, ms, t);
  }

  lemma AnIntervalIsEnough(s: State)
    requires Inv(s)
    ensures s.outcome.None? ==>
              var u := Apply(s, Wait(s.interval));
              Enabled(u, SelectTick) && Apply(u, SelectTick).outcome == Some(TimedOut(s.now + s.interval))
  {
    hide SendersInv, OutcomeInv;
  }

  lemma BeatMoves(s: State, c: nat)
    requires s.id != NIL && Enabled(s, Hear(c, Heartbeats.Beat(s.id)))
    ensures var t := Apply(s, Hear(c, Heartbeats.Beat(s.id)));
            t.deadline == s.now + s.interval && t.id == s.id && t.interval == s.interval
  {
    hide Accepts;
    AcceptedIff(s.id, Heartbeats.Beat(s.id));
  }

  /** Whether this frame has been judged on this connection. */
  ghost predicate WasHandled(s: State, c: nat, f: seq<byte>) {
    exists i :: 0 <= i < |s.handled| && s.handled[i].conn == c && s.handled[i].frame == f
  }

  lemma HandledStep(s: State, m: Move, c: nat, f: seq<byte>)
    requires Enabled(s, m)
    ensures WasHandled(Apply(s, m), c, f) <==> WasHandled(s, c, f) || m == Hear(c, f)
  {
    hide Accepts;
    var t := Apply(s, m);
    if i :| 0 <= i < |s.handled| && s.handled[i].conn == c && s.handled[i].frame == f {
      assert t.handled[i] == s.handled[i];
    } else if m == Hear(c, f) {
      assert t.handled[|s.handled|].frame == f;
    }
  }

  lemma {:induction false} HandledAre(s: State, ms: seq<Move>, t: State, c: nat, f: seq<byte>)
    requires Run(s, ms, t)
    ensures WasHandled(t, c, f) <==> WasHandled(s, c, f) || Hear(c, f) in ms
    decreases ms
  {
    hide Apply, Enabled, WasHandled;
    if ms != [] {
      HandledStep(s, ms[0], c, f);
      HandledAre(Apply(s, ms[0]), ms[1..], t, c, f);
      assert ms == [ms[0]] + ms[1..];
    }
  }

  /** Some foreign frame has been judged. */
  ghost predicate SomeForeign(s: State) {
    exists i :: 0 <= i < |s.handled| && IsFrame(s.handled[i].frame) && Strays(s, i)
  }

  /** Until the event loop has returned, a foreign frame leaves a sender; and always, a connection that is over. */
  ghost predicate ReportInv(s: State) {
    && (forall i | 0 <= i < |s.handled| :: IsFrame(s.handled[i].frame))
    && (forall i | 0 <= i < |s.handled| && Strays(s, i) :: s.handled[i].conn in s.ended)
    && (s.outcome.None? && SomeForeign(s) ==> |s.senders| > 0)
  }

  lemma ReportStep(s: State, m: Move)
    requires Enabled(s, m) && ReportInv(s)
    ensures ReportInv(Apply(s, m))
  {
    hide Accepts, IsFrame;
    var t := Apply(s, m);
    forall i | 0 <= i < |t.handled| && Strays(t, i) ensures t.handled[i].conn in t.ended {
      assert i < |s.handled| ==> Strays(s, i);
    }
    if t.outcome.None? && SomeForeign(t) {
      var i :| 0 <= i < |t.handled| && IsFrame(t.handled[i].frame) && Strays(t, i);
      assert i < |s.handled| ==> Strays(s, i);
    }
  }

  lemma {:induction false} RunKeepsReport(s: State, ms: seq<Move>, t: State)
    requires ReportInv(s) && Run(s, ms, t)
    ensures ReportInv(t) && (t.cancelled <==> s.cancelled || Cancel in ms)
    decreases ms
  {
    hide ReportInv;
    if ms != [] {
      ReportStep(s, ms[0]);
      RunKeepsReport(Apply(s, ms[0]), ms[1..], t);
      assert ms == [ms[0]] + ms[1..];
    }
  }

  /** In the run a frame was read that is not the heartbeat, and this is the ID it carries. */
  ghost predicate Strayed(id: Uuid, ms: seq<Move>, got: Uuid) {
    exists c: nat, f :: Hear(c, f) in ms && f != Heartbeats.Beat(id)
                   && if |f| == 17 then got + [NL] == f else got == NIL
  }

  lemma ForeignWasRead(id: Uuid, interval: int, now: int, ms: seq<Move>, t: State, got: Uuid)
    requires id != NIL && interval > 0 && Run(Start(id, interval, now), ms, t) && Foreign(t, got)
    ensures Strayed(id, ms, got)
  {
    hide Accepts, Carried, Heartbeats.Beat;
    RunKeepsInv(Start(id, interval, now), ms, t);
    var i :| 0 <= i < |t.handled| && IsFrame(t.handled[i].frame) && Strays(t, i) && got == Carried(t.handled[i].frame);
    var f := t.handled[i].frame;
    CarriedIs(f);
    AcceptedIff(id, f);
    HandledAre(Start(id, interval, now), ms, t, t.handled[i].conn, f);
    assert WasHandled(t, t.handled[i].conn, f);
  }

  /**
    A frame that is not the heartbeat is fatal, in every run. Until the event loop has returned, it can receive
    a report exactly when such a frame has been read on some connection; whatever it receives is the ID that
    one of them carries, and ends it; and a connection on which one was read is read no more.
   */
  lemma MismatchTearsDown(id: Uuid, interval: int, now: int, ms: seq<Move>, t: State)
    requires id != NIL && interval > 0 && Run(Start(id, interval, now), ms, t)
    ensures t.outcome.None? ==>
              ((exists i: nat :: Enabled(t, SelectErr(i))) <==>
                 exists c: nat, f :: Hear(c, f) in ms && f != Heartbeats.Beat(id))
    ensures forall i: nat | Enabled(t, SelectErr(i)) ::
              exists got :: Strayed(id, ms, got) && Apply(t, SelectErr(i)).outcome == Some(Mismatched(got))
    ensures forall c: nat, f, g | Hear(c, f) in ms && f != Heartbeats.Beat(id) :: !Enabled(t, Hear(c, g))
    ensures t.outcome.None? ==> (Enabled(t, SelectDone) <==> Cancel in ms)
    ensures Enabled(t, SelectDone) ==> Apply(t, SelectDone).outcome == Some(Cancelled(t.now))
  {
    hide Run, Accepts, IsFrame, Heartbeats.Beat, Strayed, Inv, ReportInv;
    RunReports(id, interval, now, ms, t);
    if t.outcome.None? {
      if c: nat, f :| Hear(c, f) in ms && f != Heartbeats.Beat(id) {
        ForeignLeavesSender(id, interval, now, ms, t, c, f);
        assert Enabled(t, SelectErr(0));
      }
      if i: nat :| Enabled(t, SelectErr(i)) {
        SenderIsForeign(t, i);
        ForeignWasRead(id, interval, now, ms, t, t.senders[i]);
        SomeoneStrayed(id, ms, t.senders[i]);
      }
    }
    forall i: nat | Enabled(t, SelectErr(i))
      ensures exists got :: Strayed(id, ms, got) && Apply(t, SelectErr(i)).outcome == Some(Mismatched(got))
    {
      SenderIsForeign(t, i);
      ForeignWasRead(id, interval, now, ms, t, t.senders[i]);
    }
    forall c: nat, f, g | Hear(c, f) in ms && f != Heartbeats.Beat(id) ensures !Enabled(t, Hear(c, g)) {
      ForeignLeavesSender(id, interval, now, ms, t, c, f);
    }
  }

  lemma SomeoneStrayed(id: Uuid, ms: seq<Move>, got: Uuid)
    requires Strayed(id, ms, got)
    ensures exists c: nat, f :: Hear(c, f) in ms && f != Heartbeats.Beat(id)
  {
    hide Heartbeats.Beat;
  }

  lemma RunReports(id: Uuid, interval: int, now: int, ms: seq<Move>, t: State)
    requires interval > 0 && Run(Start(id, interval, now), ms, t)
    ensures Inv(t) && ReportInv(t) && t.id == id && t.interval == interval && (t.cancelled <==> Cancel in ms)
  {
    hide Run;
    RunKeepsInv(Start(id, interval, now), ms, t);
    RunKeepsReport(Start(id, interval, now), ms, t);
  }

  lemma SenderIsForeign(s: State, i: nat)
    requires Inv(s) && i < |s.senders|
    ensures Foreign(s, s.senders[i])
  {}

  lemma ForeignLeavesSender(id: Uuid, interval: int, now: int, ms: seq<Move>, t: State, c: nat, f: seq<byte>)
    requires id != NIL && interval > 0 && Run(Start(id, interval, now), ms, t)
    requires Hear(c, f) in ms && f != Heartbeats.Beat(id)
    ensures c in t.ended && (t.outcome.None? ==> |t.senders| > 0)
  {
    hide Run, Accepts, Heartbeats.Beat;
    var s := Start(id, interval, now);
    RunKeepsInv(s, ms, t);
    RunKeepsReport(s, ms, t);
    HandledAre(s, ms, t, c, f);
    var i :| 0 <= i < |t.handled| && t.handled[i].conn == c && t.handled[i].frame == f;
    AcceptedIff(id, f);
    assert Strays(t, i);
  }

  /** The ACK that opens a handshake is a foreign frame to every watchdog that can be made. */
  lemma AckIsForeign(id: Uuid)
    requires id != NIL
    ensures !Accepts(id, ACK)
  {
    AcceptedIff(id, ACK);
  }
}
