/** What holds in every state that enclaves and bridges can reach, however often they restart. */
module PairingTheorems {
  import opened Options
  import opened Streams
  import opened Heartbeats
  import opened Settings
  import opened Pairing
  import opened PairingPipes
  import opened PairingInvariant
  import opened PairingSteps
  import BridgeRun
  import Environment

  ghost predicate Run(s: State, ms: seq<Move>, t: State)
    decreases ms
  {
    if ms == [] then s == t
    else Wired(s) && Enabled(s, ms[0]) && Run(Apply(s, ms[0]), ms[1..], t)
  }

  ghost predicate Reachable(s: State) {
    exists ms :: Run(INIT, ms, s)
  }

  lemma KeepInv(s: State, m: Move)
    requires Inv(s) && Enabled(s, m)
    ensures Inv(Apply(s, m))
  {
    hide *;
    match m
    case NewEnclave(settings) => KeepNewEnclave(s, settings);
    case NewBridge(host, env, levels) => KeepNewBridge(s, host, env, levels);
    case Dial(e, b) => KeepDial(s, e, b);
    case EWrite(c) => KeepEWrite(s, c);
    case ETake(c, n) => KeepETake(s, c, n);
    case EQuit(c) => KeepEQuit(s, c);
    case Accept(c) => KeepAccept(s, c);
    case BTake(c, n) => KeepBTake(s, c, n);
    case BWrite(c) => KeepBWrite(s, c);
    case Submit(b) => KeepSubmit(s, b);
    case Refuse(b) => KeepRefuse(s, b);
    case TearDown(b) => KeepTearDown(s, b);
    case WatchAccept(c) => KeepWatchAccept(s, c);
    case WatchTake(c, n) => KeepWatchTake(s, c, n);
    case WatchBeat(c) => KeepWatchBeat(s, c);
    case Redial(e, b) => KeepRedial(s, e, b);
    case Beat(c) => KeepBeat(s, c);
    case BeatTake(c, n) => KeepBeatTake(s, c, n);
    case EnclaveDies(e) => KeepEnclaveDies(s, e);
    case BridgeDies(b) => KeepBridgeDies(s, b);
  }

  lemma {:induction false} RunKeepsInv(s: State, ms: seq<Move>, t: State)
    requires Inv(s) && Run(s, ms, t)
    ensures Inv(t)
    decreases ms
  {
    hide Inv, Apply, Enabled;
    if ms != [] {
      KeepInv(s, ms[0]);
      RunKeepsInv(Apply(s, ms[0]), ms[1..], t);
    }
  }

  lemma ReachableInv(s: State)
    requires Reachable(s)
    ensures Inv(s)
  {
    var ms :| Run(INIT, ms, s);
    RunKeepsInv(INIT, ms, s);
  }

  // ------------------------------------------------------------------------------------------
  // Who is paired with whom
  // ------------------------------------------------------------------------------------------

  /** The bridge read the settings on this connection, which an enclave opened for its handshake. */
  ghost predicate Configured(s: State, c: nat)
    requires Wired(s)
  {
    c < |s.conns| && s.conns[c].br == 2 && s.conns[c].use.Shake?
  }

  /** What the invariant says of such a connection. */
  lemma ConfiguredFacts(s: State, c: nat)
    requires Wired(s) && Inv(s) && Configured(s, c)
    ensures s.conns[c].role.Paired? && s.conns[c].ew == 2
    ensures BriOf(s, c).cfg == Some(EncOf(s, c).settings) && BriOf(s, c).home == Some(c)
    ensures EncOf(s, c).committed == Some(c)
  {
    hide BridgeOk, EnclaveOk, CanWatch, BeatConn;
    assert ConnOk(c, s.conns[c], EncOf(s, c), BriOf(s, c));
    ConfiguredShake(s.conns[c], EncOf(s, c).settings, BriOf(s, c));
  }

  lemma ConfiguredShake(k: Conn, settings: BridgeSettings, b: Bridge)
    requires ShakeConn(k, settings, b) && k.br == 2
    ensures k.role.Paired? && k.ew == 2
  {
    hide BeatPipe, Said, ConfigFrame, EnvFrame;
  }

  /** A bridge whose settings name an ID read them on a handshake connection, the one it accepted first. */
  lemma HomeConfigured(s: State, b: nat)
    requires Wired(s) && Inv(s) && b < |s.bridges| && s.bridges[b].cfg.Some? && s.bridges[b].cfg.value.enclaveId != NIL
    ensures s.bridges[b].home.Some? && Configured(s, s.bridges[b].home.value)
    ensures s.conns[s.bridges[b].home.value].bri == b
  {
    hide EnclaveOk, ShakeConn, BeatConn, CanWatch;
    assert BridgeOk(s, b);
    var c := s.bridges[b].home.value;
    assert ConnOk(c, s.conns[c], EncOf(s, c), BriOf(s, c));
  }

  /** No enclave configures two bridges, and no bridge is configured twice. */
  lemma OnePartnerEach(s: State, c: nat, d: nat)
    requires Reachable(s) && Wired(s) && Configured(s, c) && Configured(s, d)
    ensures s.conns[c].enc == s.conns[d].enc || s.conns[c].bri == s.conns[d].bri ==> c == d
  {
    hide Reachable, Inv;
    ReachableInv(s);
    ConfiguredFacts(s, c);
    ConfiguredFacts(s, d);
  }

  // ------------------------------------------------------------------------------------------
  // Incarnation fencing
  // ------------------------------------------------------------------------------------------

  /** At most one enclave ever drew this ID. */
  predicate DrawnOnce(s: State, id: Uuid) {
    forall i, j | 0 <= i < |s.enclaves| && 0 <= j < |s.enclaves|
                  && s.enclaves[i].settings.enclaveId == s.enclaves[j].settings.enclaveId == id :: i == j
  }

  /**
    Whatever ever reset a bridge's watchdog came from an enclave with the ID in the bridge's settings, which
    it had read from a handshake. If that ID was drawn only once, it came from the very enclave that
    configured this bridge: not from an earlier or later incarnation of it, nor from another enclave.
   */
  lemma OnlyItsEnclaveKeepsABridgeAlive(s: State, b: nat, i: nat)
    requires Reachable(s) && b < |s.bridges| && i < |s.bridges[b].resets|
    ensures Wired(s) && s.bridges[b].cfg.Some? && s.bridges[b].home.Some?
    ensures var r, home, id := s.bridges[b].resets[i], s.bridges[b].home.value, s.bridges[b].cfg.value.enclaveId;
            && r < |s.conns| && s.conns[r].bri == b && s.conns[r].use.Beats?
            && EncOf(s, r).settings.enclaveId == id
            && Configured(s, home) && s.conns[home].bri == b && EncOf(s, home).settings.enclaveId == id
            && (DrawnOnce(s, id) ==> s.conns[r].enc == s.conns[home].enc)
  {
    hide Reachable;
    ReachableInv(s);
    ResetFacts(s, b, i);
    hide Inv, DrawnOnce;
    HomeConfigured(s, b);
    ConfiguredFacts(s, s.bridges[b].home.value);
    SameIdSameEnclave(s, s.conns[s.bridges[b].resets[i]].enc, s.conns[s.bridges[b].home.value].enc);
  }

  lemma SameIdSameEnclave(s: State, i: nat, j: nat)
    requires i < |s.enclaves| && j < |s.enclaves|
    requires s.enclaves[i].settings.enclaveId == s.enclaves[j].settings.enclaveId
    ensures DrawnOnce(s, s.enclaves[i].settings.enclaveId) ==> i == j
  {}

  lemma ResetFacts(s: State, b: nat, i: nat)
    requires Inv(s) && b < |s.bridges| && i < |s.bridges[b].resets|
    ensures Wired(s) && s.bridges[b].cfg.Some? && s.bridges[b].cfg.value.enclaveId != NIL
    ensures var r := s.bridges[b].resets[i];
            && r < |s.conns| && s.conns[r].bri == b && s.conns[r].use.Beats?
            && EncOf(s, r).settings.enclaveId == s.bridges[b].cfg.value.enclaveId
  {
    hide ShakeConn, BeatConn, EnclaveOk;
    assert BridgeOk(s, b);
    var r := s.bridges[b].resets[i];
    assert ResetOk(s, b, r);
    assert ConnOk(r, s.conns[r], EncOf(s, r), BriOf(s, r));
  }

  /** ... and the other way: only the bridge an enclave configured ever reset the enclave's watchdog. */
  lemma OnlyItsBridgeKeepsAnEnclaveAlive(s: State, e: nat, i: nat)
    requires Reachable(s) && e < |s.enclaves| && i < |s.enclaves[e].resets|
    ensures Wired(s)
    ensures var r, id := s.enclaves[e].resets[i], s.enclaves[e].settings.enclaveId;
            && r < |s.conns| && s.conns[r].enc == e && s.conns[r].use.Beats?
            && BriOf(s, r).cfg.Some? && BriOf(s, r).cfg.value.enclaveId == id
            && (DrawnOnce(s, id) ==>
                  && s.enclaves[e].committed.Some?
                  && var c := s.enclaves[e].committed.value;
                     Configured(s, c) && s.conns[c].enc == e && s.conns[r].bri == s.conns[c].bri)
  {
    hide Reachable;
    ReachableInv(s);
    EchoFacts(s, e, i);
    hide Inv, DrawnOnce;
    var b := s.conns[s.enclaves[e].resets[i]].bri;
    HomeConfigured(s, b);
    var home := s.bridges[b].home.value;
    ConfiguredFacts(s, home);
    SameIdSameEnclave(s, e, s.conns[home].enc);
  }

  lemma EchoFacts(s: State, e: nat, i: nat)
    requires Inv(s) && e < |s.enclaves| && i < |s.enclaves[e].resets|
    ensures Wired(s) && s.enclaves[e].settings.enclaveId != NIL
    ensures var r := s.enclaves[e].resets[i];
            && r < |s.conns| && s.conns[r].enc == e && s.conns[r].use.Beats?
            && BriOf(s, r).cfg.Some? && BriOf(s, r).cfg.value.enclaveId == s.enclaves[e].settings.enclaveId
  {
    hide ShakeConn, BeatConn, BridgeOk;
    assert EnclaveOk(s, e);
    var r := s.enclaves[e].resets[i];
    assert EchoOk(s, e, r);
    assert ConnOk(r, s.conns[r], EncOf(s, r), BriOf(s, r));
  }

  /** The frame that the read of n bytes ends with. */
  function FrameRead(p: Pipe, n: nat): (f: seq<byte>)
    requires p.Valid() && p.at + n <= |p.log| && p.Completes(n)
    ensures IsFrame(f) && p.Take(n).rd.frames == p.rd.frames + [f]
  {
    Last(p.Take(n).rd.frames)
  }

  /**
    A bridge's deadline moves only on a complete frame that is the heartbeat of the ID in the bridge's
    settings, read by its watchdog: on every such frame, and in no other move of any process.
   */
  lemma ResetsOnlyOnItsHeartbeat(s: State, m: Move, b: nat)
    requires Reachable(s) && Wired(s) && Enabled(s, m) && b < |s.bridges|
    ensures b < |Apply(s, m).bridges|
    ensures Apply(s, m).bridges[b].resets != s.bridges[b].resets <==>
              && m.WatchTake? && s.conns[m.c].bri == b && s.conns[m.c].up.Completes(m.n)
              && FrameRead(s.conns[m.c].up, m.n) == Heartbeats.Beat(s.bridges[b].cfg.value.enclaveId)
  {
    hide Inv, Reachable, Apply, FrameRead;
    ReachableInv(s);
    if m.WatchTake? && s.conns[m.c].bri == b {
      WatchedId(s, b);
      WatchResets(s, m.c, m.n);
    } else {
      OthersDoNotReset(s, m, b);
    }
  }

  lemma WatchedId(s: State, b: nat)
    requires Wired(s) && Inv(s) && b < |s.bridges| && Watching(s.bridges[b])
    ensures s.bridges[b].cfg.value.enclaveId != NIL
  {
    hide ConnOk, EnclaveOk;
    assert BridgeOk(s, b);
  }

  lemma WatchResets(s: State, c: nat, n: nat)
    requires Wired(s) && Enabled(s, WatchTake(c, n)) && BriOf(s, c).cfg.value.enclaveId != NIL
    ensures var t, b := Apply(s, WatchTake(c, n)), s.conns[c].bri;
            var own := s.conns[c].up.Completes(n)
                       && FrameRead(s.conns[c].up, n) == Heartbeats.Beat(BriOf(s, c).cfg.value.enclaveId);
            && b < |t.bridges|
            && (t.bridges[b].resets != s.bridges[b].resets <==> own)
            && t.bridges[b].foreign == (s.bridges[b].foreign || (s.conns[c].up.Completes(n) && !own))
  {
    hide Pipe.Take, Pipe.Valid, Pipe.Completes, Accepts, Heartbeats.Beat, Members, CanWatch;
    if s.conns[c].up.Completes(n) {
      AcceptedIff(BriOf(s, c).cfg.value.enclaveId, FrameRead(s.conns[c].up, n));
    }
  }

  lemma OthersDoNotReset(s: State, m: Move, b: nat)
    requires Wired(s) && Enabled(s, m) && b < |s.bridges| && (m.WatchTake? ==> s.conns[m.c].bri != b)
    ensures b < |Apply(s, m).bridges|
    ensures Apply(s, m).bridges[b].resets == s.bridges[b].resets
    ensures Apply(s, m).bridges[b].foreign == s.bridges[b].foreign
  {
    hide Pipe.Take, Pipe.Write, Pipe.Valid, Pipe.Completes, Accepts, Heartbeats.Beat, CanWatch, MayBeJson, EnvFrame,
         ConfigFrame, Welcome, ParseConfig, Members;
  }

  /** The bridge is down, or the event loop can receive a report, with which it will be. */
  ghost predicate ComesDown(s: State, b: nat) {
    && Wired(s) && b < |s.bridges|
    && (s.bridges[b].phase.Down? || Enabled(s, TearDown(b)))
    && (Enabled(s, TearDown(b)) ==> Apply(s, TearDown(b)).bridges[b].phase.Down?)
  }

  /**
    A frame in a watchdog's read loop that is not the heartbeat of the bridge's own settings brings the
    bridge down: from then on, whatever happens, the event loop can receive the report, and once it has the
    bridge is down.
   */
  lemma ForeignFrameTearsDown(s: State, c: nat, n: nat, ms: seq<Move>, t: State)
    requires Reachable(s) && Wired(s) && Enabled(s, WatchTake(c, n)) && s.conns[c].up.Completes(n)
    requires FrameRead(s.conns[c].up, n) != Heartbeats.Beat(BriOf(s, c).cfg.value.enclaveId)
    requires Run(Apply(s, WatchTake(c, n)), ms, t)
    ensures ComesDown(t, s.conns[c].bri)
  {
    hide Reachable, Run, Inv, FrameRead, Watching, Pipe.Completes, ComesDown;
    ReachableInv(s);
    WatchingNow(s, c, n);
    WatchedId(s, s.conns[c].bri);
    WatchResets(s, c, n);
    KeepInv(s, WatchTake(c, n));
    hide Apply, Enabled;
    ReportStays(Apply(s, WatchTake(c, n)), s.conns[c].bri, ms, t);
  }

  lemma WatchingNow(s: State, c: nat, n: nat)
    requires Wired(s) && Enabled(s, WatchTake(c, n))
    ensures Watching(BriOf(s, c))
  {}

  lemma {:induction false} ReportStays(s: State, b: nat, ms: seq<Move>, t: State)
    requires Inv(s) && Run(s, ms, t) && b < |s.bridges| && s.bridges[b].foreign
    ensures ComesDown(t, b)
    decreases ms
  {
    if ms == [] {
      ReportWaits(s, b);
    } else {
      hide Inv, Enabled, Apply, ComesDown;
      KeepInv(s, ms[0]);
      ForeignStep(s, ms[0], b);
      ReportStays(Apply(s, ms[0]), b, ms[1..], t);
    }
  }

  lemma ReportWaits(s: State, b: nat)
    requires Inv(s) && b < |s.bridges| && s.bridges[b].foreign
    ensures ComesDown(s, b)
  {
    hide ConnOk, EnclaveOk, CanWatch;
    assert BridgeOk(s, b);
  }

  lemma ForeignStep(s: State, m: Move, b: nat)
    requires Wired(s) && Enabled(s, m) && b < |s.bridges| && s.bridges[b].foreign
    ensures b < |Apply(s, m).bridges| && Apply(s, m).bridges[b].foreign
  {
    if m.WatchTake? {
      hide Pipe.Take, Pipe.Valid, Pipe.Completes, Accepts, Heartbeats.Beat, Members, CanWatch;
    } else {
      hide Enabled, Apply;
      OthersDoNotReset(s, m, b);
    }
  }

  /**
    A restarted enclave whose handshake lands in a running bridge's watchdog never resets it: the first
    frame the read loop gets is foreign, ends that loop, and so brings the bridge down.
   */
  lemma RestartedEnclaveIsAMismatch(s: State, c: nat, n: nat)
    requires Reachable(s) && Wired(s) && c < |s.conns| && s.conns[c].use.Shake? && Enabled(s, WatchTake(c, n))
    ensures c !in BriOf(s, c).resets
    ensures s.conns[c].up.Completes(n) ==>
              && FrameRead(s.conns[c].up, n) == ACK != Heartbeats.Beat(BriOf(s, c).cfg.value.enclaveId)
              && Apply(s, WatchTake(c, n)).bridges == s.bridges[s.conns[c].bri := BriOf(s, c).(foreign := true)]
              && c < |Apply(s, WatchTake(c, n)).conns| && !Apply(s, WatchTake(c, n)).conns[c].bopen
  {
    hide Inv, Apply, Reachable, FrameRead, CanWatch, Members;
    ReachableInv(s);
    ResetsAreBeats(s, s.conns[c].bri, c);
    if s.conns[c].up.Completes(n) {
      FirstFrameIsAck(s, c, n);
      WatchedId(s, s.conns[c].bri);
      MismatchNow(s, c, n);
    }
  }

  lemma FirstFrameIsAck(s: State, c: nat, n: nat)
    requires Wired(s) && Inv(s) && Enabled(s, WatchTake(c, n)) && s.conns[c].use.Shake? && s.conns[c].up.Completes(n)
    ensures FrameRead(s.conns[c].up, n) == ACK && Watching(BriOf(s, c))
  {
    hide BridgeOk, EnclaveOk, BeatConn, BeatPipe, Said, ConfigFrame, EnvFrame, CanWatch, Pipe.Take, Pipe.Completes;
    assert ConnOk(c, s.conns[c], EncOf(s, c), BriOf(s, c));
    FirstSaidIsAck(s.conns[c].up, EncOf(s, c).settings, s.conns[c].ew, n);
  }

  lemma MismatchNow(s: State, c: nat, n: nat)
    requires Wired(s) && Enabled(s, WatchTake(c, n)) && s.conns[c].up.Completes(n)
    requires FrameRead(s.conns[c].up, n) == ACK && BriOf(s, c).cfg.value.enclaveId != NIL
    ensures ACK != Heartbeats.Beat(BriOf(s, c).cfg.value.enclaveId)
    ensures Apply(s, WatchTake(c, n)).bridges == s.bridges[s.conns[c].bri := BriOf(s, c).(foreign := true)]
    ensures c < |Apply(s, WatchTake(c, n)).conns| && !Apply(s, WatchTake(c, n)).conns[c].bopen
  {
    hide Pipe.Take, Pipe.Completes, Pipe.Valid, Accepts, Members, CanWatch;
    AcceptedIff(BriOf(s, c).cfg.value.enclaveId, ACK);
  }

  lemma ResetsAreBeats(s: State, b: nat, c: nat)
    requires Wired(s) && Inv(s) && b < |s.bridges| && c < |s.conns| && s.conns[c].use.Shake?
    ensures c !in s.bridges[b].resets
  {
    hide ConnOk, EnclaveOk, CanWatch;
    assert BridgeOk(s, b);
    forall i | 0 <= i < |s.bridges[b].resets| ensures s.bridges[b].resets[i] != c {
      assert ResetOk(s, b, s.bridges[b].resets[i]);
    }
  }

  /**
    A fresh bridge on a connection that carries heartbeats: it takes a step into the handshake if and only
    if the ID begins as a handshake does; for every other ID the first frame ends the bridge, and nothing has
    been said. What it takes for settings even then names no enclave, and so makes no watchdog.
   */
  lemma FreshBridgeRefusesHeartbeats(s: State, c: nat)
    requires Reachable(s) && Wired(s) && c < |s.conns| && s.conns[c].use.Beats? && s.conns[c].role.Paired?
    ensures !BeginsAck(EncOf(s, c).settings.enclaveId) ==>
              s.conns[c].br == 0 && s.conns[c].down.log == [] && BriOf(s, c).cfg.None?
    ensures BriOf(s, c).cfg.Some? ==> !CanWatch(BriOf(s, c).cfg.value)
    ensures forall n | Enabled(s, BTake(c, n)) && s.conns[c].br == 0 && s.conns[c].up.Completes(n) ::
              var t := Apply(s, BTake(c, n));
              s.conns[c].bri < |t.bridges|
              && (t.bridges[s.conns[c].bri].phase.Down? <==> !BeginsAck(EncOf(s, c).settings.enclaveId))
  {
    hide Reachable, Apply, ConnOk, BridgeOk, EnclaveOk, BeginsAck, CanWatch;
    ReachableInv(s);
    var k := s.conns[c];
    assert ConnOk(c, k, EncOf(s, c), BriOf(s, c));
    PairedBeats(c, k, EncOf(s, c), BriOf(s, c));
    HomeIsRead(s, k.bri, c);
    forall n | Enabled(s, BTake(c, n)) && k.br == 0 && k.up.Completes(n)
      ensures var t := Apply(s, BTake(c, n));
              k.bri < |t.bridges|
              && (t.bridges[k.bri].phase.Down? <==> !BeginsAck(EncOf(s, c).settings.enclaveId))
    {
      RefusedNow(s, c, n);
    }
  }

  lemma PairedBeats(c: nat, k: Conn, e: Enclave, b: Bridge)
    requires ConnOk(c, k, e, b) && k.use.Beats? && k.role.Paired?
    ensures !BeginsAck(e.settings.enclaveId) ==> k.br == 0 && k.down.log == []
    ensures k.br == 2 ==> b.cfg.Some? && !CanWatch(b.cfg.value)
    ensures b.home == Some(c)
  {
    hide BeatPipe, BeginsAck;
  }

  lemma HomeIsRead(s: State, b: nat, c: nat)
    requires Wired(s) && b < |s.bridges| && BridgeOk(s, b) && s.bridges[b].home == Some(c) && c < |s.conns|
    ensures s.bridges[b].cfg.Some? ==> s.conns[c].br == 2
  {}

  lemma RefusedNow(s: State, c: nat, n: nat)
    requires Wired(s) && Inv(s) && Enabled(s, BTake(c, n)) && s.conns[c].use.Beats? && s.conns[c].br == 0
    requires s.conns[c].up.Completes(n)
    ensures var t := Apply(s, BTake(c, n));
            s.conns[c].bri < |t.bridges|
            && (t.bridges[s.conns[c].bri].phase.Down? <==> !BeginsAck(EncOf(s, c).settings.enclaveId))
  {
    hide BeatPipe, BridgeOk, EnclaveOk, BeginsAck, CanWatch, Pipe.Take, Pipe.Completes, ParseConfig, AllStarted,
         ShakeConn, Apply;
    var k := s.conns[c];
    assert ConnOk(c, k, EncOf(s, c), BriOf(s, c));
    BTakeBeats(k, EncOf(s, c).settings.enclaveId, BriOf(s, c), n);
    BTakeApplied(s, c, n);
  }

  // ------------------------------------------------------------------------------------------
  // The handshake
  // ------------------------------------------------------------------------------------------

  /**
    Lock step: on a handshake connection frames go ACK, environment, settings, ACK; at most one is under
    way over both directions, so for any chunking the per-call buffered readers drop nothing.
   */
  lemma HandshakeIsLockStep(s: State, c: nat)
    requires Reachable(s) && Wired(s) && c < |s.conns| && s.conns[c].use.Shake? && s.conns[c].role.Paired?
    ensures var k := s.conns[c];
            && k.br <= k.ew <= k.er + 1 && k.er <= k.bw <= k.br
            && (k.ew - k.br) + (k.bw - k.er) <= 1
            && k.up.rd.LostNothing() && k.down.rd.LostNothing()
            && k.up.rd.frames == Heard(ACK, ConfigFrame(EncOf(s, c).settings), k.br)
            && k.down.rd.frames == Heard(EnvFrame(BriOf(s, c).env), ACK, k.er)
  {
    hide Reachable, Heard, ConfigFrame, EnvFrame, Said, BeatPipe, BridgeOk, EnclaveOk, CanWatch;
    ReachableInv(s);
    assert ConnOk(c, s.conns[c], EncOf(s, c), BriOf(s, c));
  }

  /**
    What is exchanged arrives: the bridge runs with exactly the settings of the enclave, and the
    environment the enclave parses is exactly the bridge's host's.
   */
  lemma HandshakeDelivers(s: State, c: nat)
    requires Reachable(s) && Wired(s) && c < |s.conns| && s.conns[c].use.Shake? && s.conns[c].role.Paired?
    ensures s.conns[c].br == 2 ==> BriOf(s, c).cfg == Some(EncOf(s, c).settings)
    ensures s.conns[c].er > 0 ==>
              && |s.conns[c].down.rd.frames| > 0
              && Environment.ParseEnv(s.conns[c].down.rd.frames[0]) == Some(BriOf(s, c).host)
  {
    HandshakeIsLockStep(s, c);
    hide Reachable, ConfigFrame, EnvFrame, ShakeConn, BeatConn, EnclaveOk, CanWatch;
    ReachableInv(s);
    assert ConnOk(c, s.conns[c], EncOf(s, c), BriOf(s, c));
    assert BridgeOk(s, s.conns[c].bri);
  }

  /**
    The setup signal is sound: an enclave told that the bridge is ready was told so by the bridge that took
    its handshake, which has its settings and has started every server tunnel, every client tunnel and the
    watchdog. A watchdog in which the handshake landed can say so in the bridge's place only if its
    heartbeats can pass for an environment and then for an ACK (see AckInBeats.SaysAckIff), which those of
    an ID without a delimiter cannot (PairingPipes.PlainNeverSaysAck).
   */
  lemma SetupSignalIsSound(s: State, e: nat)
    requires Reachable(s) && Wired(s) && e < |s.enclaves| && s.enclaves[e].phase == Ready(true)
    ensures s.enclaves[e].committed.Some?
    ensures var c := s.enclaves[e].committed.value;
            && c < |s.conns| && s.conns[c].enc == e && s.conns[c].use.Shake? && !s.conns[c].role.Queued?
            && (s.conns[c].role.Watched? ==> BriOf(s, c).cfg.Some? && SaysAck(BriOf(s, c).cfg.value.enclaveId))
            && (s.conns[c].role.Paired? ==>
                  && Configured(s, c) && s.conns[c].bw == 2
                  && BriOf(s, c).cfg == Some(s.enclaves[e].settings)
                  && BriOf(s, c).submitted == |BridgeRun.AllMembers(s.enclaves[e].settings)|)
  {
    hide Reachable;
    ReachableInv(s);
    CommittedFacts(s, e);
    hide Inv;
    var c := s.enclaves[e].committed.value;
    if s.conns[c].role.Paired? {
      ConfiguredIfHeard(c, s.conns[c], EncOf(s, c), BriOf(s, c));
    }
  }

  lemma CommittedFacts(s: State, e: nat)
    requires Wired(s) && Inv(s) && e < |s.enclaves| && s.enclaves[e].phase == Ready(true)
    ensures s.enclaves[e].committed.Some?
    ensures var c := s.enclaves[e].committed.value;
            && c < |s.conns| && s.conns[c].enc == e && s.conns[c].use.Shake? && s.conns[c].er == 2
            && !s.conns[c].role.Queued?
            && (s.conns[c].role.Watched? ==> BriOf(s, c).cfg.Some? && SaysAck(BriOf(s, c).cfg.value.enclaveId))
            && ConnOk(c, s.conns[c], EncOf(s, c), BriOf(s, c))
  {
    hide ConnOk, BridgeOk, SaysAck;
    assert EnclaveOk(s, e);
  }

  lemma ConfiguredIfHeard(c: nat, k: Conn, e: Enclave, b: Bridge)
    requires ConnOk(c, k, e, b) && k.use.Shake? && k.role.Paired? && k.er == 2
    ensures k.br == 2 && k.bw == 2 && b.cfg == Some(e.settings)
    ensures b.submitted == |BridgeRun.AllMembers(e.settings)|
  {
    hide Said, Heard, ConfigFrame, EnvFrame, BeatPipe, BeatConn, CanWatch;
  }

  /** No watchdog connection is dialled while a handshake connection of the enclave is open. */
  lemma WatchdogWaitsForHandshake(s: State, e: nat, b: nat, c: nat)
    requires Reachable(s) && Wired(s) && Enabled(s, Redial(e, b))
    requires c < |s.conns| && s.conns[c].enc == e && s.conns[c].use.Shake?
    ensures !s.conns[c].eopen
  {
    ReachableInv(s);
    assert ConnOk(c, s.conns[c], EncOf(s, c), BriOf(s, c));
  }

  /** A live enclave holds at most one open handshake connection, over any number of retries. */
  lemma OneOpenHandshake(s: State, c: nat, d: nat)
    requires Reachable(s) && Wired(s) && c < |s.conns| && d < |s.conns| && s.conns[c].enc == s.conns[d].enc
    requires s.conns[c].use.Shake? && s.conns[c].eopen && s.conns[d].use.Shake? && s.conns[d].eopen
    requires !EncOf(s, c).phase.Gone?
    ensures c == d
  {
    ReachableInv(s);
    assert ConnOk(c, s.conns[c], EncOf(s, c), BriOf(s, c));
    assert ConnOk(d, s.conns[d], EncOf(s, d), BriOf(s, d));
  }
}
