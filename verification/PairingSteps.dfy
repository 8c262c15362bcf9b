/** Each move keeps the invariant. */
module PairingSteps {
  import opened Options
  import opened Streams
  import opened Framing
  import opened Heartbeats
  import opened Settings
  import opened Pairing
  import opened PairingPipes
  import opened PairingInvariant
  import ShortSettings

  // ------------------------------------------------------------------------------------------
  // Processes come and go
  // ------------------------------------------------------------------------------------------

  lemma KeepNewEnclave(s: State, settings: BridgeSettings)
    requires Inv(s) && Enabled(s, NewEnclave(settings))
    ensures Inv(Apply(s, NewEnclave(settings)))
  {
    hide ConnOk;
    var t := Apply(s, NewEnclave(settings));
    assert forall b | 0 <= b < |s.bridges| :: BridgeOk(s, b);
    forall b | 0 <= b < |t.bridges| ensures BridgeOk(t, b) {
      BridgeStays(s, t, b);
    }
    forall e | 0 <= e < |t.enclaves| ensures EnclaveOk(t, e) {
      if e < |s.enclaves| {
        EnclaveStays(s, t, e);
      }
    }
  }

  lemma KeepNewBridge(s: State, host: map<string, string>, env: seq<byte>, levels: set<string>)
    requires Inv(s) && Enabled(s, NewBridge(host, env, levels))
    ensures Inv(Apply(s, NewBridge(host, env, levels)))
  {
    hide ConnOk;
    var t := Apply(s, NewBridge(host, env, levels));
    forall b | 0 <= b < |t.bridges| ensures BridgeOk(t, b) {
      if b < |s.bridges| {
        BridgeStays(s, t, b);
      }
    }
    forall e | 0 <= e < |t.enclaves| ensures EnclaveOk(t, e) {
      EnclaveStays(s, t, e);
    }
  }

  lemma KeepEnclaveDies(s: State, e: nat)
    requires Inv(s) && Enabled(s, EnclaveDies(e))
    ensures Inv(Apply(s, EnclaveDies(e)))
  {
    hide BridgeOk, ShakeConn, BeatConn;
    var t := Apply(s, EnclaveDies(e));
    BridgesStay(s, t, -1);
    EnclavesStay(s, t, e);
    assert EnclaveOk(s, e);
    EchoesStay(s, t, e);
    forall c | 0 <= c < |t.conns| ensures ConnOk(c, t.conns[c], EncOf(t, c), BriOf(t, c)) {
      assert ConnOk(c, s.conns[c], EncOf(s, c), BriOf(s, c));
      SameSettings(s.conns[c], EncOf(s, c), EncOf(t, c), BriOf(s, c));
    }
  }

  /** What reset an enclave's watchdog stays what it was. */
  lemma EchoesStay(s: State, t: State, e: nat)
    requires Wired(s) && Wired(t) && Grows(s, t) && e < |s.enclaves| && EnclaveOk(s, e)
    requires t.enclaves[e].resets == s.enclaves[e].resets
    ensures forall i | 0 <= i < |t.enclaves[e].resets| :: EchoOk(t, e, t.enclaves[e].resets[i])
  {
    forall i | 0 <= i < |t.enclaves[e].resets| ensures EchoOk(t, e, t.enclaves[e].resets[i]) {
      assert EchoOk(s, e, s.enclaves[e].resets[i]);
    }
  }

  /** ... and what reset a bridge's. */
  lemma ResetsStay(s: State, t: State, b: nat)
    requires Wired(s) && Wired(t) && Grows(s, t) && b < |s.bridges| && BridgeOk(s, b)
    requires t.bridges[b].resets == s.bridges[b].resets
    ensures forall i | 0 <= i < |t.bridges[b].resets| :: ResetOk(t, b, t.bridges[b].resets[i])
  {
    forall i | 0 <= i < |t.bridges[b].resets| ensures ResetOk(t, b, t.bridges[b].resets[i]) {
      assert ResetOk(s, b, s.bridges[b].resets[i]);
    }
  }

  /** What travels on a connection depends on the enclave only through its settings. */
  lemma SameSettings(k: Conn, e: Enclave, e': Enclave, b: Bridge)
    requires e.settings == e'.settings
    ensures ShakeConn(k, e.settings, b) == ShakeConn(k, e'.settings, b)
    ensures BeatConn(k, e.settings.enclaveId, b) == BeatConn(k, e'.settings.enclaveId, b)
  {
    hide ShakeConn, BeatConn;
  }

  /** ... and on the bridge only through its environment and settings. */
  lemma SameConfig(k: Conn, settings: BridgeSettings, b: Bridge, b': Bridge)
    requires b.env == b'.env && b.cfg == b'.cfg
    ensures ShakeConn(k, settings, b) == ShakeConn(k, settings, b')
    ensures BeatConn(k, settings.enclaveId, b) == BeatConn(k, settings.enclaveId, b')
  {
    hide ShakePipe, BeatPipe, WatchedShake, ConfigFrame, Said;
  }

  /** A bridge whose phase or count alone changes is still sound. */
  lemma BridgeOnly(s: State, b: nat, x: Bridge)
    requires Wired(s) && b < |s.bridges| && BridgeOk(s, b)
    requires x == s.bridges[b].(phase := x.phase, submitted := x.submitted) && Grows(s, SetBri(s, b, x))
    requires x.phase == Down || x.phase == s.bridges[b].phase
    requires x.cfg.None? ==> x.submitted == s.bridges[b].submitted
    requires x.cfg.Some? ==> Started(x)
    ensures Wired(SetBri(s, b, x)) && BridgeOk(SetBri(s, b, x), b)
  {
    hide Started;
    var t := SetBri(s, b, x);
    assert Wired(t) && Grows(s, t);
    ResetsStay(s, t, b);
  }

  /** A move that changes no more of a bridge than that. */
  lemma KeepBridgeOnly(s: State, b: nat, x: Bridge)
    requires Inv(s) && b < |s.bridges|
    requires x == s.bridges[b].(phase := x.phase, submitted := x.submitted)
    requires x.phase == Down || (x.phase == s.bridges[b].phase == Running)
    requires x.submitted == s.bridges[b].submitted || x == NextSubmitted(s.bridges[b])
    ensures Inv(SetBri(s, b, x))
  {
    hide EnclaveOk, ShakeConn, BeatConn, BridgeOk, Started, MayStart;
    var t := SetBri(s, b, x);
    BridgesStay(s, t, b);
    EnclavesStay(s, t, -1);
    NextIsStarted(s, b);
    StillStarted(s.bridges[b], x);
    BridgeOnly(s, b, x);
    forall c | 0 <= c < |t.conns| ensures ConnOk(c, t.conns[c], EncOf(t, c), BriOf(t, c)) {
      assert ConnOk(c, s.conns[c], EncOf(s, c), BriOf(s, c));
      SameConfig(s.conns[c], EncOf(s, c).settings, BriOf(s, c), BriOf(t, c));
    }
  }

  function NextSubmitted(b: Bridge): Bridge {
    if MayStart(b) then b.(submitted := b.submitted + 1) else b
  }

  lemma NextIsStarted(s: State, b: nat)
    requires Wired(s) && b < |s.bridges| && BridgeOk(s, b)
    ensures var x := s.bridges[b]; x.cfg.Some? ==> Started(x) && Started(NextSubmitted(x))
    ensures var x := s.bridges[b]; x.cfg.None? ==> NextSubmitted(x) == x
  {}

  lemma StillStarted(b: Bridge, x: Bridge)
    requires b.cfg.Some? ==> Started(b) && Started(NextSubmitted(b))
    requires x == b.(phase := x.phase, submitted := x.submitted)
    requires x.submitted == b.submitted || x == NextSubmitted(b)
    ensures x.cfg.Some? ==> Started(x)
  {}

  /** A bridge whose watchdog has been started has settings for one. */
  lemma StillCanWatch(s: State, b: nat)
    requires Wired(s) && b < |s.bridges| && BridgeOk(s, b)
    ensures AllStarted(s.bridges[b]) ==> CanWatch(s.bridges[b].cfg.value)
  {}

  lemma KeepBridgeDies(s: State, b: nat)
    requires Inv(s) && Enabled(s, BridgeDies(b))
    ensures Inv(Apply(s, BridgeDies(b)))
  {
    hide Inv;
    KeepBridgeOnly(s, b, s.bridges[b].(phase := Down));
  }

  lemma KeepRefuse(s: State, b: nat)
    requires Inv(s) && Enabled(s, Refuse(b))
    ensures Inv(Apply(s, Refuse(b)))
  {
    hide Inv;
    KeepBridgeOnly(s, b, s.bridges[b].(phase := Down));
  }

  lemma KeepTearDown(s: State, b: nat)
    requires Inv(s) && Enabled(s, TearDown(b))
    ensures Inv(Apply(s, TearDown(b)))
  {
    hide Inv;
    KeepBridgeOnly(s, b, s.bridges[b].(phase := Down));
  }

  lemma KeepSubmit(s: State, b: nat)
    requires Inv(s) && Enabled(s, Submit(b))
    ensures Inv(Apply(s, Submit(b)))
  {
    hide Inv;
    KeepBridgeOnly(s, b, NextSubmitted(s.bridges[b]));
  }

  // ------------------------------------------------------------------------------------------
  // Connections are opened
  // ------------------------------------------------------------------------------------------

  lemma FreshConn(c: nat, k: Conn, e: Enclave, b: Bridge)
    requires k == NewConn(k.enc, k.bri, k.use)
    requires k.use.Shake? ==> e.phase == Shaking(c)
    requires k.use.Beats? ==> e.phase.Ready? && CanWatch(e.settings)
    ensures ConnOk(c, k, e, b)
  {
    hide CanWatch, MayBeJson;
    NoBeatsYet(e.settings.enclaveId);
  }

  lemma KeepDial(s: State, e: nat, b: nat)
    requires Inv(s) && Enabled(s, Dial(e, b))
    ensures Inv(Apply(s, Dial(e, b)))
  {
    hide BridgeOk, ShakeConn, BeatConn;
    var t := Apply(s, Dial(e, b));
    assert EnclaveOk(s, e);
    assert Wired(t) && Grows(s, t);
    forall d | 0 <= d < |t.bridges| ensures BridgeOk(t, d) {
      assert BridgeOk(s, d);
      BridgeStays(s, t, d);
    }
    forall d | 0 <= d < |t.enclaves| ensures EnclaveOk(t, d) {
      if d == e {
        EchoesStay(s, t, e);
      } else {
        EnclaveStays(s, t, d);
      }
    }
    forall c | 0 <= c < |t.conns| ensures ConnOk(c, t.conns[c], EncOf(t, c), BriOf(t, c)) {
      if c < |s.conns| {
        assert ConnOk(c, s.conns[c], EncOf(s, c), BriOf(s, c));
        SameSettings(s.conns[c], EncOf(s, c), EncOf(t, c), BriOf(s, c));
      } else {
        FreshConn(c, t.conns[c], EncOf(t, c), BriOf(t, c));
      }
    }
  }

  lemma KeepRedial(s: State, e: nat, b: nat)
    requires Inv(s) && Enabled(s, Redial(e, b))
    ensures Inv(Apply(s, Redial(e, b)))
  {
    hide ConnOk, BridgeOk, EnclaveOk;
    var t := Apply(s, Redial(e, b));
    assert Wired(t) && Grows(s, t);
    forall d | 0 <= d < |t.bridges| ensures BridgeOk(t, d) {
      BridgeStays(s, t, d);
    }
    forall d | 0 <= d < |t.enclaves| ensures EnclaveOk(t, d) {
      ShakingInRange(s, d);
      EnclaveStays(s, t, d);
    }
    FreshConn(|s.conns|, t.conns[|s.conns|], EncOf(t, |s.conns|), BriOf(t, |s.conns|));
    forall c | 0 <= c < |t.conns| ensures ConnOk(c, t.conns[c], EncOf(t, c), BriOf(t, c)) {
      assert c < |s.conns| ==> ConnOk(c, s.conns[c], EncOf(s, c), BriOf(s, c));
    }
  }

  lemma ShakingInRange(s: State, e: nat)
    requires Wired(s) && e < |s.enclaves| && EnclaveOk(s, e)
    ensures s.enclaves[e].phase.Shaking? ==> s.enclaves[e].phase.c < |s.conns|
  {}

  // ------------------------------------------------------------------------------------------
  // The enclave's end of a handshake
  // ------------------------------------------------------------------------------------------

  lemma ConfigIsFrame(settings: BridgeSettings)
    ensures IsFrame(ConfigFrame(settings)) && ParseConfig(ConfigFrame(settings)) == Some(settings)
  {
    ConfigRoundTrip(settings);
  }

  lemma AckIsFrame()
    ensures IsFrame(ACK)
  {}

  lemma EnvIsFrame(env: seq<byte>)
    requires Plain(env)
    ensures IsFrame(EnvFrame(env))
  {}

  lemma SaidNext(settings: BridgeSettings, w: nat)
    requires w < 2
    ensures Said(ACK, ConfigFrame(settings), w) + (if w == 0 then ACK else ConfigFrame(settings))
         == Said(ACK, ConfigFrame(settings), w + 1)
  {
    hide ConfigFrame;
  }

  lemma EWriteShake(k: Conn, settings: BridgeSettings, b: Bridge)
    requires k.use.Shake? && ShakeConn(k, settings, b) && k.ew == k.er < 2
    requires k.er == 1 ==> |k.down.rd.frames| > 0 && MayBeJson(k.down.rd.frames[0])
    ensures ShakeConn(EWrites(k, settings), settings, b)
  {
    hide ConfigFrame, EnvFrame, BeatPipe, MayBeJson, Said, Heard, FirstPiece, Pipe.Write, Pipe.Valid, IsFrame;
    SaidNext(settings, k.ew);
    if k.role.Paired? {
      ShakeWrite(k.up, ACK, ConfigFrame(settings), k.ew);
    }
  }

  lemma EWriteConn(c: nat, k: Conn, e: Enclave, b: Bridge, x: Enclave)
    requires ConnOk(c, k, e, b) && k.use.Shake? && k.eopen && e.phase == Shaking(c) && k.ew == k.er < 2
    requires k.er == 1 ==> |k.down.rd.frames| > 0 && MayBeJson(k.down.rd.frames[0])
    requires x == if k.ew == 1 then e.(committed := Some(c)) else e
    ensures ConnOk(c, EWrites(k, e.settings), x, b) && ConnGrows(k, EWrites(k, e.settings))
    ensures EWrites(k, e.settings).eopen == k.eopen
  {
    hide ShakeConn, BeatConn;
    EWriteShake(k, e.settings, b);
  }

  /** A live enclave with a handshake under way has written its settings nowhere else. */
  lemma CommitEnclave(s: State, c: nat)
    requires Wired(s) && Enabled(s, EWrite(c)) && s.conns[c].ew == 1
    requires EnclaveOk(s, s.conns[c].enc)
    requires Wired(Apply(s, EWrite(c))) && Grows(s, Apply(s, EWrite(c)))
    ensures EnclaveOk(Apply(s, EWrite(c)), s.conns[c].enc)
    ensures EncOf(s, c).committed == None
  {
    EchoesStay(s, Apply(s, EWrite(c)), s.conns[c].enc);
  }

  lemma KeepEWrite(s: State, c: nat)
    requires Inv(s) && Enabled(s, EWrite(c))
    ensures Inv(Apply(s, EWrite(c)))
  {
    hide BridgeOk, ShakeConn, BeatConn, EnclaveOk, EWrites, Grows, ConnGrows;
    var k, e := s.conns[c], s.conns[c].enc;
    var x := if k.ew == 1 then s.enclaves[e].(committed := Some(c)) else s.enclaves[e];
    EWriteConn(c, k, s.enclaves[e], BriOf(s, c), x);
    if k.ew == 1 {
      GrowsByEnclave(s, c, EWrites(k, s.enclaves[e].settings), x);
      CommitEnclave(s, c);
      forall d | 0 <= d < |s.conns| && d != c && s.conns[d].enc == e
        ensures ConnOk(d, s.conns[d], x, BriOf(s, d))
      {
        assert ConnOk(d, s.conns[d], s.enclaves[e], BriOf(s, d));
        SameSettings(s.conns[d], s.enclaves[e], x, BriOf(s, d));
      }
      EnclaveMove(s, c, EWrites(k, s.enclaves[e].settings), x);
    } else {
      ConnMove(s, c, EWrites(k, s.enclaves[e].settings));
    }
  }

  /** A direction with bytes left to read has a frame left to read. */
  lemma FrameUnderWay(p: Pipe, f: seq<byte>, g: seq<byte>, w: nat, r: nat)
    requires ShakePipe(p, f, g, w, r) && p.at < |p.log|
    ensures r < w
  {}

  /** In a watchdog's read loop the enclave can hear its handshake out only if the ID says so. */
  lemma ETakeWatched(k: Conn, id: Uuid, n: nat)
    requires WatchedShake(k, id) && k.er < k.ew <= 2 && k.er < 2
    requires 0 < n <= |k.down.log| - k.down.at
    ensures WatchedShake(ETakes(k, n), id)
    ensures k.er == 1 && k.ew == 2 && k.down.Completes(n) && Last(ETakes(k, n).down.rd.frames) == ACK ==> SaysAck(id)
  {
    hide BeatPipe, MayBeJson, Pipe.Take, Pipe.Completes, Pipe.Valid, Plain, Heartbeats.Beat, FirstPiece;
    BeatTaken(k.down, id, n);
    if k.down.Completes(n) {
      var j, frame := BeatFrame(k.down, id, n);
      if k.er == 0 {
        FirstBeatPiece(k.down, id, n);
      } else if frame == ACK {
        AckPiece(k.down, id, n);
      }
    }
  }

  lemma ETakePaired(k: Conn, settings: BridgeSettings, b: Bridge, n: nat)
    requires k.role.Paired? && ShakeConn(k, settings, b) && Plain(b.env) && 0 < n <= |k.down.log| - k.down.at
    ensures ShakeConn(ETakes(k, n), settings, b) && k.er < k.bw
    ensures k.down.Completes(n) ==> ETakes(k, n).down.rd.frames != []
    ensures ETakes(k, n).er <= 2
  {
    hide Said, Heard, EnvFrame, ConfigFrame, BeatPipe, Pipe.Take, Pipe.Completes, IsFrame;
    EnvIsFrame(b.env);
    AckIsFrame();
    FrameUnderWay(k.down, EnvFrame(b.env), ACK, k.bw, k.er);
    ShakeTake(k.down, EnvFrame(b.env), ACK, k.bw, k.er, n);
  }

  /** The enclave after the read: with its last frame the handshake connection is closed. */
  function AfterETake(k: Conn, e: Enclave, n: nat): Enclave
    requires k.down.Valid() && 0 < n <= |k.down.log| - k.down.at
  {
    if ETakes(k, n).eopen || !k.down.Completes(n) then e
    else e.(phase := Ready(k.down.Take(n).rd.frames != [] && Last(k.down.Take(n).rd.frames) == ACK))
  }

  /** The ACK was the bridge's own, or its ID says it. */
  predicate AckIsTrue(k: Conn, b: Bridge) {
    !k.role.Queued? && (k.role.Watched? ==> b.cfg.Some? && SaysAck(b.cfg.value.enclaveId))
  }

  lemma ETakeConn(c: nat, k: Conn, e: Enclave, b: Bridge, n: nat)
    requires ConnOk(c, k, e, b) && k.use.Shake? && k.eopen && e.phase == Shaking(c) && k.er < k.ew
    requires Plain(b.env) && k.down.Valid() && 0 < n <= |k.down.log| - k.down.at
    ensures ConnOk(c, ETakes(k, n), AfterETake(k, e, n), b) && ConnGrows(k, ETakes(k, n))
    ensures !ETakes(k, n).eopen ==>
              k.down.Completes(n) && e.committed == Some(c) && ETakes(k, n).down.rd.frames != []
    ensures !ETakes(k, n).eopen && Last(ETakes(k, n).down.rd.frames) == ACK ==>
              ETakes(k, n).er == 2 && AckIsTrue(k, b)
  {
    hide BeatPipe, ShakePipe, MayBeJson, Said, ConfigFrame, EnvFrame, Pipe.Take, Pipe.Completes, FirstPiece, SaysAck;
    match k.role
    case Paired => ETakePaired(k, e.settings, b, n);
    case Watched => ETakeWatched(k, b.cfg.value.enclaveId, n);
    case Queued =>
  }

  /** An enclave that has left its handshake is sound once its settings are with the bridge. */
  lemma LeaveHandshake(s: State, c: nat, k: Conn, phase: EnclavePhase)
    requires Wired(s) && c < |s.conns| && EnclaveOk(s, s.conns[c].enc) && EncOf(s, c).phase == Shaking(c)
    requires Wired(SetConn(s, c, k)) && Grows(s, SetConn(s, c, k)) && ConnGrows(s.conns[c], k)
    requires phase.Idle? || phase.Ready? || phase.Gone?
    requires phase.Idle? ==> EncOf(s, c).committed.None?
    requires phase.Ready? ==> EncOf(s, c).committed == Some(c)
    requires phase == Ready(true) ==> k.er == 2 && AckIsTrue(k, BriOf(s, c))
    ensures var t := SetEnc(SetConn(s, c, k), k.enc, EncOf(s, c).(phase := phase));
            Wired(t) && EnclaveOk(t, k.enc)
  {
    var t := SetEnc(SetConn(s, c, k), k.enc, EncOf(s, c).(phase := phase));
    assert Wired(t) && Grows(s, t);
    EchoesStay(s, t, k.enc);
  }

  /** Nothing else of that enclave is an open handshake, so nothing else changes. */
  lemma OthersOfEnclave(s: State, c: nat, x: Enclave)
    requires Inv(s) && c < |s.conns| && EncOf(s, c).phase == Shaking(c)
    requires x == EncOf(s, c).(phase := x.phase) && (x.phase.Idle? || x.phase.Ready? || x.phase.Gone?)
    ensures forall d | 0 <= d < |s.conns| && d != c && s.conns[d].enc == s.conns[c].enc ::
              ConnOk(d, s.conns[d], x, BriOf(s, d))
  {
    hide ShakeConn, BeatConn;
    forall d | 0 <= d < |s.conns| && d != c && s.conns[d].enc == s.conns[c].enc
      ensures ConnOk(d, s.conns[d], x, BriOf(s, d))
    {
      assert ConnOk(d, s.conns[d], EncOf(s, d), BriOf(s, d));
      SameSettings(s.conns[d], EncOf(s, d), x, BriOf(s, d));
    }
  }

  lemma GrowsByConn(s: State, c: nat, k: Conn)
    requires Wired(s) && c < |s.conns| && ConnGrows(s.conns[c], k)
    ensures Wired(SetConn(s, c, k)) && Grows(s, SetConn(s, c, k))
  {}

  lemma KeepETake(s: State, c: nat, n: nat)
    requires Inv(s) && Enabled(s, ETake(c, n))
    ensures Inv(Apply(s, ETake(c, n)))
  {
    hide ConnOk, BridgeOk, EnclaveOk, Grows, ConnGrows;
    var k, e, b := s.conns[c], EncOf(s, c), BriOf(s, c);
    assert ConnOk(c, k, e, b);
    EnvIsPlain(s, k.bri);
    ETakeConn(c, k, e, b, n);
    var k', x := ETakes(k, n), AfterETake(k, e, n);
    if k'.eopen {
      ConnMove(s, c, k');
    } else {
      GrowsByConn(s, c, k');
      LeaveHandshake(s, c, k', x.phase);
      OthersOfEnclave(s, c, x);
      EnclaveMove(s, c, k', x);
    }
  }

  lemma EnvIsPlain(s: State, b: nat)
    requires Inv(s) && b < |s.bridges|
    ensures Plain(s.bridges[b].env)
  {
    assert BridgeOk(s, b);
  }

  lemma KeepEQuit(s: State, c: nat)
    requires Inv(s) && Enabled(s, EQuit(c))
    ensures Inv(Apply(s, EQuit(c)))
  {
    hide ConnOk, BridgeOk, EnclaveOk, Grows, ConnGrows;
    var k, e := s.conns[c], EncOf(s, c);
    var k' := k.(eopen := false);
    var phase := if k.er == 0 then Idle else if k.ew == 2 then Ready(false) else Gone;
    var x := e.(phase := phase);
    assert ConnOk(c, k, e, BriOf(s, c));
    ClosedConn(c, k, e, x, BriOf(s, c));
    NotYetCommitted(s, c);
    GrowsByConn(s, c, k');
    LeaveHandshake(s, c, k', phase);
    OthersOfEnclave(s, c, x);
    EnclaveMove(s, c, k', x);
  }

  lemma ClosedConn(c: nat, k: Conn, e: Enclave, x: Enclave, b: Bridge)
    requires ConnOk(c, k, e, b) && k.use.Shake? && x == e.(phase := x.phase)
    ensures ConnOk(c, k.(eopen := false), x, b) && ConnGrows(k, k.(eopen := false))
    ensures k.ew <= k.er + 1 && (k.ew == 2 ==> e.committed == Some(c))
  {}

  lemma NotYetCommitted(s: State, c: nat)
    requires Wired(s) && c < |s.conns| && EnclaveOk(s, s.conns[c].enc) && EncOf(s, c).phase == Shaking(c)
    ensures s.conns[c].ew < 2 ==> EncOf(s, c).committed.None?
  {}

  // ------------------------------------------------------------------------------------------
  // The bridge's end of a handshake
  // ------------------------------------------------------------------------------------------

  lemma AcceptConn(c: nat, k: Conn, e: Enclave, b: Bridge)
    requires ConnOk(c, k, e, b) && k.role.Queued? && b.phase.Listening? && b.cfg.None?
    ensures ConnOk(c, k.(role := Paired), e, b.(phase := Handshaking, home := Some(c)))
  {
    hide ShakeConn, BeatConn, CanWatch;
    if k.use.Shake? {
      AcceptShake(k, e.settings, b, b.(phase := Handshaking, home := Some(c)));
    } else {
      AcceptBeats(k, e.settings.enclaveId, b, b.(phase := Handshaking, home := Some(c)));
    }
  }

  lemma AcceptShake(k: Conn, settings: BridgeSettings, b: Bridge, x: Bridge)
    requires ShakeConn(k, settings, b) && k.role.Queued? && x.env == b.env
    ensures ShakeConn(k.(role := Paired), settings, x) && k.br == 0 && k.bw == 0 && k.er == 0 && k.up.rd.frames == []
  {
    hide ConfigFrame, EnvFrame, BeatPipe, MayBeJson;
  }

  lemma AcceptBeats(k: Conn, id: Uuid, b: Bridge, x: Bridge)
    requires BeatConn(k, id, b) && k.role.Queued?
    ensures BeatConn(k.(role := Paired), id, x) && k.br == 0 && k.bw == 0 && k.er == 0 && k.up.rd.frames == []
  {
    hide BeatPipe, BeginsAck;
  }

  lemma KeepAccept(s: State, c: nat)
    requires Inv(s) && Enabled(s, Accept(c))
    ensures Inv(Apply(s, Accept(c)))
  {
    hide ConnOk, BridgeOk, EnclaveOk, Grows;
    var k, b := s.conns[c], BriOf(s, c);
    var k', x := k.(role := Paired), b.(phase := Handshaking, home := Some(c));
    assert ConnOk(c, k, EncOf(s, c), b);
    ListeningIsBlank(s, k.bri);
    AcceptConn(c, k, EncOf(s, c), b);
    GrowsByConn(s, c, k');
    AcceptBridge(s, c);
    OthersOfListening(s, c, x);
    BridgeMove(s, c, k', x);
  }

  lemma ListeningIsBlank(s: State, b: nat)
    requires Wired(s) && b < |s.bridges| && BridgeOk(s, b)
    ensures s.bridges[b].phase.Listening? ==> s.bridges[b].cfg.None? && s.bridges[b].home.None?
    ensures s.bridges[b].phase.Handshaking? ==> s.bridges[b].cfg.None? && s.bridges[b].submitted == 0
  {}

  lemma AcceptBridge(s: State, c: nat)
    requires Wired(s) && Enabled(s, Accept(c)) && BridgeOk(s, s.conns[c].bri)
    ensures var t := Apply(s, Accept(c)); Wired(t) && BridgeOk(t, s.conns[c].bri)
  {
    var t := Apply(s, Accept(c));
    assert Wired(t) && Grows(s, t);
    ResetsStay(s, t, s.conns[c].bri);
  }

  lemma OthersOfListening(s: State, c: nat, x: Bridge)
    requires Wired(s) && Inv(s) && c < |s.conns| && BriOf(s, c).phase.Listening?
    requires x == BriOf(s, c).(phase := Handshaking, home := Some(c))
    ensures forall d | 0 <= d < |s.conns| && d != c && s.conns[d].bri == s.conns[c].bri ::
              ConnOk(d, s.conns[d], EncOf(s, d), x)
  {
    hide BridgeOk, EnclaveOk, ShakeConn, BeatConn;
    ListeningIsBlank(s, s.conns[c].bri);
    forall d | 0 <= d < |s.conns| && d != c && s.conns[d].bri == s.conns[c].bri
      ensures ConnOk(d, s.conns[d], EncOf(s, d), x)
    {
      assert ConnOk(d, s.conns[d], EncOf(s, d), BriOf(s, d));
      SameConfig(s.conns[d], EncOf(s, d).settings, BriOf(s, d), x);
    }
  }

  /**
    Heartbeats pass for the ACK that opens a handshake only for an ID that begins like it, and a frame of
    theirs is too short for settings that name an ID.
   */
  lemma BTakeBeats(k: Conn, id: Uuid, b: Bridge, n: nat)
    requires k.use.Beats? && k.role.Paired? && BeatConn(k, id, b) && |k.up.rd.frames| == k.br == k.bw < 2
    requires 0 < n <= |k.up.log| - k.up.at
    ensures BeatConn(ConnAfterBTake(k, n), id, b)
    ensures !k.up.Completes(n) ==> k.up.Take(n).rd.frames == k.up.rd.frames
    ensures k.up.Completes(n) ==>
              var frame := Last(k.up.Take(n).rd.frames);
              && |k.up.Take(n).rd.frames| == k.br + 1
              && (k.br == 0 ==> (Welcome(0, frame) <==> BeginsAck(id)))
              && (k.br == 1 && Welcome(1, frame) ==> ParseConfig(frame).value.enclaveId == NIL)
  {
    hide BeatPipe, ParseConfig, Pipe.Take, Pipe.Completes, Pipe.Valid, BeginsAck, Heartbeats.Beat;
    BeatTaken(k.up, id, n);
    if k.up.Completes(n) {
      var j, frame := BeatFrame(k.up, id, n);
      if k.br == 0 {
        FirstBeatIsAck(k.up, id, n);
      } else if ParseConfig(frame).Some? {
        ShortSettings.ShortFrameHasNoId(frame);
      }
    }
  }

  /** On a handshake connection every frame that comes is the one that is expected. */
  lemma BTakeShake(k: Conn, settings: BridgeSettings, b: Bridge, n: nat)
    requires k.use.Shake? && k.role.Paired? && ShakeConn(k, settings, b) && k.br == k.bw
    requires 0 < n <= |k.up.log| - k.up.at
    ensures k.br < 2
    ensures k.up.Completes(n) ==>
              && k.up.Take(n).rd.frames != [] && Welcome(k.br, Last(k.up.Take(n).rd.frames))
              && (k.br == 1 ==> ParseConfig(Last(k.up.Take(n).rd.frames)) == Some(settings))
              && |k.up.Take(n).rd.frames| == k.br + 1
    ensures ShakeConn(BTakes(k, n, k.up.Completes(n)), settings, b)
    ensures !k.up.Completes(n) ==> k.up.Take(n).rd.frames == k.up.rd.frames
  {
    hide Said, EnvFrame, ConfigFrame, BeatPipe, Pipe.Take, Pipe.Completes, IsFrame, ParseConfig;
    ConfigIsFrame(settings);
    AckIsFrame();
    FrameUnderWay(k.up, ACK, ConfigFrame(settings), k.ew, k.br);
    ShakeTake(k.up, ACK, ConfigFrame(settings), k.ew, k.br, n);
  }

  /** The bridge after the read. */
  function AfterBTake(k: Conn, b: Bridge, n: nat): Bridge
    requires k.up.Valid() && n <= |k.up.log| - k.up.at
  {
    if !k.up.Completes(n) then b
    else if k.up.Take(n).rd.frames == [] || !Welcome(k.br, Last(k.up.Take(n).rd.frames)) then b.(phase := Down)
    else if k.br == 0 then b
    else b.(phase := Running, cfg := Some(ParseConfig(Last(k.up.Take(n).rd.frames)).value))
  }

  function ConnAfterBTake(k: Conn, n: nat): Conn
    requires k.up.Valid() && n <= |k.up.log| - k.up.at
  {
    BTakes(k, n, k.up.Completes(n) && k.up.Take(n).rd.frames != [] && Welcome(k.br, Last(k.up.Take(n).rd.frames)))
  }

  lemma BTakeConn(c: nat, k: Conn, e: Enclave, b: Bridge, n: nat)
    requires ConnOk(c, k, e, b) && k.role.Paired? && b.phase.Handshaking? && b.cfg.None? && k.br == k.bw
    requires k.up.Valid() && 0 < n <= |k.up.log| - k.up.at
    ensures var k', x := ConnAfterBTake(k, n), AfterBTake(k, b, n);
            && ConnOk(c, k', e, x) && ConnGrows(k, k') && k'.eopen == k.eopen && b.home == Some(c)
            && (x.cfg.Some? ==> k'.br == 2) && k'.role.Paired?
            && x == b.(phase := x.phase, cfg := x.cfg)
            && (x.phase.Down? || (x.phase.Handshaking? && x.cfg.None?) || (x.phase.Running? && x.cfg.Some?))
  {
    hide ShakeConn, BeatConn, ParseConfig, Pipe.Take, Pipe.Completes, CanWatch;
    var k', x := ConnAfterBTake(k, n), AfterBTake(k, b, n);
    if k.use.Shake? {
      BTakeShake(k, e.settings, b, n);
    } else {
      FramesAreCounted(k, e.settings.enclaveId, b);
      BTakeBeats(k, e.settings.enclaveId, b, n);
    }
    PairedEnvOnly(k', e.settings, b, x);
  }

  lemma FramesAreCounted(k: Conn, id: Uuid, b: Bridge)
    requires BeatConn(k, id, b) && k.role.Paired?
    ensures k.bw <= k.br <= 2
  {}

  /** The bridge's settings play no part on the connection of its handshake. */
  lemma PairedEnvOnly(k: Conn, settings: BridgeSettings, b: Bridge, x: Bridge)
    requires k.role.Paired? && b.env == x.env
    ensures ShakeConn(k, settings, b) == ShakeConn(k, settings, x)
    ensures BeatConn(k, settings.enclaveId, b) == BeatConn(k, settings.enclaveId, x)
  {
    hide ShakePipe, BeatPipe, WatchedShake, ConfigFrame, Said;
  }

  /** A bridge in its handshake, once it has read from it. */
  lemma AfterReadBridge(s: State, c: nat, k: Conn, x: Bridge)
    requires Wired(s) && c < |s.conns| && BridgeOk(s, s.conns[c].bri) && BriOf(s, c).home == Some(c)
    requires BriOf(s, c).cfg.None? && ConnGrows(s.conns[c], k) && k.role.Paired?
    requires x == BriOf(s, c).(phase := x.phase, cfg := x.cfg) && !x.phase.Listening?
    requires x.phase.Handshaking? ==> x.cfg.None?
    requires x.phase.Running? ==> x.cfg.Some?
    requires x.cfg.Some? ==> k.br == 2
    ensures var t := SetBri(SetConn(s, c, k), k.bri, x); Wired(t) && BridgeOk(t, k.bri)
  {
    hide ParseConfig, ConnOk;
    var t := SetBri(SetConn(s, c, k), k.bri, x);
    GrowsByBridge(s, c, k, x);
    ResetsStay(s, t, k.bri);
  }

  /** Nothing else of a bridge in its handshake is in use yet. */
  lemma OthersOfHandshaking(s: State, c: nat, x: Bridge)
    requires Inv(s) && c < |s.conns| && BriOf(s, c).phase.Handshaking? && BriOf(s, c).home == Some(c)
    requires x == BriOf(s, c).(phase := x.phase, cfg := x.cfg)
    ensures forall d | 0 <= d < |s.conns| && d != c && s.conns[d].bri == s.conns[c].bri ::
              ConnOk(d, s.conns[d], EncOf(s, d), x)
  {
    ListeningIsBlank(s, s.conns[c].bri);
    forall d | 0 <= d < |s.conns| && d != c && s.conns[d].bri == s.conns[c].bri
      ensures ConnOk(d, s.conns[d], EncOf(s, d), x)
    {
      assert ConnOk(d, s.conns[d], EncOf(s, d), BriOf(s, d));
      QueuedIsFree(d, s.conns[d], EncOf(s, d), BriOf(s, d), x);
    }
  }

  lemma QueuedIsFree(c: nat, k: Conn, e: Enclave, b: Bridge, x: Bridge)
    requires ConnOk(c, k, e, b) && b.cfg.None? && b.home != Some(c) && x == b.(phase := x.phase, cfg := x.cfg)
    ensures ConnOk(c, k, e, x)
  {
    hide BeatPipe, MayBeJson, Said, ConfigFrame, EnvFrame, BeginsAck;
  }

  lemma KeepBTake(s: State, c: nat, n: nat)
    requires Inv(s) && Enabled(s, BTake(c, n))
    ensures Inv(Apply(s, BTake(c, n)))
  {
    hide ConnOk, BridgeOk, EnclaveOk, Grows, ConnGrows;
    var k, e, b := s.conns[c], EncOf(s, c), BriOf(s, c);
    assert ConnOk(c, k, e, b);
    ListeningIsBlank(s, k.bri);
    BTakeConn(c, k, e, b, n);
    var k', x := ConnAfterBTake(k, n), AfterBTake(k, b, n);
    AfterReadBridge(s, c, k', x);
    OthersOfHandshaking(s, c, x);
    BridgeMove(s, c, k', x);
    BTakeApplied(s, c, n);
  }

  lemma BTakeApplied(s: State, c: nat, n: nat)
    requires Wired(s) && Enabled(s, BTake(c, n))
    ensures Apply(s, BTake(c, n)) ==
            SetBri(SetConn(s, c, ConnAfterBTake(s.conns[c], n)), s.conns[c].bri, AfterBTake(s.conns[c], BriOf(s, c), n))
  {
    hide Pipe.Take, Pipe.Completes, Pipe.Valid, Welcome, ParseConfig, Members, CanWatch;
    var k, b := s.conns[c], s.conns[c].bri;
    if k.up.Completes(n) {
      var q := k.up.Completed(n);
    } else {
      assert s.bridges[b := s.bridges[b]] == s.bridges;
    }
    assert s.bridges[b := s.bridges[b]] == s.bridges;
  }

  lemma BWriteConn(c: nat, k: Conn, e: Enclave, b: Bridge)
    requires ConnOk(c, k, e, b) && k.role.Paired? && k.bw < k.br
    requires b.phase.Handshaking? ==> b.cfg.None?
    requires !b.phase.Handshaking? ==> AllStarted(b)
    requires AllStarted(b) ==> CanWatch(b.cfg.value)
    ensures ConnOk(c, BWrites(k, b.env), e, b) && ConnGrows(k, BWrites(k, b.env))
  {
    hide BeatPipe, MayBeJson, Said, Heard, ConfigFrame, EnvFrame, Pipe.Write, Pipe.Valid, BeginsAck;
    if k.use.Shake? {
      BWriteShake(k, e.settings, b);
    }
  }

  lemma BWriteShake(k: Conn, settings: BridgeSettings, b: Bridge)
    requires ShakeConn(k, settings, b) && k.role.Paired? && k.bw < k.br
    ensures ShakeConn(BWrites(k, b.env), settings, b)
  {
    hide BeatPipe, MayBeJson, Said, Heard, ConfigFrame, EnvFrame;
    ShakeWrite(k.down, EnvFrame(b.env), ACK, k.bw);
  }

  lemma KeepBWrite(s: State, c: nat)
    requires Inv(s) && Enabled(s, BWrite(c))
    ensures Inv(Apply(s, BWrite(c)))
  {
    hide ConnOk, BridgeOk, EnclaveOk, Grows, ConnGrows;
    var k, b := s.conns[c], BriOf(s, c);
    assert ConnOk(c, k, EncOf(s, c), b);
    ListeningIsBlank(s, k.bri);
    StillCanWatch(s, k.bri);
    BWriteConn(c, k, EncOf(s, c), b);
    ConnMove(s, c, BWrites(k, b.env));
  }

  // ------------------------------------------------------------------------------------------
  // The watchdogs
  // ------------------------------------------------------------------------------------------

  lemma WatchAcceptConn(c: nat, k: Conn, e: Enclave, b: Bridge)
    requires ConnOk(c, k, e, b) && k.role.Queued? && Watching(b)
    ensures ConnOk(c, k.(role := Watched), e, b)
  {
    hide BeatPipe, MayBeJson, ConfigFrame, Said, CanWatch;
    NoBeatsYet(b.cfg.value.enclaveId);
  }

  lemma NoBeatsYet(id: Uuid)
    ensures BeatPipe(EMPTY, id)
  {}

  lemma KeepWatchAccept(s: State, c: nat)
    requires Inv(s) && Enabled(s, WatchAccept(c))
    ensures Inv(Apply(s, WatchAccept(c)))
  {
    hide ConnOk, BridgeOk, EnclaveOk, Grows;
    var k := s.conns[c];
    assert ConnOk(c, k, EncOf(s, c), BriOf(s, c));
    WatchAcceptConn(c, k, EncOf(s, c), BriOf(s, c));
    ConnMove(s, c, k.(role := Watched));
  }

  /** The first frame of a handshake is its ACK, and no watchdog takes that for a heartbeat. */
  lemma FirstSaidIsAck(p: Pipe, settings: BridgeSettings, w: nat, n: nat)
    requires p.Valid() && p.log == Said(ACK, ConfigFrame(settings), w) && p.Start() == 0
    requires p.at + n <= |p.log| && p.Completes(n)
    ensures p.Take(n).rd.frames == p.rd.frames + [ACK]
  {
    assert w > 0 && p.log[..2] == ACK;
    AckFirst(p, n);
  }

  lemma WatchShakeConn(k: Conn, settings: BridgeSettings, b: Bridge, n: nat)
    requires k.use.Shake? && k.role.Watched? && ShakeConn(k, settings, b) && k.bopen
    requires b.cfg.Some? && b.cfg.value.enclaveId != NIL && 0 < n <= |k.up.log| - k.up.at
    ensures ShakeConn(k.(up := k.up.Take(n), bopen := !k.up.Completes(n)), settings, b)
    ensures k.up.Completes(n) ==>
              k.up.Take(n).rd.frames != [] && !Accepts(b.cfg.value.enclaveId, Last(k.up.Take(n).rd.frames))
  {
    if k.up.Completes(n) {
      FirstSaidIsAck(k.up, settings, k.ew, n);
      AcceptedIff(b.cfg.value.enclaveId, ACK);
    }
  }

  lemma WatchBeatConn(k: Conn, id: Uuid, b: Bridge, n: nat)
    requires k.use.Beats? && k.role.Watched? && BeatConn(k, id, b)
    requires b.cfg.Some? && b.cfg.value.enclaveId != NIL && 0 < n <= |k.up.log| - k.up.at
    ensures forall open :: BeatConn(k.(up := k.up.Take(n), bopen := open), id, b)
    ensures k.up.Completes(n) ==> k.up.Take(n).rd.frames != []
    ensures k.up.Completes(n) && Accepts(b.cfg.value.enclaveId, Last(k.up.Take(n).rd.frames)) ==>
              b.cfg.value.enclaveId == id
  {
    hide BeatPipe, Accepts, Pipe.Take, Pipe.Completes, Pipe.Valid, Heartbeats.Beat, BeginsAck;
    BeatTaken(k.up, id, n);
    if k.up.Completes(n) {
      var j, frame := BeatFrame(k.up, id, n);
      if Accepts(b.cfg.value.enclaveId, frame) {
        BeatAccepted(id, j, frame, b.cfg.value.enclaveId);
      }
    }
  }

  /** Whether the read ends in a frame the bridge's watchdog accepts. */
  predicate BeatHeard(k: Conn, id: Uuid, n: nat)
    requires k.up.Valid() && n <= |k.up.log| - k.up.at
  {
    k.up.Completes(n) && k.up.Take(n).rd.frames != [] && Accepts(id, Last(k.up.Take(n).rd.frames))
  }

  function AfterWatch(k: Conn, id: Uuid, n: nat): Conn
    requires k.up.Valid() && n <= |k.up.log| - k.up.at
  {
    k.(up := k.up.Take(n), bopen := k.bopen && (!k.up.Completes(n) || BeatHeard(k, id, n)))
  }

  lemma WatchTakeConn(c: nat, k: Conn, e: Enclave, b: Bridge, n: nat)
    requires ConnOk(c, k, e, b) && k.role.Watched? && k.bopen && Watching(b) && b.cfg.value.enclaveId != NIL
    requires k.up.Valid() && 0 < n <= |k.up.log| - k.up.at
    ensures ConnOk(c, AfterWatch(k, b.cfg.value.enclaveId, n), e, BridgeAfterWatch(c, k, b, n))
    ensures BeatHeard(k, b.cfg.value.enclaveId, n) ==> k.use.Beats? && b.cfg.value.enclaveId == e.settings.enclaveId
  {
    hide ShakeConn, BeatConn, CanWatch, Accepts, Pipe.Take, Pipe.Completes, Pipe.Valid;
    if k.use.Shake? {
      WatchShakeConn(k, e.settings, b, n);
    } else {
      WatchBeatConn(k, e.settings.enclaveId, b, n);
    }
    SameConfig(AfterWatch(k, b.cfg.value.enclaveId, n), e.settings, b, BridgeAfterWatch(c, k, b, n));
  }

  /** The bridge after the read: its deadline put forward, or a foreign frame to report, or neither. */
  function BridgeAfterWatch(c: nat, k: Conn, b: Bridge, n: nat): Bridge
    requires k.up.Valid() && n <= |k.up.log| - k.up.at && b.cfg.Some?
  {
    if BeatHeard(k, b.cfg.value.enclaveId, n) then b.(resets := b.resets + [c])
    else if k.up.Completes(n) then b.(foreign := true)
    else b
  }

  lemma WatchReset(s: State, c: nat, k: Conn, x: Bridge)
    requires Wired(s) && c < |s.conns| && BridgeOk(s, s.conns[c].bri) && ConnGrows(s.conns[c], k)
    requires BriOf(s, c).cfg.Some? && x == BriOf(s, c).(resets := x.resets, foreign := x.foreign)
    requires x.resets == BriOf(s, c).resets || x.resets == BriOf(s, c).resets + [c]
    requires x.resets != BriOf(s, c).resets ==>
               && k.use.Beats? && k.role.Watched?
               && BriOf(s, c).cfg.value.enclaveId == EncOf(s, c).settings.enclaveId
    ensures var t := SetBri(SetConn(s, c, k), k.bri, x); Wired(t) && BridgeOk(t, k.bri)
  {
    hide CanWatch;
    var b := s.conns[c].bri;
    var t := SetBri(SetConn(s, c, k), b, x);
    assert Wired(t) && Grows(s, t);
    forall i | 0 <= i < |x.resets| ensures ResetOk(t, b, x.resets[i]) {
      if i < |s.bridges[b].resets| {
        assert ResetOk(s, b, s.bridges[b].resets[i]);
      }
    }
  }

  lemma OthersOfSameBridge(s: State, c: nat, x: Bridge)
    requires Inv(s) && c < |s.conns| && x == BriOf(s, c).(resets := x.resets, foreign := x.foreign)
    requires BriOf(s, c).foreign ==> x.foreign
    ensures forall d | 0 <= d < |s.conns| && s.conns[d].bri == s.conns[c].bri ::
              ConnOk(d, s.conns[d], EncOf(s, d), x)
  {
    hide BridgeOk, EnclaveOk, ShakeConn, BeatConn;
    forall d | 0 <= d < |s.conns| && s.conns[d].bri == s.conns[c].bri
      ensures ConnOk(d, s.conns[d], EncOf(s, d), x)
    {
      assert ConnOk(d, s.conns[d], EncOf(s, d), BriOf(s, d));
      ResetsPlayNoPart(d, s.conns[d], EncOf(s, d), BriOf(s, d), x);
    }
  }

  lemma ResetsPlayNoPart(c: nat, k: Conn, e: Enclave, b: Bridge, x: Bridge)
    requires ConnOk(c, k, e, b) && x == b.(resets := x.resets, foreign := x.foreign) && (b.foreign ==> x.foreign)
    ensures ConnOk(c, k, e, x)
  {
    hide ShakeConn, BeatConn, CanWatch;
    SameConfig(k, e.settings, b, x);
  }

  lemma KeepWatchTake(s: State, c: nat, n: nat)
    requires Inv(s) && Enabled(s, WatchTake(c, n))
    ensures Inv(Apply(s, WatchTake(c, n)))
  {
    hide ConnOk, BridgeOk, EnclaveOk, Grows, Apply, Accepts, BeatHeard;
    var k, e, b := s.conns[c], EncOf(s, c), BriOf(s, c);
    assert ConnOk(c, k, e, b);
    StillCanWatch(s, k.bri);
    WatchTakeConn(c, k, e, b, n);
    var k', x := AfterWatch(k, b.cfg.value.enclaveId, n), BridgeAfterWatch(c, k, b, n);
    WatchApplied(s, c, n);
    WatchReset(s, c, k', x);
    OthersOfSameBridge(s, c, x);
    BridgeMove(s, c, k', x);
  }

  lemma WatchApplied(s: State, c: nat, n: nat)
    requires Wired(s) && Enabled(s, WatchTake(c, n))
    ensures var k, b := s.conns[c], BriOf(s, c);
            Apply(s, WatchTake(c, n)) ==
            SetBri(SetConn(s, c, AfterWatch(k, b.cfg.value.enclaveId, n)), k.bri, BridgeAfterWatch(c, k, b, n))
  {
    hide Pipe.Take, Pipe.Completes, Pipe.Valid, Accepts, Members, CanWatch;
    var k, b := s.conns[c], s.conns[c].bri;
    if k.up.Completes(n) {
      var q := k.up.Completed(n);
    }
    assert s.conns[c := k.(up := k.up.Take(n))][c := k.(up := k.up.Take(n), bopen := false)]
        == s.conns[c := k.(up := k.up.Take(n), bopen := false)];
    assert s.bridges[b := s.bridges[b]] == s.bridges;
  }

  lemma WatchBeatWrites(c: nat, k: Conn, e: Enclave, b: Bridge)
    requires ConnOk(c, k, e, b) && k.role.Watched? && b.cfg.Some? && k.down.Valid()
    ensures ConnOk(c, k.(down := k.down.Write(Heartbeats.Beat(b.cfg.value.enclaveId))), e, b)
  {
    BeatWrite(k.down, b.cfg.value.enclaveId);
  }

  lemma KeepWatchBeat(s: State, c: nat)
    requires Inv(s) && Enabled(s, WatchBeat(c))
    ensures Inv(Apply(s, WatchBeat(c)))
  {
    hide ConnOk, BridgeOk, EnclaveOk, Grows;
    var k, b := s.conns[c], BriOf(s, c);
    assert ConnOk(c, k, EncOf(s, c), b);
    WatchBeatWrites(c, k, EncOf(s, c), b);
    ConnMove(s, c, k.(down := k.down.Write(Heartbeats.Beat(b.cfg.value.enclaveId))));
  }

  lemma BeatWrites(c: nat, k: Conn, e: Enclave, b: Bridge)
    requires ConnOk(c, k, e, b) && k.use.Beats? && k.up.Valid()
    ensures ConnOk(c, k.(up := k.up.Write(Heartbeats.Beat(e.settings.enclaveId))), e, b)
  {
    BeatWrite(k.up, e.settings.enclaveId);
  }

  lemma KeepBeat(s: State, c: nat)
    requires Inv(s) && Enabled(s, Move.Beat(c))
    ensures Inv(Apply(s, Move.Beat(c)))
  {
    hide ConnOk, BridgeOk, EnclaveOk, Grows;
    var k, e := s.conns[c], EncOf(s, c);
    assert ConnOk(c, k, e, BriOf(s, c));
    BeatWrites(c, k, e, BriOf(s, c));
    ConnMove(s, c, k.(up := k.up.Write(Heartbeats.Beat(e.settings.enclaveId))));
  }

  /** Whether the read ends in a frame the enclave's watchdog accepts. */
  predicate EchoHeard(k: Conn, id: Uuid, n: nat)
    requires k.down.Valid() && n <= |k.down.log| - k.down.at
  {
    k.down.Completes(n) && k.down.Take(n).rd.frames != [] && Accepts(id, Last(k.down.Take(n).rd.frames))
  }

  function AfterEcho(k: Conn, id: Uuid, n: nat): Conn
    requires k.down.Valid() && n <= |k.down.log| - k.down.at
  {
    k.(down := k.down.Take(n), eopen := k.eopen && (!k.down.Completes(n) || EchoHeard(k, id, n)))
  }

  lemma BeatTakeConn(c: nat, k: Conn, e: Enclave, b: Bridge, n: nat)
    requires ConnOk(c, k, e, b) && k.use.Beats?
    requires k.down.Valid() && 0 < n <= |k.down.log| - k.down.at
    ensures ConnOk(c, AfterEcho(k, e.settings.enclaveId, n), e, b)
    ensures EchoHeard(k, e.settings.enclaveId, n) ==>
              k.role.Watched? && b.cfg.Some? && b.cfg.value.enclaveId == e.settings.enclaveId
  {
    hide BeatPipe, Accepts, Pipe.Take, Pipe.Completes, Pipe.Valid, Heartbeats.Beat, BeginsAck, ShakeConn;
    if k.role.Watched? {
      EchoFrame(k.down, b.cfg.value.enclaveId, e.settings.enclaveId, n);
    } else if EchoHeard(k, e.settings.enclaveId, n) {
      NoFrameBegins(k.down, e.settings.enclaveId, n);
    }
  }

  /** What an enclave's watchdog accepts from a bridge's is the bridge's ID. */
  lemma EchoFrame(p: Pipe, id: Uuid, own: Uuid, n: nat)
    requires BeatPipe(p, id) && own != NIL && 0 < n <= |p.log| - p.at
    ensures BeatPipe(p.Take(n), id)
    ensures p.Completes(n) && p.Take(n).rd.frames != [] && Accepts(own, Last(p.Take(n).rd.frames)) ==> id == own
  {
    hide BeatPipe, Accepts, Pipe.Take, Pipe.Completes, Pipe.Valid, Heartbeats.Beat;
    BeatTaken(p, id, n);
    if p.Completes(n) {
      var j, frame := BeatFrame(p, id, n);
      if Accepts(own, frame) {
        BeatAccepted(id, j, frame, own);
      }
    }
  }

  /** An ID that begins as a handshake does has a delimiter in it, so no frame carries it. */
  lemma NoFrameBegins(p: Pipe, own: Uuid, n: nat)
    requires p.Valid() && own != NIL && p.at + n <= |p.log| && p.Completes(n) && BeginsAck(own)
    ensures p.Take(n).rd.frames != [] && !Accepts(own, Last(p.Take(n).rd.frames))
  {
    hide Pipe.Take, Pipe.Completes, Pipe.Valid, Pipe.Start, Accepts;
    var q := p.Completed(n);
    var frame := Last(p.Take(n).rd.frames);
    AcceptedIff(own, frame);
    assert own[..2][1] == Heartbeats.Beat(own)[1] == NL;
  }

  lemma EchoReset(s: State, c: nat, k: Conn)
    requires Wired(s) && c < |s.conns| && EnclaveOk(s, s.conns[c].enc) && ConnGrows(s.conns[c], k)
    requires EncOf(s, c).phase.Ready? && k.use.Beats? && k.role.Watched? && BriOf(s, c).cfg.Some?
    requires BriOf(s, c).cfg.value.enclaveId == EncOf(s, c).settings.enclaveId
    ensures var t := SetEnc(SetConn(s, c, k), k.enc, EncOf(s, c).(resets := EncOf(s, c).resets + [c]));
            Wired(t) && EnclaveOk(t, k.enc)
  {
    var e := s.conns[c].enc;
    var x := s.enclaves[e].(resets := s.enclaves[e].resets + [c]);
    var t := SetEnc(SetConn(s, c, k), e, x);
    assert Wired(t) && Grows(s, t);
    forall i | 0 <= i < |x.resets| ensures EchoOk(t, e, x.resets[i]) {
      if i < |s.enclaves[e].resets| {
        assert EchoOk(s, e, s.enclaves[e].resets[i]);
      }
    }
  }

  lemma EchoesPlayNoPart(c: nat, k: Conn, e: Enclave, x: Enclave, b: Bridge)
    requires ConnOk(c, k, e, b) && x == e.(resets := x.resets)
    ensures ConnOk(c, k, x, b)
  {}

  lemma OthersOfSameEnclave(s: State, c: nat, x: Enclave)
    requires Inv(s) && c < |s.conns| && x == EncOf(s, c).(resets := x.resets)
    ensures forall d | 0 <= d < |s.conns| && s.conns[d].enc == s.conns[c].enc ::
              ConnOk(d, s.conns[d], x, BriOf(s, d))
  {
    hide BridgeOk, EnclaveOk, ShakeConn, BeatConn;
    forall d | 0 <= d < |s.conns| && s.conns[d].enc == s.conns[c].enc
      ensures ConnOk(d, s.conns[d], x, BriOf(s, d))
    {
      assert ConnOk(d, s.conns[d], EncOf(s, d), BriOf(s, d));
      EchoesPlayNoPart(d, s.conns[d], EncOf(s, d), x, BriOf(s, d));
    }
  }

  lemma KeepBeatTake(s: State, c: nat, n: nat)
    requires Inv(s) && Enabled(s, BeatTake(c, n))
    ensures Inv(Apply(s, BeatTake(c, n)))
  {
    hide ConnOk, BridgeOk, EnclaveOk, Grows, Apply, Accepts, EchoHeard;
    var k, e, b := s.conns[c], EncOf(s, c), BriOf(s, c);
    assert ConnOk(c, k, e, b);
    BeatTakeConn(c, k, e, b, n);
    var id := e.settings.enclaveId;
    var k' := AfterEcho(k, id, n);
    BeatApplied(s, c, n);
    if EchoHeard(k, id, n) {
      var x := e.(resets := e.resets + [c]);
      EchoReset(s, c, k');
      OthersOfSameEnclave(s, c, x);
      EchoesPlayNoPart(c, k', e, x, b);
      EnclaveMove(s, c, k', x);
    } else {
      ConnMove(s, c, k');
    }
  }

  lemma BeatApplied(s: State, c: nat, n: nat)
    requires Wired(s) && Enabled(s, BeatTake(c, n))
    ensures var k, e := s.conns[c], EncOf(s, c);
            var t := SetConn(s, c, AfterEcho(k, e.settings.enclaveId, n));
            Apply(s, BeatTake(c, n)) ==
            if EchoHeard(k, e.settings.enclaveId, n) then SetEnc(t, k.enc, e.(resets := e.resets + [c])) else t
  {
    hide Pipe.Take, Pipe.Completes, Pipe.Valid, Accepts;
    var k := s.conns[c];
    if k.down.Completes(n) {
      var q := k.down.Completed(n);
    }
    assert s.conns[c := k.(down := k.down.Take(n))][c := k.(down := k.down.Take(n), eopen := false)]
        == s.conns[c := k.(down := k.down.Take(n), eopen := false)];
  }
}
