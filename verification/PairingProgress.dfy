/**
  A handshake that nobody gives up goes on to its end: the enclave has its last ACK, or the bridge has ended for
  want of a known log level or of a watchdog, and which it is depends on the settings alone.
 */
module PairingProgress {
  import opened Options
  import opened Streams
  import opened Heartbeats
  import opened Settings
  import opened Pairing
  import opened PairingPipes
  import opened PairingInvariant
  import opened PairingSteps
  import opened PairingTheorems
  import BridgeRun
  import Environment
  import JsonEnds

  /** The steps of the two ends of a handshake on connection c, and of the bridge b in between. */
  predicate OfHandshake(m: Move, c: nat, b: nat) {
    match m
    case EWrite(d) => d == c
    case ETake(d, _) => d == c
    case BTake(d, _) => d == c
    case BWrite(d) => d == c
    case Submit(d) => d == b
    case Refuse(d) => d == b
    case _ => false
  }

  /** One end of the handshake goes away. */
  predicate GivesUp(m: Move, c: nat, e: nat, b: nat) {
    m == EQuit(c) || m == EnclaveDies(e) || m == BridgeDies(b) || m == TearDown(b)
  }

  /** Both ends are on this connection. */
  predicate Joined(s: State, c: nat)
    requires Wired(s)
  {
    Held(s, c) && s.conns[c].role.Paired?
  }

  /** ... and alive. */
  predicate Shakes(s: State, c: nat)
    requires Wired(s)
  {
    Joined(s, c) && !BriOf(s, c).phase.Down?
  }

  /** Bytes to be read, frames to be written and members to be started, to the end of the handshake. */
  function Left(s: State, c: nat): int
    requires Wired(s) && c < |s.conns|
  {
    LeftOn(s.conns[c], EncOf(s, c).settings, BriOf(s, c))
  }

  function LeftOn(k: Conn, settings: BridgeSettings, b: Bridge): int {
    (|ACK| + |ConfigFrame(settings)| - k.up.at) + (|EnvFrame(b.env)| + |ACK| - k.down.at)
    + (2 - k.ew) + (2 - k.bw) + Members(settings) - b.submitted + if b.phase.Down? then 0 else 1
  }

  /** What the enclave can parse looks like JSON. */
  lemma EnvMayBeJson(env: seq<byte>)
    requires Plain(env) && Environment.ParseEnv(EnvFrame(env)).Some?
    ensures MayBeJson(EnvFrame(env))
  {
    JsonEnds.JsonFrameEnds(EnvFrame(env));
  }

  /** Where the two ends can be. */
  lemma LockStep(k: Conn, settings: BridgeSettings, b: Bridge)
    requires ShakeConn(k, settings, b) && k.role.Paired?
    ensures k.er <= k.bw <= k.br <= k.ew <= k.er + 1 && k.ew <= 2 && (k.eopen ==> k.er < 2)
    ensures k.up.Valid() && k.down.Valid()
    ensures k.up.at <= |ACK| + |ConfigFrame(settings)| && k.down.at <= |EnvFrame(b.env)| + |ACK|
    ensures k.er == 1 ==> k.down.rd.frames == [EnvFrame(b.env)]
  {
    hide ConfigFrame, EnvFrame, BeatPipe;
  }

  /** What the invariant says of such a connection. */
  lemma ShakesFacts(s: State, c: nat)
    requires Inv(s) && Shakes(s, c)
    ensures ShakeConn(s.conns[c], EncOf(s, c).settings, BriOf(s, c))
    ensures var k, b := s.conns[c], BriOf(s, c);
            if k.br < 2 then b.phase.Handshaking? && b.submitted == 0
            else b.phase.Running? && b.cfg == Some(EncOf(s, c).settings) && Started(b)
    ensures Plain(BriOf(s, c).env) && MayBeJson(EnvFrame(BriOf(s, c).env))
  {
    hide ShakeConn, BeatConn, EnclaveOk, MayBeJson, EnvFrame, Started;
    assert ConnOk(c, s.conns[c], EncOf(s, c), BriOf(s, c));
    assert BridgeOk(s, s.conns[c].bri);
    EnvMayBeJson(BriOf(s, c).env);
    LockStep(s.conns[c], EncOf(s, c).settings, BriOf(s, c));
  }

  /** A direction in which a frame is under way has bytes left to read. */
  lemma Unread(k: Conn, settings: BridgeSettings, b: Bridge)
    requires ShakeConn(k, settings, b) && k.role.Paired? && Plain(b.env)
    ensures k.br < k.ew ==> k.up.at < |k.up.log|
    ensures k.er < k.bw ==> k.down.at < |k.down.log|
  {
    hide Said, Heard, ConfigFrame, EnvFrame, BeatPipe, IsFrame;
    ConfigIsFrame(settings);
    AckIsFrame();
    EnvIsFrame(b.env);
    if k.br < k.ew {
      ShakeUnread(k.up, ACK, ConfigFrame(settings), k.ew, k.br);
    }
    if k.er < k.bw {
      ShakeUnread(k.down, EnvFrame(b.env), ACK, k.bw, k.er);
    }
  }

  /** In every state of a handshake whose ends are both alive, one of them can take its next step. */
  lemma HandshakeGoesOn(s: State, c: nat) returns (m: Move)
    requires Reachable(s) && Wired(s) && Shakes(s, c)
    ensures OfHandshake(m, c, s.conns[c].bri) && Enabled(s, m)
  {
    hide Inv, Reachable, ShakeConn, EnvFrame, MayBeJson, Plain, Started, MayStart;
    ReachableInv(s);
    ShakesFacts(s, c);
    var k, b := s.conns[c], BriOf(s, c);
    LockStep(k, EncOf(s, c).settings, b);
    Unread(k, EncOf(s, c).settings, b);
    if k.ew == k.er {
      m := EWrite(c);
    } else if k.bw < k.br {
      m := BridgeGoesOn(s, c);
    } else if k.br < k.ew {
      m := BTake(c, 1);
    } else {
      m := ETake(c, 1);
    }
  }

  /** A bridge that has read more frames than it has answered writes, or has members to start first. */
  lemma BridgeGoesOn(s: State, c: nat) returns (m: Move)
    requires Wired(s) && Shakes(s, c)
    requires var k, b := s.conns[c], BriOf(s, c);
             && k.down.Valid() && k.bw < k.br <= 2
             && if k.br < 2 then b.phase.Handshaking?
                else b.phase.Running? && b.cfg.Some?
    ensures OfHandshake(m, c, s.conns[c].bri) && Enabled(s, m)
  {
    hide AllStarted, MayStart, Pipe.Valid;
    var k, b := s.conns[c], BriOf(s, c);
    m := if k.br == 1 || AllStarted(b) then BWrite(c) else if MayStart(b) then Submit(k.bri) else Refuse(k.bri);
  }

  /** Every such step leaves less to do, which is never less than nothing: the handshake ends. */
  lemma HandshakeEnds(s: State, m: Move, c: nat)
    requires Reachable(s) && Wired(s) && Shakes(s, c) && OfHandshake(m, c, s.conns[c].bri) && Enabled(s, m)
    ensures Left(s, c) >= 0
    ensures Wired(Apply(s, m)) && Left(Apply(s, m), c) < Left(s, c)
  {
    hide Inv, Reachable, ShakeConn, EnvFrame, ConfigFrame, MayBeJson, Plain, Pipe.Take, Pipe.Write, Pipe.Valid, Apply,
         MayStart, AllStarted;
    ReachableInv(s);
    ShakesFacts(s, c);
    LockStep(s.conns[c], EncOf(s, c).settings, BriOf(s, c));
    LeftAfter(s, m, c);
  }

  lemma LeftAfter(s: State, m: Move, c: nat)
    requires Wired(s) && Shakes(s, c) && OfHandshake(m, c, s.conns[c].bri) && Enabled(s, m)
    ensures Wired(Apply(s, m)) && Left(Apply(s, m), c) < Left(s, c)
  {
    hide Apply, Left;
    match m
    case EWrite(_) => LeftAfterEWrite(s, c);
    case ETake(_, n) => LeftAfterETake(s, c, n);
    case BTake(_, n) => LeftAfterBTake(s, c, n);
    case BWrite(_) => LeftAfterBWrite(s, c);
    case Submit(_) => LeftAfterSubmit(s, c);
    case Refuse(_) => LeftAfterRefuse(s, c);
  }

  lemma LeftAfterEWrite(s: State, c: nat)
    requires Wired(s) && Enabled(s, EWrite(c))
    ensures Wired(Apply(s, EWrite(c))) && Left(Apply(s, EWrite(c)), c) < Left(s, c)
  {
    hide EnvFrame, ConfigFrame, MayBeJson, Pipe.Write, Pipe.Valid, Members;
  }

  lemma LeftAfterETake(s: State, c: nat, n: nat)
    requires Wired(s) && Enabled(s, ETake(c, n))
    ensures Wired(Apply(s, ETake(c, n))) && Left(Apply(s, ETake(c, n)), c) < Left(s, c)
  {
    hide EnvFrame, ConfigFrame, Pipe.Take, Pipe.Valid, Pipe.Completes, Members, Last;
  }

  lemma LeftAfterBTake(s: State, c: nat, n: nat)
    requires Wired(s) && Enabled(s, BTake(c, n))
    ensures Wired(Apply(s, BTake(c, n))) && Left(Apply(s, BTake(c, n)), c) < Left(s, c)
  {
    hide EnvFrame, ConfigFrame, Pipe.Take, Pipe.Valid, Pipe.Completes, Members, Last, Welcome, ParseConfig, Apply;
    BTakeApplied(s, c, n);
  }

  lemma LeftAfterBWrite(s: State, c: nat)
    requires Wired(s) && Enabled(s, BWrite(c))
    ensures Wired(Apply(s, BWrite(c))) && Left(Apply(s, BWrite(c)), c) < Left(s, c)
  {
    hide EnvFrame, ConfigFrame, Pipe.Write, Pipe.Valid, Members;
  }

  lemma LeftAfterSubmit(s: State, c: nat)
    requires Wired(s) && c < |s.conns| && Enabled(s, Submit(s.conns[c].bri))
    ensures Wired(Apply(s, Submit(s.conns[c].bri)))
    ensures Left(Apply(s, Submit(s.conns[c].bri)), c) < Left(s, c)
  {
    hide EnvFrame, ConfigFrame, Members, MayStart;
  }

  lemma LeftAfterRefuse(s: State, c: nat)
    requires Wired(s) && c < |s.conns| && Enabled(s, Refuse(s.conns[c].bri))
    ensures Wired(Apply(s, Refuse(s.conns[c].bri)))
    ensures Left(Apply(s, Refuse(s.conns[c].bri)), c) < Left(s, c)
  {
    hide EnvFrame, ConfigFrame, Members, MayStart, AllStarted;
  }

  // ------------------------------------------------------------------------------------------
  // How it ends
  // ------------------------------------------------------------------------------------------

  /** The bridge gets as far as its ACK, by what a run of it comes to. */
  predicate RunsOn(settings: BridgeSettings, levels: set<string>) {
    BridgeRun.EndingOf(settings, levels, true, None).Waited?
  }

  /** The bridge has ended, with members left that it could not start; the enclave still waits. */
  predicate Refused(s: State, c: nat)
    requires Wired(s)
  {
    && Joined(s, c) && BriOf(s, c).phase.Down? && BriOf(s, c).cfg.Some?
    && !AllStarted(BriOf(s, c)) && !MayStart(BriOf(s, c))
  }

  /** The enclave has its ACK, and the bridge watches. */
  predicate Told(s: State, c: nat)
    requires Wired(s)
  {
    c < |s.conns| && EncOf(s, c).phase == Ready(true) && Watching(BriOf(s, c))
  }

  /** Each of the steps of a handshake leaves it under way, or ends it in one of these two ways. */
  lemma OwnStep(s: State, m: Move, c: nat)
    requires Wired(s) && Inv(s) && Shakes(s, c) && OfHandshake(m, c, s.conns[c].bri) && Enabled(s, m)
    ensures var t := Apply(s, m);
            && Wired(t) && c < |t.conns|
            && (Shakes(t, c) || (Told(t, c) && RunsOn(EncOf(s, c).settings, BriOf(s, c).levels))
                || (Refused(t, c) && !RunsOn(EncOf(s, c).settings, BriOf(s, c).levels)))
  {
    hide Inv, ShakeConn, EnvFrame, ConfigFrame, MayBeJson, Plain, Apply, RunsOn, Started, MayStart, AllStarted, Refused;
    ShakesFacts(s, c);
    match m
    case ETake(_, n) => LastFrameIsAck(s, c, n);
    case BTake(_, n) => FramesAreWelcome(s, c, n);
    case Refuse(_) => RefusedSettings(s, c);
    case _ => OthersGoOn(s, m, c);
  }

  /** Members that have been started, or could not be, decide how a run of the bridge ends. */
  lemma StartedRunsOn(b: Bridge)
    requires b.cfg.Some? && Started(b)
    ensures AllStarted(b) ==> RunsOn(b.cfg.value, b.levels)
    ensures !AllStarted(b) && !MayStart(b) ==> !RunsOn(b.cfg.value, b.levels)
  {}

  lemma RefusedSettings(s: State, c: nat)
    requires Wired(s) && Shakes(s, c) && Enabled(s, Refuse(s.conns[c].bri))
    requires var k, b := s.conns[c], BriOf(s, c);
             if k.br < 2 then b.phase.Handshaking? else b.cfg == Some(EncOf(s, c).settings) && Started(b)
    ensures var t := Apply(s, Refuse(s.conns[c].bri));
            Wired(t) && c < |t.conns| && Refused(t, c) && !RunsOn(EncOf(s, c).settings, BriOf(s, c).levels)
  {
    StartedRunsOn(BriOf(s, c));
    hide Members, KnownLevel, CanWatch, Pipe.Valid, Started, RunsOn;
  }

  lemma LastFrameIsAck(s: State, c: nat, n: nat)
    requires Wired(s) && Inv(s) && Shakes(s, c) && Enabled(s, ETake(c, n))
    ensures var t := Apply(s, ETake(c, n));
            && Wired(t) && c < |t.conns|
            && (Shakes(t, c) || (Told(t, c) && RunsOn(EncOf(s, c).settings, BriOf(s, c).levels)))
  {
    hide Inv, ShakeConn, EnvFrame, MayBeJson, Plain, Apply, Started, AllStarted, RunsOn;
    ShakesFacts(s, c);
    AckComes(s, c, n);
    LastOfBridge(s, c);
    if s.conns[c].br == 2 {
      StartedRunsOn(BriOf(s, c));
    }
  }

  lemma AckComes(s: State, c: nat, n: nat)
    requires Wired(s) && Shakes(s, c) && Enabled(s, ETake(c, n))
    requires ShakeConn(s.conns[c], EncOf(s, c).settings, BriOf(s, c)) && Plain(BriOf(s, c).env)
    ensures var t := Apply(s, ETake(c, n));
            && Wired(t) && c < |t.conns| && BriOf(t, c) == BriOf(s, c)
            && (Shakes(t, c) || (EncOf(t, c).phase == Ready(true) && s.conns[c].bw == 2 && s.conns[c].br == 2))
  {
    hide Said, Heard, EnvFrame, ConfigFrame, BeatPipe, Pipe.Take, Pipe.Completes, IsFrame, MayBeJson;
    var k, b := s.conns[c], BriOf(s, c);
    EnvIsFrame(b.env);
    AckIsFrame();
    FrameUnderWay(k.down, EnvFrame(b.env), ACK, k.bw, k.er);
    ShakeTake(k.down, EnvFrame(b.env), ACK, k.bw, k.er, n);
  }

  lemma LastOfBridge(s: State, c: nat)
    requires Wired(s) && Inv(s) && c < |s.conns|
    ensures s.conns[c].bw == 2 ==> AllStarted(BriOf(s, c))
  {
    hide ShakeConn, BeatConn, BridgeOk, EnclaveOk, AllStarted;
    assert ConnOk(c, s.conns[c], EncOf(s, c), BriOf(s, c));
  }

  lemma FramesAreWelcome(s: State, c: nat, n: nat)
    requires Wired(s) && Shakes(s, c) && Enabled(s, BTake(c, n))
    requires ShakeConn(s.conns[c], EncOf(s, c).settings, BriOf(s, c))
    ensures var t := Apply(s, BTake(c, n)); Wired(t) && c < |t.conns| && Shakes(t, c)
  {
    hide ShakeConn, ConfigFrame, Pipe.Take, Pipe.Completes, Welcome, ParseConfig, Apply, DoBTake;
    BTakeShake(s.conns[c], EncOf(s, c).settings, BriOf(s, c), n);
    WelcomeGoesOn(s, c, n);
  }

  lemma WelcomeGoesOn(s: State, c: nat, n: nat)
    requires Wired(s) && Shakes(s, c) && Enabled(s, BTake(c, n))
    requires var k := s.conns[c];
             k.up.Completes(n) ==> k.up.Take(n).rd.frames != [] && Welcome(k.br, Last(k.up.Take(n).rd.frames))
    ensures var t := Apply(s, BTake(c, n)); Wired(t) && c < |t.conns| && Shakes(t, c)
  {
    hide ConfigFrame, Pipe.Take, Pipe.Completes, Pipe.Valid, ParseConfig;
  }

  lemma OthersGoOn(s: State, m: Move, c: nat)
    requires Wired(s) && Shakes(s, c) && Enabled(s, m) && OfHandshake(m, c, s.conns[c].bri) && !m.ETake? && !m.BTake?
    requires !m.Refuse?
    ensures var t := Apply(s, m); Wired(t) && c < |t.conns| && Shakes(t, c)
  {
    hide MayStart, AllStarted, Pipe.Take, Pipe.Completes, Pipe.Valid, Pipe.Write, MayBeJson, ConfigFrame, EnvFrame;
  }

  // ------------------------------------------------------------------------------------------
  // Everyone else
  // ------------------------------------------------------------------------------------------

  /** The connection is as it was, and so is what the handshake needs of its two ends. */
  ghost predicate Undisturbed(s: State, t: State, c: nat)
    requires Wired(s) && c < |s.conns|
  {
    && Wired(t) && c < |t.conns| && t.conns[c] == s.conns[c]
    && EncOf(t, c).settings == EncOf(s, c).settings && EncOf(t, c).phase == EncOf(s, c).phase
    && BriOf(t, c) == BriOf(s, c).(resets := BriOf(t, c).resets, foreign := BriOf(t, c).foreign)
  }

  lemma StillShakes(s: State, t: State, c: nat)
    requires Wired(s) && Shakes(s, c) && Undisturbed(s, t, c)
    ensures Wired(t) && c < |t.conns| && Shakes(t, c) && Left(t, c) == Left(s, c)
  {
    hide EnvFrame, ConfigFrame, Members;
  }

  /** Whatever else goes on, a handshake is where it was, with as much left of it as before. */
  lemma OthersDoNotDisturb(s: State, m: Move, c: nat)
    requires Reachable(s) && Wired(s) && Shakes(s, c) && Enabled(s, m)
    requires !OfHandshake(m, c, s.conns[c].bri) && !GivesUp(m, c, s.conns[c].enc, s.conns[c].bri)
    ensures var t := Apply(s, m); Wired(t) && c < |t.conns| && Shakes(t, c) && Left(t, c) == Left(s, c)
  {
    hide Reachable, Inv, Apply, Enabled, Left, Undisturbed;
    ReachableInv(s);
    OthersAside(s, m, c);
    StillShakes(s, Apply(s, m), c);
  }

  lemma OthersAside(s: State, m: Move, c: nat)
    requires Wired(s) && Inv(s) && Joined(s, c) && Enabled(s, m)
    requires !OfHandshake(m, c, s.conns[c].bri) && !GivesUp(m, c, s.conns[c].enc, s.conns[c].bri)
    ensures Undisturbed(s, Apply(s, m), c)
  {
    hide Inv, Apply, Enabled, Undisturbed, Joined;
    match m {
      case EWrite(d) => OtherEnclave(s, m, c, d);
      case ETake(d, _) => OtherEnclave(s, m, c, d);
      case EQuit(d) => OtherEnclave(s, m, c, d);
      case Accept(d) => OtherAccept(s, c, d);
      case BTake(d, n) => OtherBTake(s, c, d, n);
      case WatchTake(d, n) => OtherWatch(s, c, d, n);
      case BeatTake(d, n) => OtherBeats(s, c, d, n);
      case _ => Elsewhere(s, m, c);
    }
  }

  /** Another handshake that is under way is another enclave's. */
  lemma OtherEnclave(s: State, m: Move, c: nat, d: nat)
    requires Wired(s) && Joined(s, c) && Enabled(s, m) && d != c
    requires m == EWrite(d) || (m.ETake? && m.c == d) || m == EQuit(d)
    ensures Undisturbed(s, Apply(s, m), c)
  {
    hide Pipe.Take, Pipe.Write, Pipe.Valid, Pipe.Completes, MayBeJson, ConfigFrame, Last;
    assert s.conns[d].enc != s.conns[c].enc;
  }

  /** A bridge accepts one connection for its handshake. */
  lemma OtherAccept(s: State, c: nat, d: nat)
    requires Wired(s) && Inv(s) && Joined(s, c) && Enabled(s, Accept(d))
    ensures Undisturbed(s, Apply(s, Accept(d)), c)
  {
    hide Inv, Pipe.Valid;
    if s.conns[d].bri == s.conns[c].bri {
      OneHome(s, c, d);
      assert false;
    }
  }

  lemma OtherBTake(s: State, c: nat, d: nat, n: nat)
    requires Wired(s) && Inv(s) && Joined(s, c) && Enabled(s, BTake(d, n)) && d != c
    ensures Undisturbed(s, Apply(s, BTake(d, n)), c)
  {
    hide Inv, Pipe.Take, Pipe.Valid, Pipe.Completes, Welcome, ParseConfig, Last;
    if s.conns[d].bri == s.conns[c].bri {
      OneHome(s, c, d);
      assert false;
    }
  }

  lemma OneHome(s: State, c: nat, d: nat)
    requires Inv(s) && Joined(s, c) && d < |s.conns| && s.conns[d].bri == s.conns[c].bri
    ensures s.conns[d].role.Paired? ==> d == c
    ensures !BriOf(s, c).phase.Listening?
  {
    hide ShakeConn, BeatConn, EnclaveOk, Started;
    assert ConnOk(c, s.conns[c], EncOf(s, c), BriOf(s, c));
    assert ConnOk(d, s.conns[d], EncOf(s, d), BriOf(s, d));
    assert BridgeOk(s, s.conns[c].bri);
  }

  /** Heartbeats travel on other connections; all they change beside them is who has been heard. */
  lemma OtherWatch(s: State, c: nat, d: nat, n: nat)
    requires Wired(s) && Joined(s, c) && Enabled(s, WatchTake(d, n))
    ensures Undisturbed(s, Apply(s, WatchTake(d, n)), c)
  {
    hide Pipe.Take, Pipe.Valid, Pipe.Completes, Accepts, Last, Members, CanWatch, BeatHeard, Apply;
    WatchApplied(s, d, n);
    assert d != c;
  }

  lemma OtherBeats(s: State, c: nat, d: nat, n: nat)
    requires Wired(s) && Joined(s, c) && Enabled(s, BeatTake(d, n))
    ensures Undisturbed(s, Apply(s, BeatTake(d, n)), c)
  {
    hide Pipe.Take, Pipe.Valid, Pipe.Completes, Accepts, Last, EchoHeard, Apply;
    BeatApplied(s, d, n);
    assert d != c && s.conns[d].enc != s.conns[c].enc;
  }

  lemma Elsewhere(s: State, m: Move, c: nat)
    requires Wired(s) && Joined(s, c) && Enabled(s, m)
    requires !OfHandshake(m, c, s.conns[c].bri) && !GivesUp(m, c, s.conns[c].enc, s.conns[c].bri)
    requires !m.EWrite? && !m.ETake? && !m.EQuit? && !m.Accept? && !m.BTake? && !m.WatchTake? && !m.BeatTake?
    ensures Undisturbed(s, Apply(s, m), c)
  {
    hide Pipe.Write, Pipe.Valid, EnvFrame, CanWatch, CanBeat, AllStarted, MayStart;
  }

  // ------------------------------------------------------------------------------------------
  // Whole runs
  // ------------------------------------------------------------------------------------------

  /** Whose connection it is, and what its two ends started with, never changes. */
  lemma SameEnds(s: State, m: Move, c: nat)
    requires Wired(s) && Inv(s) && Enabled(s, m) && c < |s.conns|
    ensures var t := Apply(s, m);
            && Wired(t) && c < |t.conns| && t.conns[c].enc == s.conns[c].enc && t.conns[c].bri == s.conns[c].bri
            && EncOf(t, c).settings == EncOf(s, c).settings && BriOf(t, c).levels == BriOf(s, c).levels
  {
    hide Apply, Enabled, Inv;
    KeepInv(s, m);
    StillWired(Apply(s, m));
    ConnKeeps(s, m, c);
    EnclaveKeeps(s, m, s.conns[c].enc);
    BridgeKeeps(s, m, s.conns[c].bri);
  }

  lemma StillWired(s: State)
    requires Inv(s)
    ensures Wired(s)
  {
    hide ConnOk, BridgeOk, EnclaveOk;
  }

  lemma ConnKeeps(s: State, m: Move, c: nat)
    requires Wired(s) && Enabled(s, m) && c < |s.conns|
    ensures c < |Apply(s, m).conns|
    ensures Apply(s, m).conns[c].enc == s.conns[c].enc && Apply(s, m).conns[c].bri == s.conns[c].bri
  {
    hide Apply, Enabled;
    match m
    case BTake(_, _) => ReadKeeps(s, m, c);
    case WatchTake(_, _) => ReadKeeps(s, m, c);
    case BeatTake(_, _) => ReadKeeps(s, m, c);
    case ETake(d, n) => ETakeKeeps(s, c, d, n);
    case _ => OtherKeeps(s, m, c);
  }

  lemma ETakeKeeps(s: State, c: nat, d: nat, n: nat)
    requires Wired(s) && Enabled(s, ETake(d, n)) && c < |s.conns|
    ensures var t := Apply(s, ETake(d, n));
            c < |t.conns| && t.conns[c].enc == s.conns[c].enc && t.conns[c].bri == s.conns[c].bri
  {
    hide Pipe.Take, Pipe.Valid, Pipe.Completes, Last;
  }

  lemma OtherKeeps(s: State, m: Move, c: nat)
    requires Wired(s) && Enabled(s, m) && c < |s.conns| && !m.BTake? && !m.WatchTake? && !m.BeatTake? && !m.ETake?
    ensures c < |Apply(s, m).conns|
    ensures Apply(s, m).conns[c].enc == s.conns[c].enc && Apply(s, m).conns[c].bri == s.conns[c].bri
  {
    hide Pipe.Take, Pipe.Write, Pipe.Valid, Heartbeats.Beat, CanWatch, CanBeat, MayBeJson, EnvFrame, ConfigFrame,
         MayStart, AllStarted;
  }

  lemma ReadKeeps(s: State, m: Move, c: nat)
    requires Wired(s) && Enabled(s, m) && c < |s.conns| && (m.BTake? || m.WatchTake? || m.BeatTake?)
    ensures c < |Apply(s, m).conns|
    ensures Apply(s, m).conns[c].enc == s.conns[c].enc && Apply(s, m).conns[c].bri == s.conns[c].bri
  {
    hide Pipe.Take, Pipe.Write, Pipe.Valid, Pipe.Completes, Accepts, Heartbeats.Beat, CanWatch, CanBeat, MayBeJson,
         EnvFrame, ConfigFrame, Welcome, ParseConfig, MayStart, AllStarted, Last,
         Apply, BeatHeard, EchoHeard;
    match m
    case BTake(d, n) => BTakeApplied(s, d, n);
    case WatchTake(d, n) => WatchApplied(s, d, n);
    case BeatTake(d, n) => BeatApplied(s, d, n);
  }

  lemma EnclaveKeeps(s: State, m: Move, e: nat)
    requires Wired(s) && Enabled(s, m) && e < |s.enclaves|
    ensures e < |Apply(s, m).enclaves| && Apply(s, m).enclaves[e].settings == s.enclaves[e].settings
  {
    hide Pipe.Take, Pipe.Write, Pipe.Valid, Pipe.Completes, Accepts, Heartbeats.Beat, CanWatch, CanBeat, MayBeJson,
         EnvFrame, ConfigFrame, Welcome, ParseConfig, MayStart, AllStarted, Last;
  }

  lemma BridgeKeeps(s: State, m: Move, b: nat)
    requires Wired(s) && Enabled(s, m) && b < |s.bridges|
    ensures b < |Apply(s, m).bridges| && Apply(s, m).bridges[b].levels == s.bridges[b].levels
  {
    hide Pipe.Take, Pipe.Write, Pipe.Valid, Pipe.Completes, Accepts, Heartbeats.Beat, CanWatch, CanBeat, MayBeJson,
         EnvFrame, ConfigFrame, Welcome, ParseConfig, MayStart, AllStarted, Last;
  }

  /** A refused handshake stays so. */
  lemma RefusedStays(s: State, m: Move, c: nat)
    requires Wired(s) && Inv(s) && Refused(s, c) && Enabled(s, m)
    requires !GivesUp(m, c, s.conns[c].enc, s.conns[c].bri)
    ensures Wired(Apply(s, m)) && Refused(Apply(s, m), c)
  {
    if !OfHandshake(m, c, s.conns[c].bri) {
      hide Inv, Apply, Enabled, MayStart, AllStarted;
      OthersAside(s, m, c);
      StillRefused(s, Apply(s, m), c);
    } else {
      NoAckYet(s, c);
      hide Inv;
      EnclaveStillWaits(s, m, c);
    }
  }

  lemma StillRefused(s: State, t: State, c: nat)
    requires Wired(s) && Refused(s, c) && Undisturbed(s, t, c)
    ensures Wired(t) && Refused(t, c)
  {}

  lemma NoAckYet(s: State, c: nat)
    requires Wired(s) && Inv(s) && Refused(s, c)
    ensures ShakeConn(s.conns[c], EncOf(s, c).settings, BriOf(s, c)) && Plain(BriOf(s, c).env)
    ensures s.conns[c].bw < 2
  {
    hide ShakeConn, BeatConn, EnclaveOk, Started, AllStarted, MayStart;
    assert ConnOk(c, s.conns[c], EncOf(s, c), BriOf(s, c));
    assert BridgeOk(s, s.conns[c].bri);
    LockStep(s.conns[c], EncOf(s, c).settings, BriOf(s, c));
    BwAtMost(s.conns[c], EncOf(s, c).settings, BriOf(s, c));
  }

  lemma BwAtMost(k: Conn, settings: BridgeSettings, b: Bridge)
    requires ShakeConn(k, settings, b) && k.role.Paired?
    ensures k.bw <= 2
  {
    hide Said, Heard, EnvFrame, ConfigFrame, BeatPipe;
  }

  lemma EnclaveStillWaits(s: State, m: Move, c: nat)
    requires Wired(s) && Refused(s, c) && Enabled(s, m) && OfHandshake(m, c, s.conns[c].bri)
    requires ShakeConn(s.conns[c], EncOf(s, c).settings, BriOf(s, c)) && Plain(BriOf(s, c).env)
    requires s.conns[c].bw < 2
    ensures Wired(Apply(s, m)) && Refused(Apply(s, m), c)
  {
    hide ShakeConn, Plain, MayStart, AllStarted, Pipe.Take, Pipe.Write, Pipe.Completes, Pipe.Valid, MayBeJson, Apply;
    if m.ETake? {
      ETakePaired(s.conns[c], EncOf(s, c).settings, BriOf(s, c), m.n);
      WaitsAfterRead(s, c, m.n);
    } else {
      WaitsAfterWrite(s, c);
    }
  }

  lemma WaitsAfterRead(s: State, c: nat, n: nat)
    requires Wired(s) && Refused(s, c) && Enabled(s, ETake(c, n)) && s.conns[c].er == 0
    ensures Wired(Apply(s, ETake(c, n))) && Refused(Apply(s, ETake(c, n)), c)
  {
    hide MayStart, AllStarted, Pipe.Take, Pipe.Completes, Pipe.Valid, Last;
  }

  lemma WaitsAfterWrite(s: State, c: nat)
    requires Wired(s) && Refused(s, c) && Enabled(s, EWrite(c))
    ensures Wired(Apply(s, EWrite(c))) && Refused(Apply(s, EWrite(c)), c)
  {
    hide MayStart, AllStarted, Pipe.Write, Pipe.Valid, MayBeJson, ConfigFrame;
  }

  /** An enclave that was told, and a bridge that watches, stay so. */
  lemma ToldStays(s: State, m: Move, c: nat)
    requires Wired(s) && Inv(s) && Told(s, c) && Enabled(s, m) && !GivesUp(m, c, s.conns[c].enc, s.conns[c].bri)
    ensures Wired(Apply(s, m)) && Told(Apply(s, m), c)
  {
    hide Apply, Enabled, Inv;
    SameEnds(s, m, c);
    ReadyStays(s, m, s.conns[c].enc);
    WatchingStays(s, m, s.conns[c].bri);
  }

  lemma ReadyStays(s: State, m: Move, e: nat)
    requires Wired(s) && Enabled(s, m) && e < |s.enclaves| && s.enclaves[e].phase.Ready? && m != EnclaveDies(e)
    ensures e < |Apply(s, m).enclaves| && Apply(s, m).enclaves[e].phase == s.enclaves[e].phase
  {
    hide Pipe.Take, Pipe.Write, Pipe.Valid, Pipe.Completes, Accepts, Heartbeats.Beat, CanWatch, CanBeat, MayBeJson,
         EnvFrame, ConfigFrame, Welcome, ParseConfig, MayStart, AllStarted, Last;
  }

  lemma WatchingStays(s: State, m: Move, b: nat)
    requires Wired(s) && Enabled(s, m) && b < |s.bridges| && Watching(s.bridges[b])
    requires m != BridgeDies(b) && m != TearDown(b)
    ensures b < |Apply(s, m).bridges| && Watching(Apply(s, m).bridges[b])
  {
    hide Pipe.Take, Pipe.Write, Pipe.Valid, Pipe.Completes, Accepts, Heartbeats.Beat, CanWatch, CanBeat, MayBeJson,
         EnvFrame, ConfigFrame, Welcome, ParseConfig, KnownLevel, Last, Members;
  }

  /** Under way, or ended as the settings have it. */
  predicate Outcome(s: State, c: nat, runsOn: bool)
    requires Wired(s)
  {
    Shakes(s, c) || (if runsOn then Told(s, c) else Refused(s, c))
  }

  lemma OutcomeStep(s: State, m: Move, c: nat, runsOn: bool)
    requires Wired(s) && Inv(s) && Enabled(s, m) && Outcome(s, c, runsOn)
    requires !GivesUp(m, c, s.conns[c].enc, s.conns[c].bri)
    requires runsOn == RunsOn(EncOf(s, c).settings, BriOf(s, c).levels)
    ensures Wired(Apply(s, m)) && Outcome(Apply(s, m), c, runsOn)
    ensures Shakes(Apply(s, m), c) ==> Shakes(s, c)
    ensures Shakes(Apply(s, m), c) ==>
              Left(Apply(s, m), c) + (if OfHandshake(m, c, s.conns[c].bri) then 1 else 0) <= Left(s, c)
  {
    hide Inv, Apply, Enabled, RunsOn, Left, Undisturbed, MayStart, AllStarted;
    if !Shakes(s, c) {
      if runsOn {
        ToldStays(s, m, c);
      } else {
        RefusedStays(s, m, c);
      }
    } else if OfHandshake(m, c, s.conns[c].bri) {
      OwnStep(s, m, c);
      LeftAfter(s, m, c);
    } else {
      OthersAside(s, m, c);
      StillShakes(s, Apply(s, m), c);
    }
  }

  /** How many steps of a run are of the handshake. */
  function Own(ms: seq<Move>, c: nat, b: nat): nat {
    if ms == [] then 0 else (if OfHandshake(ms[0], c, b) then 1 else 0) + Own(ms[1..], c, b)
  }

  predicate NobodyGivesUp(ms: seq<Move>, c: nat, e: nat, b: nat) {
    forall m | m in ms :: !GivesUp(m, c, e, b)
  }

  lemma {:induction false} OutcomeRun(s: State, ms: seq<Move>, t: State, c: nat, runsOn: bool)
    requires Wired(s) && Inv(s) && Run(s, ms, t) && Outcome(s, c, runsOn)
    requires NobodyGivesUp(ms, c, s.conns[c].enc, s.conns[c].bri)
    requires runsOn == RunsOn(EncOf(s, c).settings, BriOf(s, c).levels)
    ensures Wired(t) && Inv(t) && Outcome(t, c, runsOn)
    ensures Shakes(t, c) ==> Shakes(s, c) && Left(t, c) + Own(ms, c, s.conns[c].bri) <= Left(s, c)
    decreases ms
  {
    hide Inv, Apply, Enabled, RunsOn, Left, Shakes, Told, Refused, OfHandshake, GivesUp;
    if ms != [] {
      assert ms[0] in ms;
      InRange(s, c, runsOn);
      OutcomeStep(s, ms[0], c, runsOn);
      SameEnds(s, ms[0], c);
      KeepInv(s, ms[0]);
      OutcomeRun(Apply(s, ms[0]), ms[1..], t, c, runsOn);
    }
  }

  lemma InRange(s: State, c: nat, runsOn: bool)
    requires Wired(s) && Outcome(s, c, runsOn)
    ensures c < |s.conns|
  {}

  /**
    And it ends well. In every run in which neither end goes away, whatever else goes on, a handshake is under
    way for no more than so many of its own steps, of which there always is one to take (see HandshakeGoesOn
    and HandshakeEnds). Once it is over, the enclave has the ACK of a bridge that watches if and only if a run
    of the bridge with these settings gets to its ACK; the bridge has ended, with the enclave still waiting, if
    and only if it does not: on a log level that is not known, on the nil ID, or without an interval.
   */
  lemma HandshakeEndsWell(s: State, ms: seq<Move>, t: State, c: nat)
    requires Reachable(s) && Wired(s) && Shakes(s, c) && Run(s, ms, t)
    requires NobodyGivesUp(ms, c, s.conns[c].enc, s.conns[c].bri)
    ensures Wired(t) && c < |t.conns|
    ensures Shakes(t, c) ==> 0 <= Left(t, c) <= Left(s, c) - Own(ms, c, s.conns[c].bri)
    ensures !Shakes(t, c) ==>
              var ending := BridgeRun.EndingOf(EncOf(s, c).settings, BriOf(s, c).levels, true, None);
              && (EncOf(t, c).phase == Ready(true) && Watching(BriOf(t, c)) <==> ending.Waited?)
              && (BriOf(t, c).phase.Down? && EncOf(t, c).phase == Shaking(c) <==>
                    ending.BadLevel? || ending.NoEnclaveId? || ending.Panics?)
  {
    hide Inv, Reachable, Run, Left, NobodyGivesUp, MayStart, AllStarted, Own;
    ReachableInv(s);
    var runsOn := RunsOn(EncOf(s, c).settings, BriOf(s, c).levels);
    OutcomeRun(s, ms, t, c, runsOn);
    if Shakes(t, c) {
      LeftIsNatural(t, c);
    } else {
      Apart(t, c, runsOn);
    }
  }

  lemma LeftIsNatural(s: State, c: nat)
    requires Wired(s) && Inv(s) && Shakes(s, c)
    ensures Left(s, c) >= 0
  {
    hide Inv, ShakeConn, EnvFrame, ConfigFrame, MayBeJson, Plain;
    ShakesFacts(s, c);
    LockStep(s.conns[c], EncOf(s, c).settings, BriOf(s, c));
  }

  /** The two ways to end exclude each other. */
  lemma Apart(s: State, c: nat, runsOn: bool)
    requires Wired(s) && Outcome(s, c, runsOn) && !Shakes(s, c)
    ensures c < |s.conns|
    ensures EncOf(s, c).phase == Ready(true) && Watching(BriOf(s, c)) <==> runsOn
    ensures BriOf(s, c).phase.Down? && EncOf(s, c).phase == Shaking(c) <==> !runsOn
  {
    hide AllStarted, MayStart;
  }
}
