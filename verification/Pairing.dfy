/**
  Enclaves and bridges, across any number of restarts of either, over the one port that carries both
  the handshake and the watchdog's heartbeats. Bytes travel in chunks of the network's choosing; every
  read call has its own buffered reader; any process may die, and any read may fail, at any time.
 */
module Pairing {
  import opened Options
  import opened Streams
  import opened Heartbeats
  import opened Settings
  import Environment

  // ------------------------------------------------------------------------------------------
  // State
  // ------------------------------------------------------------------------------------------

  /** What the enclave dialled the connection for. */
  datatype Use = Shake | Beats

  /** What the bridge does with it: nothing yet, its handshake, or its watchdog's read loop. */
  datatype Role = Queued | Paired | Watched

  /**
    A connection. In a handshake each end alternates between writing and reading frames, so the
    numbers of frames it has written and read (`ew`, `er` for the enclave, `bw`, `br` for the bridge)
    say where in its code it is.
   */
  datatype Conn = Conn(
    enc: nat, bri: nat, use: Use, role: Role,
    ew: nat, er: nat, eopen: bool,
    bw: nat, br: nat, bopen: bool,
    up: Pipe, down: Pipe)

  /** `Ready` is after the handshake connection is closed, with whether the last frame was the ACK. */
  datatype EnclavePhase = Idle | Shaking(c: nat) | Ready(ok: bool) | Gone

  datatype Enclave = Enclave(
    settings: BridgeSettings,
    phase: EnclavePhase,
    committed: Option<nat>,   // the connection its settings were written to
    resets: seq<nat>)         // connections whose frames reset its watchdog

  /** `Down` is without a watchdog for good; the bridge may still be on its way to its ACK. */
  datatype BridgePhase = Listening | Handshaking | Running | Down

  datatype Bridge = Bridge(
    host: map<string, string>,
    env: seq<byte>,
    levels: set<string>,          // the log levels it knows
    phase: BridgePhase,
    home: Option<nat>,            // the one connection it accepted for its handshake
    cfg: Option<BridgeSettings>,
    submitted: nat,               // group members started: server tunnels, client tunnels, watchdog
    resets: seq<nat>,             // connections whose frames reset its watchdog
    foreign: bool)                // a read loop has a foreign frame to report to the event loop

  datatype State = State(enclaves: seq<Enclave>, bridges: seq<Bridge>, conns: seq<Conn>)

  const INIT := State([], [], [])

  /** How many members a bridge starts in its group; see BridgeRun for which, and in what order. */
  function Members(cfg: BridgeSettings): nat {
    2 * |cfg.servers| + |cfg.clients| + 1
  }

  /** The next member can be started: the first needs a log level that is known, the last is the watchdog. */
  predicate MayStart(b: Bridge) {
    && b.cfg.Some? && b.submitted < Members(b.cfg.value)
    && (b.submitted == 0 ==> KnownLevel(b.cfg.value, b.levels))
    && (b.submitted + 1 == Members(b.cfg.value) ==> CanWatch(b.cfg.value))
  }

  predicate AllStarted(b: Bridge) {
    b.cfg.Some? && b.submitted == Members(b.cfg.value)
  }

  // ------------------------------------------------------------------------------------------
  // What the two ends of a handshake say
  // ------------------------------------------------------------------------------------------

  /** The enclave's two frames, and the bridge's. */
  function ConfigFrame(s: BridgeSettings): seq<byte> { ConfigText(s) + [NL] }

  function EnvFrame(env: seq<byte>): seq<byte> { env + [NL] }

  /** What an end has written after n of its two frames. */
  function Said(f: seq<byte>, g: seq<byte>, n: nat): seq<byte> {
    if n == 0 then [] else if n == 1 then f else f + g
  }

  function Heard(f: seq<byte>, g: seq<byte>, n: nat): seq<seq<byte>> {
    if n == 0 then [] else if n == 1 then [f] else [f, g]
  }

  /** A necessary condition for parsing as JSON: no text ends in a control byte other than white space. */
  predicate MayBeJson(frame: seq<byte>) {
    |frame| >= 2 && (frame[|frame| - 2] >= 0x20 || frame[|frame| - 2] in {9, 10, 13})
  }

  // ------------------------------------------------------------------------------------------
  // Moves
  // ------------------------------------------------------------------------------------------

  datatype Move =
    | NewEnclave(settings: BridgeSettings)
    | NewBridge(host: map<string, string>, env: seq<byte>, levels: set<string>)
    | Dial(e: nat, b: nat)           // the enclave opens a handshake connection
    | EWrite(c: nat)                 // ... writes its next frame
    | ETake(c: nat, n: nat)          // ... reads n bytes
    | EQuit(c: nat)                  // ... gives the connection up
    | Accept(c: nat)                 // the bridge accepts its handshake connection
    | BTake(c: nat, n: nat)
    | BWrite(c: nat)
    | Submit(b: nat)                 // the bridge starts its next group member
    | Refuse(b: nat)                 // ... or cannot start it, and ends
    | WatchAccept(c: nat)            // the bridge's watchdog accepts a connection
    | WatchTake(c: nat, n: nat)
    | WatchBeat(c: nat)
    | TearDown(b: nat)               // the event loop receives the report of a foreign frame
    | Redial(e: nat, b: nat)         // the enclave's watchdog opens a connection
    | Beat(c: nat)
    | BeatTake(c: nat, n: nat)
    | EnclaveDies(e: nat)            // or ends its handshake with the connection open, as when a write fails
    | BridgeDies(b: nat)

  function EncOf(s: State, c: nat): Enclave
    requires c < |s.conns| && s.conns[c].enc < |s.enclaves|
  {
    s.enclaves[s.conns[c].enc]
  }

  function BriOf(s: State, c: nat): Bridge
    requires c < |s.conns| && s.conns[c].bri < |s.bridges|
  {
    s.bridges[s.conns[c].bri]
  }

  predicate Wired(s: State) {
    forall c | 0 <= c < |s.conns| :: s.conns[c].enc < |s.enclaves| && s.conns[c].bri < |s.bridges|
  }

  /** The handshake connection is in the hands of a live enclave. */
  predicate Held(s: State, c: nat)
    requires Wired(s)
  {
    c < |s.conns| && s.conns[c].use.Shake? && s.conns[c].eopen && EncOf(s, c).phase == Shaking(c)
  }

  predicate Enabled(s: State, m: Move)
    requires Wired(s)
  {
    match m
    case NewEnclave(_) => true
    case NewBridge(host, env, _) =>
      // the port is bound by one bridge at a time
      && (forall b | 0 <= b < |s.bridges| :: s.bridges[b].phase.Down?)
      && Plain(env) && Environment.ParseEnv(EnvFrame(env)) == Some(host)
    case Dial(e, b) =>
      e < |s.enclaves| && s.enclaves[e].phase.Idle? && b < |s.bridges| && !s.bridges[b].phase.Down?
    case EWrite(c) =>
      && Held(s, c) && s.conns[c].up.Valid() && s.conns[c].ew == s.conns[c].er < 2
      && (s.conns[c].er == 1 ==> |s.conns[c].down.rd.frames| > 0 && MayBeJson(s.conns[c].down.rd.frames[0]))
    case ETake(c, n) =>
      && Held(s, c) && s.conns[c].er < s.conns[c].ew
      && s.conns[c].down.Valid() && 0 < n <= |s.conns[c].down.log| - s.conns[c].down.at
    case EQuit(c) => Held(s, c)
    case Accept(c) => c < |s.conns| && s.conns[c].role.Queued? && BriOf(s, c).phase.Listening?
    case BTake(c, n) =>
      && c < |s.conns| && s.conns[c].role.Paired? && BriOf(s, c).phase.Handshaking? && s.conns[c].br == s.conns[c].bw
      && s.conns[c].up.Valid() && 0 < n <= |s.conns[c].up.log| - s.conns[c].up.at
    case BWrite(c) =>
      && c < |s.conns| && s.conns[c].role.Paired? && s.conns[c].down.Valid() && s.conns[c].bw < s.conns[c].br
      // the ACK is written even if the group has come down by then
      && (BriOf(s, c).phase.Handshaking? || AllStarted(BriOf(s, c)))
    case Submit(b) =>
      && b < |s.bridges| && (s.bridges[b].phase.Running? || s.bridges[b].phase.Down?) && MayStart(s.bridges[b])
    case Refuse(b) =>
      && b < |s.bridges| && s.bridges[b].phase.Running? && s.bridges[b].cfg.Some?
      && !AllStarted(s.bridges[b]) && !MayStart(s.bridges[b])
    case TearDown(b) => b < |s.bridges| && s.bridges[b].phase.Running? && s.bridges[b].foreign
    case WatchAccept(c) =>
      && c < |s.conns| && s.conns[c].role.Queued? && Watching(BriOf(s, c))
    case WatchTake(c, n) =>
      && c < |s.conns| && s.conns[c].role.Watched? && s.conns[c].bopen && Watching(BriOf(s, c))
      && s.conns[c].up.Valid() && 0 < n <= |s.conns[c].up.log| - s.conns[c].up.at
    case WatchBeat(c) =>
      && c < |s.conns| && s.conns[c].role.Watched? && Watching(BriOf(s, c)) && CanBeat(BriOf(s, c).cfg.value)
      && s.conns[c].down.Valid()
    case Redial(e, b) =>
      && e < |s.enclaves| && s.enclaves[e].phase.Ready? && CanWatch(s.enclaves[e].settings)
      && b < |s.bridges| && !s.bridges[b].phase.Down?
    case Beat(c) =>
      && c < |s.conns| && s.conns[c].use.Beats? && EncOf(s, c).phase.Ready? && CanBeat(EncOf(s, c).settings)
      && s.conns[c].up.Valid()
    case BeatTake(c, n) =>
      && c < |s.conns| && s.conns[c].use.Beats? && s.conns[c].eopen && EncOf(s, c).phase.Ready?
      && s.conns[c].down.Valid() && 0 < n <= |s.conns[c].down.log| - s.conns[c].down.at
    case EnclaveDies(e) => e < |s.enclaves|
    case BridgeDies(b) => b < |s.bridges|
  }

  /** The watchdog is the last member to be started. */
  predicate Watching(b: Bridge) {
    b.phase.Running? && AllStarted(b)
  }

  function Last(frames: seq<seq<byte>>): seq<byte>
    requires |frames| > 0
  {
    frames[|frames| - 1]
  }

  function NewConn(e: nat, b: nat, use: Use): Conn {
    Conn(e, b, use, Queued, 0, 0, true, 0, 0, true, EMPTY, EMPTY)
  }

  // The ends of one connection, move by move.

  function EWrites(k: Conn, s: BridgeSettings): Conn
    requires k.up.Valid()
  {
    k.(up := k.up.Write(if k.ew == 0 then ACK else ConfigFrame(s)), ew := k.ew + 1)
  }

  function ETakes(k: Conn, n: nat): Conn
    requires k.down.Valid() && n <= |k.down.log| - k.down.at
  {
    if k.down.Completes(n) then k.(down := k.down.Take(n), er := k.er + 1, eopen := k.er == 0)
    else k.(down := k.down.Take(n))
  }

  function BTakes(k: Conn, n: nat, good: bool): Conn
    requires k.up.Valid() && n <= |k.up.log| - k.up.at
  {
    k.(up := k.up.Take(n), br := if good then k.br + 1 else k.br)
  }

  /** The bridge accepts the frame it has read: the ACK first, then settings. */
  predicate Welcome(br: nat, frame: seq<byte>) {
    if br == 0 then frame == ACK else ParseConfig(frame).Some?
  }

  function BWrites(k: Conn, env: seq<byte>): Conn
    requires k.down.Valid()
  {
    k.(down := k.down.Write(if k.bw == 0 then EnvFrame(env) else ACK), bw := k.bw + 1)
  }

  function SetConn(s: State, c: nat, k: Conn): State
    requires c < |s.conns|
  {
    s.(conns := s.conns[c := k])
  }

  function SetEnc(s: State, e: nat, x: Enclave): State
    requires e < |s.enclaves|
  {
    s.(enclaves := s.enclaves[e := x])
  }

  function SetBri(s: State, b: nat, x: Bridge): State
    requires b < |s.bridges|
  {
    s.(bridges := s.bridges[b := x])
  }

  function DoEWrite(s: State, c: nat): State
    requires Wired(s) && Enabled(s, EWrite(c))
  {
    var k, e := s.conns[c], s.conns[c].enc;
    var t := SetConn(s, c, EWrites(k, s.enclaves[e].settings));
    if k.ew == 1 then SetEnc(t, e, s.enclaves[e].(committed := Some(c))) else t
  }

  function DoETake(s: State, c: nat, n: nat): State
    requires Wired(s) && Enabled(s, ETake(c, n))
  {
    var k, e := s.conns[c], s.conns[c].enc;
    var k' := ETakes(k, n);
    var t := SetConn(s, c, k');
    if k'.eopen then t else SetEnc(t, e, s.enclaves[e].(phase := Ready(Last(k'.down.rd.frames) == ACK)))
  }

  function DoEQuit(s: State, c: nat): State
    requires Wired(s) && Enabled(s, EQuit(c))
  {
    var k, e := s.conns[c], s.conns[c].enc;
    // before the environment is there it tries again; an environment that does not parse ends it; after the
    // settings are written it goes on regardless
    var phase := if k.er == 0 then Idle else if k.ew == 2 then Ready(false) else Gone;
    SetEnc(SetConn(s, c, k.(eopen := false)), e, s.enclaves[e].(phase := phase))
  }

  function DoBTake(s: State, c: nat, n: nat): State
    requires Wired(s) && Enabled(s, BTake(c, n))
  {
    var k, b := s.conns[c], s.conns[c].bri;
    if !k.up.Completes(n) then SetConn(s, c, BTakes(k, n, false)) else
      var frame := Last(k.up.Take(n).rd.frames);
      if !Welcome(k.br, frame) then SetBri(SetConn(s, c, BTakes(k, n, false)), b, s.bridges[b].(phase := Down))
      else
        var t := SetConn(s, c, BTakes(k, n, true));
        if k.br == 0 then t
        else SetBri(t, b, s.bridges[b].(phase := Running, cfg := Some(ParseConfig(frame).value)))
  }

  function DoWatchTake(s: State, c: nat, n: nat): State
    requires Wired(s) && Enabled(s, WatchTake(c, n))
  {
    var k, b := s.conns[c], s.conns[c].bri;
    var t := SetConn(s, c, k.(up := k.up.Take(n)));
    if !k.up.Completes(n) then t
    else if Accepts(s.bridges[b].cfg.value.enclaveId, Last(k.up.Take(n).rd.frames)) then
      SetBri(t, b, s.bridges[b].(resets := s.bridges[b].resets + [c]))
    else SetBri(SetConn(t, c, k.(up := k.up.Take(n), bopen := false)), b, s.bridges[b].(foreign := true))
  }

  function DoBeatTake(s: State, c: nat, n: nat): State
    requires Wired(s) && Enabled(s, BeatTake(c, n))
  {
    var k, e := s.conns[c], s.conns[c].enc;
    var t := SetConn(s, c, k.(down := k.down.Take(n)));
    if !k.down.Completes(n) then t
    else if Accepts(s.enclaves[e].settings.enclaveId, Last(k.down.Take(n).rd.frames)) then
      SetEnc(t, e, s.enclaves[e].(resets := s.enclaves[e].resets + [c]))
    else SetConn(t, c, k.(down := k.down.Take(n), eopen := false))
  }

  function Apply(s: State, m: Move): State
    requires Wired(s) && Enabled(s, m)
  {
    match m
    case NewEnclave(settings) => s.(enclaves := s.enclaves + [Enclave(settings, Idle, None, [])])
    case NewBridge(host, env, levels) =>
      s.(bridges := s.bridges + [Bridge(host, env, levels, Listening, None, None, 0, [], false)])
    case Dial(e, b) =>
      SetEnc(s, e, s.enclaves[e].(phase := Shaking(|s.conns|))).(conns := s.conns + [NewConn(e, b, Shake)])
    case EWrite(c) => DoEWrite(s, c)
    case ETake(c, n) => DoETake(s, c, n)
    case EQuit(c) => DoEQuit(s, c)
    case Accept(c) =>
      SetBri(SetConn(s, c, s.conns[c].(role := Paired)), s.conns[c].bri,
             BriOf(s, c).(phase := Handshaking, home := Some(c)))
    case BTake(c, n) => DoBTake(s, c, n)
    case BWrite(c) => SetConn(s, c, BWrites(s.conns[c], BriOf(s, c).env))
    case Submit(b) => SetBri(s, b, s.bridges[b].(submitted := s.bridges[b].submitted + 1))
    case Refuse(b) => SetBri(s, b, s.bridges[b].(phase := Down))
    case TearDown(b) => SetBri(s, b, s.bridges[b].(phase := Down))
    case WatchAccept(c) => SetConn(s, c, s.conns[c].(role := Watched))
    case WatchTake(c, n) => DoWatchTake(s, c, n)
    case WatchBeat(c) =>
      SetConn(s, c, s.conns[c].(down := s.conns[c].down.Write(Heartbeats.Beat(BriOf(s, c).cfg.value.enclaveId))))
    case Redial(e, b) => s.(conns := s.conns + [NewConn(e, b, Beats)])
    case Beat(c) =>
      SetConn(s, c, s.conns[c].(up := s.conns[c].up.Write(Heartbeats.Beat(EncOf(s, c).settings.enclaveId))))
    case BeatTake(c, n) => DoBeatTake(s, c, n)
    case EnclaveDies(e) => SetEnc(s, e, s.enclaves[e].(phase := Gone))
    case BridgeDies(b) => SetBri(s, b, s.bridges[b].(phase := Down))
  }
}
