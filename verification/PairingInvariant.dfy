/** What every move keeps. */
module PairingInvariant {
  import opened Options
  import opened Streams
  import opened Heartbeats
  import opened Settings
  import opened Pairing
  import opened PairingPipes
  import Environment

  // ------------------------------------------------------------------------------------------
  // The invariant
  // ------------------------------------------------------------------------------------------

  /** A handshake connection, by what the bridge does with it. */
  ghost predicate ShakeConn(k: Conn, settings: BridgeSettings, b: Bridge) {
    && k.er <= k.ew <= k.er + 1 && k.ew <= 2 && (k.eopen ==> k.er < 2)
    && k.up.Valid() && k.up.log == Said(ACK, ConfigFrame(settings), k.ew)
    && match k.role
       case Queued => k.up.at == 0 && k.up.rd == IDLE && k.down == EMPTY && k.er == k.bw == k.br == 0
       case Paired =>
         && ShakePipe(k.up, ACK, ConfigFrame(settings), k.ew, k.br)
         && ShakePipe(k.down, EnvFrame(b.env), ACK, k.bw, k.er)
         && k.bw <= k.br <= k.bw + 1
       case Watched => b.cfg.Some? && WatchedShake(k, b.cfg.value.enclaveId)
  }

  /** A handshake that lands in a running bridge's watchdog: the enclave hears heartbeats instead. */
  ghost predicate WatchedShake(k: Conn, id: Uuid) {
    && k.bw == k.br == 0
    && k.up.Valid() && (k.up.rd.frames == [] ==> k.up.Start() == 0)
    && (k.bopen ==> k.up.rd.frames == [])
    && BeatPipe(k.down, id)
    && |k.down.rd.frames| == k.er
    && (k.er > 0 ==> k.down.rd.frames[0] == FirstPiece(id))
    && (k.ew == 2 ==> MayBeJson(FirstPiece(id)))
  }

  /**
    A connection the enclave's watchdog opened. A bridge that takes it for its handshake goes beyond the
    first frame only for an ID that begins as a handshake does.
   */
  ghost predicate BeatConn(k: Conn, id: Uuid, b: Bridge) {
    && k.ew == k.er == 0
    && BeatPipe(k.up, id) && k.down.Valid()
    && match k.role
       case Queued => k.up.at == 0 && k.up.rd == IDLE && k.down == EMPTY && k.br == k.bw == 0
       case Paired => k.bw <= k.br <= 2 && (k.br > 0 ==> BeginsAck(id)) && (k.bw == 0 ==> k.down == EMPTY)
       case Watched => k.br == k.bw == 0 && b.cfg.Some? && BeatPipe(k.down, b.cfg.value.enclaveId)
  }

  ghost predicate ConnOk(c: nat, k: Conn, e: Enclave, b: Bridge) {
    && (if k.use.Shake? then ShakeConn(k, e.settings, b) else BeatConn(k, e.settings.enclaveId, b))
    && (k.role.Paired? ==> b.home == Some(c))
    && (k.role.Paired? && b.phase.Handshaking? ==> |k.up.rd.frames| == k.br)
    && (k.br == 2 ==> b.cfg.Some? && if k.use.Shake? then b.cfg.value == e.settings else b.cfg.value.enclaveId == NIL)
    && (k.bw == 2 ==> AllStarted(b))
    && (!k.bopen ==> b.foreign)
    && (k.ew == 2 ==> e.committed == Some(c))
    && (k.use.Shake? && k.eopen ==> e.phase == Shaking(c) || e.phase.Gone?)
    && (k.use.Beats? ==> (e.phase.Ready? || e.phase.Gone?) && CanWatch(e.settings))
  }

  ghost predicate HomeOk(s: State, b: nat, c: nat)
    requires b < |s.bridges|
  {
    && c < |s.conns| && s.conns[c].bri == b && s.conns[c].role.Paired?
    && (s.bridges[b].cfg.Some? ==> s.conns[c].br == 2)
  }

  /** A connection whose frames reset the bridge's watchdog belongs to an enclave with the bridge's ID. */
  ghost predicate ResetOk(s: State, b: nat, r: nat)
    requires Wired(s) && b < |s.bridges|
  {
    && r < |s.conns| && s.conns[r].bri == b && s.conns[r].use.Beats? && s.conns[r].role.Watched?
    && s.bridges[b].cfg.Some? && EncOf(s, r).settings.enclaveId == s.bridges[b].cfg.value.enclaveId
  }

  /** What has been started could be. */
  ghost predicate Started(x: Bridge)
    requires x.cfg.Some?
  {
    && x.submitted <= Members(x.cfg.value)
    && (x.submitted > 0 ==> KnownLevel(x.cfg.value, x.levels))
    && (x.submitted == Members(x.cfg.value) ==> CanWatch(x.cfg.value))
  }

  ghost predicate BridgeOk(s: State, b: nat)
    requires Wired(s) && b < |s.bridges|
  {
    var x := s.bridges[b];
    && Plain(x.env) && Environment.ParseEnv(EnvFrame(x.env)) == Some(x.host)
    && (x.phase.Listening? ==> x.home.None? && x.cfg.None?)
    && (x.phase.Handshaking? ==> x.home.Some? && x.cfg.None?)
    && (x.phase.Running? ==> x.cfg.Some?)
    && (x.cfg.None? ==> x.submitted == 0)
    && (x.cfg.Some? ==> x.home.Some? && Started(x))
    && (x.foreign ==> x.cfg.Some?)
    && (x.home.Some? ==> HomeOk(s, b, x.home.value))
    && (forall i | 0 <= i < |x.resets| :: ResetOk(s, b, x.resets[i]))
  }

  /** A connection whose frames reset the enclave's watchdog leads to a bridge with the enclave's ID. */
  ghost predicate EchoOk(s: State, e: nat, r: nat)
    requires Wired(s) && e < |s.enclaves|
  {
    && r < |s.conns| && s.conns[r].enc == e && s.conns[r].use.Beats? && s.conns[r].role.Watched?
    && BriOf(s, r).cfg.Some? && BriOf(s, r).cfg.value.enclaveId == s.enclaves[e].settings.enclaveId
  }

  /** An ACK came from the bridge's handshake, or from a watchdog whose ID says it. */
  ghost predicate TrueAck(s: State, c: nat)
    requires c < |s.conns|
  {
    && !s.conns[c].role.Queued?
    && (s.conns[c].role.Watched? ==>
          s.conns[c].bri < |s.bridges| && s.bridges[s.conns[c].bri].cfg.Some?
          && SaysAck(s.bridges[s.conns[c].bri].cfg.value.enclaveId))
  }

  ghost predicate CommittedOk(s: State, e: nat, c: nat)
    requires e < |s.enclaves|
  {
    && c < |s.conns| && s.conns[c].enc == e && s.conns[c].use.Shake? && s.conns[c].ew == 2
    && (s.enclaves[e].phase == Ready(true) ==> s.conns[c].er == 2 && TrueAck(s, c))
    && (s.enclaves[e].phase.Shaking? ==> s.enclaves[e].phase.c == c)
  }

  ghost predicate EnclaveOk(s: State, e: nat)
    requires Wired(s) && e < |s.enclaves|
  {
    var x := s.enclaves[e];
    && (x.phase.Idle? ==> x.committed.None?)
    && (x.phase.Ready? ==> x.committed.Some?)
    && (x.phase.Shaking? ==>
          var c := x.phase.c;
          c < |s.conns| && s.conns[c].enc == e && s.conns[c].use.Shake? && s.conns[c].eopen)
    && (x.committed.Some? ==> CommittedOk(s, e, x.committed.value))
    && (forall i | 0 <= i < |x.resets| :: EchoOk(s, e, x.resets[i]))
  }

  ghost predicate ConnsOk(s: State)
    requires Wired(s)
  {
    forall c | 0 <= c < |s.conns| :: ConnOk(c, s.conns[c], EncOf(s, c), BriOf(s, c))
  }

  ghost predicate Inv(s: State) {
    && Wired(s) && ConnsOk(s)
    && (forall b | 0 <= b < |s.bridges| :: BridgeOk(s, b))
    && (forall e | 0 <= e < |s.enclaves| :: EnclaveOk(s, e))
  }

  // ------------------------------------------------------------------------------------------
  // Framing: what a move that does not touch something leaves true of it
  // ------------------------------------------------------------------------------------------

  ghost predicate ConnGrows(k: Conn, k': Conn) {
    && k'.enc == k.enc && k'.bri == k.bri && k'.use == k.use
    && (!k.role.Queued? ==> k'.role == k.role)
    && (k.ew == 2 ==> k'.ew == 2) && (k.er == 2 ==> k'.er == 2) && (k.br == 2 ==> k'.br == 2)
  }

  ghost predicate Grows(s: State, t: State) {
    && |s.conns| <= |t.conns| && |s.bridges| <= |t.bridges| && |s.enclaves| <= |t.enclaves|
    && (forall c | 0 <= c < |s.conns| :: ConnGrows(s.conns[c], t.conns[c]))
    && (forall b | 0 <= b < |s.bridges| && s.bridges[b].cfg.Some? :: t.bridges[b].cfg == s.bridges[b].cfg)
    && (forall e | 0 <= e < |s.enclaves| :: t.enclaves[e].settings == s.enclaves[e].settings)
  }

  lemma BridgeStays(s: State, t: State, b: nat)
    requires Wired(s) && Wired(t) && Grows(s, t) && b < |s.bridges| && BridgeOk(s, b)
    requires t.bridges[b] == s.bridges[b]
    ensures BridgeOk(t, b)
  {
    var x := s.bridges[b];
    forall i | 0 <= i < |x.resets| ensures ResetOk(t, b, x.resets[i]) {
      assert ResetOk(s, b, x.resets[i]);
    }
  }

  lemma EnclaveStays(s: State, t: State, e: nat)
    requires Wired(s) && Wired(t) && Grows(s, t) && e < |s.enclaves| && EnclaveOk(s, e)
    requires t.enclaves[e] == s.enclaves[e]
    requires s.enclaves[e].phase.Shaking? ==>
               var c := s.enclaves[e].phase.c; c < |t.conns| && t.conns[c].eopen == s.conns[c].eopen
    ensures EnclaveOk(t, e)
  {
    var x := s.enclaves[e];
    forall i | 0 <= i < |x.resets| ensures EchoOk(t, e, x.resets[i]) {
      assert EchoOk(s, e, x.resets[i]);
    }
  }

  /** All bridges but one, and all enclaves but one, are as before; -1 excepts nobody. */
  ghost predicate SameBridges(s: State, t: State, but: int) {
    |t.bridges| == |s.bridges| && forall b | 0 <= b < |s.bridges| && b != but :: t.bridges[b] == s.bridges[b]
  }

  ghost predicate SameEnclaves(s: State, t: State, but: int) {
    |t.enclaves| == |s.enclaves| && forall e | 0 <= e < |s.enclaves| && e != but :: t.enclaves[e] == s.enclaves[e]
  }

  lemma BridgesStay(s: State, t: State, but: int)
    requires Inv(s) && Wired(t) && Grows(s, t) && SameBridges(s, t, but)
    ensures forall b | 0 <= b < |t.bridges| && b != but :: BridgeOk(t, b)
  {
    forall b | 0 <= b < |t.bridges| && b != but ensures BridgeOk(t, b) {
      BridgeStays(s, t, b);
    }
  }

  lemma EnclavesStay(s: State, t: State, but: int)
    requires Inv(s) && Wired(t) && Grows(s, t) && SameEnclaves(s, t, but)
    requires forall c | 0 <= c < |s.conns| && s.conns[c].use.Shake? && s.conns[c].enc != but ::
               t.conns[c].eopen == s.conns[c].eopen
    ensures forall e | 0 <= e < |t.enclaves| && e != but :: EnclaveOk(t, e)
  {
    forall e | 0 <= e < |t.enclaves| && e != but ensures EnclaveOk(t, e) {
      EnclaveStays(s, t, e);
    }
  }

  /** A move that changes one connection and neither process. */
  lemma ConnMove(s: State, c: nat, k: Conn)
    requires Wired(s) && Inv(s) && c < |s.conns| && ConnGrows(s.conns[c], k)
    requires s.conns[c].use.Shake? ==> k.eopen == s.conns[c].eopen
    requires ConnOk(c, k, EncOf(s, c), BriOf(s, c))
    ensures Inv(SetConn(s, c, k))
  {
    hide ConnOk, BridgeOk, EnclaveOk;
    var t := SetConn(s, c, k);
    assert Grows(s, t);
    BridgesStay(s, t, -1);
    EnclavesStay(s, t, -1);
  }

  lemma GrowsByEnclave(s: State, c: nat, k: Conn, x: Enclave)
    requires Wired(s) && c < |s.conns| && ConnGrows(s.conns[c], k) && x.settings == EncOf(s, c).settings
    ensures var t := SetEnc(SetConn(s, c, k), k.enc, x); Wired(t) && Grows(s, t) && SameEnclaves(s, t, k.enc)
  {}

  lemma GrowsByBridge(s: State, c: nat, k: Conn, x: Bridge)
    requires Wired(s) && c < |s.conns| && ConnGrows(s.conns[c], k)
    requires BriOf(s, c).cfg.Some? ==> x.cfg == BriOf(s, c).cfg
    ensures var t := SetBri(SetConn(s, c, k), k.bri, x); Wired(t) && Grows(s, t) && SameBridges(s, t, k.bri)
  {}

  /** A move that changes one connection and its enclave. */
  lemma EnclaveMove(s: State, c: nat, k: Conn, x: Enclave)
    requires Wired(s) && Inv(s) && c < |s.conns| && ConnGrows(s.conns[c], k)
    requires x.settings == EncOf(s, c).settings
    requires var t := SetEnc(SetConn(s, c, k), k.enc, x); Wired(t) && EnclaveOk(t, k.enc)
    requires ConnOk(c, k, x, BriOf(s, c))
    requires forall d | 0 <= d < |s.conns| && d != c && s.conns[d].enc == k.enc ::
               ConnOk(d, s.conns[d], x, BriOf(s, d))
    ensures Inv(SetEnc(SetConn(s, c, k), k.enc, x))
  {
    hide ConnOk, BridgeOk, EnclaveOk, Grows;
    var t := SetEnc(SetConn(s, c, k), k.enc, x);
    GrowsByEnclave(s, c, k, x);
    BridgesStay(s, t, -1);
    EnclavesStay(s, t, k.enc);
    forall d | 0 <= d < |t.conns| ensures ConnOk(d, t.conns[d], EncOf(t, d), BriOf(t, d)) {
      assert d != c ==> t.conns[d] == s.conns[d] && ConnOk(d, s.conns[d], EncOf(s, d), BriOf(s, d));
    }
  }

  /** A move that changes one connection and its bridge. */
  lemma BridgeMove(s: State, c: nat, k: Conn, x: Bridge)
    requires Wired(s) && Inv(s) && c < |s.conns| && ConnGrows(s.conns[c], k)
    requires s.conns[c].use.Shake? ==> k.eopen == s.conns[c].eopen
    requires BriOf(s, c).cfg.Some? ==> x.cfg == BriOf(s, c).cfg
    requires var t := SetBri(SetConn(s, c, k), k.bri, x); Wired(t) && BridgeOk(t, k.bri)
    requires ConnOk(c, k, EncOf(s, c), x)
    requires forall d | 0 <= d < |s.conns| && d != c && s.conns[d].bri == k.bri ::
               ConnOk(d, s.conns[d], EncOf(s, d), x)
    ensures Inv(SetBri(SetConn(s, c, k), k.bri, x))
  {
    hide ConnOk, BridgeOk, EnclaveOk, Grows;
    var t := SetBri(SetConn(s, c, k), k.bri, x);
    GrowsByBridge(s, c, k, x);
    BridgesStay(s, t, k.bri);
    EnclavesStay(s, t, -1);
    forall d | 0 <= d < |t.conns| ensures ConnOk(d, t.conns[d], EncOf(t, d), BriOf(t, d)) {
      assert d != c ==> t.conns[d] == s.conns[d] && ConnOk(d, s.conns[d], EncOf(s, d), BriOf(s, d));
    }
  }
}
