/** A fresh enclave and a fresh bridge can get going, and then keep each other alive. */
module PairingStarts {
  import opened Options
  import opened Streams
  import opened Heartbeats
  import opened Settings
  import opened Pairing
  import opened PairingPipes
  import opened PairingInvariant
  import opened PairingSteps
  import opened PairingTheorems
  import opened PairingProgress
  import opened PairingTeardown
  import opened PairingBeats
  import BridgeRun

  // ------------------------------------------------------------------------------------------
  // The handshake
  // ------------------------------------------------------------------------------------------

  /** A handshake is over only when the enclave has read its last frame, or the bridge is down. */
  lemma LastRead(s: State, m: Move, c: nat)
    requires Wired(s) && Inv(s) && Shakes(s, c) && OfHandshake(m, c, s.conns[c].bri) && Enabled(s, m)
    ensures var t := Apply(s, m);
            && Wired(t) && c < |t.conns| && t.conns[c].enc == s.conns[c].enc && t.conns[c].bri == s.conns[c].bri
            && t.conns[c].use.Shake? && t.conns[c].role.Paired?
            && EncOf(t, c).settings == EncOf(s, c).settings && BriOf(t, c).levels == BriOf(s, c).levels
            && (EncOf(t, c).phase.Ready? ==> t.conns[c].er == 2)
  {
    hide Inv, Apply, Enabled, AllStarted, MayStart, ShakeConn, MayBeJson, EnvFrame;
    SameEnds(s, m, c);
    ShakesFacts(s, c);
    LockStep(s.conns[c], EncOf(s, c).settings, BriOf(s, c));
    if m.ETake? {
      ReadsLast(s, c, m.n);
    } else {
      ReadsOn(s, m, c);
    }
  }

  lemma ReadsLast(s: State, c: nat, n: nat)
    requires Wired(s) && Shakes(s, c) && Enabled(s, ETake(c, n)) && s.conns[c].er < 2
    ensures var t := Apply(s, ETake(c, n));
            && Wired(t) && c < |t.conns| && t.conns[c].use.Shake? && t.conns[c].role.Paired?
            && (EncOf(t, c).phase.Ready? ==> t.conns[c].er == 2)
  {
    hide Pipe.Take, Pipe.Valid, Pipe.Completes, Last;
  }

  lemma ReadsOn(s: State, m: Move, c: nat)
    requires Wired(s) && Shakes(s, c) && OfHandshake(m, c, s.conns[c].bri) && !m.ETake? && Enabled(s, m)
    ensures var t := Apply(s, m);
            && Wired(t) && c < |t.conns| && t.conns[c].use.Shake? && t.conns[c].role.Paired?
            && !EncOf(t, c).phase.Ready?
  {
    hide Apply, Enabled;
    if m.BTake? {
      BridgeReads(s, c, m.n);
    } else {
      OneWrites(s, m, c);
    }
  }

  lemma BridgeReads(s: State, c: nat, n: nat)
    requires Wired(s) && Shakes(s, c) && Enabled(s, BTake(c, n))
    ensures var t := Apply(s, BTake(c, n));
            && Wired(t) && c < |t.conns| && t.conns[c].use.Shake? && t.conns[c].role.Paired?
            && !EncOf(t, c).phase.Ready?
  {
    hide Pipe.Take, Pipe.Valid, Pipe.Completes, Welcome, ParseConfig, Last;
  }

  lemma OneWrites(s: State, m: Move, c: nat)
    requires Wired(s) && Shakes(s, c) && Enabled(s, m) && OfHandshake(m, c, s.conns[c].bri) && !m.ETake? && !m.BTake?
    ensures var t := Apply(s, m);
            && Wired(t) && c < |t.conns| && t.conns[c].use.Shake? && t.conns[c].role.Paired?
            && !EncOf(t, c).phase.Ready?
  {
    hide Pipe.Write, Pipe.Valid, AllStarted, MayStart, MayBeJson, EnvFrame, ConfigFrame;
  }

  /** From any state of it, the two ends can take it to its end by themselves. */
  lemma {:induction false} Finish(s: State, c: nat) returns (ms: seq<Move>, t: State)
    requires Reachable(s) && Wired(s) && Shakes(s, c)
    ensures Run(s, ms, t) && NobodyGivesUp(ms, c, s.conns[c].enc, s.conns[c].bri)
    ensures Reachable(t) && Wired(t) && c < |t.conns| && !Shakes(t, c)
    ensures t.conns[c].enc == s.conns[c].enc && t.conns[c].bri == s.conns[c].bri
    ensures t.conns[c].use.Shake? && t.conns[c].role.Paired?
    ensures EncOf(t, c).settings == EncOf(s, c).settings && BriOf(t, c).levels == BriOf(s, c).levels
    ensures EncOf(t, c).phase.Ready? ==> t.conns[c].er == 2
    decreases Left(s, c)
  {
    hide Inv, Reachable, Apply, Enabled, Left, Shakes;
    var m := HandshakeGoesOn(s, c);
    ReachableInv(s);
    HandshakeEnds(s, m, c);
    LastRead(s, m, c);
    StepReached(s, m);
    var u, rest := Apply(s, m), [];
    if Shakes(u, c) {
      rest, t := Finish(u, c);
    } else {
      t := u;
    }
    ms := [m] + rest;
    assert ms[0] == m && ms[1..] == rest;
  }

  lemma StepReached(s: State, m: Move)
    requires Reachable(s) && Wired(s) && Enabled(s, m)
    ensures Reachable(Apply(s, m)) && Run(s, [m], Apply(s, m))
  {
    hide Apply, Enabled;
    assert [m][1..] == [];
    ReachableOn(s, [m], Apply(s, m));
  }

  /** A new enclave, a new bridge on the free port, and a connection between them. */
  lemma Meet(s: State, settings: BridgeSettings, host: map<string, string>, env: seq<byte>, levels: set<string>)
    returns (t: State)
    requires Reachable(s) && Wired(s) && Enabled(s, NewBridge(host, env, levels))
    ensures var e, b, c := |s.enclaves|, |s.bridges|, |s.conns|;
            && Run(s, [NewBridge(host, env, levels), NewEnclave(settings), Dial(e, b), Accept(c)], t)
            && Reachable(t) && Wired(t) && Shakes(t, c) && t.conns[c].enc == e && t.conns[c].bri == b
            && EncOf(t, c).settings == settings && BriOf(t, c).levels == levels
  {
    hide Reachable, Apply, Enabled, Run, Shakes;
    var e, b, c := |s.enclaves|, |s.bridges|, |s.conns|;
    var m0, m1, m2, m3 := NewBridge(host, env, levels), NewEnclave(settings), Dial(e, b), Accept(c);
    Appear(s, settings, host, env, levels);
    var s2 := Apply(Apply(s, m0), m1);
    Dialled(s2, e, b);
    var s3 := Apply(s2, m2);
    Accepted(s3, c);
    t := Apply(s3, m3);
    FourSteps(s, m0, m1, m2, m3, t);
  }

  lemma Appear(s: State, settings: BridgeSettings, host: map<string, string>, env: seq<byte>, levels: set<string>)
    requires Wired(s) && Enabled(s, NewBridge(host, env, levels))
    ensures var s1 := Apply(s, NewBridge(host, env, levels));
            Wired(s1) && Enabled(s1, NewEnclave(settings))
            && var t := Apply(s1, NewEnclave(settings));
               && Wired(t) && t.conns == s.conns && |t.enclaves| == |s.enclaves| + 1 && |t.bridges| == |s.bridges| + 1
               && t.enclaves[|s.enclaves|] == Enclave(settings, Idle, None, [])
               && t.bridges[|s.bridges|] == Bridge(host, env, levels, Listening, None, None, 0, [], false)
  {
    hide Plain, Environment.ParseEnv;
  }

  lemma Dialled(s: State, e: nat, b: nat)
    requires Wired(s) && e < |s.enclaves| && s.enclaves[e].phase.Idle?
    requires b < |s.bridges| && s.bridges[b].phase.Listening?
    ensures Enabled(s, Dial(e, b))
    ensures var c, t := |s.conns|, Apply(s, Dial(e, b));
            && Wired(t) && |t.conns| == c + 1 && t.conns[c] == NewConn(e, b, Shake)
            && EncOf(t, c) == s.enclaves[e].(phase := Shaking(c)) && BriOf(t, c) == s.bridges[b]
  {}

  lemma Accepted(s: State, c: nat)
    requires Wired(s) && Held(s, c) && s.conns[c].role.Queued? && BriOf(s, c).phase.Listening?
    ensures Enabled(s, Accept(c))
    ensures var t := Apply(s, Accept(c));
            && Wired(t) && Shakes(t, c) && t.conns[c].enc == s.conns[c].enc && t.conns[c].bri == s.conns[c].bri
            && EncOf(t, c).settings == EncOf(s, c).settings && BriOf(t, c).levels == BriOf(s, c).levels
  {}

  lemma FourSteps(s: State, m0: Move, m1: Move, m2: Move, m3: Move, t: State)
    requires Wired(s) && Enabled(s, m0)
    requires var s1 := Apply(s, m0); Wired(s1) && Enabled(s1, m1)
    requires var s2 := Apply(Apply(s, m0), m1); Wired(s2) && Enabled(s2, m2)
    requires var s3 := Apply(Apply(Apply(s, m0), m1), m2); Wired(s3) && Enabled(s3, m3) && t == Apply(s3, m3)
    ensures Run(s, [m0, m1, m2, m3], t)
    ensures Reachable(s) ==> Reachable(t)
  {
    hide Apply, Enabled, Reachable, Run;
    var s1 := Apply(s, m0);
    var s2 := Apply(s1, m1);
    var s3 := Apply(s2, m2);
    RunNone(t);
    assert [m3] + [] == [m3] && [m2] + [m3] == [m2, m3] && [m1] + [m2, m3] == [m1, m2, m3];
    assert [m0] + [m1, m2, m3] == [m0, m1, m2, m3];
    RunFirst(s3, m3, [], t);
    RunFirst(s2, m2, [m3], t);
    RunFirst(s1, m1, [m2, m3], t);
    RunFirst(s, m0, [m1, m2, m3], t);
    if Reachable(s) {
      ReachableOn(s, [m0, m1, m2, m3], t);
    }
  }

  lemma RunNone(s: State)
    ensures Run(s, [], s)
  {}

  lemma RunFirst(s: State, m: Move, ms: seq<Move>, t: State)
    requires Wired(s) && Enabled(s, m) && Run(Apply(s, m), ms, t)
    ensures Run(s, [m] + ms, t)
  {
    hide Apply, Enabled;
    assert ([m] + ms)[1..] == ms;
  }

  // ------------------------------------------------------------------------------------------
  // Keeping each other alive
  // ------------------------------------------------------------------------------------------

  lemma EmptyPipe(id: Uuid)
    ensures BeatPipe(EMPTY, id) && EMPTY.Start() == 0
  {}

  /** The first heartbeat of a fresh connection, read in one piece. */
  lemma FirstWhole(id: Uuid)
    requires Plain(id)
    ensures var p := EMPTY.Write(Heartbeats.Beat(id));
            && |p.log| == 17 && p.at == 0 && p.Completes(17)
            && p.Take(17).rd.frames == [Heartbeats.Beat(id)]
  {
    hide Plain, Heartbeats.Beat, Pipe.Valid, Pipe.Take, Pipe.Completes, Pipe.Write, InPhase;
    EmptyPipe(id);
    BeatWrite(EMPTY, id);
    WholeBeatRead(EMPTY.Write(Heartbeats.Beat(id)), id, 0, 17);
  }

  /** A connection that both watchdogs have: fresh, or with what has been written on it. */
  function Between(e: nat, b: nat, up: Pipe, down: Pipe): Conn {
    NewConn(e, b, Beats).(role := Watched, up := up, down := down)
  }

  /** Both ends watch, for the same plain ID, with an interval that leaves room for heartbeats. */
  predicate Ends(s: State, e: nat, b: nat) {
    && e < |s.enclaves| && s.enclaves[e].phase.Ready? && b < |s.bridges| && Watching(s.bridges[b])
    && var mine, yours := s.enclaves[e].settings, s.bridges[b].cfg.value;
       && mine.enclaveId == yours.enclaveId != NIL && Plain(mine.enclaveId)
       && mine.interval as int >= 2 && yours.interval as int >= 2
  }

  lemma Redialled(s: State, e: nat, b: nat)
    requires Wired(s) && Ends(s, e, b)
    ensures Enabled(s, Redial(e, b))
    ensures var c, t := |s.conns|, Apply(s, Redial(e, b));
            && Wired(t) && Ends(t, e, b) && Enabled(t, WatchAccept(c))
            && var u := Apply(t, WatchAccept(c));
               Wired(u) && Ends(u, e, b) && u == s.(conns := s.conns + [Between(e, b, EMPTY, EMPTY)])
  {
    hide AllStarted;
    var t := Apply(s, Redial(e, b));
    assert t.conns[|s.conns|] == NewConn(e, b, Beats);
  }

  /** The enclave's heartbeat. */
  lemma Upward(s: State, c: nat, e: nat, b: nat)
    requires Wired(s) && Ends(s, e, b) && c < |s.conns| && s.conns[c] == Between(e, b, EMPTY, EMPTY)
    ensures Enabled(s, Beat(c))
    ensures var t := Apply(s, Beat(c));
            && Wired(t) && Enabled(t, WatchTake(c, 17))
            && var u := Apply(t, WatchTake(c, 17));
               && Wired(u) && Ends(u, e, b) && u.enclaves == s.enclaves && c < |u.conns|
               && u.conns[c] == Between(e, b, u.conns[c].up, EMPTY)
               && u.bridges[b].resets == s.bridges[b].resets + [c]
  {
    hide Members, Apply, Pipe.Write, Pipe.Take, Pipe.Valid, Pipe.Completes, Accepts, Heartbeats.Beat;
    var id := s.enclaves[e].settings.enclaveId;
    EmptyPipe(id);
    BeatWritten(s, c);
    FirstWhole(id);
    AcceptedIff(id, Heartbeats.Beat(id));
    WatchApplied(Apply(s, Beat(c)), c, 17);
  }

  lemma BeatWritten(s: State, c: nat)
    requires Wired(s) && Enabled(s, Beat(c))
    ensures var id := EncOf(s, c).settings.enclaveId;
            Apply(s, Beat(c)) == SetConn(s, c, s.conns[c].(up := s.conns[c].up.Write(Heartbeats.Beat(id))))
  {
    hide AllStarted, Pipe.Write, Pipe.Valid, Heartbeats.Beat;
  }

  /** The bridge's. */
  lemma Downward(s: State, c: nat, e: nat, b: nat)
    requires Wired(s) && Ends(s, e, b) && c < |s.conns| && s.conns[c] == Between(e, b, s.conns[c].up, EMPTY)
    ensures Enabled(s, WatchBeat(c))
    ensures var t := Apply(s, WatchBeat(c));
            && Wired(t) && Enabled(t, BeatTake(c, 17))
            && var u := Apply(t, BeatTake(c, 17));
               && Wired(u) && e < |u.enclaves| && u.bridges == s.bridges
               && u.enclaves[e].resets == s.enclaves[e].resets + [c]
  {
    hide AllStarted, Apply, Pipe.Write, Pipe.Take, Pipe.Valid, Pipe.Completes, Accepts, Heartbeats.Beat;
    var id := s.enclaves[e].settings.enclaveId;
    EmptyPipe(id);
    WatchBeatWritten(s, c);
    FirstWhole(id);
    AcceptedIff(id, Heartbeats.Beat(id));
    BeatApplied(Apply(s, WatchBeat(c)), c, 17);
  }

  lemma WatchBeatWritten(s: State, c: nat)
    requires Wired(s) && Enabled(s, WatchBeat(c))
    ensures BriOf(s, c).cfg.Some?
    ensures var id := BriOf(s, c).cfg.value.enclaveId;
            Apply(s, WatchBeat(c)) == SetConn(s, c, s.conns[c].(down := s.conns[c].down.Write(Heartbeats.Beat(id))))
  {
    hide Pipe.Write, Pipe.Valid, Heartbeats.Beat;
  }

  /**
    Both ends of a pair can always keep each other alive: whatever else has happened, over a new connection the
    enclave's heartbeat resets the bridge's watchdog and the bridge's the enclave's.
   */
  lemma KeepEachOtherAlive(s: State, e: nat, b: nat) returns (t: State)
    requires Reachable(s) && Wired(s) && Ends(s, e, b)
    ensures var c := |s.conns|;
            Run(s, [Redial(e, b), WatchAccept(c), Beat(c), WatchTake(c, 17), WatchBeat(c), BeatTake(c, 17)], t)
    ensures b < |t.bridges| && t.bridges[b].resets == s.bridges[b].resets + [|s.conns|]
    ensures e < |t.enclaves| && t.enclaves[e].resets == s.enclaves[e].resets + [|s.conns|]
  {
    hide Run, Apply, Enabled, Ends;
    var c := |s.conns|;
    Redialled(s, e, b);
    var s1 := Apply(s, Redial(e, b));
    var s2 := Apply(s1, WatchAccept(c));
    Upward(s2, c, e, b);
    var s3 := Apply(s2, Beat(c));
    var s4 := Apply(s3, WatchTake(c, 17));
    Downward(s4, c, e, b);
    t := Apply(Apply(s4, WatchBeat(c)), BeatTake(c, 17));
    TwoSteps(s4, WatchBeat(c), BeatTake(c, 17), t);
    var last := [WatchBeat(c), BeatTake(c, 17)];
    FourSteps(s, Redial(e, b), WatchAccept(c), Beat(c), WatchTake(c, 17), s4);
    RunsJoin(s, [Redial(e, b), WatchAccept(c), Beat(c), WatchTake(c, 17)], s4, last, t);
    assert [Redial(e, b), WatchAccept(c), Beat(c), WatchTake(c, 17)] + last
        == [Redial(e, b), WatchAccept(c), Beat(c), WatchTake(c, 17), WatchBeat(c), BeatTake(c, 17)];
  }

  lemma TwoSteps(s: State, m: Move, n: Move, t: State)
    requires Wired(s) && Enabled(s, m)
    requires var u := Apply(s, m); Wired(u) && Enabled(u, n) && t == Apply(u, n)
    ensures Run(s, [m, n], t)
  {
    hide Run, Apply, Enabled;
    RunNone(t);
    assert [n] + [] == [n] && [m] + [n] == [m, n];
    RunFirst(Apply(s, m), n, [], t);
    RunFirst(s, m, [n], t);
  }

  /**
    An enclave that gives its handshake connection up can dial again exactly while it has not read its
    environment; after it has written its settings its watchdog can dial instead; in between it can do neither.
   */
  lemma GivingUp(s: State, c: nat, b: nat)
    requires Reachable(s) && Wired(s) && Enabled(s, EQuit(c)) && b < |s.bridges| && !s.bridges[b].phase.Down?
    ensures var t, k := Apply(s, EQuit(c)), s.conns[c];
            && Wired(t) && !t.conns[c].eopen
            && (Enabled(t, Dial(k.enc, b)) <==> k.er == 0)
            && (Enabled(t, Redial(k.enc, b)) <==>
                  k.ew == 2 && EncOf(s, c).settings.enclaveId != NIL && EncOf(s, c).settings.interval as int > 0)
  {
    hide Reachable, Inv;
    ReachableInv(s);
    AheadByOne(s, c);
  }

  lemma AheadByOne(s: State, c: nat)
    requires Wired(s) && Inv(s) && Held(s, c)
    ensures s.conns[c].ew <= s.conns[c].er + 1
  {
    hide BridgeOk, EnclaveOk, BeatConn, CanWatch;
    assert ConnOk(c, s.conns[c], EncOf(s, c), BriOf(s, c));
  }

  // ------------------------------------------------------------------------------------------
  // From nothing
  // ------------------------------------------------------------------------------------------

  /**
    From any state in which the port is free, a new enclave and a new bridge can get together, and the two alone
    can take their handshake to its end. With settings whose level the bridge knows, an ID and an interval, that
    is an enclave which has its ACK and a bridge which watches with exactly the enclave's settings.
   */
  lemma APairCanStart(s: State, settings: BridgeSettings, host: map<string, string>, env: seq<byte>,
                      levels: set<string>)
    returns (ms: seq<Move>, t: State)
    requires Reachable(s) && Wired(s) && Enabled(s, NewBridge(host, env, levels))
    requires settings.level == "" || settings.level in levels
    requires settings.enclaveId != NIL && settings.interval as int > 0
    ensures Run(s, ms, t) && Reachable(t) && Wired(t)
    ensures var e, b := |s.enclaves|, |s.bridges|;
            && e < |t.enclaves| && t.enclaves[e].settings == settings && t.enclaves[e].phase == Ready(true)
            && b < |t.bridges| && t.bridges[b].cfg == Some(settings) && Watching(t.bridges[b])
  {
    hide Reachable, Enabled, Apply, Run, Inv, NobodyGivesUp, Shakes, Watching, BridgeRun.EndingOf;
    var c := |s.conns|;
    var u := Meet(s, settings, host, env, levels);
    var ns;
    ns, t := Finish(u, c);
    var first := [NewBridge(host, env, levels), NewEnclave(settings), Dial(|s.enclaves|, |s.bridges|), Accept(c)];
    RunsJoin(s, first, u, ns, t);
    ms := first + ns;
    HandshakeEndsWell(u, ns, t, c);
    Waits(settings, levels);
    ReachableInv(t);
    ConfiguredAtEnd(t, c);
  }

  lemma Waits(settings: BridgeSettings, levels: set<string>)
    requires settings.level == "" || settings.level in levels
    requires settings.enclaveId != NIL && settings.interval as int > 0
    ensures BridgeRun.EndingOf(settings, levels, true, None).Waited?
  {}

  lemma ConfiguredAtEnd(s: State, c: nat)
    requires Wired(s) && Inv(s) && c < |s.conns| && s.conns[c].use.Shake? && s.conns[c].role.Paired?
    requires s.conns[c].er == 2
    ensures BriOf(s, c).cfg == Some(EncOf(s, c).settings)
  {
    hide ConnOk, BridgeOk, EnclaveOk;
    assert ConnOk(c, s.conns[c], EncOf(s, c), BriOf(s, c));
    ConfiguredIfHeard(c, s.conns[c], EncOf(s, c), BriOf(s, c));
  }
}
