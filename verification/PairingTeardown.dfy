/** A restarted enclave brings down the bridge that still runs: its handshake gets to the watchdog, and is reported. */
module PairingTeardown {
  import opened Options
  import opened Streams
  import opened Heartbeats
  import opened Settings
  import opened Pairing
  import opened PairingPipes
  import opened PairingInvariant
  import opened PairingSteps
  import opened PairingTheorems
  import opened PairingProgress

  /** A handshake has been begun with a bridge that watches already, and nothing foreign is reported yet. */
  predicate ReportDue(s: State, c: nat)
    requires Wired(s)
  {
    && c < |s.conns| && s.conns[c].use.Shake? && !s.conns[c].role.Paired? && s.conns[c].ew > 0
    && Watching(BriOf(s, c)) && !BriOf(s, c).foreign
  }

  /** The watchdog's steps on the connection. */
  predicate OfReport(m: Move, c: nat) {
    match m
    case WatchAccept(d) => d == c
    case WatchTake(d, _) => d == c
    case _ => false
  }

  /** The accept, and the bytes of the ACK that are still to be read. */
  function ToReport(s: State, c: nat): int
    requires c < |s.conns|
  {
    (if s.conns[c].role.Queued? then 1 else 0) + 2 - s.conns[c].up.at
  }

  /** What the invariant says of such a connection: its ACK has not been read whole. */
  lemma ReportFacts(s: State, c: nat)
    requires Wired(s) && Inv(s) && ReportDue(s, c)
    ensures var k := s.conns[c];
            && k.up.Valid() && k.up.at < 2 <= |k.up.log| && k.bopen && (k.role.Watched? ==> k.up.rd.frames == [])
  {
    hide BridgeOk, EnclaveOk, ShakeConn, BeatConn, AllStarted;
    assert ConnOk(c, s.conns[c], EncOf(s, c), BriOf(s, c));
    AckUnread(s.conns[c], EncOf(s, c).settings, BriOf(s, c));
  }

  lemma AckUnread(k: Conn, settings: BridgeSettings, b: Bridge)
    requires ShakeConn(k, settings, b) && !k.role.Paired? && k.ew > 0 && k.bopen
    ensures k.up.Valid() && k.up.at < 2 <= |k.up.log| && (k.role.Watched? ==> k.up.rd.frames == [])
  {
    hide BeatPipe, ShakePipe, MayBeJson, ConfigFrame, EnvFrame, FirstPiece;
    SaidAck(settings, k.ew);
    if k.role.Watched? {
      NotPast(k.up, 1);
    }
  }

  lemma SaidAck(settings: BridgeSettings, w: nat)
    requires 0 < w <= 2
    ensures var log := Said(ACK, ConfigFrame(settings), w); |log| >= 2 && log[1] == NL
  {
    hide ConfigFrame;
  }

  /** Until there is a report, the watchdog can take a step towards one. */
  lemma ReportGoesOn(s: State, c: nat) returns (m: Move)
    requires Reachable(s) && Wired(s) && ReportDue(s, c)
    ensures OfReport(m, c) && Enabled(s, m)
  {
    hide Inv, Reachable, AllStarted, Pipe.Valid;
    ReachableInv(s);
    ReportFacts(s, c);
    m := if s.conns[c].role.Queued? then WatchAccept(c) else WatchTake(c, 1);
  }

  /** Each such step makes the report, or leaves less to do before it. */
  lemma ReportStep(s: State, m: Move, c: nat)
    requires Wired(s) && Inv(s) && ReportDue(s, c) && OfReport(m, c) && Enabled(s, m)
    ensures var t := Apply(s, m);
            && Wired(t) && c < |t.conns| && t.conns[c].bri == s.conns[c].bri
            && (BriOf(t, c).foreign || (ReportDue(t, c) && ToReport(t, c) < ToReport(s, c)))
  {
    hide Inv, Apply, Enabled, AllStarted;
    SameEnds(s, m, c);
    ReportFacts(s, c);
    if m.WatchAccept? {
      AcceptedForWatch(s, c);
    } else {
      TakenForWatch(s, c, m.n);
    }
  }

  lemma AcceptedForWatch(s: State, c: nat)
    requires Wired(s) && ReportDue(s, c) && Enabled(s, WatchAccept(c))
    ensures var t := Apply(s, WatchAccept(c)); Wired(t) && ReportDue(t, c) && ToReport(t, c) < ToReport(s, c)
  {
    hide AllStarted;
  }

  lemma TakenForWatch(s: State, c: nat, n: nat)
    requires Wired(s) && Inv(s) && ReportDue(s, c) && Enabled(s, WatchTake(c, n)) && Wired(Apply(s, WatchTake(c, n)))
    ensures var t := Apply(s, WatchTake(c, n));
            && c < |t.conns| && t.conns[c].bri == s.conns[c].bri
            && (BriOf(t, c).foreign || (ReportDue(t, c) && ToReport(t, c) < ToReport(s, c)))
  {
    hide Inv, Apply, FrameRead, Pipe.Take, Pipe.Completes, AllStarted;
    SameEnds(s, WatchTake(c, n), c);
    if s.conns[c].up.Completes(n) {
      FirstFrameIsAck(s, c, n);
      WatchedId(s, s.conns[c].bri);
      MismatchNow(s, c, n);
    } else {
      TakenPart(s, c, n);
    }
  }

  lemma TakenPart(s: State, c: nat, n: nat)
    requires Wired(s) && ReportDue(s, c) && Enabled(s, WatchTake(c, n)) && Wired(Apply(s, WatchTake(c, n)))
    requires !s.conns[c].up.Completes(n)
    ensures var t := Apply(s, WatchTake(c, n)); ReportDue(t, c) && ToReport(t, c) < ToReport(s, c)
  {
    hide Apply, Accepts, AllStarted, Pipe.Take, Pipe.Completes, Pipe.Valid;
    WatchApplied(s, c, n);
  }

  /** Nothing else but the end of the bridge takes the connection from its way to the report. */
  lemma OthersLeaveReport(s: State, m: Move, c: nat)
    requires Wired(s) && Inv(s) && ReportDue(s, c) && Enabled(s, m) && !OfReport(m, c)
    requires m != BridgeDies(s.conns[c].bri)
    ensures var t := Apply(s, m);
            && Wired(t) && c < |t.conns| && t.conns[c].bri == s.conns[c].bri
            && (BriOf(t, c).foreign || (ReportDue(t, c) && ToReport(t, c) == ToReport(s, c)))
  {
    NoReportYet(s, m, c);
    hide Inv, Apply, Enabled, AllStarted;
    SameEnds(s, m, c);
    WatchingStays(s, m, s.conns[c].bri);
    UpSideKept(s, m, c);
  }

  lemma NoReportYet(s: State, m: Move, c: nat)
    requires Wired(s) && ReportDue(s, c) && Enabled(s, m)
    ensures m != TearDown(s.conns[c].bri)
  {
    hide AllStarted, MayStart, Pipe.Valid, MayBeJson;
  }

  /** What the enclave still does on the connection takes nothing back that it has written. */
  lemma UpSideKept(s: State, m: Move, c: nat)
    requires Wired(s) && Enabled(s, m) && ReportDue(s, c) && !OfReport(m, c)
    ensures c < |Apply(s, m).conns|
    ensures var k, k' := s.conns[c], Apply(s, m).conns[c];
            k'.use == k.use && k'.role == k.role && k'.ew >= k.ew && k'.up.at == k.up.at
  {
    hide Apply, Enabled, AllStarted;
    match m
    case BTake(d, _) => OtherRead(s, m, c, d);
    case WatchTake(d, _) => OtherRead(s, m, c, d);
    case BeatTake(d, _) => OtherRead(s, m, c, d);
    case ETake(d, n) => EnclaveReads(s, c, d, n);
    case _ => OtherMoves(s, m, c);
  }

  lemma OtherRead(s: State, m: Move, c: nat, d: nat)
    requires Wired(s) && Enabled(s, m) && ReportDue(s, c) && !OfReport(m, c)
    requires (m.BTake? && m.c == d) || (m.WatchTake? && m.c == d) || (m.BeatTake? && m.c == d)
    ensures c < |Apply(s, m).conns| && Apply(s, m).conns[c] == s.conns[c]
  {
    hide Pipe.Take, Pipe.Valid, Pipe.Completes, Accepts, Welcome, ParseConfig, AllStarted, Last, Apply, BeatHeard,
         EchoHeard;
    match m
    case BTake(_, n) => BTakeApplied(s, d, n);
    case WatchTake(_, n) => WatchApplied(s, d, n);
    case BeatTake(_, n) => BeatApplied(s, d, n);
  }

  lemma EnclaveReads(s: State, c: nat, d: nat, n: nat)
    requires Wired(s) && Enabled(s, ETake(d, n)) && c < |s.conns|
    ensures var t := Apply(s, ETake(d, n));
            && c < |t.conns|
            && var k := t.conns[c]; k == s.conns[c].(down := k.down, er := k.er, eopen := k.eopen)
  {
    hide Pipe.Take, Pipe.Valid, Pipe.Completes, Last;
  }

  lemma OtherMoves(s: State, m: Move, c: nat)
    requires Wired(s) && Enabled(s, m) && ReportDue(s, c) && !OfReport(m, c)
    requires !m.BTake? && !m.WatchTake? && !m.BeatTake? && !m.ETake?
    ensures c < |Apply(s, m).conns|
    ensures var k, k' := s.conns[c], Apply(s, m).conns[c];
            k'.use == k.use && k'.role == k.role && k'.ew >= k.ew && k'.up.at == k.up.at
  {
    hide Pipe.Write, Pipe.Valid, Heartbeats.Beat, CanWatch, CanBeat, MayBeJson, EnvFrame, ConfigFrame, MayStart,
         AllStarted;
  }

  /** How many steps of a run are the watchdog's on the connection. */
  function Reports(ms: seq<Move>, c: nat): nat {
    if ms == [] then 0 else (if OfReport(ms[0], c) then 1 else 0) + Reports(ms[1..], c)
  }

  /**
    A restarted enclave brings the bridge down. Once its ACK is written to a bridge that watches, and unless
    the bridge ends by itself, in every run there is a report, and the bridge is down or can be taken down by
    it; or the run holds fewer of the watchdog's steps on the connection than it takes, and then there is
    another one to take.
   */
  lemma RestartedEnclaveTearsDown(s: State, c: nat, ms: seq<Move>, t: State)
    requires Reachable(s) && Wired(s) && ReportDue(s, c) && Run(s, ms, t)
    requires forall m | m in ms :: m != BridgeDies(s.conns[c].bri)
    ensures Wired(t) && c < |t.conns| && t.conns[c].bri == s.conns[c].bri
    ensures || (BriOf(t, c).foreign && ComesDown(t, s.conns[c].bri))
            || (ReportDue(t, c) && 0 < ToReport(t, c) <= ToReport(s, c) - Reports(ms, c)
                && exists m :: OfReport(m, c) && Enabled(t, m))
  {
    hide Inv, Reachable, Run, ReportDue, ComesDown, ToReport, Enabled, OfReport;
    ReachableInv(s);
    ReportRun(s, c, ms, t);
    if ReportDue(t, c) {
      ReachableOn(s, ms, t);
      var m := ReportGoesOn(t, c);
      ReachableInv(t);
      StillToReport(t, c);
    }
  }

  lemma StillToReport(s: State, c: nat)
    requires Wired(s) && Inv(s) && ReportDue(s, c)
    ensures c < |s.conns| && ToReport(s, c) > 0
  {
    hide Inv, AllStarted;
    ReportFacts(s, c);
  }

  lemma {:induction false} ReportRun(s: State, c: nat, ms: seq<Move>, t: State)
    requires Wired(s) && Inv(s) && ReportDue(s, c) && Run(s, ms, t)
    requires forall m | m in ms :: m != BridgeDies(s.conns[c].bri)
    ensures Wired(t) && Inv(t) && c < |t.conns| && t.conns[c].bri == s.conns[c].bri
    ensures || (BriOf(t, c).foreign && ComesDown(t, s.conns[c].bri))
            || (ReportDue(t, c) && ToReport(t, c) + Reports(ms, c) <= ToReport(s, c))
    decreases ms
  {
    hide Inv, Apply, Enabled, AllStarted, ComesDown, ToReport, OfReport;
    if ms != [] {
      var m, u := ms[0], Apply(s, ms[0]);
      assert m in ms;
      KeepInv(s, m);
      if OfReport(m, c) {
        ReportStep(s, m, c);
      } else {
        OthersLeaveReport(s, m, c);
      }
      if BriOf(u, c).foreign {
        ReportedRun(u, c, ms[1..], t);
      } else {
        assert forall n | n in ms[1..] :: n in ms;
        ReportRun(u, c, ms[1..], t);
      }
    }
  }

  lemma {:induction false} ReportedRun(s: State, c: nat, ms: seq<Move>, t: State)
    requires Wired(s) && Inv(s) && c < |s.conns| && BriOf(s, c).foreign && Run(s, ms, t)
    ensures Wired(t) && Inv(t) && c < |t.conns| && t.conns[c].bri == s.conns[c].bri
    ensures BriOf(t, c).foreign && ComesDown(t, s.conns[c].bri)
    decreases ms
  {
    if ms == [] {
      ReportWaits(s, s.conns[c].bri);
    } else {
      hide Inv, Apply, Enabled, ComesDown;
      var m := ms[0];
      KeepInv(s, m);
      SameEnds(s, m, c);
      ForeignStep(s, m, s.conns[c].bri);
      ReportedRun(Apply(s, m), c, ms[1..], t);
    }
  }

  /** What a run leads to from a reachable state is reachable. */
  lemma ReachableOn(s: State, ms: seq<Move>, t: State)
    requires Reachable(s) && Run(s, ms, t)
    ensures Reachable(t)
  {
    var ns :| Run(INIT, ns, s);
    RunsJoin(INIT, ns, s, ms, t);
  }

  lemma {:induction false} RunsJoin(r: State, ns: seq<Move>, s: State, ms: seq<Move>, t: State)
    requires Run(r, ns, s) && Run(s, ms, t)
    ensures Run(r, ns + ms, t)
    decreases ns
  {
    hide Apply, Enabled;
    if ns == [] {
      assert ns + ms == ms;
    } else {
      RunsJoin(Apply(r, ns[0]), ns[1..], s, ms, t);
      assert (ns + ms)[0] == ns[0] && (ns + ms)[1..] == ns[1..] + ms;
    }
  }
}
