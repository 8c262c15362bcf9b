/** A heartbeat gets through: written on a connection that a watchdog watches, it resets that watchdog. */
module PairingBeats {
  import opened Streams
  import opened Heartbeats
  import opened Settings
  import opened Pairing
  import opened PairingPipes
  import opened PairingInvariant
  import opened PairingSteps
  import opened PairingTheorems

  // ------------------------------------------------------------------------------------------
  // On the wire
  // ------------------------------------------------------------------------------------------

  /** The k-th heartbeat of a stream of them. */
  lemma {:induction false} BeatAt(id: Uuid, log: seq<byte>, k: nat)
    requires InPhase(log, id) && 17 * k < |log|
    ensures 17 * k + 17 <= |log| && log[17 * k..17 * k + 17] == Heartbeats.Beat(id)
    decreases k
  {
    hide Heartbeats.Beat;
    if k > 0 {
      var rest := log[17..];
      BeatAt(id, rest, k - 1);
      assert rest[17 * (k - 1)..17 * (k - 1) + 17] == log[17 * k..17 * k + 17];
    }
  }

  lemma {:induction false} PhaseLength(id: Uuid, log: seq<byte>) returns (k: nat)
    requires InPhase(log, id)
    ensures |log| == 17 * k
    decreases |log|
  {
    hide Heartbeats.Beat;
    if log == [] {
      k := 0;
    } else {
      var rest := PhaseLength(id, log[17..]);
      k := rest + 1;
    }
  }

  /** A read call that began with a heartbeat of a plain ID returns it, as soon as it has been read whole. */
  lemma WholeBeatRead(p: Pipe, id: Uuid, k: nat, n: nat)
    requires BeatPipe(p, id) && Plain(id) && p.Start() == 17 * k && 0 < n && p.at + n <= |p.log|
    ensures p.Completes(n) <==> 17 * k + 17 <= p.at + n
    ensures p.Completes(n) ==> p.Take(n).rd.frames == p.rd.frames + [Heartbeats.Beat(id)]
  {
    hide Pipe.Valid, Pipe.Take, Pipe.Completes, InPhase, Heartbeats.Beat, Plain, IsFrame;
    BeatAt(id, p.log, k);
    if p.Completes(n) {
      var q := p.Completed(n);
      PieceOfWhole(id, p.log, 17 * k, 17 * k, q);
    }
    if 17 * k + 17 <= p.at + n {
      assert Heartbeats.Beat(id)[16] == p.log[17 * k + 16];
      EndsCall(p, 17 * k + 16, n);
    }
  }

  /** A read over a delimiter that lies in the running call ends it. */
  lemma EndsCall(p: Pipe, q: nat, n: nat)
    requires p.Valid() && p.Start() <= q < p.at + n <= |p.log| && p.log[q] == NL
    ensures p.at <= q && p.Completes(n)
  {
    assert forall i | 0 <= i < |p.rd.buf| :: p.rd.buf[i] == p.log[p.Start() + i];
    assert p.at <= q;
    assert p.log[p.at..p.at + n][q - p.at] == NL;
  }

  // ------------------------------------------------------------------------------------------
  // From the enclave to the bridge
  // ------------------------------------------------------------------------------------------

  /** All that was written has been read, and the last call has returned. */
  predicate AllRead(p: Pipe) {
    p.Valid() && p.Start() == p.at == |p.log|
  }

  /** The watchdog of a bridge with the enclave's own, plain, ID reads the connection. */
  predicate Watches(s: State, c: nat)
    requires Wired(s)
  {
    && c < |s.conns| && s.conns[c].use.Beats? && s.conns[c].role.Watched? && s.conns[c].bopen
    && Watching(BriOf(s, c)) && Plain(EncOf(s, c).settings.enclaveId)
    && BriOf(s, c).cfg.value.enclaveId == EncOf(s, c).settings.enclaveId
  }

  /** After the heartbeats before it, one more is under way. */
  ghost predicate OneUnderWay(s: State, c: nat, k: nat)
    requires Wired(s) && c < |s.conns|
  {
    var p := s.conns[c].up;
    BeatPipe(p, EncOf(s, c).settings.enclaveId) && p.Start() == 17 * k && p.at < |p.log| == 17 * k + 17
  }

  predicate OnlyReads(ms: seq<Move>, c: nat) {
    forall m | m in ms :: m.WatchTake? && m.c == c
  }

  lemma Written(s: State, c: nat) returns (k: nat)
    requires Inv(s) && Wired(s) && Watches(s, c) && AllRead(s.conns[c].up) && Enabled(s, Beat(c))
    ensures var t := Apply(s, Beat(c));
            Wired(t) && Watches(t, c) && OneUnderWay(t, c, k) && t.bridges == s.bridges
            && t.conns[c].bri == s.conns[c].bri
  {
    hide BridgeOk, EnclaveOk, InPhase, AllStarted, CanBeat, Pipe.Valid, Pipe.Write;
    assert ConnOk(c, s.conns[c], EncOf(s, c), BriOf(s, c));
    var id := EncOf(s, c).settings.enclaveId;
    k := PhaseLength(id, s.conns[c].up.log);
    BeatWrite(s.conns[c].up, id);
  }

  lemma ReadFacts(s: State, c: nat, n: nat)
    requires Wired(s) && Enabled(s, WatchTake(c, n))
    ensures c < |s.conns| && 0 < n && s.conns[c].up.Valid() && s.conns[c].up.at + n <= |s.conns[c].up.log|
  {
    hide Pipe.Valid, AllStarted;
  }

  /** What the read makes of the connection, and the bridge. */
  lemma ReadMakes(s: State, c: nat, k: nat, n: nat)
    requires Inv(s) && Wired(s) && Watches(s, c) && OneUnderWay(s, c, k) && Enabled(s, WatchTake(c, n))
    ensures s.conns[c].up.Valid() && s.conns[c].up.at + n <= |s.conns[c].up.log|
    ensures var b, p := BriOf(s, c), s.conns[c].up.Take(n);
            var x := if p.at == |p.log| then b.(resets := b.resets + [c]) else b;
            Apply(s, WatchTake(c, n)) == SetBri(SetConn(s, c, s.conns[c].(up := p)), s.conns[c].bri, x)
    ensures var p := s.conns[c].up.Take(n);
            BeatPipe(p, EncOf(s, c).settings.enclaveId) && p.Start() == if p.at == |p.log| then p.at else 17 * k
  {
    hide Inv, Apply, Enabled, Pipe.Take, Pipe.Completes, Pipe.Valid, InPhase, AllStarted, Heartbeats.Beat, Accepts;
    WatchedId(s, s.conns[c].bri);
    ReadFacts(s, c, n);
    var id := EncOf(s, c).settings.enclaveId;
    BeatTaken(s.conns[c].up, id, n);
    WholeBeatRead(s.conns[c].up, id, k, n);
    AcceptedIff(id, Heartbeats.Beat(id));
    WatchApplied(s, c, n);
  }

  /** One read of it. */
  lemma ReadStep(s: State, c: nat, k: nat, n: nat)
    requires Inv(s) && Wired(s) && Watches(s, c) && OneUnderWay(s, c, k) && Enabled(s, WatchTake(c, n))
    ensures var t, b := Apply(s, WatchTake(c, n)), s.conns[c].bri;
            && Wired(t) && c < |t.conns| && Watches(t, c) && t.conns[c].bri == b
            && t.bridges[b].foreign == s.bridges[b].foreign
            && if AllRead(t.conns[c].up) then t.bridges[b].resets == s.bridges[b].resets + [c]
               else OneUnderWay(t, c, k) && t.bridges[b].resets == s.bridges[b].resets
  {
    hide Inv, Apply, Enabled, Pipe.Take, Pipe.Completes, Pipe.Valid, InPhase, Heartbeats.Beat, Accepts;
    ReadMakes(s, c, k, n);
  }

  lemma {:induction false} ReadRun(s: State, c: nat, k: nat, ms: seq<Move>, t: State)
    requires Inv(s) && Wired(s) && c < |s.conns| && Watches(s, c) && OneUnderWay(s, c, k)
    requires Run(s, ms, t) && OnlyReads(ms, c)
    ensures Wired(t) && c < |t.conns| && Watches(t, c)
    ensures var b := s.conns[c].bri;
            && t.conns[c].bri == b && t.bridges[b].foreign == s.bridges[b].foreign
            && t.bridges[b].resets == s.bridges[b].resets + if AllRead(t.conns[c].up) then [c] else []
    ensures !AllRead(t.conns[c].up) ==> Enabled(t, WatchTake(c, 1))
    decreases ms
  {
    hide Inv, Apply, Enabled, Watches, OneUnderWay, AllRead;
    if ms == [] {
      MoreToRead(s, c, k);
    } else {
      var u := Apply(s, ms[0]);
      assert ms[0] in ms;
      ReadStep(s, c, k, ms[0].n);
      KeepInv(s, ms[0]);
      if AllRead(u.conns[c].up) {
        NothingToRead(u, c, ms[1..], t);
      } else {
        ReadRun(u, c, k, ms[1..], t);
      }
    }
  }

  lemma MoreToRead(s: State, c: nat, k: nat)
    requires Wired(s) && Watches(s, c) && OneUnderWay(s, c, k)
    ensures !AllRead(s.conns[c].up) && Enabled(s, WatchTake(c, 1))
  {
    hide Pipe.Valid, InPhase, AllStarted;
  }

  lemma NothingToRead(s: State, c: nat, ms: seq<Move>, t: State)
    requires Wired(s) && c < |s.conns| && AllRead(s.conns[c].up) && Run(s, ms, t) && OnlyReads(ms, c)
    ensures t == s
  {
    hide Apply, Pipe.Valid;
    if ms != [] {
      assert ms[0] in ms;
      ReadFacts(s, c, ms[0].n);
    }
  }

  /**
    A heartbeat gets through. Once all that an enclave had sent on a connection has been read by the watchdog of
    a bridge with its ID, and that has no delimiter in it, the next heartbeat resets the watchdog exactly once,
    when its last byte is read, however it is cut up; it ends nothing, leaves the connection ready for the next,
    and until then there is something to read.
   */
  lemma HeartbeatGetsThrough(s: State, c: nat, ms: seq<Move>, t: State)
    requires Reachable(s) && Wired(s) && Watches(s, c) && AllRead(s.conns[c].up) && Enabled(s, Beat(c))
    requires Run(Apply(s, Beat(c)), ms, t) && OnlyReads(ms, c)
    ensures Wired(t) && c < |t.conns| && Watches(t, c) && t.conns[c].bri == s.conns[c].bri
    ensures var b := s.conns[c].bri;
            && t.bridges[b].foreign == s.bridges[b].foreign
            && t.bridges[b].resets == s.bridges[b].resets + if AllRead(t.conns[c].up) then [c] else []
    ensures !AllRead(t.conns[c].up) ==> Enabled(t, WatchTake(c, 1))
  {
    hide Reachable, Inv, Apply, Enabled, AllRead, OneUnderWay;
    ReachableInv(s);
    var k := Written(s, c);
    KeepInv(s, Beat(c));
    ReadRun(Apply(s, Beat(c)), c, k, ms, t);
  }
}
