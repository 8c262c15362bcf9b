/**
  A connection an enclave opens to the outside: the dialling side writes the target's address and waits
  for an ACK; the tunnel reads the address, connects to the target, acknowledges and then copies bytes
  in both directions. Reads return chunks of any size, and the two sides interleave freely.
 */
module ClientTunnel {
  import opened Streams
  import opened Framing

  datatype Client = Dialling | AwaitAck | Open | Refused

  datatype Server = AwaitLine | GotLine | Connected | Pumping

  datatype State = State(
    addr: seq<byte>,
    polite: bool,            // the target speaks only after it has heard from the client
    client: Client,
    clientUp: bool,
    server: Server,
    serverUp: bool,
    up: Pipe,                // client to tunnel
    down: Pipe,              // tunnel to client
    payload: seq<byte>,      // what the caller has written since the dial returned
    heard: seq<byte>,        // what the caller has read
    dialled: seq<byte>,      // the address the tunnel read
    upHeld: seq<byte>,       // read by the upward pump, not yet written
    toTarget: seq<byte>,     // what the target has received
    target: seq<byte>,       // what the target has written
    targetAt: nat,           // how much of that the downward pump has read
    downHeld: seq<byte>)

  datatype Move =
    | SendAddress
    | ServerTake(n: nat)
    | Connect
    | SendAck
    | ClientTake(n: nat)
    | CallerWrite(bs: seq<byte>)
    | CallerRead(n: nat)
    | PumpUpRead(n: nat)
    | PumpUpWrite(n: nat)
    | TargetWrite(bs: seq<byte>)
    | PumpDownRead(n: nat)
    | PumpDownWrite(n: nat)
    | ClientFails
    | ServerFails

  /** The size of a pooled copy buffer. */
  const BUFFER: nat := 1024

  function Start(addr: seq<byte>, polite: bool): State {
    State(addr, polite, Dialling, true, AwaitLine, true, EMPTY, EMPTY, [], [], [], [], [], [], 0, [])
  }

  /** A plain read, with no buffered reader left in between. */
  function Read(p: Pipe, n: nat): (q: Pipe)
    requires p.Valid() && p.rd.buf == [] && p.at + n <= |p.log|
    ensures q.Valid() && q.log == p.log && q.at == p.at + n && q.rd == p.rd
  {
    p.(at := p.at + n)
  }

  predicate CanRead(p: Pipe, n: nat) {
    p.Valid() && 0 < n <= |p.log| - p.at
  }

  predicate Enabled(s: State, m: Move) {
    match m
    case SendAddress => s.clientUp && s.client.Dialling? && s.up.Valid()
    case ServerTake(n) => s.serverUp && s.server.AwaitLine? && CanRead(s.up, n)
    case Connect => s.serverUp && s.server.GotLine?
    case SendAck => s.serverUp && s.server.Connected? && s.down.Valid()
    case ClientTake(n) => s.clientUp && s.client.AwaitAck? && CanRead(s.down, n)
    case CallerWrite(_) => s.clientUp && s.client.Open? && s.up.Valid()
    case CallerRead(n) => s.clientUp && s.client.Open? && CanRead(s.down, n) && s.down.rd.buf == []
    case PumpUpRead(n) =>
      s.serverUp && s.server.Pumping? && s.upHeld == [] && CanRead(s.up, n) && s.up.rd.buf == [] && n <= BUFFER
    case PumpUpWrite(n) => s.serverUp && s.server.Pumping? && 0 < n <= |s.upHeld|
    case TargetWrite(_) =>
      s.serverUp && (s.server.Connected? || s.server.Pumping?) && (s.polite ==> s.toTarget != [])
    case PumpDownRead(n) =>
      s.serverUp && s.server.Pumping? && s.downHeld == [] && s.targetAt + n <= |s.target| && 0 < n <= BUFFER
    case PumpDownWrite(n) => s.serverUp && s.server.Pumping? && 0 < n <= |s.downHeld| && s.down.Valid()
    case ClientFails => true
    case ServerFails => true
  }

  function Apply(s: State, m: Move): State
    requires Enabled(s, m)
  {
    match m
    case SendAddress => s.(up := s.up.Write(s.addr + [NL]), client := AwaitAck)
    case ServerTake(n) => ServerTakes(s, n)
    case Connect => s.(server := Connected)
    case SendAck => s.(down := s.down.Write(ACK), server := Pumping)
    case ClientTake(n) => ClientTakes(s, n)
    case CallerWrite(bs) => s.(up := s.up.Write(bs), payload := s.payload + bs)
    case CallerRead(n) =>
      s.(down := Read(s.down, n), heard := s.heard + s.down.log[s.down.at..s.down.at + n])
    case PumpUpRead(n) => s.(up := Read(s.up, n), upHeld := s.up.log[s.up.at..s.up.at + n])
    case PumpUpWrite(n) => s.(toTarget := s.toTarget + s.upHeld[..n], upHeld := s.upHeld[n..])
    case TargetWrite(bs) => s.(target := s.target + bs)
    case PumpDownRead(n) =>
      s.(targetAt := s.targetAt + n, downHeld := s.target[s.targetAt..s.targetAt + n])
    case PumpDownWrite(n) => s.(down := s.down.Write(s.downHeld[..n]), downHeld := s.downHeld[n..])
    case ClientFails => s.(clientUp := false)
    case ServerFails => s.(serverUp := false)
  }

  /** The tunnel reads the address line; what its reader took past the line is gone. */
  function ServerTakes(s: State, n: nat): State
    requires CanRead(s.up, n)
  {
    var up := s.up.Take(n);
    if s.up.Completes(n) && up.rd.frames != [] then
      var line := up.rd.frames[|up.rd.frames| - 1];
      s.(up := up, server := GotLine, dialled := if line == [] then [] else line[..|line| - 1])
    else s.(up := up)
  }

  /** The dialling side reads the reply; only the ACK makes a connection of it. */
  function ClientTakes(s: State, n: nat): State
    requires CanRead(s.down, n)
  {
    var down := s.down.Take(n);
    if s.down.Completes(n) && down.rd.frames != [] then
      s.(down := down, client := if down.rd.frames[|down.rd.frames| - 1] == ACK then Open else Refused)
    else s.(down := down)
  }

  ghost predicate Run(s: State, ms: seq<Move>, t: State)
    decreases ms
  {
    if ms == [] then s == t else Enabled(s, ms[0]) && Run(Apply(s, ms[0]), ms[1..], t)
  }

  // ------------------------------------------------------------------------------------------
  // The invariant
  // ------------------------------------------------------------------------------------------

  /** What the read of the ACK took past it. */
  function Lost(s: State): seq<byte> {
    if |s.down.rd.spills| == 0 then [] else s.down.rd.spills[0]
  }

  ghost predicate UpInv(s: State) {
    && s.up.Valid() && s.up.at <= |s.up.log|
    && s.up.log == (if s.client.Dialling? then [] else s.addr + [NL] + s.payload)
    && (s.payload != [] ==> s.client.Open?)
    && (if s.server.AwaitLine? then
          s.up.Start() == 0 && s.up.rd.frames == [] && s.toTarget == [] && s.upHeld == []
        else
          !s.client.Dialling? && s.up.rd.buf == [] && s.dialled == s.addr
          && |s.addr| < s.up.at && s.up.log[|s.addr| + 1..s.up.at] == s.toTarget + s.upHeld)
  }

  ghost predicate DownInv(s: State) {
    && s.down.Valid() && s.down.at <= |s.down.log| && s.targetAt <= |s.target|
    && (if s.server.Pumping? then
          |s.down.log| >= 2 && s.down.log[..2] == ACK && s.down.log[2..] + s.downHeld == s.target[..s.targetAt]
        else
          s.down.log == [] && s.downHeld == [] && s.targetAt == 0)
    && match s.client
       case Open => s.server.Pumping? && s.down.rd.buf == [] && s.down.at >= 2
                    && s.down.log[2..s.down.at] == Lost(s) + s.heard
       case Refused => false
       case _ => s.down.Start() == 0 && s.down.rd.frames == [] && s.down.rd.spills == [] && s.heard == []
  }

  /** A polite target has said nothing before the caller has the connection. */
  ghost predicate PoliteInv(s: State) {
    s.polite ==> (s.toTarget == [] ==> s.target == []) && Lost(s) == []
  }

  ghost predicate Inv(s: State) {
    UpInv(s) && DownInv(s) && PoliteInv(s)
  }

  lemma LineTaken(s: State, n: nat)
    requires UpInv(s) && s.server.AwaitLine? && Plain(s.addr) && !s.client.Open? && CanRead(s.up, n)
    ensures UpInv(ServerTakes(s, n))
  {
    hide Pipe.Valid, Pipe.Write, Pipe.Take, Pipe.Completes, IsFrame, Plain;
    var line := s.addr + [NL];
    WholeLine(s.addr, s.up.log, s.up.Start());
    CompletesAtEnd(s.up, line, n);
    if s.up.Completes(n) {
      OneFrameLeft(s.up, line, n);
      assert line[..|line| - 1] == s.addr;
      LineGone(s, ServerTakes(s, n));
    }
  }

  /** The line was all there was. */
  lemma LineGone(s: State, t: State)
    requires UpInv(s) && s.server.AwaitLine? && !s.client.Open? && !s.client.Dialling?
    requires t == s.(up := t.up, server := GotLine, dialled := s.addr)
    requires t.up.Valid() && t.up.log == s.up.log && t.up.at == |s.up.log| && t.up.rd.buf == []
    ensures UpInv(t)
  {
    hide Pipe.Valid, Pipe.Start;
    assert s.payload == [] && |s.up.log| == |s.addr| + 1;
    assert s.up.log[|s.addr| + 1..] == [];
  }

  lemma WholeLine(addr: seq<byte>, log: seq<byte>, start: nat)
    requires Plain(addr) && log == addr + [NL] + [] && start == 0
    ensures log[start..] == addr + [NL] && IsFrame(addr + [NL])
  {}

  lemma AckTaken(s: State, n: nat)
    requires DownInv(s) && PoliteInv(s) && s.client.AwaitAck? && CanRead(s.down, n)
    requires s.polite ==> s.target == []
    ensures DownInv(ClientTakes(s, n)) && PoliteInv(ClientTakes(s, n))
    ensures ClientTakes(s, n).client != s.client ==> s.server.Pumping?
  {
    hide Pipe.Valid, Pipe.Take, Pipe.Completes;
    if s.down.Completes(n) {
      AckFirst(s.down, n);
      assert s.polite ==> s.down.log[2..] == [];
    }
  }

  /** The way up is not touched. */
  lemma UpSame(s: State, t: State)
    requires UpInv(s) && t.up == s.up && t.addr == s.addr && t.payload == s.payload && t.toTarget == s.toTarget
    requires t.upHeld == s.upHeld && t.dialled == s.dialled
    requires t.server.AwaitLine? == s.server.AwaitLine? && t.client.Dialling? == s.client.Dialling?
    requires t.payload != [] ==> t.client.Open?
    ensures UpInv(t)
  {
    hide Pipe.Valid;
  }

  lemma UpSent(s: State)
    requires UpInv(s) && DownInv(s) && Enabled(s, SendAddress)
    ensures UpInv(Apply(s, SendAddress))
  {
    hide Pipe.Valid, Pipe.Write, Pipe.Take, Pipe.Completes;
    assert [] + (s.addr + [NL]) == s.addr + [NL] + [];
  }

  lemma UpWritten(s: State, bs: seq<byte>)
    requires UpInv(s) && Enabled(s, CallerWrite(bs))
    ensures UpInv(Apply(s, CallerWrite(bs)))
  {
    hide Pipe.Valid, Pipe.Write, Pipe.Take, Pipe.Completes;
    ConcatAssoc(s.addr + [NL], s.payload, bs);
    if !s.server.AwaitLine? {
      Longer(s.up.log, bs, |s.addr| + 1, s.up.at);
    }
  }

  lemma Longer(log: seq<byte>, bs: seq<byte>, a: nat, b: nat)
    requires a <= b <= |log|
    ensures (log + bs)[a..b] == log[a..b]
  {}

  lemma Joined(log: seq<byte>, a: nat, b: nat, c: nat)
    requires a <= b <= c <= |log|
    ensures log[a..c] == log[a..b] + log[b..c]
  {}

  lemma UpPumpRead(s: State, n: nat)
    requires UpInv(s) && Enabled(s, PumpUpRead(n))
    ensures UpInv(Apply(s, PumpUpRead(n)))
  {
    hide Pipe.Valid, Pipe.Write, Pipe.Take, Pipe.Completes;
    var k, at := |s.addr| + 1, s.up.at;
    Joined(s.up.log, k, at, at + n);
    assert s.toTarget + [] == s.toTarget;
  }

  lemma UpPumpWritten(s: State, n: nat)
    requires UpInv(s) && s.server.Pumping? && n <= |s.upHeld|
    ensures UpInv(s.(toTarget := s.toTarget + s.upHeld[..n], upHeld := s.upHeld[n..]))
  {
    hide Pipe.Valid, Pipe.Write, Pipe.Take, Pipe.Completes, Pipe.Start;
    assert s.toTarget + s.upHeld == (s.toTarget + s.upHeld[..n]) + s.upHeld[n..];
  }

  lemma OnlyOpenPays(s: State)
    requires UpInv(s)
    ensures s.payload != [] ==> s.client.Open?
  {}

  lemma UpStep(s: State, m: Move)
    requires UpInv(s) && DownInv(s) && Plain(s.addr) && Enabled(s, m)
    ensures UpInv(Apply(s, m))
  {
    hide UpInv, Plain, Pipe.Valid, Pipe.Take, Pipe.Completes;
    OnlyOpenPays(s);
    match m
    case SendAddress => UpSent(s);
    case ServerTake(n) => LineTaken(s, n);
    case CallerWrite(bs) => UpWritten(s, bs);
    case PumpUpRead(n) => UpPumpRead(s, n);
    case PumpUpWrite(n) => UpPumpWritten(s, n);
    case _ => UpSame(s, Apply(s, m));
  }

  /** The way down is not touched. */
  lemma DownSame(s: State, t: State)
    requires DownInv(s) && PoliteInv(s) && t.down == s.down && t.target == s.target && t.targetAt == s.targetAt
    requires t.downHeld == s.downHeld && t.heard == s.heard && t.polite == s.polite
    requires t.server.Pumping? == s.server.Pumping?
    requires t.client == s.client || (s.client.Dialling? && t.client.AwaitAck?)
    requires t.toTarget == [] ==> s.toTarget == []
    ensures DownInv(t) && PoliteInv(t)
  {
    hide Pipe.Valid;
  }

  lemma DownAcked(s: State)
    requires DownInv(s) && PoliteInv(s) && Enabled(s, SendAck)
    ensures DownInv(Apply(s, SendAck)) && PoliteInv(Apply(s, SendAck))
  {
    hide Pipe.Valid, Pipe.Write, Pipe.Take, Pipe.Completes;
    assert ([] + ACK)[..2] == ACK && ([] + ACK)[2..] == [];
  }

  lemma DownHeard(s: State, n: nat)
    requires DownInv(s) && PoliteInv(s) && Enabled(s, CallerRead(n))
    ensures DownInv(Apply(s, CallerRead(n))) && PoliteInv(Apply(s, CallerRead(n)))
  {
    hide Pipe.Valid, Pipe.Write, Pipe.Take, Pipe.Completes;
    var log, at := s.down.log, s.down.at;
    Joined(log, 2, at, at + n);
    assert (Lost(s) + s.heard) + log[at..at + n] == Lost(s) + (s.heard + log[at..at + n]);
  }

  lemma DownPumpRead(s: State, n: nat)
    requires DownInv(s) && PoliteInv(s) && Enabled(s, PumpDownRead(n))
    ensures DownInv(Apply(s, PumpDownRead(n))) && PoliteInv(Apply(s, PumpDownRead(n)))
  {
    hide Pipe.Valid, Pipe.Write, Pipe.Take, Pipe.Completes;
    var at := s.targetAt;
    assert s.target[..at + n] == s.target[..at] + s.target[at..at + n];
    assert s.down.log[2..] + [] == s.down.log[2..];
  }

  lemma DownSpoken(s: State, bs: seq<byte>)
    requires DownInv(s) && PoliteInv(s) && Enabled(s, TargetWrite(bs))
    ensures DownInv(Apply(s, TargetWrite(bs))) && PoliteInv(Apply(s, TargetWrite(bs)))
  {
    hide Pipe.Valid, Pipe.Write, Pipe.Take, Pipe.Completes;
    assert (s.target + bs)[..s.targetAt] == s.target[..s.targetAt];
  }

  lemma DownStep(s: State, m: Move)
    requires Inv(s) && Enabled(s, m)
    ensures DownInv(Apply(s, m)) && PoliteInv(Apply(s, m))
  {
    hide UpInv, DownInv, PoliteInv, Pipe.Valid, Pipe.Take, Pipe.Completes;
    match m
    case SendAck => DownAcked(s);
    case ClientTake(n) =>
      SilentBeforeOpen(s);
      AckTaken(s, n);
    case CallerRead(n) => DownHeard(s, n);
    case PumpDownRead(n) => DownPumpRead(s, n);
    case PumpDownWrite(n) => PumpedDown(s, n);
    case TargetWrite(bs) => DownSpoken(s, bs);
    case PumpUpWrite(n) =>
      assert s.toTarget + s.upHeld[..n] == [] ==> s.toTarget == [];
      DownSame(s, Apply(s, m));
    case _ => DownSame(s, Apply(s, m));
  }

  lemma PumpedDown(s: State, n: nat)
    requires DownInv(s) && PoliteInv(s) && Enabled(s, PumpDownWrite(n))
    ensures DownInv(Apply(s, PumpDownWrite(n))) && PoliteInv(Apply(s, PumpDownWrite(n)))
  {
    hide Pipe.Valid, Pipe.Write, Pipe.Take, Pipe.Completes;
    var log, d := s.down.log, s.downHeld;
    assert (log + d[..n])[2..] + d[n..] == log[2..] + (d[..n] + d[n..]);
    assert d[..n] + d[n..] == d;
    assert (log + d[..n])[..2] == log[..2];
    if s.client.Open? {
      Longer(log, d[..n], 2, s.down.at);
    }
  }

  /** Until the caller has the connection the target has received nothing. */
  lemma SilentBeforeOpen(s: State)
    requires Inv(s) && !s.client.Open?
    ensures s.toTarget == [] && s.upHeld == []
    ensures s.polite ==> s.target == []
  {
    hide Pipe.Valid;
  }

  lemma {:induction false} RunKeepsInv(s: State, ms: seq<Move>, t: State)
    requires Inv(s) && Plain(s.addr) && Run(s, ms, t)
    ensures Inv(t) && t.addr == s.addr && t.polite == s.polite
    decreases ms
  {
    hide Inv, Apply, Enabled;
    if ms != [] {
      StepKeepsInv(s, ms[0]);
      RunKeepsInv(Apply(s, ms[0]), ms[1..], t);
    }
  }

  lemma StepKeepsInv(s: State, m: Move)
    requires Inv(s) && Plain(s.addr) && Enabled(s, m)
    ensures Inv(Apply(s, m)) && Apply(s, m).addr == s.addr && Apply(s, m).polite == s.polite
  {
    hide UpInv, DownInv, PoliteInv;
    UpStep(s, m);
    DownStep(s, m);
  }

  lemma RunInv(addr: seq<byte>, polite: bool, ms: seq<Move>, s: State)
    requires Plain(addr) && Run(Start(addr, polite), ms, s)
    ensures Inv(s) && s.addr == addr && s.polite == polite
  {
    hide Run;
    RunKeepsInv(Start(addr, polite), ms, s);
  }

  // ------------------------------------------------------------------------------------------
  // Conservation
  // ------------------------------------------------------------------------------------------

  /**
    Upward nothing is lost, for any chunking and interleaving: what the target has received is what the
    caller wrote after the dial returned, up to the bytes still under way, and it was reached under the
    address the caller gave.
   */
  lemma PayloadIsConserved(addr: seq<byte>, polite: bool, ms: seq<Move>, s: State)
    requires Plain(addr) && Run(Start(addr, polite), ms, s)
    ensures s.toTarget <= s.payload
    ensures s.client.Open? ==>
              s.dialled == addr && s.up.at <= |s.up.log| && s.payload == s.toTarget + s.upHeld + s.up.log[s.up.at..]
    ensures !s.client.Open? ==> s.payload == [] && s.toTarget == []
  {
    hide Run, Plain, Pipe.Valid, DownInv, PoliteInv;
    RunInv(addr, polite, ms, s);
    if s.client.Open? {
      OpenMeansPumping(s);
      var log, k := s.up.log, |s.addr| + 1;
      assert log[k..] == s.payload;
      assert log[k..] == log[k..s.up.at] + log[s.up.at..];
    } else {
      SilentBeforeOpen(s);
    }
  }

  lemma OpenMeansPumping(s: State)
    requires DownInv(s)
    ensures s.client.Open? ==> s.server.Pumping?
  {}

  /**
    Downward the only bytes ever lost are those the read of the ACK took past it: what the target has
    written is those, then what the caller has heard, then the bytes still under way. The dial never
    ends in a reply that is not the ACK.
   */
  lemma ReplyIsConservedPastTheAck(addr: seq<byte>, polite: bool, ms: seq<Move>, s: State)
    requires Plain(addr) && Run(Start(addr, polite), ms, s)
    ensures !s.client.Refused?
    ensures s.client.Open? ==>
              && s.down.at <= |s.down.log| && s.targetAt <= |s.target|
              && s.target == Lost(s) + s.heard + s.down.log[s.down.at..] + s.downHeld + s.target[s.targetAt..]
    ensures !s.client.Open? ==> s.heard == []
  {
    hide Run, Plain, Pipe.Valid, UpInv, PoliteInv, Lost;
    RunInv(addr, polite, ms, s);
    if s.client.Open? {
      assert s.target == s.target[..s.targetAt] + s.target[s.targetAt..];
      assert s.down.log[2..] == s.down.log[2..s.down.at] + s.down.log[s.down.at..];
    }
  }

  /**
    Exactly when reply bytes are lost: they are those that the chunk which completes the ACK carries past it,
    and no others are lost by anything that happens later.
   */
  lemma ReplyIsLostIff(addr: seq<byte>, polite: bool, ms: seq<Move>, s: State, n: nat, ns: seq<Move>, t: State)
    requires Plain(addr) && Run(Start(addr, polite), ms, s)
    requires Enabled(s, ClientTake(n)) && s.down.Completes(n) && Run(Apply(s, ClientTake(n)), ns, t)
    ensures t.client.Open? && 2 <= s.down.at + n <= |s.down.log|
    ensures Lost(t) == s.down.log[2..s.down.at + n]
    ensures Lost(t) != [] <==> s.down.at + n > 2
  {
    assert s.down.Valid() && s.down.at + n <= |s.down.log|;
    hide Run, Plain, UpInv, DownInv, PoliteInv, Lost, Pipe.Valid, Pipe.Take, Pipe.Completes, Apply, Enabled;
    RunInv(addr, polite, ms, s);
    AckEnds(s, n);
    LossStays(Apply(s, ClientTake(n)), ns, t);
  }

  lemma AckEnds(s: State, n: nat)
    requires DownInv(s) && Enabled(s, ClientTake(n)) && s.down.Completes(n)
    ensures 2 <= s.down.at + n <= |s.down.log|
    ensures Apply(s, ClientTake(n)).client.Open? && Lost(Apply(s, ClientTake(n))) == s.down.log[2..s.down.at + n]
  {
    hide Pipe.Valid, Pipe.Take, Pipe.Completes;
    AckFirst(s.down, n);
  }

  lemma {:induction false} LossStays(s: State, ms: seq<Move>, t: State)
    requires s.client.Open? && Run(s, ms, t)
    ensures t.client.Open? && t.down.rd == s.down.rd && Lost(t) == Lost(s)
    decreases ms
  {
    if ms != [] {
      LossStep(s, ms[0]);
      hide Apply, Enabled;
      LossStays(Apply(s, ms[0]), ms[1..], t);
    }
  }

  lemma LossStep(s: State, m: Move)
    requires s.client.Open? && Enabled(s, m)
    ensures Apply(s, m).client.Open? && Apply(s, m).down.rd == s.down.rd
  {
    hide Pipe.Valid, Pipe.Take, Pipe.Completes;
  }

  /** A target that speaks only after hearing from the client is heard from its first byte. */
  lemma PoliteReplyIsAPrefix(addr: seq<byte>, ms: seq<Move>, s: State)
    requires Plain(addr) && Run(Start(addr, true), ms, s)
    ensures Lost(s) == [] && s.heard <= s.target
  {
    hide Run, Plain, Pipe.Valid, UpInv, DownInv, Lost;
    RunInv(addr, true, ms, s);
    ReplyIsConservedPastTheAck(addr, true, ms, s);
    if s.client.Open? {
      assert s.target == s.heard + (s.down.log[s.down.at..] + s.downHeld + s.target[s.targetAt..]);
    }
  }

  // ------------------------------------------------------------------------------------------
  // Delivery
  // ------------------------------------------------------------------------------------------

  /** A step of the two ends and the pumps themselves: nobody says anything new, and nothing fails. */
  predicate Carries(m: Move) {
    !m.CallerWrite? && !m.TargetWrite? && !m.ClientFails? && !m.ServerFails?
  }

  /** What is still to be done: every byte is read, held and written; setting up makes bytes of its own. */
  function Todo(s: State): int {
    (if s.client.Dialling? then 2 * |s.addr| + 3 else 0)
    + (match s.server
       case AwaitLine => 5
       case GotLine => 4
       case Connected => 3
       case Pumping => 0)
    + 2 * (|s.up.log| - s.up.at) + |s.upHeld|
    + 3 * (|s.target| - s.targetAt) + 2 * |s.downHeld| + (|s.down.log| - s.down.at)
  }

  /** Dialling, and answering it. */
  predicate SetsUp(m: Move) {
    m.SendAddress? || m.ServerTake? || m.Connect? || m.SendAck? || m.ClientTake?
  }

  lemma TodoFalls(s: State, m: Move)
    requires Enabled(s, m) && Carries(m)
    ensures Todo(Apply(s, m)) < Todo(s)
    ensures Apply(s, m).clientUp == s.clientUp && Apply(s, m).serverUp == s.serverUp
  {
    hide Apply, Enabled, Todo;
    if SetsUp(m) {
      SetupFalls(s, m);
    } else if m.PumpUpRead? || m.PumpUpWrite? {
      UpFalls(s, m);
    } else {
      DownFalls(s, m);
    }
  }

  lemma SetupFalls(s: State, m: Move)
    requires Enabled(s, m) && SetsUp(m)
    ensures Todo(Apply(s, m)) < Todo(s)
    ensures Apply(s, m).clientUp == s.clientUp && Apply(s, m).serverUp == s.serverUp
  {
    hide Pipe.Valid, Pipe.Write, Pipe.Take, Pipe.Completes, ServerTakes, ClientTakes, Plain;
    match m
    case ServerTake(n) => ServerTook(s, n);
    case ClientTake(n) => ClientTook(s, n);
    case _ =>
  }

  lemma ServerTook(s: State, n: nat)
    requires CanRead(s.up, n)
    ensures var t := ServerTakes(s, n);
            && t == s.(up := t.up, server := t.server, dialled := t.dialled)
            && t.up.log == s.up.log && t.up.at == s.up.at + n && (t.server == s.server || t.server.GotLine?)
  {
    hide Pipe.Valid, Pipe.Take, Pipe.Completes;
  }

  lemma ClientTook(s: State, n: nat)
    requires CanRead(s.down, n)
    ensures var t := ClientTakes(s, n);
            && t == s.(down := t.down, client := t.client)
            && t.down.log == s.down.log && t.down.at == s.down.at + n
            && (t.client == s.client || t.client in {Open, Refused})
  {
    hide Pipe.Valid, Pipe.Take, Pipe.Completes;
  }

  lemma UpFalls(s: State, m: Move)
    requires Enabled(s, m) && (m.PumpUpRead? || m.PumpUpWrite?)
    ensures Todo(Apply(s, m)) < Todo(s)
    ensures Apply(s, m).clientUp == s.clientUp && Apply(s, m).serverUp == s.serverUp
  {
    hide Pipe.Valid;
  }

  lemma DownFalls(s: State, m: Move)
    requires Enabled(s, m) && (m.CallerRead? || m.PumpDownRead? || m.PumpDownWrite?)
    ensures Todo(Apply(s, m)) < Todo(s)
    ensures Apply(s, m).clientUp == s.clientUp && Apply(s, m).serverUp == s.serverUp
  {
    hide Pipe.Valid, Pipe.Write;
  }

  lemma TodoIsNatural(s: State)
    requires UpInv(s) && DownInv(s)
    ensures Todo(s) >= 0
  {
    hide Pipe.Valid;
  }

  lemma {:induction false} CarryingEnds(s: State, ms: seq<Move>, t: State)
    requires Run(s, ms, t) && forall m | m in ms :: Carries(m)
    ensures Todo(t) + |ms| <= Todo(s) && t.clientUp == s.clientUp && t.serverUp == s.serverUp
    decreases ms
  {
    hide Apply, Enabled, Todo, Carries;
    if ms != [] {
      assert ms[0] in ms;
      TodoFalls(s, ms[0]);
      assert forall m | m in ms[1..] :: m in ms;
      CarryingEnds(Apply(s, ms[0]), ms[1..], t);
    }
  }

  /** The caller has its connection, and nothing is under way in either direction. */
  predicate AllDelivered(s: State) {
    && s.client.Open? && s.toTarget == s.payload && s.target == Lost(s) + s.heard
  }

  /** There is a step to take. */
  ghost predicate CanCarry(s: State) {
    exists m :: Enabled(s, m) && Carries(m)
  }

  /** While something is under way, one of the steps that move it is possible. */
  lemma NextStep(s: State) returns (m: Move)
    requires Inv(s) && s.clientUp && s.serverUp
    requires !(s.client.Open? && s.up.at == |s.up.log| && s.upHeld == [] && s.targetAt == |s.target|
               && s.downHeld == [] && s.down.at == |s.down.log|)
    ensures Enabled(s, m) && Carries(m)
  {
    hide Pipe.Valid, Lost, PoliteInv;
    if !s.client.Dialling? && s.server.AwaitLine? {
      assert s.up.log[|s.addr|] == (s.addr + [NL] + s.payload)[|s.addr|] == NL;
      NotPast(s.up, |s.addr|);
    }
    if s.client.AwaitAck? && s.server.Pumping? {
      assert s.down.log[1] == s.down.log[..2][1] == NL;
      NotPast(s.down, 1);
    }
    m := if s.client.Dialling? then SendAddress
         else if s.server.AwaitLine? then ServerTake(1)
         else if s.server.GotLine? then Connect
         else if s.server.Connected? then SendAck
         else if s.client.AwaitAck? then ClientTake(1)
         else if s.upHeld != [] then PumpUpWrite(1)
         else if s.up.at < |s.up.log| then PumpUpRead(1)
         else if s.downHeld != [] then PumpDownWrite(1)
         else if s.targetAt < |s.target| then PumpDownRead(1)
         else CallerRead(1);
  }

  lemma NothingUnderWay(s: State)
    requires Inv(s)
    requires s.client.Open? && s.up.at == |s.up.log| && s.upHeld == [] && s.targetAt == |s.target|
             && s.downHeld == [] && s.down.at == |s.down.log|
    ensures AllDelivered(s) && !CanCarry(s)
  {
    hide Pipe.Valid, Lost, PoliteInv;
    assert s.up.log[|s.addr| + 1..] == s.payload;
    assert s.target[..|s.target|] == s.target;
  }

  /**
    Everything arrives. From any state of any run, if nobody says anything new and nothing fails, there are only
    so many steps left; and when none is, and not before, the caller has its connection, the target all the
    caller wrote, and the caller all the target wrote but for what the read of the ACK took past it.
   */
  lemma EverythingArrives(addr: seq<byte>, polite: bool, ms: seq<Move>, s: State, ns: seq<Move>, t: State)
    requires Plain(addr) && Run(Start(addr, polite), ms, s) && s.clientUp && s.serverUp
    requires Run(s, ns, t) && forall m | m in ns :: Carries(m)
    ensures 0 <= |ns| <= Todo(s)
    ensures AllDelivered(t) <==> !CanCarry(t)
  {
    hide Run, Plain, Pipe.Valid, UpInv, DownInv, PoliteInv, Lost, Todo, Carries, CanCarry, AllDelivered, Enabled;
    RunInv(addr, polite, ms, s);
    RunKeepsInv(s, ns, t);
    CarryingEnds(s, ns, t);
    TodoIsNatural(t);
    DeliveredIff(t);
  }

  lemma DeliveredIff(s: State)
    requires Inv(s) && s.clientUp && s.serverUp
    ensures AllDelivered(s) <==> !CanCarry(s)
  {
    hide Inv, Enabled, Carries;
    if s.client.Open? && s.up.at == |s.up.log| && s.upHeld == [] && s.targetAt == |s.target|
       && s.downHeld == [] && s.down.at == |s.down.log| {
      NothingUnderWay(s);
    } else {
      var m := NextStep(s);
      UnderWay(s);
    }
  }

  lemma UnderWay(s: State)
    requires Inv(s)
    requires !(s.client.Open? && s.up.at == |s.up.log| && s.upHeld == [] && s.targetAt == |s.target|
               && s.downHeld == [] && s.down.at == |s.down.log|)
    ensures !AllDelivered(s)
  {
    hide Pipe.Valid, PoliteInv, Lost;
    if s.client.Open? {
      var log, k := s.up.log, |s.addr| + 1;
      assert log[k..] == s.payload;
      assert log[k..] == log[k..s.up.at] + log[s.up.at..];
      assert |s.payload| == |s.toTarget| + |s.upHeld| + (|log| - s.up.at);
      assert s.down.log[2..] == s.down.log[2..s.down.at] + s.down.log[s.down.at..];
      assert |s.target[..s.targetAt]| == |Lost(s)| + |s.heard| + (|s.down.log| - s.down.at) + |s.downHeld|;
    }
  }

  // ------------------------------------------------------------------------------------------
  // The address line, for any address
  // ------------------------------------------------------------------------------------------

  ghost predicate LineInv(s: State) {
    && s.up.Valid()
    && (s.client.Dialling? ==> s.up.log == [])
    && (!s.client.Dialling? ==> s.addr + [NL] <= s.up.log)
    && (s.server.AwaitLine? ==> s.up.Start() == 0 && s.up.rd.frames == [])
    && (!s.server.AwaitLine? ==> s.dialled == s.addr[..FirstNL(s.addr)])
  }

  lemma LineStart(addr: seq<byte>, polite: bool)
    ensures LineInv(Start(addr, polite))
  {}

  lemma LineStep(s: State, m: Move)
    requires LineInv(s) && Enabled(s, m)
    ensures LineInv(Apply(s, m)) && Apply(s, m).addr == s.addr
  {
    hide LineInv, Plain, FirstNL, Pipe.Valid, Pipe.Take, Pipe.Completes, Cut, Spill;
    match m
    case SendAddress => LineSent(s);
    case ServerTake(n) => LineRead(s, n);
    case CallerWrite(bs) => LineGrows(s, bs);
    case PumpUpRead(n) => LinePassed(s, n);
    case _ => LineSame(s, Apply(s, m));
  }

  lemma LineSame(s: State, t: State)
    requires LineInv(s) && t.up == s.up && t.addr == s.addr && t.dialled == s.dialled
    requires t.client.Dialling? == s.client.Dialling? && t.server.AwaitLine? == s.server.AwaitLine?
    ensures LineInv(t)
  {
    hide Pipe.Valid;
  }

  lemma LineSent(s: State)
    requires LineInv(s) && Enabled(s, SendAddress)
    ensures LineInv(Apply(s, SendAddress))
  {
    hide Pipe.Valid, Pipe.Write, Pipe.Take, Pipe.Completes;
    assert [] + (s.addr + [NL]) == s.addr + [NL];
  }

  lemma LineGrows(s: State, bs: seq<byte>)
    requires LineInv(s) && Enabled(s, CallerWrite(bs))
    ensures LineInv(Apply(s, CallerWrite(bs)))
  {
    hide Pipe.Valid, Pipe.Write, Pipe.Take, Pipe.Completes;
    assert s.addr + [NL] <= s.up.log + bs;
  }

  lemma LinePassed(s: State, n: nat)
    requires LineInv(s) && Enabled(s, PumpUpRead(n))
    ensures LineInv(Apply(s, PumpUpRead(n)))
  {
    hide Pipe.Valid, Pipe.Write, Pipe.Take, Pipe.Completes;
  }

  lemma LineRead(s: State, n: nat)
    requires LineInv(s) && s.server.AwaitLine? && CanRead(s.up, n)
    ensures LineInv(ServerTakes(s, n))
  {
    hide Pipe.Valid, Pipe.Take, Pipe.Completes;
    if s.up.Completes(n) {
      var q := s.up.Completed(n);
      LineIs(s.addr, s.up.log, q);
    }
  }

  lemma LineIs(addr: seq<byte>, log: seq<byte>, q: nat)
    requires addr + [NL] <= log && q < |log| && IsFrame(log[0..q + 1])
    ensures log[0..q + 1][..q] == addr[..FirstNL(addr)]
  {
    var k := FirstNL(addr);
    assert forall i | 0 <= i <= |addr| :: log[i] == (addr + [NL])[i];
    FirstNLIs(log, k);
    assert forall i | 0 <= i <= q :: log[i] == log[0..q + 1][i];
    FirstNLIs(log, q);
    assert log[0..q + 1][..q] == log[..k];
  }

  lemma {:induction false} RunKeepsLine(s: State, ms: seq<Move>, t: State)
    requires LineInv(s) && Run(s, ms, t)
    ensures LineInv(t) && t.addr == s.addr
    decreases ms
  {
    hide LineInv, Apply, Enabled;
    if ms != [] {
      LineStep(s, ms[0]);
      RunKeepsLine(Apply(s, ms[0]), ms[1..], t);
    }
  }

  /** The tunnel connects to the address it was given if and only if that contains no delimiter byte. */
  lemma RightTargetIff(addr: seq<byte>, polite: bool, ms: seq<Move>, s: State)
    requires Run(Start(addr, polite), ms, s) && !s.server.AwaitLine?
    ensures s.dialled == addr <==> Plain(addr)
  {
    hide Run, FirstNL, Plain, Pipe.Valid;
    LineStart(addr, polite);
    RunKeepsLine(Start(addr, polite), ms, s);
    assert addr[..|addr|] == addr;
    assert |addr[..FirstNL(addr)]| == FirstNL(addr);
  }
}
