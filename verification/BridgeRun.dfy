/**
  Running a bridge: what it starts before it tells the enclave that it is set up, and how the group of
  members it started comes down.
 */
module BridgeRun {
  import opened Options
  import opened Heartbeats
  import opened Settings

  // ------------------------------------------------------------------------------------------
  // What is started
  // ------------------------------------------------------------------------------------------

  /** A member of the group: a server tunnel has two, one to run its proxy and one to close it. */
  datatype Member =
    | RunsProxy(server: Server)
    | ClosesProxy(server: Server)
    | Listens(client: Client)
    | Watches(id: Uuid)

  function ServerMembers(servers: seq<Server>): (ms: seq<Member>)
    ensures |ms| == 2 * |servers|
    ensures forall i | 0 <= i < |servers| ::
              ms[2 * i] == RunsProxy(servers[i]) && ms[2 * i + 1] == ClosesProxy(servers[i])
  {
    if servers == [] then []
    else
      var n := |servers| - 1;
      ServerMembers(servers[..n]) + [RunsProxy(servers[n]), ClosesProxy(servers[n])]
  }

  function ClientMembers(clients: seq<Client>): (ms: seq<Member>)
    ensures |ms| == |clients| && forall i | 0 <= i < |clients| :: ms[i] == Listens(clients[i])
  {
    if clients == [] then [] else var n := |clients| - 1; ClientMembers(clients[..n]) + [Listens(clients[n])]
  }

  function Tunnels(settings: BridgeSettings): seq<Member> {
    ServerMembers(settings.servers) + ClientMembers(settings.clients)
  }

  /** Two for each server tunnel, one for each client tunnel, and last the watchdog. */
  function AllMembers(settings: BridgeSettings): (ms: seq<Member>)
    ensures |ms| == 2 * |settings.servers| + |settings.clients| + 1
    ensures forall i | 0 <= i < |settings.servers| ::
              ms[2 * i] == RunsProxy(settings.servers[i]) && ms[2 * i + 1] == ClosesProxy(settings.servers[i])
    ensures forall i | 0 <= i < |settings.clients| :: ms[2 * |settings.servers| + i] == Listens(settings.clients[i])
    ensures ms[|ms| - 1] == Watches(settings.enclaveId)
  {
    Tunnels(settings) + [Watches(settings.enclaveId)]
  }

  /** How a run ends. A ticker with an interval that is not positive panics. */
  datatype Ending = BadLevel | NoEnclaveId | Panics | AckFails | Waited(err: Option<nat>)

  /** How it must end, from the settings, and from what the log level, the ACK and the group come to. */
  function EndingOf(settings: BridgeSettings, levels: set<string>, written: bool, err: Option<nat>): Ending {
    if !KnownLevel(settings, levels) then BadLevel
    else if !CanWatch(settings) then if settings.enclaveId == NIL then NoEnclaveId else Panics
    else if !written then AckFails
    else Waited(err)
  }

  class Bridge {
    const settings: BridgeSettings
    /** What has been started in the group. */
    var members: seq<Member>
    /** What had been started when the enclave was sent its ACK. */
    var acked: Option<seq<Member>>
    var connected: bool

    constructor (settings: BridgeSettings)
      ensures this.settings == settings && members == [] && acked == None && connected
    {
      this.settings, members, acked, connected := settings, [], None, true;
    }

    method RunServerTunnel(server: Server)
      modifies this`members
      ensures members == old(members) + [RunsProxy(server), ClosesProxy(server)]
    {
      members := members + [RunsProxy(server)];
      members := members + [ClosesProxy(server)];
    }

    method StartTunnels()
      requires members == []
      modifies this`members
      ensures members == Tunnels(settings)
    {
      var servers, clients := settings.servers, settings.clients;
      for n := 0 to |servers|
        invariant members == ServerMembers(servers[..n])
      {
        assert servers[..n + 1][..n] == servers[..n];
        RunServerTunnel(servers[n]);
      }
      assert servers[..|servers|] == servers;
      for n := 0 to |clients|
        invariant members == ServerMembers(servers) + ClientMembers(clients[..n])
      {
        assert clients[..n + 1][..n] == clients[..n];
        members := members + [Listens(clients[n])];
      }
      assert clients[..|clients|] == clients;
    }

    /** Sends the ACK, and closes the handshake connection whatever comes of it. */
    method Ready(written: bool) returns (ok: bool)
      modifies this`acked, this`connected
      ensures ok == written && !connected
      ensures acked == if written then Some(members) else old(acked)
    {
      if written {
        acked := Some(members);
      }
      connected := false;
      return written;
    }

    /**
      The ACK goes out when every configured member has been started, and not before. A run that ends
      before it waits leaves what it started running, which is every tunnel there is when the watchdog
      cannot be made, and all members when the ACK cannot be written. One that waits does so for the whole
      group, which is here how far some run of its members has got when all have returned; its error is that
      of the first member that failed in that run, and there is none exactly when every member returned none.
     */
    method Run(levels: set<string>, written: bool, group: State, ghost ms: seq<Move>) returns (ending: Ending)
      requires members == [] && acked == None && connected
      requires EndingOf(settings, levels, written, group.first).Waited? ==>
                 GroupRun(Start(settings), ms, group) && AllReturned(group)
      modifies this
      ensures ending.BadLevel? <==> settings.level != "" && settings.level !in levels
      ensures ending.NoEnclaveId? <==> !ending.BadLevel? && settings.enclaveId == NIL
      ensures ending.Panics? <==> !ending.BadLevel? && settings.enclaveId != NIL && settings.interval as int <= 0
      ensures ending.Waited? <==> written && !ending.BadLevel? && !ending.NoEnclaveId? && !ending.Panics?
      ensures ending.Waited? ==>
                if forall i | 0 <= i < |group.tasks| :: group.tasks[i].phase == Returned(None) then ending.err == None
                else ending.err.Some? && FailsFirst(ms, ending.err.value)
      ensures ending.Waited? ==>
                |group.tasks| == |members| && forall i | 0 <= i < |members| :: group.tasks[i].member == members[i]
      ensures ending == EndingOf(settings, levels, written, group.first)
      ensures acked == if ending.Waited? then Some(AllMembers(settings)) else None
      ensures members == if ending.BadLevel? then []
                         else if ending.NoEnclaveId? || ending.Panics? then Tunnels(settings)
                         else AllMembers(settings)
      ensures connected <==> !ending.AckFails? && !ending.Waited?
    {
      if settings.level != "" && settings.level !in levels {
        return BadLevel;
      }
      StartTunnels();
      if settings.enclaveId == NIL {
        return NoEnclaveId;
      }
      if settings.interval as int <= 0 {
        return Panics;
      }
      members := members + [Watches(settings.enclaveId)];
      var ok := Ready(written);
      if !ok {
        return AckFails;
      }
      FirstFailureIsReported(settings, ms, group);
      GroupIsAllMembers(settings, ms, group);
      return Waited(group.first);
    }
  }

  /**
    Exactly when a run that returns an error leaves members behind that nothing waits for, and whose
    context it has not cancelled.
   */
  lemma LeftRunningIff(settings: BridgeSettings, levels: set<string>, written: bool, err: Option<nat>)
    ensures var ending := EndingOf(settings, levels, written, err);
            var started := if ending.BadLevel? then []
                           else if ending.NoEnclaveId? then Tunnels(settings)
                           else AllMembers(settings);
            (!ending.Waited? && !ending.Panics? && started != []) <==>
              && KnownLevel(settings, levels)
              && (if settings.enclaveId == NIL then settings.servers != [] || settings.clients != []
                  else settings.interval as int > 0 && !written)
  {
    assert |Tunnels(settings)| == 2 * |settings.servers| + |settings.clients|;
  }

  // ------------------------------------------------------------------------------------------
  // The group
  // ------------------------------------------------------------------------------------------

  /**
    `Fresh` is a proxy that does not run yet, or a client tunnel that does not listen yet; `Accepting` is a
    client tunnel that waits for a connection.
   */
  datatype Phase = Fresh | Looping | Accepting | Returned(err: Option<nat>)

  /**
    `closed`: its proxy, or its listener, has been closed. `missed`: its proxy was to be closed before it ran,
    when there was nothing to close yet.
   */
  datatype Task = Task(member: Member, phase: Phase, closed: bool, missed: bool)

  datatype State = State(
    tasks: seq<Task>,
    parent: bool,           // whether the caller's context is done
    first: Option<nat>,     // the group's error
    failures: seq<nat>)     // every error a member returned, in order

  datatype Move =
    | CancelParent
    | Fail(i: nat, e: nat)        // a member returns an error
    | Stop(i: nat)                // a member returns without one
    | Miss(i: nat)                // ... having closed a proxy before there was anything to close
    | Begin(i: nat)               // a proxy runs
    | Listen(i: nat) | Poll(i: nat) | Accept(i: nat)
    | CloseListener(i: nat)

  function TaskOf(m: Member): Task {
    Task(m, if m.Listens? || m.RunsProxy? then Fresh else Looping, false, false)
  }

  function Start(settings: BridgeSettings): State {
    var members := AllMembers(settings);
    State(seq(|members|, i requires 0 <= i < |members| => TaskOf(members[i])), false, None, [])
  }

  /** The group's context. */
  predicate Cancelled(s: State) {
    s.parent || s.first.Some?
  }

  predicate CanFail(s: State, t: Task) {
    !t.phase.Returned? && match t.member
    case RunsProxy(_) => true
    case ClosesProxy(_) => Cancelled(s)
    case Listens(_) => t.phase.Fresh?
    case Watches(_) => true
  }

  predicate CanStop(s: State, t: Task) {
    !t.phase.Returned? && match t.member
    case RunsProxy(_) => t.phase.Looping? && t.closed
    case ClosesProxy(_) => Cancelled(s)
    case Listens(_) => (t.phase.Looping? && Cancelled(s)) || (t.phase.Accepting? && t.closed)
    case Watches(_) => Cancelled(s)
  }

  predicate Enabled(s: State, m: Move) {
    match m
    case CancelParent => !s.parent
    case Fail(i, _) => i < |s.tasks| && CanFail(s, s.tasks[i])
    case Stop(i) => i < |s.tasks| && CanStop(s, s.tasks[i])
    case Miss(i) =>
      && 0 < i < |s.tasks| && s.tasks[i].member.ClosesProxy? && CanStop(s, s.tasks[i])
      && s.tasks[i - 1].member.RunsProxy? && s.tasks[i - 1].phase.Fresh?
    case Begin(i) => i < |s.tasks| && s.tasks[i].member.RunsProxy? && s.tasks[i].phase.Fresh?
    case Listen(i) => i < |s.tasks| && s.tasks[i].member.Listens? && s.tasks[i].phase.Fresh?
    case Poll(i) => i < |s.tasks| && s.tasks[i].member.Listens? && s.tasks[i].phase.Looping? && !Cancelled(s)
    case Accept(i) => i < |s.tasks| && s.tasks[i].phase.Accepting? && !s.tasks[i].closed
    case CloseListener(i) =>
      i < |s.tasks| && s.tasks[i].member.Listens? && Cancelled(s) && !s.tasks[i].closed &&
      (match s.tasks[i].phase { case Fresh => false case Returned(err) => err.None? case _ => true })
  }

  /** A task returns. One that closes a proxy has closed its neighbour's. */
  function Return(ts: seq<Task>, i: nat, err: Option<nat>): seq<Task>
    requires i < |ts|
  {
    var us := ts[i := ts[i].(phase := Returned(err))];
    if ts[i].member.ClosesProxy? && i > 0 then us[i - 1 := us[i - 1].(closed := true)] else us
  }

  /** A task returns that had nothing to close yet. */
  function ReturnMissing(ts: seq<Task>, i: nat): seq<Task>
    requires 0 < i < |ts|
  {
    ts[i := ts[i].(phase := Returned(None))][i - 1 := ts[i - 1].(missed := true)]
  }

  function SetPhase(s: State, i: nat, phase: Phase): State
    requires i < |s.tasks|
  {
    s.(tasks := s.tasks[i := s.tasks[i].(phase := phase)])
  }

  function Apply(s: State, m: Move): State
    requires Enabled(s, m)
  {
    match m
    case CancelParent => s.(parent := true)
    case Fail(i, e) =>
      s.(tasks := Return(s.tasks, i, Some(e)), first := if s.first.None? then Some(e) else s.first,
         failures := s.failures + [e])
    case Stop(i) => s.(tasks := Return(s.tasks, i, None))
    case Miss(i) => s.(tasks := ReturnMissing(s.tasks, i))
    case Begin(i) => SetPhase(s, i, Looping)
    case Listen(i) => SetPhase(s, i, Looping)
    case Poll(i) => SetPhase(s, i, Accepting)
    case Accept(i) => SetPhase(s, i, Looping)     // a connection, or a failure of another kind
    case CloseListener(i) => s.(tasks := s.tasks[i := s.tasks[i].(closed := true)])
  }

  ghost predicate GroupRun(s: State, ms: seq<Move>, t: State)
    decreases ms
  {
    if ms == [] then s == t else Enabled(s, ms[0]) && GroupRun(Apply(s, ms[0]), ms[1..], t)
  }

  predicate AllReturned(s: State) {
    forall i | 0 <= i < |s.tasks| :: s.tasks[i].phase.Returned?
  }

  // ------------------------------------------------------------------------------------------
  // The invariant
  // ------------------------------------------------------------------------------------------

  /** Every proxy has its closer beside it, and is closed once that has returned, or was missed by it. */
  ghost predicate Paired(ts: seq<Task>, i: nat)
    requires i < |ts|
  {
    && (ts[i].member.RunsProxy? ==>
          i + 1 < |ts| && ts[i + 1].member.ClosesProxy? && (ts[i + 1].phase.Returned? ==> ts[i].closed || ts[i].missed))
    && (ts[i].member.ClosesProxy? ==> i > 0 && ts[i - 1].member.RunsProxy?)
  }

  ghost predicate TaskOk(t: Task, cancelled: bool, failures: seq<nat>) {
    && (t.phase.Accepting? ==> t.member.Listens?)
    && (t.phase.Fresh? ==> t.member.Listens? || t.member.RunsProxy?)
    && (t.closed || t.missed || t.phase == Returned(None) ==> cancelled)
    && match t.phase { case Returned(Some(e)) => e in failures case _ => true }
  }

  ghost predicate Inv(s: State) {
    && s.first == (if s.failures == [] then None else Some(s.failures[0]))
    && (forall i | 0 <= i < |s.tasks| :: Paired(s.tasks, i))
    && (forall i | 0 <= i < |s.tasks| :: TaskOk(s.tasks[i], Cancelled(s), s.failures))
  }

  lemma InvStart(settings: BridgeSettings)
    ensures Inv(Start(settings))
  {
    hide AllMembers, Tunnels, ServerMembers, ClientMembers;
    var ts, all, n := Start(settings).tasks, AllMembers(settings), |settings.servers|;
    forall i | 0 <= i < |ts| ensures Paired(ts, i) {
      assert ts[i] == TaskOf(all[i]);
      if i < 2 * n {
        var j := i / 2;
        assert i == 2 * j || i == 2 * j + 1;
        assert all[2 * j] == RunsProxy(settings.servers[j]) && all[2 * j + 1] == ClosesProxy(settings.servers[j]);
      } else if i < |all| - 1 {
        assert all[2 * n + (i - 2 * n)] == Listens(settings.clients[i - 2 * n]);
      }
    }
  }

  lemma PairedStep(s: State, m: Move)
    requires Inv(s) && Enabled(s, m)
    ensures forall i | 0 <= i < |Apply(s, m).tasks| :: Paired(Apply(s, m).tasks, i)
  {
    forall i | 0 <= i < |Apply(s, m).tasks| ensures Paired(Apply(s, m).tasks, i) {
      assert Paired(s.tasks, i);
    }
  }

  lemma TasksStep(s: State, m: Move)
    requires Inv(s) && Enabled(s, m)
    ensures var t := Apply(s, m); forall i | 0 <= i < |t.tasks| :: TaskOk(t.tasks[i], Cancelled(t), t.failures)
  {
    var t := Apply(s, m);
    forall i | 0 <= i < |t.tasks| ensures TaskOk(t.tasks[i], Cancelled(t), t.failures) {
      assert TaskOk(s.tasks[i], Cancelled(s), s.failures);
    }
  }

  lemma InvStep(s: State, m: Move)
    requires Inv(s) && Enabled(s, m)
    ensures Inv(Apply(s, m))
    ensures s.failures <= Apply(s, m).failures && (Cancelled(s) ==> Cancelled(Apply(s, m)))
  {
    PairedStep(s, m);
    TasksStep(s, m);
  }

  lemma {:induction false} RunKeepsInv(s: State, ms: seq<Move>, t: State)
    requires Inv(s) && GroupRun(s, ms, t)
    ensures Inv(t) && s.failures <= t.failures && (Cancelled(s) ==> Cancelled(t))
    decreases ms
  {
    hide Inv, Enabled, Apply, Cancelled;
    if ms != [] {
      InvStep(s, ms[0]);
      RunKeepsInv(Apply(s, ms[0]), ms[1..], t);
    }
  }

  // ------------------------------------------------------------------------------------------
  // Coming down
  // ------------------------------------------------------------------------------------------

  /** What a task may still do once the context is done. */
  function Weight(t: Task): nat {
    (match t.phase
     case Fresh => 2
     case Accepting => 2
     case Looping => 1
     case Returned(_) => 0)
    + if t.member.Listens? && !t.closed then 1 else 0
  }

  function Total(ts: seq<Task>): nat {
    if ts == [] then 0 else Weight(ts[0]) + Total(ts[1..])
  }

  lemma {:induction false} TotalUpdate(ts: seq<Task>, i: nat, t: Task)
    requires i < |ts|
    ensures Total(ts[i := t]) == Total(ts) - Weight(ts[i]) + Weight(t)
  {
    hide Weight;
    if i == 0 {
      assert ts[0 := t][1..] == ts[1..];
    } else {
      TotalUpdate(ts[1..], i - 1, t);
      assert ts[i := t][1..] == ts[1..][i - 1 := t];
    }
  }

  function Measure(s: State): nat {
    Total(s.tasks) + if s.parent then 0 else 1
  }

  lemma ReturnLightens(ts: seq<Task>, i: nat, err: Option<nat>)
    requires i < |ts| && !ts[i].phase.Returned? && Paired(ts, i)
    ensures Total(Return(ts, i, err)) < Total(ts)
  {
    var t := ts[i].(phase := Returned(err));
    TotalUpdate(ts, i, t);
    if ts[i].member.ClosesProxy? {
      var us := ts[i := t];
      TotalUpdate(us, i - 1, us[i - 1].(closed := true));
    }
  }

  lemma MissLightens(ts: seq<Task>, i: nat)
    requires 0 < i < |ts| && ts[i].phase.Looping?
    ensures Total(ReturnMissing(ts, i)) < Total(ts)
  {
    var t := ts[i].(phase := Returned(None));
    var us := ts[i := t];
    TotalUpdate(ts, i, t);
    TotalUpdate(us, i - 1, us[i - 1].(missed := true));
  }

  lemma TeardownStep(s: State, m: Move)
    requires Inv(s) && Cancelled(s) && Enabled(s, m)
    ensures Measure(Apply(s, m)) < Measure(s)
  {
    match m
    case CancelParent =>
    case Fail(i, e) => ReturnLightens(s.tasks, i, Some(e));
    case Stop(i) => ReturnLightens(s.tasks, i, None);
    case Miss(i) =>
      assert TaskOk(s.tasks[i], Cancelled(s), s.failures);
      MissLightens(s.tasks, i);
    case Begin(i) => TotalUpdate(s.tasks, i, s.tasks[i].(phase := Looping));
    case Listen(i) => TotalUpdate(s.tasks, i, s.tasks[i].(phase := Looping));
    case Poll(i) =>
    case Accept(i) => TotalUpdate(s.tasks, i, s.tasks[i].(phase := Looping));
    case CloseListener(i) => TotalUpdate(s.tasks, i, s.tasks[i].(closed := true));
  }

  lemma {:induction false} TeardownIsBounded(s: State, ms: seq<Move>, t: State)
    requires Inv(s) && Cancelled(s) && GroupRun(s, ms, t)
    ensures |ms| <= Measure(s)
    decreases ms
  {
    hide Inv, Enabled, Apply, Cancelled, Measure;
    if ms != [] {
      InvStep(s, ms[0]);
      TeardownStep(s, ms[0]);
      TeardownIsBounded(Apply(s, ms[0]), ms[1..], t);
    }
  }

  /** A proxy that runs, and that its closer has missed: only a failure of its own can end it. */
  predicate Stranded(t: Task) {
    t.member.RunsProxy? && t.phase.Looping? && t.missed && !t.closed
  }

  /** While a member can still return, some member can take a step that is neither a failure nor the caller's. */
  lemma SomeoneMoves(s: State, i: nat) returns (m: Move)
    requires Inv(s) && Cancelled(s) && i < |s.tasks| && !s.tasks[i].phase.Returned? && !Stranded(s.tasks[i])
    ensures Enabled(s, m) && !m.Fail? && !m.CancelParent?
  {
    var t := s.tasks[i];
    assert Paired(s.tasks, i) && TaskOk(t, true, s.failures);
    if t.member.RunsProxy? && t.phase.Fresh? {
      m := Begin(i);
    } else if t.member.RunsProxy? && !t.closed {
      assert TaskOk(s.tasks[i + 1], true, s.failures);
      m := Stop(i + 1);
    } else if t.phase.Fresh? {
      m := Listen(i);
    } else if t.phase.Accepting? && !t.closed {
      m := CloseListener(i);
    } else {
      m := Stop(i);
    }
  }

  /** A client tunnel whose accept loop is over but whose listener is still to be closed beside it. */
  predicate CloserPending(t: Task) {
    t.member.Listens? && t.phase == Returned(None) && !t.closed
  }

  predicate NothingToClose(s: State) {
    forall i | 0 <= i < |s.tasks| :: !CloserPending(s.tasks[i])
  }

  /** Every member has returned, but for proxies that were closed before they ran. */
  predicate DownToStranded(s: State) {
    forall i | 0 <= i < |s.tasks| :: s.tasks[i].phase.Returned? || Stranded(s.tasks[i])
  }

  lemma QuietIff(s: State)
    requires Inv(s) && Cancelled(s)
    ensures (forall m | Enabled(s, m) :: m.Fail? || m.CancelParent?) <==> DownToStranded(s) && NothingToClose(s)
  {
    if i: nat :| i < |s.tasks| && !s.tasks[i].phase.Returned? && !Stranded(s.tasks[i]) {
      hide Inv, Enabled;
      var m := SomeoneMoves(s, i);
    } else if i: nat :| i < |s.tasks| && CloserPending(s.tasks[i]) {
      assert Enabled(s, CloseListener(i));
    } else {
      forall m | Enabled(s, m) ensures m.Fail? || m.CancelParent? {
        ReturnedIsQuiet(s, m);
      }
    }
  }

  lemma ReturnedIsQuiet(s: State, m: Move)
    requires DownToStranded(s) && NothingToClose(s) && Enabled(s, m)
    ensures m.Fail? || m.CancelParent?
  {}

  /** Every proxy runs already, and none was missed. */
  predicate AllBegun(s: State) {
    forall i | 0 <= i < |s.tasks| :: Begun(s.tasks[i])
  }

  predicate Begun(t: Task) {
    !t.missed && (t.member.RunsProxy? ==> !t.phase.Fresh?)
  }

  lemma BegunStep(s: State, m: Move)
    requires AllBegun(s) && Enabled(s, m)
    ensures AllBegun(Apply(s, m))
  {
    NoneMissed(s, m);
    forall i | 0 <= i < |Apply(s, m).tasks| ensures Begun(Apply(s, m).tasks[i]) {
      assert Begun(s.tasks[i]);
    }
  }

  lemma NoneMissed(s: State, m: Move)
    requires AllBegun(s) && Enabled(s, m)
    ensures !m.Miss?
  {
    forall i | 0 <= i < |s.tasks| ensures !(s.tasks[i].member.RunsProxy? && s.tasks[i].phase.Fresh?) {
      assert Begun(s.tasks[i]);
    }
  }

  lemma {:induction false} BegunStays(s: State, ms: seq<Move>, t: State)
    requires AllBegun(s) && GroupRun(s, ms, t)
    ensures AllBegun(t)
    decreases ms
  {
    hide AllBegun, Enabled, Apply;
    if ms != [] {
      BegunStep(s, ms[0]);
      BegunStays(Apply(s, ms[0]), ms[1..], t);
    }
  }

  lemma BegunIsNotStranded(s: State)
    requires AllBegun(s)
    ensures DownToStranded(s) <==> AllReturned(s)
  {
    forall i | 0 <= i < |s.tasks| ensures !Stranded(s.tasks[i]) {
      assert Begun(s.tasks[i]);
    }
  }

  /**
    From the moment the group's context is done, whether by the caller or by a member's error, the group
    can take only so many more steps, for any number of tunnels. When none is left but a failure or the
    caller's, every member has returned, except for proxies that were closed before they ran; and if all
    proxies ran at that moment, every one.
   */
  lemma TeardownCompletes(settings: BridgeSettings, ms: seq<Move>, s: State, ns: seq<Move>, t: State)
    requires GroupRun(Start(settings), ms, s) && Cancelled(s) && GroupRun(s, ns, t)
    ensures |ns| <= Measure(s)
    ensures (forall m | Enabled(t, m) :: m.Fail? || m.CancelParent?) <==> DownToStranded(t) && NothingToClose(t)
    ensures AllBegun(s) ==> (DownToStranded(t) <==> AllReturned(t))
  {
    hide GroupRun, Inv, Enabled, Measure, Start, Cancelled, AllReturned, DownToStranded, NothingToClose, AllBegun;
    InvStart(settings);
    RunKeepsInv(Start(settings), ms, s);
    RunKeepsInv(s, ns, t);
    TeardownIsBounded(s, ns, t);
    QuietIff(t);
    if AllBegun(s) {
      BegunStays(s, ns, t);
      BegunIsNotStranded(t);
    }
  }

  /** In the run this is the error of the first member to fail. */
  ghost predicate FailsFirst(ms: seq<Move>, e: nat) {
    exists k :: 0 <= k < |ms| && ms[k].Fail? && ms[k].e == e && forall j | 0 <= j < k :: !ms[j].Fail?
  }

  /**
    In every run, what the group reports is the error of the first member that failed, and later errors do
    not change it. When all members have returned it is none exactly when every member returned none, and
    then it was the caller who ended the run.
   */
  lemma FirstFailureIsReported(settings: BridgeSettings, ms: seq<Move>, t: State)
    requires GroupRun(Start(settings), ms, t)
    ensures if forall m | m in ms :: !m.Fail? then t.first == None else t.first.Some? && FailsFirst(ms, t.first.value)
    ensures AllReturned(t) ==> Cancelled(t)
    ensures AllReturned(t) ==>
              (t.first.None? <==> forall i | 0 <= i < |t.tasks| :: t.tasks[i].phase == Returned(None))
    ensures AllReturned(t) && t.first.None? ==> CancelParent in ms
  {
    hide GroupRun, FailsFirst;
    InvStart(settings);
    RunKeepsInv(Start(settings), ms, t);
    TasksStay(Start(settings), ms, t);
    FirstStays(Start(settings), ms, t);
    if AllReturned(t) {
      assert TaskOk(t.tasks[0], Cancelled(t), t.failures);
      if t.first.None? {
        forall i | 0 <= i < |t.tasks| ensures t.tasks[i].phase == Returned(None) {
          assert TaskOk(t.tasks[i], Cancelled(t), t.failures);
        }
      } else {
        FailuresShow(Start(settings), ms, t);
      }
    }
  }

  lemma {:induction false} FirstStays(s: State, ms: seq<Move>, t: State)
    requires GroupRun(s, ms, t)
    ensures if s.first.Some? then t.first == s.first
            else if forall m | m in ms :: !m.Fail? then t.first == None
            else t.first.Some? && FailsFirst(ms, t.first.value)
    ensures t.parent <==> s.parent || CancelParent in ms
    decreases ms
  {
    hide FailsFirst, Enabled;
    if ms != [] {
      FirstStays(Apply(s, ms[0]), ms[1..], t);
      assert ms == [ms[0]] + ms[1..];
      if ms[0].Fail? {
        FailsNow(ms);
      } else if t.first.Some? {
        if FailsFirst(ms[1..], t.first.value) {
          FailsLater(ms, t.first.value);
        }
      }
    }
  }

  lemma FailsNow(ms: seq<Move>)
    requires ms != [] && ms[0].Fail?
    ensures FailsFirst(ms, ms[0].e)
  {}

  lemma FailsLater(ms: seq<Move>, e: nat)
    requires ms != [] && !ms[0].Fail? && FailsFirst(ms[1..], e)
    ensures FailsFirst(ms, e)
  {
    var k :| 0 <= k < |ms[1..]| && ms[1..][k].Fail? && ms[1..][k].e == e && forall j | 0 <= j < k :: !ms[1..][j].Fail?;
    assert ms[k + 1] == ms[1..][k];
    assert forall j | 1 <= j < k + 1 :: ms[j] == ms[1..][j - 1];
  }

  lemma {:induction false} TasksStay(s: State, ms: seq<Move>, t: State)
    requires GroupRun(s, ms, t)
    ensures |t.tasks| == |s.tasks| && forall i | 0 <= i < |s.tasks| :: t.tasks[i].member == s.tasks[i].member
    decreases ms
  {
    if ms != [] {
      TasksStay(Apply(s, ms[0]), ms[1..], t);
    }
  }

  /** The group is of all members, and only them. */
  lemma GroupIsAllMembers(settings: BridgeSettings, ms: seq<Move>, t: State)
    requires GroupRun(Start(settings), ms, t)
    ensures var all := AllMembers(settings);
            |t.tasks| == |all| && forall i | 0 <= i < |all| :: t.tasks[i].member == all[i]
  {
    hide GroupRun, AllMembers;
    TasksStay(Start(settings), ms, t);
  }

  /** Someone who failed stays failed. */
  ghost predicate Shown(s: State) {
    s.failures != [] ==> exists i :: 0 <= i < |s.tasks| && s.tasks[i].phase.Returned? && s.tasks[i].phase.err.Some?
  }

  lemma ShownStep(s: State, m: Move)
    requires Shown(s) && Enabled(s, m)
    ensures Shown(Apply(s, m))
  {
    var t := Apply(s, m);
    if m.Fail? {
      assert t.tasks[m.i].phase == Returned(Some(m.e));
    } else if s.failures != [] {
      var i :| 0 <= i < |s.tasks| && s.tasks[i].phase.Returned? && s.tasks[i].phase.err.Some?;
      assert t.tasks[i].phase == s.tasks[i].phase;
    }
  }

  lemma {:induction false} FailuresShow(s: State, ms: seq<Move>, t: State)
    requires Shown(s) && GroupRun(s, ms, t)
    ensures Shown(t)
    decreases ms
  {
    hide Shown, Enabled, Apply;
    if ms != [] {
      ShownStep(s, ms[0]);
      FailuresShow(Apply(s, ms[0]), ms[1..], t);
    }
  }
}
