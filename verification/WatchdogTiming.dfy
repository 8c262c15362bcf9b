/**
  The watchdog in discrete time: a deadline one interval after the last reset, against a peer that
  writes a heartbeat every half interval from the moment its connection is up.
 */
module WatchdogTiming {

  /**
    The interval, how long after the ticker's reset the connection may take to come up, and how long a
    heartbeat may take from being written to being handled.
   */
  datatype Setup = Setup(interval: int, connect: nat, delay: nat) {
    /** Both tickers can be made: a period below one unit panics. */
    predicate Legal() { interval > 0 && interval / 2 > 0 }

    function Half(): int { interval / 2 }
  }

  datatype State = State(
    now: int,
    deadline: int,
    up: bool,
    nextSend: int,          // when the heartbeat's own ticker next fires
    inFlight: seq<int>,     // when each heartbeat not yet handled was written
    fired: bool)

  datatype Move =
    | Pass          // one unit of time
    | Connect       // the connection comes up and its heartbeat ticker starts
    | Send
    | Handle        // the oldest heartbeat in flight is accepted
    | OtherReset    // a heartbeat on some other connection is accepted
    | Fire          // the event loop takes the tick

  function Start(p: Setup): State {
    State(0, p.interval, false, 0, [], false)
  }

  /** Time does not pass over anything the setup promises to have happened by now. */
  predicate Enabled(p: Setup, s: State, m: Move) {
    match m
    case Pass =>
      && (!s.up ==> s.now < p.connect)
      && (s.up ==> s.now < s.nextSend)
      && (s.inFlight != [] ==> s.now < s.inFlight[0] + p.delay)
    case Connect => !s.up
    case Send => s.up && s.now == s.nextSend
    case Handle => s.inFlight != []
    case OtherReset => true
    case Fire => s.now >= s.deadline
  }

  function Apply(p: Setup, s: State, m: Move): State
    requires Enabled(p, s, m)
  {
    match m
    case Pass => s.(now := s.now + 1)
    case Connect => s.(up := true, nextSend := s.now + p.Half())
    case Send => s.(inFlight := s.inFlight + [s.now], nextSend := s.now + p.Half())
    case Handle => s.(inFlight := s.inFlight[1..], deadline := s.now + p.interval)
    case OtherReset => s.(deadline := s.now + p.interval)
    case Fire => s.(fired := true)
  }

  ghost predicate Run(p: Setup, s: State, ms: seq<Move>, t: State)
    decreases ms
  {
    if ms == [] then s == t else Enabled(p, s, ms[0]) && Run(p, Apply(p, s, ms[0]), ms[1..], t)
  }

  ghost predicate TimesOut(p: Setup) {
    exists ms, t :: Run(p, Start(p), ms, t) && t.fired
  }

  // ------------------------------------------------------------------------------------------
  // Enough slack: no run times out
  // ------------------------------------------------------------------------------------------

  /** The latest moment at which the next heartbeat is handled. */
  function NextHandled(p: Setup, s: State): int {
    if s.inFlight != [] then s.inFlight[0] + p.delay
    else if s.up then s.nextSend + p.delay
    else p.connect + p.Half() + p.delay
  }

  ghost predicate Inv(p: Setup, s: State) {
    && !s.fired
    && 0 <= s.now <= NextHandled(p, s) < s.deadline
    && (s.up ==> s.now <= s.nextSend <= s.now + p.Half())
    && (!s.up ==> s.inFlight == [] && s.now <= p.connect)
    && (forall i | 0 <= i < |s.inFlight| :: s.inFlight[i] <= s.now)
    && (forall i, j | 0 <= i < j < |s.inFlight| :: s.inFlight[i] <= s.inFlight[j])
    && (s.inFlight != [] ==> s.nextSend == s.inFlight[|s.inFlight| - 1] + p.Half())
  }

  ghost predicate Slack(p: Setup) {
    p.connect + p.delay < p.interval - p.interval / 2
  }

  lemma HandleKeepsInv(p: Setup, s: State)
    requires p.Legal() && Slack(p) && Inv(p, s) && Enabled(p, s, Handle)
    ensures Inv(p, Apply(p, s, Handle))
  {
    var rest := s.inFlight[1..];
    assert forall i | 0 <= i < |rest| :: rest[i] == s.inFlight[i + 1];
  }

  lemma SendKeepsInv(p: Setup, s: State)
    requires p.Legal() && Slack(p) && Inv(p, s) && Enabled(p, s, Send)
    ensures Inv(p, Apply(p, s, Send))
  {}

  lemma InvStep(p: Setup, s: State, m: Move)
    requires p.Legal() && Slack(p) && Inv(p, s) && Enabled(p, s, m)
    ensures Inv(p, Apply(p, s, m))
  {
    match m
    case Handle => HandleKeepsInv(p, s);
    case Send => SendKeepsInv(p, s);
    case Fire =>
      assert false;
    case _ =>
  }

  lemma {:induction false} InvRun(p: Setup, s: State, ms: seq<Move>, t: State)
    requires p.Legal() && Slack(p) && Inv(p, s) && Run(p, s, ms, t)
    ensures Inv(p, t)
    decreases ms
  {
    if ms != [] {
      InvStep(p, s, ms[0]);
      InvRun(p, Apply(p, s, ms[0]), ms[1..], t);
    }
  }

  // ------------------------------------------------------------------------------------------
  // Too little: the slowest run does
  // ------------------------------------------------------------------------------------------

  /** Nothing has been handled, and everything has happened as late as it may. */
  ghost predicate Slowest(p: Setup, s: State) {
    && !s.fired && s.deadline == p.interval
    && 0 <= s.now <= p.interval
    && (!s.up ==> s.inFlight == [] && s.now <= p.connect)
    && (s.up ==> s.now <= s.nextSend && p.connect + p.Half() <= s.nextSend)
    && (forall i | 0 <= i < |s.inFlight| :: p.connect + p.Half() <= s.inFlight[i])
  }

  lemma {:induction false} SlowestFires(p: Setup, s: State) returns (ms: seq<Move>, t: State)
    requires p.Legal() && !Slack(p) && Slowest(p, s)
    ensures Run(p, s, ms, t) && t.fired
    decreases p.interval - s.now, !s.up, if s.nextSend <= s.now then 1 else 0
  {
    var m :=
      if s.now == p.interval then Fire
      else if !s.up && s.now == p.connect then Connect
      else if s.up && s.now == s.nextSend then Send
      else Pass;
    var rest;
    if m == Fire {
      rest, t := [], Apply(p, s, m);
    } else {
      rest, t := SlowestFires(p, Apply(p, s, m));
    }
    ms := [m] + rest;
    assert ms[1..] == rest;
  }

  /**
    No false timeout, exactly: whatever the other connections do and however long the run, the watchdog
    never times out on a connected peer if and only if the time to connect and the delay of a heartbeat
    together stay below the interval less its half, rounded as the integer division rounds.
   */
  lemma NeverTimesOutIff(p: Setup)
    requires p.Legal()
    ensures !TimesOut(p) <==> p.connect + p.delay < p.interval - p.interval / 2
  {
    if Slack(p) {
      forall ms, t | Run(p, Start(p), ms, t) ensures !t.fired {
        InvRun(p, Start(p), ms, t);
      }
    } else {
      var ms, t := SlowestFires(p, Start(p));
    }
  }
}
