/**
  The enclave's side of a handshake as a caller sees it: connecting until it works, and being told that the
  bridge is set up. Every connection dialled has a number, so that those left open can be counted.
 */
module HandshakeSetup {
  import opened Options
  import opened Streams
  import opened CancellableIo
  import opened Settings
  import Environment

  /** What becomes of one attempt to connect; the last is what the read of the environment returned. */
  datatype Attempt = DialFails | WriteFails | Reads(data: seq<byte>, err: Err)

  datatype Progress = Trying | Started | BadEnvironment

  /** What finishing comes to before the watchdog: no connection, settings not written, or the ACK awaited. */
  datatype Finish = NotEstablished | NotWritten | AwaitsAck

  /** What a caller that waits for the setup gets; `Blocked` is forever if nothing else happens. */
  datatype Waiter = Blocked | Told(err: Option<SetupError>)

  datatype SetupError = ReadFailed(e: Err) | MissingAck

  /** The first attempt that reads a frame without an error, or how many attempts there were. */
  function FirstSuccess(attempts: seq<Attempt>): (k: nat)
    ensures k <= |attempts| && forall i | 0 <= i < k :: !(attempts[i].Reads? && attempts[i].err == NoErr)
    ensures k < |attempts| ==> attempts[k].Reads? && attempts[k].err == NoErr
  {
    if attempts == [] || (attempts[0].Reads? && attempts[0].err == NoErr) then 0 else
      var k := 1 + FirstSuccess(attempts[1..]);
      assert forall i | 1 <= i < k :: attempts[i] == attempts[1..][i - 1];
      k
  }

  /** The setup error after the last read, whose error is overwritten when the frame is not the ACK. */
  function ErrAfter(before: Option<SetupError>, data: seq<byte>, e: Err): Option<SetupError> {
    if data != ACK then Some(MissingAck) else if e != NoErr then Some(ReadFailed(e)) else before
  }

  class BridgeHandshake {
    var conn: Option<nat>
    var ready: bool                 // whether the channel is closed
    var err: Option<SetupError>
    var environment: map<string, string>
    var dialled: nat                // how many connections there have been
    var open: set<nat>              // those not closed yet
    var said: seq<byte>             // what has been written to the last one
    var heard: Option<seq<byte>>    // what the read for the last ACK returned, once it has

    /** The channel is closed when that read is over, and what is not the ACK is an error. */
    ghost predicate Valid()
      reads this
    {
      && (ready <==> heard.Some?)
      && (heard.Some? && heard.value != ACK ==> err == Some(MissingAck))
      && (forall c | c in open :: c < dialled)
      && (conn.Some? ==> conn.value < dialled)
    }

    constructor ()
      ensures Valid() && conn == None && !ready && err == None && open == {} && said == [] && heard == None
    {
      conn, ready, err, environment, dialled, open, said, heard := None, false, None, map[], 0, {}, [], None;
    }

    /** One attempt leaves its connection open exactly when it succeeds. */
    method SetupConnection(a: Attempt) returns (env: Option<seq<byte>>)
      requires Valid()
      modifies this`conn, this`dialled, this`open, this`said
      ensures Valid()
      ensures env == if a.Reads? && a.err == NoErr then Some(a.data) else None
      ensures open == old(open) + if a.Reads? && a.err == NoErr then {old(dialled)} else {}
      ensures dialled == old(dialled) + if a.DialFails? then 0 else 1
      ensures conn == if a.DialFails? then None else Some(old(dialled))
      ensures said == if a.Reads? then ACK else []
    {
      conn, said := None, [];
      if a.DialFails? {
        return None;
      }
      var c := dialled;
      conn, dialled, open := Some(c), dialled + 1, open + {c};
      if a.WriteFails? {
        open := open - {c};
        return None;
      }
      said := said + ACK;
      if a.err != NoErr {
        open := open - {c};
        return None;
      }
      return Some(a.data);
    }

    /**
      Retries until an attempt succeeds; the attempts given are as far as the run has got. However many
      there were, no connection is open before each, exactly one is on leaving the loop, and none if the
      environment does not parse.
     */
    method StartHandshake(attempts: seq<Attempt>) returns (progress: Progress)
      requires Valid()
      modifies this
      ensures Valid() && heard == None && err == old(err)
      ensures var k := FirstSuccess(attempts);
              progress == if k == |attempts| then Trying
                          else if Environment.ParseEnv(attempts[k].data).None? then BadEnvironment
                          else Started
      ensures progress.Started? ==>
                && conn.Some? && conn.value !in old(open) && open == old(open) + {conn.value} && said == ACK
                && Environment.ParseEnv(attempts[FirstSuccess(attempts)].data) == Some(environment)
      ensures !progress.Started? ==> open == old(open)
    {
      ready, heard := false, None;
      var k, env := 0, None;
      while k < |attempts|
        invariant k <= FirstSuccess(attempts) && k <= |attempts|
        invariant Valid() && dialled >= old(dialled)
        invariant open == old(open) && heard == None && err == old(err)
      {
        env := SetupConnection(attempts[k]);
        if env.Some? {
          break;
        }
        k := k + 1;
      }
      if k == |attempts| {
        return Trying;
      }
      var parsed := Environment.ParseEnv(env.value);
      environment := map[];
      if parsed.None? {
        open := open - {conn.value};
        return BadEnvironment;
      }
      environment := parsed.value;
      return Started;
    }

    /** What runs beside the watchdog once the configuration is written: wait for the ACK, then hang up. */
    method AwaitAck(data: seq<byte>, e: Err)
      requires Valid() && conn.Some?
      modifies this`err, this`open, this`ready, this`heard
      ensures Valid() && heard == Some(data) && open == old(open) - {conn.value}
      ensures err == ErrAfter(old(err), data, e)
    {
      if e != NoErr {
        err := Some(ReadFailed(e));
      }
      if data != ACK {
        err := Some(MissingAck);
      }
      open := open - {conn.value};
      ready, heard := true, Some(data);
    }

    /**
      Writes the settings: one frame, from which a bridge gets the same settings back. A write that fails
      leaves the connection as it is, and nobody waits for the ACK.
     */
    method FinishHandshake(settings: BridgeSettings, written: bool) returns (r: Finish)
      requires Valid()
      modifies this`said
      ensures Valid()
      ensures r.NotEstablished? <==> conn.None?
      ensures r.AwaitsAck? <==> conn.Some? && written
      ensures r.AwaitsAck? ==>
                && old(said) <= said
                && var frame := said[|old(said)|..];
                   IsFrame(frame) && ParseConfig(frame) == Some(settings)
      ensures !r.AwaitsAck? ==> said == old(said)
    {
      hide ParseConfig, ConfigText, IsFrame;
      if conn.None? {
        return NotEstablished;
      }
      if !written {
        return NotWritten;
      }
      var frame := ConfigText(settings) + [NL];
      ConfigRoundTrip(settings);
      said := said + frame;
      assert said[|old(said)|..] == frame;
      return AwaitsAck;
    }

    /**
      Waits for the channel to be closed. The caller is released exactly when the read for the last ACK is
      over, and is told of no error only if it returned the ACK, of a missing ACK whenever it did not.
     */
    method WaitForBridgeSetup() returns (w: Waiter)
      requires Valid()
      ensures w.Blocked? <==> heard.None?
      ensures w.Told? ==> w.err == err
      ensures w == Told(None) ==> heard == Some(ACK)
      ensures heard.Some? && heard.value != ACK ==> w == Told(Some(MissingAck))
    {
      if !ready {
        return Blocked;
      }
      return Told(err);
    }

    method Close()
      requires Valid()
      modifies this`open
      ensures Valid() && open == if conn.None? then old(open) else old(open) - {conn.value}
    {
      if conn.Some? {
        open := open - {conn.value};
      }
    }
  }

  /**
    The whole of it, on one object, after any number of attempts. The one connection it opened is left open if
    and only if the handshake started and its settings could not be written. A caller that waits is released
    if and only if it started and they were, and then gets the error of the last read; by then what has been
    said on the connection is the ACK and one frame that parses to the settings.
   */
  method Handshake(b: BridgeHandshake, attempts: seq<Attempt>, settings: BridgeSettings, written: bool,
                   data: seq<byte>, e: Err)
    returns (progress: Progress, w: Waiter)
    requires b.Valid()
    modifies b
    ensures b.Valid()
    ensures progress.Started? <==> FirstSuccess(attempts) < |attempts| &&
                                   Environment.ParseEnv(attempts[FirstSuccess(attempts)].data).Some?
    ensures progress.Started? ==> b.conn.Some? && b.conn.value !in old(b.open)
    ensures b.open == old(b.open) + if progress.Started? && !written then {b.conn.value} else {}
    ensures w.Told? <==> progress.Started? && written
    ensures w.Told? ==> w.err == ErrAfter(old(b.err), data, e)
    ensures w.Told? ==>
              ACK <= b.said && IsFrame(b.said[|ACK|..]) && ParseConfig(b.said[|ACK|..]) == Some(settings)
  {
    progress := b.StartHandshake(attempts);
    if progress.Started? {
      var finish := b.FinishHandshake(settings, written);
      if finish.AwaitsAck? {
        b.AwaitAck(data, e);
      }
    }
    w := b.WaitForBridgeSetup();
  }

  /**
    Whatever the last read returns, cancelled or not, the caller is told of a missing ACK or of nothing: the
    read's own error never gets out, because a read that errs does not return the ACK. Nothing is told
    exactly when the ACK was returned, and on an object that had no error before.
   */
  lemma SetupSucceedsIffAck(before: Option<SetupError>, v: seq<byte>, e: Err, d: seq<byte>, r: Err)
    requires ReadOutcome(v, e) && MayReturn(Read, [], v, e, d, r, false)
    ensures ErrAfter(before, d, r) == if d == ACK then before else Some(MissingAck)
    ensures ErrAfter(before, d, r) == None <==> d == ACK && before == None
    ensures d == ACK ==> v == ACK && e == NoErr
  {
    Results(Read, [], v, e, d, r);
    if d == ACK {
      AckOnlyWithoutError(v, e, d, r);
    }
  }

  /** Without cancellation the verdict is the stream's: nothing is told exactly when its next frame is the ACK. */
  lemma UncancelledSetupIff(v: seq<byte>, e: Err, d: seq<byte>, r: Err)
    requires ReadOutcome(v, e) && MayReturn(Read, [], v, e, d, r, true)
    ensures ErrAfter(None, d, r) == None <==> v == ACK
  {
    Results(Read, [], v, e, d, r);
  }

  /**
    The loop can leave with this data after these attempts, the read of the one that succeeds having met this
    outcome.
   */
  ghost predicate LeavesWith(attempts: seq<Attempt>, d: seq<byte>, v: seq<byte>, e: Err, calm: bool) {
    var k := FirstSuccess(attempts);
    k < |attempts| && attempts[k].data == d && MayReturn(Read, [], v, e, d, attempts[k].err, calm)
  }

  /**
    The loop does not look at its context. For every outcome of the read and any attempts before it, what the
    loop leaves with is a frame in every run if and only if the context is not cancelled: a cancelled read can
    also leave it with nothing, which then does not parse.
   */
  lemma LoopLeavesWithFrameIff(v: seq<byte>, e: Err, calm: bool)
    requires ReadOutcome(v, e)
    ensures (forall attempts, d | LeavesWith(attempts, d, v, e, calm) :: IsFrame(d)) <==> calm
    ensures forall attempts, d | LeavesWith(attempts, d, v, e, calm) :: d == v || d == []
    ensures Environment.ParseEnv([]).None?
  {
    forall attempts, d | LeavesWith(attempts, d, v, e, calm)
      ensures d == v || d == []
      ensures calm ==> IsFrame(d)
    {
      Results(Read, [], v, e, d, NoErr);
    }
    if !calm {
      Results(Read, [], v, e, [], NoErr);
      var attempts := [Reads([], NoErr)];
      assert FirstSuccess(attempts) == 0;
      assert LeavesWith(attempts, [], v, e, calm) && !IsFrame([]);
    }
  }
}
