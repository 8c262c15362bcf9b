/** Making a bridge: one listener, one accepted connection, and what is left of either if the handshake fails. */
module BridgeSetup {
  import opened Options
  import opened Streams
  import opened CancellableIo
  import opened Settings
  import Environment

  /** What an accept comes to: a connection, or an error with or without the context done. */
  datatype AcceptResult = Accepted | Failed(done: bool)

  /** What a read returned, cancelled or not. */
  datatype ReadResult = ReadResult(data: seq<byte>, err: Err)

  datatype Result =
    | StillAccepting | NotListening | NotAccepted
    | NoAck | NoEnvironment | NoConfig
    | Created(settings: BridgeSettings)

  /** Where the accept loop stops, or how many results there were. */
  function FirstStop(accepts: seq<AcceptResult>): (k: nat)
    ensures k <= |accepts| && forall i | 0 <= i < k :: accepts[i] == Failed(false)
    ensures k < |accepts| ==> accepts[k] != Failed(false)
  {
    if accepts == [] || accepts[0] != Failed(false) then 0 else
      var k := 1 + FirstStop(accepts[1..]);
      assert forall i | 1 <= i < k :: accepts[i] == accepts[1..][i - 1];
      k
  }

  predicate IsAck(ack: ReadResult) {
    ack.err == NoErr && ack.data == ACK
  }

  predicate HasConfig(cfg: ReadResult) {
    cfg.err == NoErr && ParseConfig(cfg.data).Some?
  }

  class Host {
    var listening: bool
    var connected: bool
    var said: seq<byte>      // what the bridge has written to its connection

    constructor ()
      ensures !listening && !connected && said == []
    {
      listening, connected, said := false, false, [];
    }

    /**
      The exchange after the ACK: the host's environment as one frame, then the enclave's settings.
      The frame is there for the enclave whatever becomes of the settings.
     */
    method CompleteHandshake(environ: seq<string>, pattern: Environment.Pattern, written: bool, cfg: ReadResult)
      returns (result: Result)
      requires said == []
      modifies this`said
      ensures result.NoEnvironment? ==> said == []
      ensures !result.NoEnvironment? ==>
                IsFrame(said) && Environment.ParseEnv(said) == Some(Environment.EnvMap(pattern, environ))
      ensures result == if pattern.Invalid? || !written then NoEnvironment
                        else if !HasConfig(cfg) then NoConfig
                        else Created(ParseConfig(cfg.data).value)
    {
      var text := Environment.SerializeEnvironment(environ, pattern);
      if text.None? {
        return NoEnvironment;
      }
      if !written {
        return NoEnvironment;
      }
      said := said + (text.value + [NL]);
      assert said == text.value + [NL];
      if cfg.err != NoErr {
        return NoConfig;
      }
      var settings := ParseConfig(cfg.data);
      if settings.None? {
        return NoConfig;
      }
      return Created(settings.value);
    }

    /**
      The bridge that comes out has the listener and its one connection, and settings that the enclave
      sent after the ACK; whatever else comes out, neither is left open, and without the ACK nothing has
      been said.
     */
    method CreateBridge(bound: bool, accepts: seq<AcceptResult>, ack: ReadResult, environ: seq<string>,
                        pattern: Environment.Pattern, written: bool, cfg: ReadResult)
      returns (result: Result)
      requires !listening && !connected && said == []
      modifies this
      ensures listening <==> result.Created? || result.StillAccepting?
      ensures connected <==> result.Created?
      ensures said != [] <==> result.NoConfig? || result.Created?
      ensures said != [] ==>
                IsFrame(said) && Environment.ParseEnv(said) == Some(Environment.EnvMap(pattern, environ))
      ensures result == if !bound then NotListening
                        else if FirstStop(accepts) == |accepts| then StillAccepting
                        else if accepts[FirstStop(accepts)].Failed? then NotAccepted
                        else if !IsAck(ack) then NoAck
                        else if pattern.Invalid? || !written then NoEnvironment
                        else if !HasConfig(cfg) then NoConfig
                        else Created(ParseConfig(cfg.data).value)
    {
      if !bound {
        return NotListening;
      }
      listening := true;
      var k := 0;
      while k < |accepts|
        invariant k <= FirstStop(accepts) && k <= |accepts|
        invariant listening && !connected && said == []
      {
        if accepts[k].Accepted? {
          connected := true;
          break;
        }
        if accepts[k].done {
          listening := false;
          return NotAccepted;
        }
        k := k + 1;
      }
      if !connected {
        return StillAccepting;
      }
      if ack.err != NoErr {
        listening, connected := false, false;
        return NoAck;
      }
      if ack.data != ACK {
        listening, connected := false, false;
        return NoAck;
      }
      result := CompleteHandshake(environ, pattern, written, cfg);
      if !result.Created? {
        listening, connected := false, false;
      }
    }
  }

  /**
    However the two reads end, cancelled or not, a bridge is created only from a frame that is the ACK and
    a frame that parses as settings; and it is created from every such pair that is not cancelled.
   */
  lemma CreatedOnlyFromFrames(v: seq<byte>, e: Err, ack: ReadResult, w: seq<byte>, f: Err, cfg: ReadResult)
    requires ReadOutcome(v, e) && MayReturn(Read, [], v, e, ack.data, ack.err, false)
    requires ReadOutcome(w, f) && MayReturn(Read, [], w, f, cfg.data, cfg.err, false)
    ensures IsAck(ack) ==> v == ACK
    ensures HasConfig(cfg) ==> IsFrame(w) && cfg.data == w
    ensures MayReturn(Read, [], v, e, ack.data, ack.err, true) ==> (IsAck(ack) <==> v == ACK)
    ensures MayReturn(Read, [], w, f, cfg.data, cfg.err, true) ==>
              (HasConfig(cfg) <==> IsFrame(w) && ParseConfig(w).Some?)
  {
    Results(Read, [], v, e, ack.data, ack.err);
    Results(Read, [], w, f, cfg.data, cfg.err);
    NothingIsNoConfig();
    hide ParseConfig;
  }

  lemma NothingIsNoConfig()
    ensures ParseConfig([]).None?
  {}
}
