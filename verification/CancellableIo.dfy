/**
  The helpers that make one blocking read or write give way to a context: a worker goroutine does the
  I/O and reports on channels of capacity one, the caller selects between them and cancellation.
  Every interleaving of the two goroutines and of the cancellation is a sequence of moves.
 */
module CancellableIo {
  import opened Options
  import opened Streams

  /** The error result: nil, what the I/O returned, or the context's own error. */
  datatype Err = NoErr | IoErr(code: int) | CtxErr

  /** A channel of capacity one. */
  datatype Chan<V> = Chan(slot: Option<V>, closed: bool) {
    predicate CanReceive() { slot.Some? || closed }

    function Received(zero: V): V {
      if slot.Some? then slot.value else zero
    }
  }

  /** A write reports on the error channel only; the reads report on both. */
  datatype Kind = Read | Write

  datatype Worker = DoingIo | Checking | SendData | SendErr | CloseData | CloseErr | Done

  datatype Caller<T> = Selecting | AwaitErr(data: T) | Returned(data: T, err: Err)

  datatype Sys<T> = Sys(
    kind: Kind,
    zero: T,
    cancelled: bool,
    io: Option<(T, Err)>,     // what the I/O returned, once it has
    skipped: bool,            // the worker found the context cancelled and sent nothing
    worker: Worker,
    caller: Caller<T>,
    data: Chan<T>,
    err: Chan<Err>)

  datatype Move<T> =
    | IoReturns(v: T, e: Err)
    | WorkerMove       // the worker's next statement
    | TakeDone         // the caller's select picks ctx.Done()
    | TakeData         // ... or the data channel
    | TakeErr          // the caller's receive from the error channel
    | Cancel

  function Start<T>(kind: Kind, zero: T): Sys<T> {
    Sys(kind, zero, false, None, false, DoingIo, Selecting, Chan(None, false), Chan(None, false))
  }

  /** The worker is about to do what would panic or block: send on a closed or full channel, close twice. */
  predicate WorkerStuck<T>(s: Sys<T>) {
    match s.worker
    case SendData => s.data.closed || s.data.slot.Some?
    case SendErr => s.err.closed || s.err.slot.Some?
    case CloseData => s.data.closed
    case CloseErr => s.err.closed
    case _ => false
  }

  predicate Enabled<T>(s: Sys<T>, m: Move<T>) {
    match m
    case IoReturns(_, e) => s.worker.DoingIo? && e != CtxErr
    case WorkerMove => !s.worker.DoingIo? && !s.worker.Done? && !WorkerStuck(s)
    case TakeDone => s.caller.Selecting? && s.cancelled
    case TakeData => s.caller.Selecting? && s.kind.Read? && s.data.CanReceive()
    case TakeErr =>
      && (s.caller.AwaitErr? || (s.caller.Selecting? && s.kind.Write?))
      && s.err.CanReceive()
    case Cancel => !s.cancelled
  }

  function Apply<T>(s: Sys<T>, m: Move<T>): Sys<T>
    requires Enabled(s, m)
  {
    match m
    case IoReturns(v, e) => s.(io := Some((if s.kind.Read? then v else s.zero, e)), worker := Checking)
    case WorkerMove => WorkerNext(s)
    case TakeDone => s.(caller := Returned(s.zero, CtxErr))
    case TakeData => s.(caller := AwaitErr(s.data.Received(s.zero)), data := s.data.(slot := None))
    case TakeErr =>
      s.(caller := Returned(if s.caller.AwaitErr? then s.caller.data else s.zero, s.err.Received(NoErr)),
         err := s.err.(slot := None))
    case Cancel => s.(cancelled := true)
  }

  function WorkerNext<T>(s: Sys<T>): Sys<T> {
    match s.worker
    case Checking =>
      if s.cancelled then s.(skipped := true, worker := if s.kind.Read? then CloseData else CloseErr)
      else s.(worker := if s.kind.Read? then SendData else SendErr)
    case SendData =>
      if s.io.None? then s else s.(data := s.data.(slot := Some(s.io.value.0)), worker := SendErr)
    case SendErr =>
      if s.io.None? then s
      else s.(err := s.err.(slot := Some(s.io.value.1)), worker := if s.kind.Read? then CloseData else CloseErr)
    case CloseData => s.(data := s.data.(closed := true), worker := CloseErr)
    case CloseErr => s.(err := s.err.(closed := true), worker := Done)
    case _ => s
  }

  /** The state after the moves, if each was possible when its turn came. */
  function Exec<T>(s: Sys<T>, ms: seq<Move<T>>): Option<Sys<T>>
    decreases ms
  {
    if ms == [] then Some(s)
    else if Enabled(s, ms[0]) then Exec(Apply(s, ms[0]), ms[1..])
    else None
  }

  // ------------------------------------------------------------------------------------------
  // The invariant of every run
  // ------------------------------------------------------------------------------------------

  /** How far the worker has come. */
  function Rank(w: Worker): nat {
    match w
    case DoingIo => 6 case Checking => 5 case SendData => 4 case SendErr => 3
    case CloseData => 2 case CloseErr => 1 case Done => 0
  }

  ghost predicate Inv<T>(s: Sys<T>) {
    && (s.worker.DoingIo? <==> s.io.None?)
    && (s.io.Some? ==> s.io.value.1 != CtxErr)
    && (s.io.Some? && s.kind.Write? ==> s.io.value.0 == s.zero)
    && (s.skipped ==> s.cancelled && Rank(s.worker) <= 2)
    && (s.kind.Write? ==> !s.worker.SendData? && !s.worker.CloseData? && s.data == Chan(None, false))
    && (s.kind.Write? ==> !s.caller.AwaitErr?)
    && (s.data.closed <==> s.kind.Read? && Rank(s.worker) <= 1)
    && (s.err.closed <==> s.worker.Done?)
    && (s.data.slot.Some? ==> Sent(s, 3) && s.kind.Read? && s.data.slot.value == s.io.value.0)
    && (s.err.slot.Some? ==> Sent(s, 2) && s.err.slot.value == s.io.value.1)
    && CallerInv(s)
  }

  /** The worker has sent, and is no further from its end than the rank. */
  ghost predicate Sent<T>(s: Sys<T>, rank: nat) {
    s.io.Some? && !s.skipped && Rank(s.worker) <= rank
  }

  ghost predicate CallerInv<T>(s: Sys<T>) {
    match s.caller
    case Selecting =>
      && (s.kind.Read? && Sent(s, 3) ==> s.data.slot.Some?)
      && (Sent(s, 2) ==> s.err.slot.Some?)
    case AwaitErr(d) =>
      || (Sent(s, 3) && d == s.io.value.0 && (Sent(s, 2) ==> s.err.slot.Some?))
      || (s.skipped && Rank(s.worker) <= 1 && d == s.zero)
    case Returned(d, e) =>
      || (s.cancelled && d == s.zero && e == CtxErr)
      || (Sent(s, 2) && (d, e) == s.io.value)
      || (s.skipped && d == s.zero && e == NoErr)
  }

  lemma InvStep<T>(s: Sys<T>, m: Move<T>)
    requires Inv(s) && Enabled(s, m)
    ensures Inv(Apply(s, m))
  {
    match m
    case WorkerMove =>
      match s.worker {
        case Checking =>
        case SendData =>
        case SendErr =>
        case CloseData =>
        case CloseErr =>
      }
    case _ =>
  }

  lemma {:induction false} InvRun<T>(s: Sys<T>, ms: seq<Move<T>>)
    requires Inv(s) && Exec(s, ms).Some?
    ensures Inv(Exec(s, ms).value)
    decreases ms
  {
    if ms != [] {
      InvStep(s, ms[0]);
      InvRun(Apply(s, ms[0]), ms[1..]);
    }
  }

  ghost predicate Reachable<T(!new)>(kind: Kind, zero: T, s: Sys<T>) {
    exists ms :: Exec(Start(kind, zero), ms) == Some(s)
  }

  lemma ReachableInv<T(!new)>(kind: Kind, zero: T, s: Sys<T>)
    requires Reachable(kind, zero, s)
    ensures Inv(s)
  {
    var ms :| Exec(Start(kind, zero), ms) == Some(s);
    InvRun(Start(kind, zero), ms);
  }

  // ------------------------------------------------------------------------------------------
  // Safety, termination and the results
  // ------------------------------------------------------------------------------------------

  /** No send on a closed channel, no double close, and no send that has to wait. */
  lemma WorkerNeverStuck<T(!new)>(kind: Kind, zero: T, s: Sys<T>)
    requires Reachable(kind, zero, s)
    ensures !WorkerStuck(s)
  {
    ReachableInv(kind, zero, s);
  }

  function Measure<T>(s: Sys<T>): nat {
    Rank(s.worker) + (match s.caller case Selecting => 2 case AwaitErr(_) => 1 case Returned(_, _) => 0)
    + (if s.cancelled then 0 else 1)
  }

  lemma EveryMoveDecreases<T>(s: Sys<T>, m: Move<T>)
    requires Inv(s) && Enabled(s, m)
    ensures Measure(Apply(s, m)) < Measure(s)
  {
    match m
    case WorkerMove =>
      match s.worker {
        case Checking =>
        case SendData =>
        case SendErr =>
        case CloseData =>
        case CloseErr =>
      }
    case _ =>
  }

  /** Every run is finite, whatever the scheduler does: it has at most nine moves. */
  lemma {:induction false} RunsAreBounded<T>(s: Sys<T>, ms: seq<Move<T>>)
    requires Inv(s) && Exec(s, ms).Some?
    ensures |ms| <= Measure(s)
    ensures s == Start(s.kind, s.zero) ==> |ms| <= 9
    decreases ms
  {
    if ms != [] {
      InvStep(s, ms[0]);
      EveryMoveDecreases(s, ms[0]);
      RunsAreBounded(Apply(s, ms[0]), ms[1..]);
    }
  }

  /** Neither goroutine can move. */
  predicate Quiet<T>(s: Sys<T>) {
    !Enabled(s, WorkerMove) && !Enabled(s, TakeDone) && !Enabled(s, TakeData) && !Enabled(s, TakeErr)
  }

  /**
    Nothing is left hanging: once the I/O has returned, a state in which neither goroutine can move has
    both finished; and once the caller has its data, the error is on its way without any more I/O.
   */
  lemma NobodyWaitsForever<T(!new)>(kind: Kind, zero: T, s: Sys<T>)
    requires Reachable(kind, zero, s)
    ensures s.io.Some? && Quiet(s) ==> s.worker.Done? && s.caller.Returned?
    ensures s.caller.AwaitErr? ==> Enabled(s, TakeErr) || Enabled(s, WorkerMove)
    ensures s.cancelled && s.caller.Selecting? ==> Enabled(s, TakeDone)
  {
    ReachableInv(kind, zero, s);
  }

  /** The caller of a helper whose I/O returned (v, e) gets (d, r) in some run; `calm` excludes cancellation. */
  ghost predicate MayReturn<T(!new)>(kind: Kind, zero: T, v: T, e: Err, d: T, r: Err, calm: bool) {
    exists ms, s ::
      && Exec(Start(kind, zero), ms) == Some(s)
      && s.caller == Returned(d, r)
      && s.io == Some((v, e))
      && (calm ==> !s.cancelled)
  }

  lemma OnlyThese<T(!new)>(kind: Kind, zero: T, v: T, e: Err, d: T, r: Err)
    ensures MayReturn(kind, zero, v, e, d, r, true) ==> (d, r) == (v, e)
    ensures MayReturn(kind, zero, v, e, d, r, false) ==>
              (d, r) == (v, e) || (d, r) == (zero, CtxErr) || (d, r) == (zero, NoErr)
  {
    forall ms, s | Exec(Start(kind, zero), ms) == Some(s) && s.caller == Returned(d, r) && s.io == Some((v, e))
      ensures (d, r) == (v, e) || (s.cancelled && d == zero && (r == CtxErr || r == NoErr))
    {
      ReachableInv(kind, zero, s);
      ZeroIsFixed(Start(kind, zero), ms);
    }
  }

  lemma {:induction false} ZeroIsFixed<T>(s: Sys<T>, ms: seq<Move<T>>)
    requires Exec(s, ms).Some?
    ensures Exec(s, ms).value.zero == s.zero
    decreases ms
  {
    if ms != [] {
      ZeroIsFixed(Apply(s, ms[0]), ms[1..]);
    }
  }

  /** A run may be extended by one move at its end. */
  lemma {:induction false} Then<T>(s: Sys<T>, ms: seq<Move<T>>, m: Move<T>)
    requires Exec(s, ms).Some? && Enabled(Exec(s, ms).value, m)
    ensures Exec(s, ms + [m]) == Some(Apply(Exec(s, ms).value, m))
    decreases ms
  {
    if ms == [] {
      assert (ms + [m])[1..] == [];
    } else {
      Then(Apply(s, ms[0]), ms[1..], m);
      assert (ms + [m])[1..] == ms[1..] + [m];
    }
  }

  /** A run in which the worker is done before anyone looks; it is cancelled from the start if asked. */
  lemma WorkerRunsFirst<T>(kind: Kind, zero: T, v: T, e: Err, cancel: bool) returns (ms: seq<Move<T>>, s: Sys<T>)
    requires e != CtxErr && (kind.Write? ==> v == zero)
    ensures Exec(Start(kind, zero), ms) == Some(s)
    ensures Inv(s) && s.kind == kind && s.zero == zero && s.io == Some((v, e)) && s.worker.Done? && s.caller.Selecting?
    ensures s.cancelled == s.skipped == cancel
  {
    ms, s := [], Start(kind, zero);
    if cancel {
      Then(Start(kind, zero), ms, Cancel);
      ms, s := ms + [Cancel], Apply(s, Cancel);
    }
    Then(Start(kind, zero), ms, IoReturns(v, e));
    ms, s := ms + [IoReturns(v, e)], Apply(s, IoReturns(v, e));
    while !s.worker.Done?
      invariant Exec(Start(kind, zero), ms) == Some(s)
      invariant Inv(s) && s.kind == kind && s.zero == zero && s.io == Some((v, e)) && s.caller.Selecting?
      invariant s.cancelled == cancel && (s.skipped <==> cancel && !s.worker.Checking?)
      decreases Rank(s.worker)
    {
      InvStep(s, WorkerMove);
      EveryMoveDecreases(s, WorkerMove);
      Then(Start(kind, zero), ms, WorkerMove);
      ms, s := ms + [WorkerMove], Apply(s, WorkerMove);
    }
  }

  lemma ResultReached<T(!new)>(kind: Kind, zero: T, v: T, e: Err, d: T, r: Err, cancel: bool)
    requires e != CtxErr && (kind.Write? ==> v == zero)
    requires (d, r) == if cancel then (zero, NoErr) else (v, e)
    ensures MayReturn(kind, zero, v, e, d, r, !cancel)
  {
    var ms, s := WorkerRunsFirst(kind, zero, v, e, cancel);
    if kind.Read? {
      Then(Start(kind, zero), ms, TakeData);
      ms, s := ms + [TakeData], Apply(s, TakeData);
    }
    Then(Start(kind, zero), ms, TakeErr);
    ms, s := ms + [TakeErr], Apply(s, TakeErr);
    assert s.caller == Returned(d, r);
  }

  lemma CancellationReached<T(!new)>(kind: Kind, zero: T, v: T, e: Err)
    requires e != CtxErr && (kind.Write? ==> v == zero)
    ensures MayReturn(kind, zero, v, e, zero, CtxErr, false)
  {
    var ms, s := WorkerRunsFirst(kind, zero, v, e, true);
    Then(Start(kind, zero), ms, TakeDone);
    ms, s := ms + [TakeDone], Apply(s, TakeDone);
    assert s.caller == Returned(zero, CtxErr);
  }

  /**
    The exact set of results, for a read of (v, e) or a write ending in e: the I/O's own, or nothing
    and the context's error, or nothing at all. Only the first is possible without cancellation.
   */
  lemma Results<T(!new)>(kind: Kind, zero: T, v: T, e: Err, d: T, r: Err)
    requires e != CtxErr && (kind.Write? ==> v == zero)
    ensures MayReturn(kind, zero, v, e, d, r, true) <==> (d, r) == (v, e)
    ensures MayReturn(kind, zero, v, e, d, r, false) <==>
              (d, r) == (v, e) || (d, r) == (zero, CtxErr) || (d, r) == (zero, NoErr)
  {
    OnlyThese(kind, zero, v, e, d, r);
    if (d, r) == (v, e) {
      ResultReached(kind, zero, v, e, d, r, false);
    }
    if (d, r) == (zero, CtxErr) {
      CancellationReached(kind, zero, v, e);
    }
    if (d, r) == (zero, NoErr) {
      ResultReached(kind, zero, v, e, d, r, true);
    }
  }

  /** The empty result without an error comes only from a worker that found the context cancelled. */
  lemma NothingMeansSkipped(s: Sys<seq<byte>>)
    requires Reachable(Read, [], s) && s.caller.Returned? && s.caller.err == NoErr && s.caller.data == []
    requires s.io.Some? ==> ReadOutcome(s.io.value.0, s.io.value.1)
    ensures s.skipped && s.cancelled
  {
    ReachableInv(Read, [], s);
  }

  /** A buffered read errs exactly when its data does not end in the delimiter (see Framing.ReadBytes). */
  predicate ReadOutcome(data: seq<byte>, e: Err) {
    e != CtxErr && (e == NoErr <==> IsFrame(data))
  }

  /**
    The watchdog's read loop cuts the last byte off whatever came back without an error. On data the
    read may return that is safe in every run exactly when the context is never cancelled: with
    cancellation the data can be empty.
   */
  lemma CutIsSafeWithoutCancellation(v: seq<byte>, e: Err, calm: bool)
    requires ReadOutcome(v, e)
    ensures (forall d :: MayReturn(Read, [], v, e, d, NoErr, calm) ==> |d| > 0) <==> calm
    ensures calm ==> forall d :: MayReturn(Read, [], v, e, d, NoErr, calm) ==> IsFrame(d)
  {
    forall d ensures MayReturn(Read, [], v, e, d, NoErr, true) ==> (d, NoErr) == (v, e) {
      Results(Read, [], v, e, d, NoErr);
    }
    if !calm {
      Results(Read, [], v, e, [], NoErr);
      assert MayReturn(Read, [], v, e, [], NoErr, calm);
    }
  }

  /** A handshake read is the ACK, with whatever error beside it, only when there is no error. */
  lemma AckOnlyWithoutError(v: seq<byte>, e: Err, d: seq<byte>, r: Err)
    requires ReadOutcome(v, e) && MayReturn(Read, [], v, e, d, r, false) && d == ACK
    ensures r == NoErr && v == ACK
  {
    Results(Read, [], v, e, d, r);
  }
}
