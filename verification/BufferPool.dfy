/**
  Copying through pooled buffers: any number of pumps, two a connection, take a buffer from one shared
  pool, read a chunk into it, write the chunk out of it, and give it back when they end.
 */
module BufferPool {
  import opened Options
  import opened Streams

  const SIZE: nat := 1024

  // ------------------------------------------------------------------------------------------
  // One pump, as the loop it is
  // ------------------------------------------------------------------------------------------

  datatype ReadEnd = More | Eof | Broken

  /**
    One end of a connection, as far as a pump sees it: what is still to come and whether an error ends it, what
    was written and, if writing will fail, how many bytes before.
   */
  class Endpoint {
    var pending: seq<byte>
    const breaks: bool
    var written: seq<byte>
    var room: Option<nat>

    constructor (pending: seq<byte>, breaks: bool, room: Option<nat>)
      ensures this.pending == pending && this.breaks == breaks && written == [] && this.room == room
    {
      this.pending, this.breaks, written, this.room := pending, breaks, [], room;
    }

    /** Reads at least one byte into the buffer, as many as the network likes, or reports how the stream ends. */
    method Read(buf: array<byte>) returns (n: nat, end: ReadEnd)
      requires buf.Length > 0
      modifies this`pending, buf
      ensures n <= buf.Length && buf[..n] + pending == old(pending)
      ensures n > 0 <==> old(pending) != []
      ensures end == if n > 0 then More else if breaks then Broken else Eof
    {
      if pending == [] {
        return 0, if breaks then Broken else Eof;
      }
      n :| 0 < n <= buf.Length && n <= |pending|;
      forall i | 0 <= i < n {
        buf[i] := pending[i];
      }
      assert buf[..n] == pending[..n];
      pending, end := pending[n..], More;
    }

    /** Writes everything, or fails when there is no room for it. */
    method Write(bs: seq<byte>) returns (n: nat)
      modifies this`written, this`room
      ensures n == Fits(old(room), |bs|) && written == old(written) + bs[..n]
      ensures room == if old(room).Some? then Some(old(room).value - n) else None
    {
      n := Fits(room, |bs|);
      written := written + bs[..n];
      if room.Some? {
        room := Some(room.value - n);
      }
    }
  }

  /** How many of the bytes can be written. */
  function Fits(room: Option<nat>, n: nat): (k: nat)
    ensures k <= n && (room.Some? ==> k <= room.value)
    ensures k == n || (room.Some? && k == room.value)
  {
    if room.Some? && room.value < n then room.value else n
  }

  /**
    A copy moves everything there is, in order, whatever the sizes of the reads, or as much of it as can be
    written; the count says how much. It ends without an error exactly when all of it could be, and the source
    ended without one.
   */
  method CopyBuffer(dst: Endpoint, src: Endpoint, buf: array<byte>) returns (copied: nat, ok: bool)
    requires dst != src && buf.Length > 0
    modifies src`pending, dst`written, dst`room, buf
    ensures copied == Fits(old(dst.room), |old(src.pending)|)
    ensures dst.written == old(dst.written) + old(src.pending)[..copied]
    ensures ok <==> copied == |old(src.pending)| && !src.breaks
    ensures ok ==> src.pending == []
  {
    copied := 0;
    ghost var all := src.pending;
    while true
      invariant copied <= |all| && src.pending == all[copied..]
      invariant dst.written == old(dst.written) + all[..copied]
      invariant dst.room == if old(dst.room).Some? then Some(old(dst.room).value - copied) else None
      decreases |src.pending|
    {
      var n, end := src.Read(buf);
      if n > 0 {
        var chunk := buf[..n];
        assert all[copied..] == chunk + src.pending;
        var w := dst.Write(chunk);
        assert all[..copied] + chunk[..w] == all[..copied + w];
        copied := copied + w;
        if w < n {
          return copied, false;
        }
      }
      if !end.More? {
        return copied, end.Eof?;
      }
    }
  }

  // ------------------------------------------------------------------------------------------
  // All of them, sharing the pool
  // ------------------------------------------------------------------------------------------

  /**
    `Writing(n)`: the first n bytes of the buffer are to be written. `Ended`: the copy has returned, and
    whether because its source ended. `Done`: the buffer has been put back.
   */
  datatype Pc = Idle | Reading | Writing(n: nat) | Ended(eof: bool) | Done(eof: bool)

  datatype Pump = Pump(
    pc: Pc,
    buf: Option<nat>,
    input: seq<byte>,     // everything its source has sent so far
    closed: bool,         // ... and whether that is all
    at: nat,              // how much of it has been read
    output: seq<byte>)

  datatype State = State(
    heap: seq<seq<byte>>,   // every buffer ever made, by number
    free: set<nat>,         // those in the pool
    dropped: set<nat>,      // those the garbage collector took out of it
    pumps: seq<Pump>)

  datatype Move =
    | Open                            // a connection starts a pump
    | Arrive(i: nat, bs: seq<byte>)   // the source sends
    | Close(i: nat)                   // the source ends
    | Get(i: nat, b: nat)             // take a pooled buffer, or make one
    | Fill(i: nat, n: nat)            // a read
    | AtEof(i: nat)
    | Drain(i: nat)                   // a write
    | Fail(i: nat, k: nat)            // a read fails, or a write after k bytes
    | Put(i: nat)
    | Drop(b: nat)

  const INIT := State([], {}, {}, [])

  predicate Holds(s: State, i: nat, b: nat) {
    i < |s.pumps| && s.pumps[i].buf == Some(b)
  }

  predicate At(s: State, i: nat, pc: Pc) {
    i < |s.pumps| && s.pumps[i].pc == pc
  }

  /** The pump's buffer exists and has its size. */
  predicate InHeap(p: Pump, heap: seq<seq<byte>>) {
    p.buf.Some? && p.buf.value < |heap| && |heap[p.buf.value]| == SIZE
  }

  predicate Enabled(s: State, m: Move) {
    match m
    case Open => true
    case Arrive(i, _) => i < |s.pumps| && !s.pumps[i].closed
    case Close(i) => i < |s.pumps|
    case Get(i, b) => At(s, i, Idle) && (b in s.free || b == |s.heap|)
    case Fill(i, n) =>
      At(s, i, Reading) && InHeap(s.pumps[i], s.heap) && 0 < n <= SIZE && s.pumps[i].at + n <= |s.pumps[i].input|
    case AtEof(i) => At(s, i, Reading) && s.pumps[i].closed && s.pumps[i].at == |s.pumps[i].input|
    case Drain(i) =>
      i < |s.pumps| && s.pumps[i].pc.Writing? && InHeap(s.pumps[i], s.heap) && s.pumps[i].pc.n <= SIZE
    case Fail(i, k) =>
      i < |s.pumps| && InHeap(s.pumps[i], s.heap) && match s.pumps[i].pc {
        case Reading => k == 0
        case Writing(n) => k <= n <= SIZE
        case _ => false
      }
    case Put(i) => i < |s.pumps| && s.pumps[i].pc.Ended? && s.pumps[i].buf.Some?
    case Drop(b) => b in s.free
  }

  function Zeros(n: nat): (bs: seq<byte>)
    ensures |bs| == n
  {
    if n == 0 then [] else Zeros(n - 1) + [0]
  }

  function SetPump(s: State, i: nat, p: Pump): State
    requires i < |s.pumps|
  {
    s.(pumps := s.pumps[i := p])
  }

  function Apply(s: State, m: Move): State
    requires Enabled(s, m)
  {
    match m
    case Open => s.(pumps := s.pumps + [Pump(Idle, None, [], false, 0, [])])
    case Arrive(i, bs) => SetPump(s, i, s.pumps[i].(input := s.pumps[i].input + bs))
    case Close(i) => SetPump(s, i, s.pumps[i].(closed := true))
    case Get(i, b) =>
      var t := SetPump(s, i, s.pumps[i].(pc := Reading, buf := Some(b)));
      if b in s.free then t.(free := s.free - {b}) else t.(heap := s.heap + [Zeros(SIZE)])
    case Fill(i, n) =>
      var p, b := s.pumps[i], s.pumps[i].buf.value;
      SetPump(s, i, p.(pc := Writing(n), at := p.at + n))
        .(heap := s.heap[b := p.input[p.at..p.at + n] + s.heap[b][n..]])
    case AtEof(i) => SetPump(s, i, s.pumps[i].(pc := Ended(true)))
    case Drain(i) =>
      var p := s.pumps[i];
      SetPump(s, i, p.(pc := Reading, output := p.output + s.heap[p.buf.value][..p.pc.n]))
    case Fail(i, k) =>
      var p := s.pumps[i];
      SetPump(s, i, p.(pc := Ended(false), output := p.output + s.heap[p.buf.value][..k]))
    case Put(i) =>
      SetPump(s, i, s.pumps[i].(pc := Done(s.pumps[i].pc.eof), buf := None)).(free := s.free + {s.pumps[i].buf.value})
    case Drop(b) => s.(free := s.free - {b}, dropped := s.dropped + {b})
  }

  ghost predicate Run(s: State, ms: seq<Move>, t: State)
    decreases ms
  {
    if ms == [] then s == t else Enabled(s, ms[0]) && Run(Apply(s, ms[0]), ms[1..], t)
  }

  // ------------------------------------------------------------------------------------------
  // The invariant
  // ------------------------------------------------------------------------------------------

  /** What a pump has written is its own input, up to what it has read; the rest of that is in its buffer. */
  ghost predicate PumpOk(p: Pump, heap: seq<seq<byte>>) {
    && p.at <= |p.input|
    && (p.buf.Some? ==> InHeap(p, heap))
    && (p.buf.Some? <==> p.pc.Reading? || p.pc.Writing? || p.pc.Ended?)
    && match p.pc
       case Writing(n) =>
         n <= SIZE && n <= p.at && heap[p.buf.value][..n] == p.input[p.at - n..p.at] && p.output == p.input[..p.at - n]
       case Reading => p.output == p.input[..p.at]
       case Idle => p.output == []  && p.at == 0
       case Ended(eof) => p.output <= p.input && (eof ==> p.closed && p.output == p.input)
       case Done(eof) => p.output <= p.input && (eof ==> p.closed && p.output == p.input)
  }

  ghost predicate Exclusive(s: State) {
    && (forall i: nat, j: nat, b: nat | Holds(s, i, b) && Holds(s, j, b) :: i == j)
    && (forall i: nat, b: nat | Holds(s, i, b) :: b < |s.heap| && b !in s.free && b !in s.dropped)
    && (forall b | b in s.free :: b < |s.heap| && b !in s.dropped)
    && (forall b | b in s.dropped :: b < |s.heap|)
  }

  ghost predicate HeldBySome(s: State, b: nat) {
    exists i: nat :: Holds(s, i, b)
  }

  /** No buffer goes missing: each is in the pool, with the garbage collector, or with a pump. */
  ghost predicate Accounted(s: State) {
    forall b: nat | b < |s.heap| :: b in s.free || b in s.dropped || HeldBySome(s, b)
  }

  ghost predicate Inv(s: State) {
    && (forall i | 0 <= i < |s.pumps| :: PumpOk(s.pumps[i], s.heap))
    && (forall b | 0 <= b < |s.heap| :: |s.heap[b]| == SIZE)
    && Exclusive(s) && Accounted(s)
  }

  /** The pump a move is made by, or for. */
  function Mover(m: Move): Option<nat> {
    match m
    case Open => None
    case Drop(_) => None
    case Arrive(i, _) => Some(i)
    case Close(i) => Some(i)
    case Get(i, _) => Some(i)
    case Fill(i, _) => Some(i)
    case AtEof(i) => Some(i)
    case Drain(i) => Some(i)
    case Fail(i, _) => Some(i)
    case Put(i) => Some(i)
  }

  /** A step changes no pump but the mover's, and no buffer but the one the mover holds. */
  lemma OthersUntouched(s: State, m: Move, j: nat)
    requires Enabled(s, m) && j < |s.pumps| && Mover(m) != Some(j) && Exclusive(s)
    requires PumpOk(s.pumps[j], s.heap)
    ensures var t := Apply(s, m); j < |t.pumps| && t.pumps[j] == s.pumps[j] && PumpOk(t.pumps[j], t.heap)
  {
    if m.Fill? && s.pumps[j].buf.Some? {
      assert Holds(s, m.i, s.pumps[m.i].buf.value) && Holds(s, j, s.pumps[j].buf.value);
    }
  }

  lemma MoverOk(s: State, m: Move, i: nat)
    requires Enabled(s, m) && Mover(m) == Some(i)
    requires i < |s.pumps| && PumpOk(s.pumps[i], s.heap)
    requires forall b | 0 <= b < |s.heap| :: |s.heap[b]| == SIZE
    requires Exclusive(s)
    ensures PumpOk(Apply(s, m).pumps[i], Apply(s, m).heap)
  {
    var p := s.pumps[i];
    match m
    case Arrive(_, bs) => ArriveOk(p, bs, s.heap);
    case Fill(_, n) => FillOk(p, s.heap, n);
    case Drain(_) => DrainOk(p, s.heap, p.pc.n);
    case Fail(_, k) => DrainOk(p, s.heap, k);
    case AtEof(_) => assert p.input[..p.at] == p.input;
    case _ =>
  }

  lemma ArriveOk(p: Pump, bs: seq<byte>, heap: seq<seq<byte>>)
    requires PumpOk(p, heap) && !p.closed
    ensures PumpOk(p.(input := p.input + bs), heap)
  {
    var input := p.input + bs;
    assert input[..p.at] == p.input[..p.at];
    match p.pc
    case Writing(n) =>
      assert input[p.at - n..p.at] == p.input[p.at - n..p.at];
      assert input[..p.at - n] == p.input[..p.at - n];
    case _ =>
  }

  lemma FillOk(p: Pump, heap: seq<seq<byte>>, n: nat)
    requires PumpOk(p, heap) && p.pc.Reading? && 0 < n <= SIZE && p.at + n <= |p.input|
    ensures var b := p.buf.value;
            PumpOk(p.(pc := Writing(n), at := p.at + n), heap[b := p.input[p.at..p.at + n] + heap[b][n..]])
  {
    var b := p.buf.value;
    var filled := p.input[p.at..p.at + n] + heap[b][n..];
    assert |filled| == SIZE && filled[..n] == p.input[p.at..p.at + n];
  }

  lemma DrainOk(p: Pump, heap: seq<seq<byte>>, k: nat)
    requires PumpOk(p, heap) && ((p.pc.Reading? && k == 0) || (p.pc.Writing? && k <= p.pc.n))
    ensures p.output + heap[p.buf.value][..k] <= p.input
    ensures p.pc.Writing? && k == p.pc.n ==> p.output + heap[p.buf.value][..k] == p.input[..p.at]
  {
    if p.pc.Writing? {
      var n := p.pc.n;
      assert heap[p.buf.value][..k] == heap[p.buf.value][..n][..k] == p.input[p.at - n..p.at - n + k];
      assert p.output + heap[p.buf.value][..k] == p.input[..p.at - n + k];
    } else {
      assert p.output + heap[p.buf.value][..k] == p.output;
    }
  }

  lemma PumpsOkStep(s: State, m: Move)
    requires Inv(s) && Enabled(s, m)
    ensures forall i | 0 <= i < |Apply(s, m).pumps| :: PumpOk(Apply(s, m).pumps[i], Apply(s, m).heap)
    ensures forall b | 0 <= b < |Apply(s, m).heap| :: |Apply(s, m).heap[b]| == SIZE
  {
    forall i | 0 <= i < |Apply(s, m).pumps| ensures PumpOk(Apply(s, m).pumps[i], Apply(s, m).heap) {
      if i < |s.pumps| {
        if Mover(m) == Some(i) {
          MoverOk(s, m, i);
        } else {
          OthersUntouched(s, m, i);
        }
      }
    }
  }

  /** Buffers change hands only between the pool, the collector and the mover. */
  lemma ExclusiveStep(s: State, m: Move)
    requires Exclusive(s) && Enabled(s, m)
    requires m.Get? ==> s.pumps[m.i].buf.None?
    ensures Exclusive(Apply(s, m))
  {
    var t := Apply(s, m);
    forall i: nat, b: nat | Holds(t, i, b)
      ensures Holds(s, i, b) || m == Get(i, b)
      ensures m.Put? ==> i != m.i
    {
    }
    if m.Put? {
      assert Holds(s, m.i, s.pumps[m.i].buf.value);
    }
  }

  lemma AccountedStep(s: State, m: Move)
    requires Accounted(s) && Enabled(s, m)
    requires m.Get? ==> s.pumps[m.i].buf.None?
    ensures Accounted(Apply(s, m))
  {
    var t := Apply(s, m);
    forall b: nat | b < |t.heap| ensures b in t.free || b in t.dropped || HeldBySome(t, b) {
      if m.Get? && m.b == b {
        assert Holds(t, m.i, b);
      } else {
        assert b < |s.heap|;
        if HeldBySome(s, b) {
          var i: nat :| Holds(s, i, b);
          assert Holds(t, i, b) || (m == Put(i) && b in t.free);
        }
      }
    }
  }

  lemma InvStep(s: State, m: Move)
    requires Inv(s) && Enabled(s, m)
    ensures Inv(Apply(s, m))
  {
    hide Exclusive, Accounted;
    PumpsOkStep(s, m);
    if m.Get? {
      assert PumpOk(s.pumps[m.i], s.heap);
    }
    ExclusiveStep(s, m);
    AccountedStep(s, m);
  }

  lemma {:induction false} RunKeepsInv(s: State, ms: seq<Move>, t: State)
    requires Inv(s) && Run(s, ms, t)
    ensures Inv(t)
    decreases ms
  {
    hide Inv, Enabled, Apply;
    if ms != [] {
      InvStep(s, ms[0]);
      RunKeepsInv(Apply(s, ms[0]), ms[1..], t);
    }
  }

  // ------------------------------------------------------------------------------------------
  // What the pool gives its pumps
  // ------------------------------------------------------------------------------------------

  /** No buffer is in two hands at once, whether two pumps' or a pump's and the pool's. */
  lemma NoBufferIsShared(ms: seq<Move>, s: State, i: nat, j: nat, b: nat)
    requires Run(INIT, ms, s) && Holds(s, i, b)
    ensures Holds(s, j, b) ==> i == j
    ensures b !in s.free && b !in s.dropped
  {
    RunKeepsInv(INIT, ms, s);
  }

  /** The pump has ended without its source's having done so. */
  predicate CutShort(s: State, i: nat) {
    i < |s.pumps| && (s.pumps[i].pc == Ended(false) || s.pumps[i].pc == Done(false))
  }

  lemma {:induction false} OnlyFailuresCut(s: State, ms: seq<Move>, t: State, i: nat)
    requires Run(s, ms, t) && CutShort(t, i) && forall k :: Fail(i, k) !in ms
    ensures CutShort(s, i)
    decreases ms
  {
    if ms != [] {
      assert ms[0] in ms;
      assert forall m | m in ms[1..] :: m in ms;
      OnlyFailuresCut(Apply(s, ms[0]), ms[1..], t, i);
    }
  }

  /**
    Whatever the other pumps do with their buffers, a pump's output is a prefix of its own input; and one that
    has ended has copied all of it, unless a read or a write of its own failed.
   */
  lemma OutputIsOwnInput(ms: seq<Move>, s: State, i: nat)
    requires Run(INIT, ms, s) && i < |s.pumps|
    ensures s.pumps[i].output <= s.pumps[i].input
    ensures (s.pumps[i].pc.Ended? || s.pumps[i].pc.Done?) && (forall k :: Fail(i, k) !in ms) ==>
              s.pumps[i].closed && s.pumps[i].output == s.pumps[i].input
  {
    hide Run;
    RunKeepsInv(INIT, ms, s);
    assert PumpOk(s.pumps[i], s.heap);
    if CutShort(s, i) && forall k :: Fail(i, k) !in ms {
      OnlyFailuresCut(INIT, ms, s, i);
    }
  }

  /** A pump that is done has returned its buffer, and once all are, every buffer ever made is back. */
  lemma EveryBufferIsReturned(ms: seq<Move>, s: State)
    requires Run(INIT, ms, s)
    ensures forall i | 0 <= i < |s.pumps| && s.pumps[i].pc.Done? :: s.pumps[i].buf.None?
    ensures (forall i | 0 <= i < |s.pumps| :: s.pumps[i].pc.Done?) ==>
              forall b: nat :: b < |s.heap| <==> b in s.free || b in s.dropped
  {
    RunKeepsInv(INIT, ms, s);
    forall i | 0 <= i < |s.pumps| && s.pumps[i].pc.Done? ensures s.pumps[i].buf.None? {
      assert PumpOk(s.pumps[i], s.heap);
    }
  }

  /** How much a pump still has to do before it is done, if nothing more arrives. */
  function Work(p: Pump): nat
    requires p.at <= |p.input|
  {
    var left := 2 * (|p.input| - p.at);
    match p.pc
    case Idle => left + 4
    case Reading => left + 2
    case Writing(_) => left + 3
    case Ended(_) => 1
    case Done(_) => 0
  }

  lemma OwnMovesDecrease(s: State, m: Move, i: nat)
    requires Enabled(s, m) && !m.Close? && Mover(m) == Some(i)
    requires i < |s.pumps| && s.pumps[i].closed && PumpOk(s.pumps[i], s.heap)
    ensures var q := Apply(s, m).pumps[i]; q.at <= |q.input| && Work(q) < Work(s.pumps[i])
  {
  }

  lemma OwnMoveExists(s: State, i: nat) returns (m: Move)
    requires i < |s.pumps| && s.pumps[i].closed && PumpOk(s.pumps[i], s.heap) && !s.pumps[i].pc.Done?
    ensures Enabled(s, m) && Mover(m) == Some(i) && !m.Close? && !m.Fail?
  {
    var p := s.pumps[i];
    match p.pc
    case Idle => m := Get(i, |s.heap|);
    case Reading => m := if p.at == |p.input| then AtEof(i) else Fill(i, 1);
    case Writing(_) => m := Drain(i);
    case Ended(_) => m := Put(i);
  }

  /**
    A pump is never in another's way: once its source has ended it can always take a step of its own, other
    than a failure, until it is done; each such step leaves it less to do, and no step of another pump leaves it more.
   */
  lemma PumpsFinish(ms: seq<Move>, s: State, i: nat)
    requires Run(INIT, ms, s) && i < |s.pumps| && s.pumps[i].closed
    ensures s.pumps[i].at <= |s.pumps[i].input|
    ensures !s.pumps[i].pc.Done? ==> exists m :: Enabled(s, m) && Mover(m) == Some(i) && !m.Close? && !m.Fail?
    ensures forall m | Enabled(s, m) && !m.Close? ::
              i < |Apply(s, m).pumps| &&
              var q := Apply(s, m).pumps[i];
              q.at <= |q.input| && (if Mover(m) == Some(i) then Work(q) < Work(s.pumps[i]) else q == s.pumps[i])
  {
    RunKeepsInv(INIT, ms, s);
    assert PumpOk(s.pumps[i], s.heap) && Exclusive(s) && s.pumps[i].at <= |s.pumps[i].input|;
    hide Enabled, Apply, Inv, PumpOk, Exclusive, Work, Mover, Run;
    if !s.pumps[i].pc.Done? {
      var m := OwnMoveExists(s, i);
    }
    forall m | Enabled(s, m) && !m.Close?
      ensures i < |Apply(s, m).pumps|
      ensures var q := Apply(s, m).pumps[i];
              q.at <= |q.input| && (if Mover(m) == Some(i) then Work(q) < Work(s.pumps[i]) else q == s.pumps[i])
    {
      if Mover(m) == Some(i) {
        OwnMovesDecrease(s, m, i);
      } else {
        OthersUntouched(s, m, i);
      }
    }
  }
}
