/** Bytes, newline-terminated frames, and one direction of a connection as its reader sees it. */
module Streams {

  newtype byte = x: int | 0 <= x < 256

  const NL: byte := 10

  /** The acknowledgement both handshakes use, delimiter included. */
  const ACK: seq<byte> := [6, NL]

  /** No delimiter anywhere. */
  predicate Plain(s: seq<byte>) {
    forall i | 0 <= i < |s| :: s[i] != NL
  }

  /** The position of the first delimiter, or the length when there is none. */
  function FirstNL(s: seq<byte>): (k: nat)
    ensures k <= |s| && forall i | 0 <= i < k :: s[i] != NL
    ensures k < |s| ==> s[k] == NL
    ensures k == |s| <==> Plain(s)
  {
    if s == [] || s[0] == NL then 0 else
      var k := 1 + FirstNL(s[1..]);
      assert forall i | 1 <= i < k :: s[i] == s[1..][i - 1];
      k
  }

  /** One delimiter, and it is the last byte. */
  predicate IsFrame(f: seq<byte>) {
    |f| > 0 && f[|f| - 1] == NL && forall i | 0 <= i < |f| - 1 :: f[i] != NL
  }

  function Flatten(chunks: seq<seq<byte>>): seq<byte> {
    if chunks == [] then [] else chunks[0] + Flatten(chunks[1..])
  }

  lemma {:induction false} FlattenConcat(a: seq<seq<byte>>, b: seq<seq<byte>>)
    ensures Flatten(a + b) == Flatten(a) + Flatten(b)
  {
    if a == [] {
      assert a + b == b;
    } else {
      FlattenConcat(a[1..], b);
      assert (a + b)[1..] == a[1..] + b;
      ConcatAssoc(a[0], Flatten(a[1..]), Flatten(b));
    }
  }

  lemma ConcatAssoc<T>(a: seq<T>, b: seq<T>, c: seq<T>)
    ensures a + (b + c) == (a + b) + c
  {}

  /** What a read call keeps of the chunk it has just read: everything up to its first delimiter. */
  function Cut(c: seq<byte>): (r: seq<byte>)
    ensures Plain(c) ==> r == c
    ensures !Plain(c) ==> IsFrame(r) && r <= c
  {
    if Plain(c) then c else c[..FirstNL(c) + 1]
  }

  /** What it drops: its buffered reader goes away with whatever was read past the delimiter. */
  function Spill(c: seq<byte>): (r: seq<byte>)
    ensures c == Cut(c) + r
  {
    c[|Cut(c)|..]
  }

  lemma CutIs(c: seq<byte>)
    requires !Plain(c)
    ensures var k := FirstNL(c) + 1; k <= |c| && Cut(c) == c[..k] && Spill(c) == c[k..]
  {
    hide FirstNL;
  }

  /** A stretch of a stream, and the next chunk of it cut in two. */
  lemma Stretch(log: seq<byte>, a: nat, b: nat, d: nat, k: nat)
    requires a <= b <= d <= |log| && k <= d - b
    ensures log[a..b] + log[b..d][..k] == log[a..b + k]
    ensures log[b..d][k..] == log[b + k..d]
  {}

  /**
    A connection read by successive calls that each own a fresh buffered reader.
    `buf` is what the running call has gathered, `frames` what finished calls returned and
    `spills` what each of those calls dropped.
   */
  datatype Reader = Reader(buf: seq<byte>, frames: seq<seq<byte>>, spills: seq<seq<byte>>) {

    predicate Valid() {
      Plain(buf) && |frames| == |spills| && forall i | 0 <= i < |frames| :: IsFrame(frames[i])
    }

    /** One read of the underlying connection hands the running call a chunk. */
    function Feed(c: seq<byte>): (r: Reader)
      requires Valid()
      ensures r.Valid()
    {
      if Plain(c) then Reader(buf + c, frames, spills)
      else Reader([], frames + [buf + Cut(c)], spills + [Spill(c)])
    }

    lemma Fed(c: seq<byte>)
      requires Valid() && !Plain(c)
      ensures var k := FirstNL(c);
              && k < |c| && Feed(c).frames == frames + [buf + c[..k + 1]] && Feed(c).spills == spills + [c[k + 1..]]
    {
      hide FirstNL, Plain, Cut, Spill;
      CutIs(c);
    }

    predicate LostNothing() {
      forall s | s in spills :: s == []
    }
  }

  lemma LastFrame(r: Reader, frames: seq<seq<byte>>, f: seq<byte>)
    requires r.Valid() && r.frames == frames + [f]
    ensures IsFrame(f)
  {
    assert r.frames[|frames|] == f;
  }

  const IDLE: Reader := Reader([], [], [])

  /**
    One direction of a connection: everything written so far, how much of it has been read off,
    and the reading side's calls.
   */
  datatype Pipe = Pipe(log: seq<byte>, at: nat, rd: Reader) {

    predicate Valid() {
      && at <= |log| && rd.Valid() && |rd.buf| <= at
      && rd.buf == log[at - |rd.buf|..at]
    }

    /** Where in the stream the running call began. */
    function Start(): nat
      requires Valid()
    {
      at - |rd.buf|
    }

    function Write(bs: seq<byte>): (p: Pipe)
      requires Valid()
      ensures p.Valid() && p.log == log + bs && p.at == at && p.Start() == Start() && p.rd == rd
    {
      assert (log + bs)[at - |rd.buf|..at] == log[at - |rd.buf|..at];
      this.(log := log + bs)
    }

    /** Whether the next read of n bytes ends the running call. */
    predicate Completes(n: nat)
      requires at + n <= |log|
    {
      !Plain(log[at..at + n])
    }

    /** The reader takes the next n bytes in one read. */
    function Take(n: nat): (p: Pipe)
      requires Valid() && at + n <= |log|
      ensures p.Valid() && p.log == log && p.at == at + n
      ensures p.Start() == if Completes(n) then at + n else Start()
      ensures Completes(n) ==> p.rd.buf == []
      ensures !Completes(n) ==> p.rd.frames == rd.frames && p.rd.spills == rd.spills
    {
      var c := log[at..at + n];
      assert log[at - |rd.buf|..at + n] == rd.buf + c;
      this.(at := at + n, rd := rd.Feed(c))
    }

    /** The frame that a completing read returns: the stream from the start of the call to a delimiter. */
    lemma Completed(n: nat) returns (q: nat)
      requires Valid() && at + n <= |log| && Completes(n)
      ensures at <= q < at + n && IsFrame(log[Start()..q + 1])
      ensures Take(n).rd.frames == rd.frames + [log[Start()..q + 1]]
      ensures Take(n).rd.spills == rd.spills + [log[q + 1..at + n]]
    {
      hide Reader.Feed, Reader.Valid, Plain, FirstNL;
      var c := log[at..at + n];
      rd.Fed(c);
      q := at + FirstNL(c);
      Stretch(log, at - |rd.buf|, at, at + n, FirstNL(c) + 1);
      LastFrame(Take(n).rd, rd.frames, log[Start()..q + 1]);
    }
  }

  const EMPTY: Pipe := Pipe([], 0, IDLE)

  /** A call that began with the stream has not got past its first delimiter. */
  lemma NotPast(p: Pipe, k: nat)
    requires p.Valid() && p.Start() == 0 && k < |p.log| && p.log[k] == NL
    ensures p.at <= k
  {
    assert p.rd.buf == p.log[..p.at];
    assert forall i | 0 <= i < p.at :: p.rd.buf[i] == p.log[i];
  }
}
