/**
  Certificate renewal: when a certificate is due, the tick loop that renews it, and the switch from one
  certificate to the next under a lock. Times are whole nanoseconds.
 */
module Renewal {
  import opened Options

  const SECOND: int := 1_000_000_000
  const TICK: int := 15 * SECOND
  const MAX_DURATION: int := 0x7fff_ffff_ffff_ffff
  const MIN_DURATION: int := -0x8000_0000_0000_0000

  /** The longest lifetime, in seconds, whose two thirds are still computed exactly. */
  const LONGEST: int := 9_223_372_037

  // ------------------------------------------------------------------------------------------
  // When a certificate is due
  // ------------------------------------------------------------------------------------------

  /** The difference of two times saturates. */
  function Saturate(d: int): int {
    if d > MAX_DURATION then MAX_DURATION else if d < MIN_DURATION then MIN_DURATION else d
  }

  /** A product of durations wraps around. */
  function Wrap(d: int): int {
    (d - MIN_DURATION) % 0x1_0000_0000_0000_0000 + MIN_DURATION
  }

  /** Division rounding toward zero. */
  function Truncated(a: int, b: int): int
    requires b > 0
  {
    if a < 0 then -(-a / b) else a / b
  }

  function NextRenewal(notBefore: int, notAfter: int): int {
    notBefore + Wrap(Truncated(2 * Saturate(notAfter - notBefore), 3 * SECOND) * SECOND)
  }

  /** A whole number of seconds, within a duration, neither wraps nor exceeds what it was taken from. */
  lemma TwoThirds(d: int)
    requires MIN_DURATION <= d <= MAX_DURATION
    ensures var k := Truncated(2 * d, 3 * SECOND);
            && Wrap(k * SECOND) == k * SECOND
            && (d >= 0 ==> 0 <= 3 * k * SECOND <= 2 * d < 3 * k * SECOND + 3 * SECOND)
            && (d <= 0 ==> 2 * d <= 3 * k * SECOND <= 0)
  {
    var k := Truncated(2 * d, 3 * SECOND);
    if d >= 0 {
      assert 2 * d == 3 * SECOND * k + 2 * d % (3 * SECOND);
    } else {
      assert -2 * d == 3 * SECOND * -k + -2 * d % (3 * SECOND);
    }
    assert MIN_DURATION <= k * SECOND <= MAX_DURATION;
  }

  /**
    For every certificate with a positive lifetime, whatever its length, the renewal instant is a whole
    number of seconds after the start of validity, and before its end.
   */
  lemma RenewalIsWithinLifetime(notBefore: int, notAfter: int)
    requires notBefore < notAfter
    ensures notBefore <= NextRenewal(notBefore, notAfter) < notAfter
    ensures (NextRenewal(notBefore, notAfter) - notBefore) % SECOND == 0
  {
    var d := Saturate(notAfter - notBefore);
    TwoThirds(d);
    var k := Truncated(2 * d, 3 * SECOND);
    assert k * SECOND % SECOND == 0;
  }

  /**
    A certificate of L seconds is renewed the whole part of 2L/3 seconds after its start, exactly when L is
    no more than the longest lifetime a duration can tell apart: beyond, the subtraction saturates.
   */
  lemma RenewedAfterTwoThirdsIff(notBefore: int, seconds: nat)
    ensures (NextRenewal(notBefore, notBefore + seconds * SECOND) == notBefore + 2 * seconds / 3 * SECOND)
            <==> seconds <= LONGEST
  {
    hide Wrap, Truncated;
    var whole := seconds * SECOND;
    var d := Saturate(whole);
    TwoThirds(d);
    var k := Truncated(2 * d, 3 * SECOND);
    assert NextRenewal(notBefore, notBefore + whole) == notBefore + k * SECOND;
    var exact := 2 * seconds / 3;
    assert 3 * exact <= 2 * seconds < 3 * exact + 3;
    assert if whole <= MAX_DURATION then k == exact else k == 6_148_914_691;
  }

  // ------------------------------------------------------------------------------------------
  // The manager
  // ------------------------------------------------------------------------------------------

  datatype Leaf = Leaf(serial: nat, notBefore: int, notAfter: int)

  /** What the authority sends: whether it parses as a key pair, and what its first certificate parses as. */
  datatype Bundle = Bundle(keyPair: bool, first: Option<Leaf>)

  datatype Certificate = Certificate(bundle: Bundle, leaf: Leaf)

  predicate Parses(b: Bundle) {
    b.keyPair && b.first.Some?
  }

  type GoodBundle = b: Bundle | Parses(b) witness Bundle(true, Some(Leaf(0, 0, 0)))

  /** The clock when the tick is handled, and the authority's answer if it is asked; or the context is done. */
  datatype Event = Cancelled | Tick(now: int, answer: Option<Bundle>)

  predicate Needs(b: GoodBundle, now: int) {
    now > NextRenewal(b.first.value.notBefore, b.first.value.notAfter)
  }

  /** The bundle in service after a tick. */
  function AfterTick(b: GoodBundle, e: Event): GoodBundle
    requires e.Tick?
  {
    if Needs(b, e.now) && e.answer.Some? && Parses(e.answer.value) then e.answer.value else b
  }

  /** The bundle a run of the loop ends with, and how often it asked for a new one. */
  function Renewals(b: GoodBundle, es: seq<Event>): (GoodBundle, nat)
    decreases es
  {
    if es == [] || es[0].Cancelled? then (b, 0)
    else
      var rest := Renewals(AfterTick(b, es[0]), es[1..]);
      (rest.0, rest.1 + if Needs(b, es[0].now) then 1 else 0)
  }

  /** How many events there are before the context is done: all of them ticks. */
  function Ticks(es: seq<Event>): (n: nat)
    ensures n <= |es| && (forall i | 0 <= i < n :: es[i].Tick?) && (n < |es| ==> es[n].Cancelled?)
  {
    if es == [] || es[0].Cancelled? then 0 else
      var n := 1 + Ticks(es[1..]);
      assert forall i | 1 <= i < n :: es[i] == es[1..][i - 1];
      n
  }

  /** The bundle in service before each tick, and at the end. */
  ghost predicate History(b: GoodBundle, es: seq<Event>, bundles: seq<GoodBundle>) {
    && |bundles| == Ticks(es) + 1 && bundles[0] == b
    && forall i | 0 <= i < Ticks(es) :: bundles[i + 1] == AfterTick(bundles[i], es[i])
  }

  /** The tick comes after the renewal instant of the bundle then in service, and its answer parses. */
  predicate Replaces(es: seq<Event>, bundles: seq<GoodBundle>, i: nat)
    requires i < |es| && i < |bundles| && es[i].Tick?
  {
    var leaf := bundles[i].first.value;
    && es[i].now > NextRenewal(leaf.notBefore, leaf.notAfter)
    && es[i].answer.Some? && es[i].answer.value.keyPair && es[i].answer.value.first.Some?
  }

  /** The ticks that come after the renewal instant of the bundle then in service. */
  ghost function DueTicks(es: seq<Event>, bundles: seq<GoodBundle>, n: nat): set<nat>
    requires n <= |es| && n <= |bundles| && forall i | 0 <= i < n :: es[i].Tick?
  {
    set i: nat | i < n && Needs(bundles[i], es[i].now)
  }

  /** With one more event in front, the due ticks are one later. */
  lemma {:induction false} DueTicksShift(es: seq<Event>, bundles: seq<GoodBundle>, n: nat)
    requires n < |es| && n < |bundles| && forall i | 0 <= i <= n :: es[i].Tick?
    ensures forall i | 0 <= i < n :: es[1..][i].Tick?
    ensures |DueTicks(es, bundles, n + 1)|
         == |DueTicks(es[1..], bundles[1..], n)| + if Needs(bundles[0], es[0].now) then 1 else 0
  {
    hide Needs;
    if n == 0 {
      assert DueTicks(es, bundles, 1) == if Needs(bundles[0], es[0].now) then {0} else {};
      assert DueTicks(es[1..], bundles[1..], 0) == {};
    } else {
      DueTicksShift(es, bundles, n - 1);
      DueTicksNext(es, bundles, n);
      DueTicksNext(es[1..], bundles[1..], n - 1);
    }
  }

  lemma DueTicksNext(es: seq<Event>, bundles: seq<GoodBundle>, n: nat)
    requires n < |es| && n < |bundles| && forall i | 0 <= i <= n :: es[i].Tick?
    ensures |DueTicks(es, bundles, n + 1)|
         == |DueTicks(es, bundles, n)| + if Needs(bundles[n], es[n].now) then 1 else 0
  {
    hide Needs;
    assert DueTicks(es, bundles, n + 1)
        == DueTicks(es, bundles, n) + if Needs(bundles[n], es[n].now) then {n} else {};
  }

  /** Every run has a history, and makes one attempt for each due tick of it. */
  lemma {:induction false} RenewalsHistory(b: GoodBundle, es: seq<Event>) returns (bundles: seq<GoodBundle>)
    ensures History(b, es, bundles) && bundles[Ticks(es)] == Renewals(b, es).0
    ensures Renewals(b, es).1 == |DueTicks(es, bundles, Ticks(es))|
    decreases es
  {
    hide Needs;
    if Ticks(es) == 0 {
      bundles := [b];
      assert DueTicks(es, bundles, 0) == {};
    } else {
      var rest := RenewalsHistory(AfterTick(b, es[0]), es[1..]);
      bundles := [b] + rest;
      assert bundles[1..] == rest;
      DueTicksShift(es, bundles, Ticks(es) - 1);
    }
  }

  /** A stretch of ticks none of which replaces the bundle. */
  lemma {:induction false} NothingReplaced(b: GoodBundle, es: seq<Event>, bundles: seq<GoodBundle>, i: nat, n: nat)
    requires History(b, es, bundles) && i <= n <= Ticks(es)
    requires forall j | i <= j < n :: !Replaces(es, bundles, j)
    ensures bundles[n] == bundles[i]
    decreases n - i
  {
    hide Ticks, NextRenewal;
    if i < n {
      assert !Replaces(es, bundles, n - 1);
      NothingReplaced(b, es, bundles, i, n - 1);
    }
  }

  /**
    What a run ends with: the answer to the last tick, before the context is done, that came after the renewal
    instant of the bundle then in service and was answered by one that parses; without such a tick, what there
    was at first.
   */
  lemma LastRenewalWins(b: GoodBundle, es: seq<Event>, bundles: seq<GoodBundle>)
    requires History(b, es, bundles)
    ensures var n := Ticks(es);
            && ((forall j | 0 <= j < n :: !Replaces(es, bundles, j)) ==> bundles[n] == b)
            && (forall i | 0 <= i < n && Replaces(es, bundles, i) ::
                  (forall j | i < j < n :: !Replaces(es, bundles, j)) ==> bundles[n] == es[i].answer.value)
  {
    hide Ticks, NextRenewal;
    var n := Ticks(es);
    if forall j | 0 <= j < n :: !Replaces(es, bundles, j) {
      NothingReplaced(b, es, bundles, 0, n);
    }
    forall i | 0 <= i < n && Replaces(es, bundles, i) && (forall j | i < j < n :: !Replaces(es, bundles, j))
      ensures bundles[n] == es[i].answer.value
    {
      NothingReplaced(b, es, bundles, i + 1, n);
      assert bundles[i + 1] == AfterTick(bundles[i], es[i]);
    }
  }

  class CertManager {
    var resource: Option<Bundle>
    var certificate: Option<Certificate>
    var leaf: Option<Leaf>

    constructor ()
      ensures Valid() && resource.None?
    {
      resource, certificate, leaf := None, None, None;
    }

    /** All three come from the same bundle, or there is none. */
    ghost predicate Valid()
      reads this
    {
      match resource
      case None => certificate.None? && leaf.None?
      case Some(b) => Parses(b) && leaf == b.first && certificate == Some(Certificate(b, b.first.value))
    }

    method SwitchCertificate(b: Bundle) returns (ok: bool)
      requires Valid()
      modifies this
      ensures Valid()
      ensures ok <==> Parses(b)
      ensures resource == if ok then Some(b) else old(resource)
    {
      if !b.keyPair {
        return false;
      }
      if b.first.None? {
        return false;
      }
      resource, certificate, leaf := Some(b), Some(Certificate(b, b.first.value)), b.first;
      return true;
    }

    method ObtainCertificate(answer: Option<Bundle>) returns (ok: bool)
      requires Valid()
      modifies this
      ensures Valid()
      ensures ok <==> answer.Some? && Parses(answer.value)
      ensures resource == if ok then answer else old(resource)
    {
      if answer.None? {
        return false;
      }
      ok := SwitchCertificate(answer.value);
    }

    /** There must be a certificate to renew. */
    method RenewCertificate(answer: Option<Bundle>) returns (ok: bool)
      requires Valid() && resource.Some?
      modifies this
      ensures Valid()
      ensures ok <==> answer.Some? && Parses(answer.value)
      ensures resource == if ok then answer else old(resource)
    {
      if answer.None? {
        return false;
      }
      ok := SwitchCertificate(answer.value);
    }

    method NeedsRenewal(now: int) returns (due: bool)
      requires Valid() && resource.Some?
      ensures due <==> Needs(resource.value, now)
    {
      due := now > NextRenewal(leaf.value.notBefore, leaf.value.notAfter);
    }

    /**
      Handles the ticks before the context is done. `installed` is the bundle in service before each of them,
      and at the end: see LastRenewalWins for which that is.
     */
    method RunRenewal(es: seq<Event>) returns (attempts: nat, ghost installed: seq<GoodBundle>)
      requires Valid() && resource.Some?
      modifies this
      ensures Valid() && resource.Some? && Parses(old(resource).value)
      ensures History(old(resource).value, es, installed) && installed[|installed| - 1] == resource.value
      ensures attempts == |DueTicks(es, installed, Ticks(es))|
      ensures (resource.value, attempts) == Renewals(old(resource).value, es)
    {
      attempts := 0;
      var i := 0;
      while i < |es| && es[i].Tick?
        invariant i <= |es| && Valid() && resource.Some?
        invariant Renewals(old(resource).value, es)
                  == var rest := Renewals(resource.value, es[i..]); (rest.0, attempts + rest.1)
      {
        assert es[i..][0] == es[i] && es[i..][1..] == es[i + 1..];
        var due := NeedsRenewal(es[i].now);
        if due {
          var _ := RenewCertificate(es[i].answer);
          attempts := attempts + 1;
        }
        i := i + 1;
      }
      installed := RenewalsHistory(old(resource).value, es);
    }
  }

  // ------------------------------------------------------------------------------------------
  // How often a failing renewal is tried
  // ------------------------------------------------------------------------------------------

  /** The k-th of the ticks of a loop that started at some time. */
  predicate TicksFrom(es: seq<Event>, start: int) {
    forall k | 0 <= k < |es| :: es[k].Tick? && es[k].now == start + TICK * (k + 1)
  }

  predicate AllFail(es: seq<Event>) {
    forall k | 0 <= k < |es| :: es[k].Tick? && (es[k].answer.None? || !Parses(es[k].answer.value))
  }

  function CeilDiv(a: int, b: int): int
    requires b > 0
  {
    (a + b - 1) / b
  }

  /** While every attempt fails the certificate stays, and there is one attempt for each tick it is due at. */
  lemma {:induction false} FailuresChangeNothing(b: GoodBundle, es: seq<Event>)
    requires AllFail(es)
    ensures Renewals(b, es).0 == b
    ensures Renewals(b, es).1 == Due(b, es)
  {
    if es != [] {
      FailuresChangeNothing(b, es[1..]);
    }
  }

  function Due(b: GoodBundle, es: seq<Event>): nat
    requires forall k | 0 <= k < |es| :: es[k].Tick?
  {
    if es == [] then 0 else (if Needs(b, es[0].now) then 1 else 0) + Due(b, es[1..])
  }

  /** Ticks up to the renewal instant do nothing; every one after it counts. */
  lemma {:induction false} DueIsTicksAfter(b: GoodBundle, es: seq<Event>, start: int, before: nat)
    requires TicksFrom(es, start) && before <= |es|
    requires var x := NextRenewal(b.first.value.notBefore, b.first.value.notAfter) - start;
             (before > 0 ==> TICK * before <= x) && x < TICK * (before + 1)
    ensures Due(b, es) == |es| - before
  {
    if es != [] {
      assert es[0].now == start + TICK * (0 + 1);
      forall k | 0 <= k < |es[1..]| ensures es[1..][k].Tick? && es[1..][k].now == (start + TICK) + TICK * (k + 1) {
        assert es[1..][k] == es[k + 1];
      }
      DueIsTicksAfter(b, es[1..], start + TICK, if before > 0 then before - 1 else 0);
    }
  }

  /**
    A loop that runs from before a certificate is due until it expires, and whose every attempt fails, makes
    one attempt for each tick in between: with a remaining third of R and the first tick after it is due
    some way short of a whole tick away, the count is exact.
   */
  lemma FailingRunAttempts(b: GoodBundle, es: seq<Event>, start: int)
    requires TicksFrom(es, start) && AllFail(es)
    requires var leaf := b.first.value;
             && leaf.notBefore < leaf.notAfter
             && start <= NextRenewal(leaf.notBefore, leaf.notAfter)
             && start + TICK * |es| < leaf.notAfter <= start + TICK * (|es| + 1)
    ensures Renewals(b, es).0 == b
    ensures var leaf := b.first.value;
            var next := NextRenewal(leaf.notBefore, leaf.notAfter);
            var attempts := Renewals(b, es).1;
            && attempts == CeilDiv((next - start) % TICK + leaf.notAfter - next, TICK) - 1
            && attempts >= CeilDiv(leaf.notAfter - next, TICK) - 1
            && ((next - start) % TICK == 0 ==> attempts == CeilDiv(leaf.notAfter - next, TICK) - 1)
  {
    hide NextRenewal, CeilDiv, Renewals, Due;
    var leaf := b.first.value;
    var next := NextRenewal(leaf.notBefore, leaf.notAfter);
    RenewalIsWithinLifetime(leaf.notBefore, leaf.notAfter);
    var x := next - start;
    var before := x / TICK;
    assert x == TICK * before + x % TICK;
    FailuresChangeNothing(b, es);
    DueIsTicksAfter(b, es, start, before);
    var y := x % TICK + leaf.notAfter - next;
    CeilIs(y, |es| - before + 1);
    CeilMonotone(leaf.notAfter - next, y);
  }

  lemma CeilIs(a: int, n: int)
    requires TICK * (n - 1) < a <= TICK * n
    ensures CeilDiv(a, TICK) == n
  {
    var q := (a + TICK - 1) / TICK;
    assert a + TICK - 1 == TICK * q + (a + TICK - 1) % TICK;
  }

  lemma CeilMonotone(a: int, c: int)
    requires a <= c
    ensures CeilDiv(a, TICK) <= CeilDiv(c, TICK)
  {
    var p, q := CeilDiv(a, TICK), CeilDiv(c, TICK);
    assert a + TICK - 1 == TICK * p + (a + TICK - 1) % TICK;
    assert c + TICK - 1 == TICK * q + (c + TICK - 1) % TICK;
  }

  // ------------------------------------------------------------------------------------------
  // The switch, seen by any number of readers
  // ------------------------------------------------------------------------------------------

  /**
    Where the renewing goroutine is: idle, with a parsed version, or with the lock and so many of the
    three fields set.
   */
  datatype Writer = Resting | Parsed(v: nat) | Holding(v: nat, set_: nat)

  /** Versions of the three fields; 0 is none. The last three are histories. */
  datatype State = State(
    resource: nat, certificate: nat, leaf: nat,
    writer: Writer,
    readers: set<nat>,     // those with the read lock
    made: nat,             // versions that were obtained and parsed
    installed: nat,        // the last version switched to
    seen: seq<nat>)        // what readers were given, in order

  datatype Move =
    | RenewFails                    // the authority refuses, or what it sends does not parse
    | Renewed
    | Lock | SetField | Unlock
    | RLock(r: nat) | ReadCertificate(r: nat) | ReadLeaf(r: nat) | RUnlock(r: nat)

  const INIT := State(0, 0, 0, Resting, {}, 0, 0, [])

  predicate Enabled(s: State, m: Move) {
    match m
    case RenewFails => s.writer.Resting?
    case Renewed => s.writer.Resting?
    case Lock => s.writer.Parsed? && s.readers == {}
    case SetField => s.writer.Holding? && s.writer.set_ < 3
    case Unlock => s.writer.Holding? && s.writer.set_ == 3
    case RLock(r) => !s.writer.Holding? && r !in s.readers
    case ReadCertificate(r) => r in s.readers
    case ReadLeaf(r) => r in s.readers
    case RUnlock(r) => r in s.readers
  }

  function Apply(s: State, m: Move): State
    requires Enabled(s, m)
  {
    match m
    case RenewFails => s
    case Renewed => s.(writer := Parsed(s.made + 1), made := s.made + 1)
    case Lock => s.(writer := Holding(s.writer.v, 0))
    case SetField =>
      var v := s.writer.v;
      var t := if s.writer.set_ == 0 then s.(resource := v)
               else if s.writer.set_ == 1 then s.(certificate := v)
               else s.(leaf := v);
      t.(writer := Holding(v, s.writer.set_ + 1))
    case Unlock => s.(writer := Resting, installed := s.writer.v)
    case RLock(r) => s.(readers := s.readers + {r})
    case ReadCertificate(_) => s.(seen := s.seen + [s.certificate])
    case ReadLeaf(_) => s.(seen := s.seen + [s.leaf])
    case RUnlock(r) => s.(readers := s.readers - {r})
  }

  ghost predicate Run(s: State, ms: seq<Move>, t: State)
    decreases ms
  {
    if ms == [] then s == t else Enabled(s, ms[0]) && Run(Apply(s, ms[0]), ms[1..], t)
  }

  predicate Ascending(vs: seq<nat>, top: nat) {
    && (forall a, b | 0 <= a < b < |vs| :: vs[a] <= vs[b])
    && (forall a | 0 <= a < |vs| :: vs[a] <= top)
  }

  ghost predicate Inv(s: State) {
    && Ascending(s.seen, s.installed)
    && s.installed <= s.made
    && match s.writer
       case Holding(v, k) =>
         && s.readers == {} && v == s.made && s.installed < v && k <= 3
         && s.resource == (if k > 0 then v else s.installed)
         && s.certificate == (if k > 1 then v else s.installed)
         && s.leaf == (if k > 2 then v else s.installed)
       case Parsed(v) => v == s.made && s.installed < v && s.resource == s.certificate == s.leaf == s.installed
       case Resting => s.made == s.installed && s.resource == s.certificate == s.leaf == s.installed
  }

  lemma InvStep(s: State, m: Move)
    requires Inv(s) && Enabled(s, m)
    ensures Inv(Apply(s, m))
  {
  }

  lemma {:induction false} RunKeepsInv(s: State, ms: seq<Move>, t: State)
    requires Inv(s) && Run(s, ms, t)
    ensures Inv(t)
    decreases ms
  {
    hide Inv, Enabled, Apply;
    if ms != [] {
      InvStep(s, ms[0]);
      RunKeepsInv(Apply(s, ms[0]), ms[1..], t);
    }
  }

  /**
    A version that was obtained and parsed can always be switched to: the readers let go of the lock, and the
    writer takes it, sets the three fields and gives it back.
   */
  lemma {:induction false} SwitchGoesThrough(s: State) returns (ms: seq<Move>, t: State)
    requires Inv(s) && !s.writer.Resting?
    ensures Run(s, ms, t) && t.writer.Resting? && t.resource == t.certificate == t.leaf == s.made > s.installed
    ensures forall m | m in ms :: m.RUnlock? || m.Lock? || m.SetField? || m.Unlock?
    decreases |s.readers|, if s.writer.Parsed? then 5 else 4 - s.writer.set_
  {
    var m;
    if s.writer.Parsed? {
      if r :| r in s.readers {
        m := RUnlock(r);
      } else {
        m := Lock;
      }
    } else {
      m := if s.writer.set_ < 3 then SetField else Unlock;
    }
    var rest := [];
    t := Apply(s, m);
    InvStep(s, m);
    if m != Unlock {
      rest, t := SwitchGoesThrough(t);
    }
    ms := [m] + rest;
    assert ms[1..] == rest;
  }

  /**
    Whenever no switch is under way the three fields are of one version, the last one switched to. What
    readers are given, one after another and whichever readers they are, is never an older version again,
    and never one whose switch was under way when they read.
   */
  lemma SwitchIsAtomic(ms: seq<Move>, s: State)
    requires Run(INIT, ms, s)
    ensures !s.writer.Holding? ==> s.resource == s.certificate == s.leaf == s.installed
    ensures s.readers != {} ==> !s.writer.Holding?
    ensures forall a, b | 0 <= a < b < |s.seen| :: s.seen[a] <= s.seen[b]
    ensures forall a | 0 <= a < |s.seen| :: s.seen[a] <= s.installed <= s.made
  {
    RunKeepsInv(INIT, ms, s);
  }
}
