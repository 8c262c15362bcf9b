/**
  The attestation endpoint: any number of requests at once, sharing one cached response behind an atomic
  pointer. Each request reads the certificate, may be served from the cache, and otherwise asks the
  security module for a response of its own.
 */
module AttestationCache {
  import opened Options

  type bytes = seq<int>

  const MAX_NONCE: nat := 64

  /**
    A response: the nonce and user data it was requested with, which the attestation document echoes,
    whether it has a leaf certificate, and that certificate's validity.
   */
  datatype Response = Response(nonce: Option<bytes>, userData: bytes, hasLeaf: bool, notBefore: int, notAfter: int)

  datatype Reply =
    | BadRequest
    | ServerError
    | Cached(r: Response, at: int)    // served from the cache; `at` is the second reading of the clock
    | Generated(r: Response)

  /**
    Where a request is: about to read the certificate; to load the cache for serving, and to check what
    it loaded against the clock, twice; the same for clearing; to clear; to ask; to store; answered.
   */
  datatype Pc =
    | ReadCert
    | LoadToServe | ServeNotBefore(c: Response) | ServeNotAfter(c: Response, t: int)
    | LoadToClear | ClearNotBefore(c: Response) | ClearNotAfter(c: Response) | Clear
    | Ask | Store(r: Response)
    | Replied(reply: Reply)

  datatype Request = Request(query: bytes, cert: bytes, pc: Pc) {
    /** An absent and an empty nonce are the same. */
    function Nonce(): Option<bytes> {
      if query == [] then None else Some(query)
    }
  }

  datatype State = State(
    now: int,
    cache: Option<Response>,
    requests: seq<Request>,
    issued: set<Response>)     // every response the security module has produced

  datatype Move =
    | Tick(d: nat)
    | Arrive(query: bytes)
    | Cert(i: nat, cert: Option<bytes>)
    | Step(i: nat)                       // load, check, clear or store
    | Attest(i: nat, hasLeaf: bool, notBefore: int, notAfter: int)
    | AttestFails(i: nat)

  const INIT := State(0, None, [], {})

  predicate Enabled(s: State, m: Move) {
    match m
    case Tick(_) => true
    case Arrive(_) => true
    case Cert(i, _) => i < |s.requests| && s.requests[i].pc.ReadCert?
    case Step(i) =>
      i < |s.requests| && !s.requests[i].pc.ReadCert? && !s.requests[i].pc.Ask? && !s.requests[i].pc.Replied?
    case Attest(i, _, _, _) => i < |s.requests| && s.requests[i].pc.Ask?
    case AttestFails(i) => i < |s.requests| && s.requests[i].pc.Ask?
  }

  /** The first half of the validity check, up to the first reading of the clock. */
  predicate Started(c: Response, now: int) {
    c.hasLeaf && c.notBefore < now
  }

  /** The second half, from the second reading. */
  predicate Unexpired(c: Response, now: int, cert: bytes) {
    c.notAfter > now && c.userData == cert
  }

  /** Where a request goes from where it is, on its own. */
  function Next(q: Request, now: int, cache: Option<Response>): Pc {
    match q.pc
    case LoadToServe => if cache.Some? then ServeNotBefore(cache.value) else LoadToClear
    case ServeNotBefore(c) => if Started(c, now) then ServeNotAfter(c, now) else LoadToClear
    case ServeNotAfter(c, t) => if Unexpired(c, now, q.cert) then Replied(Cached(c, now)) else LoadToClear
    case LoadToClear => if cache.Some? then ClearNotBefore(cache.value) else Ask
    case ClearNotBefore(c) => if Started(c, now) then ClearNotAfter(c) else Clear
    case ClearNotAfter(c) => if Unexpired(c, now, q.cert) then Ask else Clear
    case Clear => Ask
    case Store(r) => Replied(Generated(r))
    case pc => pc
  }

  function SetPc(s: State, i: nat, pc: Pc): State
    requires i < |s.requests|
  {
    s.(requests := s.requests[i := s.requests[i].(pc := pc)])
  }

  function Apply(s: State, m: Move): State
    requires Enabled(s, m)
  {
    match m
    case Tick(d) => s.(now := s.now + d)
    case Arrive(query) =>
      var pc := if |query| > MAX_NONCE then Replied(BadRequest) else ReadCert;
      s.(requests := s.requests + [Request(query, [], pc)])
    case Cert(i, None) => SetPc(s, i, Replied(ServerError))
    case Cert(i, Some(cert)) =>
      var q := s.requests[i];
      s.(requests := s.requests[i := q.(cert := cert, pc := if q.Nonce().None? then LoadToServe else LoadToClear)])
    case Step(i) =>
      var q := s.requests[i];
      var t := SetPc(s, i, Next(q, s.now, s.cache));
      if q.pc.Clear? then t.(cache := None)
      else if q.pc.Store? then t.(cache := Some(q.pc.r))
      else t
    case Attest(i, hasLeaf, notBefore, notAfter) =>
      var q := s.requests[i];
      var r := Response(q.Nonce(), q.cert, hasLeaf, notBefore, notAfter);
      SetPc(s, i, if q.Nonce().None? then Store(r) else Replied(Generated(r))).(issued := s.issued + {r})
    case AttestFails(i) => SetPc(s, i, Replied(ServerError))
  }

  ghost predicate Run(s: State, ms: seq<Move>, t: State)
    decreases ms
  {
    if ms == [] then s == t else Enabled(s, ms[0]) && Run(Apply(s, ms[0]), ms[1..], t)
  }

  // ------------------------------------------------------------------------------------------
  // The invariant
  // ------------------------------------------------------------------------------------------

  /** A response to a request without a nonce: the only kind that may be cached. */
  ghost predicate Cacheable(r: Response, issued: set<Response>) {
    r.nonce.None? && r in issued
  }

  /**
    What the endpoint without a cache would answer: a response the module produced for this nonce and the
    certificate this request read.
   */
  ghost predicate Answers(q: Request, r: Response, issued: set<Response>) {
    r in issued && r.nonce == q.Nonce() && r.userData == q.cert
  }

  ghost predicate RequestOk(q: Request, now: int, issued: set<Response>) {
    match q.pc
    case ServeNotBefore(c) => q.Nonce().None? && Cacheable(c, issued)
    case ServeNotAfter(c, t) => q.Nonce().None? && Cacheable(c, issued) && c.hasLeaf && c.notBefore < t <= now
    case LoadToServe => q.Nonce().None?
    case Store(r) => q.Nonce().None? && Answers(q, r, issued)
    case Replied(Cached(r, at)) =>
      q.Nonce().None? && Answers(q, r, issued) && r.hasLeaf && r.notBefore < at < r.notAfter && at <= now
    case Replied(Generated(r)) => Answers(q, r, issued)
    case Replied(BadRequest) => |q.query| > MAX_NONCE
    case _ => true
  }

  ghost predicate Inv(s: State) {
    && (s.cache.Some? ==> Cacheable(s.cache.value, s.issued))
    && (forall i | 0 <= i < |s.requests| :: RequestOk(s.requests[i], s.now, s.issued))
  }

  lemma InvStep(s: State, m: Move)
    requires Inv(s) && Enabled(s, m)
    ensures Inv(Apply(s, m))
  {
    var t := Apply(s, m);
    forall i | 0 <= i < |t.requests| ensures RequestOk(t.requests[i], t.now, t.issued) {
      if i < |s.requests| {
        assert RequestOk(s.requests[i], s.now, s.issued);
      }
    }
  }

  lemma {:induction false} RunKeepsInv(s: State, ms: seq<Move>, t: State)
    requires Inv(s) && Run(s, ms, t)
    ensures Inv(t)
    decreases ms
  {
    if ms != [] {
      InvStep(s, ms[0]);
      RunKeepsInv(Apply(s, ms[0]), ms[1..], t);
    }
  }

  // ------------------------------------------------------------------------------------------
  // The cache agrees with no cache
  // ------------------------------------------------------------------------------------------

  /**
    Under any interleaving of any number of requests, whatever is served is what the endpoint without a
    cache could have served: produced for the request's own nonce and for the certificate it read. A
    response out of the cache was moreover valid when the request looked at the clock.
   */
  lemma CacheRefinesNoCache(ms: seq<Move>, s: State, i: nat)
    requires Run(INIT, ms, s) && i < |s.requests| && s.requests[i].pc.Replied?
    ensures match s.requests[i].pc.reply
            case Generated(r) => Answers(s.requests[i], r, s.issued)
            case Cached(r, at) =>
              && s.requests[i].query == [] && Answers(s.requests[i], r, s.issued)
              && r.hasLeaf && r.notBefore < at < r.notAfter
            case BadRequest => |s.requests[i].query| > MAX_NONCE
            case ServerError => true
  {
    RunKeepsInv(INIT, ms, s);
    assert RequestOk(s.requests[i], s.now, s.issued);
  }

  /** The stored pointer is nil or a response to a request without a nonce. */
  lemma CacheHoldsNoNonce(ms: seq<Move>, s: State)
    requires Run(INIT, ms, s)
    ensures s.cache.Some? ==> s.cache.value.nonce.None? && s.cache.value in s.issued
  {
    RunKeepsInv(INIT, ms, s);
  }

  /** The request that makes a move, if one does. */
  function Mover(m: Move): Option<nat> {
    match m
    case Tick(_) => None
    case Arrive(_) => None
    case Cert(i, _) => Some(i)
    case Step(i) => Some(i)
    case Attest(i, _, _, _) => Some(i)
    case AttestFails(i) => Some(i)
  }

  /** Anywhere on the way to being served from the cache. */
  predicate Serving(pc: Pc) {
    pc.LoadToServe? || pc.ServeNotBefore? || pc.ServeNotAfter? || (pc.Replied? && pc.reply.Cached?)
  }

  /** No move of a request with a nonce changes the cache except to clear it, and none serves it from there. */
  lemma NonceOnlyClears(ms: seq<Move>, s: State, m: Move, i: nat)
    requires Run(INIT, ms, s) && Enabled(s, m) && Mover(m) == Some(i)
    requires i < |s.requests| && s.requests[i].query != []
    ensures Apply(s, m).cache == s.cache || Apply(s, m).cache == None
    ensures i < |Apply(s, m).requests| && !Serving(s.requests[i].pc) && !Serving(Apply(s, m).requests[i].pc)
  {
    RunKeepsInv(INIT, ms, s);
    assert RequestOk(s.requests[i], s.now, s.issued);
    InvStep(s, m);
    assert RequestOk(Apply(s, m).requests[i], Apply(s, m).now, Apply(s, m).issued);
  }

  /** The request makes none of these moves. */
  predicate Idles(ms: seq<Move>, i: nat) {
    forall m | m in ms :: Mover(m) != Some(i)
  }

  lemma {:induction false} OthersLeaveIt(s: State, ms: seq<Move>, t: State, i: nat)
    requires Run(s, ms, t) && Idles(ms, i) && i < |s.requests|
    ensures i < |t.requests| && t.requests[i] == s.requests[i] && s.now <= t.now
    decreases ms
  {
    if ms != [] {
      var m := ms[0];
      assert m in ms;
      OthersLeaveIt(Apply(s, m), ms[1..], t, i);
    }
  }

  /** The move, and after it any moves of the others: whatever time passes, and whatever other requests do. */
  ghost predicate Then(s: State, m: Move, ms: seq<Move>, t: State, i: nat) {
    Enabled(s, m) && Idles(ms, i) && Run(Apply(s, m), ms, t)
  }

  /** A step of a request leads where it would lead alone. */
  lemma StepThen(s: State, i: nat, ms: seq<Move>, t: State)
    requires i < |s.requests| && Then(s, Step(i), ms, t, i)
    ensures i < |t.requests|
    ensures var q := s.requests[i]; t.requests[i] == q.(pc := Next(q, s.now, s.cache))
  {
    hide Run, Idles;
    OthersLeaveIt(Apply(s, Step(i)), ms, t, i);
  }

  /** What the step itself leaves in the cache. */
  lemma StepIs(s: State, i: nat)
    requires i < |s.requests|
    ensures var pc := s.requests[i].pc; Enabled(s, Step(i)) <==> !pc.ReadCert? && !pc.Ask? && !pc.Replied?
    ensures Enabled(s, Step(i)) ==>
              var t, q := Apply(s, Step(i)), s.requests[i];
              && |t.requests| == |s.requests| && t.requests[i] == q.(pc := Next(q, s.now, s.cache))
              && (!q.pc.Clear? && !q.pc.Store? ==> t.cache == s.cache)
              && (q.pc.Clear? ==> t.cache == None)
  {}

  lemma ArrivalThen(s: State, ms: seq<Move>, t: State)
    requires Then(s, Arrive([]), ms, t, |s.requests|)
    ensures |s.requests| < |t.requests| && t.requests[|s.requests|] == Request([], [], ReadCert)
  {
    hide Run, Idles;
    OthersLeaveIt(Apply(s, Arrive([])), ms, t, |s.requests|);
  }

  lemma CertThen(s: State, i: nat, cert: bytes, ms: seq<Move>, t: State)
    requires i < |s.requests| && s.requests[i].query == [] && Then(s, Cert(i, Some(cert)), ms, t, i)
    ensures i < |t.requests| && t.requests[i] == Request([], cert, LoadToServe)
  {
    hide Run, Idles;
    OthersLeaveIt(Apply(s, Cert(i, Some(cert))), ms, t, i);
  }

  /**
    A request without a nonce that finds a response in the cache is served that response if and only if it was
    valid at the two readings of the clock and is for the request's certificate: whatever time passes, and
    whatever the other requests do, between its arrival and each of its steps.
   */
  lemma CacheIsUsedIff(s: State, js: seq<Move>, p: State, cert: bytes, ks: seq<Move>, q: State, c: Response,
                       ms: seq<Move>, a: State, ns: seq<Move>, b: State)
    requires var i := |s.requests|;
             && Then(s, Arrive([]), js, p, i) && Then(p, Cert(i, Some(cert)), ks, q, i)
             && q.cache == Some(c) && Then(q, Step(i), ms, a, i) && Then(a, Step(i), ns, b, i)
    ensures var i := |s.requests|;
            c.hasLeaf && c.notBefore < a.now && b.now < c.notAfter && c.userData == cert <==>
              && Enabled(b, Step(i)) && i < |Apply(b, Step(i)).requests|
              && Apply(b, Step(i)).requests[i].pc == Replied(Cached(c, b.now))
  {
    hide Then, Apply, Enabled;
    var i := |s.requests|;
    ArrivalThen(s, js, p);
    CertThen(p, i, cert, ks, q);
    StepThen(q, i, ms, a);
    StepThen(a, i, ns, b);
    StepIs(b, i);
  }

  /**
    Nor is a stale response kept: a request that goes on to a response of its own clears the one it finds if and
    only if that was not valid at the two readings of the clock, or is for another certificate.
   */
  lemma StaleIsCleared(s: State, i: nat, c: Response, ms: seq<Move>, a: State, ns: seq<Move>, b: State)
    requires i < |s.requests| && s.requests[i].pc.LoadToClear? && s.cache == Some(c)
    requires Then(s, Step(i), ms, a, i) && Then(a, Step(i), ns, b, i)
    ensures Enabled(b, Step(i)) && i < |Apply(b, Step(i)).requests|
    ensures var t := Apply(b, Step(i));
            if !c.hasLeaf || a.now <= c.notBefore then t.cache == None && t.requests[i].pc == Ask
            else if c.notAfter <= b.now || c.userData != s.requests[i].cert then t.requests[i].pc == Clear
            else t.cache == b.cache && t.requests[i].pc == Ask
    ensures forall u: State | i < |u.requests| && u.requests[i].pc.Clear? ::
              Enabled(u, Step(i)) && Apply(u, Step(i)).cache == None
  {
    hide Then, Apply, Enabled;
    StepThen(s, i, ms, a);
    StepThen(a, i, ns, b);
    StepIs(b, i);
    forall u: State | i < |u.requests| && u.requests[i].pc.Clear?
      ensures Enabled(u, Step(i)) && Apply(u, Step(i)).cache == None
    {
      StepIs(u, i);
    }
  }

  /**
    The response of its own is for the request's nonce and certificate. Without a nonce it is also what the cache
    holds once it has been stored, whatever happens before; with one the cache never sees it.
   */
  lemma OwnResponse(s: State, i: nat, hasLeaf: bool, notBefore: int, notAfter: int, ms: seq<Move>, a: State)
    requires Then(s, Attest(i, hasLeaf, notBefore, notAfter), ms, a, i)
    ensures i < |s.requests| && i < |a.requests|
    ensures Apply(s, Attest(i, hasLeaf, notBefore, notAfter)).cache == s.cache
    ensures var q := s.requests[i];
            var r := Response(if q.query == [] then None else Some(q.query), q.cert, hasLeaf, notBefore, notAfter);
            if q.query != [] then a.requests[i].pc == Replied(Generated(r))
            else
              && Enabled(a, Step(i)) && Apply(a, Step(i)).cache == Some(r)
              && i < |Apply(a, Step(i)).requests| && Apply(a, Step(i)).requests[i].pc == Replied(Generated(r))
  {
    hide Run, Idles;
    OthersLeaveIt(Apply(s, Attest(i, hasLeaf, notBefore, notAfter)), ms, a, i);
  }

  // ------------------------------------------------------------------------------------------
  // One request with the cache to itself
  // ------------------------------------------------------------------------------------------

  /**
    A cached response has a certificate whose validity has begun at one reading of the clock and is not over at
    the other, and is for the endpoint's own certificate.
   */
  predicate Usable(cache: Option<Response>, cert: bytes, t0: int, t1: int) {
    && cache.Some? && cache.value.hasLeaf && cache.value.notBefore < t0 && t1 < cache.value.notAfter
    && cache.value.userData == cert
  }

  function NonceOf(query: bytes): Option<bytes> {
    Request(query, [], ReadCert).Nonce()
  }

  class Controller {
    var cachedResp: Option<Response>

    constructor ()
      ensures cachedResp == None
    {
      cachedResp := None;
    }

    /**
      `cert` is None when it cannot be had, `leaf` when the security module fails; `clock` is what its four
      readings give. What is left in the cache is what the next request without a nonce may be served.
     */
    method GetNSMAttestations(query: bytes, cert: Option<bytes>, clock: seq<int>, leaf: Option<(bool, int, int)>)
      returns (reply: Reply)
      requires |clock| == 4
      modifies this
      ensures reply.BadRequest? <==> |query| > MAX_NONCE
      ensures reply.Cached? <==>
                |query| == 0 && cert.Some? && Usable(old(cachedResp), cert.value, clock[0], clock[1])
      ensures reply.Cached? ==> reply == Cached(old(cachedResp).value, clock[1]) && cachedResp == old(cachedResp)
      ensures reply.Generated? <==> |query| <= MAX_NONCE && cert.Some? && leaf.Some? && !reply.Cached?
      ensures reply.Generated? ==>
                reply.r == Response(NonceOf(query), cert.value, leaf.value.0, leaf.value.1, leaf.value.2)
      ensures reply.Generated? && query == [] ==> cachedResp == Some(reply.r)
      ensures !reply.Cached? && !(reply.Generated? && query == []) ==>
                cachedResp == if |query| > MAX_NONCE || cert.None?
                                 || Usable(old(cachedResp), cert.value, clock[2], clock[3])
                              then old(cachedResp) else None
    {
      if |query| > MAX_NONCE {
        return BadRequest;
      }
      var nonce := None;
      if |query| > 0 {
        nonce := Some(query);
      }
      if cert.None? {
        return ServerError;
      }
      if nonce.None? {
        var cached := cachedResp;
        if cached.Some? && Started(cached.value, clock[0]) && Unexpired(cached.value, clock[1], cert.value) {
          return Cached(cached.value, clock[1]);
        }
      }
      var cached := cachedResp;
      if cached.Some? && !(Started(cached.value, clock[2]) && Unexpired(cached.value, clock[3], cert.value)) {
        cachedResp := None;
      }
      if leaf.None? {
        return ServerError;
      }
      var resp := Response(nonce, cert.value, leaf.value.0, leaf.value.1, leaf.value.2);
      if nonce.None? {
        cachedResp := Some(resp);
      }
      return Generated(resp);
    }
  }
}
