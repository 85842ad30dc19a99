/**
 One logical request of the HTTP client: a bounded retry loop around the circuit breaker,
 around a send that may refresh the token through the same engine and be replayed once.

 The network is an arbitrary function from the number of a send to its answer.  Unless
 `alone`, other threads may change the token and the breaker wherever this thread does not
 hold a lock.
 */
module HttpClients {
  import opened Ascii
  import opened Wrappers
  import opened Bounds
  import opened Errors
  import opened CircuitBreakers
  import opened Retry

  type Token = nat

  /** What the network answers.  `readable`: a success body decodes; `token`: it carries one. */
  datatype Reply =
    | Response(status: int, body: Body, retryAfter: RetryAfter, readable: bool, token: Option<Token>)
    | TimedOut
    | NoConnection
  {
    predicate IsUnauthorized() {
      Response? && status == 401
    }

    /** A 429 the server answered without processing the request. */
    predicate IsRateLimited() {
      Response? && status == 429 && !IsQuotaResponse(body, retryAfter)
    }

    /** The seconds a rate limit asks to wait. */
    function RetrySeconds(): nat
      requires Response?
    {
      if retryAfter.Seconds? then retryAfter.n else 60
    }

    /** No answer, or one that may be better next time. */
    predicate IsTransient() {
      match this
      case TimedOut => true
      case NoConnection => true
      case Response(status, _, _, readable, _) =>
        status == 408 || 500 <= status < 600 || IsRateLimited() || (200 <= status < 300 && !readable)
    }
  }

  datatype Outcome = Value(token: Option<Token>) | Raised(error: ApiError)

  /** What a reply means to the caller of a single send. */
  function Judge(r: Reply): Outcome {
    match r
    case TimedOut => Raised(TimeoutError)
    case NoConnection => Raised(NetworkError)
    case Response(status, body, header, readable, token) =>
      if 200 <= status < 300 then (if readable then Value(token) else Raised(ForeignError))
      else Raised(FromResponse(status, body, header))
  }

  /** What decides whether a request may be replayed. */
  datatype Call = Call(verb: string, headers: seq<(string, string)>, bodyHasKey: bool, override: Option<bool>) {
    predicate IsIdempotent() {
      if override.Some? then override.value
      else if UpperAll(verb) in ["GET", "HEAD", "PUT", "DELETE", "OPTIONS"] then true
      else if exists i :: 0 <= i < |headers| && UpperAll(headers[i].0) == "IDEMPOTENCY-KEY" && headers[i].1 != "" then true
      else bodyHasKey
    }
  }

  /** `POST /auth/refresh`, which carries no idempotency key. */
  const REFRESH_CALL := Call("POST", [], false, None)

  /** The verbs that repeat without harm, in any case of letters. */
  predicate IsSafeVerb(verb: string) {
    Lower(verb) in ["get", "head", "put", "delete", "options"]
  }

  /** A nonempty `Idempotency-Key` header, in any case of letters, or a key in the body. */
  predicate CarriesKey(call: Call) {
    call.bodyHasKey || exists i :: 0 <= i < |call.headers| && Lower(call.headers[i].0) == "idempotency-key" && call.headers[i].1 != ""
  }

  /** May the request be sent again after it may have acted?  What the caller says comes first. */
  predicate Replayable(call: Call) {
    call.override == Some(true) || (call.override.None? && (IsSafeVerb(call.verb) || CarriesKey(call)))
  }

  /** A write nobody vouches for: a POST or PATCH without a key, or a call declared not idempotent. */
  predicate IsUnsafeWrite(call: Call) {
    || call.override == Some(false)
    || (call.override.None? && Lower(call.verb) in ["post", "patch"] && !CarriesKey(call))
  }

  lemma SafeVerbs(verb: string)
    ensures UpperAll(verb) in ["GET", "HEAD", "PUT", "DELETE", "OPTIONS"] <==> IsSafeVerb(verb)
  {
    InAnyCase(verb, "GET", "get");
    InAnyCase(verb, "HEAD", "head");
    InAnyCase(verb, "PUT", "put");
    InAnyCase(verb, "DELETE", "delete");
    InAnyCase(verb, "OPTIONS", "options");
  }

  lemma KeyHeaders(call: Call)
    ensures (exists i :: 0 <= i < |call.headers| && UpperAll(call.headers[i].0) == "IDEMPOTENCY-KEY" && call.headers[i].1 != "")
       <==> (exists i :: 0 <= i < |call.headers| && Lower(call.headers[i].0) == "idempotency-key" && call.headers[i].1 != "")
  {
    forall i | 0 <= i < |call.headers|
      ensures UpperAll(call.headers[i].0) == "IDEMPOTENCY-KEY" <==> Lower(call.headers[i].0) == "idempotency-key"
    {
      InAnyCase(call.headers[i].0, "IDEMPOTENCY-KEY", "idempotency-key");
    }
  }

  /** Which calls are replayed, from what the caller gave; an unsafe write never is. */
  lemma ReplayedCalls(call: Call)
    ensures call.IsIdempotent() <==> Replayable(call)
    ensures IsUnsafeWrite(call) ==> !Replayable(call)
  {
    SafeVerbs(call.verb);
    KeyHeaders(call);
  }

  lemma RefreshIsUnsafe()
    ensures IsUnsafeWrite(REFRESH_CALL) && !Replayable(REFRESH_CALL)
  {
    ReplayedCalls(REFRESH_CALL);
    assert Lower("POST") == "post";
  }

  /** May the retry loop send again after this reply? */
  predicate MayRetry(r: Reply, idempotent: bool) {
    r.IsRateLimited() || (idempotent && r.IsTransient())
  }

  /** May another send of the same request follow this reply? */
  predicate MayFollow(r: Reply, idempotent: bool) {
    r.IsUnauthorized() || MayRetry(r, idempotent)
  }

  /** The errors the retry loop and the breaker act on, as answers of the network. */
  lemma RetriedAnswers(r: Reply, attempt: nat, cfg: RetryConfig, idempotent: bool)
    ensures Judge(r).Raised? && Judge(r).error.Counts() <==> r.IsTransient()
    ensures Judge(r).Raised? && ShouldRetry(Judge(r).error, attempt, cfg, idempotent) <==>
      attempt <= cfg.maxRetries && MayRetry(r, idempotent)
  {
    if Judge(r).Raised? { UnsafeRetriesOnlyRateLimits(Judge(r).error, attempt, cfg); }
    if r.Response? { RetryableStatuses(r.status, r.body, r.retryAfter); }
  }

  /** A wait of the retry loop, with the answer it follows. */
  datatype Wait = Wait(answer: Reply, delay: real)

  /** The wait before attempt `n + 1`: what a rate limit asks for, up to the cap, or the `n`-th backoff and a quarter. */
  predicate IsWait(cfg: RetryConfig, n: nat, w: Wait)
    requires n >= 1
  {
    if w.answer.IsRateLimited() && w.answer.RetrySeconds() > 0 then
      w.delay == Min(w.answer.RetrySeconds() as real, cfg.maxDelay)
    else
      Backoff(n, cfg) <= w.delay <= (if cfg.jitter then 1.25 else 1.0) * Backoff(n, cfg)
  }

  /** Every reply but the last allowed another send. */
  ghost predicate SafelyReplayed(replies: seq<Reply>, idempotent: bool) {
    forall i :: 0 <= i < |replies| - 1 ==> MayFollow(replies[i], idempotent)
  }

  /** The sends of a request: their answers, the tokens they carried, and the waits between them. */
  datatype Log = Log(replies: seq<Reply>, headers: seq<Option<Token>>, waits: seq<Wait>)

  /**
   What one request has done so far: the answers to its own sends and its waits, the log of the
   other sends of this thread, all its sleep, and the token.  `inner` is a refresh request; one
   that is inner, or of a client that cannot refresh, sends once a turn.
   */
  datatype Tally = Tally(inner: bool, canRefresh: bool, alone: bool, own: seq<Reply>, waits: seq<Wait>, other: Log,
                         token: Option<Token>, slept: real, gaps: seq<real>) {
    predicate Single() {
      inner || !canRefresh
    }
  }

  /** From `t` to `u` one request ran, or part of one. */
  predicate Continues(t: Tally, u: Tally) {
    && u.inner == t.inner && u.canRefresh == t.canRefresh && u.alone == t.alone
    && t.own <= u.own && t.waits <= u.waits
    && (t.inner ==> u.other == t.other && (t.alone ==> u.token == t.token))
    && t.gaps <= u.gaps
  }

  /** The most one turn sleeps in a refresh request; it holds at most one. */
  function NestedRest(cfg: RetryConfig, t: Tally): real {
    if t.Single() then 0.0 else Rests(cfg.maxRetries, cfg.Ceiling())
  }

  /** What one attempt may send and answer. */
  predicate Attempted(cfg: RetryConfig, t: Tally, u: Tally, r: Outcome) {
    && Continues(t, u) && u.waits == t.waits
    && |u.own| <= |t.own| + (if t.Single() then 1 else 2)
    && (|u.own| == |t.own| + 2 ==> u.own[|t.own|].IsUnauthorized())
    && (if u.own == t.own then r == Raised(CircuitBreakerOpenError) && u.other == t.other && u.gaps == t.gaps
        else r == Judge(u.own[|u.own| - 1]))
    && (!t.inner ==> |u.other.replies| <= |t.other.replies| + cfg.maxRetries + 1)
    && u.slept <= t.slept + NestedRest(cfg, t)
    && (t.Single() ==> u.other == t.other && u.slept == t.slept && u.gaps == t.gaps)
  }

  /** Why a turn is the last: success, a refusal, an answer that allows no retry, or no attempt left. */
  predicate MayStop(cfg: RetryConfig, t: Tally, u: Tally, idempotent: bool, attempt: nat) {
    |u.own| <= |t.own| || !MayRetry(u.own[|u.own| - 1], idempotent) || attempt > cfg.maxRetries
  }

  /** What the `attempt`-th turn may send, wait for and answer. */
  predicate Turned(cfg: RetryConfig, t: Tally, u: Tally, idempotent: bool, attempt: nat, r: Outcome, again: bool)
    requires attempt >= 1
  {
    && Continues(t, u)
    && |u.own| <= |t.own| + (if t.Single() then 1 else 2)
    && (forall i :: |t.own| <= i < |u.own| - (if again then 0 else 1) ==> MayFollow(u.own[i], idempotent))
    && (again ==> u.own != t.own)
    && (!again ==> MayStop(cfg, t, u, idempotent, attempt))
    && (if u.own == t.own then r == Raised(CircuitBreakerOpenError) else r == Judge(u.own[|u.own| - 1]))
    && (!t.inner ==> |u.other.replies| <= |t.other.replies| + cfg.maxRetries + 1)
    && u.slept <= t.slept + (if again then cfg.Ceiling() else 0.0) + NestedRest(cfg, t)
    && (t.Single() || u.own == t.own ==> |u.gaps| == |t.gaps| + (if again then 1 else 0))
    && |u.waits| == |t.waits| + (if again then 1 else 0)
    && (again ==> OneMoreWait(cfg, attempt, t.waits, u.waits, u.own[|u.own| - 1]))
  }

  /** The waits of a request from the `from`-th on are those after its first, second, ... turn. */
  predicate Waited(cfg: RetryConfig, waits: seq<Wait>, from: nat, replies: seq<Reply>) {
    forall i :: from <= i < |waits| ==> IsWait(cfg, i - from + 1, waits[i]) && waits[i].answer in replies
  }

  /** After `n` turns that all led to another. */
  predicate SoFar(cfg: RetryConfig, t: Tally, u: Tally, idempotent: bool, n: nat) {
    && Continues(t, u)
    && |t.own| + n <= |u.own| <= |t.own| + (if t.Single() then n else 2 * n)
    && (forall i :: |t.own| <= i < |u.own| ==> MayFollow(u.own[i], idempotent))
    && (!t.inner ==> |u.other.replies| <= |t.other.replies| + Times(n, cfg.maxRetries + 1))
    && u.slept <= t.slept + Rests(n, cfg.Ceiling()) + Rests(n, NestedRest(cfg, t))
    && |u.waits| == |t.waits| + n && Waited(cfg, u.waits, |t.waits|, u.own[|t.own|..])
  }

  /** What a whole request promises about its sends. */
  ghost predicate Requested(cfg: RetryConfig, t: Tally, u: Tally, idempotent: bool, r: Outcome) {
    && Continues(t, u)
    && |u.own| <= |t.own| + (if t.Single() then cfg.maxRetries + 1 else 2 * (cfg.maxRetries + 1))
    && SafelyReplayed(u.own[|t.own|..], idempotent)
    && (if r == Raised(CircuitBreakerOpenError) then u.own != t.own ==> MayFollow(u.own[|u.own| - 1], idempotent)
        else u.own != t.own && r == Judge(u.own[|u.own| - 1]))
    && (!t.inner ==> |u.other.replies| <= |t.other.replies| + Times(cfg.maxRetries + 1, cfg.maxRetries + 1))
    && u.slept <= t.slept + Rests(cfg.maxRetries, cfg.Ceiling()) + Rests(cfg.maxRetries + 1, NestedRest(cfg, t))
    && |u.waits| <= |t.waits| + cfg.maxRetries && Waited(cfg, u.waits, |t.waits|, u.own[|t.own|..])
  }

  /** A request gives up on an answer that allows a retry only after `maxRetries + 1` sends, or when the breaker refuses. */
  ghost predicate Persisted(cfg: RetryConfig, t: Tally, u: Tally, idempotent: bool, r: Outcome) {
    r != Raised(CircuitBreakerOpenError) && |t.own| < |u.own| && MayRetry(u.own[|u.own| - 1], idempotent) ==>
      |u.own| >= |t.own| + cfg.maxRetries + 1
  }

  lemma NeverBreakerOpen(r: Reply)
    ensures Judge(r) != Raised(CircuitBreakerOpenError)
  {
  }

  lemma TurnStops(cfg: RetryConfig, t: Tally, u: Tally, idempotent: bool, r: Outcome, attempt: nat)
    requires Attempted(cfg, t, u, r) && attempt >= 1
    requires r.Value? || !ShouldRetry(r.error, attempt, cfg, idempotent)
    ensures Turned(cfg, t, u, idempotent, attempt, r, false)
  {
    if u.own != t.own { RetriedAnswers(u.own[|u.own| - 1], attempt, cfg, idempotent); }
  }

  /** An attempt that may be retried was sent, and its answers allow another send. */
  lemma RetriedTurn(cfg: RetryConfig, t: Tally, u: Tally, idempotent: bool, r: Outcome, attempt: nat)
    requires Attempted(cfg, t, u, r) && r.Raised? && ShouldRetry(r.error, attempt, cfg, idempotent)
    ensures u.own != t.own && r == Judge(u.own[|u.own| - 1]) && MayRetry(u.own[|u.own| - 1], idempotent)
    ensures forall i :: |t.own| <= i < |u.own| ==> MayFollow(u.own[i], idempotent)
  {
    if u.own != t.own { RetriedAnswers(u.own[|u.own| - 1], attempt, cfg, idempotent); }
  }

  /** After a failed turn the request waited once. */
  predicate OneMoreWait(cfg: RetryConfig, attempt: nat, before: seq<Wait>, after: seq<Wait>, answer: Reply)
    requires attempt >= 1
  {
    && |after| == |before| + 1 && before <= after
    && after[|before|].answer == answer && IsWait(cfg, attempt, after[|before|])
  }

  lemma TurnGoesOn(cfg: RetryConfig, t: Tally, u: Tally, v: Tally, idempotent: bool, r: Outcome, attempt: nat)
    requires attempt >= 1
    requires Attempted(cfg, t, u, r) && r.Raised? && ShouldRetry(r.error, attempt, cfg, idempotent)
    requires v.slept <= u.slept + cfg.Ceiling() && |v.gaps| == |u.gaps| + 1 && u.gaps <= v.gaps
    requires u.own != t.own ==> OneMoreWait(cfg, attempt, u.waits, v.waits, u.own[|u.own| - 1])
    requires v == u.(slept := v.slept, gaps := v.gaps, waits := v.waits, token := v.token)
    requires u.alone ==> v.token == u.token
    ensures Turned(cfg, t, v, idempotent, attempt, r, true)
  {
    RetriedTurn(cfg, t, u, idempotent, r, attempt);
    assert v.own == u.own && t.waits <= v.waits && t.gaps <= v.gaps;
    assert Continues(t, v);
  }

  lemma WaitsExtend(cfg: RetryConfig, t: Tally, u: Tally, v: Tally, idempotent: bool, n: nat, r: Outcome)
    requires SoFar(cfg, t, u, idempotent, n) && Turned(cfg, u, v, idempotent, n + 1, r, true)
    ensures Waited(cfg, v.waits, |t.waits|, v.own[|t.own|..])
  {
    var own, more := u.own[|t.own|..], v.own[|t.own|..];
    assert own <= more;
    forall i | |t.waits| <= i < |v.waits| ensures IsWait(cfg, i - |t.waits| + 1, v.waits[i]) && v.waits[i].answer in more {
      if i < |u.waits| {
        assert v.waits[i] == u.waits[i] && u.waits[i].answer in own;
      } else {
        assert more[|more| - 1] == v.own[|v.own| - 1];
      }
    }
  }

  lemma FollowsExtend(t: seq<Reply>, u: seq<Reply>, v: seq<Reply>, idempotent: bool)
    requires u <= v
    requires forall i :: |t| <= i < |u| ==> MayFollow(u[i], idempotent)
    requires forall i :: |u| <= i < |v| ==> MayFollow(v[i], idempotent)
    ensures forall i :: |t| <= i < |v| ==> MayFollow(v[i], idempotent)
  {
    forall i | |t| <= i < |v| ensures MayFollow(v[i], idempotent) {
      if i < |u| { assert v[i] == u[i]; }
    }
  }

  lemma TurnExtends(cfg: RetryConfig, t: Tally, u: Tally, v: Tally, idempotent: bool, n: nat, r: Outcome)
    requires SoFar(cfg, t, u, idempotent, n) && Turned(cfg, u, v, idempotent, n + 1, r, true)
    ensures SoFar(cfg, t, v, idempotent, n + 1)
  {
    WaitsExtend(cfg, t, u, v, idempotent, n, r);
    FollowsExtend(t.own, u.own, v.own, idempotent);
  }

  lemma TurnPersists(cfg: RetryConfig, t: Tally, u: Tally, v: Tally, idempotent: bool, n: nat, r: Outcome)
    requires SoFar(cfg, t, u, idempotent, n) && Turned(cfg, u, v, idempotent, n + 1, r, false)
    ensures Persisted(cfg, t, v, idempotent, r)
  {
  }

  lemma TurnEnds(cfg: RetryConfig, t: Tally, u: Tally, v: Tally, idempotent: bool, n: nat, r: Outcome)
    requires cfg.Valid() && n <= cfg.maxRetries
    requires SoFar(cfg, t, u, idempotent, n) && Turned(cfg, u, v, idempotent, n + 1, r, false)
    ensures Requested(cfg, t, v, idempotent, r) && Persisted(cfg, t, v, idempotent, r)
  {
    TurnPersists(cfg, t, u, v, idempotent, n, r);
    Grows(n + 1, cfg.maxRetries + 1, cfg.maxRetries + 1, cfg.Ceiling());
    Grows(n, cfg.maxRetries, cfg.maxRetries + 1, cfg.Ceiling());
    Grows(0, cfg.maxRetries, 0, cfg.Ceiling());
    Grows(n + 1, cfg.maxRetries + 1, 0, NestedRest(cfg, t));
    if v.own != u.own { NeverBreakerOpen(v.own[|v.own| - 1]); }
    assert v.waits == u.waits && u.own[|t.own|..] <= v.own[|t.own|..];
    forall i | |t.own| <= i < |v.own| - 1 ensures MayFollow(v.own[i], idempotent) {
      if i < |u.own| { assert v.own[i] == u.own[i]; }
    }
  }

  lemma CountTurn(cfg: RetryConfig, t: Tally, u: Tally, v: Tally, idempotent: bool, n: nat, r: Outcome, again: bool)
    requires cfg.Valid() && n <= cfg.maxRetries
    requires SoFar(cfg, t, u, idempotent, n) && Turned(cfg, u, v, idempotent, n + 1, r, again)
    ensures if again then SoFar(cfg, t, v, idempotent, n + 1)
            else Requested(cfg, t, v, idempotent, r) && Persisted(cfg, t, v, idempotent, r)
  {
    if again {
      TurnExtends(cfg, t, u, v, idempotent, n, r);
    } else {
      TurnEnds(cfg, t, u, v, idempotent, n, r);
    }
  }

  /** A request without retry is one attempt. */
  lemma AttemptIsRequest(cfg: RetryConfig, t: Tally, u: Tally, idempotent: bool, r: Outcome)
    requires cfg.Valid() && Attempted(cfg, t, u, r)
    ensures Requested(cfg, t, u, idempotent, r)
  {
    Grows(1, cfg.maxRetries + 1, cfg.maxRetries + 1, cfg.Ceiling());
    Grows(0, cfg.maxRetries, 0, cfg.Ceiling());
    Grows(1, cfg.maxRetries + 1, 0, NestedRest(cfg, t));
    if u.own != t.own { NeverBreakerOpen(u.own[|u.own| - 1]); }
  }

  /** An unsafe write is sent again only after an answer that says it was not processed. */
  lemma UnsafeWritesActOnce(cfg: RetryConfig, t: Tally, u: Tally, call: Call, r: Outcome)
    requires Requested(cfg, t, u, Replayable(call), r)
    ensures IsUnsafeWrite(call) ==>
      forall i :: |t.own| <= i < |u.own| - 1 ==> u.own[i].IsUnauthorized() || u.own[i].IsRateLimited()
  {
    ReplayedCalls(call);
    var own := u.own[|t.own|..];
    forall i | |t.own| <= i < |u.own| - 1 ensures MayFollow(u.own[i], Replayable(call)) {
      assert u.own[i] == own[i - |t.own|];
    }
  }

  class HttpClient {
    const retry: RetryConfig
    const breaker: CircuitBreaker
    const canRefresh: bool               // a refresh function is set
    const hasRefreshToken: bool
    const wire: nat -> Reply
    const alone: bool
    var authToken: Option<Token>
    var refreshing: bool                 // this thread's `_refresh_state.active`
    var holdsLock: bool                  // this thread holds `_refresh_lock`
    var now: real
    var sends: nat
    ghost var direct: Log                // the sends of the outer request
    ghost var nested: Log                // the sends of refresh requests inside it
    ghost var slept: real
    ghost var gaps: seq<real>            // the time from each failure to the next attempt

    ghost predicate Valid()
      reads this, breaker
    {
      && retry.Valid() && breaker.Valid()
      && holdsLock == refreshing
      && |direct.replies| + |nested.replies| == sends
      && |direct.headers| == |direct.replies| && |nested.headers| == |nested.replies|
    }

    /** The nested request runs at depth 0, and cannot nest further. */
    ghost function Depth(): nat
      reads this
    {
      if refreshing then 0 else 1
    }

    /** The log of the request this thread is in. */
    ghost function Current(): Log
      reads this
    {
      if refreshing then nested else direct
    }

    ghost function Own(): seq<Reply>
      reads this
    {
      Current().replies
    }

    ghost function Books(): Tally
      reads this
    {
      Tally(refreshing, canRefresh, alone, Own(), Current().waits, if refreshing then direct else nested, authToken, slept, gaps)
    }

    /** The last refresh request since `before` ended with a new token, and that token is installed. */
    ghost predicate Renewed(before: Log)
      reads this
    {
      && before.replies < nested.replies && authToken.Some?
      && Judge(nested.replies[|nested.replies| - 1]) == Value(authToken)
    }

    /** No refresh request since `before` was answered with a token. */
    ghost predicate NothingMinted(before: Log)
      reads this
    {
      && before.replies <= nested.replies
      && (before.replies != nested.replies ==>
            var o := Judge(nested.replies[|nested.replies| - 1]); o.Raised? || o.token.None?)
    }

    /** The next send is not one that this thread would refresh the token for. */
    ghost predicate NoDetour()
      reads this
    {
      alone && (!canRefresh || refreshing || !wire(sends).IsUnauthorized())
    }

    constructor (retry: RetryConfig, breaker: CircuitBreaker, token: Option<Token>, canRefresh: bool,
                 hasRefreshToken: bool, wire: nat -> Reply, alone: bool, now: real)
      requires retry.Valid() && breaker.Valid()
      ensures Valid() && !refreshing && direct == nested == Log([], [], []) && slept == 0.0 && gaps == []
      ensures this.retry == retry && this.breaker == breaker && this.canRefresh == canRefresh
      ensures this.hasRefreshToken == hasRefreshToken && this.wire == wire && this.alone == alone
      ensures authToken == token
    {
      this.retry, this.breaker, this.canRefresh := retry, breaker, canRefresh;
      this.hasRefreshToken, this.wire, this.alone := hasRefreshToken, wire, alone;
      authToken, refreshing, holdsLock, this.now, sends := token, false, false, now, 0;
      direct, nested, slept, gaps := Log([], [], []), Log([], [], []), 0.0, [];
    }

    /** Time passes and, unless alone, other threads use the client. */
    method Others()
      requires breaker.Valid()
      modifies this`authToken, this`now, breaker
      ensures breaker.Valid() && now >= old(now)
      ensures alone ==> authToken == old(authToken) && breaker.Phase() == old(breaker.Phase())
    {
      var passing: real := *;
      if passing > 0.0 {
        now := now + passing;
      }
      if alone {
        return;
      }
      authToken := *;
      var calls: nat := *;
      while calls > 0
        invariant breaker.Valid() && now >= old(now)
      {
        var at: real := *;
        var which: nat := *;
        if which == 0 {
          var _ := breaker.IsAllowed(at);
        } else if which == 1 {
          breaker.RecordSuccess();
        } else if which == 2 {
          var error: ApiError := *;
          breaker.RecordFailure(at, error);
        } else {
          breaker.ResetBreaker();
        }
        calls := calls - 1;
      }
    }

    method Sleep(delay: real, ghost answer: Reply)
      requires breaker.Valid() && delay > 0.0
      modifies this`authToken, this`now, this`slept, this`gaps, this`direct, this`nested, breaker
      ensures breaker.Valid() && slept == old(slept) + delay
      ensures |gaps| == |old(gaps)| + 1 && gaps[..|old(gaps)|] == old(gaps) && gaps[|gaps| - 1] >= delay
      ensures now == old(now) + gaps[|gaps| - 1]
      ensures Current() == old(Current()).(waits := old(Current()).waits + [Wait(answer, delay)])
      ensures if refreshing then direct == old(direct) else nested == old(nested)
      ensures alone ==> authToken == old(authToken) && breaker.Phase() == old(breaker.Phase())
    {
      var before := now;
      now := now + delay;
      Others();
      gaps := gaps + [now - before];
      slept := slept + delay;
      if refreshing {
        nested := nested.(waits := nested.waits + [Wait(answer, delay)]);
      } else {
        direct := direct.(waits := direct.waits + [Wait(answer, delay)]);
      }
    }

    /** One HTTP exchange. */
    method Exchange(header: Option<Token>) returns (reply: Reply)
      requires Valid()
      modifies this`authToken, this`now, this`sends, this`direct, this`nested, breaker
      ensures Valid() && reply == wire(old(sends)) && sends == old(sends) + 1
      ensures var log := old(Current());
        Current() == Log(log.replies + [reply], log.headers + [header], log.waits)
      ensures if refreshing then direct == old(direct) else nested == old(nested)
      ensures alone ==> authToken == old(authToken) && breaker.Phase() == old(breaker.Phase())
    {
      Others();
      reply := wire(sends);
      sends := sends + 1;
      if refreshing {
        nested := Log(nested.replies + [reply], nested.headers + [header], nested.waits);
      } else {
        direct := Log(direct.replies + [reply], direct.headers + [header], direct.waits);
      }
    }

    /** `_execute_request`: one send, replayed once when a 401 led to a refreshed token. */
    method ExecuteRequest(allowRefresh: bool) returns (r: Outcome)
      requires Valid()
      modifies this, breaker
      ensures Valid() && refreshing == old(refreshing) && sends >= old(sends)
      ensures old(Own()) < Own() && |Own()| <= |old(Own())| + 2 && r == Judge(Own()[|Own()| - 1])
      ensures Current().waits == old(Current()).waits && old(Current()).headers <= Current().headers
      ensures |Own()| == |old(Own())| + 2 ==>
        allowRefresh && canRefresh && !refreshing && Own()[|old(Own())|].IsUnauthorized()
      ensures if refreshing then direct == old(direct) else |nested.replies| <= |old(nested).replies| + retry.maxRetries + 1
      ensures !allowRefresh || !canRefresh ==> nested == old(nested) || refreshing
      ensures old(gaps) <= gaps && (refreshing || !canRefresh ==> slept == old(slept) && gaps == old(gaps))
      ensures slept <= old(slept) + (if allowRefresh then Rests(retry.maxRetries, retry.Ceiling()) else 0.0)
      ensures old(NoDetour()) ==>
        && |Own()| == |old(Own())| + 1 && r == Judge(wire(old(sends))) && breaker.Phase() == old(breaker.Phase())
        && slept == old(slept) && gaps == old(gaps) && (!refreshing ==> nested == old(nested))
      // The token each send carries, and when a 401 is replayed.
      ensures alone ==> Current().headers[|old(Own())|] == old(authToken)
      ensures alone && (refreshing || !allowRefresh || !canRefresh) ==> authToken == old(authToken)
      ensures alone && |Own()| == |old(Own())| + 2 ==>
        Renewed(old(nested)) && Current().headers[|Own()| - 1] == authToken
      ensures alone && allowRefresh && canRefresh && hasRefreshToken && !refreshing ==>
        |Own()| == |old(Own())| + 1 && Own()[|old(Own())|].IsUnauthorized() ==>
          NothingMinted(old(nested)) && authToken == old(authToken)
      decreases Depth(), if allowRefresh then 2 else 0
    {
      Grows(0, retry.maxRetries, 0, retry.Ceiling());
      var authBefore := authToken;
      Others();
      var header := authToken;
      var reply := Exchange(header);
      if reply.IsUnauthorized() && allowRefresh && canRefresh && !refreshing {
        var refreshed;
        ghost var found;
        refreshed, found := TryRefreshToken(authBefore);
        if refreshed {
          r := ExecuteRequest(false);
          return;
        }
      }
      r := Judge(reply);
    }

    /**
     Single-flight refresh.  Called only by a thread that is not refreshing, so it never waits
     for itself.  `found` is the token under the lock: another one than before is used as it is.
     */
    method TryRefreshToken(tokenBefore: Option<Token>) returns (ok: bool, ghost found: Option<Token>)
      requires Valid() && !refreshing && !holdsLock
      modifies this, breaker
      ensures Valid() && !refreshing && !holdsLock && sends >= old(sends)
      ensures direct == old(direct) && |nested.replies| <= |old(nested).replies| + retry.maxRetries + 1
      ensures slept <= old(slept) + Rests(retry.maxRetries, retry.Ceiling())
      ensures !canRefresh ==> !ok && nested == old(nested) && breaker.Phase() == old(breaker.Phase())
      ensures canRefresh && found != tokenBefore ==> ok && nested == old(nested) && authToken == found
      ensures ok && found == tokenBefore ==> Renewed(old(nested))
      ensures alone && old(authToken) == tokenBefore && ok ==> Renewed(old(nested))
      ensures alone && !ok ==> authToken == old(authToken)
      ensures !ok && canRefresh && hasRefreshToken ==> NothingMinted(old(nested))
      ensures old(gaps) <= gaps
      decreases Depth(), 1
    {
      Grows(0, retry.maxRetries, 0, retry.Ceiling());
      if !canRefresh {
        return false, None;
      }
      Others();
      holdsLock, found := true, authToken;
      if authToken != tokenBefore {
        holdsLock := false;
        return true, found;
      }
      refreshing := true;
      ghost var outcome;
      ok, outcome := RefreshAccessToken();
      refreshing := false;
      holdsLock := false;
    }

    /** `_refresh_access_token`: a POST through this same engine, then the new token is installed. */
    method RefreshAccessToken() returns (ok: bool, ghost outcome: Outcome)
      requires Valid() && refreshing
      modifies this, breaker
      ensures Valid() && refreshing && sends >= old(sends)
      ensures direct == old(direct) && |nested.replies| <= |old(nested).replies| + retry.maxRetries + 1
      ensures slept <= old(slept) + Rests(retry.maxRetries, retry.Ceiling())
      ensures ok ==> Renewed(old(nested))
      ensures forall i :: |old(nested).replies| <= i < |nested.replies| - 1 ==>
        nested.replies[i].IsUnauthorized() || nested.replies[i].IsRateLimited()
      ensures hasRefreshToken ==>
        && ok == (outcome.Value? && outcome.token.Some?)
        && Persisted(retry, old(Books()), Books(), false, outcome)
      ensures !ok && hasRefreshToken ==> NothingMinted(old(nested))
      ensures alone && !ok ==> authToken == old(authToken)
      ensures old(gaps) <= gaps
      decreases Depth(), 9
    {
      Grows(0, retry.maxRetries, 0, retry.Ceiling());
      if !hasRefreshToken {
        return false, Raised(AuthenticationError);
      }
      ghost var before := Books();
      var response := Request(REFRESH_CALL, false);
      RefreshIsUnsafe();
      InnerBounds(before, response);
      if response.Raised? || response.token.None? {
        Unminted(before, response);
        return false, response;
      }
      authToken := response.token;
      ok, outcome := true, response;
    }

    /** What a refresh request costs. */
    lemma InnerBounds(before: Tally, r: Outcome)
      requires before.inner && Requested(retry, before, Books(), Replayable(REFRESH_CALL), r)
      ensures before.own <= Own() && |Own()| <= |before.own| + retry.maxRetries + 1
      ensures slept <= before.slept + Rests(retry.maxRetries, retry.Ceiling())
    {
      ProductOf(retry.maxRetries + 1, 0, 0.0);
    }

    /** A refresh request that ended without a token got none with its last answer. */
    lemma Unminted(before: Tally, r: Outcome)
      requires before.inner && refreshing && Requested(retry, before, Books(), Replayable(REFRESH_CALL), r)
      requires r.Raised? || r.token.None?
      ensures NothingMinted(Log(before.own, [], []))
    {
      if before.own != Own() {
        var last := Own()[|Own()| - 1];
        RetriedAnswers(last, 0, retry, true);
      }
    }

    /** A caller alone, on a closed breaker, whose every send fails in a way worth retrying. */
    ghost predicate AllFails()
      requires breaker.Valid()
      reads this, breaker
    {
      && alone && breaker.config.enabled && breaker.Phase().Closed?
      && forall n :: n >= sends ==> wire(n).IsTransient()
    }

    /** One more than `failures` is counted: the breaker opened at `when`, or is still closed. */
    ghost predicate Counted(failures: nat, when: real)
      requires breaker.Valid()
      reads this, breaker
    {
      breaker.Phase() == if failures + 1 >= breaker.config.failureThreshold then Open(when) else Closed(failures + 1)
    }

    /** The breaker around one execution.  A refusal sends nothing and is not recorded. */
    method Attempt() returns (r: Outcome)
      requires Valid()
      modifies this, breaker
      ensures Valid() && sends >= old(sends) && Attempted(retry, old(Books()), Books(), r)
      ensures alone && breaker.config.enabled ==>
        var asked := Next(breaker.config, old(breaker.Phase()), Query(old(now)));
        && (Own() == old(Own()) <==> asked.Open?)
        && (asked.Open? ==> breaker.Phase() == asked)
        && (!asked.Open? && old(NoDetour()) ==>
              && |Own()| == |old(Own())| + 1 && r == Judge(wire(old(sends)))
              && breaker.Phase() == Next(breaker.config, asked, if r.Value? then Success else Failure(now, r.error.Counts())))
      ensures old(AllFails()) ==>
        && r == Judge(wire(old(sends))) && r.Raised? && r.error.Counts()
        && Counted(old(breaker.Phase()).failures, now) && gaps == old(gaps) && |Own()| == |old(Own())| + 1
      decreases Depth(), 3
    {
      Grows(0, retry.maxRetries, 0, retry.Ceiling());
      RetriedAnswers(wire(sends), 0, retry, true);
      var allowed := breaker.IsAllowed(now);
      if !allowed {
        return Raised(CircuitBreakerOpenError);
      }
      r := ExecuteRequest(true);
      if r.Value? {
        breaker.RecordSuccess();
      } else {
        breaker.RecordFailure(now, r.error);
      }
    }

    ghost predicate GapsBelow(n: nat, limit: real)
      reads this
    {
      forall i :: n <= i < |gaps| ==> gaps[i] < limit
    }

    /** The delay the server asked for. */
    function RetryAfterOf(error: ApiError): Option<nat> {
      match error
      case RateLimitError(seconds) => Some(seconds)
      case QuotaExceededError => Some(0)
      case _ => None
    }

    /** The wait before another attempt. */
    method Pause(error: ApiError, attempt: nat, ghost answer: Reply)
      requires Valid() && 1 <= attempt && Judge(answer) == Raised(error) && (answer.IsTransient() || answer.IsRateLimited())
      modifies this`authToken, this`now, this`slept, this`gaps, this`direct, this`nested, breaker
      ensures Valid() && slept <= old(slept) + retry.Ceiling()
      ensures |gaps| == |old(gaps)| + 1 && gaps[..|old(gaps)|] == old(gaps) && now == old(now) + gaps[|gaps| - 1]
      ensures Current() == old(Current()).(waits := Current().waits)
      ensures OneMoreWait(retry, attempt, old(Current()).waits, Current().waits, answer)
      ensures gaps[|gaps| - 1] >= Current().waits[|old(Current()).waits|].delay
      ensures if refreshing then direct == old(direct) else nested == old(nested)
      ensures alone ==> authToken == old(authToken) && breaker.Phase() == old(breaker.Phase())
    {
      var delay := CalculateDelay(attempt, retry, RetryAfterOf(error));
      assert IsWait(retry, attempt, Wait(answer, delay));
      Sleep(delay, answer);
    }

    /** One turn of the retry loop: an attempt and, if another may follow, the wait before it. */
    method Turn(idempotent: bool, attempt: nat) returns (r: Outcome, again: bool)
      requires Valid() && 1 <= attempt <= retry.maxRetries + 1
      modifies this, breaker
      ensures Valid() && Turned(retry, old(Books()), Books(), idempotent, attempt, r, again)
      ensures sends >= old(sends) && (again ==> attempt <= retry.maxRetries)
      ensures alone && breaker.config.enabled ==>
        (Own() == old(Own()) <==> Next(breaker.config, old(breaker.Phase()), Query(old(now))).Open?)
      ensures idempotent && old(AllFails()) ==>
        && (again <==> attempt <= retry.maxRetries)
        && |gaps| == |old(gaps)| + (if again then 1 else 0) && gaps[..|old(gaps)|] == old(gaps)
        && Counted(old(breaker.Phase()).failures, if again then now - gaps[|gaps| - 1] else now)
        && |Own()| == |old(Own())| + 1
      decreases Depth(), 4
    {
      again := false;
      ghost var before := Books();
      r := Attempt();
      ghost var between := Books();
      if r.Value? || !ShouldRetry(r.error, attempt, retry, idempotent) {
        TurnStops(retry, before, between, idempotent, r, attempt);
        return;
      }
      ghost var answer := if Own() == before.own then TimedOut else Own()[|Own()| - 1];
      RetriedAnswers(answer, attempt, retry, idempotent);
      Pause(r.error, attempt, answer);
      TurnGoesOn(retry, before, between, Books(), idempotent, r, attempt);
      again := true;
    }

    /** How a call whose every send fails ends: after `room` more failures the breaker is open. */
    ghost predicate EndsByBreaker(start: nat, room: int, r: Outcome)
      reads this
    {
      && |Own()| == start + (if room <= retry.maxRetries then room else retry.maxRetries + 1)
      && (r == Raised(CircuitBreakerOpenError) <==> room <= retry.maxRetries)
    }

    /** A turn of a request whose every attempt fails, with what the breaker counted since it began. */
    method MeteredTurn(idempotent: bool, attempt: nat, ghost own: nat, ghost waits: nat, ghost failing: bool, ghost failures: nat)
      returns (r: Outcome, again: bool)
      requires Valid() && 1 <= attempt <= retry.maxRetries + 1
      requires failing ==> idempotent && alone && breaker.config.enabled
      requires failing && GapsBelow(waits, breaker.config.timeout) ==> FailedSoFar(own, failures, attempt - 1)
      requires failing ==> waits <= |gaps|
      modifies this, breaker
      ensures Valid() && Turned(retry, old(Books()), Books(), idempotent, attempt, r, again)
      ensures sends >= old(sends) && (again ==> attempt <= retry.maxRetries)
      ensures failing && GapsBelow(waits, breaker.config.timeout) ==>
        if again then FailedSoFar(own, failures, attempt)
        else EndsByBreaker(own, breaker.config.failureThreshold - failures, r)
      decreases Depth(), 5
    {
      ghost var before := gaps;
      r, again := Turn(idempotent, attempt);
      if failing && GapsBelow(waits, breaker.config.timeout) {
        assert before <= gaps;
        assert forall i :: waits <= i < |before| ==> before[i] == gaps[i];
        assert old(GapsBelow(waits, breaker.config.timeout));
      }
    }

    /** A turn, with the account of the request since it began at `start`, with `failures` counted failures. */
    method CountedTurn(idempotent: bool, attempt: nat, ghost start: Tally, ghost failing: bool, ghost failures: nat)
      returns (r: Outcome, again: bool)
      requires Valid() && 1 <= attempt <= retry.maxRetries + 1
      requires SoFar(retry, start, Books(), idempotent, attempt - 1)
      requires failing ==> idempotent && alone && breaker.config.enabled
      requires failing && GapsBelow(|start.gaps|, breaker.config.timeout) ==>
        FailedSoFar(|start.own|, failures, attempt - 1)
      modifies this, breaker
      ensures Valid() && sends >= old(sends) && (again ==> attempt <= retry.maxRetries)
      ensures again ==> SoFar(retry, start, Books(), idempotent, attempt)
      ensures !again ==> Requested(retry, start, Books(), idempotent, r) && Persisted(retry, start, Books(), idempotent, r)
      ensures failing && GapsBelow(|start.gaps|, breaker.config.timeout) ==>
        if again then FailedSoFar(|start.own|, failures, attempt)
        else EndsByBreaker(|start.own|, breaker.config.failureThreshold - failures, r)
      decreases Depth(), 6
    {
      ghost var before := Books();
      r, again := MeteredTurn(idempotent, attempt, |start.own|, |start.gaps|, failing, failures);
      CountTurn(retry, start, before, Books(), idempotent, attempt - 1, r, again);
    }

    /** The retry loop.  The code after it is never reached. */
    method WithRetry(idempotent: bool) returns (r: Outcome)
      requires Valid()
      modifies this, breaker
      ensures Valid() && sends >= old(sends) && Requested(retry, old(Books()), Books(), idempotent, r)
      ensures Persisted(retry, old(Books()), Books(), idempotent, r)
      ensures idempotent && old(AllFails()) && GapsBelow(|old(gaps)|, breaker.config.timeout) ==>
        EndsByBreaker(|old(Own())|, breaker.config.failureThreshold - old(breaker.Phase()).failures, r)
      decreases Depth(), 7
    {
      r := Raised(ForeignError);
      ghost var start := Books();
      ghost var failures := if breaker.Phase().Closed? then breaker.Phase().failures else 0;
      ghost var failing := idempotent && AllFails();
      var attempt := 1;
      while attempt < retry.maxRetries + 2
        invariant Valid() && 1 <= attempt <= retry.maxRetries + 1 && sends >= old(sends)
        invariant SoFar(retry, start, Books(), idempotent, attempt - 1)
        invariant failing && GapsBelow(|start.gaps|, breaker.config.timeout) ==>
          FailedSoFar(|start.own|, failures, attempt - 1)
      {
        var again;
        r, again := CountedTurn(idempotent, attempt, start, failing, failures);
        if !again {
          return;
        }
        attempt := attempt + 1;
      }
      assert false;
    }

    /**
     A whole request.  Every own send but the last was answered in a way that allows
     another; the sends are bounded; the result is what the last send means, unless the
     breaker refused one.  A write nobody vouches for is sent again only after an answer that
     says it was not processed; any other request is retried to the end of its budget.
     */
    method Request(call: Call, skipRetry: bool) returns (r: Outcome)
      requires Valid()
      modifies this, breaker
      ensures Valid() && sends >= old(sends) && Requested(retry, old(Books()), Books(), Replayable(call), r)
      ensures sends <= old(sends) + SendLimit(retry.maxRetries)
      ensures IsUnsafeWrite(call) ==>
        forall i :: |old(Own())| <= i < |Own()| - 1 ==> Own()[i].IsUnauthorized() || Own()[i].IsRateLimited()
      ensures !skipRetry ==> Persisted(retry, old(Books()), Books(), Replayable(call), r)
      ensures skipRetry ==> |Own()| <= |old(Own())| + 2 && Current().waits == old(Current()).waits
      ensures old(AllFails()) && Replayable(call) && !skipRetry && GapsBelow(|old(gaps)|, breaker.config.timeout) ==>
        EndsByBreaker(|old(Own())|, breaker.config.failureThreshold - old(breaker.Phase()).failures, r)
      decreases Depth(), 8
    {
      ghost var start := Books();
      ReplayedCalls(call);
      if skipRetry {
        r := Attempt();
        AttemptIsRequest(retry, start, Books(), Replayable(call), r);
      } else {
        r := WithRetry(call.IsIdempotent());
      }
      UnsafeWritesActOnce(retry, start, Books(), call, r);
    }

    /** After `n` failed turns the breaker counted them all, and the `threshold`-th opened it. */
    ghost predicate FailedSoFar(start: nat, failures: nat, n: nat)
      requires breaker.Valid()
      reads this, breaker
    {
      var seen, threshold := failures + n, breaker.config.failureThreshold;
      && |Own()| == start + n
      && seen <= threshold
      && (seen < threshold ==> breaker.Phase() == Closed(seen) && AllFails())
      && (seen == threshold ==>
            breaker.Phase().Open? && now - breaker.Phase().latest < breaker.config.timeout)
    }
  }

  /** Two own sends a turn, and one nested request of at most `maxRetries + 1` sends. */
  function SendLimit(maxRetries: nat): nat {
    2 * (maxRetries + 1) + Times(maxRetries + 1, maxRetries + 1)
  }

  /** The bounds of a request, as products. */
  lemma RequestBounds(cfg: RetryConfig)
    ensures SendLimit(cfg.maxRetries) == (cfg.maxRetries + 1) * (cfg.maxRetries + 3)
    ensures Rests(cfg.maxRetries, cfg.Ceiling()) == cfg.maxRetries as real * (1.25 * cfg.maxDelay)
    ensures Rests(cfg.maxRetries + 1, Rests(cfg.maxRetries, cfg.Ceiling())) ==
      (cfg.maxRetries + 1) as real * (cfg.maxRetries as real * (1.25 * cfg.maxDelay))
  {
    var n := cfg.maxRetries + 1;
    ProductOf(n, n, 0.0);
    ProductOf(cfg.maxRetries, 0, cfg.Ceiling());
    ProductOf(n, 0, Rests(cfg.maxRetries, cfg.Ceiling()));
    assert n * (n + 2) == n * n + 2 * n;
  }
}
