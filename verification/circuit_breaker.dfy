/**
 The circuit breaker: the mutable object of the source, the three-phase machine it
 refines, and what that machine says about the history of calls.
 */
module CircuitBreakers {
  import opened Wrappers
  import opened Errors

  datatype BreakerConfig = BreakerConfig(enabled: bool, failureThreshold: nat, successThreshold: nat, timeout: real) {
    predicate Valid() {
      failureThreshold >= 1 && successThreshold >= 1 && timeout > 0.0
    }
  }

  /** Only what matters in each phase: the object's other counters are stale there. */
  datatype Phase = Closed(failures: nat) | Open(latest: real) | HalfOpen(successes: nat)

  datatype Event = Query(now: real) | Success | Failure(now: real, counted: bool) | Reset

  function Next(cfg: BreakerConfig, p: Phase, ev: Event): Phase {
    match ev
    case Query(now) => if p.Open? && now - p.latest >= cfg.timeout then HalfOpen(0) else p
    case Success =>
      if !cfg.enabled then p
      else (match p
        case Closed(_) => Closed(0)
        case Open(_) => p
        case HalfOpen(n) => if n + 1 >= cfg.successThreshold then Closed(0) else HalfOpen(n + 1))
    case Failure(now, counted) =>
      if !cfg.enabled || !counted then p
      else (match p
        case Closed(k) => if k + 1 >= cfg.failureThreshold then Open(now) else Closed(k + 1)
        case Open(_) => Open(now)
        case HalfOpen(_) => Open(now))
    case Reset => Closed(0)
  }

  // ---- The object ----------------------------------------------------------------------------------

  datatype CircuitState = CLOSED | OPEN | HALF_OPEN

  class CircuitBreaker {
    const config: BreakerConfig
    var state: CircuitState
    var failureCount: nat
    var successCount: nat
    var lastFailureTime: Option<real>

    ghost predicate Valid()
      reads this
    {
      && config.Valid()
      && (state.CLOSED? ==> failureCount < config.failureThreshold)
      && (state.OPEN? ==> lastFailureTime.Some?)
      && (state.HALF_OPEN? ==> successCount < config.successThreshold)
    }

    ghost function Phase(): Phase
      requires Valid()
      reads this
    {
      match state
      case CLOSED => Closed(failureCount)
      case OPEN => Open(lastFailureTime.value)
      case HALF_OPEN => HalfOpen(successCount)
    }

    constructor (config: BreakerConfig)
      requires config.Valid()
      ensures Valid() && Phase() == Closed(0) && this.config == config
    {
      this.config := config;
      state, failureCount, successCount, lastFailureTime := CLOSED, 0, 0, None;
    }

    method GetState(now: real) returns (s: CircuitState)
      requires Valid()
      modifies this
      ensures Valid() && Phase() == Next(config, old(Phase()), Query(now)) && s == state
    {
      if state == OPEN {
        if lastFailureTime.Some? {
          var elapsed := now - lastFailureTime.value;
          if elapsed >= config.timeout {
            state := HALF_OPEN;
            successCount := 0;
          }
        }
      }
      s := state;
    }

    method IsAllowed(now: real) returns (allowed: bool)
      requires Valid()
      modifies this
      ensures Valid()
      ensures Phase() == if config.enabled then Next(config, old(Phase()), Query(now)) else old(Phase())
      ensures allowed <==> !config.enabled || !Phase().Open?
    {
      if !config.enabled {
        return true;
      }
      var s := GetState(now);
      allowed := s != OPEN;
    }

    method RecordSuccess()
      requires Valid()
      modifies this
      ensures Valid() && Phase() == Next(config, old(Phase()), Success)
    {
      if !config.enabled {
        return;
      }
      if state == HALF_OPEN {
        successCount := successCount + 1;
        if successCount >= config.successThreshold {
          state := CLOSED;
          failureCount := 0;
          successCount := 0;
        }
      } else if state == CLOSED {
        failureCount := 0;
      }
    }

    method RecordFailure(now: real, error: ApiError)
      requires Valid()
      modifies this
      ensures Valid() && Phase() == Next(config, old(Phase()), Failure(now, error.Counts()))
    {
      if !config.enabled {
        return;
      }
      if error.IsSpooled() && !error.IsRetryable() {
        return;
      }
      failureCount := failureCount + 1;
      lastFailureTime := Some(now);
      if state == HALF_OPEN {
        state := OPEN;
      } else if state == CLOSED {
        if failureCount >= config.failureThreshold {
          state := OPEN;
        }
      }
    }

    method ResetBreaker()
      requires Valid()
      modifies this
      ensures Valid() && Phase() == Next(config, old(Phase()), Reset)
    {
      state := CLOSED;
      failureCount := 0;
      successCount := 0;
      lastFailureTime := None;
    }
  }

  // ---- What the phase says about the history -----------------------------------------------------------

  /** The phase after a history of events, oldest first. */
  function PhaseAfter(cfg: BreakerConfig, h: seq<Event>): Phase {
    if h == [] then Closed(0) else Next(cfg, PhaseAfter(cfg, h[..|h| - 1]), h[|h| - 1])
  }

  predicate IsCounted(ev: Event) {
    ev.Failure? && ev.counted
  }

  function CountedFailures(h: seq<Event>): nat {
    if h == [] then 0
    else CountedFailures(h[..|h| - 1]) + (if IsCounted(h[|h| - 1]) then 1 else 0)
  }

  function Successes(h: seq<Event>): nat {
    if h == [] then 0
    else Successes(h[..|h| - 1]) + (if h[|h| - 1].Success? then 1 else 0)
  }

  /** The time of the last counted failure. */
  function LatestCounted(h: seq<Event>): Option<real> {
    if h == [] then None
    else if IsCounted(h[|h| - 1]) then Some(h[|h| - 1].now)
    else LatestCounted(h[..|h| - 1])
  }

  predicate NoneClears(h: seq<Event>) {
    forall i :: 0 <= i < |h| ==> !h[i].Success? && !h[i].Reset?
  }

  predicate NoneTrips(h: seq<Event>) {
    forall i :: 0 <= i < |h| ==> !IsCounted(h[i]) && !h[i].Reset?
  }

  /**
   From a cleared breaker, with no success or reset since: closed exactly while fewer than
   `failureThreshold` failures counted, and then with that count.
   */
  lemma {:induction false} ClosedWhileBelowThreshold(cfg: BreakerConfig, h: seq<Event>, since: nat)
    requires cfg.Valid() && cfg.enabled && since <= |h|
    requires PhaseAfter(cfg, h[..since]) == Closed(0) && NoneClears(h[since..])
    ensures var k := CountedFailures(h[since..]);
      && (k < cfg.failureThreshold ==> PhaseAfter(cfg, h) == Closed(k))
      && (k >= cfg.failureThreshold ==> !PhaseAfter(cfg, h).Closed?)
    decreases |h|
  {
    if since == |h| {
      assert h[..since] == h;
    } else {
      var n := |h| - 1;
      assert h[..n][..since] == h[..since];
      assert h[since..][..n - since] == h[..n][since..];
      assert h[since..][n - since] == h[n];
      ClosedWhileBelowThreshold(cfg, h[..n], since);
    }
  }

  /** A closed breaker was cleared at some point, by a success or reset or by starting, and not since. */
  lemma {:induction false} ClosedWasCleared(cfg: BreakerConfig, h: seq<Event>) returns (since: nat)
    requires cfg.Valid() && cfg.enabled && PhaseAfter(cfg, h).Closed?
    ensures since <= |h| && PhaseAfter(cfg, h[..since]) == Closed(0) && NoneClears(h[since..])
    ensures since == 0 || h[since - 1].Success? || h[since - 1].Reset?
    ensures PhaseAfter(cfg, h) == Closed(CountedFailures(h[since..]))
    ensures CountedFailures(h[since..]) < cfg.failureThreshold
    decreases |h|
  {
    if h == [] {
      since := 0;
    } else {
      var n := |h| - 1;
      if h[n].Success? || h[n].Reset? {
        since := |h|;
        assert h[..since] == h;
      } else {
        since := ClosedWasCleared(cfg, h[..n]);
        assert h[..n][..since] == h[..since];
        assert forall i :: 0 <= i < n - since ==> h[since..][i] == h[..n][since..][i];
        assert h[since..][n - since] == h[n];
      }
    }
    ClosedWhileBelowThreshold(cfg, h, since);
  }

  /** An open breaker remembers its latest counted failure. */
  lemma {:induction false} OpenSinceLatestFailure(cfg: BreakerConfig, h: seq<Event>)
    requires cfg.Valid() && cfg.enabled && PhaseAfter(cfg, h).Open?
    ensures LatestCounted(h) == Some(PhaseAfter(cfg, h).latest)
  {
    if h != [] {
      var n := |h| - 1;
      if !IsCounted(h[n]) { OpenSinceLatestFailure(cfg, h[..n]); }
    }
  }

  /** It is left exactly by a reset or by a query at least `timeout` after that failure. */
  lemma OpenIsLeftOnlyAfterTimeout(cfg: BreakerConfig, h: seq<Event>, ev: Event)
    requires cfg.Valid() && cfg.enabled && PhaseAfter(cfg, h).Open?
    ensures LatestCounted(h).Some?
    ensures !PhaseAfter(cfg, h + [ev]).Open? <==>
      ev.Reset? || (ev.Query? && ev.now - LatestCounted(h).value >= cfg.timeout)
  {
    OpenSinceLatestFailure(cfg, h);
    assert (h + [ev])[..|h|] == h;
  }

  /**
   From a breaker that just became half-open, with no counted failure or reset since:
   still half-open exactly while fewer than `successThreshold` calls succeeded, then closed.
   */
  lemma {:induction false} HalfOpenUntilEnoughSuccesses(cfg: BreakerConfig, h: seq<Event>, since: nat)
    requires cfg.Valid() && cfg.enabled && since <= |h|
    requires PhaseAfter(cfg, h[..since]) == HalfOpen(0) && NoneTrips(h[since..])
    ensures var n := Successes(h[since..]);
      PhaseAfter(cfg, h) == if n < cfg.successThreshold then HalfOpen(n) else Closed(0)
    decreases |h|
  {
    if since == |h| {
      assert h[..since] == h;
    } else {
      var n := |h| - 1;
      assert h[..n][..since] == h[..since];
      assert h[since..][..n - since] == h[..n][since..];
      assert h[since..][n - since] == h[n];
      HalfOpenUntilEnoughSuccesses(cfg, h[..n], since);
    }
  }

  /** A half-open breaker was opened by a query, and neither tripped nor reset since. */
  lemma {:induction false} HalfOpenWasQueried(cfg: BreakerConfig, h: seq<Event>) returns (since: nat)
    requires cfg.Valid() && cfg.enabled && PhaseAfter(cfg, h).HalfOpen?
    ensures 0 < since <= |h| && h[since - 1].Query? && PhaseAfter(cfg, h[..since - 1]).Open?
    ensures PhaseAfter(cfg, h[..since]) == HalfOpen(0) && NoneTrips(h[since..])
    ensures PhaseAfter(cfg, h) == HalfOpen(Successes(h[since..]))
    decreases |h|
  {
    since := |h|;
    assert h[..since] == h;
    if h != [] {
      var n := |h| - 1;
      if !PhaseAfter(cfg, h[..n]).Open? {
        since := HalfOpenWasQueried(cfg, h[..n]);
        assert h[..n][..since] == h[..since] && h[..n][..since - 1] == h[..since - 1];
        assert forall i :: 0 <= i < n - since ==> h[since..][i] == h[..n][since..][i];
        assert h[since..][n - since] == h[n];
      }
      HalfOpenUntilEnoughSuccesses(cfg, h, since);
    }
  }

  /** A disabled breaker never opens. */
  lemma {:induction false} DisabledNeverOpens(cfg: BreakerConfig, h: seq<Event>)
    requires !cfg.enabled
    ensures PhaseAfter(cfg, h) == Closed(0)
    decreases |h|
  {
    if h != [] { DisabledNeverOpens(cfg, h[..|h| - 1]); }
  }
}
