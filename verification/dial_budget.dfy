/**
 The dial budget of the WebSocket clients.  A socket that merely opened proves nothing: the
 budget comes back only after ten seconds of uptime.

 Here a report of a dead socket is handled in one go; `DialRaces` lets reports overlap.
 */
module DialBudget {
  import opened Wrappers
  import opened Bounds

  const STABLE_SECONDS := 10.0

  datatype ConnectionState = Disconnected | Connecting | Connected | Reconnecting

  datatype Options = Options(autoReconnect: bool, maxAttempts: nat, delay: real, maxDelay: real, unified: bool) {
    predicate Valid() {
      delay >= 0.0 && maxDelay >= 0.0
    }
  }

  /** What the reconnect logic keeps, and how many timers are pending. */
  datatype Link = Link(state: ConnectionState, attempts: nat, connectedAt: Option<real>, timers: nat)

  /** How a scheduled dial went; `rejected`: a SpooledError that retrying cannot help. */
  datatype Dial = Opened | Refused(rejected: bool)

  datatype Event =
    | Dropped(now: real)               // a thread reported the socket dead
    | TimerFired(dial: Dial, now: real)

  predicate IsStable(l: Link, now: real) {
    l.connectedAt.Some? && now - l.connectedAt.value >= STABLE_SECONDS
  }

  /** `_reset_budget_if_stable` */
  function ResetIfStable(l: Link, now: real): Link {
    l.(connectedAt := None, attempts := if IsStable(l, now) then 0 else l.attempts)
  }

  predicate MayDial(o: Options, l: Link) {
    o.autoReconnect && l.attempts < o.maxAttempts
  }

  /** `_handle_disconnect` */
  function AfterDrop(o: Options, l: Link, now: real): Link {
    var r := ResetIfStable(l, now);
    if MayDial(o, r) then r.(state := Reconnecting, attempts := r.attempts + 1, timers := r.timers + 1)
    else r.(state := ConnectionState.Disconnected)
  }

  /** The unified client reconnects through `connect`, which does nothing in these states. */
  predicate AlreadyConnected(o: Options, l: Link) {
    o.unified && (l.state == Connected || l.state == Connecting)
  }

  /** `do_reconnect`, with the outcome of its dial; only the unified client gives up on a rejection. */
  function AfterDial(o: Options, l: Link, dial: Dial, now: real): Link {
    var fired := l.(timers := if l.timers > 0 then l.timers - 1 else 0);
    if AlreadyConnected(o, l) then fired
    else match dial
    case Opened => fired.(state := Connected, connectedAt := Some(now))
    case Refused(rejected) =>
      if o.unified && rejected then fired.(state := ConnectionState.Disconnected)
      else AfterDrop(o, fired, now)
  }

  function Next(o: Options, l: Link, e: Event): Link {
    match e
    case Dropped(now) => AfterDrop(o, l, now)
    case TimerFired(dial, now) => AfterDial(o, l, dial, now)
  }

  function Run(o: Options, l: Link, es: seq<Event>): Link {
    if es == [] then l else Next(o, Run(o, l, es[..|es| - 1]), es[|es| - 1])
  }

  /** Does this event pass through `_handle_disconnect`? */
  predicate Fails(o: Options, l: Link, e: Event) {
    e.TimerFired? ==> !AlreadyConnected(o, l) && e.dial.Refused? && !(o.unified && e.dial.rejected)
  }

  predicate Schedules(o: Options, l: Link, e: Event) {
    Fails(o, l, e) && MayDial(o, ResetIfStable(l, e.now))
  }

  /** Dials scheduled in a run. */
  function Dials(o: Options, l: Link, es: seq<Event>): nat {
    if es == [] then 0
    else var n := |es| - 1;
      Dials(o, l, es[..n]) + if Schedules(o, Run(o, l, es[..n]), es[n]) then 1 else 0
  }

  /** How often a run found a socket that had stayed up. */
  function StableSockets(o: Options, l: Link, es: seq<Event>): nat {
    if es == [] then 0
    else var n := |es| - 1;
      StableSockets(o, l, es[..n]) + if Fails(o, Run(o, l, es[..n]), es[n]) && IsStable(Run(o, l, es[..n]), es[n].now) then 1 else 0
  }

  function Failures(o: Options, l: Link, es: seq<Event>): nat {
    if es == [] then 0
    else var n := |es| - 1;
      Failures(o, l, es[..n]) + if Fails(o, Run(o, l, es[..n]), es[n]) then 1 else 0
  }

  /** Whatever happens and in whatever order, each full budget is earned by ten seconds of uptime. */
  lemma {:induction false} DialsAreEarned(o: Options, l: Link, es: seq<Event>)
    requires l.attempts <= o.maxAttempts
    ensures Run(o, l, es).attempts <= o.maxAttempts
    ensures Dials(o, l, es) + l.attempts <= Times(StableSockets(o, l, es), o.maxAttempts) + Run(o, l, es).attempts
    decreases |es|
  {
    if es != [] {
      DialsAreEarned(o, l, es[..|es| - 1]);
    }
  }

  /** While no socket stays up, a run dials at most `maxAttempts` times. */
  lemma FlappingIsBounded(o: Options, l: Link, es: seq<Event>)
    requires l.attempts <= o.maxAttempts && StableSockets(o, l, es) == 0
    ensures Dials(o, l, es) <= o.maxAttempts - l.attempts
  {
    DialsAreEarned(o, l, es);
  }

  // ---- The uptime of a reconnected socket -------------------------------------------------------------------

  /** Timers of the unified client, which finds itself connected. */
  predicate Ignored(o: Options, es: seq<Event>) {
    es == [] || (Ignored(o, es[..|es| - 1]) && o.unified && es[|es| - 1].TimerFired?)
  }

  lemma {:induction false} IgnoredDials(o: Options, l: Link, es: seq<Event>, t: real)
    requires Ignored(o, es) && l.state == Connected && l.connectedAt == Some(t)
    ensures Run(o, l, es).state == Connected && Run(o, l, es).connectedAt == Some(t) && Run(o, l, es).attempts == l.attempts
    decreases |es|
  {
    if es != [] { IgnoredDials(o, l, es[..|es| - 1], t); }
  }

  lemma {:induction false} RunBoth(o: Options, l: Link, first: seq<Event>, second: seq<Event>)
    ensures Run(o, l, first + second) == Run(o, Run(o, l, first), second)
    decreases |second|
  {
    if second == [] {
      assert first + second == first;
    } else {
      var n := |second| - 1;
      assert (first + second)[..|first| + n] == first + second[..n];
      RunBoth(o, l, first, second[..n]);
    }
  }

  /**
   A socket that a reconnect opened restores the budget exactly when it is up for ten
   seconds before it drops, in either client; timers that fire meanwhile on the unified
   client change nothing about that.
   */
  lemma UptimeDecides(o: Options, l: Link, up: real, meanwhile: seq<Event>, down: real)
    requires o.autoReconnect && o.maxAttempts >= 1 && !AlreadyConnected(o, l)
    requires Ignored(o, meanwhile)
    ensures var r := Run(o, l, [TimerFired(Opened, up)] + meanwhile + [Dropped(down)]);
      && (down - up >= 10.0 ==> r.state == Reconnecting && r.attempts == 1)
      && (down - up < 10.0 ==>
            if l.attempts < o.maxAttempts then r.state == Reconnecting && r.attempts == l.attempts + 1
            else r.state == ConnectionState.Disconnected && r.attempts == l.attempts)
  {
    var first := [TimerFired(Opened, up)];
    assert first[..0] == [] && Run(o, l, first) == AfterDial(o, l, Opened, up);
    RunBoth(o, l, first, meanwhile);
    IgnoredDials(o, Run(o, l, first), meanwhile, up);
    assert (first + meanwhile + [Dropped(down)])[..|first + meanwhile|] == first + meanwhile;
  }

  /** A dial is pending exactly while the client says it is reconnecting. */
  predicate OneTimer(l: Link) {
    l.timers == if l.state == Reconnecting then 1 else 0
  }

  /** Each dead socket is reported once, before any dial for it is pending, and only a pending timer fires. */
  predicate Orderly(o: Options, l: Link, es: seq<Event>) {
    es == [] ||
    var n := |es| - 1;
    && Orderly(o, l, es[..n])
    && var before := Run(o, l, es[..n]);
      match es[n]
      case Dropped(_) => before.state == Connected && before.timers == 0
      case TimerFired(_, _) => before.timers > 0
  }

  /** The run ends in a rejection that only the unified client takes as final. */
  predicate Rejected(o: Options, es: seq<Event>) {
    es != [] && var e := es[|es| - 1]; o.unified && e.TimerFired? && e.dial.Refused? && e.dial.rejected
  }

  /**
   When each dead socket is reported once: from an open socket with a full budget, every
   failure up to the `maxAttempts`-th schedules a dial, and the client gives up exactly at
   the next one or at a rejection, for good: no timer is pending then.
   */
  lemma {:induction false} GivesUpExactlyWhenSpent(o: Options, l: Link, es: seq<Event>)
    requires o.autoReconnect && l.state == Connected && l.attempts == 0 && l.timers == 0
    requires Orderly(o, l, es) && StableSockets(o, l, es) == 0
    ensures Failures(o, l, es) <= o.maxAttempts + 1
    ensures Dials(o, l, es) == Run(o, l, es).attempts
    ensures Run(o, l, es).attempts == if Failures(o, l, es) <= o.maxAttempts then Failures(o, l, es) else o.maxAttempts
    ensures Run(o, l, es).state == ConnectionState.Disconnected <==>
      Failures(o, l, es) == o.maxAttempts + 1 || Rejected(o, es)
    ensures OneTimer(Run(o, l, es))
    ensures Run(o, l, es).state != Connecting
    decreases |es|
  {
    if es != [] {
      GivesUpExactlyWhenSpent(o, l, es[..|es| - 1]);
    }
  }

  /**
   However often a dead socket is reported, while no socket stays up the dials scheduled are
   the failures, up to the budget.
   */
  lemma {:induction false} DialsCountFailures(o: Options, l: Link, es: seq<Event>)
    requires o.autoReconnect && l.attempts <= o.maxAttempts && StableSockets(o, l, es) == 0
    ensures Run(o, l, es).attempts == l.attempts + Dials(o, l, es)
    ensures var room := o.maxAttempts - l.attempts;
      Dials(o, l, es) == if Failures(o, l, es) <= room then Failures(o, l, es) else room
    decreases |es|
  {
    if es != [] { DialsCountFailures(o, l, es[..|es| - 1]); }
  }

  /**
   A report leaves one timer for RECONNECTING and none for DISCONNECTED if and only if it
   finds no timer pending.  A second report that finds the budget spent says DISCONNECTED
   while a dial is pending that can connect again; any other starts a second timer.
   */
  lemma SecondReport(o: Options, l: Link, now: real)
    requires o.autoReconnect && !IsStable(l, now)
    ensures OneTimer(AfterDrop(o, l, now)) <==> l.timers == 0
    ensures l.timers > 0 && l.attempts >= o.maxAttempts ==>
      var t := AfterDrop(o, l, now);
      t.state == ConnectionState.Disconnected && t.timers > 0 && AfterDial(o, t, Opened, now).state == Connected
    ensures l.timers > 0 && l.attempts < o.maxAttempts ==> AfterDrop(o, l, now).timers == l.timers + 1
  {
  }

  /** With one attempt allowed, two reports of one dead socket reach that state. */
  lemma TwoReportsOfOneSocket(o: Options, l: Link, now: real)
    requires o.autoReconnect && o.maxAttempts == 1 && l == Link(Connected, 0, Some(now), 0)
    ensures var es := [Dropped(now), Dropped(now)];
      Run(o, l, es).state == ConnectionState.Disconnected && Run(o, l, es).timers == 1
    ensures Run(o, l, [Dropped(now), Dropped(now), TimerFired(Opened, now)]).state == Connected
  {
    var es := [Dropped(now), Dropped(now)];
    assert es[..1] == [Dropped(now)] && es[..1][..0] == [];
    assert Run(o, l, es[..1]) == Next(o, l, Dropped(now));
    assert (es + [TimerFired(Opened, now)])[..2] == es;
    assert es + [TimerFired(Opened, now)] == [Dropped(now), Dropped(now), TimerFired(Opened, now)];
  }

  /** The backoff before the `attempt`-th dial, without jitter. */
  function Base(o: Options, attempt: nat): real
    requires attempt >= 1
  {
    var doubled := Doubled(o.delay, attempt - 1);
    if doubled <= o.maxDelay then doubled else o.maxDelay
  }

  /** Jitter lengthens a delay by up to a quarter. */
  predicate IsDelay(o: Options, attempt: nat, delay: real)
    requires attempt >= 1
  {
    Base(o, attempt) <= delay <= 1.25 * Base(o, attempt)
  }

  /** Delays start at the configured one, do not shrink and stay within 1.25 times the configured maximum. */
  lemma DelayBounds(o: Options, attempt: nat, delay: real)
    requires attempt >= 1 && o.Valid() && IsDelay(o, attempt, delay)
    ensures 0.0 <= delay <= 1.25 * o.maxDelay
    ensures Base(o, attempt) <= Base(o, attempt + 1)
    ensures o.delay <= o.maxDelay ==> Base(o, 1) == o.delay <= delay
  {
    DoubledGrows(o.delay, attempt - 1, attempt);
  }

  /** Each delay is twice the one before, up to the maximum. */
  lemma DelayDoubles(o: Options, attempt: nat)
    requires attempt >= 1 && o.Valid()
    ensures Base(o, attempt + 1) == (if 2.0 * Base(o, attempt) <= o.maxDelay then 2.0 * Base(o, attempt) else o.maxDelay)
  {
  }
}
