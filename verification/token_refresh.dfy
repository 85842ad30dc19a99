/**
 Single-flight token refresh: any number of threads sending requests, getting 401, and
 refreshing the shared token under one lock.  `auth_before` and the header read the token
 in two steps, so another thread's refresh may fall between them.  The asyncio client runs
 the same steps with tasks for threads and a context variable for the mark.

 Tokens are numbered in the order the server mints them: a fresh token never repeats.
 */
module TokenRefresh {
  import opened Wrappers

  type ThreadId = nat
  type Token = nat

  /** A token exchange that succeeded.  `proactive`: started by `refresh_now`, not by a 401. */
  datatype Exchange = Exchange(from: Token, to: Token, proactive: bool)

  datatype Client = Client(
    token: Token,
    minted: nat,
    lock: Option<ThreadId>,
    rejected: set<Token>,          // tokens some request was sent with and got 401 for
    exchanges: seq<Exchange>)

  /** Where a thread is.  `before` is the token it read first, as `auth_before`. */
  datatype Pc =
    | Idle
    | HasRead(before: Token, mayRefresh: bool)
    | OnWire(before: Token, header: Token, mayRefresh: bool)
    | Wanting(before: Token, proactive: bool)
    | Holding(before: Token, proactive: bool)
    | Calling(before: Token, proactive: bool)
    | NestedOnWire(before: Token, header: Token, proactive: bool)
    | Minted(before: Token, newer: Token, proactive: bool)
    | Leaving(ok: bool, proactive: bool)
    | Releasing(ok: bool, proactive: bool)

  /** `active` is the thread-local mark that keeps the refresh call from refreshing. */
  datatype Thread = Thread(pc: Pc, active: bool)

  datatype Action =
    | Begins
    | BuildsHeader
    | Gets401
    | GetsOther
    | RefreshesNow
    | Acquires
    | Compares
    | NestedSends
    | NestedGets401
    | NestedFails(again: bool)
    | NestedSucceeds
    | Installs
    | ClearsMark
    | Releases

  datatype System = System(client: Client, threads: map<ThreadId, Thread>)

  predicate Enabled(c: Client, t: Thread, a: Action) {
    match a
    case Begins => t.pc.Idle?
    case BuildsHeader => t.pc.HasRead?
    case Gets401 => t.pc.OnWire?
    case GetsOther => t.pc.OnWire?
    case RefreshesNow => t.pc.Idle?
    case Acquires => t.pc.Wanting? && c.lock.None?
    case Compares => t.pc.Holding?
    case NestedSends => t.pc.Calling?
    case NestedGets401 => t.pc.NestedOnWire?
    case NestedFails(_) => t.pc.NestedOnWire?
    case NestedSucceeds => t.pc.NestedOnWire?
    case Installs => t.pc.Minted?
    case ClearsMark => t.pc.Leaving?
    case Releases => t.pc.Releasing?
  }

  /** A 401: enter `_try_refresh_token` unless this send may not refresh or this thread already is. */
  predicate EntersRefresh(t: Thread, mayRefresh: bool) {
    mayRefresh && !t.active
  }

  function ClientAfter(c: Client, id: ThreadId, t: Thread, a: Action): Client
    requires Enabled(c, t, a)
  {
    match a
    case Gets401 => c.(rejected := c.rejected + {t.pc.header})
    case Acquires => c.(lock := Some(id))
    case NestedSucceeds => c.(minted := c.minted + 1)
    case Installs =>
      c.(token := t.pc.newer, exchanges := c.exchanges + [Exchange(c.token, t.pc.newer, t.pc.proactive)])
    case Releases => c.(lock := None)
    case _ => c
  }

  function ThreadAfter(c: Client, t: Thread, a: Action): Thread
    requires Enabled(c, t, a)
  {
    match a
    case Begins => t.(pc := HasRead(c.token, true))
    case BuildsHeader => t.(pc := OnWire(t.pc.before, c.token, t.pc.mayRefresh))
    case Gets401 => t.(pc := if EntersRefresh(t, t.pc.mayRefresh) then Wanting(t.pc.before, false) else Idle)
    case GetsOther => t.(pc := Idle)
    case RefreshesNow => t.(pc := Wanting(c.token, true))
    case Acquires => t.(pc := Holding(t.pc.before, t.pc.proactive))
    case Compares =>
      if c.token != t.pc.before then t.(pc := Leaving(true, t.pc.proactive))
      else Thread(Calling(t.pc.before, t.pc.proactive), true)
    case NestedSends => t.(pc := NestedOnWire(t.pc.before, c.token, t.pc.proactive))
    case NestedGets401 =>
      t.(pc := if EntersRefresh(t, true) then Wanting(t.pc.header, false) else Leaving(false, t.pc.proactive))
    case NestedFails(again) =>
      t.(pc := if again then Calling(t.pc.before, t.pc.proactive) else Leaving(false, t.pc.proactive))
    case NestedSucceeds => t.(pc := Minted(t.pc.before, c.minted, t.pc.proactive))
    case Installs => t.(pc := Leaving(true, t.pc.proactive))
    case ClearsMark => Thread(Releasing(t.pc.ok, t.pc.proactive), false)
    // A successful refresh replays the request once, with the token of that moment.
    case Releases => t.(pc := if t.pc.ok && !t.pc.proactive then HasRead(c.token, false) else Idle)
  }

  predicate StepEnabled(s: System, id: ThreadId, a: Action) {
    id in s.threads && Enabled(s.client, s.threads[id], a)
  }

  function Step(s: System, id: ThreadId, a: Action): System
    requires StepEnabled(s, id, a)
  {
    System(ClientAfter(s.client, id, s.threads[id], a),
           s.threads[id := ThreadAfter(s.client, s.threads[id], a)])
  }

  /** Any number of idle threads, no refresh yet. */
  predicate Init(s: System) {
    && s.client.lock.None? && s.client.exchanges == [] && s.client.rejected == {}
    && s.client.token < s.client.minted
    && forall id :: id in s.threads ==> s.threads[id] == Thread(Idle, false)
  }

  function After(s: System, run: seq<(ThreadId, Action)>): Option<System>
    decreases |run|
  {
    if run == [] then Some(s)
    else if StepEnabled(s, run[0].0, run[0].1) then After(Step(s, run[0].0, run[0].1), run[1..])
    else None
  }

  ghost predicate Reachable(s: System) {
    exists s0, run :: Init(s0) && After(s0, run) == Some(s)
  }

  // ---- The invariant ------------------------------------------------------------------------------

  /** Between acquiring and releasing the refresh lock. */
  predicate HoldsLock(pc: Pc) {
    pc.Holding? || pc.Calling? || pc.NestedOnWire? || pc.Minted? || pc.Leaving? || pc.Releasing?
  }

  /** A 401 refresh of `before` is justified, or will be refused by the comparison. */
  predicate Justified(c: Client, before: Token, proactive: bool) {
    before <= c.token && (proactive || before in c.rejected || before != c.token)
  }

  predicate ThreadOk(c: Client, id: ThreadId, t: Thread) {
    && (HoldsLock(t.pc) <==> c.lock == Some(id))
    && (t.active ==> t.pc.Calling? || t.pc.NestedOnWire? || t.pc.Minted? || t.pc.Leaving?)
    && (match t.pc
        case HasRead(before, _) => before <= c.token
        case OnWire(before, header, _) => before <= header <= c.token
        case Wanting(before, proactive) => Justified(c, before, proactive)
        case Holding(before, proactive) => Justified(c, before, proactive)
        case Calling(before, proactive) => t.active && before == c.token && Justified(c, before, proactive)
        case NestedOnWire(before, _, proactive) => t.active && before == c.token && Justified(c, before, proactive)
        case Minted(before, newer, proactive) =>
          t.active && before == c.token < newer < c.minted && Justified(c, before, proactive)
        case _ => true)
  }

  /** Exchanges form a chain that ends in the current token, and only ever moves forward. */
  ghost predicate Chain(c: Client) {
    && (forall i :: 0 <= i < |c.exchanges| ==> c.exchanges[i].from < c.exchanges[i].to <= c.token)
    && (forall i :: 0 <= i < |c.exchanges| - 1 ==> c.exchanges[i].to == c.exchanges[i + 1].from)
    && (c.exchanges != [] ==> c.exchanges[|c.exchanges| - 1].to == c.token)
  }

  /** What the invariant says about the client alone. */
  ghost predicate ClientOk(c: Client) {
    && c.token < c.minted && Chain(c)
    && forall i :: 0 <= i < |c.exchanges| ==> c.exchanges[i].proactive || c.exchanges[i].from in c.rejected
  }

  ghost predicate Inv(s: System) {
    && ClientOk(s.client)
    && forall id :: id in s.threads ==> ThreadOk(s.client, id, s.threads[id])
  }

  lemma OtherThreadOk(c: Client, id: ThreadId, t: Thread, a: Action, other: ThreadId, u: Thread)
    requires Enabled(c, t, a) && ThreadOk(c, id, t) && ThreadOk(c, other, u) && id != other
    ensures ThreadOk(ClientAfter(c, id, t, a), other, u)
  {
  }

  lemma ActorOk(c: Client, id: ThreadId, t: Thread, a: Action)
    requires Enabled(c, t, a) && ThreadOk(c, id, t) && c.token < c.minted
    ensures ThreadOk(ClientAfter(c, id, t, a), id, ThreadAfter(c, t, a))
  {
  }

  lemma ClientStaysOk(c: Client, id: ThreadId, t: Thread, a: Action)
    requires ClientOk(c) && Enabled(c, t, a) && ThreadOk(c, id, t)
    ensures ClientOk(ClientAfter(c, id, t, a))
  {
  }

  lemma StepKeepsInv(s: System, id: ThreadId, a: Action)
    requires Inv(s) && StepEnabled(s, id, a)
    ensures Inv(Step(s, id, a))
  {
    var s' := Step(s, id, a);
    ActorOk(s.client, id, s.threads[id], a);
    ClientStaysOk(s.client, id, s.threads[id], a);
    forall other | other in s'.threads ensures ThreadOk(s'.client, other, s'.threads[other]) {
      if other != id { OtherThreadOk(s.client, id, s.threads[id], a, other, s.threads[other]); }
    }
  }

  lemma {:induction false} RunKeepsInv(s: System, run: seq<(ThreadId, Action)>)
    requires Inv(s) && After(s, run).Some?
    ensures Inv(After(s, run).value)
    decreases |run|
  {
    if run != [] {
      StepKeepsInv(s, run[0].0, run[0].1);
      RunKeepsInv(Step(s, run[0].0, run[0].1), run[1..]);
    }
  }

  lemma ReachableInv(s: System)
    requires Reachable(s)
    ensures Inv(s)
  {
    var s0, run :| Init(s0) && After(s0, run) == Some(s);
    RunKeepsInv(s0, run);
  }

  // ---- What it means ---------------------------------------------------------------------------------

  lemma {:induction false} ChainGrows(c: Client, i: nat, j: nat)
    requires Chain(c) && i < j < |c.exchanges|
    ensures c.exchanges[i].from < c.exchanges[j].from
    decreases j
  {
    if i < j - 1 { ChainGrows(c, i, j - 1); }
  }

  /**
   Every successful refresh that a 401 started replaced a token some request was really
   sent with and got 401 for; and each token is replaced by at most one refresh.
   */
  lemma OneRefreshPerToken(s: System)
    requires Reachable(s)
    ensures forall i :: 0 <= i < |s.client.exchanges| && !s.client.exchanges[i].proactive ==>
      s.client.exchanges[i].from in s.client.rejected
    ensures forall i, j :: 0 <= i < j < |s.client.exchanges| ==>
      s.client.exchanges[i].from != s.client.exchanges[j].from
  {
    ReachableInv(s);
    forall i, j | 0 <= i < j < |s.client.exchanges| ensures s.client.exchanges[i].from != s.client.exchanges[j].from {
      ChainGrows(s.client, i, j);
    }
  }

  /** A thread that holds the refresh lock never asks for it, and no two threads hold it. */
  lemma NeverWaitsForItself(s: System, id: ThreadId)
    requires Reachable(s) && id in s.threads
    ensures s.threads[id].pc.Wanting? ==> s.client.lock != Some(id)
    ensures HoldsLock(s.threads[id].pc) ==>
      forall other :: other in s.threads && other != id ==> !HoldsLock(s.threads[other].pc)
  {
    ReachableInv(s);
  }

  /** A thread goes on to refresh after a 401 if and only if the token it read first is still the current one, and that was rejected. */
  lemma RefreshesRejectedToken(s: System, id: ThreadId)
    requires Reachable(s) && StepEnabled(s, id, Compares) && !s.threads[id].pc.proactive
    ensures Step(s, id, Compares).threads[id].pc.Calling? <==> s.threads[id].pc.before == s.client.token
    ensures Step(s, id, Compares).threads[id].pc.Calling? ==> s.client.token in s.client.rejected
  {
    ReachableInv(s);
    assert ThreadOk(s.client, id, s.threads[id]);
  }

  predicate WithoutThread(run: seq<(ThreadId, Action)>, id: ThreadId) {
    forall i :: 0 <= i < |run| ==> run[i].0 != id
  }

  /** While a thread holds the refresh lock, the others change neither it nor the token. */
  lemma {:induction false} OthersWait(s: System, id: ThreadId, run: seq<(ThreadId, Action)>)
    requires Inv(s) && id in s.threads && HoldsLock(s.threads[id].pc)
    requires WithoutThread(run, id) && After(s, run).Some?
    ensures var t := After(s, run).value;
      && Inv(t) && id in t.threads && t.threads[id] == s.threads[id]
      && t.client.token == s.client.token && t.client.exchanges == s.client.exchanges
    decreases |run|
  {
    if run != [] {
      StepKeepsInv(s, run[0].0, run[0].1);
      assert ThreadOk(s.client, run[0].0, s.threads[run[0].0]);
      assert run[0].0 != id;
      OthersWait(Step(s, run[0].0, run[0].1), id, run[1..]);
    }
  }

  /**
   A thread that finds the token replaced while it waited for the lock refreshes nothing:
   whatever the others do between its steps, it releases the lock with the token and the
   exchanges as it found them, and replays its request, with that token, at most once.
   A proactive refresh ends there.
   */
  lemma LateThreadReplays(s: System, id: ThreadId, first: seq<(ThreadId, Action)>, second: seq<(ThreadId, Action)>)
    requires Reachable(s) && StepEnabled(s, id, Compares) && s.threads[id].pc.before != s.client.token
    requires WithoutThread(first, id) && WithoutThread(second, id)
    requires After(Step(s, id, Compares), first).Some?
    ensures StepEnabled(After(Step(s, id, Compares), first).value, id, ClearsMark)
    ensures var cleared := Step(After(Step(s, id, Compares), first).value, id, ClearsMark);
      After(cleared, second).Some? ==>
        var ready := After(cleared, second).value;
        && StepEnabled(ready, id, Releases)
        && var t := Step(ready, id, Releases);
           && t.client.token == s.client.token && t.client.exchanges == s.client.exchanges && t.client.lock.None?
           && t.threads[id].pc == if s.threads[id].pc.proactive then Idle else HasRead(s.client.token, false)
  {
    ReachableInv(s);
    StepKeepsInv(s, id, Compares);
    var compared := Step(s, id, Compares);
    OthersWait(compared, id, first);
    var seen := After(compared, first).value;
    StepKeepsInv(seen, id, ClearsMark);
    var cleared := Step(seen, id, ClearsMark);
    if After(cleared, second).Some? { OthersWait(cleared, id, second); }
  }

  /** All steps of the run are of one thread. */
  predicate ByOnly(run: seq<(ThreadId, Action)>, id: ThreadId) {
    forall i :: 0 <= i < |run| ==> run[i].0 == id
  }

  /** One thread alone, step by step. */
  lemma Alone(s: System, id: ThreadId, run: seq<(ThreadId, Action)>, t: System, a: Action) returns (longer: seq<(ThreadId, Action)>, u: System)
    requires After(s, run) == Some(t) && StepEnabled(t, id, a)
    ensures longer == run + [(id, a)] && After(s, longer) == Some(u) && id in u.threads
    ensures u.client == ClientAfter(t.client, id, t.threads[id], a) && u.threads[id] == ThreadAfter(t.client, t.threads[id], a)
  {
    longer, u := run + [(id, a)], Step(t, id, a);
    AfterBoth(s, run, [(id, a)]);
    assert After(u, [(id, a)][1..]) == Some(u);
  }

  lemma {:induction false} AfterBoth(s: System, first: seq<(ThreadId, Action)>, second: seq<(ThreadId, Action)>)
    requires After(s, first).Some?
    ensures After(s, first + second) == After(After(s, first).value, second)
    decreases |first|
  {
    if first == [] {
      assert first + second == second;
    } else {
      assert (first + second)[1..] == first[1..] + second;
      AfterBoth(Step(s, first[0].0, first[0].1), first[1..], second);
    }
  }

  /** From a 401 to the new token. */
  lemma RejectedThreadRefreshes(s: System, id: ThreadId) returns (run: seq<(ThreadId, Action)>, t: System)
    requires id in s.threads && s.client.lock.None?
    requires s.threads[id] == Thread(OnWire(s.client.token, s.client.token, true), false)
    ensures After(s, run) == Some(t) && id in t.threads && ByOnly(run, id)
    ensures t.client.token == s.client.minted && t.client.lock == Some(id)
    ensures t.client.exchanges == s.client.exchanges + [Exchange(s.client.token, s.client.minted, false)]
    ensures t.threads[id] == Thread(Leaving(true, false), true)
  {
    run, t := Alone(s, id, [], s, Gets401);
    run, t := Alone(s, id, run, t, Acquires);
    run, t := Alone(s, id, run, t, Compares);
    run, t := Alone(s, id, run, t, NestedSends);
    run, t := Alone(s, id, run, t, NestedSucceeds);
    run, t := Alone(s, id, run, t, Installs);
  }

  /**
   A thread whose request got 401 with the token that is still current, and that finds the
   lock free, can refresh and replay: it installs the token the server mints, frees the lock
   and the mark, and sends the request once more with that token; a 401 then ends it.
   */
  lemma RejectedThreadReplays(s: System, id: ThreadId) returns (run: seq<(ThreadId, Action)>, t: System)
    requires id in s.threads && s.client.lock.None?
    requires s.threads[id] == Thread(OnWire(s.client.token, s.client.token, true), false)
    ensures After(s, run) == Some(t) && id in t.threads && ByOnly(run, id)
    ensures t.client.token == s.client.minted && t.client.lock.None?
    ensures t.client.exchanges == s.client.exchanges + [Exchange(s.client.token, s.client.minted, false)]
    ensures t.threads[id] == Thread(OnWire(t.client.token, t.client.token, false), false)
    ensures StepEnabled(t, id, Gets401) && Step(t, id, Gets401).threads[id].pc == Idle
  {
    run, t := RejectedThreadRefreshes(s, id);
    run, t := Alone(s, id, run, t, ClearsMark);
    run, t := Alone(s, id, run, t, Releases);
    run, t := Alone(s, id, run, t, BuildsHeader);
  }

  /** A refresh that failed is not followed by another send: the request ends, and the token is as it was. */
  lemma FailedRefreshEnds(s: System, id: ThreadId, a: Action, first: seq<(ThreadId, Action)>, second: seq<(ThreadId, Action)>)
    requires Reachable(s) && StepEnabled(s, id, a) && (a == NestedGets401 || a == NestedFails(false))
    requires WithoutThread(first, id) && WithoutThread(second, id)
    requires After(Step(s, id, a), first).Some?
    ensures StepEnabled(After(Step(s, id, a), first).value, id, ClearsMark)
    ensures var cleared := Step(After(Step(s, id, a), first).value, id, ClearsMark);
      After(cleared, second).Some? ==>
        var ready := After(cleared, second).value;
        && StepEnabled(ready, id, Releases)
        && var t := Step(ready, id, Releases);
           && t.client.token == s.client.token && t.client.exchanges == s.client.exchanges && t.client.lock.None?
           && t.threads[id].pc == Idle
  {
    ReachableInv(s);
    StepKeepsInv(s, id, a);
    var failed := Step(s, id, a);
    OthersWait(failed, id, first);
    var seen := After(failed, first).value;
    StepKeepsInv(seen, id, ClearsMark);
    var cleared := Step(seen, id, ClearsMark);
    if After(cleared, second).Some? { OthersWait(cleared, id, second); }
  }

  // ---- A token replaced between the two reads -------------------------------------------------------------------

  /**
   The comparison looks at the token the thread read first, not at the one it sent.  A request
   that was sent with a newer token than it read first is replayed with that token although
   the server rejected just it, and nothing is refreshed.
   */
  lemma NewerTokenIsNotRefreshed(s: System, id: ThreadId, before: Token) returns (run: seq<(ThreadId, Action)>, t: System)
    requires id in s.threads && s.client.lock.None? && before != s.client.token
    requires s.threads[id] == Thread(OnWire(before, s.client.token, true), false)
    ensures After(s, run) == Some(t) && id in t.threads && ByOnly(run, id)
    ensures s.client.token in t.client.rejected && t.client.lock.None?
    ensures t.client.token == s.client.token && t.client.exchanges == s.client.exchanges
    ensures t.threads[id] == Thread(OnWire(s.client.token, s.client.token, false), false)
  {
    run, t := Alone(s, id, [], s, Gets401);
    run, t := Alone(s, id, run, t, Acquires);
    run, t := Alone(s, id, run, t, Compares);
    run, t := Alone(s, id, run, t, ClearsMark);
    run, t := Alone(s, id, run, t, Releases);
    run, t := Alone(s, id, run, t, BuildsHeader);
  }

  /** One step leaves the other threads alone. */
  lemma AloneKeeps(s: System, id: ThreadId, run: seq<(ThreadId, Action)>, t: System, a: Action, other: ThreadId)
    returns (longer: seq<(ThreadId, Action)>, u: System)
    requires After(s, run) == Some(t) && StepEnabled(t, id, a) && other != id && other in t.threads
    ensures longer == run + [(id, a)] && After(s, longer) == Some(u) && id in u.threads && other in u.threads
    ensures u.client == ClientAfter(t.client, id, t.threads[id], a) && u.threads[id] == ThreadAfter(t.client, t.threads[id], a)
    ensures u.threads[other] == t.threads[other]
  {
    longer, u := run + [(id, a)], Step(t, id, a);
    AfterBoth(s, run, [(id, a)]);
    assert After(u, [(id, a)][1..]) == Some(u);
  }

  /** Such a request exists: another thread refreshes, of its own accord, between the two reads. */
  lemma NewerTokenIsReachable(s: System, id: ThreadId, other: ThreadId) returns (run: seq<(ThreadId, Action)>, t: System)
    requires Init(s) && id in s.threads && other in s.threads && id != other
    ensures After(s, run) == Some(t) && id in t.threads && t.client.lock.None? && t.client.token != s.client.token
    ensures t.threads[id] == Thread(OnWire(s.client.token, t.client.token, true), false)
  {
    run, t := AloneKeeps(s, id, [], s, Begins, other);
    run, t := AloneKeeps(s, other, run, t, RefreshesNow, id);
    run, t := AloneKeeps(s, other, run, t, Acquires, id);
    run, t := AloneKeeps(s, other, run, t, Compares, id);
    run, t := AloneKeeps(s, other, run, t, NestedSends, id);
    run, t := AloneKeeps(s, other, run, t, NestedSucceeds, id);
    run, t := AloneKeeps(s, other, run, t, Installs, id);
    run, t := AloneKeeps(s, other, run, t, ClearsMark, id);
    run, t := AloneKeeps(s, other, run, t, Releases, id);
    run, t := AloneKeeps(s, id, run, t, BuildsHeader, other);
  }
}
