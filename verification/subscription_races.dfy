/**
 Subscription calls, dials and drops of a WebSocket client, interleaved step by step.

 One thread calls `subscribe`, `unsubscribe` and `disconnect`; any number of dials run beside
 it (the first `connect`, timers); the receive loop may lower the state or drop the socket
 anywhere.  `strict` is `WebSocketClient`, whose sends need the CONNECTED state and whose
 `disconnect` forgets the table; otherwise the model is the WebSocket half of `SpooledRealtime`.
 */
module SubscriptionRaces {
  import opened Wrappers
  import opened Subscriptions

  /**
   The live iterator of `_resubscribe_all` over the table: what it still has to deliver, the
   size it started with, and whether the table changed since.
   */
  datatype Cursor = Cursor(rest: set<Filter>, size: nat, disturbed: bool)

  datatype Phase =
    | Connecting                           // a thread is opening a socket
    | Dialled                              // the socket is assigned
    | Marked                               // and the state is CONNECTED
    | Iterating(cursor: Cursor)
    | Fetched(filter: Filter, cursor: Cursor)

  /** Where the calling thread is: the last two are inside `disconnect`. */
  datatype Caller =
    | Idle
    | Announcing(filter: Filter, subscribe: bool)
    | Sending(filter: Filter, subscribe: bool)
    | Closing
    | Forgetting

  /** `live`: what the server has for this socket.  `tainted` is set by the steps that can leave it wrong. */
  datatype Socket = Socket(live: set<Filter>, tainted: bool)

  datatype State = State(table: set<Filter>, connected: bool, socket: Option<Socket>, caller: Caller, dials: map<nat, Phase>)

  datatype Step =
    | Subscribe(f: Filter)
    | Unsubscribe(f: Filter)
    | ReadState                            // the call looks at the state
    | SendCommand                          // and sends
    | Disconnect                           // drops the socket
    | CloseState                           // says DISCONNECTED
    | ForgetAll                            // and clears the table, if it does
    | StartDial(dial: nat)
    | OpenSocket(dial: nat)
    | MarkConnected(dial: nat)
    | StartResubscribe(dial: nat)
    | FetchNext(dial: nat, f: Filter)
    | Resend(dial: nat)
    | EndResubscribe(dial: nat)
    | FailDial(dial: nat)
    | LoseSocket
    | LowerState

  const INIT := State({}, false, None, Idle, map[])

  // ---- The steps -------------------------------------------------------------------------------------

  /**
   An iterator over an unchanged table delivers each entry once.  One over a changed table
   raises when the size differs; with the size restored Python leaves open what it delivers.
   */
  predicate MayDeliver(s: State, k: Cursor, f: Filter) {
    if k.disturbed then |s.table| == k.size && f in s.table else f in k.rest
  }

  predicate MayEnd(s: State, k: Cursor) {
    if k.disturbed then |s.table| == k.size else k.rest == {}
  }

  predicate Enabled(strict: bool, s: State, e: Step) {
    match e
    case Subscribe(_) => s.caller.Idle?
    case Unsubscribe(_) => s.caller.Idle?
    case ReadState => s.caller.Announcing?
    case SendCommand => s.caller.Sending?
    case Disconnect => s.caller.Idle?
    case CloseState => s.caller.Closing?
    case ForgetAll => s.caller.Forgetting?
    case StartDial(c) => c !in s.dials
    case OpenSocket(c) => c in s.dials && s.dials[c].Connecting?
    case MarkConnected(c) => c in s.dials && s.dials[c].Dialled?
    case StartResubscribe(c) => c in s.dials && s.dials[c].Marked?
    case FetchNext(c, f) => c in s.dials && s.dials[c].Iterating? && MayDeliver(s, s.dials[c].cursor, f)
    case Resend(c) => c in s.dials && s.dials[c].Fetched?
    case EndResubscribe(c) => c in s.dials && s.dials[c].Iterating? && MayEnd(s, s.dials[c].cursor)
    case FailDial(c) => c in s.dials
    case LoseSocket => true
    case LowerState => true
  }

  function Disturb(p: Phase): Phase {
    match p
    case Iterating(k) => Iterating(k.(disturbed := true))
    case Fetched(f, k) => Fetched(f, k.(disturbed := true))
    case _ => p
  }

  function DisturbAll(dials: map<nat, Phase>): map<nat, Phase> {
    map c | c in dials :: Disturb(dials[c])
  }

  function SetTable(s: State, table: set<Filter>): State {
    if table == s.table then s else s.(table := table, dials := DisturbAll(s.dials))
  }

  function TaintIf(s: State, race: bool): State {
    if s.socket.Some? && race then s.(socket := Some(s.socket.value.(tainted := true))) else s
  }

  predicate Reachable(strict: bool, s: State) {
    s.socket.Some? && (strict ==> s.connected)
  }

  function Send(strict: bool, s: State, subscribe: bool, f: Filter): State {
    if !Reachable(strict, s) then s
    else var live := s.socket.value.live;
      s.(socket := Some(s.socket.value.(live := if subscribe then live + {OnWire(f)} else live - {OnWire(f)})))
  }

  /** Does the open socket still filter by `f`, which is no longer in the table? */
  predicate StillLive(s: State, f: Filter) {
    s.socket.Some? && OnWire(f) in s.socket.value.live
  }

  predicate Shared(s: State, f: Filter) {
    exists g :: g in s.table && OnWire(g) == OnWire(f)
  }

  function AfterRead(s: State): State
    requires s.caller.Announcing?
  {
    var f, subscribe := s.caller.filter, s.caller.subscribe;
    if s.connected then s.(caller := Sending(f, subscribe))
    else TaintIf(s, !subscribe && StillLive(s, f)).(caller := Idle)
  }

  function AfterSend(strict: bool, s: State): State
    requires s.caller.Sending?
  {
    var f, subscribe := s.caller.filter, s.caller.subscribe;
    var sent := Send(strict, s, subscribe, f).(caller := Idle);
    TaintIf(sent, !subscribe && (StillLive(sent, f) || Shared(s, f)))
  }

  function AfterResend(strict: bool, s: State, c: nat): State
    requires c in s.dials && s.dials[c].Fetched?
  {
    var f, k := s.dials[c].filter, s.dials[c].cursor;
    TaintIf(Send(strict, s, true, f), k.disturbed).(dials := s.dials[c := Iterating(k)])
  }

  function Forget(s: State): State {
    TaintIf(SetTable(s, {}), s.socket.Some? && s.socket.value.live != {})
  }

  function Apply(strict: bool, s: State, e: Step): State
    requires Enabled(strict, s, e)
  {
    match e
    case Subscribe(f) =>
      if f in s.table then s else SetTable(s, s.table + {f}).(caller := Announcing(f, true))
    case Unsubscribe(f) =>
      if f !in s.table then s else SetTable(s, s.table - {f}).(caller := Announcing(f, false))
    case ReadState => AfterRead(s)
    case SendCommand => AfterSend(strict, s)
    case Disconnect => s.(socket := None, caller := Closing)
    case CloseState => s.(connected := false, caller := Forgetting)
    case ForgetAll => (if strict then Forget(s) else s).(caller := Idle)
    case StartDial(c) => s.(dials := s.dials[c := Connecting])
    case OpenSocket(c) => s.(socket := Some(Socket({}, false)), dials := s.dials[c := Dialled])
    case MarkConnected(c) => s.(connected := true, dials := s.dials[c := Marked])
    case StartResubscribe(c) => s.(dials := s.dials[c := Iterating(Cursor(s.table, |s.table|, false))])
    case FetchNext(c, f) =>
      var k := s.dials[c].cursor;
      s.(dials := s.dials[c := Fetched(f, k.(rest := k.rest - {f}))])
    case Resend(c) => AfterResend(strict, s, c)
    case EndResubscribe(c) => TaintIf(s, s.dials[c].cursor.disturbed).(dials := s.dials - {c})
    case FailDial(c) => s.(connected := false, dials := s.dials - {c})
    case LoseSocket => s.(socket := None)
    case LowerState => s.(connected := false)
  }

  // ---- Runs ----------------------------------------------------------------------------------------------

  /** The state a run from `s` ends in; None when some step could not happen. */
  function From(strict: bool, s: State, es: seq<Step>): Option<State> {
    if es == [] then Some(s)
    else match From(strict, s, es[..|es| - 1])
      case None => None
      case Some(t) => if Enabled(strict, t, es[|es| - 1]) then Some(Apply(strict, t, es[|es| - 1])) else None
  }

  function Final(strict: bool, es: seq<Step>): Option<State> {
    From(strict, INIT, es)
  }

  lemma Then(strict: bool, s: State, es: seq<Step>, t: State, e: Step) returns (longer: seq<Step>, u: State)
    requires From(strict, s, es) == Some(t) && Enabled(strict, t, e)
    ensures longer == es + [e] && u == Apply(strict, t, e) && From(strict, s, longer) == Some(u)
    ensures QuietRun(es) && QuietStep(e) ==> QuietRun(longer)
  {
    longer, u := es + [e], Apply(strict, t, e);
    assert longer[..|longer| - 1] == es;
  }

  /** The filters asked for: subscribed, and not unsubscribed or forgotten since. */
  function Wanted(strict: bool, es: seq<Step>): set<Filter> {
    if es == [] then {}
    else
      var before := Wanted(strict, es[..|es| - 1]);
      match es[|es| - 1]
      case Subscribe(f) => before + {f}
      case Unsubscribe(f) => before - {f}
      case ForgetAll => if strict then {} else before
      case _ => before
  }

  /** Whatever dials, drops and failures come between, the table is what the calls asked for. */
  lemma {:induction false} TableIsWanted(strict: bool, es: seq<Step>)
    requires Final(strict, es).Some?
    ensures Final(strict, es).value.table == Wanted(strict, es)
    decreases |es|
  {
    if es != [] { TableIsWanted(strict, es[..|es| - 1]); }
  }

  /** No new dial starts, and no field is the empty string. */
  predicate QuietStep(e: Step) {
    !e.StartDial? && (e.Subscribe? || e.Unsubscribe? ==> Clean(e.f))
  }

  predicate QuietRun(es: seq<Step>) {
    forall i :: 0 <= i < |es| ==> QuietStep(es[i])
  }

  // ---- The invariant ---------------------------------------------------------------------------------------

  predicate Untainted(s: State) {
    s.socket.Some? && !s.socket.value.tainted
  }

  predicate InCall(s: State) {
    s.caller.Announcing? || s.caller.Sending?
  }

  predicate PendingSubscribe(s: State, f: Filter) {
    InCall(s) && s.caller.subscribe && s.caller.filter == f
  }

  predicate PendingUnsubscribe(s: State, w: Filter) {
    InCall(s) && !s.caller.subscribe && OnWire(s.caller.filter) == w
  }

  /** A dial that will still send `f`, or whose iteration can no longer be relied on. */
  predicate Covers(p: Phase, f: Filter) {
    match p
    case Connecting => true
    case Dialled => true
    case Marked => true
    case Iterating(k) => k.disturbed || f in k.rest
    case Fetched(g, k) => k.disturbed || f == g || f in k.rest
  }

  predicate SomeDialCovers(s: State, f: Filter) {
    exists c :: c in s.dials && Covers(s.dials[c], f)
  }

  /** An undisturbed iteration delivers only what is in the table, whose size it remembers. */
  predicate Faithful(p: Phase, table: set<Filter>) {
    match p
    case Iterating(k) => k.disturbed || (k.rest <= table && k.size == |table|)
    case Fetched(g, k) => k.disturbed || (g in table && k.rest <= table && k.size == |table|)
    case _ => true
  }

  ghost predicate NothingExtra(s: State) {
    Untainted(s) ==> forall w :: w in s.socket.value.live ==> w in AllOnWire(s.table) || PendingUnsubscribe(s, w)
  }

  ghost predicate Accounted(s: State, f: Filter) {
    Untainted(s) && s.connected && f in s.table ==>
      OnWire(f) in s.socket.value.live || PendingSubscribe(s, f) || SomeDialCovers(s, f)
  }

  ghost predicate NothingMissing(s: State) {
    forall f :: Accounted(s, f)
  }

  ghost predicate Inv(s: State) {
    && NothingExtra(s) && NothingMissing(s)
    && (forall c :: c in s.dials ==> Faithful(s.dials[c], s.table))
    && (InCall(s) ==> (s.caller.filter in s.table <==> s.caller.subscribe))
  }

  predicate IsCallerStep(e: Step) {
    e.Subscribe? || e.Unsubscribe? || e.ReadState? || e.SendCommand? || e.Disconnect? || e.CloseState? || e.ForgetAll?
  }

  lemma CallerKeepsAccounts(strict: bool, s: State, e: Step, f: Filter)
    requires Inv(s) && Enabled(strict, s, e) && IsCallerStep(e)
    ensures Accounted(Apply(strict, s, e), f)
  {
    var t := Apply(strict, s, e);
    assert Accounted(s, f);
    if SomeDialCovers(s, f) {
      var c :| c in s.dials && Covers(s.dials[c], f);
      assert c in t.dials && Covers(t.dials[c], f);
    }
  }

  lemma CallerKeepsInv(strict: bool, s: State, e: Step)
    requires Inv(s) && Enabled(strict, s, e) && IsCallerStep(e)
    ensures Inv(Apply(strict, s, e))
  {
    forall f ensures Accounted(Apply(strict, s, e), f) {
      CallerKeepsAccounts(strict, s, e, f);
    }
  }

  lemma DialKeepsAccounts(strict: bool, s: State, e: Step, f: Filter)
    requires Inv(s) && Enabled(strict, s, e) && !IsCallerStep(e)
    ensures Accounted(Apply(strict, s, e), f)
  {
    var t := Apply(strict, s, e);
    if f in t.table && t.connected && Untainted(t) && !PendingSubscribe(t, f) && OnWire(f) !in t.socket.value.live {
      if e.StartDial? || e.OpenSocket? || e.MarkConnected? {
        assert Covers(t.dials[e.dial], f);
      } else {
        assert Accounted(s, f);
        var c :| c in s.dials && Covers(s.dials[c], f);
        assert c in t.dials && Covers(t.dials[c], f);
      }
    }
  }

  lemma DialKeepsInv(strict: bool, s: State, e: Step)
    requires Inv(s) && Enabled(strict, s, e) && !IsCallerStep(e)
    ensures Inv(Apply(strict, s, e))
  {
    forall f ensures Accounted(Apply(strict, s, e), f) {
      DialKeepsAccounts(strict, s, e, f);
    }
  }

  lemma {:induction false} RunKeepsInv(strict: bool, s: State, es: seq<Step>)
    requires Inv(s) && From(strict, s, es).Some?
    ensures Inv(From(strict, s, es).value)
    decreases |es|
  {
    if es != [] {
      var before, e := es[..|es| - 1], es[|es| - 1];
      RunKeepsInv(strict, s, before);
      var t := From(strict, s, before).value;
      if IsCallerStep(e) { CallerKeepsInv(strict, t, e); } else { DialKeepsInv(strict, t, e); }
    }
  }

  predicate Settled(s: State) {
    s.connected && s.socket.Some? && s.caller.Idle? && s.dials == map[]
  }

  predicate Agrees(s: State) {
    s.socket.Some? && s.socket.value.live == AllOnWire(s.table)
  }

  /**
   In every run, whenever the client is connected, every resubscription has finished and no
   call is under way, the filters live on an untainted socket are exactly the table.  What
   keeps a socket untainted is `CalmRunStaysCalm`.
   */
  lemma Agreement(strict: bool, es: seq<Step>)
    requires Final(strict, es).Some? && Settled(Final(strict, es).value) && Untainted(Final(strict, es).value)
    ensures Agrees(Final(strict, es).value)
  {
    RunKeepsInv(strict, INIT, es);
    var s := Final(strict, es).value;
    forall w | w in AllOnWire(s.table) ensures w in s.socket.value.live {
      var f :| f in s.table && OnWire(f) == w;
      assert Accounted(s, f);
    }
  }

  // ---- Calls that start between dials -------------------------------------------------------------------

  /** Inside a `disconnect` that is going to clear a table that is not empty. */
  predicate Clearing(strict: bool, s: State) {
    strict && (s.caller.Closing? || s.caller.Forgetting?) && s.table != {}
  }

  /**
   Calls start while no dial is in progress, and no field is the empty string.  Dials may
   start during a call, but for a `disconnect` that clears the table.
   */
  predicate CalmStep(strict: bool, s: State, e: Step) {
    && (e.Subscribe? || e.Unsubscribe? ==> s.dials == map[] && Clean(e.f))
    && (e.Disconnect? && strict && s.table != {} ==> s.dials == map[])
    && (e.StartDial? ==> !Clearing(strict, s))
  }

  predicate CalmRun(strict: bool, es: seq<Step>) {
    es == [] ||
    var front := Final(strict, es[..|es| - 1]);
    CalmRun(strict, es[..|es| - 1]) && front.Some? && CalmStep(strict, front.value, es[|es| - 1])
  }

  predicate Undisturbed(p: Phase) {
    match p
    case Iterating(k) => !k.disturbed
    case Fetched(_, k) => !k.disturbed
    case _ => true
  }

  /**
   A filter that is being unsubscribed is live only where every dial will replace the
   socket, and a socket that became tainted is out of use: only a dial that opens another
   leads back to CONNECTED.
   */
  ghost predicate Calm(strict: bool, s: State) {
    && (forall f :: f in s.table ==> Clean(f))
    && (InCall(s) ==> Clean(s.caller.filter))
    && (Clearing(strict, s) ==> s.dials == map[] && s.socket.None?)
    && (forall c :: c in s.dials ==> Undisturbed(s.dials[c]))
    && (InCall(s) && !s.caller.subscribe && StillLive(s, s.caller.filter) ==> OnlyConnecting(s))
    && (s.socket.Some? && s.socket.value.tainted ==> !s.connected && OnlyConnecting(s))
  }

  predicate OnlyConnecting(s: State) {
    forall c :: c in s.dials ==> s.dials[c].Connecting?
  }

  lemma NotShared(strict: bool, s: State)
    requires Inv(s) && Calm(strict, s) && InCall(s) && !s.caller.subscribe
    ensures !Shared(s, s.caller.filter)
  {
    var f := s.caller.filter;
    forall g | g in s.table ensures OnWire(g) != OnWire(f) {
      assert g == OnWire(g) && f == OnWire(f);
    }
  }

  lemma CallerKeepsCalm(strict: bool, s: State, e: Step)
    requires Inv(s) && Calm(strict, s) && Enabled(strict, s, e) && CalmStep(strict, s, e) && IsCallerStep(e)
    ensures Calm(strict, Apply(strict, s, e))
  {
    if e.SendCommand? && !s.caller.subscribe { NotShared(strict, s); }
  }

  /** An undisturbed dial sends only what is in the table, so never a filter being unsubscribed. */
  lemma ResendIsNotPending(strict: bool, s: State, c: nat)
    requires Inv(s) && Calm(strict, s) && c in s.dials && s.dials[c].Fetched? && InCall(s) && !s.caller.subscribe
    ensures OnWire(s.dials[c].filter) != OnWire(s.caller.filter)
  {
    NotShared(strict, s);
    assert Faithful(s.dials[c], s.table) && Undisturbed(s.dials[c]);
  }

  lemma DialKeepsCalm(strict: bool, s: State, e: Step)
    requires Inv(s) && Calm(strict, s) && Enabled(strict, s, e) && CalmStep(strict, s, e) && !IsCallerStep(e)
    ensures Calm(strict, Apply(strict, s, e))
  {
    if e.Resend? && InCall(s) && !s.caller.subscribe { ResendIsNotPending(strict, s, e.dial); }
  }

  lemma {:induction false} CalmRunStaysCalm(strict: bool, es: seq<Step>)
    requires CalmRun(strict, es) && Final(strict, es).Some?
    ensures Calm(strict, Final(strict, es).value)
    decreases |es|
  {
    if es != [] {
      var front := es[..|es| - 1];
      CalmRunStaysCalm(strict, front);
      RunKeepsInv(strict, INIT, front);
      var t, e := Final(strict, front).value, es[|es| - 1];
      if IsCallerStep(e) { CallerKeepsCalm(strict, t, e); } else { DialKeepsCalm(strict, t, e); }
    }
  }

  /**
   When calls start between dials, the agreement is unconditional: drops, failed dials,
   parallel dials and dials that start during a call included.
   */
  lemma CalmAgreement(strict: bool, es: seq<Step>)
    requires CalmRun(strict, es) && Final(strict, es).Some? && Settled(Final(strict, es).value)
    ensures Agrees(Final(strict, es).value)
    ensures Final(strict, es).value.socket.value.live == AllOnWire(Wanted(strict, es))
  {
    CalmRunStaysCalm(strict, es);
    TableIsWanted(strict, es);
    Agreement(strict, es);
  }
}
