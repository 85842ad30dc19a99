/**
 When subscription calls are safe: from which states they, and whatever else happens without
 a new dial, can only end in agreement, and from which they can end in disagreement.
 */
module SubscriptionSafety {
  import opened Wrappers
  import opened Subscriptions
  import opened SubscriptionRaces

  /** Every run without a new dial that settles ends in agreement, whatever calls it contains. */
  ghost predicate Safe(strict: bool, s: State) {
    forall es :: QuietRun(es) && From(strict, s, es).Some? && Settled(From(strict, s, es).value) ==>
      Agrees(From(strict, s, es).value)
  }

  /** A resubscription that found the table empty: it has nothing to send, and never will. */
  predicate EmptyPass(p: Phase) {
    p.Iterating? && p.cursor.size == 0
  }

  predicate OnlyEmptyPasses(s: State) {
    forall c :: c in s.dials ==> EmptyPass(s.dials[c])
  }

  /** Can the client still be, or become, connected without a new dial? */
  predicate CanConnect(s: State) {
    || (s.connected && s.socket.Some?)
    || (exists c :: c in s.dials && (s.dials[c].Connecting? || (s.dials[c].Dialled? && s.socket.Some?)))
  }

  // ---- Safe states -----------------------------------------------------------------------------------------

  /** What the server has while the only dials are empty passes; clean filters go over the wire as they are. */
  function Expected(s: State): set<Filter> {
    if !InCall(s) then s.table
    else if s.caller.subscribe then s.table - {s.caller.filter}
    else s.table + {s.caller.filter}
  }

  ghost predicate Tight(s: State) {
    && (forall c :: c in s.dials ==> EmptyPass(s.dials[c]) && s.dials[c].cursor.rest == {})
    && (forall f :: f in s.table ==> Clean(f))
    && (InCall(s) ==> Clean(s.caller.filter) && (s.caller.filter in s.table <==> s.caller.subscribe))
    && (s.caller.Closing? || s.caller.Forgetting? ==> s.socket.None?)
    && (s.connected && s.socket.Some? ==> s.socket.value.live == Expected(s))
  }

  lemma CleanWire(fs: set<Filter>)
    requires forall f :: f in fs ==> Clean(f)
    ensures AllOnWire(fs) == fs
  {
    forall f | f in fs ensures f in AllOnWire(fs) { assert OnWire(f) == f; }
    forall w | w in AllOnWire(fs) ensures w in fs {
      var f :| f in fs && OnWire(f) == w;
      assert OnWire(f) == f;
    }
  }

  lemma SendKeepsTight(strict: bool, s: State)
    requires Tight(s) && s.caller.Sending?
    ensures Tight(AfterSend(strict, s))
  {
    var f, t := s.caller.filter, AfterSend(strict, s);
    assert OnWire(f) == f;
    if t.connected && t.socket.Some? {
      assert t.socket.value.live == if s.caller.subscribe then s.socket.value.live + {f} else s.socket.value.live - {f};
    }
  }

  lemma CallKeepsTight(strict: bool, s: State, e: Step)
    requires Tight(s) && Enabled(strict, s, e) && QuietStep(e) && IsCallerStep(e)
    ensures Tight(Apply(strict, s, e))
  {
    match e {
      case Subscribe(f) => assert f !in s.table ==> s.table + {f} - {f} == s.table;
      case Unsubscribe(f) => assert f in s.table ==> s.table - {f} + {f} == s.table;
      case SendCommand => SendKeepsTight(strict, s);
      case _ =>
    }
  }

  lemma DialKeepsTight(strict: bool, s: State, e: Step)
    requires Tight(s) && Enabled(strict, s, e) && QuietStep(e) && !IsCallerStep(e)
    ensures Tight(Apply(strict, s, e))
  {
  }

  lemma {:induction false} RunKeepsTight(strict: bool, s: State, es: seq<Step>)
    requires Tight(s) && QuietRun(es) && From(strict, s, es).Some?
    ensures Tight(From(strict, s, es).value)
    decreases |es|
  {
    if es != [] {
      var front, e := es[..|es| - 1], es[|es| - 1];
      RunKeepsTight(strict, s, front);
      var t := From(strict, s, front).value;
      if IsCallerStep(e) { CallKeepsTight(strict, t, e); } else { DialKeepsTight(strict, t, e); }
    }
  }

  lemma CalmIsTight(strict: bool, s: State)
    requires Inv(s) && Calm(strict, s) && OnlyEmptyPasses(s) && s.caller.Idle?
    ensures Tight(s)
  {
    forall c | c in s.dials ensures s.dials[c].cursor.rest == {} && s.table == {} {
      assert Faithful(s.dials[c], s.table) && Undisturbed(s.dials[c]);
    }
    CleanWire(s.table);
    if s.connected && s.socket.Some? {
      forall w | w in AllOnWire(s.table) ensures w in s.socket.value.live {
        var f :| f in s.table && OnWire(f) == w;
        assert Accounted(s, f);
      }
    }
  }

  lemma StuckStays(strict: bool, s: State, e: Step)
    requires !CanConnect(s) && Enabled(strict, s, e) && QuietStep(e)
    ensures !CanConnect(Apply(strict, s, e))
  {
    var t := Apply(strict, s, e);
    forall c | c in t.dials ensures !(t.dials[c].Connecting? || (t.dials[c].Dialled? && t.socket.Some?)) {
      if c in s.dials { assert !(s.dials[c].Connecting? || (s.dials[c].Dialled? && s.socket.Some?)); }
    }
  }

  lemma {:induction false} StuckRun(strict: bool, s: State, es: seq<Step>)
    requires !CanConnect(s) && QuietRun(es) && From(strict, s, es).Some?
    ensures !CanConnect(From(strict, s, es).value)
    decreases |es|
  {
    if es != [] {
      var front := es[..|es| - 1];
      StuckRun(strict, s, front);
      StuckStays(strict, From(strict, s, front).value, es[|es| - 1]);
    }
  }

  // ---- Letting a dial finish ---------------------------------------------------------------------------------

  /** The steps a phase still has before it. */
  function Rank(p: Phase): nat {
    match p
    case Connecting => 3
    case Dialled => 2
    case Marked => 1
    case _ => 0
  }

  function Left(p: Phase): nat {
    match p
    case Iterating(k) => 2 * |k.rest|
    case Fetched(_, k) => 2 * |k.rest| + 1
    case _ => 0
  }

  predicate Kept(t: State, u: State) {
    && u.table == t.table && u.caller == t.caller
    && (t.connected ==> u.connected) && (t.socket.Some? ==> u.socket.Some?)
    && (Untainted(t) ==> Untainted(u))
  }

  /** Along the way neither table nor caller changes, nothing is lost, and opening and marking do what they do. */
  predicate Drained(t: State, u: State, p: Phase) {
    && Kept(t, u)
    && (p.Connecting? || p.Dialled? ==> u.connected)
    && (p.Connecting? ==> Untainted(u))
  }

  /** The next step of a dial. */
  function NextOf(c: nat, p: Phase): Step
    requires p.Iterating? ==> p.cursor.rest == {}
  {
    match p
    case Connecting => OpenSocket(c)
    case Dialled => MarkConnected(c)
    case Marked => StartResubscribe(c)
    case Iterating(_) => EndResubscribe(c)
    case Fetched(_, _) => Resend(c)
  }

  predicate Advanced(p: Phase, q: Phase) {
    && Undisturbed(q) && (p.Connecting? ==> q.Dialled?)
    && (Rank(q) < Rank(p) || (Rank(q) == Rank(p) && Left(q) < Left(p)))
  }

  lemma DrainStep(strict: bool, t: State, c: nat) returns (e: Step)
    requires c in t.dials && Undisturbed(t.dials[c])
    ensures Enabled(strict, t, e) && QuietStep(e)
    ensures var u, p := Apply(strict, t, e), t.dials[c];
      && Kept(t, u) && (p.Dialled? ==> u.connected) && (p.Connecting? ==> Untainted(u))
      && if c in u.dials then u.dials == t.dials[c := u.dials[c]] && Advanced(p, u.dials[c]) else u.dials == t.dials - {c}
    ensures t.dials[c].Connecting? || t.dials[c].Dialled? ==> c in Apply(strict, t, e).dials
  {
    var p := t.dials[c];
    if p.Iterating? && p.cursor.rest != {} {
      var f :| f in p.cursor.rest;
      e := FetchNext(c, f);
      assert |p.cursor.rest - {f}| == |p.cursor.rest| - 1;
    } else {
      e := NextOf(c, p);
    }
  }

  /** Every undisturbed dial can run to its end by itself. */
  lemma {:induction false} DrainDial(strict: bool, s: State, es: seq<Step>, t: State, c: nat) returns (longer: seq<Step>, u: State)
    requires From(strict, s, es) == Some(t) && c in t.dials && Undisturbed(t.dials[c])
    ensures From(strict, s, longer) == Some(u) && (QuietRun(es) ==> QuietRun(longer))
    ensures u.dials == t.dials - {c} && Drained(t, u, t.dials[c])
    decreases Rank(t.dials[c]), Left(t.dials[c])
  {
    var e := DrainStep(strict, t, c);
    longer, u := Then(strict, s, es, t, e);
    if c in u.dials {
      var v := u;
      longer, u := DrainDial(strict, s, longer, v, c);
      assert v.dials - {c} == t.dials - {c};
    }
  }

  /** All dials but one run to their end; a client that could connect still can. */
  lemma {:induction false} DrainOthers(strict: bool, s: State, es: seq<Step>, t: State, c: nat) returns (longer: seq<Step>, u: State)
    requires From(strict, s, es) == Some(t) && QuietRun(es) && c in t.dials && CanConnect(t)
    requires forall d :: d in t.dials ==> Undisturbed(t.dials[d])
    ensures From(strict, s, longer) == Some(u) && QuietRun(longer)
    ensures u.dials == map[c := t.dials[c]] && u.table == t.table && u.caller == t.caller && CanConnect(u)
    decreases |t.dials|
  {
    longer, u := es, t;
    if d :| d in t.dials && d != c {
      longer, u := DrainDial(strict, s, es, t, d);
      assert |u.dials.Keys| < |t.dials.Keys| by { assert u.dials.Keys == t.dials.Keys - {d}; }
      StillConnects(t, u, d);
      longer, u := DrainOthers(strict, s, longer, u, c);
    } else {
      assert t.dials.Keys == {c};
      assert t.dials == map[c := t.dials[c]];
    }
  }

  lemma StillConnects(t: State, u: State, d: nat)
    requires d in t.dials && u.dials == t.dials - {d} && Drained(t, u, t.dials[d]) && CanConnect(t)
    ensures CanConnect(u)
  {
    if !(t.connected && t.socket.Some?) {
      var c :| c in t.dials && (t.dials[c].Connecting? || (t.dials[c].Dialled? && t.socket.Some?));
      if c != d { assert c in u.dials && u.dials[c] == t.dials[c]; }
    }
  }

  // ---- Unsafe states -------------------------------------------------------------------------------------------

  /** A whole `subscribe` or `unsubscribe` that changes the table of a connected client. */
  lemma Call(strict: bool, s: State, es: seq<Step>, t: State, f: Filter, subscribe: bool) returns (longer: seq<Step>, u: State)
    requires From(strict, s, es) == Some(t) && QuietRun(es) && Clean(f)
    requires t.connected && t.socket.Some? && t.caller.Idle? && (f in t.table <==> !subscribe)
    ensures From(strict, s, longer) == Some(u) && QuietRun(longer)
    ensures u.connected && u.socket.Some? && u.caller.Idle?
    ensures u.table == if subscribe then t.table + {f} else t.table - {f}
    ensures u.dials == DisturbAll(t.dials)
  {
    longer, u := Then(strict, s, es, t, if subscribe then Subscribe(f) else Unsubscribe(f));
    longer, u := Then(strict, s, longer, u, ReadState);
    longer, u := Then(strict, s, longer, u, SendCommand);
  }

  /** One dial in progress, in phase `p`, and nothing in the way of a call. */
  predicate OneDial(t: State, c: nat, p: Phase) {
    t.connected && t.socket.Some? && t.caller.Idle? && t.dials == map[c := p]
  }

  ghost predicate CleanTable(t: State) {
    forall f :: f in t.table ==> Clean(f)
  }

  /** Exchange one filter of the table for another: the size is restored, the iterator is not. */
  lemma Exchange(strict: bool, s: State, es: seq<Step>, t: State, c: nat, p: Phase, f: Filter, g: Filter)
    returns (longer: seq<Step>, u: State)
    requires From(strict, s, es) == Some(t) && QuietRun(es) && OneDial(t, c, p)
    requires f in t.table && g !in t.table && Clean(f) && Clean(g)
    ensures From(strict, s, longer) == Some(u) && QuietRun(longer) && OneDial(u, c, Disturb(p))
    ensures u.table == t.table - {f} + {g} && |u.table| == |t.table|
  {
    longer, u := Call(strict, s, es, t, f, false);
    longer, u := Call(strict, s, longer, u, g, true);
    assert u.dials == map[c := Disturb(p)];
    assert |t.table - {f} + {g}| == |t.table|;
  }

  /** A fetched filter that is unsubscribed before it is sent stays live. */
  lemma FetchedDisagrees(strict: bool, s: State, es: seq<Step>, t: State, c: nat, f: Filter, k: Cursor)
    returns (longer: seq<Step>, u: State)
    requires From(strict, s, es) == Some(t) && QuietRun(es) && OneDial(t, c, Fetched(f, k))
    requires f in t.table && k.size == |t.table| && CleanTable(t)
    ensures From(strict, s, longer) == Some(u) && QuietRun(longer) && Settled(u) && !Agrees(u)
  {
    var g := FreshFilter(t.table);
    longer, u := Exchange(strict, s, es, t, c, Fetched(f, k), f, g);
    var over := k.(disturbed := true);
    longer, u := Then(strict, s, longer, u, Resend(c));
    assert u.dials == map[c := Iterating(over)];
    longer, u := Then(strict, s, longer, u, EndResubscribe(c));
    assert u.dials == map[];
    CleanWire(u.table);
    assert OnWire(f) == f && f !in u.table;
  }

  /** From a running iteration over a table that was not empty. */
  lemma IteratingDisagrees(strict: bool, s: State, es: seq<Step>, t: State, c: nat, k: Cursor)
    returns (longer: seq<Step>, u: State)
    requires From(strict, s, es) == Some(t) && QuietRun(es) && OneDial(t, c, Iterating(k))
    requires k.size == |t.table| > 0 && CleanTable(t) && !k.disturbed && k.rest <= t.table
    ensures From(strict, s, longer) == Some(u) && QuietRun(longer) && Settled(u) && !Agrees(u)
  {
    if f :| f in k.rest {
      longer, u := Then(strict, s, es, t, FetchNext(c, f));
      var rest := k.(rest := k.rest - {f});
      assert u.dials == map[c := Fetched(f, rest)];
      longer, u := FetchedDisagrees(strict, s, longer, u, c, f, rest);
    } else {
      // Everything was fetched: a table exchanged meanwhile may be delivered from again.
      var f := AnyOf(t.table);
      var g := FreshFilter(t.table);
      longer, u := Exchange(strict, s, es, t, c, Iterating(k), f, g);
      var over := k.(disturbed := true);
      longer, u := Then(strict, s, longer, u, FetchNext(c, g));
      assert u.dials == map[c := Fetched(g, over.(rest := over.rest - {g}))];
      longer, u := FetchedDisagrees(strict, s, longer, u, c, g, over.(rest := over.rest - {g}));
    }
  }

  lemma AnyOf(fs: set<Filter>) returns (f: Filter)
    requires |fs| > 0
    ensures f in fs
  {
    assert fs != {};
    f :| f in fs;
  }

  /** Before the iteration starts; an empty table is filled first. */
  lemma MarkedDisagrees(strict: bool, s: State, es: seq<Step>, t: State, c: nat) returns (longer: seq<Step>, u: State)
    requires From(strict, s, es) == Some(t) && QuietRun(es) && OneDial(t, c, Marked) && CleanTable(t)
    ensures From(strict, s, longer) == Some(u) && QuietRun(longer) && Settled(u) && !Agrees(u)
  {
    longer, u := es, t;
    if t.table == {} {
      var g := FreshFilter({});
      longer, u := Call(strict, s, es, t, g, true);
      assert u.dials == map[c := Marked];
    }
    var k := Cursor(u.table, |u.table|, false);
    longer, u := Then(strict, s, longer, u, StartResubscribe(c));
    assert u.dials == map[c := Iterating(k)];
    longer, u := IteratingDisagrees(strict, s, longer, u, c, k);
  }

  /** Open and mark: a dial that has not come so far leads to a connected client. */
  lemma MarkDial(strict: bool, s: State, es: seq<Step>, t: State, c: nat) returns (longer: seq<Step>, u: State)
    requires From(strict, s, es) == Some(t) && QuietRun(es) && t.caller.Idle? && c in t.dials && t.dials == map[c := t.dials[c]]
    requires t.dials[c].Connecting? || (t.dials[c].Dialled? && t.socket.Some?)
    ensures From(strict, s, longer) == Some(u) && QuietRun(longer) && OneDial(u, c, Marked) && u.table == t.table
  {
    longer, u := es, t;
    if t.dials[c].Connecting? {
      longer, u := Then(strict, s, es, t, OpenSocket(c));
      assert u.dials == map[c := Dialled];
    }
    longer, u := Then(strict, s, longer, u, MarkConnected(c));
    assert u.dials == map[c := Marked];
  }

  lemma OneDialDisagrees(strict: bool, s: State, es: seq<Step>, t: State, c: nat) returns (longer: seq<Step>, u: State)
    requires From(strict, s, es) == Some(t) && QuietRun(es) && t.caller.Idle? && CleanTable(t)
    requires c in t.dials && t.dials == map[c := t.dials[c]] && CanConnect(t)
    requires Faithful(t.dials[c], t.table) && Undisturbed(t.dials[c]) && !EmptyPass(t.dials[c])
    ensures From(strict, s, longer) == Some(u) && QuietRun(longer) && Settled(u) && !Agrees(u)
  {
    longer, u := es, t;
    match t.dials[c] {
      case Iterating(k) => longer, u := IteratingDisagrees(strict, s, es, t, c, k);
      case Fetched(f, k) => longer, u := FetchedDisagrees(strict, s, es, t, c, f, k);
      case Marked => longer, u := MarkedDisagrees(strict, s, es, t, c);
      case _ =>
        if t.dials[c].Connecting? || t.socket.Some? {
          longer, u := MarkDial(strict, s, es, t, c);
          longer, u := MarkedDisagrees(strict, s, longer, u, c);
        }
    }
  }

  lemma UnsafeRun(strict: bool, s: State) returns (es: seq<Step>, t: State)
    requires Inv(s) && Calm(strict, s) && s.caller.Idle? && CanConnect(s) && !OnlyEmptyPasses(s)
    ensures From(strict, s, es) == Some(t) && QuietRun(es) && Settled(t) && !Agrees(t)
  {
    var c :| c in s.dials && !EmptyPass(s.dials[c]);
    assert Faithful(s.dials[c], s.table);
    es, t := DrainOthers(strict, s, [], s, c);
    es, t := OneDialDisagrees(strict, s, es, t, c);
  }

  // ---- The condition ------------------------------------------------------------------------------------------

  /**
   From any state that calm calls lead to, with no call under way, further calls are safe if
   and only if no dial is in progress but such as found the table empty, or the client is
   disconnected for good.
   */
  lemma SafeExactlyBetweenDials(strict: bool, run: seq<Step>)
    requires CalmRun(strict, run) && Final(strict, run).Some? && Final(strict, run).value.caller.Idle?
    ensures var s := Final(strict, run).value;
      Safe(strict, s) <==> OnlyEmptyPasses(s) || !CanConnect(s)
  {
    var s := Final(strict, run).value;
    RunKeepsInv(strict, INIT, run);
    CalmRunStaysCalm(strict, run);
    forall es | QuietRun(es) && From(strict, s, es).Some? && Settled(From(strict, s, es).value)
                && (OnlyEmptyPasses(s) || !CanConnect(s))
      ensures Agrees(From(strict, s, es).value)
    {
      if OnlyEmptyPasses(s) {
        CalmIsTight(strict, s);
        RunKeepsTight(strict, s, es);
        CleanWire(From(strict, s, es).value.table);
      } else {
        StuckRun(strict, s, es);
      }
    }
    if CanConnect(s) && !OnlyEmptyPasses(s) {
      var es, t := UnsafeRun(strict, s);
      assert !Safe(strict, s);
    }
  }

  // ---- A dial during disconnect ---------------------------------------------------------------------------------

  /** `disconnect` has said DISCONNECTED, and a timer it could not cancel starts its dial. */
  lemma DialDuringDisconnect(strict: bool, s: State, c: nat) returns (es: seq<Step>, t: State)
    requires s.caller.Idle? && s.dials == map[]
    ensures From(strict, s, es) == Some(t) && t == s.(socket := None, connected := false, caller := Forgetting, dials := map[c := Connecting])
  {
    es, t := Then(strict, s, [], s, Disconnect);
    es, t := Then(strict, s, es, t, CloseState);
    es, t := Then(strict, s, es, t, StartDial(c));
  }

  /**
   The one clause of `CalmStep` about dials that start during a call is needed from every
   state with a filter in the table: `WebSocketClient.disconnect` clears the table last, and
   a dial that starts before that can connect and resubscribe first.
   */
  lemma DialDuringDisconnectDisagrees(run: seq<Step>) returns (es: seq<Step>, t: State)
    requires CalmRun(true, run) && Final(true, run).Some?
    requires var s := Final(true, run).value; s.caller.Idle? && s.dials == map[] && s.table != {}
    ensures From(true, Final(true, run).value, es) == Some(t) && Settled(t) && !Agrees(t)
    ensures t.table == {} && t.socket.value.live == AllOnWire(Final(true, run).value.table)
  {
    var s := Final(true, run).value;
    RunKeepsInv(true, INIT, run);
    es, t := DialDuringDisconnect(true, s, 0);
    es, t := DrainDial(true, s, es, t, 0);
    assert t.dials == map[] && t.table == s.table;
    RunKeepsInv(true, s, es);
    forall w | w in AllOnWire(t.table) ensures w in t.socket.value.live {
      var f :| f in t.table && OnWire(f) == w;
      assert Accounted(t, f);
    }
    var f := AnyOf(s.table);
    assert OnWire(f) in AllOnWire(s.table);
    es, t := Then(true, s, es, t, ForgetAll);
    assert t.dials == map[];
  }

  // ---- One call during a dial can be enough --------------------------------------------------------------------

  /** A dial that has opened its socket, up to the end of a resubscription that has nothing to send. */
  lemma FinishEmptyDial(strict: bool, es: seq<Step>, t: State, c: nat) returns (longer: seq<Step>, u: State)
    requires Final(strict, es) == Some(t)
    requires t.table == {} && t.dials == map[c := Dialled]
    ensures Final(strict, longer) == Some(u) && u == t.(connected := true, dials := map[])
  {
    longer, u := Then(strict, INIT, es, t, MarkConnected(c));
    longer, u := Then(strict, INIT, longer, u, StartResubscribe(c));
    assert u.dials[c].cursor.rest == {};
    longer, u := Then(strict, INIT, longer, u, EndResubscribe(c));
    assert u.dials == map[];
  }

  lemma FirstSubscribe(f: Filter) returns (es: seq<Step>, t: State)
    ensures Final(false, es) == Some(t) && t == State({f}, true, Some(Socket({}, false)), Sending(f, true), map[])
  {
    es, t := Then(false, INIT, [], INIT, StartDial(0));
    es, t := Then(false, INIT, es, t, OpenSocket(0));
    assert t.dials == map[0 := Dialled];
    es, t := FinishEmptyDial(false, es, t, 0);
    es, t := Then(false, INIT, es, t, Subscribe(f));
    es, t := Then(false, INIT, es, t, ReadState);
  }

  lemma DropAndEarlySend(f: Filter) returns (es: seq<Step>, t: State)
    ensures Final(false, es) == Some(t) && t == State({f}, false, Some(Socket({OnWire(f)}, false)), Idle, map[1 := Dialled])
  {
    es, t := FirstSubscribe(f);
    es, t := Then(false, INIT, es, t, LoseSocket);
    es, t := Then(false, INIT, es, t, LowerState);
    es, t := Then(false, INIT, es, t, StartDial(1));
    es, t := Then(false, INIT, es, t, OpenSocket(1));
    assert t.dials == map[1 := Dialled];
    es, t := Then(false, INIT, es, t, SendCommand);
    assert {} + {OnWire(f)} == {OnWire(f)};
  }

  lemma SilentUnsubscribe(f: Filter) returns (es: seq<Step>, t: State)
    ensures Final(false, es) == Some(t) && t == State({}, false, Some(Socket({OnWire(f)}, true)), Idle, map[1 := Dialled])
  {
    es, t := DropAndEarlySend(f);
    es, t := Then(false, INIT, es, t, Unsubscribe(f));
    assert t.table == {} && t.dials == map[1 := Dialled];
    es, t := Then(false, INIT, es, t, ReadState);
  }

  /**
   `SpooledRealtime` sends whenever it has a socket.  A `subscribe` that read the state before
   a drop can reach the new socket early; an `unsubscribe` that starts then sees CONNECTING
   and is never sent.
   */
  lemma EarlySendCanDisagree(f: Filter) returns (es: seq<Step>, t: State)
    ensures Final(false, es) == Some(t) && Settled(t) && !Agrees(t) && t.table == {} && t.socket.value.live == {OnWire(f)}
  {
    es, t := SilentUnsubscribe(f);
    es, t := FinishEmptyDial(false, es, t, 1);
  }
}
