/**
 The dial budget when several threads report dead sockets at the same time.

 `_handle_disconnect` takes no lock: between reading `_connected_at` and clearing it another
 report can read the same uptime, and between the check of `_reconnect_attempts` and the
 increment in `_schedule_reconnect` another report can pass the same check.  Receive threads
 report a socket that broke; timer threads report a dial, or a resubscription, that failed.
 As each of these threads handles one report at a time, the reports in progress are at most
 the threads alive; the code does not limit those, and here any number may start.
 */
module DialRaces {
  import opened Wrappers
  import opened Bounds
  import opened DialBudget
  import opened Sets

  /** How far the handling of one report has come, and for which socket it read the uptime. */
  datatype Report = Noticed(stamp: Option<real>, socket: nat) | Entered(stable: bool, socket: nat) | Checking | Passed

  /** `socket` counts the sockets opened; `paid` lists the sockets whose uptime restored the budget. */
  datatype System = System(link: Link, reports: map<nat, Report>, socket: nat, paid: seq<nat>)

  datatype Step =
    | Notices(id: nat)                           // reads `_connected_at`
    | Clears(id: nat, now: real)                 // forgets it, and looks at the clock
    | Resets(id: nat)
    | Checks(id: nat)
    | Schedules(id: nat)
    | Fires(dial: Dial, now: real)               // a dial that failed is then reported

  predicate Enabled(s: System, e: Step) {
    match e
    case Notices(id) => id !in s.reports
    case Clears(id, _) => id in s.reports && s.reports[id].Noticed?
    case Resets(id) => id in s.reports && s.reports[id].Entered?
    case Checks(id) => id in s.reports && s.reports[id].Checking?
    case Schedules(id) => id in s.reports && s.reports[id].Passed?
    case Fires(_, _) => s.link.timers > 0
  }

  function Fired(o: Options, s: System, dial: Dial, now: real): System {
    var link := s.link.(timers := if s.link.timers > 0 then s.link.timers - 1 else 0);
    if AlreadyConnected(o, s.link) then s.(link := link)
    else match dial
      case Opened => s.(link := AfterDial(o, s.link, dial, now), socket := s.socket + 1)
      case Refused(rejected) =>
        s.(link := if o.unified && rejected then link.(state := ConnectionState.Disconnected) else link)
  }

  function Apply(o: Options, s: System, e: Step): System
    requires Enabled(s, e)
  {
    match e
    case Notices(id) => s.(reports := s.reports[id := Noticed(s.link.connectedAt, s.socket)])
    case Clears(id, now) =>
      var r := s.reports[id];
      var stable := r.stamp.Some? && now - r.stamp.value >= STABLE_SECONDS;
      s.(link := s.link.(connectedAt := None), reports := s.reports[id := Entered(stable, r.socket)])
    case Resets(id) =>
      var r := s.reports[id];
      s.(link := if r.stable then s.link.(attempts := 0) else s.link,
         reports := s.reports[id := Checking],
         paid := if r.stable then s.paid + [r.socket] else s.paid)
    case Checks(id) =>
      if MayDial(o, s.link) then s.(reports := s.reports[id := Passed])
      else s.(link := s.link.(state := ConnectionState.Disconnected), reports := s.reports - {id})
    case Schedules(id) =>
      s.(link := s.link.(state := Reconnecting, attempts := s.link.attempts + 1, timers := s.link.timers + 1),
         reports := s.reports - {id})
    case Fires(dial, now) => Fired(o, s, dial, now)
  }

  /** The state a run ends in; None when some step could not happen. */
  function Final(o: Options, s: System, es: seq<Step>): Option<System> {
    if es == [] then Some(s)
    else match Final(o, s, es[..|es| - 1])
      case None => None
      case Some(t) => if Enabled(t, es[|es| - 1]) then Some(Apply(o, t, es[|es| - 1])) else None
  }

  lemma Then(o: Options, s: System, es: seq<Step>, t: System, e: Step) returns (longer: seq<Step>, u: System)
    requires Final(o, s, es) == Some(t) && Enabled(t, e)
    ensures longer == es + [e] && u == Apply(o, t, e) && Final(o, s, longer) == Some(u)
    ensures Dials(longer) == Dials(es) + if e.Schedules? then 1 else 0
    ensures forall n: nat :: AtMost(o, s, es, n) && |u.reports| <= n ==> AtMost(o, s, longer, n)
  {
    longer, u := es + [e], Apply(o, t, e);
    assert longer[..|longer| - 1] == es;
  }

  /** Dials scheduled in a run. */
  function Dials(es: seq<Step>): nat {
    if es == [] then 0 else Dials(es[..|es| - 1]) + if es[|es| - 1].Schedules? then 1 else 0
  }

  /** No more than `n` reports are being handled at any time of the run. */
  predicate AtMost(o: Options, s: System, es: seq<Step>, n: nat) {
    && (Final(o, s, es).Some? ==> |Final(o, s, es).value.reports| <= n)
    && (es != [] ==> AtMost(o, s, es[..|es| - 1], n))
  }

  // ---- The bound ----------------------------------------------------------------------------------------

  /** The reports that passed the check and have not counted their dial yet. */
  function Passing(reports: map<nat, Report>): set<nat> {
    set id | id in reports && reports[id].Passed?
  }

  lemma PassingChanges(reports: map<nat, Report>, id: nat, r: Report)
    ensures Passing(reports - {id}) == Passing(reports) - {id}
    ensures Passing(reports[id := r]) == if r.Passed? then Passing(reports) + {id} else Passing(reports) - {id}
  {
  }

  lemma PassingAreFew(reports: map<nat, Report>)
    ensures |Passing(reports)| <= |reports|
  {
    SubsetSize(Passing(reports), reports.Keys);
  }

  ghost predicate WithinBudget(o: Options, s: System, n: nat) {
    s.link.attempts + |Passing(s.reports)| < o.maxAttempts + n
  }

  lemma CheckKeepsBudget(o: Options, s: System, id: nat, n: nat)
    requires Enabled(s, Checks(id)) && WithinBudget(o, s, n) && |s.reports| <= n
    ensures WithinBudget(o, Apply(o, s, Checks(id)), n)
  {
    PassingChanges(s.reports, id, Passed);
    var t := Apply(o, s, Checks(id));
    if MayDial(o, s.link) {
      PassingAreFew(t.reports);
      assert t.reports.Keys == s.reports.Keys;
    } else {
      assert Passing(t.reports) == Passing(s.reports);
    }
  }

  lemma ScheduleKeepsBudget(o: Options, s: System, id: nat, n: nat)
    requires Enabled(s, Schedules(id)) && WithinBudget(o, s, n)
    ensures WithinBudget(o, Apply(o, s, Schedules(id)), n)
  {
    PassingChanges(s.reports, id, Passed);
    assert id in Passing(s.reports);
  }

  lemma StepKeepsBudget(o: Options, s: System, e: Step, n: nat)
    requires n >= 1 && Enabled(s, e) && WithinBudget(o, s, n) && |s.reports| <= n
    ensures WithinBudget(o, Apply(o, s, e), n)
  {
    match e {
      case Checks(id) => CheckKeepsBudget(o, s, id, n);
      case Schedules(id) => ScheduleKeepsBudget(o, s, id, n);
      case Resets(id) => PassingChanges(s.reports, id, Checking);
      case Notices(id) => PassingChanges(s.reports, id, Apply(o, s, e).reports[id]);
      case Clears(id, _) => PassingChanges(s.reports, id, Apply(o, s, e).reports[id]);
      case Fires(_, _) =>
    }
  }

  /** A dial is paid by the attempt it counts; what a reset takes back was earned. */
  lemma StepPays(o: Options, s: System, e: Step, n: nat)
    requires n >= 1 && Enabled(s, e) && WithinBudget(o, s, n)
    ensures var t := Apply(o, s, e);
      && |s.paid| <= |t.paid| <= |s.paid| + 1
      && (if e.Schedules? then 1 else 0) + s.link.attempts <=
           (if |t.paid| > |s.paid| then o.maxAttempts + n - 1 else 0) + t.link.attempts
  {
  }

  /** Each time a budget is restored it pays for at most `maxAttempts + n - 1` dials. */
  lemma {:induction false} DialsArePaid(o: Options, s: System, es: seq<Step>, n: nat)
    requires n >= 1 && s.reports == map[] && s.link.attempts <= o.maxAttempts && s.paid == []
    requires Final(o, s, es).Some? && AtMost(o, s, es, n)
    ensures WithinBudget(o, Final(o, s, es).value, n)
    ensures Dials(es) + s.link.attempts <=
      Times(|Final(o, s, es).value.paid|, o.maxAttempts + n - 1) + Final(o, s, es).value.link.attempts
    decreases |es|
  {
    if es == [] {
      assert Passing(s.reports) == {};
    } else {
      var front, e := es[..|es| - 1], es[|es| - 1];
      assert AtMost(o, s, front, n);
      DialsArePaid(o, s, front, n);
      var t := Final(o, s, front).value;
      StepKeepsBudget(o, t, e, n);
      StepPays(o, t, e, n);
    }
  }

  // ---- How often one socket pays ------------------------------------------------------------------------------

  /** A report that can still restore the budget for `k`. */
  predicate Holding(r: Report, k: nat) {
    match r
    case Noticed(stamp, socket) => stamp.Some? && socket == k
    case Entered(stable, socket) => stable && socket == k
    case _ => false
  }

  function Holders(reports: map<nat, Report>, k: nat): set<nat> {
    set id | id in reports && Holding(reports[id], k)
  }

  lemma HoldersChange(reports: map<nat, Report>, id: nat, r: Report, k: nat)
    ensures Holders(reports - {id}, k) == Holders(reports, k) - {id}
    ensures Holders(reports[id := r], k) == if Holding(r, k) then Holders(reports, k) + {id} else Holders(reports, k) - {id}
  {
  }

  /** While the uptime of a socket can still be read, nobody has gone on with it. */
  ghost predicate Unread(s: System) {
    && (forall id :: id in s.reports && !s.reports[id].Checking? && !s.reports[id].Passed? ==> s.reports[id].socket <= s.socket)
    && (forall i :: 0 <= i < |s.paid| ==> s.paid[i] <= s.socket)
    && (s.link.connectedAt.Some? ==>
          && s.socket !in s.paid
          && forall id :: id in s.reports && s.reports[id].Entered? && s.reports[id].stable ==> s.reports[id].socket != s.socket)
  }

  ghost predicate PaysAtMost(s: System, k: nat, n: nat) {
    multiset(s.paid)[k] + |Holders(s.reports, k)| <= n
  }

  lemma StepKeepsUnread(o: Options, s: System, e: Step)
    requires Unread(s) && Enabled(s, e)
    ensures Unread(Apply(o, s, e))
  {
  }

  lemma ResetKeepsPays(o: Options, s: System, id: nat, k: nat, n: nat)
    requires Enabled(s, Resets(id)) && PaysAtMost(s, k, n)
    ensures PaysAtMost(Apply(o, s, Resets(id)), k, n)
  {
    HoldersChange(s.reports, id, Checking, k);
    var r := s.reports[id];
    if r.stable && r.socket == k { assert id in Holders(s.reports, k); }
  }

  lemma NoticeKeepsPays(o: Options, s: System, id: nat, k: nat, n: nat)
    requires Enabled(s, Notices(id)) && Unread(s) && PaysAtMost(s, k, n) && |Apply(o, s, Notices(id)).reports| <= n
    ensures PaysAtMost(Apply(o, s, Notices(id)), k, n)
  {
    var t := Apply(o, s, Notices(id));
    if Holding(t.reports[id], k) {
      assert k !in s.paid;
      SubsetSize(Holders(t.reports, k), t.reports.Keys);
    } else {
      HoldersChange(s.reports, id, t.reports[id], k);
      SubsetSize(Holders(t.reports, k), Holders(s.reports, k));
    }
  }

  lemma ClearKeepsPays(o: Options, s: System, id: nat, now: real, k: nat, n: nat)
    requires Enabled(s, Clears(id, now)) && PaysAtMost(s, k, n)
    ensures PaysAtMost(Apply(o, s, Clears(id, now)), k, n)
  {
    var r := Apply(o, s, Clears(id, now)).reports[id];
    HoldersChange(s.reports, id, r, k);
    if Holding(r, k) {
      assert id in Holders(s.reports, k);
      assert Holders(s.reports, k) + {id} == Holders(s.reports, k);
    }
  }

  lemma LaterKeepsPays(o: Options, s: System, e: Step, id: nat, k: nat, n: nat)
    requires (e == Checks(id) || e == Schedules(id)) && Enabled(s, e) && PaysAtMost(s, k, n)
    ensures PaysAtMost(Apply(o, s, e), k, n)
  {
    HoldersChange(s.reports, id, Passed, k);
    var t := Apply(o, s, e);
    assert Holders(t.reports, k) == Holders(s.reports, k) - {id};
    SubsetSize(Holders(t.reports, k), Holders(s.reports, k));
  }

  lemma StepKeepsPays(o: Options, s: System, e: Step, k: nat, n: nat)
    requires Enabled(s, e) && Unread(s) && PaysAtMost(s, k, n) && |Apply(o, s, e).reports| <= n
    ensures PaysAtMost(Apply(o, s, e), k, n)
  {
    match e {
      case Notices(id) => NoticeKeepsPays(o, s, id, k, n);
      case Resets(id) => ResetKeepsPays(o, s, id, k, n);
      case Clears(id, now) => ClearKeepsPays(o, s, id, now, k, n);
      case Checks(id) => LaterKeepsPays(o, s, e, id, k, n);
      case Schedules(id) => LaterKeepsPays(o, s, e, id, k, n);
      case Fires(_, _) =>
    }
  }

  /** One socket restores the budget at most once for every report that was being handled. */
  lemma {:induction false} EachSocketPays(o: Options, s: System, es: seq<Step>, k: nat, n: nat)
    requires s.reports == map[] && s.paid == [] && Final(o, s, es).Some? && AtMost(o, s, es, n)
    ensures Unread(Final(o, s, es).value) && PaysAtMost(Final(o, s, es).value, k, n)
    decreases |es|
  {
    if es == [] {
      assert Holders(s.reports, k) == {};
    } else {
      var front, e := es[..|es| - 1], es[|es| - 1];
      assert AtMost(o, s, front, n);
      EachSocketPays(o, s, front, k, n);
      var t := Final(o, s, front).value;
      StepKeepsUnread(o, t, e);
      StepKeepsPays(o, t, e, k, n);
    }
  }

  /** The sockets that restored the budget. */
  function StableSockets(paid: seq<nat>): set<nat> {
    set k | k in paid
  }

  lemma {:induction false} SizeByKinds(m: multiset<nat>, kinds: set<nat>, n: nat)
    requires forall k :: k in m ==> k in kinds && m[k] <= n
    ensures |m| <= Times(|kinds|, n)
    decreases |kinds|
  {
    if k :| k in kinds {
      SizeByKinds(m[k := 0], kinds - {k}, n);
      assert m == m[k := 0][k := m[k]];
      assert |m| == |m[k := 0]| + m[k];
    } else {
      assert m == multiset{};
    }
  }

  /**
   With at most `n` reports handled at a time, in any interleaving: a socket that stayed up
   restores the budget at most `n` times, and each time that pays for at most
   `maxAttempts + n - 1` dials.
   */
  lemma OverlapBound(o: Options, s: System, es: seq<Step>, n: nat)
    requires n >= 1 && s.reports == map[] && s.link.attempts <= o.maxAttempts && s.paid == []
    requires Final(o, s, es).Some? && AtMost(o, s, es, n)
    ensures var t := Final(o, s, es).value;
      && WithinBudget(o, t, n)
      && |t.paid| <= Times(|StableSockets(t.paid)|, n)
      && Dials(es) + s.link.attempts <= Times(|t.paid|, o.maxAttempts + n - 1) + t.link.attempts
  {
    DialsArePaid(o, s, es, n);
    var t := Final(o, s, es).value;
    forall k | k in multiset(t.paid) ensures k in StableSockets(t.paid) && multiset(t.paid)[k] <= n {
      EachSocketPays(o, s, es, k, n);
    }
    SizeByKinds(multiset(t.paid), StableSockets(t.paid), n);
  }

  /** One report at a time: the budget is never exceeded, and each stable socket restores it once. */
  lemma AloneStaysInBudget(o: Options, s: System, es: seq<Step>)
    requires s.reports == map[] && s.link.attempts <= o.maxAttempts && s.paid == []
    requires Final(o, s, es).Some? && AtMost(o, s, es, 1)
    ensures var t := Final(o, s, es).value;
      && t.link.attempts <= o.maxAttempts
      && |t.paid| <= |StableSockets(t.paid)|
      && (t.paid == [] ==> Dials(es) <= o.maxAttempts - s.link.attempts)
  {
    OverlapBound(o, s, es, 1);
    ProductOf(|StableSockets(Final(o, s, es).value.paid)|, 1, 0.0);
  }

  /** Handled alone, a report does what `DialBudget.AfterDrop` says. */
  lemma AloneIsAfterDrop(o: Options, s: System, id: nat, now: real) returns (es: seq<Step>, t: System)
    requires s.reports == map[]
    ensures Final(o, s, es) == Some(t) && t.reports == map[] && t.link == AfterDrop(o, s.link, now)
  {
    es, t := Then(o, s, [], s, Notices(id));
    es, t := Then(o, s, es, t, Clears(id, now));
    es, t := Then(o, s, es, t, Resets(id));
    assert t.link == ResetIfStable(s.link, now);
    es, t := Then(o, s, es, t, Checks(id));
    if t.reports != map[] {
      es, t := Then(o, s, es, t, Schedules(id));
    }
  }

  /** Two reports of one socket that stayed up can both restore the budget, each paying for a dial. */
  lemma OneSocketPaysTwice(o: Options, s: System, now: real) returns (es: seq<Step>, t: System)
    requires o.autoReconnect && o.maxAttempts >= 1 && s.reports == map[] && s.paid == [] && IsStable(s.link, now)
    ensures Final(o, s, es) == Some(t) && t.reports == map[]
    ensures t.paid == [s.socket, s.socket] && Dials(es) == 2 && t.link.attempts == 1
  {
    es, t := BothNotice(o, s, now);
    es, t := Then(o, s, es, t, Resets(0));
    es, t := Then(o, s, es, t, Checks(0));
    es, t := Then(o, s, es, t, Schedules(0));
    assert t.reports == map[1 := Entered(true, s.socket)];
    es, t := Then(o, s, es, t, Resets(1));
    es, t := Then(o, s, es, t, Checks(1));
    es, t := Then(o, s, es, t, Schedules(1));
    assert t.reports == map[];
  }

  lemma BothNotice(o: Options, s: System, now: real) returns (es: seq<Step>, t: System)
    requires s.reports == map[] && IsStable(s.link, now)
    ensures Final(o, s, es) == Some(t) && Dials(es) == 0
    ensures t == s.(link := s.link.(connectedAt := None),
                    reports := map[0 := Entered(true, s.socket), 1 := Entered(true, s.socket)])
  {
    es, t := Then(o, s, [], s, Notices(0));
    es, t := Then(o, s, es, t, Notices(1));
    es, t := Then(o, s, es, t, Clears(0, now));
    es, t := Then(o, s, es, t, Clears(1, now));
    assert t.reports == map[0 := Entered(true, s.socket), 1 := Entered(true, s.socket)];
  }

  // ---- The bound is reached --------------------------------------------------------------------------------

  function AllPassed(n: nat): (r: map<nat, Report>)
    ensures |r| == n && forall id: nat :: id in r <==> id < n
  {
    if n == 0 then map[] else AllPassed(n - 1)[n - 1 := Passed]
  }

  lemma OnePasses(o: Options, s: System, es: seq<Step>, t: System, id: nat, now: real) returns (longer: seq<Step>, u: System)
    requires Final(o, s, es) == Some(t) && MayDial(o, t.link) && id !in t.reports && !IsStable(t.link, now)
    ensures Final(o, s, longer) == Some(u) && Dials(longer) == Dials(es)
    ensures u == t.(link := t.link.(connectedAt := None), reports := t.reports[id := Passed])
    ensures forall m: nat :: |t.reports| < m && AtMost(o, s, es, m) ==> AtMost(o, s, longer, m)
  {
    longer, u := Then(o, s, es, t, Notices(id));
    assert u.reports.Keys == t.reports.Keys + {id};
    longer, u := Then(o, s, longer, u, Clears(id, now));
    assert u.reports.Keys == t.reports.Keys + {id};
    longer, u := Then(o, s, longer, u, Resets(id));
    longer, u := Then(o, s, longer, u, Checks(id));
    assert u.reports == t.reports[id := Passed];
  }

  /** Report after report passes the check while none has counted. */
  lemma {:induction false} AllPass(o: Options, s: System, n: nat, now: real) returns (es: seq<Step>, t: System)
    requires MayDial(o, s.link) && s.reports == map[] && !IsStable(s.link, now)
    ensures Final(o, s, es) == Some(t) && Dials(es) == 0 && forall m: nat :: n <= m ==> AtMost(o, s, es, m)
    ensures t.reports == AllPassed(n) && t.link == if n == 0 then s.link else s.link.(connectedAt := None)
  {
    if n == 0 {
      es, t := [], s;
    } else {
      var id := n - 1;
      es, t := AllPass(o, s, id, now);
      es, t := OnePasses(o, s, es, t, id, now);
      assert t.reports == AllPassed(n);
    }
  }

  /** Then each schedules its dial. */
  lemma {:induction false} AllSchedule(o: Options, s: System, es: seq<Step>, t: System, n: nat) returns (longer: seq<Step>, u: System)
    requires Final(o, s, es) == Some(t) && t.reports == AllPassed(n)
    ensures Final(o, s, longer) == Some(u) && Dials(longer) == Dials(es) + n
    ensures forall m: nat :: n <= m && AtMost(o, s, es, m) ==> AtMost(o, s, longer, m)
    ensures u.reports == map[] && u.link.attempts == t.link.attempts + n
    decreases n
  {
    if n == 0 {
      longer, u := es, t;
    } else {
      longer, u := Then(o, s, es, t, Schedules(n - 1));
      assert AllPassed(n) - {n - 1} == AllPassed(n - 1);
      longer, u := AllSchedule(o, s, longer, u, n - 1);
    }
  }

  /**
   From any state with one attempt left, `n` overlapping reports of a socket that did not stay
   up can schedule `n` dials: the budget is exceeded by `n - 1`, the most `DialsArePaid` allows.
   How many can overlap is up to the threads alive.
   */
  lemma OverlapExceeds(o: Options, s: System, n: nat, now: real) returns (es: seq<Step>, t: System)
    requires o.autoReconnect && s.link.attempts + 1 == o.maxAttempts && s.reports == map[] && !IsStable(s.link, now)
    ensures Final(o, s, es) == Some(t) && t.reports == map[] && AtMost(o, s, es, n)
    ensures Dials(es) == n && t.link.attempts == o.maxAttempts + n - 1
  {
    es, t := AllPass(o, s, n, now);
    es, t := AllSchedule(o, s, es, t, n);
  }
}
