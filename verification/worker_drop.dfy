/**
 Claimed jobs of the threaded worker can be dropped at shutdown.

 `_process_job` reads `self._executor` twice without the lock that `stop` does not take
 either.  When `stop` sets it to None between the two reads, the exception of `None.submit`
 is no RuntimeError: it leaves the loop over the claimed batch, and the rest of the batch is
 neither registered nor released.
 */
module WorkerDrop {
  import opened Wrappers
  import opened WorkerBlocks
  import opened LeaseServer
  import opened WorkerProtocol
  import opened WorkerInvariants
  import Theorems = WorkerTheorems

  // ---- When claims are dropped ----------------------------------------------------------------------------

  /** The broken submit with jobs left in the batch. */
  predicate BreaksBatch(s: System, a: Action) {
    a == PollStep(SubmitBreaks) && Waiting(s.poll) != []
  }

  lemma PollDrops(cfg: Config, s: System, a: PollAction)
    requires PollEnabled(cfg, s, a)
    ensures PollApply(cfg, s, a).dropped == s.dropped + (if a.SubmitBreaks? then Waiting(s.poll) else [])
  {
  }

  lemma StepDrops(cfg: Config, s: System, a: Action)
    requires Enabled(cfg, s, a)
    ensures Apply(cfg, s, a).dropped == s.dropped + (if BreaksBatch(s, a) then Waiting(s.poll) else [])
  {
    match a {
      case PollStep(p) => PollDrops(cfg, s, p);
      case StopStep(st) => assert StopApply(cfg, s, st).dropped == s.dropped;
      case _ =>
    }
  }

  /**
   A step drops claims exactly when it is the broken submit with jobs left in the batch, it
   drops those jobs, and it can happen only to a threaded worker whose stop cut its wait for
   the claim and closed intake.
   */
  lemma DropsExactlyWhenSubmitBreaks(cfg: Config, s: System, a: Action)
    requires StopInv(cfg, s) && PollInv(cfg, s) && Enabled(cfg, s, a)
    ensures var s' := Apply(cfg, s, a);
      && (s'.dropped != s.dropped <==> BreaksBatch(s, a))
      && s'.dropped == s.dropped + (if BreaksBatch(s, a) then Waiting(s.poll) else [])
    ensures BreaksBatch(s, a) ==> s.pollWaitCut && s.sh.intakeClosed && !cfg.isAsync
  {
    StepDrops(cfg, s, a);
    var more := if BreaksBatch(s, a) then Waiting(s.poll) else [];
    assert |s.dropped + more| == |s.dropped| + |more|;
  }

  predicate SomeBatchBreaks(cfg: Config, s: System, run: seq<Action>)
    requires After(cfg, s, run).Some?
    decreases |run|
  {
    run != [] && (BreaksBatch(s, run[0]) || SomeBatchBreaks(cfg, Apply(cfg, s, run[0]), run[1..]))
  }

  lemma {:induction false} RunDrops(cfg: Config, s: System, run: seq<Action>)
    requires Inv(cfg, s) && After(cfg, s, run).Some?
    ensures s.dropped <= After(cfg, s, run).value.dropped
    ensures After(cfg, s, run).value.dropped != s.dropped <==> SomeBatchBreaks(cfg, s, run)
    decreases |run|
  {
    if run != [] {
      DropsExactlyWhenSubmitBreaks(cfg, s, run[0]);
      Theorems.StepKeepsInv(cfg, s, run[0]);
      RunDrops(cfg, Apply(cfg, s, run[0]), run[1..]);
    }
  }

  /**
   Over a whole run every claimed job is registered, waiting in its batch, or on the release
   path, if and only if no submit broke with jobs left in its batch.
   */
  lemma NothingLostUnlessSubmitBroke(cfg: Config, s0: System, run: seq<Action>)
    requires Init(cfg, s0) && After(cfg, s0, run).Some?
    ensures var s := After(cfg, s0, run).value;
      multiset(s.delivered) == multiset(Claims(s.sh.execs)) + multiset(Waiting(s.poll)) + multiset(s.released)
      <==> !SomeBatchBreaks(cfg, s0, run)
  {
    var s := After(cfg, s0, run).value;
    Theorems.InitInv(cfg, s0);
    RunDrops(cfg, s0, run);
    Theorems.RunKeepsInv(cfg, s0, run);
    var kept := multiset(Claims(s.sh.execs)) + multiset(Waiting(s.poll)) + multiset(s.released);
    assert multiset(s.delivered) == kept + multiset(s.dropped);
    assert |multiset(s.delivered)| == |kept| + |s.dropped|;
  }

  // ---- What becomes of a dropped claim ------------------------------------------------------------------------

  /** A dropped claim is nowhere else. */
  lemma DroppedIsNowhereElse(cfg: Config, s: System, c: Claimed)
    requires ClaimInv(cfg, s) && c in s.dropped
    ensures c !in Claims(s.sh.execs) && c !in Waiting(s.poll) && c !in s.released
  {
    forall i, j | 0 <= i < j < |s.delivered| ensures s.delivered[i].lease != s.delivered[j].lease {
      assert Granted(s)[i] == s.delivered[i] && Granted(s)[j] == s.delivered[j];
    }
    Theorems.DistinctOnce(s.delivered, c);
    assert c in multiset(s.dropped);
    assert multiset(Claims(s.sh.execs))[c] == multiset(Waiting(s.poll))[c] == multiset(s.released)[c] == 0;
  }

  /** The one claim a step may send a message about. */
  predicate MayAck(s: System, a: Action, c: Claimed) {
    match a
    case PollStep(p) => p.ReleaseCall? && s.poll.PollReleasing? && c == s.poll.claim
    case AckStep(w, e, k) => e < |s.sh.execs| && c == s.sh.execs[e].claim
    case _ => false
  }

  lemma PollSends(cfg: Config, s: System, a: PollAction, m: Message)
    requires PollEnabled(cfg, s, a) && m in PollApply(cfg, s, a).sv.sent && m !in s.sv.sent
    ensures MayAck(s, PollStep(a), m.claim)
  {
    if a.ReleaseCall? { assert s.poll.PollReleasing?; }
  }

  lemma SendsAre(cfg: Config, s: System, a: Action, m: Message)
    requires Enabled(cfg, s, a) && m in Apply(cfg, s, a).sv.sent && m !in s.sv.sent && m.worker == cfg.worker
    ensures MayAck(s, a, m.claim)
  {
    if a.PollStep? { PollSends(cfg, s, a.p, m); }
  }

  /** No step of the worker acks a dropped claim: only the end of its lease frees the job. */
  lemma DroppedIsNeverAcked(cfg: Config, s: System, a: Action, c: Claimed, m: Message)
    requires ClaimInv(cfg, s) && ReleaseInv(cfg, s) && Enabled(cfg, s, a) && c in s.dropped
    requires m in Apply(cfg, s, a).sv.sent && m !in s.sv.sent && m.worker == cfg.worker
    ensures m.claim != c
  {
    SendsAre(cfg, s, a, m);
    DroppedIsNowhereElse(cfg, s, c);
    if a.AckStep? {
      assert Claims(s.sh.execs)[a.e] == m.claim;
    } else {
      assert s.poll.claim in s.released;
    }
  }

  // ---- A run that drops one -------------------------------------------------------------------------------------

  /** A threaded worker that can claim two jobs at once. */
  predicate TakesBatches(cfg: Config) {
    !cfg.isAsync && cfg.concurrency >= 2
  }

  const FIRST := Claimed(0, 0, 0, 3)
  const SECOND := Claimed(1, 1, 0, 3)

  function TwoPending(): Server {
    Server(map[0 := Pending(0, 3), 1 := Pending(0, 3)], [], [], {}, {})
  }

  function BothLeased(w: WorkerId, sent: set<Message>): Server {
    Server(map[0 := Processing(0, 0, 3), 1 := Processing(1, 0, 3)], [Grant(FIRST, w), Grant(SECOND, w)], [], sent, {})
  }

  function Polling(w: WorkerId, state: Lifecycle, active: map<JobId, ExecId>, execs: seq<Execution>, closed: bool): Shared {
    Shared(state, Some(w), Some(w), active, execs, closed, 1, 0)
  }

  function Held(settled: bool, abandoned: bool): seq<Execution> {
    [Execution(FIRST, settled, abandoned, false)]
  }

  /** The threads of the first job: only its heartbeat and stop have done anything. */
  function Stopper(stop: Pc, grantee: Option<Who>, calls: seq<Kind>): seq<Threads> {
    [Threads(Off, Off, stop, BeatScheduled, false, grantee, calls, 0, 0, 0)]
  }

  function Point(w: WorkerId, sh: Shared, threads: seq<Threads>, poll: Poll, stop: Stop, executor: Executor, sent: set<Message>): System {
    System(sh, threads, poll, stop, executor, BothLeased(w, sent), !stop.StopNone? && !stop.StopWaitPoll?, false,
           [FIRST, SECOND], [], [], [])
  }

  function OneGranted(w: WorkerId): Server {
    Server(map[0 := Processing(0, 0, 3), 1 := Pending(0, 3)], [Grant(FIRST, w)], [], {}, {})
  }

  lemma FirstGrant(cfg: Config)
    ensures GrantLease(TwoPending(), 0, cfg.worker) == OneGranted(cfg.worker) && NextClaim(TwoPending(), 0) == FIRST && [] + [FIRST] == [FIRST]
  {
    assert GrantLease(TwoPending(), 0, cfg.worker).rows == OneGranted(cfg.worker).rows;
  }

  lemma FirstGranted(cfg: Config, s0: System)
    requires TakesBatches(cfg) && s0 == Initial(cfg, TwoPending())
    ensures Reaches(cfg, s0, s0.(sh := Polling(cfg.worker, WorkerRunning, map[], [], false), sv := OneGranted(cfg.worker), poll := PollClaiming(cfg.concurrency, cfg.worker, [FIRST])))
  {
    assert After(cfg, s0, []) == Some(s0);
    var s1 := s0.(sh := Polling(cfg.worker, WorkerRunning, map[], [], false), poll := PollClaiming(cfg.concurrency, cfg.worker, []));
    Extend(cfg, s0, s0, PollStep(EnterPolling), s1);
    FirstGrant(cfg);
    Extend(cfg, s0, s1, PollStep(ClaimGrants(0)), s1.(sv := OneGranted(cfg.worker), poll := PollClaiming(cfg.concurrency, cfg.worker, [FIRST])));
  }

  lemma BatchClaimed(cfg: Config, s0: System)
    requires TakesBatches(cfg) && s0 == Initial(cfg, TwoPending())
    ensures Reaches(cfg, s0, Point(cfg.worker, Polling(cfg.worker, WorkerRunning, map[], [], false), [], PollBatch([FIRST, SECOND]), StopNone, Running, {}))
  {
    FirstGranted(cfg, s0);
    var sh := Polling(cfg.worker, WorkerRunning, map[], [], false);
    var s2 := s0.(sh := sh, sv := OneGranted(cfg.worker), poll := PollClaiming(cfg.concurrency, cfg.worker, [FIRST]));
    assert GrantLease(OneGranted(cfg.worker), 1, cfg.worker) == BothLeased(cfg.worker, {});
    var s3 := s2.(sv := BothLeased(cfg.worker, {}), poll := PollClaiming(cfg.concurrency, cfg.worker, [FIRST, SECOND]));
    assert [FIRST] + [SECOND] == [FIRST, SECOND];
    Extend(cfg, s0, s2, PollStep(ClaimGrants(1)), s3);
    var s4 := Point(cfg.worker, sh, [], PollBatch([FIRST, SECOND]), StopNone, Running, {});
    assert [] + [FIRST, SECOND] == [FIRST, SECOND];
    Extend(cfg, s0, s3, PollStep(ClaimReturns), s4);
  }

  /** The first job is registered, and the poll thread has seen an executor. */
  lemma SubmitImminent(cfg: Config, s0: System)
    requires TakesBatches(cfg) && s0 == Initial(cfg, TwoPending())
    ensures Reaches(cfg, s0, Point(cfg.worker, Polling(cfg.worker, WorkerRunning, map[0 := 0], Held(false, false), false), Stopper(Off, None, []),
                                   PollSubmitting(0, [SECOND]), StopNone, Running, {}))
  {
    BatchClaimed(cfg, s0);
    var s4 := Point(cfg.worker, Polling(cfg.worker, WorkerRunning, map[], [], false), [], PollBatch([FIRST, SECOND]), StopNone, Running, {});
    var sh := Polling(cfg.worker, WorkerRunning, map[0 := 0], Held(false, false), false);
    assert [FIRST, SECOND][1..] == [SECOND] && Register(s4.sh, FIRST) == sh;
    var s5 := Point(cfg.worker, sh, [NewThreads()], PollScheduling(0, [SECOND]), StopNone, Running, {});
    Extend(cfg, s0, s4, PollStep(TakeNext), s5);
    var s6 := Point(cfg.worker, sh, Stopper(Off, None, []), PollChecking(0, [SECOND]), StopNone, Running, {});
    Extend(cfg, s0, s5, PollStep(ScheduleBeat), s6);
    var s7 := Point(cfg.worker, sh, Stopper(Off, None, []), PollSubmitting(0, [SECOND]), StopNone, Running, {});
    Extend(cfg, s0, s6, PollStep(CheckExecutor), s7);
  }

  /** Stop gives up waiting for the claim, closes intake and turns to the first job. */
  lemma StopTurnsToJob(cfg: Config, s0: System)
    requires TakesBatches(cfg) && s0 == Initial(cfg, TwoPending())
    ensures Reaches(cfg, s0, Point(cfg.worker, Polling(cfg.worker, WorkerStopping, map[0 := 0], Held(false, false), true), Stopper(Settling(FailAck), None, []),
                                   PollSubmitting(0, [SECOND]), StopAbandoning(0, {}), Running, {}))
  {
    SubmitImminent(cfg, s0);
    var at, off := PollSubmitting(0, [SECOND]), Stopper(Off, None, []);
    var open := Polling(cfg.worker, WorkerStopping, map[0 := 0], Held(false, false), false);
    var closed := Polling(cfg.worker, WorkerStopping, map[0 := 0], Held(false, false), true);
    var s7 := Point(cfg.worker, Polling(cfg.worker, WorkerRunning, map[0 := 0], Held(false, false), false), off, at, StopNone, Running, {});
    var s8 := Point(cfg.worker, open, off, at, StopWaitPoll, Running, {});
    Extend(cfg, s0, s7, StopStep(StopBegins), s8);
    var s9 := Point(cfg.worker, open, off, at, StopDrain, Running, {});
    Extend(cfg, s0, s8, StopStep(StopPollCut), s9);
    var s10 := Point(cfg.worker, closed, off, at, StopSnapshot, Running, {});
    Extend(cfg, s0, s9, StopStep(StopDrained(true)), s10);
    assert map[0 := 0].Values == {0};
    var s11 := Point(cfg.worker, closed, off, at, StopLoop({0}), Running, {});
    Extend(cfg, s0, s10, StopStep(StopLists), s11);
    assert {0} - {0} == {};
    var s12 := Point(cfg.worker, closed, Stopper(Settling(FailAck), None, []), at, StopAbandoning(0, {}), Running, {});
    Extend(cfg, s0, s11, StopStep(StopPicks(0)), s12);
  }

  function Abandoning(w: WorkerId, settled: bool, abandoned: bool, active: map<JobId, ExecId>, pc: Pc, calls: seq<Kind>): System {
    var sh := Polling(w, WorkerStopping, active, Held(settled, abandoned), true)
              .(abandonedRunning := if abandoned then 1 else 0);
    Point(w, sh, Stopper(pc, if settled then Some(ByStop) else None, calls), PollSubmitting(0, [SECOND]), StopAbandoning(0, {}),
          Running, if calls == [] then {} else {Message(FailAck, FIRST, w)})
  }

  /** It takes settlement of the first job. */
  lemma StopSettlesJob(cfg: Config, s0: System)
    requires TakesBatches(cfg) && s0 == Initial(cfg, TwoPending())
    ensures Reaches(cfg, s0, Abandoning(cfg.worker, true, false, map[0 := 0], Checking(FailAck), []))
  {
    StopTurnsToJob(cfg, s0);
    var held := map[0 := 0];
    var s12 := Abandoning(cfg.worker, false, false, held, Settling(FailAck), []);
    var s13 := Abandoning(cfg.worker, true, false, held, Checking(FailAck), []);
    assert Held(false, false)[0 := Held(true, false)[0]] == Held(true, false);
    Extend(cfg, s0, s12, AckStep(ByStop, 0, Settle), s13);
  }

  /** It fails it. */
  lemma StopFailsJob(cfg: Config, s0: System)
    requires TakesBatches(cfg) && s0 == Initial(cfg, TwoPending())
    ensures Reaches(cfg, s0, Abandoning(cfg.worker, true, false, map[0 := 0], Awaiting(FailAck), [FailAck]))
  {
    StopSettlesJob(cfg, s0);
    var held := map[0 := 0];
    var s13 := Abandoning(cfg.worker, true, false, held, Checking(FailAck), []);
    var s14 := Abandoning(cfg.worker, true, false, held, Calling(FailAck), []);
    Extend(cfg, s0, s13, AckStep(ByStop, 0, CheckLease), s14);
    var s15 := Abandoning(cfg.worker, true, false, held, Awaiting(FailAck), [FailAck]);
    assert Send(s14.sv, Message(FailAck, FIRST, cfg.worker)) == s15.sv;
    assert s14.threads[0].calls + [FailAck] == [FailAck];
    Extend(cfg, s0, s14, AckStep(ByStop, 0, Call), s15);
  }

  lemma StopAbandonsJob(cfg: Config, s0: System)
    requires TakesBatches(cfg) && s0 == Initial(cfg, TwoPending())
    ensures Reaches(cfg, s0, Abandoning(cfg.worker, true, true, map[], Finished, [FailAck]))
  {
    StopFailsJob(cfg, s0);
    var s15 := Abandoning(cfg.worker, true, false, map[0 := 0], Awaiting(FailAck), [FailAck]);
    var s16 := Abandoning(cfg.worker, true, false, map[0 := 0], Closing, [FailAck]);
    Extend(cfg, s0, s15, AckStep(ByStop, 0, CallError), s16);
    var s17 := Abandoning(cfg.worker, true, true, map[], Finished, [FailAck]);
    assert map[0 := 0] - {0} == map[];
    assert Held(true, false)[0 := Held(true, true)[0]] == Held(true, true);
    Extend(cfg, s0, s16, AckStep(ByStop, 0, Close), s17);
  }

  /** It shuts the executor down and clears the field. */
  lemma ExecutorGone(cfg: Config, s0: System)
    requires TakesBatches(cfg) && s0 == Initial(cfg, TwoPending())
    ensures Reaches(cfg, s0, Abandoning(cfg.worker, true, true, map[], Finished, [FailAck]).(stop := StopDeregister, executor := Gone))
  {
    StopAbandonsJob(cfg, s0);
    var s17 := Abandoning(cfg.worker, true, true, map[], Finished, [FailAck]);
    Extend(cfg, s0, s17, StopStep(StopNext), s17.(stop := StopLoop({})));
    Extend(cfg, s0, s17.(stop := StopLoop({})), StopStep(StopLoopEnds), s17.(stop := StopExecutor));
    var s20 := s17.(stop := StopForgetExecutor, executor := ShutDown);
    Extend(cfg, s0, s17.(stop := StopExecutor), StopStep(StopShutsExecutor), s20);
    Extend(cfg, s0, s20, StopStep(StopForgetsExecutor), s17.(stop := StopDeregister, executor := Gone));
  }

  /** A claimed job can be dropped: held under a live lease, neither registered nor released. */
  lemma DropIsReachable(cfg: Config) returns (s: System)
    requires TakesBatches(cfg)
    ensures Reachable(cfg, s) && s.dropped == [SECOND] && s.poll == PollBatch([])
    ensures SECOND in s.delivered && SECOND !in Claims(s.sh.execs) && SECOND !in s.released
    ensures s.sv.Current(SECOND.lease)
  {
    var s0 := Initial(cfg, TwoPending());
    ExecutorGone(cfg, s0);
    var before := Abandoning(cfg.worker, true, true, map[], Finished, [FailAck]).(stop := StopDeregister, executor := Gone);
    s := before.(poll := PollBatch([]), dropped := [SECOND]);
    assert [] + [SECOND] == [SECOND];
    Extend(cfg, s0, before, PollStep(SubmitBreaks), s);
    assert Init(cfg, s0);
    assert Claims(s.sh.execs) == [FIRST];
  }

  /** Claimed jobs can be dropped if and only if the worker is threaded and can claim two at once. */
  lemma DropsExactlyWithBatches(cfg: Config)
    ensures (exists s :: Reachable(cfg, s) && s.dropped != []) <==> !cfg.isAsync && cfg.concurrency >= 2
  {
    if TakesBatches(cfg) {
      var s := DropIsReachable(cfg);
    }
    forall s | Reachable(cfg, s) && s.dropped != [] ensures TakesBatches(cfg) {
      Theorems.ReachableInv(cfg, s);
    }
  }
}
