/**
 A concurrency slot of the threaded worker can be lost for good.

 `_abandon_job` marks an execution abandoned only after its `fail` call returned.  A handler
 that comes back during that call runs its cleanup first, finds no mark to clear, and
 finishes; the mark set afterwards is never cleared, and `_abandoned_running` counts a
 thread that no longer exists.
 */
module WorkerLeak {
  import opened Wrappers
  import opened Sets
  import opened WorkerBlocks
  import opened LeaseServer
  import opened WorkerProtocol
  import opened WorkerInvariants
  import opened WorkerTheorems

  /** Counted as a running thread although the handler thread is gone. */
  predicate Leaked(s: System, e: ExecId) {
    Exists(s, e) && s.sh.execs[e].abandoned && s.threads[e].handler.Finished?
  }

  lemma PollLeaks(cfg: Config, s: System, a: PollAction, e: ExecId)
    requires PollInv(cfg, s) && |s.threads| == |s.sh.execs| && PollEnabled(cfg, s, a) && Exists(s, e)
    ensures Leaked(PollApply(cfg, s, a), e) == Leaked(s, e)
  {
  }

  lemma AckLeaks(cfg: Config, s: System, w: Who, f: ExecId, k: AckAction, e: ExecId)
    requires !cfg.isAsync && |s.threads| == |s.sh.execs| && Enabled(cfg, s, AckStep(w, f, k)) && Exists(s, e)
    ensures var s' := Apply(cfg, s, AckStep(w, f, k));
      Leaked(s', e) <==> Leaked(s, e) || (f == e && k.Close? && !w.ByHandler? && s.threads[e].handler.Finished?)
  {
  }

  lemma JobLeaks(cfg: Config, s: System, f: ExecId, j: JobAction, e: ExecId)
    requires !cfg.isAsync && Enabled(cfg, s, JobStep(f, j)) && Exists(s, e)
    ensures Leaked(Apply(cfg, s, JobStep(f, j)), e) == Leaked(s, e)
  {
  }

  lemma BeatLeaks(cfg: Config, s: System, f: ExecId, b: BeatAction, e: ExecId)
    requires Enabled(cfg, s, BeatStep(f, b)) && Exists(s, e)
    ensures Leaked(Apply(cfg, s, BeatStep(f, b)), e) == Leaked(s, e)
  {
  }

  lemma StopLeaks(cfg: Config, s: System, a: StopAction, e: ExecId)
    requires StopEnabled(s, a) && Exists(s, e)
    ensures Leaked(StopApply(cfg, s, a), e) == Leaked(s, e)
  {
  }

  /**
   A step leaves `e` leaked exactly when it already was, or when the step is the closing
   section of `_abandon_job` and the handler of `e` has already finished.
   */
  lemma LeaksExactlyWhenHandlerBack(cfg: Config, s: System, a: Action, e: ExecId)
    requires PollInv(cfg, s) && |s.threads| == |s.sh.execs|
    requires !cfg.isAsync && Enabled(cfg, s, a) && Exists(s, e)
    ensures Leaked(Apply(cfg, s, a), e) <==>
      || Leaked(s, e)
      || (a.AckStep? && a.e == e && a.k.Close? && !a.w.ByHandler? && s.threads[e].handler.Finished?)
  {
    match a {
      case PollStep(p) => PollLeaks(cfg, s, p, e);
      case JobStep(f, j) => JobLeaks(cfg, s, f, j, e);
      case AckStep(w, f, k) => AckLeaks(cfg, s, w, f, k, e);
      case BeatStep(f, b) => BeatLeaks(cfg, s, f, b, e);
      case StopStep(st) => StopLeaks(cfg, s, st, e);
      case ServerStep(_) =>
    }
  }

  lemma {:induction false} LeakIsForever(cfg: Config, s: System, run: seq<Action>, e: ExecId)
    requires Inv(cfg, s) && !cfg.isAsync && Leaked(s, e) && After(cfg, s, run).Some?
    ensures Leaked(After(cfg, s, run).value, e)
    decreases |run|
  {
    if run != [] {
      StepKeepsInv(cfg, s, run[0]);
      LeaksExactlyWhenHandlerBack(cfg, s, run[0], e);
      LeakIsForever(cfg, Apply(cfg, s, run[0]), run[1..], e);
    }
  }

  // ---- What the counter counts ----------------------------------------------------------------------------

  function Marked(execs: seq<Execution>): set<ExecId> {
    set e | 0 <= e < |execs| && execs[e].abandoned
  }

  lemma {:induction false} CountIsMarked(execs: seq<Execution>)
    ensures CountAbandoned(execs) == |Marked(execs)|
  {
    if execs != [] {
      var n := |execs| - 1;
      CountIsMarked(execs[..n]);
      assert Marked(execs) == if execs[n].abandoned then Marked(execs[..n]) + {n} else Marked(execs[..n]);
    }
  }

  function LeakedSet(s: System): set<ExecId> {
    set e | 0 <= e < |s.sh.execs| && Leaked(s, e)
  }

  /** Abandoned executions whose handler thread has still to come back. */
  function StillRunning(s: System): set<ExecId> {
    set e | 0 <= e < |s.sh.execs| && s.sh.execs[e].abandoned && !Leaked(s, e)
  }

  /** `_abandoned_running` is the number of abandoned handler threads still running, plus the leaks. */
  lemma CounterCounts(cfg: Config, s: System)
    requires Inv(cfg, s)
    ensures s.sh.abandonedRunning == |StillRunning(s)| + |LeakedSet(s)|
  {
    CountIsMarked(s.sh.execs);
    assert Marked(s.sh.execs) == StillRunning(s) + LeakedSet(s);
    assert StillRunning(s) !! LeakedSet(s);
  }

  /** The last section of `_abandon_job` runs after the handler has ended. */
  predicate LateClose(s: System, a: Action) {
    a.AckStep? && a.k.Close? && !a.w.ByHandler? && Exists(s, a.e) && s.threads[a.e].handler.Finished?
  }

  lemma NewIsNotLeaked(cfg: Config, s: System, a: Action, e: ExecId)
    requires |s.threads| == |s.sh.execs| && Enabled(cfg, s, a) && !Exists(s, e)
    ensures !Leaked(Apply(cfg, s, a), e)
  {
    match a {
      case PollStep(p) => PollStartsClean(cfg, s, p, e);
      case StopStep(st) => assert StopApply(cfg, s, st).sh.execs == s.sh.execs;
      case _ =>
    }
  }

  lemma PollStartsClean(cfg: Config, s: System, a: PollAction, e: ExecId)
    requires |s.threads| == |s.sh.execs| && PollEnabled(cfg, s, a) && !Exists(s, e)
    ensures !Leaked(PollApply(cfg, s, a), e)
  {
  }

  lemma StepLeaksOne(cfg: Config, s: System, a: Action, e: ExecId)
    requires Inv(cfg, s) && !cfg.isAsync && Enabled(cfg, s, a)
    ensures Leaked(Apply(cfg, s, a), e) <==> Leaked(s, e) || (LateClose(s, a) && a.e == e)
  {
    if Exists(s, e) { LeaksExactlyWhenHandlerBack(cfg, s, a, e); } else { NewIsNotLeaked(cfg, s, a, e); }
  }

  ghost predicate AnyLeak(s: System) {
    exists e: ExecId :: Leaked(s, e)
  }

  lemma StepLeaks(cfg: Config, s: System, a: Action)
    requires Inv(cfg, s) && !cfg.isAsync && Enabled(cfg, s, a)
    ensures AnyLeak(Apply(cfg, s, a)) <==> AnyLeak(s) || LateClose(s, a)
  {
    if AnyLeak(Apply(cfg, s, a)) {
      var e: ExecId :| Leaked(Apply(cfg, s, a), e);
      StepLeaksOne(cfg, s, a, e);
    } else if AnyLeak(s) {
      var e: ExecId :| Leaked(s, e);
      StepLeaksOne(cfg, s, a, e);
    } else if LateClose(s, a) {
      StepLeaksOne(cfg, s, a, a.e);
    }
  }

  predicate SomeLateClose(cfg: Config, s: System, run: seq<Action>)
    requires After(cfg, s, run).Some?
    decreases |run|
  {
    run != [] && (LateClose(s, run[0]) || SomeLateClose(cfg, Apply(cfg, s, run[0]), run[1..]))
  }

  lemma {:induction false} RunLeaks(cfg: Config, s: System, run: seq<Action>)
    requires Inv(cfg, s) && !cfg.isAsync && After(cfg, s, run).Some?
    ensures AnyLeak(After(cfg, s, run).value) <==> AnyLeak(s) || SomeLateClose(cfg, s, run)
    decreases |run|
  {
    if run != [] {
      StepLeaks(cfg, s, run[0]);
      StepKeepsInv(cfg, s, run[0]);
      RunLeaks(cfg, Apply(cfg, s, run[0]), run[1..]);
    }
  }

  /**
   At the end of a whole run the counter is the number of abandoned handlers still running
   if and only if no abandonment's last section ran after its handler had ended.
   */
  lemma CounterExactUnlessLateClose(cfg: Config, s0: System, run: seq<Action>)
    requires Init(cfg, s0) && !cfg.isAsync && After(cfg, s0, run).Some?
    ensures var s := After(cfg, s0, run).value;
      s.sh.abandonedRunning == |StillRunning(s)| <==> !SomeLateClose(cfg, s0, run)
  {
    InitInv(cfg, s0);
    RunKeepsInv(cfg, s0, run);
    RunLeaks(cfg, s0, run);
    var s := After(cfg, s0, run).value;
    CounterCounts(cfg, s);
    if AnyLeak(s) {
      var e: ExecId :| Leaked(s, e);
      assert e in LeakedSet(s);
    } else {
      assert LeakedSet(s) == {};
    }
  }

  lemma LeaksFillSlots(cfg: Config, s: System, leaked: set<ExecId>)
    requires CounterInv(s) && |leaked| >= cfg.concurrency && forall e :: e in leaked ==> Leaked(s, e)
    ensures !MayPoll(s.sh, cfg.concurrency)
  {
    CountIsMarked(s.sh.execs);
    assert leaked <= Marked(s.sh.execs);
    SubsetSize(leaked, Marked(s.sh.execs));
  }

  /** As many leaks as slots. */
  ghost predicate Blocked(cfg: Config, s: System, leaked: set<ExecId>) {
    Inv(cfg, s) && |leaked| >= cfg.concurrency && forall e :: e in leaked ==> Leaked(s, e)
  }

  lemma LeaksBlockStep(cfg: Config, s: System, a: Action, leaked: set<ExecId>)
    requires !cfg.isAsync && Enabled(cfg, s, a) && Blocked(cfg, s, leaked)
    ensures a != PollStep(EnterPolling) && Blocked(cfg, Apply(cfg, s, a), leaked)
  {
    LeaksFillSlots(cfg, s, leaked);
    StepKeepsInv(cfg, s, a);
    forall e | e in leaked ensures Leaked(Apply(cfg, s, a), e) {
      LeaksExactlyWhenHandlerBack(cfg, s, a, e);
    }
  }

  /** Then the worker never claims again, although no handler may be running. */
  lemma {:induction false} LeaksStopPolling(cfg: Config, s: System, run: seq<Action>, leaked: set<ExecId>)
    requires !cfg.isAsync && After(cfg, s, run).Some? && Blocked(cfg, s, leaked)
    ensures forall i :: 0 <= i < |run| ==> run[i] != PollStep(EnterPolling)
    decreases |run|
  {
    if run != [] {
      LeaksBlockStep(cfg, s, run[0], leaked);
      LeaksStopPolling(cfg, Apply(cfg, s, run[0]), run[1..], leaked);
      NotInEither(run, PollStep(EnterPolling));
    }
  }

  lemma NotInEither(run: seq<Action>, a: Action)
    requires run != [] && run[0] != a && forall i :: 0 <= i < |run[1..]| ==> run[1..][i] != a
    ensures forall i :: 0 <= i < |run| ==> run[i] != a
  {
    forall i | 0 < i < |run| ensures run[i] != a { assert run[i] == run[1..][i - 1]; }
  }

  // ---- A run that leaks --------------------------------------------------------------------------------------

  /** One pending job; the handler returns while the timeout's `fail` call is out. */
  const JOB := Claimed(0, 0, 0, 3)

  /** A threaded worker with a slot. */
  predicate Threaded(cfg: Config) {
    !cfg.isAsync && cfg.concurrency >= 1
  }

  function Started(poll: Poll, sh: Shared, threads: seq<Threads>, sv: Server, delivered: seq<Claimed>): System {
    System(sh, threads, poll, StopNone, Running, sv, false, false, delivered, [], [], [])
  }

  function PendingServer(): Server {
    Server(map[0 := Pending(0, 3)], [], [], {}, {})
  }

  function LeasedServer(w: WorkerId, sent: set<Message>): Server {
    Server(map[0 := Processing(0, 0, 3)], [Grant(JOB, w)], [], sent, {})
  }

  function OneJob(w: WorkerId, active: map<JobId, ExecId>, x: Execution, inFlight: nat, counter: int): Shared {
    Shared(WorkerRunning, Some(w), Some(w), active, [x], false, inFlight, counter)
  }

  function Parties(handler: Pc, timer: Pc, beat: Beat, grantee: Option<Who>, calls: seq<Kind>): Threads {
    Threads(handler, timer, Off, beat, false, grantee, calls, 0, 0, 0)
  }

  /** The job is claimed. */
  lemma JobClaimed(cfg: Config, s0: System)
    requires Threaded(cfg) && s0 == Initial(cfg, PendingServer())
    ensures Reaches(cfg, s0, Started(PollBatch([JOB]), Shared(WorkerRunning, Some(cfg.worker), Some(cfg.worker), map[], [], false, 1, 0), [],
                                       LeasedServer(cfg.worker, {}), [JOB]))
  {
    assert After(cfg, s0, []) == Some(s0);
    var empty := Shared(WorkerRunning, Some(cfg.worker), Some(cfg.worker), map[], [], false, 1, 0);
    var s1 := Started(PollClaiming(cfg.concurrency, cfg.worker, []), empty, [], PendingServer(), []);
    Extend(cfg, s0, s0, PollStep(EnterPolling), s1);
    var s2 := Started(PollClaiming(cfg.concurrency, cfg.worker, [JOB]), empty, [], LeasedServer(cfg.worker, {}), []);
    assert GrantLease(PendingServer(), 0, cfg.worker) == LeasedServer(cfg.worker, {});
    assert s1.poll.batch + [JOB] == [JOB];
    Extend(cfg, s0, s1, PollStep(ClaimGrants(0)), s2);
    var s3 := Started(PollBatch([JOB]), empty, [], LeasedServer(cfg.worker, {}), [JOB]);
    Extend(cfg, s0, s2, PollStep(ClaimReturns), s3);
  }

  /** And registered. */
  lemma JobRegistered(cfg: Config, s0: System)
    requires Threaded(cfg) && s0 == Initial(cfg, PendingServer())
    ensures Reaches(cfg, s0, Started(PollScheduling(0, []), OneJob(cfg.worker, map[0 := 0], Fresh(JOB), 1, 0), [NewThreads()],
                                       LeasedServer(cfg.worker, {}), [JOB]))
  {
    JobClaimed(cfg, s0);
    var empty := Shared(WorkerRunning, Some(cfg.worker), Some(cfg.worker), map[], [], false, 1, 0);
    var s3 := Started(PollBatch([JOB]), empty, [], LeasedServer(cfg.worker, {}), [JOB]);
    var sh := OneJob(cfg.worker, map[0 := 0], Fresh(JOB), 1, 0);
    var s4 := Started(PollScheduling(0, []), sh, [NewThreads()], LeasedServer(cfg.worker, {}), [JOB]);
    assert [JOB][1..] == [] && Register(empty, JOB).active == sh.active;
    Extend(cfg, s0, s3, PollStep(TakeNext), s4);
  }

  /** Its handler runs. */
  lemma HandlerRuns(cfg: Config, s0: System)
    requires Threaded(cfg) && s0 == Initial(cfg, PendingServer())
    ensures Reaches(cfg, s0, Started(PollIdle, OneJob(cfg.worker, map[0 := 0], Fresh(JOB), 0, 0),
                                       [Parties(InHandler, Off, BeatScheduled, None, [])], LeasedServer(cfg.worker, {}), [JOB]))
  {
    JobRegistered(cfg, s0);
    var sh := OneJob(cfg.worker, map[0 := 0], Fresh(JOB), 1, 0);
    var s4 := Started(PollScheduling(0, []), sh, [NewThreads()], LeasedServer(cfg.worker, {}), [JOB]);
    var beating := [Parties(Off, Off, BeatScheduled, None, [])];
    Extend(cfg, s0, s4, PollStep(ScheduleBeat), Started(PollChecking(0, []), sh, beating, LeasedServer(cfg.worker, {}), [JOB]));
    var s5 := Started(PollSubmitting(0, []), sh, beating, LeasedServer(cfg.worker, {}), [JOB]);
    Extend(cfg, s0, Started(PollChecking(0, []), sh, beating, LeasedServer(cfg.worker, {}), [JOB]), PollStep(CheckExecutor), s5);
    var s6 := Started(PollBatch([]), sh, [Parties(Queued, Off, BeatScheduled, None, [])], LeasedServer(cfg.worker, {}), [JOB]);
    Extend(cfg, s0, s5, PollStep(Submit), s6);
    var s7 := Started(PollIdle, OneJob(cfg.worker, map[0 := 0], Fresh(JOB), 0, 0),
                      [Parties(Queued, Off, BeatScheduled, None, [])], LeasedServer(cfg.worker, {}), [JOB]);
    Extend(cfg, s0, s6, PollStep(LeavePolling), s7);
    var s8 := Started(PollIdle, OneJob(cfg.worker, map[0 := 0], Fresh(JOB), 0, 0),
                      [Parties(InHandler, Off, BeatScheduled, None, [])], LeasedServer(cfg.worker, {}), [JOB]);
    Extend(cfg, s0, s7, JobStep(0, HandlerStarts), s8);
  }

  /** A state of the running worker with the one job in the given stage. */
  function Stage(w: WorkerId, active: map<JobId, ExecId>, x: Execution, counter: int, handler: Pc, timer: Pc, calls: seq<Kind>): System {
    var granted := if timer.Settling? || timer.Off? then None else Some(ByTimer);
    var sent := if calls == [] then {} else {Message(FailAck, JOB, w)};
    Started(PollIdle, OneJob(w, active, x, 0, counter),
            [Parties(handler, timer, BeatScheduled, granted, calls)], LeasedServer(w, sent), [JOB])
  }

  /** The job's timeout fires and takes settlement. */
  lemma TimeoutSettles(cfg: Config, s0: System)
    requires Threaded(cfg) && s0 == Initial(cfg, PendingServer())
    ensures Reaches(cfg, s0, Stage(cfg.worker, map[0 := 0], Execution(JOB, true, false, false), 0, InHandler, Checking(FailAck), []))
  {
    var held, settled := map[0 := 0], Execution(JOB, true, false, false);
    var t0 := Stage(cfg.worker, held, Fresh(JOB), 0, InHandler, Off, []);
    HandlerRuns(cfg, s0);
    var t1 := Stage(cfg.worker, held, Fresh(JOB), 0, InHandler, Settling(FailAck), []);
    Extend(cfg, s0, t0, JobStep(0, TimerFires), t1);
    var t2 := Stage(cfg.worker, held, settled, 0, InHandler, Checking(FailAck), []);
    assert t1.sh.execs[0 := settled] == [settled];
    Extend(cfg, s0, t1, AckStep(ByTimer, 0, Settle), t2);
  }

  /** It issues its `fail` call. */
  lemma TimeoutCalls(cfg: Config, s0: System)
    requires Threaded(cfg) && s0 == Initial(cfg, PendingServer())
    ensures Reaches(cfg, s0, Stage(cfg.worker, map[0 := 0], Execution(JOB, true, false, false), 0, InHandler, Awaiting(FailAck), [FailAck]))
  {
    var held, settled := map[0 := 0], Execution(JOB, true, false, false);
    TimeoutSettles(cfg, s0);
    var t2 := Stage(cfg.worker, held, settled, 0, InHandler, Checking(FailAck), []);
    var t3 := Stage(cfg.worker, held, settled, 0, InHandler, Calling(FailAck), []);
    Extend(cfg, s0, t2, AckStep(ByTimer, 0, CheckLease), t3);
    var t4 := Stage(cfg.worker, held, settled, 0, InHandler, Awaiting(FailAck), [FailAck]);
    assert Send(t3.sv, Message(FailAck, JOB, cfg.worker)) == t4.sv;
    assert t3.threads[0].calls + [FailAck] == [FailAck];
    Extend(cfg, s0, t3, AckStep(ByTimer, 0, Call), t4);
  }

  /** The handler returns while that call is out, and is refused settlement. */
  lemma HandlerComesBack(cfg: Config, s0: System)
    requires Threaded(cfg) && s0 == Initial(cfg, PendingServer())
    ensures Reaches(cfg, s0, Stage(cfg.worker, map[0 := 0], Execution(JOB, true, false, false), 0, Closing, Awaiting(FailAck), [FailAck]))
  {
    var held, settled := map[0 := 0], Execution(JOB, true, false, false);
    TimeoutCalls(cfg, s0);
    var t4 := Stage(cfg.worker, held, settled, 0, InHandler, Awaiting(FailAck), [FailAck]);
    var t5 := Stage(cfg.worker, held, settled, 0, Settling(CompleteAck), Awaiting(FailAck), [FailAck]);
    Extend(cfg, s0, t4, JobStep(0, HandlerReturns), t5);
    var t6 := Stage(cfg.worker, held, settled, 0, Closing, Awaiting(FailAck), [FailAck]);
    Extend(cfg, s0, t5, AckStep(ByHandler, 0, Settle), t6);
  }

  /** It cleans up. */
  lemma HandlerCleansUp(cfg: Config, s0: System)
    requires Threaded(cfg) && s0 == Initial(cfg, PendingServer())
    ensures Reaches(cfg, s0, Stage(cfg.worker, map[], Execution(JOB, true, false, false), 0, Finished, Awaiting(FailAck), [FailAck]))
  {
    HandlerComesBack(cfg, s0);
    var settled := Execution(JOB, true, false, false);
    var t6 := Stage(cfg.worker, map[0 := 0], settled, 0, Closing, Awaiting(FailAck), [FailAck]);
    assert map[0 := 0] - {0} == map[];
    var t7 := Stage(cfg.worker, map[], settled, 0, Finished, Awaiting(FailAck), [FailAck]);
    Extend(cfg, s0, t6, AckStep(ByHandler, 0, Close), t7);
  }

  /** Its call fails, and its last locked section counts the thread that is gone. */
  lemma TimeoutCloses(cfg: Config, s0: System)
    requires Threaded(cfg) && s0 == Initial(cfg, PendingServer())
    ensures Reaches(cfg, s0, Stage(cfg.worker, map[], Execution(JOB, true, true, false), 1, Finished, Finished, [FailAck]))
  {
    var settled := Execution(JOB, true, false, false);
    HandlerCleansUp(cfg, s0);
    var t7 := Stage(cfg.worker, map[], settled, 0, Finished, Awaiting(FailAck), [FailAck]);
    var t8 := Stage(cfg.worker, map[], settled, 0, Finished, Closing, [FailAck]);
    Extend(cfg, s0, t7, AckStep(ByTimer, 0, CallError), t8);
    var t9 := Stage(cfg.worker, map[], settled.(abandoned := true), 1, Finished, Finished, [FailAck]);
    Extend(cfg, s0, t8, AckStep(ByTimer, 0, Close), t9);
  }

  /** A slot can be counted as taken by a thread that is gone, with nothing running. */
  lemma LeakIsReachable(cfg: Config) returns (s: System)
    requires Threaded(cfg)
    ensures Reachable(cfg, s) && s.sh.state.WorkerRunning?
    ensures Leaked(s, 0) && s.sh.active == map[] && s.poll.PollIdle? && StillRunning(s) == {}
    ensures s.sh.AvailableSlots(cfg.concurrency) == cfg.concurrency - 1
  {
    var s0 := Initial(cfg, PendingServer());
    TimeoutCloses(cfg, s0);
    s := Stage(cfg.worker, map[], Execution(JOB, true, true, false), 1, Finished, Finished, [FailAck]);
    assert Init(cfg, s0);
  }

  /** Slots can leak if and only if the worker is threaded and has one: never under asyncio. */
  lemma LeaksExactlyWhenThreaded(cfg: Config)
    ensures (exists s :: Reachable(cfg, s) && AnyLeak(s)) <==> !cfg.isAsync && cfg.concurrency >= 1
  {
    if Threaded(cfg) {
      var s := LeakIsReachable(cfg);
      assert AnyLeak(s);
    }
    forall s | Reachable(cfg, s) && AnyLeak(s) ensures Threaded(cfg) {
      ReachableInv(cfg, s);
      var e: ExecId :| Leaked(s, e);
      assert ExecutionOk(cfg, s.sh.execs[e], s.threads[e]);
    }
  }
}
