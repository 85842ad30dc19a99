/**
 The worker runtime as an interleaving of its threads with the lease server.

 A step is one locked section, one HTTP call being issued, or one answer arriving.  The
 threads are: the poll loop, `stop`, and for every execution its handler, its timeout
 timer and its heartbeat.  `Config.isAsync` selects the asyncio worker, where timeout and
 shutdown cancel the handler's task instead of abandoning its thread.
 */
module WorkerProtocol {
  import opened Wrappers
  import opened WorkerBlocks
  import opened LeaseServer

  datatype Config = Config(concurrency: nat, worker: WorkerId, isAsync: bool)

  /** The parties that may ack an execution. */
  datatype Who = ByHandler | ByTimer | ByStop

  /** Where one of those parties is.  `Closing` is the point before its last locked section. */
  datatype Pc =
    | Off
    | Queued
    | InHandler
    | Settling(kind: Kind)
    | Checking(kind: Kind)
    | Calling(kind: Kind)
    | Awaiting(kind: Kind)
    | Losing(kind: Kind)
    | Closing
    | Finished

  datatype Beat = BeatOff | BeatScheduled | BeatAwaiting | BeatLosing | BeatEnded

  /**
   The threads of one execution, and what they have been seen to do: `calls` are the
   complete/fail calls issued, the counters are the events emitted.  `grantee` is the
   party whose request for settlement was granted.
   */
  datatype Threads = Threads(
    handler: Pc, timer: Pc, stop: Pc, beat: Beat,
    cancelled: bool,
    grantee: Option<Who>,
    calls: seq<Kind>,
    completedEvents: nat, failedEvents: nat, lostEvents: nat)
  {
    function At(w: Who): Pc {
      match w
      case ByHandler => handler
      case ByTimer => timer
      case ByStop => stop
    }

    function Move(w: Who, pc: Pc): Threads {
      match w
      case ByHandler => this.(handler := pc)
      case ByTimer => this.(timer := pc)
      case ByStop => this.(stop := pc)
    }
  }

  datatype Poll =
    | PollIdle
    | PollClaiming(limit: nat, worker: WorkerId, batch: seq<Claimed>)
    | PollBatch(rest: seq<Claimed>)
    | PollScheduling(e: ExecId, rest: seq<Claimed>)
    | PollChecking(e: ExecId, rest: seq<Claimed>)
    | PollSubmitting(e: ExecId, rest: seq<Claimed>)
    | PollReleasing(claim: Claimed, rest: seq<Claimed>)
    | PollReleaseAwaiting(claim: Claimed, worker: WorkerId, rest: seq<Claimed>)

  datatype Stop =
    | StopNone
    | StopWaitPoll
    | StopDrain
    | StopCancelling(rest: set<ExecId>)
    | StopSnapshot
    | StopLoop(rest: set<ExecId>)
    | StopAbandoning(e: ExecId, rest: set<ExecId>)
    | StopExecutor
    | StopForgetExecutor
    | StopDeregister
    | StopClearing
    | StopDone

  /** `self._executor`: running, shut down, or set to None.  The asyncio worker has none and always starts its task. */
  datatype Executor = Running | ShutDown | Gone

  /**
   `pollWaitCut`: stop gave up waiting for the claim on the wire (deadline, or it runs on
   the poll thread).  `delivered`, `released` and `releaseFailed` record every job a claim
   returned, every job taken to the release path, and every `job:failed` of that path;
   `dropped` records the jobs of a batch that an escaping exception left behind.
   */
  datatype System = System(
    sh: Shared,
    threads: seq<Threads>,
    poll: Poll,
    stop: Stop,
    executor: Executor,
    sv: Server,
    pollWaitCut: bool,
    deregistered: bool,
    delivered: seq<Claimed>,
    released: seq<Claimed>,
    releaseFailed: seq<Claimed>,
    dropped: seq<Claimed>)

  datatype PollAction =
    | EnterPolling
    | ClaimGrants(job: JobId)
    | ClaimReturns
    | ClaimErrors
    | TakeNext
    | ScheduleBeat
    | CheckExecutor
    | Submit
    | SubmitRejected
    | SubmitBreaks
    | ReleaseCall
    | ReleaseAccepted
    | ReleaseError
    | LeavePolling

  /** What happens to one execution's handler; cancellation exists only under asyncio. */
  datatype JobAction =
    | HandlerStarts
    | HandlerReturns
    | HandlerRaises
    | TimerFires
    | CancelByLoss
    | CancelByStop

  /** The ack of one execution, by any of its parties. */
  datatype AckAction =
    | Settle
    | CheckLease
    | Call
    | CallAccepted
    | CallAlreadyDone
    | CallExpired
    | CallError
    | LoseByCall
    | Close

  datatype BeatAction = BeatFires | BeatAnswered | BeatExpired | LoseByBeat

  datatype StopAction =
    | StopBegins
    | StopPollDone
    | StopPollCut
    | StopDrained(expired: bool)
    | StopCancelsOne(e: ExecId)
    | StopCancelled
    | StopLists
    | StopPicks(e: ExecId)
    | StopNext
    | StopLoopEnds
    | StopShutsExecutor
    | StopForgetsExecutor
    | StopDeregisters
    | StopClears

  datatype Action =
    | PollStep(p: PollAction)
    | JobStep(e: ExecId, j: JobAction)
    | AckStep(w: Who, e: ExecId, k: AckAction)
    | BeatStep(e: ExecId, b: BeatAction)
    | StopStep(st: StopAction)
    | ServerStep(v: ServerAction)

  function NewThreads(): Threads {
    Threads(Off, Off, Off, BeatOff, false, None, [], 0, 0, 0)
  }

  function Initial(cfg: Config, sv: Server): System {
    System(
      Shared(WorkerRunning, Some(cfg.worker), Some(cfg.worker), map[], [], false, 0, 0),
      [], PollIdle, StopNone, Running, sv, false, false, [], [], [], [])
  }

  /** The worker starts against any server state in which it has not acted yet. */
  ghost predicate Init(cfg: Config, s: System) {
    s == Initial(cfg, s.sv) && ServerInv(s.sv)
  }

  function SetThreads(s: System, e: ExecId, t: Threads): System
    requires e < |s.threads|
  {
    s.(threads := s.threads[e := t])
  }

  function MoveTo(s: System, w: Who, e: ExecId, pc: Pc): System
    requires e < |s.threads|
  {
    SetThreads(s, e, s.threads[e].Move(w, pc))
  }

  predicate Exists(s: System, e: ExecId) {
    e < |s.sh.execs| && e < |s.threads|
  }

  // ---- The poll loop -------------------------------------------------------------------------

  predicate PollEnabled(cfg: Config, s: System, a: PollAction) {
    match a
    case EnterPolling => s.poll.PollIdle? && MayPoll(s.sh, cfg.concurrency)
    case ClaimGrants(job) =>
      s.poll.PollClaiming? && |s.poll.batch| < s.poll.limit && job in s.sv.rows && s.sv.rows[job].Pending?
    case ClaimReturns => s.poll.PollClaiming?
    case ClaimErrors => s.poll.PollClaiming?
    case TakeNext => s.poll.PollBatch? && s.poll.rest != []
    case ScheduleBeat => s.poll.PollScheduling? && Exists(s, s.poll.e)
    case CheckExecutor => s.poll.PollChecking?
    case Submit => s.poll.PollSubmitting? && Exists(s, s.poll.e) && s.executor.Running?
    case SubmitRejected => s.poll.PollSubmitting? && Exists(s, s.poll.e) && s.executor.ShutDown?
    case SubmitBreaks => s.poll.PollSubmitting? && s.executor.Gone?
    case ReleaseCall => s.poll.PollReleasing?
    case ReleaseAccepted =>
      && s.poll.PollReleaseAwaiting?
      && (Message(FailAck, s.poll.claim, s.poll.worker), Accepted) in s.sv.replies
    case ReleaseError => s.poll.PollReleaseAwaiting?
    case LeavePolling => s.poll == PollBatch([]) && s.sh.pollInFlight > 0
  }

  /** `_process_job` up to its locked section: register the next claim, or turn to releasing it. */
  function ApplyTake(s: System): System
    requires s.poll.PollBatch? && s.poll.rest != []
  {
    var c, rest := s.poll.rest[0], s.poll.rest[1..];
    if s.sh.intakeClosed then s.(poll := PollReleasing(c, rest), released := s.released + [c])
    else s.(sh := Register(s.sh, c), threads := s.threads + [NewThreads()], poll := PollScheduling(|s.sh.execs|, rest))
  }

  /** `_release_unstarted_job`: fail the job under the registered id, kept after stop clears the other. */
  function ApplyRelease(s: System): System
    requires s.poll.PollReleasing?
  {
    var id := if s.sh.workerId.Some? then s.sh.workerId else s.sh.registeredId;
    if id.None? then s.(poll := PollBatch(s.poll.rest))
    else s.(poll := PollReleaseAwaiting(s.poll.claim, id.value, s.poll.rest),
            sv := Send(s.sv, Message(FailAck, s.poll.claim, id.value)))
  }

  function PollApply(cfg: Config, s: System, a: PollAction): System
    requires PollEnabled(cfg, s, a)
  {
    match a
    case EnterPolling =>
      s.(sh := EnterPoll(s.sh),
         poll := PollClaiming(s.sh.AvailableSlots(cfg.concurrency), s.sh.workerId.value, []))
    case ClaimGrants(job) =>
      s.(sv := GrantLease(s.sv, job, s.poll.worker),
         poll := s.poll.(batch := s.poll.batch + [NextClaim(s.sv, job)]))
    case ClaimReturns => s.(poll := PollBatch(s.poll.batch), delivered := s.delivered + s.poll.batch)
    case ClaimErrors => s.(poll := PollBatch([]))
    case TakeNext => ApplyTake(s)
    case ScheduleBeat =>
      var e := s.poll.e;
      var t := s.threads[e];
      SetThreads(s.(poll := PollChecking(e, s.poll.rest)), e,
                 if s.sh.Owns(e) && !cfg.isAsync then t.(beat := BeatScheduled) else t)
    case Submit => MoveTo(s.(poll := PollBatch(s.poll.rest)), ByHandler, s.poll.e, Queued)
    case CheckExecutor =>
      s.(poll := if s.executor.Gone? then PollBatch(s.poll.rest) else PollSubmitting(s.poll.e, s.poll.rest))
    case SubmitRejected =>
      MoveTo(s.(poll := PollBatch(s.poll.rest), sh := Cleanup(s.sh, s.poll.e)), ByHandler, s.poll.e, Finished)
    // The field is read again for `submit`, and only RuntimeError is caught: the exception
    // of `None.submit` leaves the loop over the batch.
    case SubmitBreaks => s.(poll := PollBatch([]), dropped := s.dropped + s.poll.rest)
    case ReleaseCall => ApplyRelease(s)
    case ReleaseAccepted =>
      s.(poll := PollBatch(s.poll.rest), releaseFailed := s.releaseFailed + [s.poll.claim])
    case ReleaseError => s.(poll := PollBatch(s.poll.rest))
    case LeavePolling => s.(sh := LeavePoll(s.sh), poll := PollIdle)
  }

  // ---- The handler of one execution -------------------------------------------------------------

  /** Handler code is running or may still be told to stop. */
  predicate Interruptible(pc: Pc) {
    pc.InHandler? || pc.Settling? || pc.Checking? || pc.Calling? || pc.Awaiting? || pc.Losing?
  }

  predicate JobEnabled(cfg: Config, x: Execution, t: Threads, a: JobAction) {
    match a
    case HandlerStarts => t.handler.Queued?
    case HandlerReturns => t.handler.InHandler?
    case HandlerRaises => t.handler.InHandler?
    case TimerFires => !cfg.isAsync && t.timer.Off? && !t.handler.Off? && !t.handler.Queued?
    case CancelByLoss => cfg.isAsync && x.leaseLost && (t.handler.Queued? || Interruptible(t.handler))
    case CancelByStop =>
      && cfg.isAsync && t.cancelled && !x.leaseLost
      && (t.handler.Queued? || t.handler.InHandler? || t.handler.Settling?)
  }

  function JobApply(cfg: Config, t: Threads, a: JobAction): Threads {
    match a
    case HandlerStarts => t.(handler := InHandler, beat := if cfg.isAsync then BeatScheduled else t.beat)
    case HandlerReturns => t.(handler := Settling(CompleteAck))
    case HandlerRaises => t.(handler := Settling(FailAck))
    case TimerFires => t.(timer := Settling(FailAck))
    // A task cancelled before its first step never runs, not even its cleanup.
    case CancelByLoss => t.(handler := if t.handler.Queued? then Finished else Closing)
    case CancelByStop => t.(handler := if t.handler.Queued? then Finished else Settling(FailAck))
  }

  // ---- The ack of one execution --------------------------------------------------------------------

  predicate AckEnabled(cfg: Config, sv: Server, x: Execution, pc: Pc, a: AckAction) {
    match a
    case Settle => pc.Settling?
    case CheckLease => pc.Checking?
    case Call => pc.Calling?
    case CallAccepted => pc.Awaiting? && (Message(pc.kind, x.claim, cfg.worker), Accepted) in sv.replies
    case CallAlreadyDone =>
      pc == Awaiting(CompleteAck) && (Message(CompleteAck, x.claim, cfg.worker), AlreadyCompleted) in sv.replies
    case CallExpired => pc.Awaiting? && (Message(pc.kind, x.claim, cfg.worker), LeaseExpired) in sv.replies
    case CallError => pc.Awaiting?
    case LoseByCall => pc.Losing?
    case Close => pc.Closing?
  }

  /** Where a party goes when settlement is refused: the handler still cleans up after itself. */
  function Refusal(cfg: Config, w: Who): Pc {
    if w.ByHandler? || (w.ByStop? && cfg.isAsync) then Closing else Finished
  }

  function Report(t: Threads, w: Who, kind: Kind): Threads {
    var u := t.Move(w, Closing);
    if kind.CompleteAck? then u.(completedEvents := t.completedEvents + 1)
    else u.(failedEvents := t.failedEvents + 1)
  }

  function AckShared(cfg: Config, sh: Shared, w: Who, e: ExecId, a: AckAction): Shared
    requires e < |sh.execs|
  {
    match a
    case Settle => ClaimSettlement(sh, e).0
    case LoseByCall => LoseLease(sh, e).0
    case Close => if w.ByHandler? || cfg.isAsync then Cleanup(sh, e) else Abandon(sh, e)
    case _ => sh
  }

  function AckThreads(cfg: Config, sv: Server, sh: Shared, w: Who, e: ExecId, t: Threads, a: AckAction): Threads
    requires e < |sh.execs| && AckEnabled(cfg, sv, sh.execs[e], t.At(w), a)
  {
    match a
    case Settle =>
      if ClaimSettlement(sh, e).1.None? then t.Move(w, Refusal(cfg, w))
      else t.Move(w, Checking(t.At(w).kind)).(grantee := Some(w))
    case CheckLease => t.Move(w, if sh.execs[e].leaseLost then Closing else Calling(t.At(w).kind))
    case Call => t.Move(w, Awaiting(t.At(w).kind)).(calls := t.calls + [t.At(w).kind])
    case CallAccepted => Report(t, w, t.At(w).kind)
    case CallAlreadyDone => Report(t, w, CompleteAck)
    case CallExpired => t.Move(w, Losing(t.At(w).kind))
    case CallError => t.Move(w, Closing)
    case LoseByCall =>
      t.Move(w, Closing).(lostEvents := if LoseLease(sh, e).1 then t.lostEvents + 1 else t.lostEvents)
    case Close => t.Move(w, Finished)
  }

  // ---- The heartbeat of one execution ------------------------------------------------------------

  predicate BeatEnabled(sv: Server, x: Execution, t: Threads, a: BeatAction) {
    match a
    case BeatFires => t.beat.BeatScheduled?
    case BeatAnswered => t.beat.BeatAwaiting?
    case BeatExpired => t.beat.BeatAwaiting? && !sv.Current(x.claim.lease)
    case LoseByBeat => t.beat.BeatLosing?
  }

  function BeatThreads(cfg: Config, sh: Shared, e: ExecId, t: Threads, a: BeatAction): Threads
    requires e < |sh.execs|
  {
    match a
    case BeatFires => t.(beat := if sh.Live(e) && sh.workerId.Some? then BeatAwaiting else BeatEnded)
    case BeatAnswered => t.(beat := if sh.Live(e) || cfg.isAsync then BeatScheduled else BeatEnded)
    case BeatExpired => t.(beat := BeatLosing)
    case LoseByBeat =>
      t.(beat := BeatEnded, lostEvents := if LoseLease(sh, e).1 then t.lostEvents + 1 else t.lostEvents)
  }

  // ---- stop ------------------------------------------------------------------------------------------

  predicate StopEnabled(s: System, a: StopAction) {
    match a
    case StopBegins => s.stop.StopNone? && s.sh.state.WorkerRunning?
    case StopPollDone => s.stop.StopWaitPoll? && s.sh.pollInFlight == 0
    case StopPollCut => s.stop.StopWaitPoll? && s.sh.pollInFlight > 0
    case StopDrained(expired) => s.stop.StopDrain? && (s.sh.active == map[] || expired)
    case StopCancelsOne(e) => s.stop.StopCancelling? && e in s.stop.rest && Exists(s, e)
    case StopCancelled => s.stop == StopCancelling({})
    case StopLists => s.stop.StopSnapshot?
    case StopPicks(e) => s.stop.StopLoop? && e in s.stop.rest && Exists(s, e)
    case StopNext => s.stop.StopAbandoning? && Exists(s, s.stop.e) && s.threads[s.stop.e].stop.Finished?
    case StopLoopEnds => s.stop == StopLoop({})
    case StopShutsExecutor => s.stop.StopExecutor?
    case StopForgetsExecutor => s.stop.StopForgetExecutor?
    case StopDeregisters => s.stop.StopDeregister?
    case StopClears => s.stop.StopClearing?
  }

  function StopApply(cfg: Config, s: System, a: StopAction): System
    requires StopEnabled(s, a)
  {
    match a
    case StopBegins => s.(sh := BeginStop(s.sh), stop := StopWaitPoll)
    case StopPollDone => s.(stop := StopDrain)
    case StopPollCut => s.(stop := StopDrain, pollWaitCut := true)
    case StopDrained(_) =>
      s.(sh := CloseIntake(s.sh), stop := if cfg.isAsync then StopCancelling(s.sh.active.Values) else StopSnapshot)
    case StopCancelsOne(e) =>
      var t := s.threads[e];
      var cancels := !t.handler.Off? && !t.handler.Finished? && !s.sh.execs[e].settled;
      SetThreads(s.(stop := StopCancelling(s.stop.rest - {e})), e, t.(cancelled := t.cancelled || cancels))
    case StopCancelled => s.(stop := StopSnapshot)
    case StopLists => s.(stop := StopLoop(s.sh.active.Values))
    case StopPicks(e) =>
      MoveTo(s.(stop := StopAbandoning(e, s.stop.rest - {e})), ByStop, e, Settling(FailAck))
    case StopNext => s.(stop := StopLoop(s.stop.rest))
    case StopLoopEnds => s.(stop := StopExecutor)
    case StopShutsExecutor => s.(stop := StopForgetExecutor, executor := if cfg.isAsync then s.executor else ShutDown)
    case StopForgetsExecutor => s.(stop := StopDeregister, executor := if cfg.isAsync then s.executor else Gone)
    case StopDeregisters => s.(stop := StopClearing, deregistered := true)
    case StopClears => s.(sh := FinishStop(s.sh), stop := StopDone)
  }

  // ---- All steps ---------------------------------------------------------------------------------------

  predicate Enabled(cfg: Config, s: System, a: Action) {
    match a
    case PollStep(p) => PollEnabled(cfg, s, p)
    case JobStep(e, j) => Exists(s, e) && JobEnabled(cfg, s.sh.execs[e], s.threads[e], j)
    case AckStep(w, e, k) => Exists(s, e) && AckEnabled(cfg, s.sv, s.sh.execs[e], s.threads[e].At(w), k)
    case BeatStep(e, b) => Exists(s, e) && BeatEnabled(s.sv, s.sh.execs[e], s.threads[e], b)
    case StopStep(st) => StopEnabled(s, st)
    case ServerStep(v) => ServerEnabled(s.sv, v, cfg.worker)
  }

  function Apply(cfg: Config, s: System, a: Action): System
    requires Enabled(cfg, s, a)
  {
    match a
    case PollStep(p) => PollApply(cfg, s, p)
    case JobStep(e, j) => SetThreads(s, e, JobApply(cfg, s.threads[e], j))
    case AckStep(w, e, k) =>
      SetThreads(
        s.(sh := AckShared(cfg, s.sh, w, e, k),
           sv := if k.Call? then Send(s.sv, Message(s.threads[e].At(w).kind, s.sh.execs[e].claim, cfg.worker)) else s.sv),
        e, AckThreads(cfg, s.sv, s.sh, w, e, s.threads[e], k))
    case BeatStep(e, b) =>
      SetThreads(s.(sh := if b.LoseByBeat? then LoseLease(s.sh, e).0 else s.sh),
                 e, BeatThreads(cfg, s.sh, e, s.threads[e], b))
    case StopStep(st) => StopApply(cfg, s, st)
    case ServerStep(v) => s.(sv := ServerApply(s.sv, v, cfg.worker))
  }

  // ---- Runs --------------------------------------------------------------------------------

  /** The state after the actions of `run`, if each is enabled when its turn comes. */
  function After(cfg: Config, s: System, run: seq<Action>): Option<System>
    decreases |run|
  {
    if run == [] then Some(s)
    else if Enabled(cfg, s, run[0]) then After(cfg, Apply(cfg, s, run[0]), run[1..])
    else None
  }

  ghost predicate Reaches(cfg: Config, s: System, s': System) {
    exists run :: After(cfg, s, run) == Some(s')
  }

  ghost predicate Reachable(cfg: Config, s: System) {
    exists s0 :: Init(cfg, s0) && Reaches(cfg, s0, s)
  }

  lemma Extend(cfg: Config, s0: System, s: System, a: Action, s': System)
    requires Reaches(cfg, s0, s) && Enabled(cfg, s, a) && s' == Apply(cfg, s, a)
    ensures Reaches(cfg, s0, s')
  {
    var run :| After(cfg, s0, run) == Some(s);
    AfterBoth(cfg, s0, run, [a]);
    assert After(cfg, Apply(cfg, s, a), [a][1..]) == Some(s');
    assert After(cfg, s0, run + [a]) == Some(s');
  }

  lemma {:induction false} AfterBoth(cfg: Config, s: System, first: seq<Action>, second: seq<Action>)
    requires After(cfg, s, first).Some?
    ensures After(cfg, s, first + second) == After(cfg, After(cfg, s, first).value, second)
    decreases |first|
  {
    if first == [] {
      assert first + second == second;
    } else {
      assert (first + second)[1..] == first[1..] + second;
      AfterBoth(cfg, Apply(cfg, s, first[0]), first[1..], second);
    }
  }
}
