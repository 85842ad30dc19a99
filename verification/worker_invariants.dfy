/** The invariants of the worker protocol.  Their proofs are in the modules that follow. */
module WorkerInvariants {
  import opened Wrappers
  import opened WorkerBlocks
  import opened LeaseServer
  import opened WorkerProtocol

  // ---- Settlement: the parties of one execution ---------------------------------------------

  /** A party that was granted settlement and has not finished with its call. */
  predicate Acking(pc: Pc) {
    pc.Checking? || pc.Calling? || pc.Awaiting? || pc.Losing?
  }

  /** Where each party stands relative to the one settlement grant. */
  ghost predicate PartyOk(t: Threads, w: Who) {
    var pc := t.At(w);
    && (Acking(pc) ==> t.grantee == Some(w) && t.completedEvents + t.failedEvents == 0)
    && (t.grantee == Some(w) ==> Acking(pc) || pc.Closing? || pc.Finished?)
    && (pc.Checking? || pc.Calling? ==> t.calls == [])
    && (pc.Awaiting? || pc.Losing? ==> t.calls == [pc.kind])
  }

  ghost predicate ExecutionOk(cfg: Config, x: Execution, t: Threads) {
    && PartyOk(t, ByHandler) && PartyOk(t, ByTimer) && PartyOk(t, ByStop)
    && (t.grantee.Some? <==> x.settled)
    && |t.calls| <= 1
    && (!x.settled ==> t.calls == [] && t.completedEvents + t.failedEvents == 0)
    && t.completedEvents + t.failedEvents <= 1
    && (t.completedEvents > 0 ==> t.calls == [CompleteAck])
    && (t.failedEvents > 0 ==> t.calls == [FailAck])
    && t.lostEvents == (if x.leaseLost then 1 else 0)
    && !t.timer.Queued? && !t.timer.InHandler? && !t.stop.Queued? && !t.stop.InHandler?
    && (x.abandoned ==> !cfg.isAsync)
    && (x.abandoned || t.timer.Closing? || (t.stop.Closing? && !cfg.isAsync) ==> x.settled)
  }

  ghost predicate SettlementInv(cfg: Config, s: System) {
    && |s.threads| == |s.sh.execs|
    && forall e :: 0 <= e < |s.threads| ==> ExecutionOk(cfg, s.sh.execs[e], s.threads[e])
  }

  // ---- The job table ----------------------------------------------------------------------------

  /** A newer claim of the same job id entered the table. */
  ghost predicate Replaced(sh: Shared, e: ExecId) {
    e < |sh.execs| && exists n :: e < n < |sh.execs| && sh.execs[n].claim.job == sh.execs[e].claim.job
  }

  /** Nothing is owed for this execution any more. */
  ghost predicate Accounted(sh: Shared, e: ExecId) {
    e < |sh.execs| && (sh.execs[e].settled || sh.execs[e].leaseLost || Replaced(sh, e))
  }

  /** The table names the newest execution of each job in it. */
  ghost predicate TableNewest(sh: Shared) {
    forall job :: job in sh.active ==>
      && sh.active[job] < |sh.execs|
      && sh.execs[sh.active[job]].claim.job == job
      && !Replaced(sh, sh.active[job])
  }

  /** An execution leaves the table only once it is accounted for. */
  ghost predicate NoneForgotten(sh: Shared) {
    forall e :: 0 <= e < |sh.execs| ==> sh.Owns(e) || Accounted(sh, e)
  }

  ghost predicate TableInv(s: System) {
    && TableNewest(s.sh)
    && NoneForgotten(s.sh)
    && forall e :: 0 <= e < |s.threads| && e < |s.sh.execs| && (s.threads[e].handler.Closing? || s.threads[e].timer.Closing? || s.threads[e].stop.Closing?) ==>
         Accounted(s.sh, e)
  }

  // ---- stop ---------------------------------------------------------------------------------------

  /** How far `stop` has come. */
  function Phase(st: Stop): nat {
    match st
    case StopNone => 0
    case StopWaitPoll => 1
    case StopDrain => 2
    case StopCancelling(_) => 3
    case StopSnapshot => 4
    case StopLoop(_) => 5
    case StopAbandoning(_, _) => 5
    case StopExecutor => 6
    case StopForgetExecutor => 7
    case StopDeregister => 8
    case StopClearing => 9
    case StopDone => 10
  }

  /** The executions `stop` may still have to fail. */
  predicate Owed(s: System, e: ExecId) {
    match s.stop
    case StopLoop(rest) => e in rest
    case StopAbandoning(c, rest) => e in rest || (e == c && c < |s.threads| && s.threads[c].stop.Settling?)
    case _ => Phase(s.stop) < 5
  }

  /** Settled `stop` parties stay where they are; the others have not been reached. */
  ghost predicate StopPartyOk(s: System, e: ExecId)
    requires e < |s.threads|
  {
    match s.stop
    case StopLoop(rest) => if e in rest then s.threads[e].stop.Off? else s.threads[e].stop.Off? || s.threads[e].stop.Finished?
    case StopAbandoning(c, rest) =>
      if e in rest then s.threads[e].stop.Off? && e != c
      else e == c || s.threads[e].stop.Off? || s.threads[e].stop.Finished?
    case _ => if Phase(s.stop) < 5 then s.threads[e].stop.Off? else s.threads[e].stop.Off? || s.threads[e].stop.Finished?
  }

  ghost predicate StopInv(cfg: Config, s: System) {
    && (s.sh.state.WorkerRunning? <==> s.stop.StopNone?)
    && (s.sh.intakeClosed <==> Phase(s.stop) >= 3)
    && (s.sh.workerId == if s.stop.StopDone? then None else Some(cfg.worker))
    && s.sh.registeredId == Some(cfg.worker)
    && (s.executor.Running? || (Phase(s.stop) >= 7 && !cfg.isAsync))
    && (s.executor.Gone? ==> Phase(s.stop) >= 8)
    && (s.deregistered ==> Phase(s.stop) >= 9)
    && (s.stop.StopAbandoning? ==> s.stop.e < |s.threads| && !s.threads[s.stop.e].stop.Off?)
    && |s.threads| == |s.sh.execs|
    && (forall e :: 0 <= e < |s.threads| ==> StopPartyOk(s, e))
    && (forall e :: 0 <= e < |s.sh.execs| && s.sh.Owns(e) && !Accounted(s.sh, e) ==> Owed(s, e))
  }

  // ---- The poll loop and the slots ---------------------------------------------------------------

  /** Claims that still have to be registered or released. */
  function Waiting(p: Poll): seq<Claimed> {
    match p
    case PollBatch(rest) => rest
    case PollScheduling(_, rest) => rest
    case PollChecking(_, rest) => rest
    case PollSubmitting(_, rest) => rest
    case PollReleasing(_, rest) => rest
    case PollReleaseAwaiting(_, _, rest) => rest
    case _ => []
  }

  /** Slots the poll loop may still fill. */
  function Reserved(p: Poll): nat {
    if p.PollClaiming? then p.limit else |Waiting(p)|
  }

  /** One claim of the batch has been taken and is being started or released. */
  predicate PastBatch(p: Poll) {
    !p.PollIdle? && !p.PollClaiming? && !p.PollBatch?
  }

  ghost predicate PollInv(cfg: Config, s: System) {
    && s.sh.pollInFlight == (if s.poll.PollIdle? then 0 else 1)
    && |s.sh.active| + Reserved(s.poll) <= cfg.concurrency
    && (s.poll.PollClaiming? ==> |s.poll.batch| <= s.poll.limit && s.poll.worker == cfg.worker)
    && (s.poll.PollReleaseAwaiting? ==> s.poll.worker == cfg.worker)
    && (s.poll.PollScheduling? || s.poll.PollChecking? || s.poll.PollSubmitting? ==>
          s.poll.e < |s.threads| && s.threads[s.poll.e].handler.Off? && s.threads[s.poll.e].timer.Off?)
    && (s.poll.PollReleasing? || s.poll.PollReleaseAwaiting? ==> s.sh.intakeClosed)
    && (Phase(s.stop) >= 2 && !s.pollWaitCut ==> s.poll.PollIdle? && s.released == [])
    && (s.released != [] ==> s.sh.intakeClosed)
    && (s.pollWaitCut ==> Phase(s.stop) >= 2)
    && (PastBatch(s.poll) ==> |Waiting(s.poll)| < cfg.concurrency)
    && (s.threads != [] ==> cfg.concurrency > 0)
    && (s.dropped != [] ==> s.pollWaitCut && s.sh.intakeClosed && s.executor.Gone? && !cfg.isAsync && cfg.concurrency > 1)
  }

  function CountAbandoned(execs: seq<Execution>): nat {
    if execs == [] then 0
    else CountAbandoned(execs[..|execs| - 1]) + (if execs[|execs| - 1].abandoned then 1 else 0)
  }

  ghost predicate CounterInv(s: System) {
    s.sh.abandonedRunning == CountAbandoned(s.sh.execs)
  }

  // ---- No claim is lost --------------------------------------------------------------------------

  function Claims(execs: seq<Execution>): seq<Claimed> {
    seq(|execs|, i requires 0 <= i < |execs| => execs[i].claim)
  }

  ghost predicate DistinctLeases(cs: seq<Claimed>) {
    forall i, j :: 0 <= i < j < |cs| ==> cs[i].lease != cs[j].lease
  }

  /** Every job a claim returned is registered, waiting its turn, on the release path, or dropped: exactly once. */
  ghost predicate Conserved(s: System) {
    multiset(s.delivered) ==
      multiset(Claims(s.sh.execs)) + multiset(Waiting(s.poll)) + multiset(s.released) + multiset(s.dropped)
  }

  /** The claims this worker was granted, returned to it or not. */
  function Granted(s: System): seq<Claimed> {
    s.delivered + (if s.poll.PollClaiming? then s.poll.batch else [])
  }

  ghost predicate HeldLeases(cfg: Config, s: System) {
    forall i :: 0 <= i < |Granted(s)| ==> HeldLease(cfg, s.sv, Granted(s)[i])
  }

  predicate HeldLease(cfg: Config, sv: Server, c: Claimed) {
    c.lease < |sv.grants| && sv.grants[c.lease] == Grant(c, cfg.worker)
  }

  ghost predicate ClaimInv(cfg: Config, s: System) {
    && Conserved(s)
    && DistinctLeases(Granted(s))
    && HeldLeases(cfg, s)
  }

  /** Every job on the release path has been failed, under the id that holds its lease, or is next. */
  ghost predicate ReleaseInv(cfg: Config, s: System) {
    && (s.poll.PollReleasing? ==> s.released != [] && s.released[|s.released| - 1] == s.poll.claim)
    && forall i :: 0 <= i < |s.released| && !(s.poll.PollReleasing? && i == |s.released| - 1) ==>
         Message(FailAck, s.released[i], cfg.worker) in s.sv.sent
  }

  // ---- The worker and the server agree -------------------------------------------------------------

  /** What an execution reports is what the server did. */
  ghost predicate Truthful(cfg: Config, sv: Server, x: Execution, t: Threads) {
    && HeldLease(cfg, sv, x.claim)
    && (t.completedEvents > 0 ==> sv.IsCompleted(x.claim.job))
    && (t.failedEvents > 0 ==> Effect(x.claim.lease, DidFail(x.claim.WillRetry())) in sv.effects)
    && (x.leaseLost || t.beat.BeatLosing? || t.handler.Losing? || t.timer.Losing? || t.stop.Losing? ==>
          !sv.Current(x.claim.lease))
  }

  ghost predicate TruthInv(cfg: Config, s: System) {
    && ServerInv(s.sv)
    && |s.threads| == |s.sh.execs|
    && (forall e :: 0 <= e < |s.threads| ==> Truthful(cfg, s.sv, s.sh.execs[e], s.threads[e]))
    && (s.poll.PollReleasing? || s.poll.PollReleaseAwaiting? ==> HeldLease(cfg, s.sv, s.poll.claim))
    && (forall i :: 0 <= i < |Waiting(s.poll)| ==> HeldLease(cfg, s.sv, Waiting(s.poll)[i]))
    && (forall i :: 0 <= i < |s.releaseFailed| ==> ReleaseTrue(s.sv, s.releaseFailed[i]))
  }

  ghost predicate ReleaseTrue(sv: Server, c: Claimed) {
    Effect(c.lease, DidFail(c.WillRetry())) in sv.effects
  }

  ghost predicate Inv(cfg: Config, s: System) {
    && SettlementInv(cfg, s)
    && TableInv(s)
    && StopInv(cfg, s)
    && PollInv(cfg, s)
    && CounterInv(s)
    && ClaimInv(cfg, s)
    && ReleaseInv(cfg, s)
    && TruthInv(cfg, s)
  }
}
