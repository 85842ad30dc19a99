/**
 The state the threads of a worker share, and its locked sections.

 Each function below is one `with self._lock` block of the threaded worker (or one
 await-free block of the asyncio worker): what it does to the shared state when
 nobody can interleave with it.  The class in `WorkerObject` performs these blocks on
 mutable objects; the protocol in `WorkerProtocol` interleaves them.
 */
module WorkerBlocks {
  import opened Wrappers

  type JobId = nat
  type LeaseId = nat
  type WorkerId = nat

  /** Executions are numbered in the order they entered the job table. */
  type ExecId = nat

  /** A job as a claim returned it: the lease that fences every later call about it. */
  datatype Claimed = Claimed(job: JobId, lease: LeaseId, retries: nat, maxRetries: nat) {
    /** The retry decision the worker reports when it fails the job. */
    predicate WillRetry() {
      retries < maxRetries
    }
  }

  /** One `ActiveJob`.  Two executions of the same job id are different values of `ExecId`. */
  datatype Execution = Execution(claim: Claimed, settled: bool, abandoned: bool, leaseLost: bool)

  datatype Lifecycle = WorkerRunning | WorkerStopping | WorkerStopped

  datatype Shared = Shared(
    state: Lifecycle,
    workerId: Option<WorkerId>,
    registeredId: Option<WorkerId>,
    active: map<JobId, ExecId>,
    execs: seq<Execution>,
    intakeClosed: bool,
    pollInFlight: nat,
    abandonedRunning: int)
  {
    /** `self._active_jobs.get(active.job.id) is active` */
    predicate Owns(e: ExecId) {
      && e < |execs|
      && execs[e].claim.job in active
      && active[execs[e].claim.job] == e
    }

    function AvailableSlots(concurrency: nat): int {
      concurrency - |active| - abandonedRunning
    }

    /** Only the execution in the table that is neither settled nor without its lease may act on it. */
    predicate Live(e: ExecId) {
      Owns(e) && !execs[e].settled && !execs[e].leaseLost
    }
  }

  function Fresh(claim: Claimed): Execution {
    Execution(claim, false, false, false)
  }

  /** The entry section of `_poll`: refuse, or count a claim as in flight. */
  predicate MayPoll(sh: Shared, concurrency: nat) {
    sh.state.WorkerRunning? && sh.workerId.Some? && sh.AvailableSlots(concurrency) > 0
  }

  function EnterPoll(sh: Shared): Shared {
    sh.(pollInFlight := sh.pollInFlight + 1)
  }

  function LeavePoll(sh: Shared): Shared
    requires sh.pollInFlight > 0
  {
    sh.(pollInFlight := sh.pollInFlight - 1)
  }

  /** The section of `_process_job`: put the claim in the table unless intake is closed. */
  function Register(sh: Shared, claim: Claimed): Shared
    requires !sh.intakeClosed
  {
    sh.(active := sh.active[claim.job := |sh.execs|], execs := sh.execs + [Fresh(claim)])
  }

  /** `_claim_settlement`: the worker id when the right to ack is granted, else nothing. */
  function ClaimSettlement(sh: Shared, e: ExecId): (Shared, Option<WorkerId>)
    requires e < |sh.execs|
  {
    if !sh.Live(e) || sh.workerId.None? then (sh, None)
    else (sh.(execs := sh.execs[e := sh.execs[e].(settled := true)]), sh.workerId)
  }

  /** Take `e` out of the table if it is the execution the table holds. */
  function Unregister(sh: Shared, e: ExecId): (r: Shared)
    requires e < |sh.execs|
  {
    if sh.Owns(e) then sh.(active := sh.active - {sh.execs[e].claim.job}) else sh
  }

  /** `_cleanup_job`: the handler is back, so its slot and its abandoned mark are released. */
  function Cleanup(sh: Shared, e: ExecId): Shared
    requires e < |sh.execs|
  {
    var x := sh.execs[e];
    Unregister(sh, e).(
      execs := sh.execs[e := x.(abandoned := false)],
      abandonedRunning :=
        if !x.abandoned then sh.abandonedRunning
        else if sh.abandonedRunning - 1 > 0 then sh.abandonedRunning - 1 else 0)
  }

  /** The closing section of `_abandon_job`, reached after its `fail` call returned. */
  function Abandon(sh: Shared, e: ExecId): Shared
    requires e < |sh.execs|
  {
    var x := sh.execs[e];
    Unregister(sh, e).(
      execs := sh.execs[e := x.(abandoned := true)],
      abandonedRunning := if x.abandoned then sh.abandonedRunning else sh.abandonedRunning + 1)
  }

  /** The section of `_lose_lease`; the event is emitted only by the call that set the flag. */
  function LoseLease(sh: Shared, e: ExecId): (Shared, bool)
    requires e < |sh.execs|
  {
    (sh.(execs := sh.execs[e := sh.execs[e].(leaseLost := true)]), !sh.execs[e].leaseLost)
  }

  function BeginStop(sh: Shared): Shared {
    sh.(state := WorkerStopping)
  }

  function CloseIntake(sh: Shared): Shared {
    sh.(intakeClosed := true)
  }

  function FinishStop(sh: Shared): Shared {
    sh.(state := WorkerStopped, workerId := None)
  }
}
