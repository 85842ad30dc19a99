/**
 The worker as the source keeps it: mutable `ActiveJob` objects behind a table keyed by job
 id.  Each method is one `with self._lock` block, and is proved to be the section of
 `WorkerBlocks` it stands for.
 */
module WorkerObject {
  import opened Wrappers
  import opened WorkerBlocks

  class ActiveJob {
    const job: Claimed
    ghost const id: ExecId
    var settled: bool
    var abandoned: bool
    var leaseLost: bool

    constructor (job: Claimed, ghost id: ExecId)
      ensures this.job == job && this.id == id && View() == Fresh(job)
    {
      this.job := job;
      this.id := id;
      settled, abandoned, leaseLost := false, false, false;
    }

    ghost function View(): Execution
      reads this
    {
      Execution(job, settled, abandoned, leaseLost)
    }
  }

  class SpooledWorker {
    const concurrency: nat
    var state: Lifecycle
    var workerId: Option<WorkerId>
    var registeredId: Option<WorkerId>
    var activeJobs: map<JobId, ActiveJob>
    var intakeClosed: bool
    var pollInFlight: nat
    var abandonedRunning: int

    /** Every execution that ever entered the table, in order. */
    ghost var all: seq<ActiveJob>

    ghost predicate Valid()
      reads this, all
    {
      && (forall i :: 0 <= i < |all| ==> all[i].id == i)
      && (forall job :: job in activeJobs ==> activeJobs[job] in all)
    }

    ghost predicate Knows(a: ActiveJob)
      reads this
    {
      a in all
    }

    ghost function View(): Shared
      reads this, all
    {
      Shared(state, workerId, registeredId,
             map job | job in activeJobs :: activeJobs[job].id,
             seq(|all|, i requires 0 <= i < |all| reads this, all => all[i].View()),
             intakeClosed, pollInFlight, abandonedRunning)
    }

    constructor (concurrency: nat, id: WorkerId)
      ensures Valid() && all == [] && this.concurrency == concurrency
      ensures View() == Shared(WorkerRunning, Some(id), Some(id), map[], [], false, 0, 0)
    {
      this.concurrency := concurrency;
      state, workerId, registeredId := WorkerRunning, Some(id), Some(id);
      activeJobs, intakeClosed, pollInFlight, abandonedRunning := map[], false, 0, 0;
      all := [];
    }

    /** `self._active_jobs.get(active.job.id) is active` */
    predicate Owns(a: ActiveJob)
      requires Valid() && Knows(a)
      reads this, all
      ensures Owns(a) == View().Owns(a.id)
    {
      a.job.job in activeJobs && activeJobs[a.job.job] == a
    }

    /** Only `a` changed, so the view changed at its index only. */
    twostate lemma OneChanged(a: ActiveJob)
      requires old(Valid()) && all == old(all) && a in all
      requires forall b :: b in all && b != a ==> unchanged(b)
      ensures a.id < |all| && all[a.id] == a
      ensures View().execs == old(View().execs)[a.id := a.View()]
    {
      forall i | 0 <= i < |all| && i != a.id ensures View().execs[i] == old(View().execs[i]) {
        var b := all[i];
        assert b == old(all)[i] && b.id == i && b in all;
      }
    }

    method EnterPoll() returns (claim: Option<(WorkerId, nat)>)
      requires Valid()
      modifies this`pollInFlight
      ensures Valid() && all == old(all)
      ensures claim.Some? <==> MayPoll(old(View()), concurrency)
      ensures claim.None? ==> View() == old(View())
      ensures claim.Some? ==>
        && View() == WorkerBlocks.EnterPoll(old(View()))
        && old(workerId) == Some(claim.value.0)
        && claim.value.1 == old(View()).AvailableSlots(concurrency)
    {
      ViewSize();
      if state != WorkerRunning || workerId.None? {
        return None;
      }
      var slots := concurrency - |activeJobs| - abandonedRunning;
      if slots <= 0 {
        return None;
      }
      pollInFlight := pollInFlight + 1;
      claim := Some((workerId.value, slots));
    }

    lemma ViewSize()
      requires Valid()
      ensures |View().active| == |activeJobs|
    {
      assert View().active.Keys == activeJobs.Keys;
      assert |View().active.Keys| == |activeJobs.Keys|;
    }

    method LeavePoll()
      requires Valid() && pollInFlight > 0
      modifies this`pollInFlight
      ensures Valid() && all == old(all) && View() == WorkerBlocks.LeavePoll(old(View()))
    {
      pollInFlight := pollInFlight - 1;
    }

    /** The claimed job, registered, or nothing when intake is closed and the job must be released. */
    method Admit(job: Claimed) returns (a: Option<ActiveJob>)
      requires Valid()
      modifies this`activeJobs, this`all
      ensures Valid()
      ensures a.None? <==> old(intakeClosed)
      ensures a.None? ==> View() == old(View()) && all == old(all)
      ensures a.Some? ==>
        && fresh(a.value) && all == old(all) + [a.value]
        && View() == Register(old(View()), job)
    {
      if intakeClosed {
        return None;
      }
      ghost var was := View();
      var active := new ActiveJob(job, |all|);
      activeJobs := activeJobs[job.job := active];
      all := all + [active];
      a := Some(active);
      assert View().execs == was.execs + [Fresh(job)];
      assert View().active == was.active[job.job := |was.execs|];
    }

    method ClaimSettlement(a: ActiveJob) returns (worker: Option<WorkerId>)
      requires Valid() && Knows(a)
      modifies a`settled
      ensures Valid()
      ensures (View(), worker) == WorkerBlocks.ClaimSettlement(old(View()), a.id)
    {
      if a.leaseLost || a.settled || !Owns(a) {
        return None;
      }
      if workerId.None? {
        return None;
      }
      a.settled := true;
      OneChanged(a);
      worker := workerId;
    }

    method CleanupJob(a: ActiveJob)
      requires Valid() && Knows(a)
      modifies this`activeJobs, this`abandonedRunning, a`abandoned
      ensures Valid() && all == old(all)
      ensures View() == Cleanup(old(View()), a.id)
    {
      ghost var was := View();
      if Owns(a) {
        activeJobs := activeJobs - {a.job.job};
      }
      assert View().active == Unregister(was, a.id).active;
      if a.abandoned {
        a.abandoned := false;
        abandonedRunning := if abandonedRunning - 1 > 0 then abandonedRunning - 1 else 0;
      }
      OneChanged(a);
    }

    /** The closing section of `_abandon_job`. */
    method FinishAbandon(a: ActiveJob)
      requires Valid() && Knows(a)
      modifies this`activeJobs, this`abandonedRunning, a`abandoned
      ensures Valid() && all == old(all)
      ensures View() == Abandon(old(View()), a.id)
    {
      ghost var was := View();
      if Owns(a) {
        activeJobs := activeJobs - {a.job.job};
      }
      assert View().active == Unregister(was, a.id).active;
      if !a.abandoned {
        a.abandoned := true;
        abandonedRunning := abandonedRunning + 1;
      }
      OneChanged(a);
    }

    method LoseLease(a: ActiveJob) returns (first: bool)
      requires Valid() && Knows(a)
      modifies a`leaseLost
      ensures Valid()
      ensures (View(), first) == WorkerBlocks.LoseLease(old(View()), a.id)
    {
      if a.leaseLost {
        OneChanged(a);
        return false;
      }
      a.leaseLost := true;
      OneChanged(a);
      first := true;
    }

    /** Whether a due heartbeat of `a` is sent, and under which id. */
    method MayBeat(a: ActiveJob) returns (worker: Option<WorkerId>)
      requires Valid() && Knows(a)
      ensures worker == if View().Live(a.id) then workerId else None
    {
      if a.leaseLost || a.settled || !Owns(a) {
        return None;
      }
      worker := workerId;
    }

    /** False when another `stop` is ahead, or the worker never ran. */
    method BeginStop() returns (proceeds: bool)
      requires Valid()
      modifies this`state
      ensures Valid() && all == old(all)
      ensures proceeds <==> old(state) == WorkerRunning
      ensures View() == if proceeds then WorkerBlocks.BeginStop(old(View())) else old(View())
    {
      if state != WorkerRunning {
        return false;
      }
      state := WorkerStopping;
      proceeds := true;
    }

    method CloseIntake()
      requires Valid()
      modifies this`intakeClosed
      ensures Valid() && all == old(all) && View() == WorkerBlocks.CloseIntake(old(View()))
    {
      intakeClosed := true;
    }

    method FinishStop()
      requires Valid()
      modifies this`state, this`workerId
      ensures Valid() && all == old(all) && View() == WorkerBlocks.FinishStop(old(View()))
    {
      state := WorkerStopped;
      workerId := None;
    }
  }
}
