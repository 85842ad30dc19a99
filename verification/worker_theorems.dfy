/** What holds in every run of a worker, threaded or asyncio, against the lease-fenced server. */
module WorkerTheorems {
  import opened Wrappers
  import opened WorkerBlocks
  import opened LeaseServer
  import opened WorkerProtocol
  import opened WorkerInvariants
  import Settlement = WorkerSettlement
  import Shutdown = WorkerShutdown
  import Intake = WorkerIntake
  import Truth = WorkerTruth

  lemma InitInv(cfg: Config, s: System)
    requires Init(cfg, s)
    ensures Inv(cfg, s)
  {
    assert Claims(s.sh.execs) == [];
  }

  lemma StepKeepsInv(cfg: Config, s: System, a: Action)
    requires Inv(cfg, s) && Enabled(cfg, s, a)
    ensures Inv(cfg, Apply(cfg, s, a))
  {
    Settlement.KeepsSettlement(cfg, s, a);
    Shutdown.KeepsTable(cfg, s, a);
    Intake.KeepsCounter(cfg, s, a);
    Intake.KeepsPoll(cfg, s, a);
    Intake.KeepsClaims(cfg, s, a);
    Intake.KeepsReleases(cfg, s, a);
    Truth.KeepsTruth(cfg, s, a);
  }

  lemma {:induction false} RunKeepsInv(cfg: Config, s: System, run: seq<Action>)
    requires Inv(cfg, s) && After(cfg, s, run).Some?
    ensures Inv(cfg, After(cfg, s, run).value)
    decreases |run|
  {
    if run != [] {
      StepKeepsInv(cfg, s, run[0]);
      RunKeepsInv(cfg, Apply(cfg, s, run[0]), run[1..]);
    }
  }

  /** Every reachable state satisfies the invariant. */
  lemma ReachableInv(cfg: Config, s: System)
    requires Reachable(cfg, s)
    ensures Inv(cfg, s)
  {
    var s0 :| Init(cfg, s0) && Reaches(cfg, s0, s);
    var run :| After(cfg, s0, run) == Some(s);
    InitInv(cfg, s0);
    RunKeepsInv(cfg, s0, run);
  }

  // ---- Acks ------------------------------------------------------------------------------------------

  /** A sequence with an element at two positions counts it twice. */
  lemma CountedTwice<T>(a: seq<T>, i: nat, j: nat)
    requires i < j < |a| && a[i] == a[j]
    ensures multiset(a)[a[i]] >= 2
  {
    assert a == a[..j] + a[j..];
    assert a[i] in a[..j] && a[j] in a[j..];
    assert multiset(a) == multiset(a[..j]) + multiset(a[j..]);
  }

  /** A sequence with distinct leases counts nothing twice. */
  lemma {:induction false} DistinctOnce(cs: seq<Claimed>, c: Claimed)
    requires DistinctLeases(cs)
    ensures multiset(cs)[c] <= 1
  {
    if cs != [] {
      var n := |cs| - 1;
      assert cs == cs[..n] + [cs[n]];
      DistinctOnce(cs[..n], c);
      if c == cs[n] {
        assert forall i :: 0 <= i < n ==> cs[i] != c;
        assert c !in cs[..n];
      }
    }
  }

  /** Two claims the worker holds, registered or released, never share a lease. */
  lemma LeasesApart(cfg: Config, s: System, e: ExecId, f: ExecId)
    requires ClaimInv(cfg, s) && e < f < |s.sh.execs|
    ensures s.sh.execs[e].claim.lease != s.sh.execs[f].claim.lease
  {
    var cs := Claims(s.sh.execs);
    var c, d := cs[e], cs[f];
    assert c in multiset(cs) && d in multiset(cs);
    assert c in multiset(s.delivered) && d in multiset(s.delivered);
    forall i, j | 0 <= i < j < |s.delivered| ensures s.delivered[i].lease != s.delivered[j].lease {
      assert Granted(s)[i] == s.delivered[i] && Granted(s)[j] == s.delivered[j];
    }
    if c == d {
      CountedTwice(cs, e, f);
      DistinctOnce(s.delivered, c);
    } else {
      var i :| 0 <= i < |s.delivered| && s.delivered[i] == c;
      var j :| 0 <= j < |s.delivered| && s.delivered[j] == d;
    }
  }

  /**
   One execution issues at most one of complete and fail, and only when it was settled; it
   emits at most one of completed and failed, of the kind it called; it reports its lease
   lost at most once.  No other execution acts under the same lease.
   */
  lemma AtMostOneAck(cfg: Config, s: System, e: ExecId)
    requires Reachable(cfg, s) && e < |s.sh.execs|
    ensures |s.threads| == |s.sh.execs|
    ensures var t := s.threads[e];
      && |t.calls| <= 1 && (t.calls != [] ==> s.sh.execs[e].settled)
      && t.completedEvents + t.failedEvents <= 1
      && (t.completedEvents == 1 ==> t.calls == [CompleteAck])
      && (t.failedEvents == 1 ==> t.calls == [FailAck])
      && t.lostEvents == (if s.sh.execs[e].leaseLost then 1 else 0)
    ensures forall f :: 0 <= f < |s.sh.execs| && f != e ==> s.sh.execs[f].claim.lease != s.sh.execs[e].claim.lease
  {
    ReachableInv(cfg, s);
    assert ExecutionOk(cfg, s.sh.execs[e], s.threads[e]);
    forall f | 0 <= f < |s.sh.execs| && f != e ensures s.sh.execs[f].claim.lease != s.sh.execs[e].claim.lease {
      if f < e { LeasesApart(cfg, s, f, e); } else { LeasesApart(cfg, s, e, f); }
    }
  }

  ghost predicate SettledWithin(s: System, s': System) {
    && |s.sh.execs| <= |s'.sh.execs|
    && forall i :: 0 <= i < |s.sh.execs| ==> s'.sh.execs[i].settled == s.sh.execs[i].settled
  }

  lemma PollGrantsNothing(cfg: Config, s: System, a: PollAction)
    requires PollEnabled(cfg, s, a)
    ensures SettledWithin(s, PollApply(cfg, s, a))
  {
  }

  lemma AckGrantsToOwner(cfg: Config, s: System, w: Who, e: ExecId, k: AckAction)
    requires Enabled(cfg, s, AckStep(w, e, k))
    ensures var s' := Apply(cfg, s, AckStep(w, e, k));
      && |s'.sh.execs| == |s.sh.execs|
      && (forall i :: 0 <= i < |s.sh.execs| && i != e ==> s'.sh.execs[i].settled == s.sh.execs[i].settled)
      && (s.sh.execs[e].settled ==> s'.sh.execs[e].settled)
      && (!s.sh.execs[e].settled && s'.sh.execs[e].settled ==>
            s.sh.Owns(e) && !s.sh.execs[e].leaseLost && s.sh.workerId.Some?)
  {
  }

  /** Settlement is granted only to the execution the table holds, with its lease, and never taken back. */
  lemma SettlementGrantedToOwner(cfg: Config, s: System, a: Action, e: ExecId)
    requires Enabled(cfg, s, a) && e < |s.sh.execs|
    ensures var s' := Apply(cfg, s, a);
      && e < |s'.sh.execs|
      && (s.sh.execs[e].settled ==> s'.sh.execs[e].settled)
      && (!s.sh.execs[e].settled && s'.sh.execs[e].settled ==>
            s.sh.Owns(e) && !s.sh.execs[e].leaseLost && s.sh.workerId.Some?)
  {
    match a {
      case PollStep(p) => PollGrantsNothing(cfg, s, p);
      case AckStep(w, f, k) => AckGrantsToOwner(cfg, s, w, f, k);
      case StopStep(st) => assert StopApply(cfg, s, st).sh.execs == s.sh.execs;
      case _ =>
    }
  }

  /**
   Each lease has at most one effective ack and each job is completed at most once.  A
   completed event means the row is completed; a failed event, of the handler's path or of
   the release path, means the server acted on `fail` under that lease with the retry
   decision the event reports; a lost lease is not current any more.
   */
  lemma EventsAreTrue(cfg: Config, s: System)
    requires Reachable(cfg, s)
    ensures OneEffectPerLease(s.sv) && OneCompletionPerJob(s.sv)
    ensures |s.threads| == |s.sh.execs|
    ensures forall e :: 0 <= e < |s.threads| ==>
      var x, t := s.sh.execs[e], s.threads[e];
      && (t.completedEvents > 0 ==> s.sv.IsCompleted(x.claim.job))
      && (t.failedEvents > 0 ==> Effect(x.claim.lease, DidFail(x.claim.WillRetry())) in s.sv.effects)
      && (t.lostEvents > 0 ==> !s.sv.Current(x.claim.lease))
    ensures forall i :: 0 <= i < |s.releaseFailed| ==>
      Effect(s.releaseFailed[i].lease, DidFail(s.releaseFailed[i].WillRetry())) in s.sv.effects
  {
    ReachableInv(cfg, s);
    forall e | 0 <= e < |s.threads|
      ensures Truthful(cfg, s.sv, s.sh.execs[e], s.threads[e]) && ExecutionOk(cfg, s.sh.execs[e], s.threads[e])
    {
    }
    forall i | 0 <= i < |s.releaseFailed| ensures ReleaseTrue(s.sv, s.releaseFailed[i]) {
    }
  }

  // ---- Shutdown ---------------------------------------------------------------------------------------

  /** When stop has deregistered, nothing is owed for any execution that ever entered the table. */
  lemma ShutdownAccountsForAll(cfg: Config, s: System, e: ExecId)
    requires Reachable(cfg, s) && s.deregistered && e < |s.sh.execs|
    ensures s.sh.execs[e].settled || s.sh.execs[e].leaseLost || Replaced(s.sh, e)
  {
    ReachableInv(cfg, s);
    Shutdown.NothingOwed(cfg, s, e);
  }

  predicate Within(m: map<JobId, ExecId>, n: map<JobId, ExecId>) {
    forall job :: job in m ==> job in n && m[job] == n[job]
  }

  lemma PollShrinksTable(cfg: Config, s: System, a: PollAction)
    requires PollEnabled(cfg, s, a) && s.sh.intakeClosed
    ensures var s' := PollApply(cfg, s, a); s'.sh.intakeClosed && Within(s'.sh.active, s.sh.active)
  {
    if a.TakeNext? { assert ApplyTake(s).sh == s.sh; }
  }

  lemma StepShrinksTable(cfg: Config, s: System, a: Action)
    requires Enabled(cfg, s, a) && s.sh.intakeClosed
    ensures var s' := Apply(cfg, s, a); s'.sh.intakeClosed && Within(s'.sh.active, s.sh.active)
  {
    match a {
      case PollStep(p) => PollShrinksTable(cfg, s, p);
      case StopStep(st) => assert StopApply(cfg, s, st).sh.active == s.sh.active;
      case _ =>
    }
  }

  /** Once intake is closed the table only shrinks, whatever runs on. */
  lemma {:induction false} ClosedTableShrinks(cfg: Config, s: System, run: seq<Action>)
    requires s.sh.intakeClosed && After(cfg, s, run).Some?
    ensures var s' := After(cfg, s, run).value; s'.sh.intakeClosed && Within(s'.sh.active, s.sh.active)
    decreases |run|
  {
    if run != [] {
      StepShrinksTable(cfg, s, run[0]);
      ClosedTableShrinks(cfg, Apply(cfg, s, run[0]), run[1..]);
    }
  }

  // ---- Intake -------------------------------------------------------------------------------------------

  /**
   Every job a claim returned is, exactly once, registered, still waiting in the batch, on
   the release path, or dropped; nothing is dropped unless stop cut its wait for the claim.
   */
  lemma ClaimsConserved(cfg: Config, s: System)
    requires Reachable(cfg, s)
    ensures multiset(s.delivered) ==
      multiset(Claims(s.sh.execs)) + multiset(Waiting(s.poll)) + multiset(s.released) + multiset(s.dropped)
    ensures s.dropped != [] ==> s.pollWaitCut && s.sh.intakeClosed && !cfg.isAsync
  {
    ReachableInv(cfg, s);
  }

  /**
   Every released job was failed under the id that holds its lease, so the server acts on
   the call whenever the lease is still current.
   */
  lemma ReleasedUnderItsHolder(cfg: Config, s: System, i: nat)
    requires Reachable(cfg, s) && i < |s.released| && !s.poll.PollReleasing?
    ensures var m := Message(FailAck, s.released[i], cfg.worker);
      && m in s.sv.sent
      && s.sh.intakeClosed
      && (s.sv.Current(m.claim.lease) <==> Fenced(s.sv, m))
  {
    ReachableInv(cfg, s);
    var m := Message(FailAck, s.released[i], cfg.worker);
    assert m in s.sv.sent;
  }

  lemma StoppedStepNeverClaims(cfg: Config, s: System, a: Action)
    requires Enabled(cfg, s, a) && !s.sh.state.WorkerRunning?
    ensures a != PollStep(EnterPolling) && !Apply(cfg, s, a).sh.state.WorkerRunning?
  {
    match a {
      case PollStep(p) => assert PollApply(cfg, s, p).sh.state == s.sh.state;
      case AckStep(w, e, k) => assert AckShared(cfg, s.sh, w, e, k).state == s.sh.state;
      case StopStep(st) => assert !StopApply(cfg, s, st).sh.state.WorkerRunning?;
      case _ =>
    }
  }

  /** Once the state has left `running`, no claim starts. */
  lemma {:induction false} NoClaimAfterStop(cfg: Config, s: System, run: seq<Action>)
    requires !s.sh.state.WorkerRunning? && After(cfg, s, run).Some?
    ensures PollStep(EnterPolling) !in run
    decreases |run|
  {
    if run != [] {
      StoppedStepNeverClaims(cfg, s, run[0]);
      NoClaimAfterStop(cfg, Apply(cfg, s, run[0]), run[1..]);
      assert run == [run[0]] + run[1..];
    }
  }

  /**
   If stop did not cut its wait for the claim on the wire, then from the drain on every job
   ever delivered is registered and nothing has been, or is being, released.
   */
  lemma HandOff(cfg: Config, s: System)
    requires Reachable(cfg, s) && Phase(s.stop) >= 2 && !s.pollWaitCut
    ensures s.poll.PollIdle? && s.released == []
    ensures multiset(s.delivered) == multiset(Claims(s.sh.execs))
  {
    ReachableInv(cfg, s);
  }

  /** A job is on the release path only after stop cut its wait and closed intake. */
  lemma ReleaseNeedsCutWait(cfg: Config, s: System)
    requires Reachable(cfg, s)
    ensures s.released != [] || s.poll.PollReleasing? || s.poll.PollReleaseAwaiting? ==>
      s.pollWaitCut && s.sh.intakeClosed
  {
    ReachableInv(cfg, s);
  }

  // ---- Slots ------------------------------------------------------------------------------------------------

  /** Registered jobs and claims still to come fit in `concurrency`; the counter counts the marks exactly. */
  lemma SlotsConserved(cfg: Config, s: System)
    requires Reachable(cfg, s)
    ensures |s.sh.active| + Reserved(s.poll) <= cfg.concurrency
    ensures s.sh.abandonedRunning == CountAbandoned(s.sh.execs)
  {
    ReachableInv(cfg, s);
  }

  /** So the clamp at zero in `_cleanup_job` never acts. */
  lemma ClampNeverActs(cfg: Config, s: System, e: ExecId)
    requires Reachable(cfg, s) && e < |s.sh.execs|
    ensures s.sh.execs[e].abandoned ==> Cleanup(s.sh, e).abandonedRunning == s.sh.abandonedRunning - 1
    ensures !s.sh.execs[e].abandoned ==> Cleanup(s.sh, e).abandonedRunning == s.sh.abandonedRunning
  {
    ReachableInv(cfg, s);
    Intake.CountUpdate(s.sh.execs, e, s.sh.execs[e].(abandoned := false));
  }
}
