/**
 Shutdown accountability: an execution leaves the job table only when nothing is owed for
 it, and when `stop` deregisters nothing is owed for any execution.
 */
module WorkerShutdown {
  import opened Wrappers
  import opened WorkerBlocks
  import opened LeaseServer
  import opened WorkerProtocol
  import opened WorkerInvariants

  /** A locked section on execution `e`, seen from the table. */
  ghost predicate TableLocal(sh: Shared, sh': Shared, e: ExecId) {
    && |sh'.execs| == |sh.execs|
    && (forall i :: 0 <= i < |sh.execs| ==> sh'.execs[i].claim == sh.execs[i].claim)
    && (forall i :: 0 <= i < |sh.execs| && i != e ==> sh'.execs[i] == sh.execs[i])
    && (e < |sh.execs| ==>
          && (sh.execs[e].settled ==> sh'.execs[e].settled)
          && (sh.execs[e].leaseLost ==> sh'.execs[e].leaseLost))
    && (sh'.active == sh.active || (e < |sh.execs| && sh' .active == Unregister(sh, e).active))
  }

  lemma ReplacedSame(sh: Shared, sh': Shared, i: ExecId)
    requires |sh'.execs| == |sh.execs|
    requires forall n :: 0 <= n < |sh.execs| ==> sh'.execs[n].claim == sh.execs[n].claim
    ensures Replaced(sh', i) == Replaced(sh, i)
  {
    if Replaced(sh, i) {
      var n :| i < n < |sh.execs| && sh.execs[n].claim.job == sh.execs[i].claim.job;
      assert sh'.execs[n].claim.job == sh'.execs[i].claim.job;
    }
    if Replaced(sh', i) {
      var n :| i < n < |sh'.execs| && sh'.execs[n].claim.job == sh'.execs[i].claim.job;
      assert sh.execs[n].claim.job == sh.execs[i].claim.job;
    }
  }

  /** Accounts are never reopened, and the table keeps everything that is still owed. */
  lemma TableLocalKeeps(sh: Shared, sh': Shared, e: ExecId)
    requires TableNewest(sh) && NoneForgotten(sh) && TableLocal(sh, sh', e)
    requires sh'.active != sh.active ==> Accounted(sh', e)
    ensures TableNewest(sh') && NoneForgotten(sh')
    ensures forall i :: Accounted(sh, i) ==> Accounted(sh', i)
    ensures forall i :: sh'.Owns(i) ==> sh.Owns(i)
  {
    forall i ensures Replaced(sh', i) == Replaced(sh, i) { ReplacedSame(sh, sh', i); }
    forall i | 0 <= i < |sh'.execs| ensures sh'.Owns(i) || Accounted(sh', i) {
      assert sh.Owns(i) || Accounted(sh, i);
    }
  }

  lemma RegisterKeeps(sh: Shared, c: Claimed)
    requires TableNewest(sh) && NoneForgotten(sh) && !sh.intakeClosed
    ensures var sh' := Register(sh, c);
      && TableNewest(sh') && NoneForgotten(sh')
      && (forall i :: Accounted(sh, i) ==> Accounted(sh', i))
      && (forall i :: sh'.Owns(i) ==> i == |sh.execs| || sh.Owns(i))
  {
    var sh' := Register(sh, c);
    var n := |sh.execs|;
    forall i: nat | Replaced(sh, i) ensures Replaced(sh', i) {
      var m :| i < m < n && sh.execs[m].claim.job == sh.execs[i].claim.job;
      assert sh'.execs[m].claim.job == sh'.execs[i].claim.job;
    }
    forall i | 0 <= i < |sh'.execs| ensures sh'.Owns(i) || Accounted(sh', i) {
      if i < n {
        assert sh.Owns(i) || Accounted(sh, i);
        assert sh'.execs[n].claim.job == c.job;
      }
    }
    forall job | job in sh'.active ensures !Replaced(sh', sh'.active[job]) {
      var i := sh'.active[job];
      forall m | i < m < |sh'.execs| ensures sh'.execs[m].claim.job != sh'.execs[i].claim.job {
        if m < n { assert !Replaced(sh, i); }
      }
    }
  }

  /** With stop past its abandon loop, or no worker id, nothing is owed. */
  lemma NothingOwed(cfg: Config, s: System, e: ExecId)
    requires TableInv(s) && StopInv(cfg, s) && e < |s.sh.execs|
    requires Phase(s.stop) >= 6
    ensures Accounted(s.sh, e)
  {
    assert s.sh.Owns(e) || Accounted(s.sh, e);
  }

  lemma AckIsLocal(cfg: Config, sh: Shared, w: Who, e: ExecId, k: AckAction)
    requires e < |sh.execs|
    ensures TableLocal(sh, AckShared(cfg, sh, w, e, k), e)
  {
  }

  lemma AckAccounts(cfg: Config, s: System, w: Who, e: ExecId, k: AckAction)
    requires SettlementInv(cfg, s) && TableInv(s) && StopInv(cfg, s)
    requires Enabled(cfg, s, AckStep(w, e, k))
    ensures var s' := Apply(cfg, s, AckStep(w, e, k));
      && TableLocal(s.sh, s'.sh, e)
      && (s'.threads[e].At(w).Closing? || k.Settle? ==> Accounted(s'.sh, e))
      && (s'.sh.active != s.sh.active ==> Accounted(s'.sh, e))
  {
    var s' := Apply(cfg, s, AckStep(w, e, k));
    AckIsLocal(cfg, s.sh, w, e, k);
    ReplacedSame(s.sh, s'.sh, e);
    assert ExecutionOk(cfg, s.sh.execs[e], s.threads[e]);
    assert s.sh.Owns(e) || Accounted(s.sh, e);
    if k.Settle? && s.sh.workerId.None? { NothingOwed(cfg, s, e); }
  }

  /** A step on execution `e` and its threads. */
  ghost predicate LocalFrame(s: System, s': System, e: ExecId) {
    && s'.sh == s.sh.(active := s'.sh.active, execs := s'.sh.execs, abandonedRunning := s'.sh.abandonedRunning)
    && s'.stop == s.stop && s'.executor == s.executor && s'.deregistered == s.deregistered
    && |s'.threads| == |s.threads|
    && forall i :: 0 <= i < |s.threads| && i != e ==> s'.threads[i] == s.threads[i]
  }

  /** What it must establish for the table and stop. */
  ghost predicate LocalBalance(s: System, s': System, e: ExecId) {
    && (s'.sh.active != s.sh.active ==> Accounted(s'.sh, e))
    && (e < |s.threads| && e < |s'.threads| ==>
          var t, t' := s.threads[e], s'.threads[e];
          && (t'.handler.Closing? || t'.timer.Closing? || t'.stop.Closing? ==> Accounted(s'.sh, e))
          && (t.stop.Off? <==> t'.stop.Off?)
          && (t.stop.Finished? ==> t'.stop.Finished?)
          && (t.stop.Settling? && !t'.stop.Settling? ==> Accounted(s'.sh, e)))
  }

  lemma LocalKeeps(cfg: Config, s: System, s': System, e: ExecId)
    requires TableInv(s) && StopInv(cfg, s) && TableLocal(s.sh, s'.sh, e)
    requires LocalFrame(s, s', e) && LocalBalance(s, s', e)
    ensures TableInv(s') && StopInv(cfg, s')
  {
    TableLocalKeeps(s.sh, s'.sh, e);
    forall i | 0 <= i < |s'.threads| ensures StopPartyOk(s', i) {
      assert StopPartyOk(s, i);
    }
    forall i | 0 <= i < |s'.sh.execs| && s'.sh.Owns(i) && !Accounted(s'.sh, i) ensures Owed(s', i) {
      assert s.sh.Owns(i) && !Accounted(s.sh, i);
      assert Owed(s, i);
    }
  }

  lemma JobKeepsTable(cfg: Config, s: System, e: ExecId, j: JobAction)
    requires SettlementInv(cfg, s) && TableInv(s) && StopInv(cfg, s) && Enabled(cfg, s, JobStep(e, j))
    ensures TableInv(Apply(cfg, s, JobStep(e, j))) && StopInv(cfg, Apply(cfg, s, JobStep(e, j)))
  {
    assert ExecutionOk(cfg, s.sh.execs[e], s.threads[e]);
    LocalKeeps(cfg, s, Apply(cfg, s, JobStep(e, j)), e);
  }

  /** An ack step moves one party only. */
  lemma AckMoves(cfg: Config, sv: Server, sh: Shared, w: Who, e: ExecId, t: Threads, k: AckAction)
    requires e < |sh.execs| && AckEnabled(cfg, sv, sh.execs[e], t.At(w), k)
    ensures var t' := AckThreads(cfg, sv, sh, w, e, t, k);
      && !t.At(w).Off? && !t'.At(w).Off? && !t.At(w).Finished?
      && (t.At(w).Settling? ==> k.Settle?)
      && (!w.ByHandler? ==> t'.handler == t.handler) && (!w.ByTimer? ==> t'.timer == t.timer)
      && (!w.ByStop? ==> t'.stop == t.stop)
  {
  }

  /** The parties that did not move were accounted for already. */
  lemma AckClosings(s: System, s': System, w: Who, e: ExecId)
    requires TableInv(s) && TableLocal(s.sh, s'.sh, e) && e < |s.threads| && e < |s.sh.execs| && e < |s'.threads|
    requires s'.sh.active != s.sh.active ==> Accounted(s'.sh, e)
    requires s'.threads[e].At(w).Closing? ==> Accounted(s'.sh, e)
    requires forall v: Who :: v != w ==> s'.threads[e].At(v) == s.threads[e].At(v)
    ensures forall v: Who :: s'.threads[e].At(v).Closing? ==> Accounted(s'.sh, e)
    ensures s'.threads[e].handler.Closing? || s'.threads[e].timer.Closing? || s'.threads[e].stop.Closing? ==> Accounted(s'.sh, e)
  {
    TableLocalKeeps(s.sh, s'.sh, e);
    var t' := s'.threads[e];
    assert t'.At(ByHandler) == t'.handler && t'.At(ByTimer) == t'.timer && t'.At(ByStop) == t'.stop;
    if Accounted(s.sh, e) { assert Accounted(s'.sh, e); }
  }

  lemma AckIsFramed(cfg: Config, s: System, w: Who, e: ExecId, k: AckAction)
    requires Enabled(cfg, s, AckStep(w, e, k))
    ensures LocalFrame(s, Apply(cfg, s, AckStep(w, e, k)), e)
  {
  }

  lemma AckBalances(cfg: Config, s: System, w: Who, e: ExecId, k: AckAction)
    requires SettlementInv(cfg, s) && TableInv(s) && StopInv(cfg, s) && Enabled(cfg, s, AckStep(w, e, k))
    ensures LocalBalance(s, Apply(cfg, s, AckStep(w, e, k)), e)
  {
    AckAccounts(cfg, s, w, e, k);
    AckMoves(cfg, s.sv, s.sh, w, e, s.threads[e], k);
    AckClosings(s, Apply(cfg, s, AckStep(w, e, k)), w, e);
  }

  lemma AckKeepsTable(cfg: Config, s: System, w: Who, e: ExecId, k: AckAction)
    requires SettlementInv(cfg, s) && TableInv(s) && StopInv(cfg, s) && Enabled(cfg, s, AckStep(w, e, k))
    ensures TableInv(Apply(cfg, s, AckStep(w, e, k))) && StopInv(cfg, Apply(cfg, s, AckStep(w, e, k)))
  {
    AckAccounts(cfg, s, w, e, k);
    AckIsFramed(cfg, s, w, e, k);
    AckBalances(cfg, s, w, e, k);
    LocalKeeps(cfg, s, Apply(cfg, s, AckStep(w, e, k)), e);
  }

  lemma BeatKeepsTable(cfg: Config, s: System, e: ExecId, b: BeatAction)
    requires SettlementInv(cfg, s) && TableInv(s) && StopInv(cfg, s) && Enabled(cfg, s, BeatStep(e, b))
    ensures TableInv(Apply(cfg, s, BeatStep(e, b))) && StopInv(cfg, Apply(cfg, s, BeatStep(e, b)))
  {
    var s' := Apply(cfg, s, BeatStep(e, b));
    TableLocalKeeps(s.sh, s'.sh, e);
    LocalKeeps(cfg, s, s', e);
  }

  lemma TakeKeepsTable(cfg: Config, s: System)
    requires TableInv(s) && StopInv(cfg, s) && PollEnabled(cfg, s, TakeNext) && !s.sh.intakeClosed
    ensures TableInv(ApplyTake(s)) && StopInv(cfg, ApplyTake(s))
  {
    var s' := ApplyTake(s);
    RegisterKeeps(s.sh, s.poll.rest[0]);
    forall i | 0 <= i < |s'.threads| ensures StopPartyOk(s', i) {
      if i < |s.threads| { assert StopPartyOk(s, i); }
    }
  }

  lemma RejectedKeepsTable(cfg: Config, s: System)
    requires TableInv(s) && StopInv(cfg, s) && PollInv(cfg, s) && PollEnabled(cfg, s, SubmitRejected)
    ensures var s' := PollApply(cfg, s, SubmitRejected); TableInv(s') && StopInv(cfg, s')
  {
    var s' := PollApply(cfg, s, SubmitRejected);
    NothingOwed(cfg, s, s.poll.e);
    TableLocalKeeps(s.sh, s'.sh, s.poll.e);
    LocalKeeps(cfg, s, s', s.poll.e);
  }

  /** A step that leaves the table, every `stop` party and every closing party alone. */
  lemma FrameKeepsTable(cfg: Config, s: System, s': System)
    requires TableInv(s) && StopInv(cfg, s)
    requires s'.sh == s.sh.(pollInFlight := s'.sh.pollInFlight)
    requires s'.stop == s.stop && s'.executor == s.executor && s'.deregistered == s.deregistered
    requires |s'.threads| == |s.threads|
    requires forall i :: 0 <= i < |s.threads| ==>
      && s'.threads[i].stop == s.threads[i].stop && s'.threads[i].timer == s.threads[i].timer
      && (s'.threads[i].handler.Closing? ==> s.threads[i].handler.Closing?)
    ensures TableInv(s') && StopInv(cfg, s')
  {
    SameTable(s.sh, s'.sh);
    forall i | 0 <= i < |s'.threads| ensures StopPartyOk(s', i) { assert StopPartyOk(s, i); }
    forall i | 0 <= i < |s'.sh.execs| && s'.sh.Owns(i) && !Accounted(s'.sh, i) ensures Owed(s', i) {
      assert s.sh.Owns(i) && !Accounted(s.sh, i);
      assert Owed(s, i);
    }
  }

  lemma StartKeepsTable(cfg: Config, s: System, a: PollAction)
    requires TableInv(s) && StopInv(cfg, s) && PollEnabled(cfg, s, a) && (a.ScheduleBeat? || a.Submit?)
    ensures TableInv(PollApply(cfg, s, a)) && StopInv(cfg, PollApply(cfg, s, a))
  {
    FrameKeepsTable(cfg, s, PollApply(cfg, s, a));
  }

  lemma PollKeepsTable(cfg: Config, s: System, a: PollAction)
    requires TableInv(s) && StopInv(cfg, s) && PollInv(cfg, s) && PollEnabled(cfg, s, a)
    ensures TableInv(PollApply(cfg, s, a)) && StopInv(cfg, PollApply(cfg, s, a))
  {
    if a.TakeNext? && !s.sh.intakeClosed {
      TakeKeepsTable(cfg, s);
    } else if a.SubmitRejected? {
      RejectedKeepsTable(cfg, s);
    } else if a.ScheduleBeat? || a.Submit? {
      StartKeepsTable(cfg, s, a);
    } else {
      var s' := PollApply(cfg, s, a);
      assert s'.threads == s.threads && s'.stop == s.stop;
      FrameKeepsTable(cfg, s, s');
    }
  }

  lemma SameTable(sh: Shared, sh': Shared)
    requires sh'.execs == sh.execs && sh'.active == sh.active
    ensures forall i :: Accounted(sh', i) == Accounted(sh, i)
    ensures forall i :: sh'.Owns(i) == sh.Owns(i)
    ensures TableNewest(sh) ==> TableNewest(sh')
    ensures NoneForgotten(sh) ==> NoneForgotten(sh')
  {
    forall i ensures Replaced(sh', i) == Replaced(sh, i) { ReplacedSame(sh, sh', i); }
    if NoneForgotten(sh) {
      forall i | 0 <= i < |sh'.execs| ensures sh'.Owns(i) || Accounted(sh', i) {
        assert sh.Owns(i) || Accounted(sh, i);
      }
    }
  }

  /** Stop itself never takes anything out of the table. */
  lemma StopLeavesTable(cfg: Config, s: System, a: StopAction)
    requires StopEnabled(s, a)
    ensures var s' := StopApply(cfg, s, a);
      && s'.sh.execs == s.sh.execs && s'.sh.active == s.sh.active && |s'.threads| == |s.threads|
      && forall i :: 0 <= i < |s.threads| ==>
           s'.threads[i].handler == s.threads[i].handler && s'.threads[i].timer == s.threads[i].timer
           && (s'.threads[i].stop.Closing? ==> s.threads[i].stop.Closing?)
  {
  }

  lemma StopKeepsParties(cfg: Config, s: System, a: StopAction, i: ExecId)
    requires StopInv(cfg, s) && StopEnabled(s, a) && i < |s.threads|
    ensures |StopApply(cfg, s, a).threads| == |s.threads| && StopPartyOk(StopApply(cfg, s, a), i)
  {
    assert StopPartyOk(s, i);
  }

  lemma StopKeepsOwed(cfg: Config, s: System, a: StopAction, i: ExecId)
    requires StopInv(cfg, s) && StopEnabled(s, a) && s.sh.Owns(i) && !Accounted(s.sh, i)
    ensures Owed(StopApply(cfg, s, a), i)
  {
    assert Owed(s, i);
    if a.StopLists? { assert s.sh.execs[i].claim.job in s.sh.active; }
    if a.StopNext? { assert s.threads[s.stop.e].stop.Finished?; }
  }

  lemma StopKeepsTable(cfg: Config, s: System, a: StopAction)
    requires TableInv(s) && StopInv(cfg, s) && StopEnabled(s, a)
    ensures TableInv(StopApply(cfg, s, a)) && StopInv(cfg, StopApply(cfg, s, a))
  {
    var s' := StopApply(cfg, s, a);
    StopLeavesTable(cfg, s, a);
    SameTable(s.sh, s'.sh);
    forall i | 0 <= i < |s'.threads| ensures StopPartyOk(s', i) { StopKeepsParties(cfg, s, a, i); }
    forall i | 0 <= i < |s'.sh.execs| && s'.sh.Owns(i) && !Accounted(s'.sh, i) ensures Owed(s', i) {
      StopKeepsOwed(cfg, s, a, i);
    }
  }

  lemma KeepsTable(cfg: Config, s: System, a: Action)
    requires SettlementInv(cfg, s) && TableInv(s) && StopInv(cfg, s) && PollInv(cfg, s) && Enabled(cfg, s, a)
    ensures TableInv(Apply(cfg, s, a)) && StopInv(cfg, Apply(cfg, s, a))
  {
    match a {
      case PollStep(p) => PollKeepsTable(cfg, s, p);
      case JobStep(e, j) => JobKeepsTable(cfg, s, e, j);
      case AckStep(w, e, k) => AckKeepsTable(cfg, s, w, e, k);
      case BeatStep(e, b) => BeatKeepsTable(cfg, s, e, b);
      case StopStep(st) => StopKeepsTable(cfg, s, st);
      case ServerStep(_) => LocalKeeps(cfg, s, Apply(cfg, s, a), 0);
    }
  }
}
