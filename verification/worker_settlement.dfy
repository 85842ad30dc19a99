/**
 Settlement: whatever the interleaving, one execution issues at most one of complete and
 fail, emits at most one of completed and failed, and reports its lease lost at most once.
 */
module WorkerSettlement {
  import opened WorkerBlocks
  import opened LeaseServer
  import opened WorkerProtocol
  import opened WorkerInvariants

  /** A step that touches at most execution `e`. */
  ghost predicate Local(s: System, s': System, e: ExecId) {
    && |s'.threads| == |s.threads| == |s.sh.execs| == |s'.sh.execs|
    && forall i :: 0 <= i < |s.threads| && i != e ==> s'.sh.execs[i] == s.sh.execs[i] && s'.threads[i] == s.threads[i]
  }

  lemma LocalKeeps(cfg: Config, s: System, s': System, e: ExecId)
    requires SettlementInv(cfg, s) && Local(s, s', e)
    requires e < |s.threads| ==> ExecutionOk(cfg, s'.sh.execs[e], s'.threads[e])
    ensures SettlementInv(cfg, s')
  {
  }

  lemma JobKeeps(cfg: Config, x: Execution, t: Threads, a: JobAction)
    requires ExecutionOk(cfg, x, t) && JobEnabled(cfg, x, t, a)
    ensures ExecutionOk(cfg, x, JobApply(cfg, t, a))
  {
  }

  /** What an ack step on `e` must keep. */
  ghost predicate AckKept(cfg: Config, sv: Server, sh: Shared, w: Who, e: ExecId, t: Threads, a: AckAction)
    requires e < |sh.execs| && AckEnabled(cfg, sv, sh.execs[e], t.At(w), a)
  {
    var sh' := AckShared(cfg, sh, w, e, a);
    && |sh'.execs| == |sh.execs|
    && (forall i :: 0 <= i < |sh.execs| && i != e ==> sh'.execs[i] == sh.execs[i])
    && ExecutionOk(cfg, sh'.execs[e], AckThreads(cfg, sv, sh, w, e, t, a))
  }

  lemma SettleKeeps(cfg: Config, sv: Server, sh: Shared, w: Who, e: ExecId, t: Threads)
    requires e < |sh.execs| && ExecutionOk(cfg, sh.execs[e], t) && AckEnabled(cfg, sv, sh.execs[e], t.At(w), Settle)
    ensures AckKept(cfg, sv, sh, w, e, t, Settle)
  {
  }

  lemma CallKeeps(cfg: Config, sv: Server, sh: Shared, w: Who, e: ExecId, t: Threads, a: AckAction)
    requires e < |sh.execs| && ExecutionOk(cfg, sh.execs[e], t) && AckEnabled(cfg, sv, sh.execs[e], t.At(w), a)
    requires a.CheckLease? || a.Call?
    ensures AckKept(cfg, sv, sh, w, e, t, a)
  {
  }

  lemma AnswerKeeps(cfg: Config, sv: Server, sh: Shared, w: Who, e: ExecId, t: Threads, a: AckAction)
    requires e < |sh.execs| && ExecutionOk(cfg, sh.execs[e], t) && AckEnabled(cfg, sv, sh.execs[e], t.At(w), a)
    requires a.CallAccepted? || a.CallAlreadyDone? || a.CallExpired? || a.CallError?
    ensures AckKept(cfg, sv, sh, w, e, t, a)
  {
  }

  lemma LossKeeps(cfg: Config, sv: Server, sh: Shared, w: Who, e: ExecId, t: Threads)
    requires e < |sh.execs| && ExecutionOk(cfg, sh.execs[e], t) && AckEnabled(cfg, sv, sh.execs[e], t.At(w), LoseByCall)
    ensures AckKept(cfg, sv, sh, w, e, t, LoseByCall)
  {
  }

  lemma CloseKeeps(cfg: Config, sv: Server, sh: Shared, w: Who, e: ExecId, t: Threads)
    requires e < |sh.execs| && ExecutionOk(cfg, sh.execs[e], t) && AckEnabled(cfg, sv, sh.execs[e], t.At(w), Close)
    ensures AckKept(cfg, sv, sh, w, e, t, Close)
  {
  }

  lemma AckKeeps(cfg: Config, sv: Server, sh: Shared, w: Who, e: ExecId, t: Threads, a: AckAction)
    requires e < |sh.execs| && ExecutionOk(cfg, sh.execs[e], t) && AckEnabled(cfg, sv, sh.execs[e], t.At(w), a)
    ensures AckKept(cfg, sv, sh, w, e, t, a)
  {
    match a {
      case Settle => SettleKeeps(cfg, sv, sh, w, e, t);
      case CheckLease => CallKeeps(cfg, sv, sh, w, e, t, a);
      case Call => CallKeeps(cfg, sv, sh, w, e, t, a);
      case LoseByCall => LossKeeps(cfg, sv, sh, w, e, t);
      case Close => CloseKeeps(cfg, sv, sh, w, e, t);
      case _ => AnswerKeeps(cfg, sv, sh, w, e, t, a);
    }
  }

  lemma BeatKeeps(cfg: Config, sv: Server, sh: Shared, e: ExecId, t: Threads, a: BeatAction)
    requires e < |sh.execs| && ExecutionOk(cfg, sh.execs[e], t) && BeatEnabled(sv, sh.execs[e], t, a)
    ensures var x := if a.LoseByBeat? then LoseLease(sh, e).0.execs[e] else sh.execs[e];
      ExecutionOk(cfg, x, BeatThreads(cfg, sh, e, t, a))
  {
  }

  lemma TakeKeeps(cfg: Config, s: System)
    requires SettlementInv(cfg, s) && PollEnabled(cfg, s, TakeNext)
    ensures SettlementInv(cfg, ApplyTake(s))
  {
    assert ExecutionOk(cfg, Fresh(s.poll.rest[0]), NewThreads());
  }

  /** The poll steps about the execution being started. */
  lemma StartKeeps(cfg: Config, s: System, a: PollAction)
    requires SettlementInv(cfg, s) && PollInv(cfg, s) && PollEnabled(cfg, s, a)
    requires a.ScheduleBeat? || a.Submit? || a.SubmitRejected?
    ensures SettlementInv(cfg, PollApply(cfg, s, a))
  {
    var s' := PollApply(cfg, s, a);
    assert ExecutionOk(cfg, s.sh.execs[s.poll.e], s.threads[s.poll.e]);
    LocalKeeps(cfg, s, s', s.poll.e);
  }

  lemma PollKeeps(cfg: Config, s: System, a: PollAction)
    requires SettlementInv(cfg, s) && PollInv(cfg, s) && PollEnabled(cfg, s, a)
    ensures SettlementInv(cfg, PollApply(cfg, s, a))
  {
    match a {
      case TakeNext => TakeKeeps(cfg, s);
      case ScheduleBeat => StartKeeps(cfg, s, a);
      case Submit => StartKeeps(cfg, s, a);
      case SubmitRejected => StartKeeps(cfg, s, a);
      case _ =>
        var s' := PollApply(cfg, s, a);
        assert s'.sh.execs == s.sh.execs && s'.threads == s.threads;
    }
  }

  lemma StopKeeps(cfg: Config, s: System, a: StopAction)
    requires SettlementInv(cfg, s) && StopInv(cfg, s) && StopEnabled(s, a)
    ensures SettlementInv(cfg, StopApply(cfg, s, a))
  {
    var s' := StopApply(cfg, s, a);
    var e := if a.StopPicks? || a.StopCancelsOne? then a.e else 0;
    if a.StopPicks? { assert StopPartyOk(s, e); }
    LocalKeeps(cfg, s, s', e);
  }

  lemma JobStepKeeps(cfg: Config, s: System, e: ExecId, j: JobAction)
    requires SettlementInv(cfg, s) && Enabled(cfg, s, JobStep(e, j))
    ensures SettlementInv(cfg, Apply(cfg, s, JobStep(e, j)))
  {
    JobKeeps(cfg, s.sh.execs[e], s.threads[e], j);
    LocalKeeps(cfg, s, Apply(cfg, s, JobStep(e, j)), e);
  }

  lemma AckStepKeeps(cfg: Config, s: System, w: Who, e: ExecId, k: AckAction)
    requires SettlementInv(cfg, s) && Enabled(cfg, s, AckStep(w, e, k))
    ensures SettlementInv(cfg, Apply(cfg, s, AckStep(w, e, k)))
  {
    AckKeeps(cfg, s.sv, s.sh, w, e, s.threads[e], k);
    LocalKeeps(cfg, s, Apply(cfg, s, AckStep(w, e, k)), e);
  }

  lemma BeatStepKeeps(cfg: Config, s: System, e: ExecId, b: BeatAction)
    requires SettlementInv(cfg, s) && Enabled(cfg, s, BeatStep(e, b))
    ensures SettlementInv(cfg, Apply(cfg, s, BeatStep(e, b)))
  {
    BeatKeeps(cfg, s.sv, s.sh, e, s.threads[e], b);
    LocalKeeps(cfg, s, Apply(cfg, s, BeatStep(e, b)), e);
  }

  lemma KeepsSettlement(cfg: Config, s: System, a: Action)
    requires SettlementInv(cfg, s) && StopInv(cfg, s) && PollInv(cfg, s) && Enabled(cfg, s, a)
    ensures SettlementInv(cfg, Apply(cfg, s, a))
  {
    match a {
      case PollStep(p) => PollKeeps(cfg, s, p);
      case JobStep(e, j) => JobStepKeeps(cfg, s, e, j);
      case AckStep(w, e, k) => AckStepKeeps(cfg, s, w, e, k);
      case BeatStep(e, b) => BeatStepKeeps(cfg, s, e, b);
      case StopStep(st) => StopKeeps(cfg, s, st);
      case ServerStep(_) =>
    }
  }
}
