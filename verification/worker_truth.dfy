/** What the worker reports about a job is what the server did with it. */
module WorkerTruth {
  import opened WorkerBlocks
  import opened LeaseServer
  import opened WorkerProtocol
  import opened WorkerInvariants

  lemma TruthGrows(cfg: Config, sv: Server, sv': Server, x: Execution, t: Threads)
    requires Truthful(cfg, sv, x, t) && Grown(sv, sv')
    ensures Truthful(cfg, sv', x, t)
  {
  }

  /** A step that grows the server, touches at most execution `e`, and leaves the poll loop's claims held. */
  lemma LocalKeepsTruth(cfg: Config, s: System, s': System, e: ExecId)
    requires TruthInv(cfg, s) && ServerInv(s'.sv) && Grown(s.sv, s'.sv)
    requires |s'.threads| == |s.threads| == |s'.sh.execs|
    requires forall i :: 0 <= i < |s.threads| && i != e ==> s'.sh.execs[i] == s.sh.execs[i] && s'.threads[i] == s.threads[i]
    requires e < |s.threads| ==> Truthful(cfg, s'.sv, s'.sh.execs[e], s'.threads[e])
    requires s'.poll == s.poll && s'.releaseFailed == s.releaseFailed
    ensures TruthInv(cfg, s')
  {
    forall i | 0 <= i < |s'.threads| ensures Truthful(cfg, s'.sv, s'.sh.execs[i], s'.threads[i]) {
      if i != e { TruthGrows(cfg, s.sv, s'.sv, s.sh.execs[i], s.threads[i]); }
    }
    PollTruth(cfg, s, s');
  }

  lemma PollTruth(cfg: Config, s: System, s': System)
    requires TruthInv(cfg, s) && Grown(s.sv, s'.sv)
    requires s'.releaseFailed == s.releaseFailed
    ensures forall i :: 0 <= i < |Waiting(s.poll)| ==> HeldLease(cfg, s'.sv, Waiting(s.poll)[i])
    ensures s.poll.PollReleasing? || s.poll.PollReleaseAwaiting? ==> HeldLease(cfg, s'.sv, s.poll.claim)
    ensures forall i :: 0 <= i < |s'.releaseFailed| ==> ReleaseTrue(s'.sv, s'.releaseFailed[i])
  {
    forall i | 0 <= i < |s.releaseFailed| ensures ReleaseTrue(s'.sv, s.releaseFailed[i]) {
      assert ReleaseTrue(s.sv, s.releaseFailed[i]);
    }
  }

  lemma AckKeepsTruth(cfg: Config, s: System, w: Who, e: ExecId, k: AckAction)
    requires SettlementInv(cfg, s) && TruthInv(cfg, s) && Enabled(cfg, s, AckStep(w, e, k))
    ensures TruthInv(cfg, Apply(cfg, s, AckStep(w, e, k)))
  {
    var s' := Apply(cfg, s, AckStep(w, e, k));
    var x, t := s.sh.execs[e], s.threads[e];
    assert Truthful(cfg, s.sv, x, t) && ExecutionOk(cfg, x, t);
    if k.Call? { SendKeepsInv(s.sv, Message(t.At(w).kind, x.claim, cfg.worker)); }
    AckTruth(cfg, s.sv, s.sh, w, e, t, k);
    TruthGrows(cfg, s.sv, s'.sv, s'.sh.execs[e], s'.threads[e]);
    LocalKeepsTruth(cfg, s, s', e);
  }

  lemma AckTruth(cfg: Config, sv: Server, sh: Shared, w: Who, e: ExecId, t: Threads, k: AckAction)
    requires ServerInv(sv) && e < |sh.execs| && Truthful(cfg, sv, sh.execs[e], t)
    requires AckEnabled(cfg, sv, sh.execs[e], t.At(w), k)
    ensures var sh' := AckShared(cfg, sh, w, e, k);
      && |sh'.execs| == |sh.execs|
      && (forall i :: 0 <= i < |sh.execs| && i != e ==> sh'.execs[i] == sh.execs[i])
      && Truthful(cfg, sv, sh'.execs[e], AckThreads(cfg, sv, sh, w, e, t, k))
  {
    var c := sh.execs[e].claim;
    if k.CallAccepted? { assert ReplyTrue(sv, Message(t.At(w).kind, c, cfg.worker), Accepted); }
    if k.CallAlreadyDone? { assert ReplyTrue(sv, Message(CompleteAck, c, cfg.worker), AlreadyCompleted); }
    if k.CallExpired? { assert ReplyTrue(sv, Message(t.At(w).kind, c, cfg.worker), LeaseExpired); }
  }

  lemma JobKeepsTruth(cfg: Config, s: System, e: ExecId, j: JobAction)
    requires TruthInv(cfg, s) && Enabled(cfg, s, JobStep(e, j))
    ensures TruthInv(cfg, Apply(cfg, s, JobStep(e, j)))
  {
    assert Truthful(cfg, s.sv, s.sh.execs[e], s.threads[e]);
    LocalKeepsTruth(cfg, s, Apply(cfg, s, JobStep(e, j)), e);
  }

  lemma BeatKeepsTruth(cfg: Config, s: System, e: ExecId, b: BeatAction)
    requires TruthInv(cfg, s) && Enabled(cfg, s, BeatStep(e, b))
    ensures TruthInv(cfg, Apply(cfg, s, BeatStep(e, b)))
  {
    assert Truthful(cfg, s.sv, s.sh.execs[e], s.threads[e]);
    LocalKeepsTruth(cfg, s, Apply(cfg, s, BeatStep(e, b)), e);
  }

  /** Stop moves its own party of one execution, or marks its task. */
  lemma StopMovesOne(cfg: Config, s: System, a: StopAction, e: ExecId)
    requires StopEnabled(s, a) && e == (if a.StopPicks? || a.StopCancelsOne? then a.e else 0)
    ensures var s' := StopApply(cfg, s, a);
      && s'.sh.execs == s.sh.execs && s'.sv == s.sv && s'.poll == s.poll && s'.releaseFailed == s.releaseFailed
      && |s'.threads| == |s.threads|
      && (forall i :: 0 <= i < |s.threads| && i != e ==> s'.threads[i] == s.threads[i])
      && (e < |s.threads| ==>
            s'.threads[e] == s.threads[e].(stop := s'.threads[e].stop, cancelled := s'.threads[e].cancelled)
            && (s'.threads[e].stop.Losing? ==> s.threads[e].stop.Losing?))
  {
  }

  lemma StopKeepsTruth(cfg: Config, s: System, a: StopAction)
    requires TruthInv(cfg, s) && StopEnabled(s, a)
    ensures TruthInv(cfg, StopApply(cfg, s, a))
  {
    var e := if a.StopPicks? || a.StopCancelsOne? then a.e else 0;
    StopMovesOne(cfg, s, a, e);
    if e < |s.threads| { assert Truthful(cfg, s.sv, s.sh.execs[e], s.threads[e]); }
    LocalKeepsTruth(cfg, s, StopApply(cfg, s, a), e);
  }

  lemma PollServerInv(cfg: Config, s: System, a: PollAction)
    requires PollInv(cfg, s) && StopInv(cfg, s) && TruthInv(cfg, s) && PollEnabled(cfg, s, a)
    ensures ServerInv(PollApply(cfg, s, a).sv) && Grown(s.sv, PollApply(cfg, s, a).sv)
  {
    if a.ReleaseCall? { SendKeepsInv(s.sv, Message(FailAck, s.poll.claim, cfg.worker)); }
    if a.ClaimGrants? { GrantKeepsInv(s.sv, a.job, cfg.worker); }
  }

  /** The claims the poll loop is holding are held under the worker's leases. */
  ghost predicate PollHolds(cfg: Config, sv: Server, p: Poll) {
    && (p.PollReleasing? || p.PollReleaseAwaiting? ==> HeldLease(cfg, sv, p.claim))
    && (forall i :: 0 <= i < |Waiting(p)| ==> HeldLease(cfg, sv, Waiting(p)[i]))
  }

  lemma TakeHolds(cfg: Config, s: System)
    requires PollHolds(cfg, s.sv, s.poll) && PollEnabled(cfg, s, TakeNext)
    ensures PollHolds(cfg, s.sv, ApplyTake(s).poll)
  {
    var rest := Waiting(s.poll);
    assert HeldLease(cfg, s.sv, rest[0]);
    forall i | 0 <= i < |rest[1..]| ensures HeldLease(cfg, s.sv, rest[1..][i]) {
      assert HeldLease(cfg, s.sv, rest[i + 1]);
    }
  }

  lemma ReturnHolds(cfg: Config, s: System)
    requires HeldLeases(cfg, s) && s.poll.PollClaiming?
    ensures PollHolds(cfg, s.sv, PollBatch(s.poll.batch))
  {
    forall i | 0 <= i < |s.poll.batch| ensures HeldLease(cfg, s.sv, s.poll.batch[i]) {
      assert Granted(s)[|s.delivered| + i] == s.poll.batch[i];
    }
  }

  /** The other steps hold nothing new. */
  lemma PollHeld(cfg: Config, s: System, a: PollAction)
    requires ClaimInv(cfg, s) && TruthInv(cfg, s) && PollEnabled(cfg, s, a)
    requires Grown(s.sv, PollApply(cfg, s, a).sv)
    ensures PollHolds(cfg, PollApply(cfg, s, a).sv, PollApply(cfg, s, a).poll)
  {
    match a {
      case TakeNext => TakeHolds(cfg, s);
      case ClaimReturns => ReturnHolds(cfg, s);
      case _ => PollTruth(cfg, s, PollApply(cfg, s, a).(releaseFailed := s.releaseFailed));
    }
  }

  lemma PollReports(cfg: Config, s: System, a: PollAction, s': System)
    requires TruthInv(cfg, s) && PollInv(cfg, s) && PollEnabled(cfg, s, a) && s' == PollApply(cfg, s, a)
    requires Grown(s.sv, s'.sv)
    ensures forall i :: 0 <= i < |s'.releaseFailed| ==> ReleaseTrue(s'.sv, s'.releaseFailed[i])
  {
    PollTruth(cfg, s, s'.(releaseFailed := s.releaseFailed));
    if a.ReleaseAccepted? { assert ReplyTrue(s.sv, Message(FailAck, s.poll.claim, cfg.worker), Accepted); }
  }

  lemma PollKeepsTruth(cfg: Config, s: System, a: PollAction)
    requires PollInv(cfg, s) && StopInv(cfg, s) && ClaimInv(cfg, s) && TruthInv(cfg, s) && PollEnabled(cfg, s, a)
    ensures TruthInv(cfg, PollApply(cfg, s, a))
  {
    var s' := PollApply(cfg, s, a);
    PollServerInv(cfg, s, a);
    PollThreadsTruth(cfg, s, a);
    PollHeld(cfg, s, a);
    PollReports(cfg, s, a, s');
  }

  /** What a poll step does to the reports: nothing, but it may register a held claim. */
  ghost predicate MovesHandlers(cfg: Config, s: System, s': System) {
    && |s'.threads| == |s'.sh.execs| >= |s.threads|
    && (forall i :: 0 <= i < |s.threads| && i < |s.sh.execs| ==>
          && s'.sh.execs[i].claim == s.sh.execs[i].claim && s'.sh.execs[i].leaseLost == s.sh.execs[i].leaseLost
          && SameReports(s.threads[i], s'.threads[i]))
    && (forall i :: |s.threads| <= i < |s'.threads| ==> Truthful(cfg, s.sv, s'.sh.execs[i], s'.threads[i]) && s'.sv == s.sv)
  }

  lemma TakeMovesHandlers(cfg: Config, s: System)
    requires TruthInv(cfg, s) && PollEnabled(cfg, s, TakeNext)
    ensures MovesHandlers(cfg, s, ApplyTake(s))
  {
    assert HeldLease(cfg, s.sv, Waiting(s.poll)[0]);
  }

  lemma PollMovesHandlers(cfg: Config, s: System, a: PollAction)
    requires PollInv(cfg, s) && TruthInv(cfg, s) && PollEnabled(cfg, s, a)
    ensures MovesHandlers(cfg, s, PollApply(cfg, s, a))
  {
    match a {
      case TakeNext => TakeMovesHandlers(cfg, s);
      case ScheduleBeat => StartMovesHandlers(cfg, s, a);
      case Submit => StartMovesHandlers(cfg, s, a);
      case SubmitRejected => StartMovesHandlers(cfg, s, a);
      case _ => assert PollApply(cfg, s, a).threads == s.threads && PollApply(cfg, s, a).sh.execs == s.sh.execs;
    }
  }

  lemma StartMovesHandlers(cfg: Config, s: System, a: PollAction)
    requires PollInv(cfg, s) && TruthInv(cfg, s) && PollEnabled(cfg, s, a)
    requires a.ScheduleBeat? || a.Submit? || a.SubmitRejected?
    ensures MovesHandlers(cfg, s, PollApply(cfg, s, a))
  {
  }

  predicate SameReports(t: Threads, t': Threads) {
    && t'.completedEvents == t.completedEvents && t'.failedEvents == t.failedEvents
    && t'.timer == t.timer && t'.stop == t.stop && (t'.beat.BeatLosing? ==> t.beat.BeatLosing?)
    && (t'.handler.Losing? ==> t.handler.Losing?)
  }

  lemma PollThreadsTruth(cfg: Config, s: System, a: PollAction)
    requires PollInv(cfg, s) && TruthInv(cfg, s) && PollEnabled(cfg, s, a)
    requires Grown(s.sv, PollApply(cfg, s, a).sv)
    ensures var s' := PollApply(cfg, s, a);
      && |s'.threads| == |s'.sh.execs|
      && forall i :: 0 <= i < |s'.threads| ==> Truthful(cfg, s'.sv, s'.sh.execs[i], s'.threads[i])
  {
    var s' := PollApply(cfg, s, a);
    PollMovesHandlers(cfg, s, a);
    forall i | 0 <= i < |s'.threads| ensures Truthful(cfg, s'.sv, s'.sh.execs[i], s'.threads[i]) {
      if i < |s.threads| {
        TruthGrows(cfg, s.sv, s'.sv, s.sh.execs[i], s.threads[i]);
      }
    }
  }

  lemma KeepsTruth(cfg: Config, s: System, a: Action)
    requires Inv(cfg, s) && Enabled(cfg, s, a)
    ensures TruthInv(cfg, Apply(cfg, s, a))
  {
    match a {
      case PollStep(p) => PollKeepsTruth(cfg, s, p);
      case JobStep(e, j) => JobKeepsTruth(cfg, s, e, j);
      case AckStep(w, e, k) => AckKeepsTruth(cfg, s, w, e, k);
      case BeatStep(e, b) => BeatKeepsTruth(cfg, s, e, b);
      case StopStep(st) => StopKeepsTruth(cfg, s, st);
      case ServerStep(v) =>
        ServerKeepsInv(s.sv, v, cfg.worker);
        var s' := Apply(cfg, s, a);
        if |s.threads| > 0 { TruthGrows(cfg, s.sv, s'.sv, s.sh.execs[0], s.threads[0]); }
        LocalKeepsTruth(cfg, s, s', 0);
    }
  }
}
