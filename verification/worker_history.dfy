/**
 What a run of the worker has done for one execution, told from the steps of the run: why it
 was completed or failed, which answers were reported, and that its heartbeat, its slot and
 its cancellation follow.
 */
module WorkerHistory {
  import opened Wrappers
  import opened WorkerBlocks
  import opened LeaseServer
  import opened WorkerProtocol
  import opened WorkerInvariants
  import Theorems = WorkerTheorems

  predicate HasKind(pc: Pc) {
    pc.Settling? || Acking(pc)
  }

  // ---- The account of one execution --------------------------------------------------------------------

  predicate Returned(run: seq<Action>, e: ExecId) {
    JobStep(e, HandlerReturns) in run
  }

  predicate Raised(run: seq<Action>, e: ExecId) {
    JobStep(e, HandlerRaises) in run
  }

  /** `stop` cancelled the task before it asked for settlement. */
  predicate Stopped(run: seq<Action>, e: ExecId) {
    JobStep(e, CancelByStop) in run
  }

  /** What the handler of `e` has to ack. */
  function Verdict(run: seq<Action>, e: ExecId): Kind {
    if Returned(run, e) && !Stopped(run, e) then CompleteAck else FailAck
  }

  predicate Ended(run: seq<Action>, e: ExecId) {
    Returned(run, e) || Raised(run, e) || Stopped(run, e)
  }

  /** Every party acks what happened to the handler; timer and stop only fail. */
  predicate Sourced(run: seq<Action>, t: Threads, e: ExecId) {
    && (t.handler.Off? || t.handler.Queued? || t.handler.InHandler? ==> !Ended(run, e))
    && !(Returned(run, e) && Raised(run, e))
    && (HasKind(t.handler) ==> Ended(run, e) && t.handler.kind == Verdict(run, e))
    && (HasKind(t.timer) ==> t.timer.kind == FailAck)
    && (HasKind(t.stop) ==> t.stop.kind == FailAck)
    && (t.calls != [] && t.grantee == Some(ByHandler) ==> Ended(run, e) && t.calls == [Verdict(run, e)])
    && (t.calls != [] && t.grantee != Some(ByHandler) ==> t.calls == [FailAck])
  }

  /** With its lease, a settled execution is acked: its grantee is on the way to the call, or has made it. */
  predicate Progressing(x: Execution, t: Threads) {
    t.grantee.Some? && t.calls == [] && !x.leaseLost ==> t.At(t.grantee.value).Checking? || t.At(t.grantee.value).Calling?
  }

  /** The server's answer to an ack was that it had its effect. */
  predicate Answered(run: seq<Action>, e: ExecId) {
    exists w: Who :: AckStep(w, e, CallAccepted) in run || AckStep(w, e, CallAlreadyDone) in run
  }

  predicate Reporting(run: seq<Action>, x: Execution, t: Threads, e: ExecId) {
    && (t.completedEvents + t.failedEvents == if Answered(run, e) then 1 else 0)
    && (forall w: Who :: AckStep(w, e, CallExpired) in run ==> t.At(w).Losing? || x.leaseLost)
    && (BeatStep(e, BeatExpired) in run ==> t.beat.BeatLosing? || x.leaseLost)
  }

  /** The poll loop has registered `e` and not handed it on. */
  predicate Starting(p: Poll, e: ExecId) {
    (p.PollScheduling? || p.PollChecking? || p.PollSubmitting?) && p.e == e
  }

  predicate BeatGoesOn(b: Beat) {
    b.BeatScheduled? || b.BeatAwaiting? || b.BeatLosing?
  }

  /** From its start on a live execution has a heartbeat scheduled or on the wire. */
  predicate Beating(cfg: Config, s: System, e: ExecId)
    requires Exists(s, e)
  {
    var t := s.threads[e];
    && (s.poll.PollScheduling? && s.poll.e == e ==> t.beat.BeatOff?)
    && (cfg.isAsync && (t.handler.Off? || t.handler.Queued?) ==> t.beat.BeatOff?)
    && (s.sh.Live(e) && s.sh.workerId.Some? ==>
          BeatGoesOn(t.beat) || (if cfg.isAsync then !Interruptible(t.handler) else s.poll.PollScheduling? && s.poll.e == e))
  }

  /** A slot is given back when the handler ends, or earlier when it is given up, which is marked. */
  predicate Freed(cfg: Config, run: seq<Action>, s: System, e: ExecId)
    requires Exists(s, e)
  {
    var t := s.threads[e];
    && (t.handler.Off? || t.handler.Queued? ==> JobStep(e, HandlerStarts) !in run)
    && (t.handler.Finished? && s.sh.Owns(e) ==> cfg.isAsync && JobStep(e, HandlerStarts) !in run)
    && (!cfg.isAsync && t.grantee.Some? && !t.grantee.value.ByHandler? && t.At(t.grantee.value).Finished? ==>
          !s.sh.Owns(e) && (s.sh.execs[e].abandoned || t.handler.Finished?))
  }

  predicate StillToAbandon(st: Stop, e: ExecId) {
    match st
    case StopLoop(rest) => e in rest
    case StopAbandoning(c, rest) => e == c || e in rest
    case _ => false
  }

  /**
   Under asyncio `stop` cancels whatever outlived the drain and has not settled, and then
   takes everything out of the table.
   */
  predicate Cancelled(cfg: Config, s: System, e: ExecId)
    requires Exists(s, e)
  {
    var t := s.threads[e];
    cfg.isAsync ==>
      && (t.handler.Off? ==> Starting(s.poll, e))
      && (Phase(s.stop) >= 3 && !s.pollWaitCut && s.sh.Owns(e) ==>
            || (s.stop.StopCancelling? && e in s.stop.rest)
            || t.cancelled || s.sh.execs[e].settled || t.handler.Finished?)
      && (t.stop.Finished? ==> !s.sh.Owns(e))
      && (Phase(s.stop) >= 5 && s.sh.Owns(e) ==> StillToAbandon(s.stop, e))
  }

  /** Every call is on its way to the server, under the lease and the id of the worker. */
  predicate Messaged(cfg: Config, s: System, e: ExecId)
    requires Exists(s, e)
  {
    forall i :: 0 <= i < |s.threads[e].calls| ==>
      Message(s.threads[e].calls[i], s.sh.execs[e].claim, cfg.worker) in s.sv.sent
  }

  predicate Accounts(cfg: Config, run: seq<Action>, s: System, e: ExecId)
    requires Exists(s, e)
  {
    && Sourced(run, s.threads[e], e)
    && Progressing(s.sh.execs[e], s.threads[e])
    && Reporting(run, s.sh.execs[e], s.threads[e], e)
    && Beating(cfg, s, e)
    && Freed(cfg, run, s, e)
    && Cancelled(cfg, s, e)
    && Messaged(cfg, s, e)
  }

  /** The steps of a run name executions that exist. */
  predicate NamesKnown(run: seq<Action>, s: System) {
    forall i :: 0 <= i < |run| ==>
      match run[i]
      case JobStep(e, _) => e < |s.threads|
      case AckStep(_, e, _) => e < |s.threads|
      case BeatStep(e, _) => e < |s.threads|
      case _ => true
  }

  ghost predicate History(cfg: Config, run: seq<Action>, s: System) {
    && NamesKnown(run, s)
    && forall e :: 0 <= e < |s.threads| && e < |s.sh.execs| ==> Accounts(cfg, run, s, e)
  }

  // ---- Steps that do not touch the execution ---------------------------------------------------------------

  predicate Touches(s: System, a: Action, e: ExecId) {
    match a
    case PollStep(p) => (p.ScheduleBeat? || p.Submit? || p.SubmitRejected?) && Starting(s.poll, e)
    case JobStep(f, _) => f == e
    case AckStep(_, f, _) => f == e
    case BeatStep(f, _) => f == e
    case StopStep(st) => (st.StopCancelsOne? || st.StopPicks?) && st.e == e
    case ServerStep(_) => false
  }

  /** How a step of others may look to `e`. */
  ghost predicate Elsewhere(s: System, s': System, e: ExecId) {
    && Exists(s, e) && Exists(s', e) && s'.threads[e] == s.threads[e] && s'.sh.execs[e] == s.sh.execs[e]
    && (s'.sh.Owns(e) ==> s.sh.Owns(e))
    && (s'.sh.workerId.Some? ==> s.sh.workerId.Some?)
    && (s'.pollWaitCut || !s.pollWaitCut)
    && s.sv.sent <= s'.sv.sent
  }

  lemma StepElsewhere(cfg: Config, s: System, a: Action, e: ExecId)
    requires Inv(cfg, s) && Enabled(cfg, s, a) && Exists(s, e) && !Touches(s, a, e)
    ensures Elsewhere(s, Apply(cfg, s, a), e)
  {
    match a {
      case PollStep(p) => PollElsewhere(cfg, s, p, e);
      case AckStep(w, f, k) => AckElsewhere(cfg, s, w, f, k, e);
      case StopStep(st) => StopElsewhere(cfg, s, st, e);
      case ServerStep(v) => ServerElsewhere(cfg, s, v, e);
      case _ => ThreadElsewhere(cfg, s, a, e);
    }
  }

  lemma ServerElsewhere(cfg: Config, s: System, v: ServerAction, e: ExecId)
    requires Enabled(cfg, s, ServerStep(v)) && Exists(s, e)
    ensures Elsewhere(s, Apply(cfg, s, ServerStep(v)), e)
  {
  }

  lemma ThreadElsewhere(cfg: Config, s: System, a: Action, e: ExecId)
    requires Enabled(cfg, s, a) && Exists(s, e) && !Touches(s, a, e) && (a.JobStep? || a.BeatStep?)
    ensures Elsewhere(s, Apply(cfg, s, a), e)
  {
  }

  lemma PollElsewhere(cfg: Config, s: System, p: PollAction, e: ExecId)
    requires Inv(cfg, s) && PollEnabled(cfg, s, p) && Exists(s, e) && !Touches(s, PollStep(p), e)
    ensures Elsewhere(s, PollApply(cfg, s, p), e)
  {
  }

  lemma AckElsewhere(cfg: Config, s: System, w: Who, f: ExecId, k: AckAction, e: ExecId)
    requires |s.threads| == |s.sh.execs| && Enabled(cfg, s, AckStep(w, f, k)) && Exists(s, e) && f != e
    ensures Elsewhere(s, Apply(cfg, s, AckStep(w, f, k)), e)
  {
  }

  lemma StopElsewhere(cfg: Config, s: System, a: StopAction, e: ExecId)
    requires StopEnabled(s, a) && Exists(s, e) && !Touches(s, StopStep(a), e)
    ensures Elsewhere(s, StopApply(cfg, s, a), e)
  {
  }

  /** What the poll loop is starting changes only by steps that touch it. */
  lemma StartingElsewhere(cfg: Config, s: System, a: Action, e: ExecId)
    requires Inv(cfg, s) && Enabled(cfg, s, a) && Exists(s, e) && !Touches(s, a, e)
    ensures var s' := Apply(cfg, s, a);
      && ((s'.poll.PollScheduling? && s'.poll.e == e) <==> (s.poll.PollScheduling? && s.poll.e == e))
      && (cfg.isAsync && Starting(s.poll, e) ==> Starting(s'.poll, e))
  {
    match a {
      case PollStep(p) => PollStarting(cfg, s, p, e);
      case StopStep(st) => assert StopApply(cfg, s, st).poll == s.poll;
      case _ =>
    }
  }

  lemma PollStarting(cfg: Config, s: System, p: PollAction, e: ExecId)
    requires StopInv(cfg, s) && PollEnabled(cfg, s, p) && Exists(s, e) && !Touches(s, PollStep(p), e)
    ensures var s' := PollApply(cfg, s, p);
      && ((s'.poll.PollScheduling? && s'.poll.e == e) <==> (s.poll.PollScheduling? && s.poll.e == e))
      && (cfg.isAsync && Starting(s.poll, e) ==> Starting(s'.poll, e))
  {
  }

  /** A step of `stop` that does not touch `e` leaves what it owes to `e`. */
  lemma CancelledElsewhere(cfg: Config, s: System, a: Action, e: ExecId)
    requires Inv(cfg, s) && Enabled(cfg, s, a) && Exists(s, e) && !Touches(s, a, e) && Cancelled(cfg, s, e)
    requires Exists(Apply(cfg, s, a), e) && Elsewhere(s, Apply(cfg, s, a), e)
    ensures Cancelled(cfg, Apply(cfg, s, a), e)
  {
    StartingElsewhere(cfg, s, a, e);
    if a.StopStep? {
      StopCancelledElsewhere(cfg, s, a.st, e);
    } else {
      StopStays(cfg, s, a);
    }
  }

  lemma StopStays(cfg: Config, s: System, a: Action)
    requires Enabled(cfg, s, a) && !a.StopStep?
    ensures Apply(cfg, s, a).stop == s.stop && Apply(cfg, s, a).pollWaitCut == s.pollWaitCut
  {
    match a {
      case PollStep(p) => assert PollApply(cfg, s, p).stop == s.stop && PollApply(cfg, s, p).pollWaitCut == s.pollWaitCut;
      case _ =>
    }
  }

  lemma StopCancelledElsewhere(cfg: Config, s: System, a: StopAction, e: ExecId)
    requires StopEnabled(s, a) && Exists(s, e) && !Touches(s, StopStep(a), e) && Cancelled(cfg, s, e)
    requires Exists(StopApply(cfg, s, a), e) && Elsewhere(s, StopApply(cfg, s, a), e)
    ensures Cancelled(cfg, StopApply(cfg, s, a), e)
  {
    if s.sh.Owns(e) { assert e in s.sh.active.Values; }
  }

  lemma OtherNames(run: seq<Action>, s: System, a: Action, e: ExecId)
    requires !Touches(s, a, e)
    ensures forall j :: JobStep(e, j) in run + [a] <==> JobStep(e, j) in run
    ensures forall w, k :: AckStep(w, e, k) in run + [a] <==> AckStep(w, e, k) in run
    ensures forall b :: BeatStep(e, b) in run + [a] <==> BeatStep(e, b) in run
  {
  }

  lemma ElsewhereKeeps(cfg: Config, run: seq<Action>, s: System, a: Action, e: ExecId)
    requires Inv(cfg, s) && Enabled(cfg, s, a) && Exists(s, e) && !Touches(s, a, e) && Accounts(cfg, run, s, e)
    ensures Exists(Apply(cfg, s, a), e) && Accounts(cfg, run + [a], Apply(cfg, s, a), e)
  {
    OtherNames(run, s, a, e);
    StepElsewhere(cfg, s, a, e);
    StartingElsewhere(cfg, s, a, e);
    CancelledElsewhere(cfg, s, a, e);
  }

  // ---- Steps of the execution itself --------------------------------------------------------------------------

  lemma NamesOfJob(run: seq<Action>, e: ExecId, j: JobAction)
    ensures forall i :: JobStep(e, i) in run + [JobStep(e, j)] <==> JobStep(e, i) in run || i == j
    ensures forall w, k :: AckStep(w, e, k) in run + [JobStep(e, j)] <==> AckStep(w, e, k) in run
    ensures forall b :: BeatStep(e, b) in run + [JobStep(e, j)] <==> BeatStep(e, b) in run
  {
  }

  lemma NamesOfAck(run: seq<Action>, e: ExecId, v: Who, a: AckAction)
    ensures forall i :: JobStep(e, i) in run + [AckStep(v, e, a)] <==> JobStep(e, i) in run
    ensures forall w, k :: AckStep(w, e, k) in run + [AckStep(v, e, a)] <==> AckStep(w, e, k) in run || (w == v && k == a)
    ensures forall b :: BeatStep(e, b) in run + [AckStep(v, e, a)] <==> BeatStep(e, b) in run
  {
  }

  lemma NamesOfBeat(run: seq<Action>, e: ExecId, a: BeatAction)
    ensures forall i :: JobStep(e, i) in run + [BeatStep(e, a)] <==> JobStep(e, i) in run
    ensures forall w, k :: AckStep(w, e, k) in run + [BeatStep(e, a)] <==> AckStep(w, e, k) in run
    ensures forall b :: BeatStep(e, b) in run + [BeatStep(e, a)] <==> BeatStep(e, b) in run || b == a
  {
  }

  /** A step of the poll loop or of `stop`. */
  lemma NamesOfOthers(run: seq<Action>, a: Action, e: ExecId)
    requires a.PollStep? || a.StopStep?
    ensures forall i :: JobStep(e, i) in run + [a] <==> JobStep(e, i) in run
    ensures forall w, k :: AckStep(w, e, k) in run + [a] <==> AckStep(w, e, k) in run
    ensures forall b :: BeatStep(e, b) in run + [a] <==> BeatStep(e, b) in run
  {
  }

  lemma JobSourced(cfg: Config, run: seq<Action>, x: Execution, t: Threads, e: ExecId, j: JobAction)
    requires ExecutionOk(cfg, x, t) && JobEnabled(cfg, x, t, j) && Sourced(run, t, e)
    ensures Sourced(run + [JobStep(e, j)], JobApply(cfg, t, j), e)
  {
    NamesOfJob(run, e, j);
  }

  lemma JobReports(cfg: Config, run: seq<Action>, x: Execution, t: Threads, e: ExecId, j: JobAction)
    requires ExecutionOk(cfg, x, t) && JobEnabled(cfg, x, t, j) && Progressing(x, t) && Reporting(run, x, t, e)
    requires cfg.isAsync && t.handler.Queued? ==> t.beat.BeatOff?
    ensures Progressing(x, JobApply(cfg, t, j)) && Reporting(run + [JobStep(e, j)], x, JobApply(cfg, t, j), e)
  {
    NamesOfJob(run, e, j);
  }

  lemma JobSlot(cfg: Config, run: seq<Action>, s: System, e: ExecId, j: JobAction)
    requires Enabled(cfg, s, JobStep(e, j)) && ExecutionOk(cfg, s.sh.execs[e], s.threads[e])
    requires PollInv(cfg, s) && Beating(cfg, s, e) && Freed(cfg, run, s, e) && Cancelled(cfg, s, e) && Messaged(cfg, s, e)
    ensures var s' := Apply(cfg, s, JobStep(e, j));
      Beating(cfg, s', e) && Freed(cfg, run + [JobStep(e, j)], s', e) && Cancelled(cfg, s', e) && Messaged(cfg, s', e)
  {
    NamesOfJob(run, e, j);
  }

  lemma JobKeeps(cfg: Config, run: seq<Action>, s: System, e: ExecId, j: JobAction)
    requires Inv(cfg, s) && Enabled(cfg, s, JobStep(e, j)) && Accounts(cfg, run, s, e)
    ensures Accounts(cfg, run + [JobStep(e, j)], Apply(cfg, s, JobStep(e, j)), e)
  {
    var x, t := s.sh.execs[e], s.threads[e];
    assert ExecutionOk(cfg, x, t);
    JobSourced(cfg, run, x, t, e, j);
    JobReports(cfg, run, x, t, e, j);
    JobSlot(cfg, run, s, e, j);
  }

  lemma CallSourced(cfg: Config, run: seq<Action>, sv: Server, sh: Shared, w: Who, e: ExecId, t: Threads)
    requires e < |sh.execs| && ExecutionOk(cfg, sh.execs[e], t) && AckEnabled(cfg, sv, sh.execs[e], t.At(w), Call)
    requires Sourced(run, t, e)
    ensures Sourced(run + [AckStep(w, e, Call)], AckThreads(cfg, sv, sh, w, e, t, Call), e)
  {
    NamesOfAck(run, e, w, Call);
  }

  /** An ack step that sends nothing moves one party on, with the kind it had. */
  lemma AckMoves(cfg: Config, sv: Server, sh: Shared, w: Who, e: ExecId, t: Threads, k: AckAction)
    requires e < |sh.execs| && AckEnabled(cfg, sv, sh.execs[e], t.At(w), k) && !k.Call?
    ensures var t' := AckThreads(cfg, sv, sh, w, e, t, k);
      && t'.calls == t.calls && !t'.At(w).InHandler? && HasKind(t.At(w)) == !t.At(w).Closing?
      && (HasKind(t'.At(w)) ==> HasKind(t.At(w)) && t'.At(w).kind == t.At(w).kind)
  {
  }

  lemma GrantIsFirst(cfg: Config, sv: Server, sh: Shared, w: Who, e: ExecId, t: Threads, k: AckAction)
    requires e < |sh.execs| && ExecutionOk(cfg, sh.execs[e], t) && AckEnabled(cfg, sv, sh.execs[e], t.At(w), k)
    ensures var t' := AckThreads(cfg, sv, sh, w, e, t, k);
      t'.grantee == t.grantee || (t.calls == [] && t'.grantee == Some(w))
  {
    if k.Settle? && sh.execs[e].settled { assert ClaimSettlement(sh, e).1.None?; }
  }

  lemma OtherAckSourced(cfg: Config, run: seq<Action>, sv: Server, sh: Shared, w: Who, e: ExecId, t: Threads, k: AckAction)
    requires e < |sh.execs| && ExecutionOk(cfg, sh.execs[e], t) && AckEnabled(cfg, sv, sh.execs[e], t.At(w), k) && !k.Call?
    requires Sourced(run, t, e)
    ensures Sourced(run + [AckStep(w, e, k)], AckThreads(cfg, sv, sh, w, e, t, k), e)
  {
    NamesOfAck(run, e, w, k);
    AckMoves(cfg, sv, sh, w, e, t, k);
    GrantIsFirst(cfg, sv, sh, w, e, t, k);
    AckParties(cfg, sv, sh, w, e, t, k);
    var t' := AckThreads(cfg, sv, sh, w, e, t, k);
    PartiesByName(t);
    PartiesByName(t');
  }

  lemma AckSourced(cfg: Config, run: seq<Action>, sv: Server, sh: Shared, w: Who, e: ExecId, t: Threads, k: AckAction)
    requires e < |sh.execs| && ExecutionOk(cfg, sh.execs[e], t) && AckEnabled(cfg, sv, sh.execs[e], t.At(w), k)
    requires Sourced(run, t, e)
    ensures Sourced(run + [AckStep(w, e, k)], AckThreads(cfg, sv, sh, w, e, t, k), e)
  {
    if k.Call? {
      CallSourced(cfg, run, sv, sh, w, e, t);
    } else {
      OtherAckSourced(cfg, run, sv, sh, w, e, t, k);
    }
  }

  lemma AckProgresses(cfg: Config, sv: Server, sh: Shared, w: Who, e: ExecId, t: Threads, k: AckAction)
    requires e < |sh.execs| && ExecutionOk(cfg, sh.execs[e], t) && AckEnabled(cfg, sv, sh.execs[e], t.At(w), k)
    requires Progressing(sh.execs[e], t)
    ensures Progressing(AckShared(cfg, sh, w, e, k).execs[e], AckThreads(cfg, sv, sh, w, e, t, k))
  {
  }

  lemma AckReports(cfg: Config, run: seq<Action>, sv: Server, sh: Shared, w: Who, e: ExecId, t: Threads, k: AckAction)
    requires e < |sh.execs| && ExecutionOk(cfg, sh.execs[e], t) && AckEnabled(cfg, sv, sh.execs[e], t.At(w), k)
    requires Reporting(run, sh.execs[e], t, e)
    ensures Reporting(run + [AckStep(w, e, k)], AckShared(cfg, sh, w, e, k).execs[e], AckThreads(cfg, sv, sh, w, e, t, k), e)
  {
    NamesOfAck(run, e, w, k);
  }

  lemma AckBeats(cfg: Config, s: System, w: Who, e: ExecId, k: AckAction)
    requires Enabled(cfg, s, AckStep(w, e, k)) && |s.threads| == |s.sh.execs| && Beating(cfg, s, e)
    ensures Beating(cfg, Apply(cfg, s, AckStep(w, e, k)), e)
  {
  }

  /** How an ack step changes who holds the slot. */
  lemma AckSlots(cfg: Config, s: System, w: Who, e: ExecId, k: AckAction)
    requires Enabled(cfg, s, AckStep(w, e, k)) && |s.threads| == |s.sh.execs|
    ensures var s' := Apply(cfg, s, AckStep(w, e, k));
      && Exists(s', e) && (s'.sh.Owns(e) ==> s.sh.Owns(e)) && (k.Close? ==> !s'.sh.Owns(e))
      && (s.sh.execs[e].settled ==> s'.sh.execs[e].settled)
      && (!k.Close? ==> s'.sh.execs[e].abandoned == s.sh.execs[e].abandoned)
      && (k.Close? && !w.ByHandler? && !cfg.isAsync ==> s'.sh.execs[e].abandoned)
      && s'.stop == s.stop && s'.poll == s.poll && s'.pollWaitCut == s.pollWaitCut
  {
  }

  /** And how it moves the parties. */
  lemma AckParties(cfg: Config, sv: Server, sh: Shared, w: Who, e: ExecId, t: Threads, k: AckAction)
    requires e < |sh.execs| && AckEnabled(cfg, sv, sh.execs[e], t.At(w), k)
    ensures var t' := AckThreads(cfg, sv, sh, w, e, t, k);
      && t'.cancelled == t.cancelled && (forall v: Who :: v != w ==> t'.At(v) == t.At(v))
      && !t'.At(w).Off? && !t'.At(w).Queued? && !t.At(w).Off? && !t.At(w).Queued? && !t.At(w).Finished?
      && (t'.At(w).Finished? ==> k.Close? || (k.Settle? && !w.ByHandler? && !(w.ByStop? && cfg.isAsync) && t'.grantee == t.grantee))
      && (t'.grantee == t.grantee || (k.Settle? && t'.grantee == Some(w) && t'.At(w).Checking?))
  {
  }

  lemma AckFrees(cfg: Config, run: seq<Action>, s: System, w: Who, e: ExecId, k: AckAction)
    requires Enabled(cfg, s, AckStep(w, e, k)) && ExecutionOk(cfg, s.sh.execs[e], s.threads[e])
    requires |s.threads| == |s.sh.execs| && Freed(cfg, run, s, e)
    ensures Freed(cfg, run + [AckStep(w, e, k)], Apply(cfg, s, AckStep(w, e, k)), e)
  {
    NamesOfAck(run, e, w, k);
    AckSlots(cfg, s, w, e, k);
    AckParties(cfg, s.sv, s.sh, w, e, s.threads[e], k);
    PartiesByName(s.threads[e]);
    PartiesByName(Apply(cfg, s, AckStep(w, e, k)).threads[e]);
  }

  lemma PartiesByName(t: Threads)
    ensures t.At(ByHandler) == t.handler && t.At(ByTimer) == t.timer && t.At(ByStop) == t.stop
  {
  }

  lemma AckCancelled(cfg: Config, s: System, w: Who, e: ExecId, k: AckAction)
    requires Enabled(cfg, s, AckStep(w, e, k)) && ExecutionOk(cfg, s.sh.execs[e], s.threads[e])
    requires |s.threads| == |s.sh.execs| && Cancelled(cfg, s, e)
    ensures Cancelled(cfg, Apply(cfg, s, AckStep(w, e, k)), e)
  {
    AckSlots(cfg, s, w, e, k);
    AckParties(cfg, s.sv, s.sh, w, e, s.threads[e], k);
    PartiesByName(s.threads[e]);
    PartiesByName(Apply(cfg, s, AckStep(w, e, k)).threads[e]);
  }

  lemma AckMessaged(cfg: Config, s: System, w: Who, e: ExecId, k: AckAction)
    requires Enabled(cfg, s, AckStep(w, e, k)) && ExecutionOk(cfg, s.sh.execs[e], s.threads[e])
    requires |s.threads| == |s.sh.execs| && Messaged(cfg, s, e)
    ensures Messaged(cfg, Apply(cfg, s, AckStep(w, e, k)), e)
  {
  }

  lemma AckKeeps(cfg: Config, run: seq<Action>, s: System, w: Who, e: ExecId, k: AckAction)
    requires Inv(cfg, s) && Enabled(cfg, s, AckStep(w, e, k)) && Accounts(cfg, run, s, e)
    ensures Exists(Apply(cfg, s, AckStep(w, e, k)), e)
    ensures Accounts(cfg, run + [AckStep(w, e, k)], Apply(cfg, s, AckStep(w, e, k)), e)
  {
    var t := s.threads[e];
    assert ExecutionOk(cfg, s.sh.execs[e], t);
    AckSourced(cfg, run, s.sv, s.sh, w, e, t, k);
    AckProgresses(cfg, s.sv, s.sh, w, e, t, k);
    AckReports(cfg, run, s.sv, s.sh, w, e, t, k);
    AckBeats(cfg, s, w, e, k);
    AckFrees(cfg, run, s, w, e, k);
    AckCancelled(cfg, s, w, e, k);
    AckMessaged(cfg, s, w, e, k);
  }

  lemma BeatReports(cfg: Config, run: seq<Action>, sv: Server, sh: Shared, e: ExecId, t: Threads, b: BeatAction)
    requires e < |sh.execs| && BeatEnabled(sv, sh.execs[e], t, b)
    requires Sourced(run, t, e) && Progressing(sh.execs[e], t) && Reporting(run, sh.execs[e], t, e)
    ensures var t' := BeatThreads(cfg, sh, e, t, b);
      var x' := if b.LoseByBeat? then LoseLease(sh, e).0.execs[e] else sh.execs[e];
      Sourced(run + [BeatStep(e, b)], t', e) && Progressing(x', t') && Reporting(run + [BeatStep(e, b)], x', t', e)
  {
    NamesOfBeat(run, e, b);
  }

  lemma BeatSlot(cfg: Config, run: seq<Action>, s: System, e: ExecId, b: BeatAction)
    requires Enabled(cfg, s, BeatStep(e, b)) && |s.threads| == |s.sh.execs|
    requires Beating(cfg, s, e) && Freed(cfg, run, s, e) && Cancelled(cfg, s, e) && Messaged(cfg, s, e)
    ensures var s' := Apply(cfg, s, BeatStep(e, b));
      Beating(cfg, s', e) && Freed(cfg, run + [BeatStep(e, b)], s', e) && Cancelled(cfg, s', e) && Messaged(cfg, s', e)
  {
    NamesOfBeat(run, e, b);
  }

  lemma BeatKeeps(cfg: Config, run: seq<Action>, s: System, e: ExecId, b: BeatAction)
    requires Inv(cfg, s) && Enabled(cfg, s, BeatStep(e, b)) && Accounts(cfg, run, s, e)
    ensures Exists(Apply(cfg, s, BeatStep(e, b)), e)
    ensures Accounts(cfg, run + [BeatStep(e, b)], Apply(cfg, s, BeatStep(e, b)), e)
  {
    BeatReports(cfg, run, s.sv, s.sh, e, s.threads[e], b);
    BeatSlot(cfg, run, s, e, b);
  }

  /** How the poll loop and `stop` move the threads of an execution. */
  lemma MovedReports(run: seq<Action>, a: Action, x: Execution, x': Execution, t: Threads, t': Threads, e: ExecId)
    requires a.PollStep? || a.StopStep?
    requires Sourced(run, t, e) && Progressing(x, t) && Reporting(run, x, t, e)
    requires x' == x.(abandoned := x'.abandoned)
    requires t' == t.(handler := t'.handler, stop := t'.stop, beat := t'.beat, cancelled := t'.cancelled)
    requires t'.handler == t.handler || (t.handler.Off? && !HasKind(t'.handler) && t.grantee != Some(ByHandler))
    requires t'.stop == t.stop || (t.stop.Off? && t'.stop == Settling(FailAck) && t.grantee != Some(ByStop))
    requires t'.beat == t.beat || t.beat.BeatOff?
    ensures Sourced(run + [a], t', e) && Progressing(x', t') && Reporting(run + [a], x', t', e)
  {
    NamesOfOthers(run, a, e);
  }

  lemma StartSlot(cfg: Config, run: seq<Action>, s: System, p: PollAction, e: ExecId)
    requires PollInv(cfg, s) && StopInv(cfg, s) && PollEnabled(cfg, s, p) && Exists(s, e) && Touches(s, PollStep(p), e)
    requires Beating(cfg, s, e) && Freed(cfg, run, s, e) && Cancelled(cfg, s, e) && Messaged(cfg, s, e)
    ensures var s' := PollApply(cfg, s, p);
      Exists(s', e) && Beating(cfg, s', e) && Freed(cfg, run + [PollStep(p)], s', e) && Cancelled(cfg, s', e) && Messaged(cfg, s', e)
  {
    NamesOfOthers(run, PollStep(p), e);
  }

  lemma StartReports(cfg: Config, run: seq<Action>, s: System, p: PollAction, e: ExecId)
    requires PollInv(cfg, s) && PollEnabled(cfg, s, p) && Exists(s, e) && Touches(s, PollStep(p), e)
    requires ExecutionOk(cfg, s.sh.execs[e], s.threads[e]) && (s.poll.PollScheduling? ==> s.threads[e].beat.BeatOff?)
    requires Sourced(run, s.threads[e], e) && Progressing(s.sh.execs[e], s.threads[e])
    requires Reporting(run, s.sh.execs[e], s.threads[e], e)
    ensures var s' := PollApply(cfg, s, p);
      && Exists(s', e) && Sourced(run + [PollStep(p)], s'.threads[e], e) && Progressing(s'.sh.execs[e], s'.threads[e])
      && Reporting(run + [PollStep(p)], s'.sh.execs[e], s'.threads[e], e)
  {
    var s' := PollApply(cfg, s, p);
    MovedReports(run, PollStep(p), s.sh.execs[e], s'.sh.execs[e], s.threads[e], s'.threads[e], e);
  }

  lemma StartKeeps(cfg: Config, run: seq<Action>, s: System, p: PollAction, e: ExecId)
    requires Inv(cfg, s) && PollEnabled(cfg, s, p) && Exists(s, e) && Accounts(cfg, run, s, e)
    requires Touches(s, PollStep(p), e)
    ensures Exists(PollApply(cfg, s, p), e) && Accounts(cfg, run + [PollStep(p)], PollApply(cfg, s, p), e)
  {
    assert ExecutionOk(cfg, s.sh.execs[e], s.threads[e]);
    StartSlot(cfg, run, s, p, e);
    StartReports(cfg, run, s, p, e);
  }

  lemma StopBeatsAndFrees(cfg: Config, run: seq<Action>, s: System, a: StopAction, e: ExecId)
    requires StopInv(cfg, s) && StopEnabled(s, a) && Exists(s, e) && Touches(s, StopStep(a), e)
    requires ExecutionOk(cfg, s.sh.execs[e], s.threads[e]) && StopPartyOk(s, e)
    requires Beating(cfg, s, e) && Freed(cfg, run, s, e) && Messaged(cfg, s, e)
    ensures var s' := StopApply(cfg, s, a);
      Exists(s', e) && Beating(cfg, s', e) && Freed(cfg, run + [StopStep(a)], s', e) && Messaged(cfg, s', e)
  {
    NamesOfOthers(run, StopStep(a), e);
  }

  lemma StopCancels(cfg: Config, s: System, a: StopAction, e: ExecId)
    requires PollInv(cfg, s) && StopEnabled(s, a) && Exists(s, e) && Touches(s, StopStep(a), e)
    requires StopPartyOk(s, e) && Cancelled(cfg, s, e)
    ensures Exists(StopApply(cfg, s, a), e) && Cancelled(cfg, StopApply(cfg, s, a), e)
  {
  }

  lemma StopKeeps(cfg: Config, run: seq<Action>, s: System, a: StopAction, e: ExecId)
    requires Inv(cfg, s) && StopEnabled(s, a) && Exists(s, e) && Accounts(cfg, run, s, e)
    requires Touches(s, StopStep(a), e)
    ensures Exists(StopApply(cfg, s, a), e) && Accounts(cfg, run + [StopStep(a)], StopApply(cfg, s, a), e)
  {
    assert ExecutionOk(cfg, s.sh.execs[e], s.threads[e]) && StopPartyOk(s, e);
    var s' := StopApply(cfg, s, a);
    StopBeatsAndFrees(cfg, run, s, a, e);
    StopCancels(cfg, s, a, e);
    MovedReports(run, StopStep(a), s.sh.execs[e], s'.sh.execs[e], s.threads[e], s'.threads[e], e);
  }

  // ---- Runs -----------------------------------------------------------------------------------------------------

  lemma NewExecution(cfg: Config, run: seq<Action>, s: System)
    requires Inv(cfg, s) && PollEnabled(cfg, s, TakeNext) && !s.sh.intakeClosed && NamesKnown(run, s)
    ensures var s' := ApplyTake(s);
      |s'.threads| == |s'.sh.execs| == |s.threads| + 1 && Accounts(cfg, run + [PollStep(TakeNext)], s', |s.threads|)
  {
    var e := |s.threads|;
    NamesOfOthers(run, PollStep(TakeNext), e);
    assert forall j :: JobStep(e, j) !in run;
    assert forall w, k :: AckStep(w, e, k) !in run;
    assert forall b :: BeatStep(e, b) !in run;
  }

  lemma StepAccounts(cfg: Config, run: seq<Action>, s: System, a: Action, e: ExecId)
    requires Inv(cfg, s) && Enabled(cfg, s, a) && Exists(s, e) && Accounts(cfg, run, s, e)
    ensures Exists(Apply(cfg, s, a), e) && Accounts(cfg, run + [a], Apply(cfg, s, a), e)
  {
    if !Touches(s, a, e) {
      ElsewhereKeeps(cfg, run, s, a, e);
    } else {
      match a {
        case PollStep(p) => StartKeeps(cfg, run, s, p, e);
        case JobStep(_, j) => JobKeeps(cfg, run, s, e, j);
        case AckStep(w, _, k) => AckKeeps(cfg, run, s, w, e, k);
        case BeatStep(_, b) => BeatKeeps(cfg, run, s, e, b);
        case StopStep(st) => StopKeeps(cfg, run, s, st, e);
      }
    }
  }

  /** A step starts at most one execution, the next one. */
  lemma StepGrows(cfg: Config, s: System, a: Action)
    requires Enabled(cfg, s, a)
    ensures |Apply(cfg, s, a).threads| == |s.threads| + if a == PollStep(TakeNext) && !s.sh.intakeClosed then 1 else 0
  {
    match a {
      case PollStep(p) => PollGrows(cfg, s, p);
      case StopStep(st) => assert |StopApply(cfg, s, st).threads| == |s.threads|;
      case _ =>
    }
  }

  lemma PollGrows(cfg: Config, s: System, p: PollAction)
    requires PollEnabled(cfg, s, p)
    ensures |PollApply(cfg, s, p).threads| == |s.threads| + if p.TakeNext? && !s.sh.intakeClosed then 1 else 0
  {
  }

  lemma StepNames(cfg: Config, run: seq<Action>, s: System, a: Action)
    requires Enabled(cfg, s, a) && NamesKnown(run, s)
    ensures NamesKnown(run + [a], Apply(cfg, s, a))
  {
    StepGrows(cfg, s, a);
  }

  lemma StepKeepsHistory(cfg: Config, run: seq<Action>, s: System, a: Action)
    requires Inv(cfg, s) && Enabled(cfg, s, a) && History(cfg, run, s)
    ensures History(cfg, run + [a], Apply(cfg, s, a))
  {
    var s' := Apply(cfg, s, a);
    StepNames(cfg, run, s, a);
    StepGrows(cfg, s, a);
    forall e | 0 <= e < |s'.threads| && e < |s'.sh.execs| ensures Accounts(cfg, run + [a], s', e) {
      if e < |s.threads| {
        StepAccounts(cfg, run, s, a, e);
      } else {
        NewExecution(cfg, run, s);
      }
    }
  }

  lemma OneStep(cfg: Config, s: System, a: Action)
    ensures After(cfg, s, [a]) == if Enabled(cfg, s, a) then Some(Apply(cfg, s, a)) else None
  {
    if Enabled(cfg, s, a) { assert After(cfg, Apply(cfg, s, a), [a][1..]) == Some(Apply(cfg, s, a)); }
  }

  lemma {:induction false} FrontRuns(cfg: Config, s: System, run: seq<Action>, n: nat)
    requires n <= |run| && After(cfg, s, run).Some?
    ensures After(cfg, s, run[..n]).Some?
    decreases n
  {
    if n > 0 {
      assert run[..n][1..] == run[1..][..n - 1];
      FrontRuns(cfg, Apply(cfg, s, run[0]), run[1..], n - 1);
    }
  }

  lemma RunInv(cfg: Config, s0: System, run: seq<Action>)
    requires Init(cfg, s0) && After(cfg, s0, run).Some?
    ensures Inv(cfg, After(cfg, s0, run).value)
  {
    Theorems.InitInv(cfg, s0);
    Theorems.RunKeepsInv(cfg, s0, run);
  }

  lemma InitHistory(cfg: Config, s0: System)
    requires Init(cfg, s0)
    ensures History(cfg, [], s0)
  {
  }

  /** A run is its last step after the run before it. */
  lemma SplitLast(cfg: Config, s0: System, run: seq<Action>) returns (front: seq<Action>, s: System, a: Action)
    requires After(cfg, s0, run).Some? && run != []
    ensures run == front + [a] && After(cfg, s0, front) == Some(s) && Enabled(cfg, s, a)
    ensures After(cfg, s0, run) == Some(Apply(cfg, s, a))
  {
    front, a := run[..|run| - 1], run[|run| - 1];
    FrontRuns(cfg, s0, run, |run| - 1);
    s := After(cfg, s0, front).value;
    AfterBoth(cfg, s0, front, [a]);
    assert run == front + [a];
    OneStep(cfg, s, a);
  }

  lemma {:induction false} RunHistory(cfg: Config, s0: System, run: seq<Action>)
    requires Init(cfg, s0) && After(cfg, s0, run).Some?
    ensures History(cfg, run, After(cfg, s0, run).value)
    decreases |run|
  {
    if run == [] {
      InitHistory(cfg, s0);
    } else {
      var front, s, a := SplitLast(cfg, s0, run);
      RunHistory(cfg, s0, front);
      RunInv(cfg, s0, front);
      StepKeepsHistory(cfg, front, s, a);
    }
  }

  lemma RunAccounts(cfg: Config, s0: System, run: seq<Action>, e: ExecId) returns (s: System)
    requires Init(cfg, s0) && After(cfg, s0, run).Some? && e < |After(cfg, s0, run).value.sh.execs|
    ensures After(cfg, s0, run) == Some(s) && Inv(cfg, s) && Exists(s, e) && Accounts(cfg, run, s, e)
    ensures ExecutionOk(cfg, s.sh.execs[e], s.threads[e])
  {
    RunHistory(cfg, s0, run);
    RunInv(cfg, s0, run);
    s := After(cfg, s0, run).value;
  }

  // ---- What a run shows ---------------------------------------------------------------------------------------

  /**
   An execution that its handler settled is completed if and only if the handler returned and
   was not cancelled, and failed if and only if it raised or was cancelled; one that its
   timer or `stop` settled is failed.  A completed event so means the handler returned.
   */
  lemma AckMatchesHandler(cfg: Config, s0: System, run: seq<Action>, e: ExecId)
    requires Init(cfg, s0) && After(cfg, s0, run).Some? && e < |After(cfg, s0, run).value.sh.execs|
    ensures var s := After(cfg, s0, run).value; |s.threads| == |s.sh.execs|
    ensures var t := After(cfg, s0, run).value.threads[e];
      && (t.calls != [] && t.grantee == Some(ByHandler) ==>
            && (t.calls == [CompleteAck] <==> JobStep(e, HandlerReturns) in run && JobStep(e, CancelByStop) !in run)
            && (t.calls == [FailAck] <==> JobStep(e, HandlerRaises) in run || JobStep(e, CancelByStop) in run))
      && (t.calls != [] && t.grantee != Some(ByHandler) ==> t.calls == [FailAck])
      && (t.completedEvents > 0 ==> JobStep(e, HandlerReturns) in run && JobStep(e, CancelByStop) !in run)
  {
    var s := RunAccounts(cfg, s0, run, e);
  }

  /** An execution that was settled and has its lease has sent its ack, under that lease, once its grantee has left the ack. */
  lemma HeldLeaseIsAcked(cfg: Config, s0: System, run: seq<Action>, e: ExecId)
    requires Init(cfg, s0) && After(cfg, s0, run).Some? && e < |After(cfg, s0, run).value.sh.execs|
    ensures var s := After(cfg, s0, run).value; |s.threads| == |s.sh.execs|
    ensures var s := After(cfg, s0, run).value; var t := s.threads[e];
      s.sh.execs[e].settled && !s.sh.execs[e].leaseLost ==>
        || (|t.calls| == 1 && Message(t.calls[0], s.sh.execs[e].claim, cfg.worker) in s.sv.sent)
        || (t.grantee.Some? && (t.At(t.grantee.value).Checking? || t.At(t.grantee.value).Calling?))
  {
    var s := RunAccounts(cfg, s0, run, e);
  }

  /** Every answer to an ack is reported: an effect by one event, an expired lease by losing it. */
  lemma AnswersAreReported(cfg: Config, s0: System, run: seq<Action>, e: ExecId)
    requires Init(cfg, s0) && After(cfg, s0, run).Some? && e < |After(cfg, s0, run).value.sh.execs|
    ensures var s := After(cfg, s0, run).value; |s.threads| == |s.sh.execs|
    ensures var s := After(cfg, s0, run).value; var t := s.threads[e];
      && (t.completedEvents + t.failedEvents == 1 <==>
            exists w: Who :: AckStep(w, e, CallAccepted) in run || AckStep(w, e, CallAlreadyDone) in run)
      && (BeatStep(e, BeatExpired) in run ==> t.beat.BeatLosing? || s.sh.execs[e].leaseLost)
      && (forall w: Who :: AckStep(w, e, CallExpired) in run ==> t.At(w).Losing? || s.sh.execs[e].leaseLost)
  {
    var s := RunAccounts(cfg, s0, run, e);
  }

  /** While a handler runs on a live execution, the next heartbeat is scheduled, on the wire, or has found the lease gone. */
  lemma HeartbeatsGoOn(cfg: Config, s0: System, run: seq<Action>, e: ExecId)
    requires Init(cfg, s0) && After(cfg, s0, run).Some? && e < |After(cfg, s0, run).value.sh.execs|
    ensures var s := After(cfg, s0, run).value; |s.threads| == |s.sh.execs|
    ensures var s := After(cfg, s0, run).value; var t := s.threads[e];
      t.handler.InHandler? && s.sh.Live(e) && s.sh.workerId.Some? ==>
        t.beat.BeatScheduled? || t.beat.BeatAwaiting? || t.beat.BeatLosing?
  {
    var s := RunAccounts(cfg, s0, run, e);
  }

  /**
   A handler that has ended holds no slot of the table, unless its task was cancelled before
   it started.  One that was given up holds none either; it is counted until it ends.
   */
  lemma SlotsAreFreed(cfg: Config, s0: System, run: seq<Action>, e: ExecId)
    requires Init(cfg, s0) && After(cfg, s0, run).Some? && e < |After(cfg, s0, run).value.sh.execs|
    ensures var s := After(cfg, s0, run).value; |s.threads| == |s.sh.execs|
    ensures var s := After(cfg, s0, run).value; var t := s.threads[e];
      && (t.handler.Finished? && s.sh.Owns(e) ==> cfg.isAsync && JobStep(e, HandlerStarts) !in run)
      && (!cfg.isAsync && ((t.grantee == Some(ByTimer) && t.timer.Finished?) || (t.grantee == Some(ByStop) && t.stop.Finished?)) ==>
            !s.sh.Owns(e) && (s.sh.execs[e].abandoned || t.handler.Finished?))
  {
    var s := RunAccounts(cfg, s0, run, e);
  }

  /** When the asyncio `stop` has cancelled, whatever is still in the table is cancelled, mid-ack, or over. */
  lemma StopCancelsTheRest(cfg: Config, s0: System, run: seq<Action>, e: ExecId)
    requires Init(cfg, s0) && After(cfg, s0, run).Some? && e < |After(cfg, s0, run).value.sh.execs|
    ensures var s := After(cfg, s0, run).value; |s.threads| == |s.sh.execs|
    ensures var s := After(cfg, s0, run).value; var t := s.threads[e];
      cfg.isAsync && Phase(s.stop) >= 4 && !s.pollWaitCut && s.sh.Owns(e) ==>
        t.cancelled || s.sh.execs[e].settled || t.handler.Finished?
  {
    var s := RunAccounts(cfg, s0, run, e);
  }

  /** When the asyncio `stop` has abandoned what was left, no job is in the table. */
  lemma StopEmptiesTable(cfg: Config, s0: System, run: seq<Action>)
    requires Init(cfg, s0) && After(cfg, s0, run).Some?
    ensures var s := After(cfg, s0, run).value;
      cfg.isAsync && Phase(s.stop) >= 6 ==> s.sh.active == map[]
  {
    RunHistory(cfg, s0, run);
    RunInv(cfg, s0, run);
    var s := After(cfg, s0, run).value;
    forall job | job in s.sh.active ensures !cfg.isAsync || Phase(s.stop) < 6 {
      var e := s.sh.active[job];
      assert s.sh.Owns(e) && Accounts(cfg, run, s, e);
    }
  }

  // ---- After the lease is lost -------------------------------------------------------------------------------------

  /** The lease is gone, nothing has been sent, and nobody is past the last look at the lease. */
  predicate Silenced(s: System, e: ExecId) {
    && |s.threads| == |s.sh.execs| && Exists(s, e) && s.sh.execs[e].leaseLost && s.threads[e].calls == []
    && !s.threads[e].handler.Calling? && !s.threads[e].timer.Calling? && !s.threads[e].stop.Calling?
  }

  lemma PollKeepsSilence(cfg: Config, s: System, p: PollAction, e: ExecId)
    requires PollEnabled(cfg, s, p) && Silenced(s, e)
    ensures Silenced(PollApply(cfg, s, p), e)
  {
  }

  lemma AckKeepsSilence(cfg: Config, s: System, w: Who, f: ExecId, k: AckAction, e: ExecId)
    requires Enabled(cfg, s, AckStep(w, f, k)) && Silenced(s, e)
    ensures Silenced(Apply(cfg, s, AckStep(w, f, k)), e)
  {
  }

  lemma StopKeepsSilence(cfg: Config, s: System, a: StopAction, e: ExecId)
    requires StopEnabled(s, a) && Silenced(s, e)
    ensures Silenced(StopApply(cfg, s, a), e)
  {
  }

  lemma StepKeepsSilence(cfg: Config, s: System, a: Action, e: ExecId)
    requires Enabled(cfg, s, a) && Silenced(s, e)
    ensures Silenced(Apply(cfg, s, a), e)
  {
    match a {
      case PollStep(p) => PollKeepsSilence(cfg, s, p, e);
      case AckStep(w, f, k) => AckKeepsSilence(cfg, s, w, f, k, e);
      case StopStep(st) => StopKeepsSilence(cfg, s, st, e);
      case _ =>
    }
  }

  lemma {:induction false} RunKeepsSilence(cfg: Config, s: System, e: ExecId, run: seq<Action>)
    requires Silenced(s, e) && After(cfg, s, run).Some?
    ensures Silenced(After(cfg, s, run).value, e)
    decreases |run|
  {
    if run != [] {
      StepKeepsSilence(cfg, s, run[0], e);
      RunKeepsSilence(cfg, Apply(cfg, s, run[0]), e, run[1..]);
    }
  }

  /**
   Once the lease is lost, an execution whose grantee, if any, has not passed its last look at
   the lease sends no ack, whatever runs on.
   */
  lemma LostLeaseIsNotAcked(cfg: Config, s: System, e: ExecId, run: seq<Action>)
    requires |s.threads| == |s.sh.execs| && Exists(s, e) && After(cfg, s, run).Some?
    requires s.sh.execs[e].leaseLost && s.threads[e].calls == []
    requires !s.threads[e].handler.Calling? && !s.threads[e].timer.Calling? && !s.threads[e].stop.Calling?
    ensures var t := After(cfg, s, run).value; Exists(t, e) && t.threads[e].calls == []
  {
    RunKeepsSilence(cfg, s, e, run);
  }

  /** Nothing may act on the execution any more, and no heartbeat is on the wire. */
  predicate BeatsNoMore(s: System, e: ExecId) {
    |s.threads| == |s.sh.execs| && Exists(s, e) && !s.sh.Live(e) && !s.threads[e].beat.BeatAwaiting?
  }

  lemma PollKeepsBeat(cfg: Config, s: System, p: PollAction, e: ExecId)
    requires PollEnabled(cfg, s, p) && BeatsNoMore(s, e)
    ensures BeatsNoMore(PollApply(cfg, s, p), e)
  {
  }

  lemma AckKeepsBeat(cfg: Config, s: System, w: Who, f: ExecId, k: AckAction, e: ExecId)
    requires Enabled(cfg, s, AckStep(w, f, k)) && BeatsNoMore(s, e)
    ensures BeatsNoMore(Apply(cfg, s, AckStep(w, f, k)), e)
  {
  }

  lemma StopKeepsBeat(cfg: Config, s: System, a: StopAction, e: ExecId)
    requires StopEnabled(s, a) && BeatsNoMore(s, e)
    ensures BeatsNoMore(StopApply(cfg, s, a), e)
  {
  }

  lemma StepKeepsBeat(cfg: Config, s: System, a: Action, e: ExecId)
    requires Enabled(cfg, s, a) && BeatsNoMore(s, e)
    ensures BeatsNoMore(Apply(cfg, s, a), e)
  {
    match a {
      case PollStep(p) => PollKeepsBeat(cfg, s, p, e);
      case AckStep(w, f, k) => AckKeepsBeat(cfg, s, w, f, k, e);
      case StopStep(st) => StopKeepsBeat(cfg, s, st, e);
      case _ =>
    }
  }

  /**
   An execution that is settled, has lost its lease or is not in the table any more is never
   again kept alive: whatever runs on, no new heartbeat goes out for it.
   */
  lemma {:induction false} DeadDoNotBeat(cfg: Config, s: System, e: ExecId, run: seq<Action>)
    requires |s.threads| == |s.sh.execs| && Exists(s, e) && After(cfg, s, run).Some?
    requires !s.sh.Live(e) && !s.threads[e].beat.BeatAwaiting?
    ensures var t := After(cfg, s, run).value; Exists(t, e) && !t.sh.Live(e) && !t.threads[e].beat.BeatAwaiting?
    decreases |run|
  {
    if run != [] {
      StepKeepsBeat(cfg, s, run[0], e);
      DeadDoNotBeat(cfg, Apply(cfg, s, run[0]), e, run[1..]);
    }
  }

  // ---- What stop leaves alone -------------------------------------------------------------------------------------

  predicate Spared(s: System, e: ExecId) {
    |s.threads| == |s.sh.execs| && Exists(s, e) && s.sh.execs[e].settled && !s.threads[e].cancelled
  }

  lemma PollSpares(cfg: Config, s: System, p: PollAction, e: ExecId)
    requires PollEnabled(cfg, s, p) && Spared(s, e)
    ensures Spared(PollApply(cfg, s, p), e)
  {
  }

  lemma AckSpares(cfg: Config, s: System, w: Who, f: ExecId, k: AckAction, e: ExecId)
    requires Enabled(cfg, s, AckStep(w, f, k)) && Spared(s, e)
    ensures Spared(Apply(cfg, s, AckStep(w, f, k)), e)
  {
  }

  lemma StopSpares(cfg: Config, s: System, a: StopAction, e: ExecId)
    requires StopEnabled(s, a) && Spared(s, e)
    ensures Spared(StopApply(cfg, s, a), e)
  {
  }

  lemma StepSpares(cfg: Config, s: System, a: Action, e: ExecId)
    requires Enabled(cfg, s, a) && Spared(s, e)
    ensures Spared(Apply(cfg, s, a), e)
  {
    match a {
      case PollStep(p) => PollSpares(cfg, s, p, e);
      case AckStep(w, f, k) => AckSpares(cfg, s, w, f, k, e);
      case StopStep(st) => StopSpares(cfg, s, st, e);
      case _ =>
    }
  }

  /** A task that has settled its job, and may be in the middle of its ack, is never cancelled by `stop`. */
  lemma {:induction false} StopSparesAcks(cfg: Config, s: System, e: ExecId, run: seq<Action>)
    requires |s.threads| == |s.sh.execs| && Exists(s, e) && After(cfg, s, run).Some?
    requires s.sh.execs[e].settled && !s.threads[e].cancelled
    ensures var t := After(cfg, s, run).value; Exists(t, e) && t.sh.execs[e].settled && !t.threads[e].cancelled
    decreases |run|
  {
    if run != [] {
      StepSpares(cfg, s, run[0], e);
      StopSparesAcks(cfg, Apply(cfg, s, run[0]), e, run[1..]);
    }
  }

  /** Nothing is left for `stop` to fail. */
  predicate NothingLeft(s: System) {
    && s.sh.intakeClosed && s.sh.active == map[] && Phase(s.stop) >= 3
    && !s.stop.StopAbandoning? && (s.stop.StopLoop? ==> s.stop.rest == {}) && (s.stop.StopCancelling? ==> s.stop.rest == {})
  }

  lemma StepLeavesNothing(cfg: Config, s: System, a: Action)
    requires Enabled(cfg, s, a) && NothingLeft(s)
    ensures NothingLeft(Apply(cfg, s, a)) && !(a.StopStep? && a.st.StopPicks?)
  {
    Theorems.StepShrinksTable(cfg, s, a);
    match a {
      case PollStep(p) => assert PollApply(cfg, s, p).stop == s.stop;
      case AckStep(w, e, k) => assert Apply(cfg, s, a).stop == s.stop;
      case StopStep(st) => StopLeavesNothing(cfg, s, st);
      case _ =>
    }
  }

  lemma StopLeavesNothing(cfg: Config, s: System, a: StopAction)
    requires StopEnabled(s, a) && NothingLeft(s)
    ensures NothingLeft(StopApply(cfg, s, a)) && !a.StopPicks?
  {
  }

  predicate Expired(run: seq<Action>) {
    StopStep(StopDrained(true)) in run
  }

  lemma {:induction false} DrainedOrExpired(cfg: Config, s0: System, run: seq<Action>)
    requires Init(cfg, s0) && After(cfg, s0, run).Some? && !Expired(run)
    ensures var s := After(cfg, s0, run).value; Phase(s.stop) < 3 || NothingLeft(s)
    ensures forall e :: StopStep(StopPicks(e)) !in run
    decreases |run|
  {
    if run != [] {
      var front, s, a := SplitLast(cfg, s0, run);
      DrainedOrExpired(cfg, s0, front);
      DrainsOrLeaves(cfg, s, a);
    }
  }

  lemma DrainsOrLeaves(cfg: Config, s: System, a: Action)
    requires Enabled(cfg, s, a) && a != StopStep(StopDrained(true)) && (Phase(s.stop) < 3 || NothingLeft(s))
    ensures var s' := Apply(cfg, s, a); Phase(s'.stop) < 3 || NothingLeft(s')
    ensures !(a.StopStep? && a.st.StopPicks?)
  {
    if NothingLeft(s) {
      StepLeavesNothing(cfg, s, a);
    } else {
      match a {
        case PollStep(p) => assert PollApply(cfg, s, p).stop == s.stop;
        case StopStep(st) => StopDrains(cfg, s, st);
        case _ =>
      }
    }
  }

  lemma StopDrains(cfg: Config, s: System, a: StopAction)
    requires StopEnabled(s, a) && a != StopDrained(true) && Phase(s.stop) < 3
    ensures var s' := StopApply(cfg, s, a); Phase(s'.stop) < 3 || NothingLeft(s')
    ensures !a.StopPicks?
  {
  }

  /** `stop` fails running jobs only in a run in which its drain ran out of time. */
  lemma ForcedFailNeedsExpiry(cfg: Config, s0: System, run: seq<Action>, e: ExecId)
    requires Init(cfg, s0) && After(cfg, s0, run).Some? && StopStep(StopPicks(e)) in run
    ensures StopStep(StopDrained(true)) in run
  {
    if !Expired(run) {
      DrainedOrExpired(cfg, s0, run);
    }
  }

  // ---- The release path ----------------------------------------------------------------------------------------

  /** How often the server accepted a release. */
  function ReleasesAccepted(run: seq<Action>): nat {
    if run == [] then 0
    else ReleasesAccepted(run[..|run| - 1]) + if run[|run| - 1] == PollStep(ReleaseAccepted) then 1 else 0
  }

  lemma StepReleases(cfg: Config, s: System, a: Action)
    requires Enabled(cfg, s, a)
    ensures |Apply(cfg, s, a).releaseFailed| == |s.releaseFailed| + if a == PollStep(ReleaseAccepted) then 1 else 0
  {
    match a {
      case PollStep(p) => PollReleases(cfg, s, p);
      case StopStep(st) => assert StopApply(cfg, s, st).releaseFailed == s.releaseFailed;
      case _ =>
    }
  }

  lemma PollReleases(cfg: Config, s: System, p: PollAction)
    requires PollEnabled(cfg, s, p)
    ensures |PollApply(cfg, s, p).releaseFailed| == |s.releaseFailed| + if p.ReleaseAccepted? then 1 else 0
  {
  }

  /** Every release the server accepted is reported as a failed job, once. */
  lemma {:induction false} ReleasesAreReported(cfg: Config, s0: System, run: seq<Action>)
    requires Init(cfg, s0) && After(cfg, s0, run).Some?
    ensures |After(cfg, s0, run).value.releaseFailed| == ReleasesAccepted(run)
    decreases |run|
  {
    if run != [] {
      var front, s, a := SplitLast(cfg, s0, run);
      assert front == run[..|run| - 1];
      ReleasesAreReported(cfg, s0, front);
      StepReleases(cfg, s, a);
    }
  }
}
