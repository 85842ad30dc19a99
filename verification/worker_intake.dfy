/** Slots, the abandoned counter, and the claim hand-off between the poll loop and `stop`. */
module WorkerIntake {
  import opened WorkerBlocks
  import opened LeaseServer
  import opened WorkerProtocol
  import opened WorkerInvariants

  // ---- The abandoned counter -----------------------------------------------------------------------

  lemma {:induction false} CountSame(xs: seq<Execution>, ys: seq<Execution>)
    requires |xs| == |ys| && forall i :: 0 <= i < |xs| ==> xs[i].abandoned == ys[i].abandoned
    ensures CountAbandoned(xs) == CountAbandoned(ys)
  {
    if xs != [] { CountSame(xs[..|xs| - 1], ys[..|ys| - 1]); }
  }

  lemma {:induction false} CountUpdate(xs: seq<Execution>, e: ExecId, y: Execution)
    requires e < |xs|
    ensures CountAbandoned(xs[e := y]) ==
            CountAbandoned(xs) - (if xs[e].abandoned then 1 else 0) + (if y.abandoned then 1 else 0)
  {
    var n := |xs| - 1;
    if e == n {
      assert xs[e := y][..n] == xs[..n];
    } else {
      assert xs[e := y][..n] == xs[..n][e := y];
      CountUpdate(xs[..n], e, y);
    }
  }

  lemma CounterAfter(sh: Shared, sh': Shared, e: ExecId)
    requires sh.abandonedRunning == CountAbandoned(sh.execs) && e < |sh.execs|
    requires sh' == Cleanup(sh, e) || sh' == Abandon(sh, e) || sh' == LoseLease(sh, e).0 || sh' == ClaimSettlement(sh, e).0
    ensures sh'.abandonedRunning == CountAbandoned(sh'.execs)
  {
    CountUpdate(sh.execs, e, sh'.execs[e]);
    assert sh'.execs == sh.execs[e := sh'.execs[e]];
  }

  lemma PollKeepsCounter(cfg: Config, s: System, a: PollAction)
    requires SettlementInv(cfg, s) && CounterInv(s) && PollEnabled(cfg, s, a)
    ensures CounterInv(PollApply(cfg, s, a))
  {
    var s' := PollApply(cfg, s, a);
    if a.TakeNext? && !s.sh.intakeClosed {
      assert s'.sh.execs[..|s'.sh.execs| - 1] == s.sh.execs;
    } else if a.SubmitRejected? {
      CounterAfter(s.sh, s'.sh, s.poll.e);
    }
  }

  lemma AckKeepsCounter(cfg: Config, s: System, w: Who, e: ExecId, k: AckAction)
    requires CounterInv(s) && Enabled(cfg, s, AckStep(w, e, k))
    ensures CounterInv(Apply(cfg, s, AckStep(w, e, k)))
  {
    if k.Settle? || k.LoseByCall? || k.Close? { CounterAfter(s.sh, AckShared(cfg, s.sh, w, e, k), e); }
  }

  lemma BeatKeepsCounter(cfg: Config, s: System, e: ExecId, b: BeatAction)
    requires CounterInv(s) && Enabled(cfg, s, BeatStep(e, b))
    ensures CounterInv(Apply(cfg, s, BeatStep(e, b)))
  {
    if b.LoseByBeat? { CounterAfter(s.sh, LoseLease(s.sh, e).0, e); }
  }

  lemma StopKeepsCounter(cfg: Config, s: System, a: StopAction)
    requires CounterInv(s) && StopEnabled(s, a)
    ensures CounterInv(StopApply(cfg, s, a))
  {
    assert StopApply(cfg, s, a).sh.execs == s.sh.execs;
  }

  lemma KeepsCounter(cfg: Config, s: System, a: Action)
    requires SettlementInv(cfg, s) && CounterInv(s) && Enabled(cfg, s, a)
    ensures CounterInv(Apply(cfg, s, a))
  {
    match a {
      case PollStep(p) => PollKeepsCounter(cfg, s, p);
      case AckStep(w, e, k) => AckKeepsCounter(cfg, s, w, e, k);
      case BeatStep(e, b) => BeatKeepsCounter(cfg, s, e, b);
      case StopStep(st) => StopKeepsCounter(cfg, s, st);
      case _ => assert Apply(cfg, s, a).sh == s.sh;
    }
  }

  // ---- Slots and the hand-off -------------------------------------------------------------------------

  lemma MapSizes<K, V>(m: map<K, V>, k: K, v: V)
    ensures |m[k := v]| <= |m| + 1
    ensures |m - {k}| <= |m|
  {
    var n := m[k := v];
    assert n.Keys == m.Keys + {k};
    assert |n.Keys| <= |m.Keys| + 1;
    assert (m - {k}).Keys == m.Keys - {k};
    assert |m.Keys - {k}| <= |m.Keys|;
  }

  lemma TakeKeepsPoll(cfg: Config, s: System)
    requires PollInv(cfg, s) && StopInv(cfg, s) && PollEnabled(cfg, s, TakeNext)
    ensures PollInv(cfg, ApplyTake(s))
  {
    MapSizes(s.sh.active, s.poll.rest[0].job, |s.sh.execs|);
  }

  lemma StartKeepsPoll(cfg: Config, s: System, a: PollAction)
    requires PollInv(cfg, s) && PollEnabled(cfg, s, a)
    requires a.ScheduleBeat? || a.CheckExecutor? || a.Submit? || a.SubmitRejected?
    ensures PollInv(cfg, PollApply(cfg, s, a))
  {
    if a.SubmitRejected? { MapSizes(s.sh.active, s.sh.execs[s.poll.e].claim.job, 0); }
  }

  lemma PollKeepsPoll(cfg: Config, s: System, a: PollAction)
    requires PollInv(cfg, s) && CounterInv(s) && StopInv(cfg, s) && PollEnabled(cfg, s, a)
    ensures PollInv(cfg, PollApply(cfg, s, a))
  {
    match a {
      case TakeNext => TakeKeepsPoll(cfg, s);
      case ScheduleBeat => StartKeepsPoll(cfg, s, a);
      case CheckExecutor => StartKeepsPoll(cfg, s, a);
      case Submit => StartKeepsPoll(cfg, s, a);
      case SubmitRejected => StartKeepsPoll(cfg, s, a);
      case _ =>
    }
  }

  /** Steps of the other threads: they only ever take jobs out of the table. */
  lemma OthersKeepPoll(cfg: Config, s: System, s': System)
    requires PollInv(cfg, s)
    requires s'.poll == s.poll && s'.sh.pollInFlight == s.sh.pollInFlight && |s'.sh.active| <= |s.sh.active|
    requires s'.sh.intakeClosed == s.sh.intakeClosed && s'.stop == s.stop
    requires s'.pollWaitCut == s.pollWaitCut && s'.released == s.released
    requires s'.dropped == s.dropped && s'.executor == s.executor
    requires |s'.threads| == |s.threads|
    requires forall i :: 0 <= i < |s.threads| && s.threads[i].handler.Off? && s.threads[i].timer.Off? ==>
      s'.threads[i].handler.Off? && s'.threads[i].timer.Off?
    ensures PollInv(cfg, s')
  {
  }

  /** What the poll loop can see of a step of stop. */
  ghost predicate StopSeen(s: System, s': System) {
    && s'.poll == s.poll && s'.sh.active == s.sh.active && s'.sh.pollInFlight == s.sh.pollInFlight
    && s'.released == s.released && s'.dropped == s.dropped && |s'.threads| == |s.threads|
    && (forall i :: 0 <= i < |s.threads| ==>
          s'.threads[i].handler == s.threads[i].handler && s'.threads[i].timer == s.threads[i].timer)
    && (s.sh.intakeClosed ==> s'.sh.intakeClosed) && (s.pollWaitCut ==> s'.pollWaitCut) && Phase(s'.stop) >= Phase(s.stop)
    && (s.executor.Gone? ==> s'.executor.Gone?)
    && (Phase(s'.stop) >= 2 && Phase(s.stop) < 2 && !s'.pollWaitCut ==> s.sh.pollInFlight == 0)
  }

  lemma StopIsSeen(cfg: Config, s: System, a: StopAction)
    requires StopEnabled(s, a) && (s.pollWaitCut ==> Phase(s.stop) >= 2) && (s.executor.Gone? ==> Phase(s.stop) >= 8)
    ensures StopSeen(s, StopApply(cfg, s, a)) && (StopApply(cfg, s, a).pollWaitCut ==> Phase(StopApply(cfg, s, a).stop) >= 2)
  {
  }

  lemma SeenKeepsPoll(cfg: Config, s: System, s': System)
    requires PollInv(cfg, s) && StopInv(cfg, s) && StopSeen(s, s') && (s'.pollWaitCut ==> Phase(s'.stop) >= 2)
    ensures PollInv(cfg, s')
  {
  }

  lemma StopKeepsPoll(cfg: Config, s: System, a: StopAction)
    requires PollInv(cfg, s) && StopInv(cfg, s) && StopEnabled(s, a)
    ensures PollInv(cfg, StopApply(cfg, s, a))
  {
    StopIsSeen(cfg, s, a);
    SeenKeepsPoll(cfg, s, StopApply(cfg, s, a));
  }

  lemma AckFreesSlots(cfg: Config, sh: Shared, w: Who, e: ExecId, k: AckAction)
    requires e < |sh.execs|
    ensures var sh' := AckShared(cfg, sh, w, e, k);
      |sh'.active| <= |sh.active| && sh'.pollInFlight == sh.pollInFlight && sh'.intakeClosed == sh.intakeClosed
  {
    MapSizes(sh.active, sh.execs[e].claim.job, 0);
  }

  lemma AckKeepsPoll(cfg: Config, s: System, w: Who, e: ExecId, k: AckAction)
    requires PollInv(cfg, s) && Enabled(cfg, s, AckStep(w, e, k))
    ensures PollInv(cfg, Apply(cfg, s, AckStep(w, e, k)))
  {
    AckFreesSlots(cfg, s.sh, w, e, k);
    OthersKeepPoll(cfg, s, Apply(cfg, s, AckStep(w, e, k)));
  }

  lemma JobKeepsPoll(cfg: Config, s: System, e: ExecId, j: JobAction)
    requires PollInv(cfg, s) && Enabled(cfg, s, JobStep(e, j))
    ensures PollInv(cfg, Apply(cfg, s, JobStep(e, j)))
  {
    OthersKeepPoll(cfg, s, Apply(cfg, s, JobStep(e, j)));
  }

  lemma BeatKeepsPoll(cfg: Config, s: System, e: ExecId, b: BeatAction)
    requires PollInv(cfg, s) && Enabled(cfg, s, BeatStep(e, b))
    ensures PollInv(cfg, Apply(cfg, s, BeatStep(e, b)))
  {
    OthersKeepPoll(cfg, s, Apply(cfg, s, BeatStep(e, b)));
  }

  lemma KeepsPoll(cfg: Config, s: System, a: Action)
    requires PollInv(cfg, s) && CounterInv(s) && StopInv(cfg, s) && Enabled(cfg, s, a)
    ensures PollInv(cfg, Apply(cfg, s, a))
  {
    match a {
      case PollStep(p) => PollKeepsPoll(cfg, s, p);
      case JobStep(e, j) => JobKeepsPoll(cfg, s, e, j);
      case AckStep(w, e, k) => AckKeepsPoll(cfg, s, w, e, k);
      case BeatStep(e, b) => BeatKeepsPoll(cfg, s, e, b);
      case StopStep(st) => StopKeepsPoll(cfg, s, st);
      case ServerStep(_) => OthersKeepPoll(cfg, s, Apply(cfg, s, a));
    }
  }

  // ---- No claim is lost ------------------------------------------------------------------------------

  lemma ClaimsSame(s: System, s': System)
    requires |s'.sh.execs| == |s.sh.execs|
    requires forall i :: 0 <= i < |s.sh.execs| ==> s'.sh.execs[i].claim == s.sh.execs[i].claim
    ensures Claims(s'.sh.execs) == Claims(s.sh.execs)
  {
  }

  /** Steps that neither deliver, register nor release a claim. */
  lemma FrameKeepsClaims(cfg: Config, s: System, s': System)
    requires ClaimInv(cfg, s) && s.sv.grants <= s'.sv.grants
    requires |s'.sh.execs| == |s.sh.execs|
    requires forall i :: 0 <= i < |s.sh.execs| ==> s'.sh.execs[i].claim == s.sh.execs[i].claim
    requires Waiting(s'.poll) == Waiting(s.poll) && s'.delivered == s.delivered && s'.released == s.released
    requires s'.dropped == s.dropped
    requires Granted(s') == Granted(s)
    ensures ClaimInv(cfg, s')
  {
    ClaimsSame(s, s');
    forall i | 0 <= i < |Granted(s')| ensures HeldLease(cfg, s'.sv, Granted(s')[i]) {
      assert HeldLease(cfg, s.sv, Granted(s)[i]);
    }
  }

  lemma GrantKeepsClaims(cfg: Config, s: System, job: JobId)
    requires ClaimInv(cfg, s) && PollInv(cfg, s) && PollEnabled(cfg, s, ClaimGrants(job))
    ensures ClaimInv(cfg, PollApply(cfg, s, ClaimGrants(job)))
  {
    var s' := PollApply(cfg, s, ClaimGrants(job));
    var c := NextClaim(s.sv, job);
    assert Granted(s') == Granted(s) + [c];
    forall i | 0 <= i < |Granted(s)| ensures HeldLease(cfg, s'.sv, Granted(s)[i]) && Granted(s)[i].lease != c.lease {
      assert HeldLease(cfg, s.sv, Granted(s)[i]);
    }
  }

  lemma FirstAndRest(cs: seq<Claimed>)
    requires cs != []
    ensures multiset(cs) == multiset([cs[0]]) + multiset(cs[1..])
  {
    assert cs == [cs[0]] + cs[1..];
  }

  lemma OneMore(cs: seq<Claimed>, c: Claimed)
    ensures multiset(cs + [c]) == multiset(cs) + multiset([c])
  {
  }

  lemma ClaimsAfterRegister(sh: Shared, c: Claimed)
    requires !sh.intakeClosed
    ensures Claims(Register(sh, c).execs) == Claims(sh.execs) + [c]
  {
  }

  /** The next claim leaves the batch: for the table, or for the release path. */
  lemma TakeConserves(cfg: Config, s: System)
    requires Conserved(s) && PollEnabled(cfg, s, TakeNext)
    ensures Conserved(ApplyTake(s))
  {
    var c, rest := s.poll.rest[0], s.poll.rest[1..];
    FirstAndRest(s.poll.rest);
    var table, released, dropped := multiset(Claims(s.sh.execs)), multiset(s.released), multiset(s.dropped);
    if s.sh.intakeClosed {
      OneMore(s.released, c);
      Regrouped(table, multiset([c]), multiset(rest), released, dropped);
    } else {
      ClaimsAfterRegister(s.sh, c);
      OneMore(Claims(s.sh.execs), c);
      Regrouped(table, multiset([c]), multiset(rest), released, dropped);
    }
  }

  lemma Regrouped(table: multiset<Claimed>, one: multiset<Claimed>, rest: multiset<Claimed>,
                  released: multiset<Claimed>, dropped: multiset<Claimed>)
    ensures table + (one + rest) + released + dropped == (table + one) + rest + released + dropped
    ensures table + (one + rest) + released + dropped == table + rest + (released + one) + dropped
  {
  }

  lemma TakeKeepsClaims(cfg: Config, s: System)
    requires ClaimInv(cfg, s) && PollEnabled(cfg, s, TakeNext)
    ensures ClaimInv(cfg, PollApply(cfg, s, TakeNext))
  {
    TakeConserves(cfg, s);
    assert Granted(ApplyTake(s)) == Granted(s);
  }

  lemma ReturnKeepsClaims(cfg: Config, s: System, a: PollAction)
    requires ClaimInv(cfg, s) && PollEnabled(cfg, s, a) && (a.ClaimReturns? || a.ClaimErrors?)
    ensures ClaimInv(cfg, PollApply(cfg, s, a))
  {
    var s' := PollApply(cfg, s, a);
    var n := if a.ClaimReturns? then |Granted(s)| else |s.delivered|;
    assert Granted(s') == Granted(s)[..n];
    forall i | 0 <= i < |Granted(s')| ensures HeldLease(cfg, s'.sv, Granted(s')[i]) {
      assert HeldLease(cfg, s.sv, Granted(s)[i]);
    }
  }

  lemma PollKeepsClaims(cfg: Config, s: System, a: PollAction)
    requires ClaimInv(cfg, s) && PollInv(cfg, s) && PollEnabled(cfg, s, a)
    ensures ClaimInv(cfg, PollApply(cfg, s, a))
  {
    match a {
      case ClaimGrants(job) => GrantKeepsClaims(cfg, s, job);
      case TakeNext => TakeKeepsClaims(cfg, s);
      case ClaimReturns => ReturnKeepsClaims(cfg, s, a);
      case ClaimErrors => ReturnKeepsClaims(cfg, s, a);
      case SubmitBreaks =>
        assert Granted(PollApply(cfg, s, a)) == Granted(s);
      case _ => RestKeepsClaims(cfg, s, a);
    }
  }

  lemma RestKeepsClaims(cfg: Config, s: System, a: PollAction)
    requires ClaimInv(cfg, s) && PollEnabled(cfg, s, a)
    requires !a.ClaimGrants? && !a.TakeNext? && !a.ClaimReturns? && !a.ClaimErrors? && !a.SubmitBreaks?
    ensures ClaimInv(cfg, PollApply(cfg, s, a))
  {
    var s' := PollApply(cfg, s, a);
    assert s'.sv.grants == s.sv.grants && s'.delivered == s.delivered && s'.released == s.released;
    assert Waiting(s'.poll) == Waiting(s.poll);
    FrameKeepsClaims(cfg, s, s');
  }

  lemma PollKeepsReleases(cfg: Config, s: System, a: PollAction)
    requires ReleaseInv(cfg, s) && StopInv(cfg, s) && PollEnabled(cfg, s, a)
    ensures ReleaseInv(cfg, PollApply(cfg, s, a))
  {
  }

  lemma OthersKeepReleases(cfg: Config, s: System, s': System)
    requires ReleaseInv(cfg, s)
    requires s'.poll == s.poll && s'.released == s.released && s.sv.sent <= s'.sv.sent
    ensures ReleaseInv(cfg, s')
  {
  }

  lemma KeepsReleases(cfg: Config, s: System, a: Action)
    requires ReleaseInv(cfg, s) && StopInv(cfg, s) && ServerInv(s.sv) && Enabled(cfg, s, a)
    ensures ReleaseInv(cfg, Apply(cfg, s, a))
  {
    match a {
      case PollStep(p) => PollKeepsReleases(cfg, s, p);
      case ServerStep(v) =>
        ServerKeepsInv(s.sv, v, cfg.worker);
        OthersKeepReleases(cfg, s, Apply(cfg, s, a));
      case _ => OthersKeepReleases(cfg, s, Apply(cfg, s, a));
    }
  }

  lemma AckKeepsClaims(cfg: Config, s: System, w: Who, e: ExecId, k: AckAction)
    requires ClaimInv(cfg, s) && Enabled(cfg, s, AckStep(w, e, k))
    ensures ClaimInv(cfg, Apply(cfg, s, AckStep(w, e, k)))
  {
    FrameKeepsClaims(cfg, s, Apply(cfg, s, AckStep(w, e, k)));
  }

  lemma StopKeepsClaims(cfg: Config, s: System, a: StopAction)
    requires ClaimInv(cfg, s) && StopEnabled(s, a)
    ensures ClaimInv(cfg, StopApply(cfg, s, a))
  {
    FrameKeepsClaims(cfg, s, StopApply(cfg, s, a));
  }

  lemma KeepsClaims(cfg: Config, s: System, a: Action)
    requires ClaimInv(cfg, s) && PollInv(cfg, s) && ServerInv(s.sv) && Enabled(cfg, s, a)
    ensures ClaimInv(cfg, Apply(cfg, s, a))
  {
    match a {
      case PollStep(p) => PollKeepsClaims(cfg, s, p);
      case JobStep(_, _) => FrameKeepsClaims(cfg, s, Apply(cfg, s, a));
      case AckStep(w, e, k) => AckKeepsClaims(cfg, s, w, e, k);
      case BeatStep(_, _) => FrameKeepsClaims(cfg, s, Apply(cfg, s, a));
      case StopStep(st) => StopKeepsClaims(cfg, s, st);
      case ServerStep(v) =>
        ServerKeepsInv(s.sv, v, cfg.worker);
        FrameKeepsClaims(cfg, s, Apply(cfg, s, a));
    }
  }
}
