/**
 The lease-fenced job server, as far as the SDK documents it: a claim hands out a fresh
 lease; an ack acts only under the current lease of its row; a lease may expire at any
 time; a replayed or stale ack is answered 409.  Calls are messages: once sent, one may be
 acted on any number of times, at any later time, or never.
 */
module LeaseServer {
  import opened WorkerBlocks

  datatype Kind = CompleteAck | FailAck

  datatype Row =
    | Pending(retries: nat, maxRetries: nat)
    | Processing(lease: LeaseId, retries: nat, maxRetries: nat)
    | Completed
    | DeadLetter

  datatype Grant = Grant(claim: Claimed, holder: WorkerId)

  datatype Outcome = DidComplete | DidFail(willRetry: bool)

  /** An ack the server acted on. */
  datatype Effect = Effect(lease: LeaseId, outcome: Outcome)

  datatype Message = Message(kind: Kind, claim: Claimed, worker: WorkerId)

  /** `Refused` stands for every other error answer. */
  datatype Reply = Accepted | LeaseExpired | AlreadyCompleted | Refused

  datatype Server = Server(
    rows: map<JobId, Row>,
    grants: seq<Grant>,                // a lease id is the index of its grant
    effects: seq<Effect>,
    sent: set<Message>,
    replies: set<(Message, Reply)>)
  {
    predicate Current(lease: LeaseId) {
      && lease < |grants|
      && grants[lease].claim.job in rows
      && rows[grants[lease].claim.job].Processing?
      && rows[grants[lease].claim.job].lease == lease
    }

    predicate IsCompleted(job: JobId) {
      job in rows && rows[job].Completed?
    }
  }

  /** What one claim of one pending row returns. */
  function NextClaim(sv: Server, job: JobId): Claimed
    requires job in sv.rows && sv.rows[job].Pending?
  {
    Claimed(job, |sv.grants|, sv.rows[job].retries, sv.rows[job].maxRetries)
  }

  function GrantLease(sv: Server, job: JobId, holder: WorkerId): Server
    requires job in sv.rows && sv.rows[job].Pending?
  {
    var c := NextClaim(sv, job);
    sv.(rows := sv.rows[job := Processing(c.lease, c.retries, c.maxRetries)],
        grants := sv.grants + [Grant(c, holder)])
  }

  function Enqueue(sv: Server, job: JobId, maxRetries: nat): Server
    requires job !in sv.rows
  {
    sv.(rows := sv.rows[job := Pending(0, maxRetries)])
  }

  /** A lease runs out: the row goes back to pending or is dead-lettered, with any retry count. */
  function Expire(sv: Server, job: JobId, after: Row): Server
    requires job in sv.rows && sv.rows[job].Processing?
    requires after.Pending? || after.DeadLetter?
  {
    sv.(rows := sv.rows[job := after])
  }

  function Send(sv: Server, m: Message): Server {
    sv.(sent := sv.sent + {m})
  }

  /** Whether the server lets `m` act: only under the current lease, from its holder. */
  predicate Fenced(sv: Server, m: Message) {
    sv.Current(m.claim.lease) && sv.grants[m.claim.lease] == Grant(m.claim, m.worker)
  }

  /** Act on a fenced message.  `fail` reschedules exactly when retries remain. */
  function Act(sv: Server, m: Message, retriesAfter: nat): Server
    requires Fenced(sv, m)
  {
    var job := m.claim.job;
    var row := sv.rows[job];
    var willRetry := row.retries < row.maxRetries;
    var done := match m.kind
      case CompleteAck => (Completed, DidComplete)
      case FailAck => (if willRetry then Pending(retriesAfter, row.maxRetries) else DeadLetter, DidFail(willRetry));
    sv.(rows := sv.rows[job := done.0],
        effects := sv.effects + [Effect(m.claim.lease, done.1)],
        replies := sv.replies + {(m, Accepted)})
  }

  /** Which error answers the server may give a message without acting on it. */
  predicate MayAnswer(sv: Server, m: Message, r: Reply) {
    match r
    case Accepted => false
    case LeaseExpired => !sv.Current(m.claim.lease)
    case AlreadyCompleted => sv.IsCompleted(m.claim.job)
    case Refused => true
  }

  function Answer(sv: Server, m: Message, r: Reply): Server
    requires MayAnswer(sv, m, r)
  {
    sv.(replies := sv.replies + {(m, r)})
  }

  datatype ServerAction =
    | NewJob(job: JobId, maxRetries: nat)
    | Expires(job: JobId, after: Row)
    | OtherClaims(job: JobId, holder: WorkerId)
    | OtherSends(m: Message)
    | ActsOn(m: Message, retriesAfter: nat)
    | Answers(m: Message, r: Reply)

  /** Steps in which worker `self` takes no part. */
  predicate ServerEnabled(sv: Server, a: ServerAction, self: WorkerId) {
    match a
    case NewJob(job, _) => job !in sv.rows
    case Expires(job, after) =>
      job in sv.rows && sv.rows[job].Processing? && (after.Pending? || after.DeadLetter?)
    case OtherClaims(job, holder) => job in sv.rows && sv.rows[job].Pending? && holder != self
    case OtherSends(m) =>
      && m.worker != self && m.claim.lease < |sv.grants| && sv.grants[m.claim.lease] == Grant(m.claim, m.worker)
    case ActsOn(m, _) => m in sv.sent && Fenced(sv, m)
    case Answers(m, r) => m in sv.sent && MayAnswer(sv, m, r)
  }

  function ServerApply(sv: Server, a: ServerAction, self: WorkerId): Server
    requires ServerEnabled(sv, a, self)
  {
    match a
    case NewJob(job, maxRetries) => Enqueue(sv, job, maxRetries)
    case Expires(job, after) => Expire(sv, job, after)
    case OtherClaims(job, holder) => GrantLease(sv, job, holder)
    case OtherSends(m) => Send(sv, m)
    case ActsOn(m, retriesAfter) => Act(sv, m, retriesAfter)
    case Answers(m, r) => Answer(sv, m, r)
  }

  // ---- What the server keeps --------------------------------------------------------------

  ghost predicate RowsMatchGrants(sv: Server) {
    forall job :: job in sv.rows && sv.rows[job].Processing? ==>
      var row := sv.rows[job];
      row.lease < |sv.grants| && sv.grants[row.lease].claim == Claimed(job, row.lease, row.retries, row.maxRetries)
  }

  ghost predicate GrantsNumbered(sv: Server) {
    forall l :: 0 <= l < |sv.grants| ==> sv.grants[l].claim.lease == l
  }

  /** An effect is the last thing its lease does. */
  ghost predicate EffectsSpent(sv: Server) {
    forall i :: 0 <= i < |sv.effects| ==> EffectSpent(sv, sv.effects[i])
  }

  ghost predicate EffectSpent(sv: Server, f: Effect) {
    && f.lease < |sv.grants|
    && !sv.Current(f.lease)
    && (f.outcome.DidComplete? ==> sv.IsCompleted(sv.grants[f.lease].claim.job))
    && (f.outcome.DidFail? ==> f.outcome.willRetry == sv.grants[f.lease].claim.WillRetry())
  }

  /** Each lease has at most one effective ack. */
  ghost predicate OneEffectPerLease(sv: Server) {
    forall i, j :: 0 <= i < j < |sv.effects| ==> sv.effects[i].lease != sv.effects[j].lease
  }

  /** A job is completed at most once. */
  ghost predicate OneCompletionPerJob(sv: Server) {
    forall i, j :: 0 <= i < j < |sv.effects| && sv.effects[i].outcome.DidComplete? && sv.effects[j].outcome.DidComplete? ==>
      sv.effects[i].lease < |sv.grants| && sv.effects[j].lease < |sv.grants| &&
      sv.grants[sv.effects[i].lease].claim.job != sv.grants[sv.effects[j].lease].claim.job
  }

  ghost predicate SentUnderGrant(sv: Server) {
    forall m :: m in sv.sent ==> m.claim.lease < |sv.grants| && sv.grants[m.claim.lease] == Grant(m.claim, m.worker)
  }

  function EffectOf(m: Message): Effect {
    Effect(m.claim.lease, if m.kind.CompleteAck? then DidComplete else DidFail(m.claim.WillRetry()))
  }

  /** Whatever the server answered is still true. */
  ghost predicate ReplyTrue(sv: Server, m: Message, r: Reply) {
    && m.claim.lease < |sv.grants|
    && (r.Accepted? ==> EffectOf(m) in sv.effects && (m.kind.CompleteAck? ==> sv.IsCompleted(m.claim.job)))
    && (r.LeaseExpired? ==> !sv.Current(m.claim.lease))
    && (r.AlreadyCompleted? ==> sv.IsCompleted(m.claim.job))
  }

  ghost predicate RepliesTrue(sv: Server) {
    forall m, r :: (m, r) in sv.replies ==> ReplyTrue(sv, m, r)
  }

  ghost predicate ServerInv(sv: Server) {
    && RowsMatchGrants(sv)
    && GrantsNumbered(sv)
    && EffectsSpent(sv)
    && OneEffectPerLease(sv)
    && OneCompletionPerJob(sv)
    && SentUnderGrant(sv)
    && RepliesTrue(sv)
  }

  /** What no server step undoes: history grows, a spent lease stays spent, a completed job stays completed. */
  ghost predicate Grown(sv: Server, sv': Server) {
    && sv.grants <= sv'.grants
    && sv.effects <= sv'.effects
    && sv.sent <= sv'.sent
    && sv.replies <= sv'.replies
    && (forall l: nat :: l < |sv.grants| && !sv.Current(l) ==> !sv'.Current(l))
    && (forall job :: sv.IsCompleted(job) ==> sv'.IsCompleted(job))
  }

  lemma RepliesStayTrue(sv: Server, sv': Server)
    requires Grown(sv, sv') && RepliesTrue(sv)
    ensures forall m, r :: (m, r) in sv.replies ==> ReplyTrue(sv', m, r)
  {
  }

  lemma GrantKeepsInv(sv: Server, job: JobId, holder: WorkerId)
    requires ServerInv(sv) && job in sv.rows && sv.rows[job].Pending?
    ensures ServerInv(GrantLease(sv, job, holder)) && Grown(sv, GrantLease(sv, job, holder))
  {
    var sv' := GrantLease(sv, job, holder);
    assert Grown(sv, sv');
    forall i | 0 <= i < |sv'.effects| ensures EffectSpent(sv', sv'.effects[i]) {
      assert EffectSpent(sv, sv.effects[i]);
    }
    RepliesStayTrue(sv, sv');
  }

  lemma ActKeepsInv(sv: Server, m: Message, retriesAfter: nat)
    requires ServerInv(sv) && m in sv.sent && Fenced(sv, m)
    ensures ServerInv(Act(sv, m, retriesAfter)) && Grown(sv, Act(sv, m, retriesAfter))
  {
    var sv' := Act(sv, m, retriesAfter);
    assert Grown(sv, sv');
    var n := |sv.effects|;
    assert sv'.effects[n] == EffectOf(m);
    forall i | 0 <= i < n + 1 ensures EffectSpent(sv', sv'.effects[i]) {
      if i < n { assert EffectSpent(sv, sv.effects[i]); }
    }
    forall i | 0 <= i < n
      ensures sv.effects[i].lease != m.claim.lease
      ensures sv.effects[i].outcome.DidComplete? ==> sv.grants[sv.effects[i].lease].claim.job != m.claim.job
    {
      assert EffectSpent(sv, sv.effects[i]);
    }
    RepliesStayTrue(sv, sv');
  }

  lemma ServerKeepsInv(sv: Server, a: ServerAction, self: WorkerId)
    requires ServerInv(sv) && ServerEnabled(sv, a, self)
    ensures ServerInv(ServerApply(sv, a, self)) && Grown(sv, ServerApply(sv, a, self))
  {
    var sv' := ServerApply(sv, a, self);
    match a {
      case OtherClaims(job, holder) => GrantKeepsInv(sv, job, holder);
      case ActsOn(m, retriesAfter) => ActKeepsInv(sv, m, retriesAfter);
      case _ =>
        assert Grown(sv, sv');
        forall i | 0 <= i < |sv'.effects| ensures EffectSpent(sv', sv'.effects[i]) {
          assert EffectSpent(sv, sv.effects[i]);
        }
        RepliesStayTrue(sv, sv');
    }
  }

  lemma SendKeepsInv(sv: Server, m: Message)
    requires ServerInv(sv)
    requires m.claim.lease < |sv.grants| && sv.grants[m.claim.lease] == Grant(m.claim, m.worker)
    ensures ServerInv(Send(sv, m)) && Grown(sv, Send(sv, m))
  {
    var sv' := Send(sv, m);
    assert Grown(sv, sv');
    forall i | 0 <= i < |sv'.effects| ensures EffectSpent(sv', sv'.effects[i]) {
      assert EffectSpent(sv, sv.effects[i]);
    }
    RepliesStayTrue(sv, sv');
  }
}
