/** How the worker reads the HTTP answer to an ack, and which step of the protocol it takes then. */
module AckAnswers {
  import opened Ascii
  import opened Wrappers
  import opened Errors
  import opened WorkerBlocks
  import opened LeaseServer
  import opened WorkerProtocol

  /** `part in s` */
  predicate Contains(s: string, part: string) {
    part <= s || (s != "" && Contains(s[1..], part))
  }

  const ALREADY_COMPLETED := "already completed"

  predicate SaysCompleted(message: string) {
    Contains(Lower(message), ALREADY_COMPLETED)
  }

  /** `Contains` finds a part wherever it starts. */
  lemma {:induction false} ContainsSomewhere(s: string, part: string)
    ensures Contains(s, part) <==> exists i :: 0 <= i <= |s| && part <= s[i..]
    decreases |s|
  {
    assert s[0..] == s;
    if s != "" {
      var rest := s[1..];
      ContainsSomewhere(rest, part);
      assert forall i :: 0 <= i <= |rest| ==> rest[i..] == s[i + 1..];
      if i :| 0 <= i <= |s| && part <= s[i..] {
        if i > 0 { assert part <= rest[i - 1..]; }
      }
      if i :| 0 <= i <= |rest| && part <= rest[i..] {
        assert part <= s[i + 1..];
      }
    }
  }

  /** What `complete` or `fail` raised, if anything, as the `except` blocks take it. */
  function Read(kind: Kind, error: Option<ApiError>): Reply {
    match error
    case None => Accepted
    case Some(e) =>
      if e.ConflictError? && IsLeaseExpired(e) then LeaseExpired
      else if kind.CompleteAck? && e.ConflictError? && SaysCompleted(e.message) then AlreadyCompleted
      else Refused
  }

  /** The step of the protocol that follows. */
  function StepFor(r: Reply): AckAction {
    match r
    case Accepted => CallAccepted
    case LeaseExpired => CallExpired
    case AlreadyCompleted => CallAlreadyDone
    case Refused => CallError
  }

  /** The body carries the lease code, in any case of letters. */
  predicate HasLeaseCode(body: Body) {
    body.DictBody? && body.code.Some? && Lower(body.code.value) == "lease_expired"
  }

  /** The body is, or carries, a message that says so somewhere, in any case of letters. */
  ghost predicate TellsCompleted(body: Body) {
    match body
    case NoBody => false
    case TextBody(text) => Says(text)
    case DictBody(_, message, _, _, _, _) => message.Some? && Says(message.value)
  }

  ghost predicate Says(message: string) {
    exists i :: 0 <= i <= |message| && ALREADY_COMPLETED <= Lower(message)[i..]
  }

  lemma LeaseCodes(body: Body)
    ensures UpperAll(CodeOf(body)) == "LEASE_EXPIRED" <==> HasLeaseCode(body)
  {
    InAnyCase(CodeOf(body), "LEASE_EXPIRED", "lease_expired");
    assert UpperAll("unknown_error")[0] == 'U' && "LEASE_EXPIRED"[0] == 'L';
  }

  lemma CompletedMessages(body: Body)
    ensures SaysCompleted(MessageOf(body)) <==> TellsCompleted(body)
  {
    ContainsSomewhere(Lower(MessageOf(body)), ALREADY_COMPLETED);
    ShortMessages("Unknown error");
    ShortMessages("");
  }

  lemma ShortMessages(message: string)
    requires |message| < |ALREADY_COMPLETED|
    ensures !Says(message)
  {
  }

  /** Only a conflict is read specially. */
  lemma Conflicts(kind: Kind, status: int, body: Body, header: RetryAfter)
    ensures Read(kind, Some(FromResponse(status, body, header))) ==
      if status != 409 then Refused
      else if UpperAll(CodeOf(body)) == "LEASE_EXPIRED" then LeaseExpired
      else if kind.CompleteAck? && SaysCompleted(MessageOf(body)) then AlreadyCompleted
      else Refused
  {
  }

  /**
   Exactly which answers end an execution without its lease, and which turn into a
   completed event: a 409 with the lease code, in any case of letters; a 409 without it
   whose message says so, and only for `complete`.  Nothing else does.
   */
  lemma AnswersAreFenced(kind: Kind, status: int, body: Body, header: RetryAfter)
    ensures var r := Read(kind, Some(FromResponse(status, body, header)));
      && r != Accepted
      && (r == LeaseExpired <==> status == 409 && HasLeaseCode(body))
      && (r == AlreadyCompleted <==> kind.CompleteAck? && status == 409 && !HasLeaseCode(body) && TellsCompleted(body))
  {
    Conflicts(kind, status, body, header);
    LeaseCodes(body);
    CompletedMessages(body);
  }

  /**
   When such an answer came from the lease server, the step it leads to is enabled, and what
   the step reports is true: the lease is gone, the job is completed, or the ack acted.
   */
  lemma AnswersAreTrue(cfg: Config, sv: Server, x: Execution, kind: Kind, error: Option<ApiError>)
    requires ServerInv(sv)
    requires Read(kind, error) != Refused ==> (Message(kind, x.claim, cfg.worker), Read(kind, error)) in sv.replies
    ensures AckEnabled(cfg, sv, x, Awaiting(kind), StepFor(Read(kind, error)))
    ensures Read(kind, error) == LeaseExpired ==> !sv.Current(x.claim.lease)
    ensures Read(kind, error) == AlreadyCompleted ==> sv.IsCompleted(x.claim.job)
    ensures error.None? && kind.CompleteAck? ==> sv.IsCompleted(x.claim.job)
    ensures error.None? && kind.FailAck? ==> Effect(x.claim.lease, DidFail(x.claim.WillRetry())) in sv.effects
  {
    if Read(kind, error) != Refused { assert ReplyTrue(sv, Message(kind, x.claim, cfg.worker), Read(kind, error)); }
  }

  /** What the party that got the answer then has reported, and where it goes on. */
  lemma AnswersAreReported(cfg: Config, sv: Server, sh: Shared, w: Who, e: ExecId, t: Threads, error: Option<ApiError>)
    requires ServerInv(sv) && e < |sh.execs| && t.At(w).Awaiting?
    requires var kind := t.At(w).kind;
      Read(kind, error) != Refused ==> (Message(kind, sh.execs[e].claim, cfg.worker), Read(kind, error)) in sv.replies
    ensures var k := StepFor(Read(t.At(w).kind, error));
      AckEnabled(cfg, sv, sh.execs[e], t.At(w), k) &&
      var t', answer := AckThreads(cfg, sv, sh, w, e, t, k), Read(t.At(w).kind, error);
      && t'.completedEvents == t.completedEvents + (if t.At(w).kind.CompleteAck? && (answer.Accepted? || answer.AlreadyCompleted?) then 1 else 0)
      && t'.failedEvents == t.failedEvents + (if t.At(w).kind.FailAck? && answer.Accepted? then 1 else 0)
      && t'.At(w) == (if answer.LeaseExpired? then Losing(t.At(w).kind) else Closing)
  {
  }
}
