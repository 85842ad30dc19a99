/**
 The SSE client: its generator, and the reconnect budget that only a delivered event restores.

 The server is an arbitrary function from the number of a dial to what that dial gets.  The
 client is used from one thread; `close()` may be called between two events.
 */
module SseClients {
  import opened Wrappers
  import opened Errors
  import opened Bounds

  datatype Event = Event(kind: string, newStatus: Option<string>)

  /** A frame of a stream: an event, or one without data or that does not parse. */
  datatype Frame = Carries(event: Event) | Junk

  /** How a stream goes on: it stops, breaks, or sends frames without an event for ever. */
  datatype Ending = Stops | Breaks(error: ApiError) | JunkForEver

  datatype Stream = Stream(frames: seq<Frame>, last: Ending)

  datatype Opening = Refused(error: ApiError) | Accepted(stream: Stream)

  datatype SseState = Disconnected | Connecting | Connected | Reconnecting

  /** How the generator leaves: with an event, by returning, or by raising; or that it never does. */
  datatype Turn = Yielded(event: Event) | Returned | Raises(error: ApiError) | NeverLeaves

  /** One pass of the loop over a stream, or that it reads on for ever. */
  datatype Reading = Got(event: Event) | StreamEnded | StreamBroke(error: ApiError) | ReadsForEver

  /** What `_reconnect` answers: True, False, or an exception. */
  datatype Retrial = Reopened | NoMore | Failed(error: ApiError)

  /** `closes_job_stream` */
  predicate ClosesJobStream(e: Event) {
    || e.kind == "error"
    || (e.kind == "job.status_changed" && e.newStatus.Some?
        && e.newStatus.value in ["completed", "failed", "deadletter", "cancelled"])
  }

  /** `isinstance(exc, SpooledError) and not exc.is_retryable()` */
  predicate Final(e: ApiError) {
    e.IsSpooled() && !e.IsRetryable()
  }

  /** Which answers to a dial end the generator at once: all but those a retry may help against. */
  lemma FinalAnswers(status: int, body: Body, header: RetryAfter)
    ensures Final(FromResponse(status, body, header)) <==>
      status != 408 && !(500 <= status < 600) && (status == 429 ==> IsQuotaResponse(body, header))
    ensures !Final(NetworkError) && !Final(TimeoutError) && !Final(ForeignError)
  {
    RetryableStatuses(status, body, header);
  }

  /** Of the job statuses, all end a job stream but those of a job still to be run or running. */
  lemma TerminalStatuses(status: string)
    requires status in ["pending", "scheduled", "processing", "completed", "failed", "deadletter", "cancelled"]
    ensures ClosesJobStream(Event("job.status_changed", Some(status))) <==> status !in ["pending", "scheduled", "processing"]
    ensures !ClosesJobStream(Event("job.created", Some(status))) && !ClosesJobStream(Event("job.status_changed", None))
    ensures ClosesJobStream(Event("error", None))
  {
  }

  function Events(fs: seq<Frame>): seq<Event> {
    if fs == [] then []
    else var front := Events(fs[..|fs| - 1]);
      match fs[|fs| - 1]
      case Carries(e) => front + [e]
      case Junk => front
  }

  lemma EventsAppend(fs: seq<Frame>, f: Frame)
    ensures Events(fs + [f]) == Events(fs) + match f case Carries(e) => [e] case Junk => []
  {
    assert (fs + [f])[..|fs|] == fs;
  }

  lemma MoveOne(seen: seq<Frame>, frames: seq<Frame>)
    requires frames != []
    ensures (seen + [frames[0]]) + frames[1..] == seen + frames
  {
  }

  /** Every frame of the first `n` dials, in order. */
  function FramesOf(wire: nat -> Opening, n: nat): seq<Frame> {
    if n == 0 then []
    else FramesOf(wire, n - 1) + match wire(n - 1) case Accepted(s) => s.frames case Refused(_) => []
  }

  /** What the attempts after the `from`-th up to the `to`-th sleep before dialling. */
  function Waited(delay: real, from: nat, to: nat): real {
    if to <= from then 0.0 else Waited(delay, from, to - 1) + Doubled(delay, to - 1)
  }

  lemma {:induction false} WaitedInClosedForm(delay: real, from: nat, to: nat)
    requires from <= to
    ensures Waited(delay, from, to) == Doubled(delay, to) - Doubled(delay, from)
  {
    if from < to { WaitedInClosedForm(delay, from, to - 1); }
  }

  lemma {:induction false} WaitedAdds(delay: real, a: nat, b: nat, c: nat)
    requires a <= b <= c
    ensures Waited(delay, a, b) + Waited(delay, b, c) == Waited(delay, a, c)
  {
    if b < c { WaitedAdds(delay, a, b, c - 1); }
  }

  /** The most one wait for an event can sleep. */
  function Budget(delay: real, max: nat): (b: real)
    ensures delay >= 0.0 ==> b >= 0.0
  {
    Doubled(delay, max) - delay
  }

  /** However a budget is spent, its sleeps add up to at most `delay * (2 ** max - 1)`. */
  lemma WaitedWithinBudget(delay: real, from: nat, to: nat, max: nat)
    requires from <= to <= max && delay >= 0.0
    ensures Waited(delay, from, to) <= Budget(delay, max) == delay * (Pow2(max) as real - 1.0)
  {
    WaitedInClosedForm(delay, from, to);
    DoubledGrows(delay, to, max);
    DoubledIsProduct(delay, max);
  }

  class SseClient {
    const wire: nat -> Opening
    const hasJob: bool
    const autoReconnect: bool
    const maxAttempts: nat
    const delay: real
    var state: SseState
    var closed: bool
    var finished: bool
    var attempts: nat                 // `_reconnect_attempts`
    var stream: Option<Stream>        // `_sse_client`, what of it is still to be read
    var dials: nat
    ghost var reopens: nat            // dials made by `_reconnect`
    ghost var slept: real
    ghost var seen: seq<Frame>        // frames read
    ghost var delivered: seq<Event>   // events yielded

    ghost predicate Valid()
      reads this
    {
      && attempts <= maxAttempts && delay >= 0.0
      && (stream.Some? ==> state == Connected)
      && (state == Connected ==> stream.Some? && !closed)
      && delivered == Events(seen)
    }

    /** Nothing the server sent has been skipped: what was read and what is still to be read is all of it. */
    ghost predicate NothingSkipped()
      reads this
    {
      seen + (if stream.Some? then stream.value.frames else []) == FramesOf(wire, dials)
    }

    /** The stream being read carries no event any more, and does not end either. */
    predicate OnlyJunkLeft()
      reads this
    {
      stream == Some(Stream([], JunkForEver))
    }

    constructor (wire: nat -> Opening, hasJob: bool, autoReconnect: bool, maxAttempts: nat, delay: real)
      requires delay >= 0.0
      ensures Valid() && NothingSkipped() && !closed && stream.None? && delivered == []
      ensures this.wire == wire && this.hasJob == hasJob && this.autoReconnect == autoReconnect
      ensures this.maxAttempts == maxAttempts && this.delay == delay
    {
      this.wire, this.hasJob, this.autoReconnect := wire, hasJob, autoReconnect;
      this.maxAttempts, this.delay := maxAttempts, delay;
      state, closed, finished, attempts, stream, dials := Disconnected, false, false, 0, None, 0;
      reopens, slept, seen, delivered := 0, 0.0, [], [];
    }

    /** `_open`: one dial.  `_teardown` has run, or there was nothing to tear down. */
    method Open() returns (error: Option<ApiError>)
      modifies `state, `stream, `closed, `dials
      ensures dials == old(dials) + 1
      ensures error.None? ==> stream.Some? && wire(old(dials)) == Accepted(stream.value) && state == Connected && !closed
      ensures error.Some? ==> wire(old(dials)) == Refused(error.value) && stream.None? && state == Disconnected
                              && closed == old(closed)
    {
      state := Connecting;
      var opening := wire(dials);
      dials := dials + 1;
      match opening {
        case Accepted(s) =>
          stream, state, closed := Some(s), Connected, false;
          return None;
        case Refused(e) =>
          stream, state := None, Disconnected;
          return Some(e);
      }
    }

    /** `connect`: an explicit connect starts with a fresh budget. */
    method Connect() returns (error: Option<ApiError>)
      requires Valid()
      modifies `state, `stream, `closed, `dials, `attempts, `finished
      ensures Valid()
      ensures old(state) == Connected ==>
        error.None? && attempts == old(attempts) && finished == old(finished) && stream == old(stream) && dials == old(dials)
      ensures old(state) != Connected ==> attempts == 0 && !finished && dials == old(dials) + 1
      ensures error.None? ==> state == Connected && stream.Some?
      ensures error.Some? ==> stream.None? && closed == old(closed)
      ensures old(NothingSkipped()) ==> NothingSkipped()
    {
      if state == Connected { return None; }
      attempts, finished := 0, false;
      error := Open();
    }

    method Close()
      requires Valid()
      modifies `state, `stream, `closed
      ensures Valid() && closed && stream.None? && state == Disconnected
      ensures old(NothingSkipped()) && old(stream.Some? ==> stream.value.frames == []) ==> NothingSkipped()
    {
      closed, stream, state := true, None, Disconnected;
    }

    /** One frame of the stream; only an event restores the budget. */
    method ReadFrame() returns (o: Option<Event>)
      requires Valid() && stream.Some? && stream.value.frames != []
      modifies `attempts, `finished, `stream, `seen, `delivered
      ensures Valid()
      ensures stream == Some(Stream(old(stream).value.frames[1..], old(stream).value.last))
      ensures old(NothingSkipped()) ==> NothingSkipped()
      ensures o.None? ==> delivered == old(delivered) && attempts == old(attempts) && finished == old(finished)
      ensures o.Some? ==> attempts == 0 && delivered == old(delivered) + [o.value]
      ensures o.Some? ==> finished == (old(finished) || (hasJob && ClosesJobStream(o.value)))
    {
      var frames, last := stream.value.frames, stream.value.last;
      var frame := frames[0];
      EventsAppend(seen, frame);
      MoveOne(seen, frames);
      seen, stream := seen + [frame], Some(Stream(frames[1..], last));
      if frame.Junk? { return None; }
      attempts := 0;
      if hasJob && ClosesJobStream(frame.event) { finished := true; }
      delivered := delivered + [frame.event];
      o := Some(frame.event);
    }

    /** `for event in self._sse_client.events()`, from one `yield` to the next. */
    method ReadStream() returns (o: Reading)
      requires Valid() && !closed && stream.Some?
      modifies `attempts, `finished, `stream, `seen, `delivered
      ensures Valid() && stream.Some?
      ensures old(NothingSkipped()) ==> NothingSkipped()
      ensures o.Got? ==> attempts == 0 && delivered == old(delivered) + [o.event]
      ensures o.Got? ==> finished == (old(finished) || (hasJob && ClosesJobStream(o.event)))
      ensures !o.Got? ==>
        && delivered == old(delivered) && attempts == old(attempts) && finished == old(finished)
        && stream.value.frames == []
        && stream.value.last == old(stream).value.last
        && o == (match stream.value.last
                 case Stops => StreamEnded
                 case Breaks(e) => StreamBroke(e)
                 case JunkForEver => ReadsForEver)
    {
      var last := stream.value.last;
      while stream.value.frames != []
        invariant Valid() && stream.Some? && stream.value.last == last
        invariant delivered == old(delivered) && attempts == old(attempts) && finished == old(finished)
        invariant old(NothingSkipped()) ==> NothingSkipped()
        decreases |stream.value.frames|
      {
        var e := ReadFrame();
        if e.Some? { return Got(e.value); }
      }
      match last {
        case Stops => o := StreamEnded;
        case Breaks(e) => o := StreamBroke(e);
        case JunkForEver => o := ReadsForEver;
      }
    }

    /** None of these dials was answered in a way that a retry cannot help. */
    ghost predicate NoneFinal(from: nat, to: int)
      reads this
    {
      forall n :: from <= n < to && wire(n).Refused? ==> !Final(wire(n).error)
    }

    /** What was slept and dialled since the counts `a` (attempts), `n` (reopens) and `w` (slept). */
    ghost predicate Spent(a: nat, n: nat, w: real)
      reads this
    {
      && a <= attempts
      && reopens - n == attempts - a
      && slept == w + Waited(delay, a, attempts)
    }

    /** A dial since `from` that was finally rejected was the last, and that is what is raised. */
    ghost predicate FinalRaises(from: nat, leave: Option<Turn>)
      reads this
    {
      from < dials && wire(dials - 1).Refused? && Final(wire(dials - 1).error) ==>
        leave == Some(Raises(wire(dials - 1).error))
    }

    /** One round of `_reconnect`: count it, sleep, tear down and dial. */
    method TryAgain() returns (error: Option<ApiError>)
      requires Valid() && !closed && attempts < maxAttempts && (stream.Some? ==> stream.value.frames == [])
      modifies `state, `stream, `closed, `dials, `attempts, `reopens, `slept
      ensures Valid() && !closed
      ensures attempts == old(attempts) + 1 && reopens == old(reopens) + 1
      ensures slept == old(slept) + Doubled(delay, old(attempts)) && dials == old(dials) + 1
      ensures error == match wire(old(dials)) case Accepted(_) => None case Refused(e) => Some(e)
      ensures old(NothingSkipped()) ==> NothingSkipped()
      ensures error.None? <==> stream.Some?
    {
      attempts := attempts + 1;
      slept := slept + Doubled(delay, attempts - 1);
      state, stream := Disconnected, None;
      reopens := reopens + 1;
      error := Open();
    }

    /**
     `_reconnect`.  With one thread `_closed` cannot change during the sleep, so the second
     look at it is left out.
     */
    method Reconnect() returns (r: Retrial)
      requires Valid() && (stream.Some? ==> stream.value.frames == [])
      modifies `state, `stream, `closed, `dials, `attempts, `reopens, `slept
      ensures Valid() && Spent(old(attempts), old(reopens), old(slept))
      ensures old(NothingSkipped()) ==> NothingSkipped()
      ensures closed == old(closed)
      ensures r.Reopened? ==> !closed && stream.Some? && attempts > old(attempts)
      ensures r.NoMore? <==> old(!autoReconnect || closed || attempts == maxAttempts)
      ensures r.NoMore? ==> attempts == old(attempts) && stream == old(stream)
      ensures r.Failed? ==> stream.None? && (attempts == maxAttempts || Final(r.error))
      ensures dials - old(dials) == attempts - old(attempts) && NoneFinal(old(dials), dials - 1)
      ensures r.Failed? ==> dials > old(dials) && wire(dials - 1) == Opening.Refused(r.error)
      ensures r.Reopened? ==> wire(dials - 1).Accepted?
    {
      var lastError: Option<ApiError> := None;
      while autoReconnect && !closed && attempts < maxAttempts
        invariant Valid() && (stream.Some? ==> stream.value.frames == [])
        invariant Spent(old(attempts), old(reopens), old(slept))
        invariant old(NothingSkipped()) ==> NothingSkipped()
        invariant closed == old(closed)
        invariant lastError.None? <==> attempts == old(attempts)
        invariant lastError.None? ==> stream == old(stream)
        invariant lastError.Some? ==> stream.None? && autoReconnect && !closed
        invariant dials - old(dials) == attempts - old(attempts) && NoneFinal(old(dials), dials)
        invariant lastError.Some? ==> dials > old(dials) && wire(dials - 1) == Opening.Refused(lastError.value)
        decreases maxAttempts - attempts
      {
        var error := TryAgain();
        if error.None? { return Reopened; }
        if Final(error.value) { return Failed(error.value); }
        lastError := error;
      }
      r := if lastError.Some? then Failed(lastError.value) else NoMore;
    }

    /** The `except` block of `events`: whether to go on, or how to leave. */
    method Recover(e: ApiError) returns (leave: Option<Turn>)
      requires Valid() && !closed && (stream.Some? ==> stream.value.frames == [])
      modifies `state, `stream, `closed, `dials, `attempts, `reopens, `slept
      ensures Valid() && !closed && Spent(old(attempts), old(reopens), old(slept))
      ensures old(NothingSkipped()) ==> NothingSkipped()
      ensures leave.None? ==> stream.Some? && attempts > old(attempts)
      ensures leave.Some? ==> leave.value.Raises? && (stream.None? || stream == old(stream))
      ensures leave.Some? ==> !autoReconnect || attempts == maxAttempts || Final(leave.value.error)
      ensures Final(e) ==> leave == Some(Raises(e)) && attempts == old(attempts)
      ensures dials - old(dials) == attempts - old(attempts) && NoneFinal(old(dials), dials - 1)
      ensures FinalRaises(old(dials), leave)
      ensures leave.Some? && dials == old(dials) ==> leave == Some(Raises(e))
    {
      if Final(e) { return Some(Raises(e)); }
      var r := Reconnect();
      match r {
        case Reopened => leave := None;
        case NoMore => leave := Some(Raises(e));
        case Failed(again) => leave := Some(Raises(again));
      }
    }

    /**
     One round of the loop of `events`; None when it goes on with a fresh stream.  Also when
     `_reconnect` raises inside the `try` and the handler calls it again, the budget is spent once.
     */
    method Pass() returns (turn: Option<Turn>)
      requires Valid() && !closed && stream.Some?
      modifies this
      ensures Valid() && (old(NothingSkipped()) ==> NothingSkipped())
      ensures turn.None? ==> !closed && stream.Some? && attempts > old(attempts)
      ensures turn.Some? && turn.value.Yielded? ==>
        && !closed && stream.Some? && attempts == 0 && delivered == old(delivered) + [turn.value.event]
        && reopens == old(reopens) && slept == old(slept)
      ensures !(turn.Some? && turn.value.Yielded?) ==>
        delivered == old(delivered) && finished == old(finished) && Spent(old(attempts), old(reopens), old(slept))
      ensures turn == Some(Returned) ==> (finished || !autoReconnect || attempts == maxAttempts) && closed == finished
      ensures turn.Some? && turn.value.Raises? ==>
        !closed && (!autoReconnect || attempts == maxAttempts || Final(turn.value.error))
      ensures turn.Some? && !turn.value.Yielded? ==> (turn.value.NeverLeaves? <==> OnlyJunkLeft())
      ensures dials >= old(dials) && NoneFinal(old(dials), dials - 1) && FinalRaises(old(dials), turn)
    {
      var o := ReadStream();
      match o {
        case Got(e) => return Some(Yielded(e));
        case StreamEnded =>
          if finished {
            Close();
            return Some(Returned);
          }
          var r := Reconnect();
          match r {
            case Reopened => return None;
            case NoMore => return Some(Returned);
            case Failed(e) =>
              ghost var before := attempts;
              turn := Recover(e);
              WaitedAdds(delay, old(attempts), before, attempts);
          }
        case StreamBroke(e) =>
          turn := Recover(e);
        case ReadsForEver =>
          turn := Some(NeverLeaves);
      }
    }

    /**
     The generator from one `yield` to the next.  Whatever the server does, between two
     delivered events it dials at most `maxAttempts` times, and it stays in this call for ever
     exactly when it reaches a stream with nothing but junk left.
     */
    method NextEvent() returns (turn: Turn)
      requires Valid() && (closed || stream.Some?)
      modifies this
      ensures Valid()
      ensures old(NothingSkipped()) ==> NothingSkipped()
      ensures 0 <= reopens - old(reopens) <= maxAttempts - old(attempts)
      ensures slept == old(slept) + Waited(delay, old(attempts), old(attempts) + (reopens - old(reopens)))
      ensures slept <= old(slept) + Budget(delay, maxAttempts)
      ensures turn.Yielded? ==> attempts == 0 && stream.Some? && delivered == old(delivered) + [turn.event]
      ensures !turn.Yielded? ==> delivered == old(delivered) && attempts == old(attempts) + (reopens - old(reopens))
      ensures old(closed) ==> turn == Returned && reopens == old(reopens) && closed
      ensures turn.Returned? ==> closed || !autoReconnect || attempts == maxAttempts
      ensures turn.Returned? && !old(closed) ==> closed == old(finished)
      ensures turn.Raises? ==> !closed && (!autoReconnect || attempts == maxAttempts || Final(turn.error))
      ensures !turn.Yielded? ==> (turn.NeverLeaves? <==> OnlyJunkLeft())
      ensures dials >= old(dials) && NoneFinal(old(dials), dials - 1) && FinalRaises(old(dials), Some(turn))
    {
      // After close() the response is gone: whatever the iterator does next, the generator returns.
      if closed { return Returned; }
      while true
        invariant Valid() && !closed && stream.Some?
        invariant old(NothingSkipped()) ==> NothingSkipped()
        invariant Spent(old(attempts), old(reopens), old(slept))
        invariant delivered == old(delivered) && finished == old(finished)
        invariant dials >= old(dials) && NoneFinal(old(dials), dials)
        decreases maxAttempts - attempts
      {
        ghost var before := attempts;
        var r := Pass();
        if r.None? || !r.value.Yielded? { WaitedAdds(delay, old(attempts), before, attempts); }
        if r.Some? {
          WaitedWithinBudget(delay, old(attempts), old(attempts) + (reopens - old(reopens)), maxAttempts);
          return r.value;
        }
      }
    }

    /** `events()`, consumed until it ends or `limit` events have come. */
    method Consume(limit: nat) returns (events: seq<Event>, end: Turn)
      requires Valid()
      modifies this
      ensures Valid()
      ensures delivered == old(delivered) + events && |events| <= limit
      ensures |events| < limit ==> !end.Yielded?
      ensures reopens - old(reopens) <= Times(|events| + 1, maxAttempts)
      ensures slept - old(slept) <= Rests(|events| + 1, Budget(delay, maxAttempts))
      ensures old(NothingSkipped()) ==> NothingSkipped()
    {
      events, end := [], Returned;
      ghost var budget := Budget(delay, maxAttempts);
      if stream.None? {
        var error := Connect();
        if error.Some? {
          return events, Raises(error.value);
        }
      }
      while |events| < limit
        invariant Valid() && stream.Some?
        invariant delivered == old(delivered) + events && |events| <= limit
        invariant reopens - old(reopens) <= Times(|events|, maxAttempts)
        invariant slept - old(slept) <= Rests(|events|, budget)
        invariant old(NothingSkipped()) ==> NothingSkipped()
      {
        end := NextEvent();
        match end {
          case Yielded(e) =>
            events := events + [e];
          case _ => return;
        }
      }
    }
  }
}
