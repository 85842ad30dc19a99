# Verified model of the Spooled Python SDK

The SDK runs background jobs against a lease-based job server.  This project models its
four stateful parts in Dafny and proves what they promise:

* **The worker runtime** (`worker_*.dfy`, `lease_server.dfy`, `ack_answers.dfy`).  A poll thread claims jobs,
  handler threads run them, timeout timers and heartbeats fire, and `stop` drains,
  abandons and deregisters.  Every locked section, every HTTP call issued and every answer
  is one step; the steps of all threads and of a lease-fenced server interleave freely.
  `Config.isAsync` selects the asyncio worker, where awaits bound the steps and
  cancellation replaces abandonment.  `WorkerObject` holds the mutable objects whose locked
  sections are those steps.
* **The request engine** (`errors.dfy`, `retry.dfy`, `circuit_breaker.dfy`,
  `http_client.dfy`, `token_refresh.dfy`).  One logical request is a bounded retry loop
  around a timed breaker, around a send that may refresh the token through the same engine
  and be replayed once.  The network is an arbitrary function from send number to answer;
  other threads may act wherever the client does not hold a lock.
* **Realtime reconnection** (`sse_client.dfy`, `dial_budget.dfy`, `dial_races.dfy`,
  `websocket_client.dfy`, `subscriptions.dfy`, `subscription_races.dfy`,
  `subscription_safety.dfy`, `event_queue.dfy`).  Retry budgets that
  only evidence of health restores, the subscription table against the filters live on the
  current socket, and the bounded queue between the receive thread and `events()`.
* **Key-case conversion** (`casing.dfy`, `key_conversion.dfy`).

`bounds.dfy`, `sets.dfy`, `ascii.dfy` and `wrappers.dfy` hold the shared arithmetic, set and
character lemmas and the option type.

Times and delays are reals, tokens and leases are numbered in the order the server mints
them, and characters are ASCII.

## Properties of the code that do not hold

Six promises turned out to have exceptions.  The model keeps the code as it is, gives a
run that breaks the promise and proves when it holds.

* *A lost concurrency slot.*  `_abandon_job` sets the `abandoned` mark only after its `fail`
  call returned (`src/spooled/worker/worker.py:594-609`).  A handler that returns during that
  call cleans up first, finds no mark to clear, and ends; the mark set afterwards is never
  cleared (`WorkerLeak.LeakIsReachable`, `WorkerLeak.LeakIsForever`).  It can happen if and
  only if the worker is threaded and has a slot (`WorkerLeak.LeaksExactlyWhenThreaded`).  Over
  a whole run the counter is exact if and only if no such last section ran after its handler had ended
  (`WorkerLeak.CounterExactUnlessLateClose`), and once `concurrency` executions have leaked
  the worker never claims again (`WorkerLeak.LeaksStopPolling`).
* *Claimed jobs dropped at shutdown.*  `_process_job` reads `self._executor` twice
  (`src/spooled/worker/worker.py:522-528`) and `stop` sets it to None without the lock
  (`src/spooled/worker/worker.py:377-380`).  Between the two reads, `None.submit` raises an
  exception that is not caught there and leaves the loop over the claimed batch
  (`src/spooled/worker/worker.py:469-480`): the jobs after it are neither registered nor
  released, and the worker never acks them (`WorkerDrop.DropIsReachable`,
  `WorkerDrop.DroppedIsNeverAcked`).  It can happen if and only if the worker is threaded and
  has at least two slots (`WorkerDrop.DropsExactlyWithBatches`): never under asyncio, and never
  with `concurrency` 1.  Over a whole run no claimed job is lost if and only if no submit broke
  so with jobs left in its batch (`WorkerDrop.NothingLostUnlessSubmitBroke`); that needs a
  `stop` that cut its wait for the claim and closed intake.
* *Subscription agreement under concurrency.*  `_resubscribe_all` iterates the live
  dictionary without a lock.  Calls that start while no dial is in progress keep the agreement,
  also when reconnect timers fire and dial while they run (`SubscriptionRaces.CalmAgreement`).
  From any state such calls lead to, further calls are safe if and only if no dial is in
  progress, other than one that found the table empty, or the client cannot become connected
  without a new dial (`SubscriptionSafety.SafeExactlyBetweenDials`); one unsubscribe that starts
  while a dial has opened its socket can be enough (`SubscriptionSafety.EarlySendCanDisagree`).
  One call is the exception to the first statement: `WebSocketClient.disconnect` clears the
  table last (`src/spooled/realtime/websocket.py:295-314`), so a timer it did not cancel may
  dial, connect and resubscribe before that.  From every such state with a filter in the table
  and no dial in progress such a run ends in disagreement
  (`SubscriptionSafety.DialDuringDisconnectDisagrees`).  The unified client keeps its table and
  has no such exception.
  For a dictionary changed and brought back to its size during iteration the model allows
  what the Python language leaves open: the iterator may deliver any entry, or end.
* *A rejected token that is not refreshed.*  `_execute_request` reads the token twice, for
  `auth_before` and for the header (`src/spooled/utils/http.py:198-199`), and a 401 leads to a
  refresh if and only if the first of them is still the current token
  (`TokenRefresh.RefreshesRejectedToken`).  When another thread refreshes between the two reads
  (`TokenRefresh.NewerTokenIsReachable`) and the newer token is rejected, it is not refreshed
  and the request is replayed with it (`TokenRefresh.NewerTokenIsNotRefreshed`).
* *Filters with an empty-string field.*  `to_dict` drops empty strings, so two different
  table entries can be the same filter on the wire.  Unsubscribing one keeps the agreement
  exactly when no remaining entry looks the same (`Subscriptions.UnsubscribeOnWire`,
  `Subscriptions.SameOnWire`).
* *The dial budget with overlapping reports.*  `_handle_disconnect` takes no lock.  With at
  most n reports handled at a time a socket that stayed up restores the budget at most n times,
  and each restored budget pays for at most `max_reconnect_attempts + n - 1` dials
  (`DialRaces.OverlapBound`).  Two reports of one stable socket do restore it twice
  (`DialRaces.OneSocketPaysTwice`), and n reports can schedule n dials from one attempt left
  (`DialRaces.OverlapExceeds`).  Each receive thread and each timer thread handles one report
  at a time, so n is at most the number of those alive.  Besides the receive thread of the dead
  socket that can be the timer thread whose resubscription failed
  (`src/spooled/realtime/websocket.py:453-471`), and in `WebSocketClient` every earlier receive
  thread that goes on reading the client's current socket after its own was replaced
  (`src/spooled/realtime/websocket.py:371-383`).  The code sets no limit to these, and the model
  leaves n free.  Even one at a time, a second report while a dial is pending breaks
  "DISCONNECTED means no dial is pending" (`DialBudget.TwoReportsOfOneSocket`); a report keeps
  one timer for RECONNECTING and none for DISCONNECTED if and only if it finds no timer pending
  (`DialBudget.SecondReport`).

## Model

| member | source | states |
|---|---|---|
| `LeaseServer.ServerKeepsInv` | src/spooled/resources/jobs.py:223-247 | Every server step keeps: at most one effect per lease, at most one completion per job, and every reply recorded is true of the server (an accepted ack had its effect, a lease-expired answer means the lease is not current) |
| `LeaseServer.ActKeepsInv` | src/spooled/resources/jobs.py:223-247 | Acting on a current lease spends it: no later or replayed ack can act under it again |
| `WorkerTheorems.AtMostOneAck` | src/spooled/worker/worker.py:530-563 | In every run each execution issues at most one complete or fail, only once settled, emits at most one completed or failed event, of the kind it called, and exactly one lease_lost when its lease was lost; no two executions share a lease (which of the two it issues: `WorkerHistory.AckMatchesHandler`) |
| `WorkerHistory.AckMatchesHandler` | src/spooled/worker/worker.py:552-563 | In every run: an execution settled by its handler is completed if and only if the handler returned and stop did not cancel it first, and failed if and only if it raised or was cancelled; one settled by its timer or by stop is failed; a completed event means the handler returned |
| `WorkerHistory.HeldLeaseIsAcked` | src/spooled/worker/worker.py:666-759 | In every run: an execution that was settled and has its lease has sent exactly one ack, under that lease and its worker id, unless its grantee is still on the way to sending it |
| `WorkerHistory.LostLeaseIsNotAcked` | src/spooled/worker/worker.py:673-677 | Once the lease is lost, an execution whose grantee has not passed its last look at it sends no ack in any continuation |
| `WorkerHistory.AnswersAreReported` | src/spooled/worker/worker.py:685-759 | In every run: one completed or failed event is emitted if and only if an ack was answered as having its effect, and every lease-expired answer, to an ack or a heartbeat, makes the execution lose its lease |
| `WorkerHistory.ReleasesAreReported` | src/spooled/worker/worker.py:611-642 | In every run the failed events of the release path are as many as the releases the server accepted |
| `WorkerHistory.HeartbeatsGoOn` | src/spooled/worker/worker.py:808-855 | While a handler runs on a live execution of a worker with an id, its next heartbeat is scheduled, on the wire, or has just found the lease gone |
| `WorkerHistory.DeadDoNotBeat` | src/spooled/worker/worker.py:776-855 | Once an execution is settled, has lost its lease or has left the table, no new heartbeat goes out for it in any continuation |
| `WorkerHistory.SlotsAreFreed` | src/spooled/worker/worker.py:586-609 | A handler that has ended holds no slot of the table, unless its asyncio task was cancelled before it started; one given up by timer or stop holds none and is counted as abandoned until it ends |
| `WorkerHistory.StopCancelsTheRest` | src/spooled/worker/async_worker.py:368-378 | When the asyncio stop has cancelled and did not cut its wait for the claim, whatever is still in the table is cancelled, settled or over |
| `WorkerHistory.StopSparesAcks` | src/spooled/worker/async_worker.py:375-378 | A task that has settled its job, and may be in the middle of its ack, is never cancelled by stop in any continuation |
| `WorkerHistory.ForcedFailNeedsExpiry` | src/spooled/worker/worker.py:340-376 | stop abandons running jobs only in a run in which its drain ran out of time |
| `WorkerHistory.StopEmptiesTable` | src/spooled/worker/async_worker.py:382-385 | When the asyncio stop has gone through the jobs that were left, the table is empty |
| `WorkerTheorems.SettlementGrantedToOwner` | src/spooled/worker/worker.py:644-664 | Over any step, settlement goes only to an execution that owns its table slot, still has its lease and a worker id, and is never taken back |
| `WorkerTheorems.EventsAreTrue` | src/spooled/worker/worker.py:666-759 | In every run: one effective ack per lease, one completion per job; a completed event implies the row is completed, a failed event (also of the release path) implies the server acted on fail under that lease with the reported will_retry, a lost lease is not current |
| `WorkerTheorems.ShutdownAccountsForAll` | src/spooled/worker/worker.py:316-403 | When stop has deregistered, every execution that ever entered the table is settled, lost its lease, or was replaced by a newer claim of the same job |
| `WorkerTheorems.ClosedTableShrinks` | src/spooled/worker/worker.py:405-420 | After intake closes, whatever runs on, intake stays closed and the table only loses entries |
| `WorkerTheorems.ClaimsConserved` | src/spooled/worker/worker.py:469-508 | Conservation: every job a claim returned is, exactly once, registered, still waiting in the batch, on the release path, or dropped by a broken submit; nothing is dropped unless the worker is threaded and stop cut its wait and closed intake |
| `WorkerDrop.DropsExactlyWhenSubmitBreaks` | src/spooled/worker/worker.py:522-528 | A step drops claims if and only if it is a submit that finds the executor gone after it saw one, with jobs left in its batch; it drops just those, and only after the wait was cut and intake closed |
| `WorkerDrop.NothingLostUnlessSubmitBroke` | src/spooled/worker/worker.py:469-508 | Over a whole run every claimed job is registered, waiting or on the release path if and only if no submit broke with jobs left in its batch |
| `WorkerDrop.DroppedIsNowhereElse` | src/spooled/worker/worker.py:611-617 | A dropped claim is neither registered, nor waiting, nor on the release path |
| `WorkerDrop.DroppedIsNeverAcked` | src/spooled/worker/worker.py:611-642 | No step of the worker sends an ack for a dropped claim |
| `WorkerDrop.DropIsReachable` | src/spooled/worker/worker.py:377-380 | For every threaded worker with at least two slots, a reachable state in which the second job of a batch is dropped while its lease is live |
| `WorkerDrop.DropsExactlyWithBatches` | src/spooled/worker/worker.py:448-508 | A state with a dropped claim is reachable if and only if the worker is threaded and has at least two slots |
| `WorkerTheorems.ReleasedUnderItsHolder` | src/spooled/worker/worker.py:611-642 | Every released job is failed under the worker id that holds its lease, also after stop cleared the current id, so the server acts on it whenever the lease is current |
| `WorkerTheorems.NoClaimAfterStop` | src/spooled/worker/worker.py:443-484 | From the moment the state leaves running, no run contains a new claim |
| `WorkerTheorems.HandOff` | src/spooled/worker/worker.py:422-441 | If stop did not cut its wait for the claim in flight, then from the drain on every job ever returned is registered and none is released |
| `WorkerTheorems.ReleaseNeedsCutWait` | src/spooled/worker/worker.py:486-508 | The release path is reached only after stop cut that wait and closed intake |
| `WorkerTheorems.SlotsConserved` | src/spooled/worker/worker.py:448-502 | Registered jobs plus the claims still to be registered never exceed concurrency; the counter is the number of executions marked abandoned |
| `WorkerTheorems.ClampNeverActs` | src/spooled/worker/worker.py:761-774 | The max(0, ...) in the cleanup never changes a value |
| `WorkerTheorems.StepKeepsInv` | src/spooled/worker/worker.py:586-806 | Every step of every thread, of stop and of the server keeps the whole inductive invariant (settlement, table, stop, poll, counter, claims, releases, truth) |
| `WorkerSettlement.AckKeeps` | src/spooled/worker/worker.py:644-759 | An ack step of the handler, the timer or stop keeps: one grantee, calls only by it, events matching the call |
| `WorkerShutdown.TableLocalKeeps` | src/spooled/worker/worker.py:761-806 | A locked section on one execution that removes it only when accounted for keeps: the table names the newest execution of each job, and nothing owed leaves it |
| `WorkerShutdown.RegisterKeeps` | src/spooled/worker/worker.py:486-502 | Registering a claim of an id already in the table accounts the displaced execution as replaced, and forgets no other |
| `WorkerIntake.KeepsClaims` | src/spooled/worker/worker.py:443-508 | Every step conserves the multiset of delivered claims, their distinct leases and their holder |
| `WorkerTruth.KeepsTruth` | src/spooled/worker/worker.py:666-806 | Every step keeps what the worker reports in agreement with the server |
| `AckAnswers.AnswersAreFenced` | src/spooled/errors.py:128-135 | Of all HTTP answers exactly a 409 whose body carries the lease code, in any case of letters, is read as a lost lease, and exactly another 409 whose message or text body says so anywhere in any case, to complete only, as already completed |
| `AckAnswers.AnswersAreTrue` | src/spooled/worker/worker.py:685-695 | Read so, an answer of the lease server enables the protocol step it stands for, and what that step reports is true of the server: the lease is gone, the job is completed (an accepted complete included), or the fail acted with the reported will_retry |
| `AckAnswers.AnswersAreReported` | src/spooled/worker/worker.py:685-759 | The step taken for an answer emits the completed or failed event exactly when the ack had its effect, goes on to lose the lease exactly for the lease code, and otherwise only ends the ack |
| `WorkerLeak.LeaksExactlyWhenHandlerBack` | src/spooled/worker/worker.py:586-609 | A step leaves an execution leaked if and only if it was, or it is the last section of the abandonment and the handler has ended |
| `WorkerLeak.LeakIsForever` | src/spooled/worker/worker.py:761-774 | No run clears a leak |
| `WorkerLeak.CounterCounts` | src/spooled/worker/worker.py:594-609 | The counter is the abandoned handlers still running plus the leaks |
| `WorkerLeak.CounterExactUnlessLateClose` | src/spooled/worker/worker.py:586-609 | At the end of a whole run the counter is the number of abandoned handlers still running if and only if no abandonment's last section ran after its handler had ended |
| `WorkerLeak.LeaksStopPolling` | src/spooled/worker/worker.py:448-456 | With as many leaks as slots no run claims again, although no handler may be running |
| `WorkerLeak.LeakIsReachable` | src/spooled/worker/worker.py:586-609 | For every threaded worker with a slot, a reachable running state with an empty table, no handler running and one slot counted as taken |
| `WorkerLeak.LeaksExactlyWhenThreaded` | src/spooled/worker/worker.py:586-609 | A state with a leak is reachable if and only if the worker is threaded and has at least one slot |
| `WorkerObject.SpooledWorker.EnterPoll` | src/spooled/worker/worker.py:443-462 | Claims exactly when running with a free slot; counts the poll in flight and returns the id and limit to claim with |
| `WorkerObject.SpooledWorker.Admit` | src/spooled/worker/worker.py:486-502 | Refuses exactly when intake is closed; otherwise the job object enters the table in place of any older execution of the id, nothing else changes |
| `WorkerObject.SpooledWorker.ClaimSettlement` | src/spooled/worker/worker.py:644-664 | Refines the atomic settlement step of the protocol on the shared job object |
| `WorkerObject.SpooledWorker.CleanupJob` | src/spooled/worker/worker.py:761-774 | Refines the cleanup step: identity of the table entry, mark and counter |
| `WorkerObject.SpooledWorker.FinishAbandon` | src/spooled/worker/worker.py:594-609 | Refines the last section of the abandonment |
| `WorkerObject.SpooledWorker.LoseLease` | src/spooled/worker/worker.py:776-806 | Refines the lease-loss step; true only for the first loss |
| `WorkerObject.SpooledWorker.MayBeat` | src/spooled/worker/worker.py:813-825 | A due heartbeat is sent exactly when the execution is live: it owns its slot, is unsettled, has its lease and a worker id |
| `Errors.RetryableStatuses` | src/spooled/errors.py:436-540 | Exactly which statuses, quota answers included, yield a retryable error, and that only a non-quota 429 yields a rate limit that may be retried |
| `Errors.StatusRoundTrip` | src/spooled/errors.py:436-540 | The error made from an answer carries the status of the answer; it is of the general class exactly for the statuses without a class of their own; a rate limit waits for the header or 60 seconds |
| `Errors.QuotaAnswers` | src/spooled/errors.py:419-433 | A 429 is a plan limit when its code says so in any case of letters; otherwise never with a Retry-After header or without a JSON body, and else by its body |
| `Retry.UnsafeRetriesOnlyRateLimits` | src/spooled/utils/retry.py:19-51 | A non-idempotent call is retried if and only if attempts remain and the error is a non-quota rate limit; an idempotent one if and only if the error counts |
| `Retry.BackoffGrows` | src/spooled/utils/retry.py:54-73 | Backoff starts at the base delay, never shrinks and stays within its cap |
| `Retry.BackoffMultiplies` | src/spooled/utils/retry.py:54-73 | Each backoff is the one before times the factor, up to the cap |
| `Retry.CalculateDelay` | src/spooled/utils/retry.py:54-73 | A Retry-After is honoured up to the cap; otherwise the delay is the backoff lengthened by at most a quarter |
| `CircuitBreakers.CircuitBreaker.RecordFailure` | src/spooled/utils/circuit_breaker.py:84-102 | The object takes the step of the three-phase machine for a failure; a non-retryable error changes nothing |
| `CircuitBreakers.CircuitBreaker.RecordSuccess` | src/spooled/utils/circuit_breaker.py:68-82 | The object takes the step of the three-phase machine for a success |
| `CircuitBreakers.CircuitBreaker.GetState` | src/spooled/utils/circuit_breaker.py:43-57 | The query itself moves OPEN to HALF_OPEN after the timeout |
| `CircuitBreakers.ClosedWhileBelowThreshold` | src/spooled/utils/circuit_breaker.py:84-102 | From a cleared breaker with no success, close or reset since: CLOSED with count k if and only if k counted failures, k below the threshold |
| `CircuitBreakers.ClosedWasCleared` | src/spooled/utils/circuit_breaker.py:68-110 | The converse over histories: a CLOSED breaker has such a clearing point, and its count is the counted failures since |
| `CircuitBreakers.OpenIsLeftOnlyAfterTimeout` | src/spooled/utils/circuit_breaker.py:48-57 | OPEN is left if and only if by a reset or by a query at least the timeout after the latest counted failure of the history |
| `CircuitBreakers.HalfOpenUntilEnoughSuccesses` | src/spooled/utils/circuit_breaker.py:68-82 | HALF_OPEN closes exactly at the success_threshold-th success with no counted failure between |
| `CircuitBreakers.HalfOpenWasQueried` | src/spooled/utils/circuit_breaker.py:48-82 | The converse: a HALF_OPEN breaker was entered by a query of an OPEN one and has seen exactly its count of successes since |
| `CircuitBreakers.DisabledNeverOpens` | src/spooled/utils/circuit_breaker.py:59-89 | A disabled breaker stays closed through every history |
| `HttpClients.HttpClient.ExecuteRequest` | src/spooled/utils/http.py:180-287 | At most two sends, the second only after a 401, only when refresh is allowed and this thread is not refreshing; the result is what the last answer means.  Alone: the first send carries the current token, the second the newly minted one, and a 401 is not replayed only when no token was minted |
| `HttpClients.HttpClient.TryRefreshToken` | src/spooled/utils/http.py:155-174 | Leaves the lock and the thread's mark free again; sends nothing of the outer request; nests at most one request's worth of sends; a token that changed before the lock is kept without a refresh; otherwise true means the token of the last refresh answer is installed, and false that none came; alone, false leaves the token unchanged |
| `HttpClients.HttpClient.RefreshAccessToken` | src/spooled/client.py:471-483 | Re-enters the engine at depth zero, which cannot nest again; true means the token of the last answer is installed, false that no answer brought one, and alone the token is then unchanged; the exchange is sent again only after a rate limit or a 401, and rate limits are retried to the end of the budget |
| `HttpClients.HttpClient.Attempt` | src/spooled/utils/circuit_breaker.py:112-125 | The breaker around one execution.  Alone: nothing is sent if and only if the breaker refuses, and then nothing is recorded; otherwise the outcome returned is the one recorded |
| `HttpClients.HttpClient.WithRetry` | src/spooled/utils/retry.py:76-123 | Own sends, nested sends and total sleep are bounded by the retry limit; the wait after the n-th turn is the Retry-After of its answer up to the cap, or the n-th backoff and at most a quarter; gives up on an answer that may be retried only after max_retries+1 sends or when the breaker refuses; the code after the loop is unreachable; a call whose every attempt fails on a closed breaker with f counted failures makes exactly min(max_retries+1, threshold-f) sends and ends in CircuitBreakerOpenError if and only if threshold-f is at most max_retries |
| `HttpClients.HttpClient.Request` | src/spooled/utils/http.py:289-350 | Terminates; a POST or PATCH without a key, or a call declared not idempotent, is sent again only after a 401 or a non-quota 429; any other call is retried on every transient answer to the end of its budget (`HttpClients.ReplayedCalls` says which is which); at most (max_retries+1)(max_retries+3) sends, nested refresh included; refresh depth at most one |
| `HttpClients.TurnEnds` | src/spooled/utils/retry.py:99-118 | A turn that does not lead to another closes the account of the request: safe replays, send bounds, sleep bound |
| `HttpClients.TurnExtends` | src/spooled/utils/retry.py:99-118 | A turn that leads to another keeps the account: every reply so far allowed a further send |
| `HttpClients.TurnGoesOn` | src/spooled/utils/retry.py:99-118 | An attempt that failed and may be retried is a turn whose every reply allows another send |
| `HttpClients.RequestBounds` | src/spooled/utils/http.py:318-350 | The send bound is (max_retries+1)(max_retries+3); own waits are at most max_retries, and those of nested refreshes at most (max_retries+1) max_retries, each of at most 1.25 times max_delay |
| `HttpClients.ReplayedCalls` | src/spooled/utils/http.py:29-53 | A call is replayable if and only if the caller says so or, when the caller says nothing, its verb is GET, HEAD, PUT, DELETE or OPTIONS in any case of letters, or it carries a nonempty Idempotency-Key header in any case of letters or a body key; a POST or PATCH without a key never is |
| `HttpClients.RetriedAnswers` | src/spooled/utils/retry.py:19-51 | In terms of answers: exactly a timeout, no connection, 408, 5xx, a rate limit or an unreadable success counts and is retried when the call may be replayed; otherwise exactly a rate limit is |
| `TokenRefresh.OneRefreshPerToken` | src/spooled/utils/http.py:155-174 | In every run of any number of threads: each successful 401 refresh replaced a token some request was sent with and got 401 for, and each token is replaced by at most one refresh |
| `TokenRefresh.NeverWaitsForItself` | src/spooled/utils/http.py:155-174 | The thread holding the refresh lock never asks for it again; no two threads hold it |
| `TokenRefresh.RefreshesRejectedToken` | src/spooled/utils/http.py:155-174 | A thread that saw a 401 goes on to refresh if and only if the token it read first is still the current one, and that token was rejected |
| `TokenRefresh.LateThreadReplays` | src/spooled/utils/http.py:198-260 | A thread that finds the token replaced releases the lock with token and exchanges unchanged, whatever the others do between its steps, and then replays its request with that token, once; a proactive refresh ends there |
| `TokenRefresh.RejectedThreadReplays` | src/spooled/utils/http.py:240-260 | A thread that got 401 with the current token and finds the lock free can refresh and replay: the newly minted token is installed, the lock and the mark are free, and the request is sent once more with that token; a further 401 ends it |
| `TokenRefresh.FailedRefreshEnds` | src/spooled/utils/http.py:164-174 | After a failed refresh, whatever the others do meanwhile, the request ends without another send, with token and exchanges unchanged and the lock free |
| `TokenRefresh.NewerTokenIsNotRefreshed` | src/spooled/utils/http.py:198-199 | A request sent with a newer token than it read first is replayed with that token after its 401, and nothing is refreshed |
| `TokenRefresh.NewerTokenIsReachable` | src/spooled/utils/http.py:198-199 | From any start with two threads, a run in which one of them refreshes between the two reads of the other |
| `SseClients.SseClient.ReadFrame` | src/spooled/realtime/sse.py:471-489 | Only a delivered event restores the budget; the frame leaves the stream exactly once; a terminal event of a job stream marks it finished |
| `SseClients.SseClient.Reconnect` | src/spooled/realtime/sse.py:501-531 | Spends one attempt and its doubled delay per dial; False exactly when no attempt may be made; raises only when the budget is spent or the rejection is final, and dials no more after a final rejection |
| `SseClients.SseClient.Pass` | src/spooled/realtime/sse.py:467-499 | One round of the generator; also when _reconnect raises inside the try, the budget is spent once |
| `SseClients.SseClient.NextEvent` | src/spooled/realtime/sse.py:448-499 | For every server: between two delivered events at most max_reconnect_attempts dials and their doubled delays; no frame is skipped or delivered twice; gives up only when closed, finished, disabled, spent or finally rejected; a final rejection is raised and no dial follows it; stays in the call for ever if and only if it reaches a stream that sends frames without events and never ends |
| `SseClients.SseClient.Consume` | src/spooled/realtime/sse.py:448-499 | Over a whole iteration: dials and sleep within one budget per delivered event plus one |
| `SseClients.SseClient.Connect` | src/spooled/realtime/sse.py:355-369 | Only an explicit connect of a client that is not connected restores the budget |
| `SseClients.WaitedWithinBudget` | src/spooled/realtime/sse.py:508-517 | However a budget is spent, the sleeps add up to at most reconnect_delay times (2^max - 1) |
| `SseClients.WaitedInClosedForm` | src/spooled/realtime/sse.py:508-517 | The sleeps of attempts a to b add up to reconnect_delay times (2^b - 2^a) |
| `SseClients.FinalAnswers` | src/spooled/realtime/sse.py:493-499 | The answers to a dial that end the generator at once are exactly all but 408, 5xx and a rate limit; a timeout or a broken connection never does |
| `SseClients.TerminalStatuses` | src/spooled/realtime/sse.py:40-57 | Of the job statuses all end a job stream but pending, scheduled and processing; so does an error event, and no event of another type |
| `DialBudget.DialsAreEarned` | src/spooled/realtime/websocket.py:108-113 | With reports handled one at a time, in any sequence of reports and dial results: the dials scheduled are at most max_reconnect_attempts for each socket that stayed up ten seconds, plus one budget |
| `DialBudget.FlappingIsBounded` | src/spooled/realtime/websocket.py:421-475 | With reports handled one at a time, in any order and number, while no socket stays up ten seconds a run schedules at most the attempts left, failed dials included |
| `DialBudget.DialsCountFailures` | src/spooled/realtime/websocket.py:421-475 | With reports handled one at a time and no stable socket, however often a dead socket is reported: the dials are the failures, up to the budget |
| `DialBudget.GivesUpExactlyWhenSpent` | src/spooled/realtime/unified.py:745-790 | When each dead socket is reported once, before a dial for it is pending: the client is DISCONNECTED if and only if max_reconnect_attempts+1 failures happened or the unified client was rejected; a timer is pending exactly while RECONNECTING |
| `DialBudget.SecondReport` | src/spooled/realtime/unified.py:466-489 | A report leaves one timer for RECONNECTING and none for DISCONNECTED if and only if it finds no timer pending; a second report of a spent budget leaves DISCONNECTED with a dial that can connect again |
| `DialBudget.TwoReportsOfOneSocket` | src/spooled/realtime/unified.py:466-489 | With one attempt allowed, two reports of one dead socket end DISCONNECTED with a timer pending, which then connects |
| `DialRaces.OverlapBound` | src/spooled/realtime/websocket.py:421-436 | In any interleaving of the steps of at most n reports at a time, reading and clearing the uptime apart: a stable socket restores the budget at most n times, and the dials are at most max_reconnect_attempts + n - 1 for each time, plus the attempts counted since |
| `DialRaces.EachSocketPays` | src/spooled/realtime/websocket.py:108-113 | No socket restores the budget more often than reports were handled at a time, and a socket whose uptime can still be read has not restored it yet |
| `DialRaces.OneSocketPaysTwice` | src/spooled/realtime/websocket.py:108-113 | Two overlapping reports of one stable socket can both restore the budget, each paying for a dial |
| `DialRaces.AloneStaysInBudget` | src/spooled/realtime/websocket.py:421-436 | With one report at a time the attempts never exceed the budget and each stable socket restores it at most once |
| `DialRaces.OverlapExceeds` | src/spooled/realtime/websocket.py:421-436 | From any state with one attempt left, n overlapping reports can schedule n dials, for every n: the bound is reached |
| `DialRaces.AloneIsAfterDrop` | src/spooled/realtime/unified.py:745-774 | Handled alone, the steps of a report are the atomic step of the budget |
| `DialBudget.DelayBounds` | src/spooled/realtime/websocket.py:434-446 | Delays start at the configured one, never shrink before jitter, and never exceed 1.25 times the maximum |
| `DialBudget.DelayDoubles` | src/spooled/realtime/websocket.py:434-446 | Each delay is twice the one before, up to the maximum |
| `DialBudget.UptimeDecides` | src/spooled/realtime/websocket.py:98-113 | In both clients a socket opened by an automatic reconnect restores the budget if and only if it is up for ten seconds before it drops; timers that fire meanwhile on the unified client do not change that |
| `WebSocketClients.WebSocketClient.HandleDisconnect` | src/spooled/realtime/websocket.py:421-446 | The object takes the budget step for a report; a new timer's delay is within 1.25 times the maximum; pending timers and the table are kept |
| `WebSocketClients.WebSocketClient.ScheduleReconnect` | src/spooled/realtime/websocket.py:434-475 | One more attempt and one more timer, beside those pending |
| `WebSocketClients.WebSocketClient.DoReconnect` | src/spooled/realtime/websocket.py:453-475 | The object takes the budget step for a dial; a dial that opens a socket is CONNECTED with its uptime clock started at that moment and the attempts unchanged, and the server filters by exactly the table |
| `WebSocketClients.WebSocketClient.Connect` | src/spooled/realtime/websocket.py:249-281 | A connect that opens a socket resubscribes the whole table |
| `WebSocketClients.WebSocketClient.ResubscribeAll` | src/spooled/realtime/websocket.py:477-483 | From a fresh socket, the live filters become exactly the table |
| `WebSocketClients.WebSocketClient.Subscribe` | src/spooled/realtime/websocket.py:316-331 | Keeps the agreement; a known filter changes nothing |
| `WebSocketClients.WebSocketClient.Unsubscribe` | src/spooled/realtime/unified.py:366-381 | Keeps the agreement if and only if no remaining filter is the same on the wire |
| `WebSocketClients.WebSocketClient.Disconnect` | src/spooled/realtime/websocket.py:295-314 | Restores the budget; cancels the latest timer and no other; the table is cleared by WebSocketClient and retained by the unified client |
| `Subscriptions.UnsubscribeOnWire` | src/spooled/realtime/events.py:135-158 | Removing a filter removes exactly its wire form if and only if no other table entry shares it |
| `Subscriptions.CleanIsDistinguishable` | src/spooled/realtime/events.py:135-158 | Filters without empty-string fields are never confused on the wire |
| `Subscriptions.SameOnWire` | src/spooled/realtime/events.py:135-158 | Two filters are the same on the wire exactly when each field is equal or both are empty or absent |
| `SubscriptionSafety.SafeExactlyBetweenDials` | src/spooled/realtime/unified.py:343-381 | From any state that calls started between dials lead to, with no call under way: every continuation without a new dial that settles connected has exactly the table live, if and only if no dial is in progress other than over an empty table, or the client cannot become connected without a new dial |
| `SubscriptionRaces.CalmAgreement` | src/spooled/realtime/websocket.py:477-497 | In every interleaving with any number of dials, drops and failures, dials that start during a call included: when calls start with no dial in progress, no dial starts during a disconnect that clears the table, and no field is the empty string, every settled connected state has exactly the table live, which is the filters subscribed and not unsubscribed or forgotten since |
| `SubscriptionRaces.TableIsWanted` | src/spooled/realtime/websocket.py:316-348 | In every run the table is the filters subscribed and not unsubscribed or forgotten since |
| `SubscriptionRaces.RunKeepsInv` | src/spooled/realtime/websocket.py:249-348 | Every step keeps: nothing extra live but a pending unsubscribe, nothing missing but what a pending subscribe or a dial still sends |
| `SubscriptionSafety.DrainDial` | src/spooled/realtime/unified.py:439-468 | Every undisturbed dial can run to its end by itself, leaving table, calls and the other dials alone |
| `SubscriptionSafety.IteratingDisagrees` | src/spooled/realtime/websocket.py:477-483 | From a running resubscription over a table that was not empty, two calls can end connected with the server filtering by a filter that is not in the table |
| `SubscriptionSafety.EarlySendCanDisagree` | src/spooled/realtime/unified.py:343-381 | One unsubscribe that starts while a dial has opened its socket and reads CONNECTING, after a subscribe whose send reached that socket early, ends in disagreement |
| `SubscriptionSafety.DialDuringDisconnectDisagrees` | src/spooled/realtime/websocket.py:295-314 | From every state of WebSocketClient that calm calls lead to, idle, with no dial and a filter in the table: a dial that starts during disconnect can resubscribe before the table is cleared, and ends with the whole old table live and an empty table |
| `EventQueues.EventQueue.Dispatch` | src/spooled/realtime/unified.py:682-696 | With the consumer taking any number of events between any two steps: the new event always gets in, at most one oldest event is lost and only when the queue was full, contents stay a suffix of the dispatched events within capacity |
| `EventQueues.EventQueue.ReceiveLoop` | src/spooled/realtime/unified.py:476-492 | Every event is dispatched in order; nothing is lost while there is room |
| `EventQueues.EventQueue.Take` | src/spooled/realtime/unified.py:401-415 | The consumer gets the oldest event, once |
| `EventQueues.EventQueue.InOrderWithoutDuplicates` | src/spooled/realtime/unified.py:401-415 | In every state of the queue, delivered events followed by the queued ones embed in order, without duplicates, in the dispatched ones |
| `EventQueues.QueueFollows` | src/spooled/realtime/unified.py:682-696 | Delivered events followed by the queued ones are an in-order subsequence of the dispatched ones without duplicates |
| `Casing.SnakeIsLocalRule` | src/spooled/utils/casing.py:31-36 | The two regex passes, leftmost and greedy with backtracking, equal one local rule: an underscore before an upper-case letter exactly when it follows a lower-case letter or digit, or lies between an upper-case and a lower-case letter; then lower-case |
| `Casing.BoundaryByCharacters` | src/spooled/utils/casing.py:31-36 | The local rule character by character: before a capital that follows a-z or 0-9, or that follows a capital and precedes a-z |
| `Casing.TitleByCharacters` | src/spooled/utils/casing.py:39-42 | str.title makes exactly the letters that follow no letter capital, and the others small |
| `Casing.SnakeFixedPoints` | src/spooled/utils/casing.py:31-36 | to_snake_case is idempotent and fixes exactly the strings without capitals |
| `Casing.CamelRoundTrip` | src/spooled/utils/casing.py:31-42 | For words of a-z joined by underscores, snake to camel to snake is the identity if and only if no two adjacent words after the first are both single letters |
| `Casing.SplitJoin` | src/spooled/utils/casing.py:39-42 | Splitting at underscores inverts joining for nonempty words |
| `KeyConversion.ConvertKeys` | src/spooled/utils/casing.py:45-73 | The loop that fills the result dictionary computes the recursive conversion, collisions included, and its result is a conversion of the input in the sense of `KeyConversion.ConversionIsRight` |
| `KeyConversion.ConversionIsRight` | src/spooled/utils/casing.py:45-73 | Without naming the conversion: scalars are unchanged, arrays keep length and places, an object has each converted key once with the value of the last entry of that name, unchanged under a protected name and converted under any other; no key reached without passing a protected name has a capital |
| `KeyConversion.OpaqueIsProtected` | src/spooled/utils/casing.py:14-28 | A key is opaque if and only if its converted name is one of the nine protected names |
| `KeyConversion.LastEntryWins` | src/spooled/utils/casing.py:57-70 | Of colliding keys the last one decides the value |
| `KeyConversion.OpaqueValueUnchanged` | src/spooled/utils/casing.py:14-28 | A value under an opaque key is sent as it is if and only if the last entry whose key converts to the same name carries that value |
| `KeyConversion.SkipClosed` | src/spooled/utils/casing.py:14-28 | The opaque keys are closed under to_snake_case |
| `KeyConversion.ConversionIdempotent` | src/spooled/utils/casing.py:76-86 | convert_request is idempotent on every JSON tree, colliding keys and opaque subtrees included |

## Left out

- The server beyond its lease rules: claim order, quotas and scheduling.  A lease may expire at any time, and a message once sent may act once, later or never.
- Sockets, HTTP transport, JSON and base64 decoding, header and date parsing: each is an arbitrary answer.
- A thread or timer that cannot be started.
- Waiting: condition waits and timers are steps that may happen at any time, so no property here bounds how long `stop` or a drain takes.
- `stop` running as a signal handler inside a locked section of the poll thread; only its early return from the wait is kept.
- Legacy jobs without a lease id, handlers that raise `BaseException`, and cancellation of asyncio tasks from outside.
- The worker's own heartbeat, registration and event handlers supplied by the user.
- `AsyncHttpClient` as an object: the same loop with awaits; its refresh protocol is the one of `TokenRefresh`, with tasks for threads.
- Tokens set by the user while a refresh runs, `get_jwt_token` and the timed refresh of static tokens.
- `AsyncSSEClient`, `AsyncWebSocketClient` and the SSE half of `SpooledRealtime`.
- SSE streams with endlessly many events: up to any number of events taken, such a stream is a long one.
- SSE: `close` during a reopen, `reconnect` between two events, and user handlers.  The second look at `_closed` after a sleep cannot differ with one thread.
- `WebSocketClients.WebSocketClient.DoReconnect`: as an object it runs alone; what other threads do between its steps is in `SubscriptionRaces` and `DialRaces`.
- `SubscriptionSafety.SafeExactlyBetweenDials`: the calls come from one thread.
- `DialRaces.OverlapBound`: the increment of the attempt counter is one step; two increments that read the same value are not modelled.
- `EventQueues.EventQueue.Dispatch`: one producer, as the receive thread is the only one while it runs.
- `HttpClients.HttpClient.WithRetry`: the exact count of sends is stated for a single caller whose waits are shorter than the breaker timeout.
- `HttpClients.HttpClient.ExecuteRequest`: which token a send carries is stated for a single caller; with other threads `TokenRefresh` has it.
- `Casing.CamelRoundTrip`: components of a-z only, as digits and capitals do not come back.
- Response conversion to snake case, query parameters, resource wrappers, the gRPC client and Unicode casing.
