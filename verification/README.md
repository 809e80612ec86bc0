# kurlyk: a verified model of its schedulers

kurlyk is a C++ client library for HTTP and WebSocket. This project models, in Dafny, the parts of it in
which concurrency, retries and shared limits meet, and proves what they guarantee:

- **The HTTP request manager.** Requests travel from the pending list to a live handler in a batch, to the
  batch's own retry list, to the manager's retry list and back, carrying a sequential token, a group count and
  one final callback. `ManagerSteps` is the transition system: a step is one mutex-protected critical section,
  one callback delivery or one move of worker-private data, and the phases of `shutdown()` are steps of their
  own. libcurl is an environment that reports chunks and at most one end per transfer. `ManagerConservation`,
  `ManagerPlaces`, `ManagerEffects`, `ManagerTraces`, `ManagerGroups` and `ManagerLimits` prove one part of the
  invariant each. `ManagerTheorems`, `ManagerProgress`, `ManagerShutdown`, `ManagerCancel`,
  `ManagerAttempts` and `ManagerRetries` state the results over all reachable states and runs, and `ManagerRates` carries the
  limiter's results over to runs of the manager.
  `HttpRequestManager` and `HttpBatchRequestHandler` hold the objects with their in-place loops, proved against
  the functions the transition system is made of.
- **The HTTP rate limiter.** `RateWindow` is the fixed-window automaton of one (limit, key); `RateLimiter` the
  limit table; `HttpRateLimiter` the object; `LimiterRuns` compares whole runs, with lazily created and collected
  key state and reference-counted limits, to a product of immortal automata; `LimiterDelay` relates the delay
  query to admission.
- **The WebSocket client.** `WebSocketFsm` is the five-state machine with its queue, `WebSocketLiveness` its
  shutdown and reconnection, `WebSocketReports` what it reports and answers, `WebSocketClient` the object.
- **The worker's wake-up protocol.** `WorkerProtocol` is the notify/wait loop with any number of callers,
  `NetworkWorker` the shared object, and `WorkerShutdown` relates stopping the worker to what its managers have to
  shut down.
- **The Base64url codec** (sections 3.5 and 5 of RFC 4648). `Base64Url`.

Time is a natural number of nanoseconds that never goes back; millisecond and second durations truncate as
`duration_cast` does. Ids, tokens and counters are unbounded. `dafny verify dfyconfig.toml` checks everything.

The objects `HttpRateLimiter`, `HttpRequestManager`, `HttpRequestHandler`, `HttpBatchRequestHandler`,
`HttpRequestContext`, `HttpRateLimitHandle`, `WebSocketClient` and `NetworkWorker` have methods for the critical
sections, state handlers and loops of the source, each with its whole new state as its contract; the table below
lists only their loops and the admission.

Some promises fail for some inputs; the model keeps the code as it is, shows a run, and gives the exact condition:

- The delay query agrees with admission if and only if the limit counts nothing or its period is a whole number of
  query ticks (`LimiterDelay.ExactUnits`, `LimiterDelay.SecondsReportTooEarly`).
- Shutdown of a WebSocket client ends if and only if, in the turn that consumes its disconnect, the client is not
  stopped with its running flag set and not about to redial with success (`WebSocketLiveness.ShutdownEndsIffDrainable`;
  `WebSocketLiveness.StoppedWhileRunning` and `WebSocketLiveness.LostIsReachable` reach the two failing kinds).
- `NetworkWorker::stop` therefore returns if and only if every WebSocket client is drainable in that turn
  (`WorkerShutdown.StopReturnsIffClientsDrain`, `WorkerShutdown.StopCanHang`).
- A disconnect acknowledged while reconnecting holds if and only if no redial is due at that moment
  (`WebSocketLiveness.DisconnectHoldsIffNoRedialDue`, `WebSocketLiveness.DisconnectIsUndone`).
- When the request manager shuts down, a request gets its final callback if and only if it was not parked in the
  own retry list of a batch (`ManagerShutdown.StrandedIffParked`, `ManagerShutdown.ShutdownStrandsParked`).
- Cancellation gives a live, matching request its final callback if and only if the request is not parked in the own
  retry list of a batch (`ManagerCancel.CancelPassResolves`, `ManagerCancel.CancelMissesParked`).
- `stop` leaves a task behind if and only if the task was pushed after the worker's last look
  (`WorkerProtocol.StopLeavesLaterTasks`, `WorkerProtocol.TaskIsLeftBehind`).

Where the documentation says more than the code does, the model follows the code. The limit handle is documented
to remove its entry physically when the last copy dies; the code only marks an entry that still has key state,
and a later collection pass erases it (`LimiterRuns.GcErasesDeadLimits`). The Base64url decoder
is documented for text without padding and also reads padded text.

## Model

| member | source | states |
|---|---|---|
| ManagerTheorems.ReachableInv | include/kurlyk/http/HttpRequestManager.hpp:294-317 | every state reached by any interleaving of client calls, worker passes and the phases of shutdown satisfies the whole invariant: conservation, placement, phases, traces, group counts, waiters, token ownership, limit service, window dates |
| ManagerTheorems.StepInv | include/kurlyk/http/HttpRequestManager.hpp:401-672 | each critical section, callback delivery and worker move keeps that invariant |
| ManagerTheorems.RequestsAreConserved | include/kurlyk/http/HttpRequestManager.hpp:401-559 | between passes each submitted and uncompleted request is in exactly one of pending list, live handler, batch-local retry list and manager retry list, and these hold nothing else |
| ManagerTheorems.UnloadedMeansDone | include/kurlyk/http/HttpRequestManager.hpp:321-330 | `is_loaded()` false between passes implies that every submitted request has had its final callback |
| ManagerTheorems.LoadIsExact | include/kurlyk/http/HttpRequestManager.hpp:321-330 | between passes `is_loaded()` is true exactly when a request is live, a batch is kept or a cancel order waits |
| ManagerTheorems.GroupCountsAreExact | include/kurlyk/http/HttpRequestManager.hpp:66-89 | in every reachable state the stored count of a group is the number of its uncompleted requests, and no zero is stored |
| ManagerTheorems.SequentialTokensAreExact | include/kurlyk/http/HttpRequestManager.hpp:445-475 | a sequential (limit, key) token set holds at most one token, and holds t exactly while the request of t has been admitted through that limit and key and not completed |
| ManagerTheorems.OwnersExcludeOthers | include/kurlyk/http/HttpRequestManager/HttpRateLimiter.hpp:448-464 | while a request owns a sequential (limit, key), no other request naming it passes admission, at any time |
| ManagerTheorems.OwnershipLasts | include/kurlyk/http/HttpRequestManager.hpp:452-472 | retries, denied retries and cancellation keep ownership; only the release that follows the request's own final callback ends it |
| ManagerTheorems.TransfersAreExclusive | include/kurlyk/http/HttpRequestManager.hpp:427-476 | no two running transfers name the same sequential (limit, key) |
| ManagerTheorems.WaitersResolveOnce | include/kurlyk/http/HttpRequestManager.hpp:216-255 | every registered waiter is stored, fired or withdrawn, exactly once in all; a stored one has outstanding requests in its group; the idle sweep finds nothing |
| ManagerTheorems.WaitersFireWhenIdle | include/kurlyk/http/HttpRequestManager.hpp:401-424 | before shutdown a waiter fires only in a step that leaves its group without requests |
| ManagerTheorems.WaitingIsStored | include/kurlyk/http/HttpRequestManager.hpp:216-234 | waiting for a group with outstanding requests stores exactly one new waiter, under that group, and waiting for any other group none |
| ManagerTheorems.ChunksAreStreamed | include/kurlyk/http/HttpRequestManager/HttpRequestHandler.hpp:207-213 | chunks are delivered to streaming requests only |
| ManagerTheorems.PendingIsQueue | include/kurlyk/http/HttpRequestManager.hpp:47-90 | outside the pending pass, cancellation and shutdown the pending list only grows, at its end |
| ManagerTheorems.SubmissionsKeepLimit | include/kurlyk/http/HttpRequestManager.hpp:47-60 | whatever is interleaved, a submission leaves the pending list no longer than the limit set when it was accepted |
| ManagerTheorems.CallbacksFollowGrammar | include/kurlyk/http/HttpRequestManager/HttpRequestHandler.hpp:68-120 | the callbacks of any submitted request are a prefix of Retry^k Chunk* Final, with k at most max(0, retry_attempts - 1), retries numbered 1..k, chunks numbered k + 1, nothing after Final, and Final present exactly when no completion is awaited |
| ManagerTheorems.ShutdownStrandsNothing | include/kurlyk/http/HttpRequestManager.hpp:308-317 | after shutdown returned, whatever was interleaved, pending list, retry list, batches and the waiter map are empty and no completion is under way |
| ManagerShutdown.StrandedIffParked | include/kurlyk/http/HttpRequestManager.hpp:308-317 | over every run from the call of shutdown to its return, a request has its one final callback if and only if it was not parked in the own retry list of a batch when shutdown was called |
| ManagerShutdown.ShutdownStrandsParked | include/kurlyk/http/HttpRequestManager/HttpBatchRequestHandler.hpp:195-198 | a run from the start that strands one: of two transfers in a batch, one parked for its retry, only the other gets its final callback |
| ManagerShutdown.ShutdownCompletes | include/kurlyk/http/HttpRequestManager.hpp:308-317 | from every shutting state with the mutex free the worker alone can bring the manager down |
| ManagerCancel.CancelPassResolves | include/kurlyk/http/HttpRequestManager.hpp:562-605 | over every cancellation pass, whatever clients do meanwhile, the live requests that have had their final callback at its end are exactly those that match an order and are not parked in the own retry list of a batch |
| ManagerCancel.GroupOrderCancels | include/kurlyk/http/HttpRequestManager.hpp:272-290 | after a group is cancelled and the next pass has ended, whatever happened meanwhile, every request of the group that was live and not parked in a batch has had its final callback |
| ManagerCancel.IdOrderCancels | include/kurlyk/http/HttpRequestManager.hpp:260-268 | likewise for the requests with a cancelled request id |
| ManagerCancel.UnorderedSurvives | include/kurlyk/http/HttpRequestManager.hpp:607-617 | a request for whose id and group no order was given is still open after the pass |
| ManagerCancel.SparingKeepsOrder | include/kurlyk/http/HttpRequestManager/HttpBatchRequestHandler.hpp:157-176 | the handlers a cancellation leaves stay in order |
| ManagerCancel.CancelMissesParked | include/kurlyk/http/HttpRequestManager.hpp:562-605 | a run from the start in which a pass misses one: of two requests with the cancelled id, the one parked in a batch gets no final callback |
| ManagerCancel.CancelCompletes | include/kurlyk/http/HttpRequestManager.hpp:562-605 | from every point of a pass with the mutex free the worker alone can end it |
| ManagerCancel.CancelPassIsLoops | include/kurlyk/http/HttpRequestManager.hpp:562-605 | in whatever order the pass cancels, it leaves the retry list and each batch as the code's loops leave them, and the batches' own retry lists untouched |
| ManagerAttempts.AttemptsAreBounded | include/kurlyk/http/HttpRequestManager/HttpRequestHandler.hpp:90-119 | in every run a request is handed to libcurl at most max(1, retry_attempts) times, whether its transfers finish, are cancelled or are destroyed |
| ManagerAttempts.StartsAreAttempts | include/kurlyk/http/HttpRequestManager/HttpRequestHandler.hpp:90-119 | while its final callback is awaited, the transfers started for a request are its attempts that ended in a retry and the one in flight, if any |
| ManagerRetries.OutcomesAreAnswered | include/kurlyk/http/HttpRequestManager/HttpRequestHandler.hpp:98-119 | over every run, each outcome answered by a retry was a curl error or a status outside the valid ones with an attempt left, and a final response to a transfer answered an accepted outcome, the last allowed attempt, or one that had delivered a chunk |
| ManagerRetries.AcceptedIsFinal | include/kurlyk/http/HttpRequestManager/HttpRequestHandler.hpp:98-114 | an accepted outcome is the last one reported and ends in the final callback of its attempt |
| ManagerRetries.RetriesWait | include/kurlyk/http/HttpRequestManager.hpp:538-559 | over every run, the clock moves on by at least the retry delay between the retry callback of a request and its next transfer |
| ManagerRetries.RetryIsDue | include/kurlyk/http/HttpRequestManager.hpp:547-553 | between passes a request of the retry list may be moved if and only if its retry delay has passed since its retry callback |
| ManagerTheorems.DownIsFinal | include/kurlyk/http/HttpRequestManager.hpp:47-90 | after shutdown no step changes the lists or delivers a callback, and the waiter map stays empty |
| ManagerConservation.StepKeeps | include/kurlyk/http/HttpRequestManager.hpp:427-672 | every step moves contexts between places or swaps one for its next version; none is dropped or duplicated |
| ManagerEffects.EffectsHappen | include/kurlyk/http/HttpRequestManager.hpp:427-605 | a step changes the ledger and the completion slot by exactly one of eight effects |
| ManagerEffects.EffectsAreSound | include/kurlyk/http/HttpRequestManager.hpp:427-605 | each effect only happens to a live context in the right phase: a retry only to an admitted context without chunks and with attempts left, a final callback only when none is under way |
| ManagerTraces.TracedAfter | include/kurlyk/http/HttpRequestManager/HttpRequestHandler.hpp:68-120 | every effect keeps every callback trace inside the grammar |
| ManagerGroups.CountedAfter | include/kurlyk/http/HttpRequestManager.hpp:401-424 | submission and completion keep the stored counts equal to the group cardinalities |
| ManagerGroups.WaitedStep | include/kurlyk/http/HttpRequestManager.hpp:216-255 | every step keeps each waiter stored, fired or withdrawn once, under its own group |
| ManagerGroups.SweepFindsNothing | include/kurlyk/http/HttpRequestManager.hpp:364-384 | with waiters stored only for counted groups the idle sweep changes nothing |
| ManagerLimits.AllowTokens | include/kurlyk/http/HttpRequestManager/HttpRateLimiter.hpp:171-184 | a successful admission adds the token to exactly the sequential token sets the route names |
| ManagerLimits.SerializedStep | include/kurlyk/http/HttpRequestManager.hpp:445-475 | every step keeps token sets exact and exclusive |
| ManagerLimits.InServiceStep | include/kurlyk/http/HttpRequestManager/HttpRateLimitHandle.hpp:28-67 | every step keeps each limit that a handle, a live request or a submission refers to present and not removed |
| ManagerProgress.PendingPassProgresses | include/kurlyk/http/HttpRequestManager.hpp:427-476 | deadlock freedom: with requests pending, nothing in flight or parked, once the longest period has passed the next pending pass admits or fails at least one request, for any mix of sequential and shared limits and whatever clients do to limits and handles between the turns of the pass |
| ManagerRates.AttemptRateIsBounded | include/kurlyk/http/HttpRequestManager/HttpRateLimiter.hpp:466-512 | over every run of the manager, any half-open interval of n periods holds at most (n + 1) * requests_per_period attempts admitted through one key of a limit, retries of all requests included |
| ManagerRates.RunDrives | include/kurlyk/http/HttpRequestManager.hpp:445-475 | in every run of the manager its limiter goes through a legal limiter run whose commits are the attempts the manager admits |
| ManagerRates.StepDrives | include/kurlyk/http/HttpRequestManager.hpp:452-472 | each step asks of the limiter only operations through live handles, at a clock that does not go back |
| ManagerProgress.SomeoneIsEligible | include/kurlyk/http/HttpRequestManager/HttpRateLimiter.hpp:128-191 | in such a state some pending request owns every token it needs or no token is held |
| ManagerProgress.ShutdownIsBounded | include/kurlyk/http/HttpRequestManager.hpp:308-317 | whatever clients do, a run that has not brought the manager down has at most a bounded number of worker steps |
| ManagerProgress.ShutdownReturns | include/kurlyk/http/HttpRequestManager.hpp:308-317 | from any reachable shutting state, more worker steps than that bound bring the manager down |
| ManagerProgress.ShutdownNeverBlocks | include/kurlyk/http/HttpRequestManager.hpp:308-317 | while shutting down with the mutex free, some worker step is always enabled |
| Requests.CancelPartitions | include/kurlyk/http/HttpRequestManager.hpp:571-580 | extraction for cancellation splits the list into the matching and the other contexts, nothing lost |
| Requests.CancelKeepsOrder | include/kurlyk/http/HttpRequestManager.hpp:571-580 | both parts stay in order |
| HttpRequestManagerObject.HttpRequestManager.CancelWait | include/kurlyk/http/HttpRequestManager.hpp:240-255 | true exactly when the waiter is stored, and then exactly that entry is removed, an emptied group with it |
| HttpRequestManagerObject.HttpRequestManager.ScanPending | include/kurlyk/http/HttpRequestManager.hpp:427-476 | the pending loop keeps, fails and admits what the list specification says, with the limiter stepped in order |
| HttpRequestManagerObject.ScanListIsPass | include/kurlyk/http/HttpRequestManager.hpp:427-476 | that list specification is the whole pass of the transition system |
| HttpRequestManagerObject.HttpRequestManager.TakeCancelled | include/kurlyk/http/HttpRequestManager.hpp:562-581 | orders are taken and cleared, matching pending contexts extracted in order |
| HttpRequestManagerObject.HttpRequestManager.CancelFailedRequests | include/kurlyk/http/HttpRequestManager.hpp:587-597 | matching contexts leave the manager retry list in order |
| HttpRequestManagerObject.HttpRequestManager.ProcessRetryFailedRequests | include/kurlyk/http/HttpRequestManager.hpp:538-559 | due contexts move to the end of the pending list in order, others stay, null ones are dropped |
| HttpRequestManagerObject.RetryPassConserves | include/kurlyk/http/HttpRequestManager.hpp:538-559 | without null requests the moved and the kept contexts are a permutation of the retry list |
| HttpRequestManagerObject.DueIs | include/kurlyk/http/HttpRequestManager.hpp:547-553 | the pass moves exactly the contexts whose delay in nanoseconds has passed since their start, and keeps exactly the others |
| HttpRequestManagerObject.RetryKeepsOrder | include/kurlyk/http/HttpRequestManager.hpp:538-559 | moved and kept contexts stay in order |
| HttpRequestManagerObject.ScanKeepsOrder | include/kurlyk/http/HttpRequestManager.hpp:434-472 | requests the pending pass keeps or fails stay in order |
| HttpRequestManagerObject.HttpRequestManager.ProcessActiveRequests | include/kurlyk/http/HttpRequestManager.hpp:521-535 | finished batches leave the list and hand over their own retry lists, in order |
| HttpRequestManagerObject.ActivePassConserves | include/kurlyk/http/HttpRequestManager.hpp:521-535 | that pass loses and repeats no context |
| HttpRequestManagerObject.HttpRequestManager.TakeIdleWaiters | include/kurlyk/http/HttpRequestManager.hpp:364-377 | waiters of groups without requests are taken, the others stay |
| HttpRequestManagerObject.HttpRequestManager.NotifyAllGroupWaiters | include/kurlyk/http/HttpRequestManager.hpp:386-399 | the map is emptied and every stored waiter fired as often as it was stored |
| HttpBatchRequestHandlerObject.HttpBatchRequestHandler.Start | include/kurlyk/http/HttpRequestManager/HttpBatchRequestHandler.hpp:17-67 | without a multi handle every context is refused, otherwise exactly those without an easy handle |
| HttpBatchRequestHandlerObject.StartPartitions | include/kurlyk/http/HttpRequestManager/HttpBatchRequestHandler.hpp:37-66 | each context is started or refused, never both |
| HttpBatchRequestHandlerObject.BuildStepStarts | include/kurlyk/http/HttpRequestManager/HttpBatchRequestHandler.hpp:37-62 | one turn of that loop is the build step of the transition system |
| HttpBatchRequestHandlerObject.HttpBatchRequestHandler.CancelRequests | include/kurlyk/http/HttpRequestManager/HttpBatchRequestHandler.hpp:157-176 | the handlers left and the contexts given their final callback, both in order |
| HttpBatchRequestHandlerObject.HttpBatchRequestHandler.Process | include/kurlyk/http/HttpRequestManager/HttpBatchRequestHandler.hpp:84-118 | messages are handled in order, and when nothing runs any more the handlers are destroyed, concluding those that still owe their callback |
| HttpBatchRequestHandlerObject.DoneStepIsMessage | include/kurlyk/http/HttpRequestManager/HttpBatchRequestHandler.hpp:184-199 | handling one message is the batch part of the step of the transition system |
| ManagerCancel.CancelOrderIsFree | include/kurlyk/http/HttpRequestManager/HttpBatchRequestHandler.hpp:157-176 | cancelling matching handlers in any order leaves the same handlers as the loop |
| ManagerCancel.NothingToCancel | include/kurlyk/http/HttpRequestManager/HttpBatchRequestHandler.hpp:157-176 | the loop leaves all handlers exactly when none matches |
| LimiterRuns.CollectionIsUnobservable | include/kurlyk/http/HttpRequestManager/HttpRateLimiter.hpp:585-613 | for every legal operation sequence with a monotone clock, the answers of admission and of both delay queries equal those of automata that are never erased |
| LimiterRuns.LimiterRefinesProduct | include/kurlyk/http/HttpRequestManager/HttpRateLimiter.hpp:128-191 | from the empty limiter every run answers like the product of one independent window automaton per (limit, key) |
| LimiterRuns.AdmissionStepsNamedWindows | include/kurlyk/http/HttpRequestManager/HttpRateLimiter.hpp:135-191 | a success steps exactly the named automata, once when both names coincide; a denial steps none |
| LimiterRuns.KeysAreIndependent | include/kurlyk/http/HttpRequestManager/HttpRateLimiter.hpp:434-464 | verdicts on single-limit requests at a key are those of one automaton fed that key's own operations |
| LimiterRuns.KeyVerdictsFromCreation | include/kurlyk/http/HttpRequestManager/HttpRateLimiter.hpp:30-57 | over a limit's whole life that automaton starts fresh at creation, whatever other callers do |
| LimiterRuns.LimitLifetime | include/kurlyk/http/HttpRequestManager/HttpRateLimiter.hpp:418-431 | limit data is present and unmarked exactly while a handle is alive, and admission through live handles never meets a removed limit |
| LimiterRuns.IdsIncrease | include/kurlyk/http/HttpRequestManager/HttpRateLimiter.hpp:30-57 | the ids a run hands out strictly increase, so none is reused |
| LimiterRuns.AnySim | include/kurlyk/http/HttpRequestManager/HttpRateLimiter.hpp:341-372 | erased keys and limits do not change the shortest delay over all keys |
| LimiterRuns.GcErasesDeadLimits | include/kurlyk/http/HttpRequestManager/HttpRateLimiter.hpp:585-613 | a collection pass erases exactly the keys without token that were not used within the period, and a limit exactly when it is removed and all its keys are such |
| LimiterRuns.AdmittedRateIsBounded | include/kurlyk/http/HttpRequestManager/HttpRateLimiter.hpp:466-512 | over any run, any half-open interval of n periods holds at most (n + 1) * requests_per_period admitted attempts of a key |
| RateWindow.RateBound | include/kurlyk/http/HttpRequestManager/HttpRateLimiter.hpp:466-512 | the same bound for one window automaton and every admissible sequence of commits |
| RateWindow.WindowStep | include/kurlyk/http/HttpRequestManager/HttpRateLimiter.hpp:496-512 | a commit stays in the window, one fuller, or opens a new one at least a period later |
| LimiterDelay.DelayIsExact | include/kurlyk/http/HttpRequestManager/HttpRateLimiter.hpp:271-306 | for a token not in flight, admission k ticks from now succeeds if and only if the answer is a finite delay of at most k ticks; a sequential block is never admitted |
| LimiterDelay.KeyDelayIsExact | include/kurlyk/http/HttpRequestManager/HttpRateLimiter.hpp:553-582 | the same for one key |
| LimiterDelay.MillisecondsDivide | include/kurlyk/http/HttpRequestManager/HttpRateLimiter.hpp:568-574 | milliseconds and every unit dividing a millisecond satisfy the condition of exactness |
| LimiterDelay.ExactUnits | include/kurlyk/http/HttpRequestManager/HttpRateLimiter.hpp:568-574 | over all runs from the empty limiter, zero delay agrees with the admission of a fresh request at that moment if and only if the limit counts nothing or its period is a whole number of query ticks |
| LimiterDelay.SecondsReportTooEarly | include/kurlyk/http/HttpRequestManager/HttpRateLimiter.hpp:568-574 | a concrete run: a 1500 ms limit created and used, asked in seconds one second later, answers zero, and the request made at that moment is denied |
| HttpRateLimiterObject.HttpRateLimiter.AllowRequest | include/kurlyk/http/HttpRequestManager/HttpRateLimiter.hpp:128-191 | the verdict and the whole new table, collection on every 64th admission included |
| HttpRateLimiterObject.HttpRateLimiter.GcStaleKeys | include/kurlyk/http/HttpRequestManager/HttpRateLimiter.hpp:585-613 | exactly the stale keys and the removed, emptied limits are erased |
| HttpRateLimiterObject.HttpRateLimiter.TimeUntilAnyLimitAllows | include/kurlyk/http/HttpRequestManager/HttpRateLimiter.hpp:341-372 | the least positive delay over all keys of all limits, zero when there is none |
| RateLimiter.ShortestIs | include/kurlyk/http/HttpRequestManager/HttpRateLimiter.hpp:341-372 | the answer is the least finite wait there is, a sequential block only when nothing finite waits, and zero when nothing waits |
| RateLimiter.SixtyFourthCollects | include/kurlyk/http/HttpRequestManager/HttpRateLimiter.hpp:185-188 | every 64th admission that meets a limit leaves no forgettable key and no dead limit behind |
| RateLimiter.TokenZeroIsFree | include/kurlyk/http/HttpRequestManager/HttpRateLimiter.hpp:452-457 | token zero is never blocked by a sequential limit and leaves no token |
| WebSocketFsm.RunInvariant | include/kurlyk/websocket/client/BaseWebSocketClient.hpp:418-730 | over every event sequence: connected exactly in WORKING, INIT not running, CONNECTING, WORKING and RECONNECTING running with a configuration, user-visible open and close events alternating from open, and each consumed request acknowledged once in queue order |
| WebSocketFsm.EventTells | include/kurlyk/websocket/client/BaseWebSocketClient.hpp:418-730 | handling one event in any state keeps these facts and makes exactly the acknowledgement it owes |
| WebSocketFsm.EventsAreFifo | include/kurlyk/websocket/client/BaseWebSocketClient.hpp:532-604 | events are consumed in the order enqueued, none lost or repeated |
| WebSocketReports.ReportsAreDue | include/kurlyk/websocket/client/BaseWebSocketClient.hpp:781-810 | over every run, an open is reported once for each ConnectionOpened consumed while connecting, a close once for each event that ended an open connection, a message once for each one consumed in WORKING or RECONNECTING |
| WebSocketReports.OpenedConnects | include/kurlyk/websocket/client/BaseWebSocketClient.hpp:463-468 | a connecting client that consumes ConnectionOpened is connected, in WORKING, has reported one open and restarts its attempt counter |
| WebSocketReports.ConnectionIsUsed | include/kurlyk/websocket/client/BaseWebSocketClient.hpp:532-604 | a run that opens a connection, receives a message and loses the connection |
| WebSocketReports.CallbacksTellEffect | include/kurlyk/websocket/client/BaseWebSocketClient.hpp:418-730 | a callback is told true exactly when its request took effect |
| WebSocketReports.EventsSetUp | include/kurlyk/websocket/client/BaseWebSocketClient.hpp:418-730 | which events replace the configuration, restart the attempt counter, or count a loss and its time |
| WebSocketReports.ErrorsAreReported | include/kurlyk/websocket/client/BaseWebSocketClient.hpp:418-730 | handling an event adds the reports it calls for and one error exactly when it errs |
| WebSocketReports.ReconnectingDials | include/kurlyk/websocket/client/BaseWebSocketClient.hpp:647-677 | a reconnecting client with nothing queued dials exactly when a redial is due, gives up exactly when reconnection is off or its attempts are used up, and otherwise waits |
| WebSocketReports.RedialDelayIs | include/kurlyk/websocket/client/BaseWebSocketClient.hpp:662-664 | a redial is due from the configured number of seconds after the loss on |
| WebSocketLiveness.ShutdownDrains | include/kurlyk/websocket/client/BaseWebSocketClient.hpp:187-193 | without queued configuration updates, with reconnection off and not stopped while marked running, the shutdown loop ends within as many turns as queued events, at rest, with everything consumed and acknowledged in order |
| WebSocketLiveness.ShutdownEndsIffDrainable | include/kurlyk/websocket/client/BaseWebSocketClient.hpp:187-193 | for every reachable client and every queue, the shutdown loop ends if and only if, in the turn that consumes the disconnect, the client is not stopped with the running flag set and not about to redial with success |
| WebSocketLiveness.StoppedNeverDrains | include/kurlyk/websocket/client/BaseWebSocketClient.hpp:681-730 | a client stopped with the running flag set ignores every disconnect, for ever |
| WebSocketLiveness.StoppedWhileRunning | include/kurlyk/websocket/client/BaseWebSocketClient.hpp:504-508 | that flag can be set: a null configuration while connecting |
| WebSocketLiveness.DisconnectHoldsIffNoRedialDue | include/kurlyk/websocket/client/BaseWebSocketClient.hpp:608-677 | an acknowledged disconnect while reconnecting ends in INIT if and only if no redial is due at that moment |
| WebSocketLiveness.LostIsReachable | include/kurlyk/websocket/client/BaseWebSocketClient.hpp:484-487 | a run from the start to a client reconnecting with zero delay and unbounded attempts |
| WebSocketLiveness.DisconnectIsUndone | include/kurlyk/websocket/client/BaseWebSocketClient.hpp:608-677 | that client acknowledges a disconnect and is connecting again |
| WebSocketLiveness.ReconnectionIsBounded | include/kurlyk/websocket/client/BaseWebSocketClient.hpp:654-672 | with N > 0 attempts, a stretch without opened connections and user requests dials automatically at most N - 1 times |
| WebSocketClientObject.WebSocketClient.ProcessStateWorking | include/kurlyk/websocket/client/BaseWebSocketClient.hpp:532-604 | the WORKING loop is the machine's step |
| WebSocketClientObject.WebSocketClient.Shutdown | include/kurlyk/websocket/client/BaseWebSocketClient.hpp:187-193 | the loop is the drain the liveness results speak about, for every environment, and keeps the run invariant |
| WorkerProtocol.NoLostWakeup | include/kurlyk/core/NetworkWorker.hpp:149-184 | parked with the flag clear, every queued task and every manager's work belongs to a caller that has not notified yet |
| WorkerProtocol.StopIsHeard | include/kurlyk/core/NetworkWorker.hpp:191-210 | a stop request whose notify has finished is never slept through |
| WorkerProtocol.TasksRunInOrder | include/kurlyk/core/NetworkWorker.hpp:259-269 | executed, running and queued tasks together are the pushed ones, in order |
| WorkerProtocol.StopLeavesLaterTasks | include/kurlyk/core/NetworkWorker.hpp:215-220 | when the worker has exited, the tasks pushed before its last look, those pushed before stop among them, have been executed in order, and a task is left behind if and only if it was pushed later |
| WorkerProtocol.TaskIsLeftBehind | include/kurlyk/core/NetworkWorker.hpp:259-269 | a run that leaves a task behind |
| WorkerProtocol.StopNeverBlocks | include/kurlyk/core/NetworkWorker.hpp:149-184 | after a stop call has notified, the worker can always move until it exits |
| WorkerProtocol.StopReturnsIffManagersEnd | include/kurlyk/core/NetworkWorker.hpp:191-220 | after a stop call has notified, the worker exits within a bounded number of its own steps if and only if the shutdown of every manager ends |
| WorkerShutdown.StopReturnsIffClientsDrain | include/kurlyk/core/NetworkWorker.hpp:215-220 | with the HTTP and the WebSocket manager, stop returns if and only if every WebSocket client is drainable in the turn that consumes its disconnect |
| WorkerShutdown.StopCanHang | include/kurlyk/websocket/WebSocketManager.hpp:65-72 | a client reached by a run of its machine for which a reachable stop never returns |
| WorkerShutdown.HttpAlwaysEnds | include/kurlyk/http/HttpRequestManager.hpp:308-317 | the shutdown of the HTTP manager always ends |
| NetworkWorkerObject.NetworkWorker.IsLoaded | include/kurlyk/core/NetworkWorker.hpp:282-289 | true exactly when some manager is loaded or a task is queued |
| NetworkWorkerObject.NetworkWorker.ProcessTasks | include/kurlyk/core/NetworkWorker.hpp:259-269 | all queued tasks are executed in order and the list emptied |
| NetworkWorkerObject.ProbingIsLoaded | include/kurlyk/core/NetworkWorker.hpp:282-289 | undisturbed, the probing steps of the protocol decide what the method returns |
| NetworkWorkerObject.ExecutingRunsAll | include/kurlyk/core/NetworkWorker.hpp:259-269 | the executing steps of the protocol run the whole local list, in order |
| NetworkWorkerObject.WokenWorkerServes | include/kurlyk/core/NetworkWorker.hpp:117-122 | undisturbed, a woken worker with anything to do serves every manager and then runs every queued task, in order |
| NetworkWorkerObject.EveryManagerIsServed | include/kurlyk/core/NetworkWorker.hpp:117-122 | whatever callers do, every manager is processed exactly once between finding something to do and the next doze or the end |
| NetworkWorkerObject.ShutdownServesAll | include/kurlyk/core/NetworkWorker.hpp:215-220 | undisturbed, the worker's shutdown ends every manager and runs the tasks that are left |
| Base64Url.EncodeBytes | include/kurlyk/utils/base64_url.hpp:19-49 | the encoding loop computes the group-wise encoding |
| Base64Url.DecodeText | include/kurlyk/utils/base64_url.hpp:61-116 | the padding and decoding loops compute the group-wise decoding, early break and embedded padding included |
| Base64Url.DecodeEncode | include/kurlyk/utils/base64_url.hpp:19-116 | decode(encode(x)) = x for every byte string |
| Base64Url.EncodeDecode | include/kurlyk/utils/base64_url.hpp:19-116 | encode(decode(s)) = s if and only if s is canonical: alphabet only, length mod 4 not 1, zero trailing bits |
| Base64Url.EncodeIsCanonical | include/kurlyk/utils/base64_url.hpp:19-49 | encoder output is canonical and (4n + 2) / 3 symbols long |
| Base64Url.TextIsPositional | include/kurlyk/utils/base64_url.hpp:24-46 | the symbols are the base-64 digits of the data read as one big-endian number, shifted over the unfilled bits |
| Base64Url.AlphabetIs | include/kurlyk/utils/base64_url.hpp:20 | the 64 symbols, in order |
| Base64Url.PaddingIsOptional | include/kurlyk/utils/base64_url.hpp:81-84 | a text completed with padding decodes like the text without it |
| Base64Url.DecodeStops | include/kurlyk/utils/base64_url.hpp:96-98 | decoding keeps what comes before the first broken group and drops the rest |

## Left out

- libcurl options, TLS, proxies, cookies, headers, response bodies and timings: foreign calls. A transfer's outcome is an environment choice of "curl error" and the final status, after the overrides to 499 and 451.
- Exception and out-of-memory paths of the manager, among them the rollback in `submit_request` and the batch construction failure, and exceptions thrown by user callbacks.
- The C++ memory model below mutexes and atomics, and wrap-around of ids, tokens, counters and `long` limit parameters; `requests_per_period` and `period_ms` are natural numbers.
- Callbacks of cancel orders: cancellation is modelled by sets of request and group ids, and nothing is claimed about when a cancel callback runs, since `cancel_*` reads the shutdown flag outside the lock.
- The fixed order of passes in `HttpRequestManager::process`: any order is allowed, so the results hold for more runs than the code has. A callback and the worker-private move beside it are one step; the release of tokens and the group completion after it are two more.
- User callbacks that call `shutdown()` on the manager from inside a callback; calls of submit, wait and cancel from callbacks are interleavings of client steps and are covered.
- Callbacks of a request without a callback function are recorded in its trace although nothing is called.
- Limit handles held by contexts that shutdown destroys without completion count as held for ever in the manager's model.
- Direct calls of `HttpRequestManager::allow_request` and `release_request` with caller-chosen tokens: they break the ownership premise of the sequential results.
- `time_until_next_allowed` is modelled as a function, its legacy overloads by id not at all; `m_owned_handles` is part of the runs in `LimiterRuns`, not of the `HttpRateLimiter` object.
- Events that reach a WebSocket client while its shutdown loop runs: `WebSocketLiveness.ShutdownEndsIffDrainable` and `WorkerShutdown` assume none.
- HttpRateLimiterObject.HttpRateLimiter.CreateLimit: does not record the owned handle; `LimiterRuns` does.
- HttpBatchRequestHandlerObject.HttpRequestContext.Complete: does not model the concurrent compare-and-exchange, because only the worker thread completes contexts in the modelled runs.
- WebSocketClientObject.WebSocketClient.Shutdown: takes the environment's answers as a finite list, because the loop need not end; `WebSocketLiveness.ShutdownDrains` says when it does.
- NetworkWorkerObject.NetworkWorker.AddTask: runs its two critical sections back to back; their interleavings are the subject of `WorkerProtocol`.
- WebSocket send and send-callback queues, `WebSocketRateLimiter`, the Simple-WebSocket-Server and Emscripten adapters: I/O wrappers or simpler forms of what is modelled; `init_websocket` is a Boolean of the environment.
- `HttpClient`, `WebSocketClient`, the overloads in `http/utils.hpp`, futures and promises: forwarding.
- The synchronous mode of `NetworkWorker`, registration of managers while the worker runs, and its error handlers.
- OAuth and PKCE, authentication providers, SHA-256, random bytes, JSON, cookies, URL and e-mail validation, path utilities: I/O, cryptography or shallow string code.
