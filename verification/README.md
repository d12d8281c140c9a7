# A verified model of the apiexec execution engine

apiexec turns unreliable, paginated HTTP APIs into a stream of batches. This project models its
logic in Dafny: the fetch engine with its retry loop, the double-buffer prefetch protocol, the
policies, four vendor adapters, the text splitter and the C API read cache. The theorems are about
whole runs: any response script, any schedule of the consumer, the worker threads, cancelling
threads and timeouts, any sequence of C API calls.

## How the model is laid out

| file | what it holds |
|---|---|
| `Wire.dfy` | documents, requests, responses, cursors, error codes, results |
| `Decimal.dfy` | `std::to_string`, `std::stoi`, the Retry-After header |
| `Fetch.dfy` | one step of `fetch_one` at a time; the *lane*, every fetch cycle over one engine state |
| `Retrying.dfy` | which answers a cycle retries, which end it, and with what |
| `Interference.dfy` | a fetch cycle that runs while other threads cancel |
| `Engine.dfy` | the engine and its metrics as objects updated in place, in sequential mode |
| `Prefetch.dfy` | consumer, workers, cancellers, timeout and destructor as one interleaved machine, and its invariant |
| `PrefetchEngine.dfy` | `next_batch_prefetch` and its helpers as methods that update the prefetch fields |
| `Streams.dfy` | what `stream()` does; both objects have it as a method |
| `Schedules.dfy`, `Projection.dfy` | runs of the engine object are schedules of the machine; schedules of the machine are runs of the lane |
| `Refinement.dfy`, `Realised.dfy` | prefetch mode refines sequential mode; schedules that reach what sequential mode reaches |
| `Accounting.dfy`, `Delivery.dfy` | where requests and batches go |
| `Chain.dfy`, `Faultless.dfy` | fault transparency against the fault-free page chain; what a fault-free run delivers |
| `Endings.dfy`, `AfterCancel.dfy`, `Drain.dfy`, `Completion.dfy` | cancellation, `has_next`, termination, honesty of completion |
| `DefaultPolicy.dfy`, `Windows.dfy`, `Budget.dfy`, `BudgetRuns.dfy` | window, backoff and budget arithmetic, then over runs |
| `Gauge.dfy`, `NetworkCount.dfy` | what the counters count, and exactly when two of the metrics show what the guide says |
| `Answers.dfy` | the documents behind the accepted batches, and where a stream ends |
| `GenericRest.dfy`, `Prompts.dfy`, `Datadog.dfy`, `Costs.dfy`, `ChunkText.dfy` | the adapters, what the prompt adapters charge, and the splitter |
| `Weathers.dfy`, `Coverage.dfy` | exactly when a Datadog stream leaves no hole |
| `CApi.dfy`, `Reading.dfy`, `HandleEndings.dfy`, `Timestamps.dfy`, `Swallowed.dfy` | the handle with its cached batch, runs over it, how it ends, the timestamp it reports and the errors it loses |

An engine is described by a `Setup`: adapter, policy, transport, jitter and initial cursor. The
transport is any function of the number of requests sent so far and the request, so it stands for
every response script; status 0 is a network failure or an abort. A step of the machine performs at
most one access to state another thread writes, so a schedule of steps is an interleaving under
sequential consistency. Three fields of the engine state (`log`, `aborted`, `lateSends`) are
histories that no step reads.

`fetch_one` appears twice: as the function `Fetching.Step` and as the imperative
`Engine.ExecutionEngine.FetchOne`, which is proved equal to it step by step for every behaviour of
the other threads. So does `next_batch_prefetch`: as the consumer's part of `Prefetch.Do` and as
`PrefetchEngine.PrefetchingEngine.NextBatch`. Every public method of the two objects takes the
schedule that led to the object's state and returns an extension of it, so what is proved of one
point of a schedule, or of two (`Endings.OnceOverAlwaysOver`), holds of the object at that moment, or
at those two. Adapters and the splitter likewise have a method proved against a function.

## Where the code departs from what is said about it

Each departure comes with an input and with the exact condition under which the promise is kept.

* The C header says that calls after `stream_cancel` return CANCELLED. For the engine, between calls
  with the flag set, all later calls do so on every continuation if and only if, in prefetch mode,
  nothing is in flight or the result in flight is ready and itself CANCELLED
  (`AfterCancel.PrefetchAfterCancelIff`); in sequential mode, if and only if the cursor is not
  exhausted (`AfterCancel.SequentialAfterCancelIff`). For the handle the condition is that of the
  engine and, besides, that no batch is cached unread (`HandleEndings.HandleAfterCancelIff`): a
  batch that `stream_next_v2_ts` has fetched is still handed out. `AfterCancel.OkAfterCancel` is a
  run in which a late call returns OK, for every prefetching engine whose first fetch succeeds; at
  most one call does so (`Endings.CancelPrefetch`). `stream_has_next` answers 0 or 1, never CANCELLED.
* A Datadog stream should cover the time it has passed. A shrink followed by the fixed-size advance
  can leave a hole (`Faultless.HoleAfter429`; `Coverage.HoleIsReached` is a schedule of the default,
  prefetching configuration with that hole). For each policy no response script and no schedule leaves
  one if and only if `window_ms` is at most `min_window_ms`, except in prefetch mode with
  `max_retries` 0: such an engine stops after two failed cycles, and there the condition is that
  shrinking the once grown `window_ms` gives no less than `window_ms` (`Coverage.NoHoleIff`). No script
  without a 429 leaves one if and only if `window_ms` is at most `max_window_ms`
  (`Coverage.CalmNoHoleIff`). All are exact down to the truncation to seconds.
* The C header says that `stream_next_v2_ts` reports the record's timestamp. It reports where the
  engine's cursor stands after the batch: for Datadog one window past the batch's own start, or two
  if the next worker has already advanced (`Timestamps.DatadogTimestamp`). Under each policy that
  leaves the start alone, it is the batch's own window start on every engine and schedule if and only
  if the adapter passes the start on from every page it can read (`Timestamps.TimestampIsOwnIff`).
* A `stream_next_v2_ts` or too-small buffer that meets an error, not a batch, uses that error up:
  `Reading.ErrorIsLost` is a stream on which a later read then succeeds that would have failed. Such a
  call is transparent, whatever the engine says, if and only if it is refused for its arguments or a
  batch is already unread (`Reading.TransparentIff`). Between calls of an engine the loss of its next
  result, should that be an error, goes unnoticed on every continuation and whatever the server answers
  if and only if, in sequential mode, the cursor is exhausted or the stream cancelled, and in prefetch
  mode, a batch is ready, or the stream is cancelled and nothing but CANCELLED is left to hand out
  (`Swallowed.UnnoticedIff`).
* STREAM_ERROR_CLIENT stands both for a buffer that is too small and for an HTTP 4xx: it is the buffer
  if and only if a batch is unread afterwards, and then a large enough buffer gets that batch
  (`Reading.ClientMeans`).
* The metrics guide says that `cumulative_cost` is the adapter's cumulative cost, set after every
  `response_cost()`. The engine never sets it: under each policy, the default one included, the gauge
  is right on every engine and schedule if and only if the adapter reports no positive cost on any page
  it can read (`Gauge.GaugeIsRightIff`). `generic_rest` and `datadog_metrics` report none
  (`Gauge.DataAdaptersReportNone`), `openai` and `anthropic` do (`Gauge.PromptAdaptersReport`).
* The metrics guide says that `error_network` counts the NETWORK errors returned to the caller. A
  prefetch timeout returns one that is not counted: with nothing in flight the two numbers agree if and
  only if no wait timed out, or the abandoned cycle ended in NETWORK too
  (`NetworkCount.NetworkCountIff`).
* A window below 1 / (grow factor − 1) milliseconds never grows, because the product is truncated:
  `DefaultPolicy.ReachesMaximum` is the exact condition for growth to reach the maximum.
* `chunk_text` with a limit of 0 loses a nonempty text (`ChunkText.LosslessIff`), and a chunk may
  exceed the limit by two characters (`ChunkText.BoundIsTight`), exactly when
  `ChunkText.ExceedsLimitIff` says.

## Model

| member | source | states |
|---|---|---|
| Fetching.Step | source/core/engine.hpp:228-317 | no step of a fetch cycle touches the cancel flag or what the cycle recorded when it began |
| Fetching.CursorUntouched | source/core/engine.hpp:256-279 | outside error handling and the advance the cursor stays; a request is built from the cursor as it stands, and the response parsed is the one to the request sent |
| Fetching.HandleEffect | source/core/engine.hpp:321-383 | error handling loops, proceeds or fails; only the first 429 of a cycle moves the cursor, and only acceptable statuses reach the parser |
| Fetching.StepDescends | source/core/engine.hpp:246-366 | every step nears the return or uses up a retry while retries remain: the measure of the retry loop |
| Fetching.RunFetch | source/core/engine.hpp:228-317 | an undisturbed fetch cycle always returns |
| Fetching.Sequential | source/core/engine.hpp:82-87 | the sequential reference: n calls leave n finished cycles |
| Fetching.CompleteAfterStep | source/core/engine.hpp:228-317 | taking one step first does not change where a cycle ends |
| Retrying.StatusesByNumber | source/core/types.hpp:38-48 | what is retried is status 0, 429 and 500 to 599; what is refused is any other 400 to 499; the rest reaches the parser |
| Retrying.FaultsAreRetried | source/core/engine.hpp:324-367 | nobody cancelling, as long as a try is left each such answer brings the cycle back to its loop, with one more request and one more retry, after the pause stated |
| Retrying.CycleOutcome | source/core/engine.hpp:246-383 | a cycle that nobody disturbs ends with the first other answer, the (j + 1)-th, or with the last there may be: it made j + 1 requests and j retries, and returns that batch, CLIENT on a refusal, PARSE on an unreadable body, or NETWORK, RATE_LIMIT or SERVER as the last answer says, with that counter, and no other, raised by one |
| Retrying.CallOutcome | source/core/engine.hpp:82-87 | so in both modes and under every schedule without a cancel the k-th call returns what its cycle's answers say |
| Retrying.AnswersDecide | source/core/engine.hpp:246-383 | on every run, whatever is cancelled: each finished cycle that sent anything met faults only, but for its last answer, which decides the result; NETWORK, RATE_LIMIT and SERVER take max_retries + 1 requests, and a cycle that stops on a fault with a try left was cancelled |
| Retrying.NoAnswerOnceCancelled | source/core/engine.hpp:324-325 | once the flag is set a request without an answer is not retried, slept on or counted: the cycle ends CANCELLED |
| Prefetch.ProtocolInvariant | source/core/engine.hpp:151-224 | under every schedule: at most the newest worker is alive; a ready result is the newest worker's; each result is collected once and never stale; after a timeout nothing more is handed out from a worker |
| Prefetch.Persists | source/core/engine.hpp:151-224 | what every action keeps, once true, stays true along every schedule |
| Prefetch.ExecAppend | source/core/engine.hpp:151-224 | a schedule extended by an action is that action taken in the state reached |
| Refinement.PrefetchRefinesSequential | source/core/engine.hpp:151-218 | with no cancel and no timeout the k-th call returns what the k-th sequential fetch returns, errors included, up to the first OK-and-exhausted batch or second consecutive failure, and EXHAUSTED ever after |
| Refinement.InlineIsSequential | source/core/engine.hpp:82-87 | in sequential mode the k-th call is the k-th fetch |
| Refinement.Simulation | source/core/engine.hpp:151-218 | the simulation relation: the engine, once its newest cycle is let run, is where sequential mode is after as many fetches |
| Realised.PrefetchReaches | source/core/engine.hpp:151-205 | some schedule of a prefetching engine reaches the sequential state after n cycles, if the n-th is begun |
| Realised.Reaches | source/core/engine.hpp:151-205 | likewise in either mode, at rest and not cancelled |
| Realised.CallReaches | source/core/engine.hpp:151-205 | some schedule makes the n-th call return the n-th sequential result, in either mode |
| Projection.ExecIsPlay | source/core/engine.hpp:151-205 | every interleaving, seen from the engine state, is fetch cycles one after another with cancellation in between |
| Projection.SequentialIsPlay | source/core/engine.hpp:82-87 | the sequential reference is a run of fetch cycles, in either mode |
| Accounting.RequestConservation | source/core/engine.hpp:256-315 | between fetches: requests = retries + successes + five terminal errors + aborts; at most one abort ever, and only after cancel; records_total = success_count |
| Accounting.AtMostOneLateRequest | source/core/engine.hpp:250-258 | at most one request starts after the cancel flag is set |
| Accounting.RequestsPerFetch | source/core/engine.hpp:246-367 | each fetch makes at most max_retries + 1 requests |
| Accounting.EveryBatchYielded | source/core/engine.hpp:305-315 | every accepted batch is the yield of exactly one fetch, in order |
| Chain.FaultTransparency | source/core/engine.hpp:246-316 | for every schedule of faults and cancels the accepted requests and batches are a prefix of the fault-free page chain, and the cursor stands at its next position |
| Chain.NextReadsLatest | source/core/engine.hpp:256-281 | when the cursor advances, next_cursor reads the parse of the very response just accepted, the answer to the latest request, with any adapter |
| Chain.FailureKeepsKey | source/core/engine.hpp:272-286 | a fetch that is not OK leaves token, exhaustion, window start and extras alone |
| Delivery.DeliveredPrefix | source/core/engine.hpp:151-218 | delivered batches are a prefix of the accepted ones; at most one is missing, and none at rest unless a wait timed out |
| Delivery.DeliveredFromChain | source/core/engine.hpp:151-218 | in both modes and under every schedule the caller receives a prefix of the fault-free page chain |
| Delivery.SuccessesAreDeliveries | source/core/engine.hpp:305-308 | success_count minus delivered batches is 0 or 1 |
| Faultless.FaultlessDelivers | source/core/engine.hpp:246-316 | a run without faults delivers the chain's k-th page on the k-th call, in both modes |
| Faultless.LimitedOnce | source/core/engine.hpp:345-367 | one 429 shrinks the window, is retried, and leaves the cycle in its loop having seen pressure |
| Faultless.ServesFromLoop | source/core/engine.hpp:250-316 | an acceptable answer is parsed, followed by the advance from that very parse, and returned |
| Faultless.HoleAfter429 | source/adapters/datadog_metrics.cpp:89-109 | one 429 in the second fetch leaves a quarter of an hour that is never queried though the cursor passed it |
| Endings.CancelSequential | source/core/engine.hpp:236-254 | sequential mode returns no OK to calls begun after cancel() |
| Endings.CancelPrefetch | source/core/engine.hpp:151-185 | prefetch mode returns at most one OK to them, and after two of them has_next() is false |
| Endings.CancelRequests | source/core/engine.hpp:250-258 | in either mode at most one request starts after the flag |
| Endings.HasNextIsInFlight | source/core/engine.hpp:76-80 | between calls of prefetch mode has_next() is exactly "a result is in flight": the last batch is never hidden |
| Endings.HasNextStaysFalse | source/core/engine.hpp:76-80 | prefetch mode: once false, forever false; no fetch begins and no call returns OK |
| Endings.HasNextStaysFalseInline | source/core/engine.hpp:231-244 | sequential mode: once false, forever false; no request is issued and no later call returns OK |
| Endings.OnceOverAlwaysOver | source/core/engine.hpp:76-80 | both modes, any two moments: once has_next() is false it stays false and no later call returns OK |
| Endings.TimeoutIsFinal | source/core/engine.hpp:207-218 | after a timeout no worker is started again and no call returns OK |
| Endings.TwoFailuresStop | source/core/engine.hpp:171-179 | prefetch mode never begins a fetch cycle after two failed in a row, under any schedule |
| Endings.DoneIsExact | source/core/engine.hpp:231-244 | in sequential mode, unless cancelled, stream_done_ is set only by a cycle that found the cursor exhausted or the budget spent, or exhausted it |
| Endings.DoneHasReason | source/core/engine.hpp:231-244 | sequential mode: done implies exhausted, cancelled or budget exceeded |
| Endings.RefusalIsFinal | source/core/engine.hpp:231-244 | a cycle that ends EXHAUSTED or BUDGET_EXHAUSTED leaves stream_done_ set |
| Endings.ExhaustedIsOver | source/core/engine.hpp:294-303 | in both modes, at rest with nothing in flight, has_next() is false once the cursor is exhausted |
| Endings.ExhaustedAtStart | source/core/engine.hpp:51-66 | a stream whose cursor is exhausted from the start sends no request, says EXHAUSTED or CANCELLED, and has_next() is false, in both modes and under every schedule |
| AfterCancel.SequentialAfterCancel | source/core/engine.hpp:231-239 | a call begun after cancel() returns CANCELLED unless it finds the cursor exhausted; then EXHAUSTED |
| AfterCancel.PrefetchAfterCancelIff | source/core/engine.hpp:151-184 | from every reachable state between calls with the flag set, all later calls say CANCELLED on every continuation if and only if nothing is in flight or what is, is ready and says CANCELLED |
| AfterCancel.SequentialAfterCancelIff | source/core/engine.hpp:231-239 | likewise in sequential mode, if and only if the cursor is not exhausted |
| AfterCancel.ReturnAfterCancel | source/core/engine.hpp:151-184 | some call returns from every such state, and with something else than CANCELLED unless the condition holds |
| AfterCancel.OkAfterCancel | source/core/engine.hpp:151-170 | the bound of one late OK is reached by every prefetching engine whose first fetch succeeds |
| Drain.DrainTerminates | source/core/engine.hpp:151-185 | draining an N-page chain takes at most 2N calls and 2N(max_retries + 1) requests, whatever faults, cancels and timeouts occur |
| Drain.NeverStuck | source/core/engine.hpp:187-224 | while a call or the destructor is under way some thread of the engine can move |
| Drain.SequentialDrainNeverEnds | source/core/engine.hpp:337-342 | in sequential mode, against a server that refuses everything, has_next() is true after any number of failed calls |
| Completion.StopHolds | source/core/engine.hpp:161-179 | unless a wait timed out, prefetching stops after an OK result only on an exhausted cursor |
| Completion.ExhaustedHolds | source/core/engine.hpp:231-235 | EXHAUSTED is returned only by a cycle that found the cursor exhausted |
| Completion.CompletionIsHonest | source/core/engine.hpp:120-130 | when the stream reports completion without a failure, every page of the whole chain was delivered in order, in both modes |
| Interference.RunUnder | source/core/engine.hpp:228-317 | a fetch cycle returns whatever the other threads do between its steps |
| Interference.UndisturbedRun | source/core/engine.hpp:228-317 | with nobody cancelling it is the undisturbed cycle |
| Schedules.MeddleIsSchedule | source/core/engine.hpp:89-92 | whatever cancelling threads store between two steps is a schedule of cancel() calls |
| Schedules.CallIsSchedule | source/core/engine.hpp:82-92 | a call of fetch_one among cancelling threads is a schedule of the machine |
| Schedules.SequentialIsSchedule | source/core/engine.hpp:82-87 | the sequential reference is itself such a schedule |
| Engine.Metrics.constructor | source/core/metrics.hpp:87-97 | all counters start at zero |
| Engine.Metrics.IncRequest | source/core/metrics.hpp:33 | one counter goes up by one, the others stay |
| Engine.Metrics.IncRetry | source/core/metrics.hpp:34 | likewise for retries |
| Engine.Metrics.IncSuccess | source/core/metrics.hpp:35 | likewise for successes |
| Engine.Metrics.IncErrorRateLimit | source/core/metrics.hpp:36 | likewise for terminal 429s |
| Engine.Metrics.IncErrorServer | source/core/metrics.hpp:37 | likewise for terminal 5xx |
| Engine.Metrics.IncErrorClient | source/core/metrics.hpp:38 | likewise for terminal 4xx |
| Engine.Metrics.IncErrorNetwork | source/core/metrics.hpp:39 | likewise for terminal network errors |
| Engine.Metrics.IncErrorParse | source/core/metrics.hpp:40 | likewise for parse failures |
| Engine.Metrics.AddRecords | source/core/metrics.hpp:41 | the record total grows by n, the others stay |
| Engine.Metrics.SetWindowSizeMs | source/core/metrics.hpp:43 | the gauge is replaced, the counters stay |
| Engine.Metrics.SetCumulativeCost | source/core/metrics.hpp:44 | the gauge is replaced, the counters stay |
| Engine.Metrics.Snapshot | source/core/metrics.hpp:46-60 | the snapshot holds every counter and gauge of the object |
| Engine.ExecutionEngine.constructor | source/core/engine.hpp:51-66 | a new engine is in the machine's initial state |
| Engine.ExecutionEngine.SleepBeforeRetry | source/core/engine.hpp:358-364 | the pause is Retry-After if given and positive, else the backoff |
| Engine.ExecutionEngine.HandleNetworkError | source/core/engine.hpp:324-335 | CANCELLED if the flag is set, else another try while one is left, else NETWORK; object, locals and pauses end as the step function says |
| Engine.ExecutionEngine.HandleRetryableError | source/core/engine.hpp:345-380 | another try while one is left, else RATE_LIMIT on a 429 and SERVER on the rest; object, locals and pauses end as the step function says |
| Engine.ExecutionEngine.HandleResponse | source/core/engine.hpp:321-383 | the same for every response; the signal tells where the cycle goes |
| Engine.ExecutionEngine.Judge | source/core/engine.hpp:260-269 | a retry is signalled only within max_retries, and the cycle stays on every path closed under steps |
| Engine.ExecutionEngine.Admit | source/core/engine.hpp:231-244 | the checks before the loop let the cycle in or give the error it returns, with other threads in between |
| Engine.ExecutionEngine.Attempt | source/core/engine.hpp:250-258 | one request is built and sent, or the cycle ends CANCELLED |
| Engine.ExecutionEngine.Advance | source/core/engine.hpp:279-286 | the cursor advances and grows unless a 429 was seen |
| Engine.ExecutionEngine.ChargeCost | source/core/engine.hpp:288-292 | the cost of the response just parsed is recorded |
| Engine.ExecutionEngine.Conclude | source/core/engine.hpp:294-315 | gauge, done flag and counters after a success |
| Engine.ExecutionEngine.Accept | source/core/engine.hpp:271-315 | an acceptable response ends the cycle with its batch or with PARSE |
| Engine.ExecutionEngine.TryOnce | source/core/engine.hpp:250-316 | a turn of the retry loop ends the cycle or uses up a retry, and the cycle stays on every path closed under steps |
| Engine.ExecutionEngine.FetchAlong | source/core/engine.hpp:228-317 | the whole cycle keeps to every path closed under steps, and its pauses are those slept |
| Engine.ExecutionEngine.FetchOne | source/core/engine.hpp:228-317 | fetch_one leaves the object exactly where the step functions lead while the other threads cancel at will |
| Engine.ExecutionEngine.NextBatch | source/core/engine.hpp:82-87 | a call extends the schedule that led here and returns the machine's next result |
| Engine.ExecutionEngine.Cancel | source/core/engine.hpp:89-92 | both flags are set; the calls returned so far stay |
| Engine.ExecutionEngine.HasNext | source/core/engine.hpp:76-80 | true exactly when neither flag is set |
| Engine.ExecutionEngine.Verdict | source/core/engine.hpp:129 | OK is said only of a machine with nothing more to give that was not cancelled |
| Engine.ExecutionEngine.PassBatch | source/core/engine.hpp:122-127 | one call: its batch is passed on, or the loop ends with the verdict that fits |
| Engine.ExecutionEngine.StreamTurn | source/core/engine.hpp:121-128 | a turn makes one call and passes its batch, or ends the loop with the verdict that fits |
| Engine.ExecutionEngine.Stream | source/core/engine.hpp:120-130 | sequential mode: the callback is passed the batches of the calls made, in order, and kept all but perhaps the last; OK means an exhausted cursor or a finished stream, CANCELLED a stop by the callback, the flag or a call that said so, any other verdict the failure of the last call; none means that every turn made a call that returned OK |
| Streams.StreamIsHonest | source/core/engine.hpp:120-130 | in both modes, OK from stream() on a fresh engine means that the callback was passed every page of the chain, in order |
| PrefetchEngine.PrefetchingEngine.constructor | source/core/engine.hpp:60-66 | a new prefetching engine is in the machine's initial state |
| PrefetchEngine.OthersAreApart | source/core/engine.hpp:196-204 | what another thread does depends on nothing of the consumer's own and leaves that alone |
| PrefetchEngine.PrefetchingEngine.Perform | source/core/engine.hpp:196-204 | another thread's action takes the object where it takes the machine |
| PrefetchEngine.PrefetchingEngine.TakeResult | source/core/engine.hpp:209-217 | the slot's result is taken, as one step of the machine |
| PrefetchEngine.PrefetchingEngine.GiveUp | source/core/engine.hpp:211-216 | a timeout sets the cancel flag and gives NETWORK instead of a result, as one step of the machine |
| PrefetchEngine.PrefetchingEngine.CollectPrefetch | source/core/engine.hpp:207-218 | the wait ends with the slot's result if it is ready, else with the timeout, as an extension of the schedule |
| PrefetchEngine.PrefetchingEngine.JoinPrefetch | source/core/engine.hpp:220-224 | where the consumer joins, the thread to be joined has already exited |
| PrefetchEngine.PrefetchingEngine.ClearReady | source/core/engine.hpp:190-193 | the ready flag is cleared, as one step of the machine |
| PrefetchEngine.PrefetchingEngine.StartThread | source/core/engine.hpp:195-204 | one new fetch cycle with its worker alive, in flight, and the call returns the result it holds |
| PrefetchEngine.PrefetchingEngine.StartPrefetch | source/core/engine.hpp:187-205 | join, clear and start, with other threads in between: one more fetch cycle, in flight |
| PrefetchEngine.PrefetchingEngine.StopStream | source/core/engine.hpp:168-179 | stream_done_ is set, nothing else of the engine changes, and the call returns the result it holds |
| PrefetchEngine.PrefetchingEngine.LandFlight | source/core/engine.hpp:153-161 | nothing is in flight any more, and the cursor's exhaustion is what is read |
| PrefetchEngine.PrefetchingEngine.Settle | source/core/engine.hpp:163-179 | the next fetch is started exactly if the cursor is not exhausted and the result is OK, or nobody cancelled and the one before did not fail; the failure counter follows |
| PrefetchEngine.PrefetchingEngine.EnterCall | source/core/engine.hpp:151-184 | the wait begins exactly if a result is in flight; else the answer is CANCELLED or EXHAUSTED, as the flag says |
| PrefetchEngine.PrefetchingEngine.FinishCall | source/core/engine.hpp:153-179 | from a collected result to the return, with other threads in between |
| PrefetchEngine.PrefetchingEngine.EndCall | source/core/engine.hpp:160-179 | start the next fetch or stop the stream; the call returns |
| PrefetchEngine.PrefetchingEngine.NextBatch | source/core/engine.hpp:151-185 | a whole call, with the other threads running between its steps, extends the object's schedule and returns the machine's next result |
| PrefetchEngine.PrefetchingEngine.HasNextBatch | source/core/engine.hpp:76-80 | the object's answer is the machine's |
| PrefetchEngine.PrefetchingEngine.AskNext | source/core/engine.hpp:121 | what stream() is told is the machine's answer at that moment, which is whether a result is in flight |
| PrefetchEngine.PrefetchingEngine.Verdict | source/core/engine.hpp:129 | CANCELLED if the flag is set, else OK, at a moment with nothing more to give |
| PrefetchEngine.PrefetchingEngine.PassBatch | source/core/engine.hpp:122-127 | one call: its batch is passed on, or the loop ends with the verdict that fits |
| PrefetchEngine.PrefetchingEngine.StreamTurn | source/core/engine.hpp:121-128 | a turn makes one call and passes its batch, or ends the loop with the verdict that fits |
| PrefetchEngine.PrefetchingEngine.Stream | source/core/engine.hpp:120-130 | prefetch mode: what Streams.Streamed says of the batches passed and the verdict, as for the sequential engine, while workers and cancelling threads run |
| Decimal.StoiOfText | source/adapters/anthropic.cpp:97-112 | an index written into the page token is read back unchanged |
| Decimal.StoiIff | source/adapters/anthropic.cpp:97-105 | a number is read exactly where white space, an optional sign and digits spell it and it fits an int; anything may follow |
| Decimal.RetryAfter | source/adapters/generic_rest.cpp:113-126 | a Retry-After that counts lies in (0, 3600] |
| Decimal.RetryAfterReads | source/adapters/generic_rest.cpp:113-126 | a header spelling n is honoured as n exactly for 0 < n <= 3600, else ignored |
| Decimal.RetryAfterIff | source/adapters/generic_rest.cpp:113-126 | exactly the headers that spell a number in (0, 3600] are honoured |
| DefaultPolicy.Adjust | source/policy/default_policy.cpp:17-42 | the cursor is updated in place as the window function says, and only its end |
| DefaultPolicy.Backoff | source/policy/default_policy.cpp:44-58 | the pause lies within a quarter of 2^n times the base, at most 32 seconds, a fraction of a millisecond dropped; it is the jittered delay of the machine |
| DefaultPolicy.BackoffBounds | source/policy/default_policy.cpp:44-58 | 0.75 min(base 2^n, 32000) − 1 < backoff(n) <= 1.25 min(base 2^n, 32000), and never more than 40 seconds |
| DefaultPolicy.AdjustMoves | source/policy/default_policy.cpp:17-42 | only the end of a positive window moves: to the factor times the window, the fraction dropped, brought to the limit where it passes it |
| DefaultPolicy.RangeIsKept | source/policy/default_policy.cpp:17-42 | a window inside [min, max] stays there; success never shrinks it, pressure never grows it |
| DefaultPolicy.ShrinkRate | source/policy/default_policy.cpp:31-39 | k shrinks bring a window to the minimum or to shrink_factor^k of itself |
| DefaultPolicy.GrowRate | source/policy/default_policy.cpp:31-37 | k grows move a window grow_factor^k times as far from 1/(g − 1), until the maximum |
| DefaultPolicy.GeometricIsPower | source/policy/default_policy.cpp:31-37 | the geometric bound of both rates is the start times the factor's k-th power |
| DefaultPolicy.GrowthStep | source/policy/default_policy.cpp:31-37 | truncation lets a window grow exactly from 1/(g − 1) on |
| DefaultPolicy.ReachesMaximum | source/policy/default_policy.cpp:31-37 | successes alone reach the maximum if and only if one success grows the window or it is there already |
| Windows.AsPolicyFollows | source/policy/default_policy.cpp:17-62 | the policy slot filled from a configuration behaves as that configuration |
| Windows.OneMovePerFetch | source/core/engine.hpp:279-286 | each fetch applies exactly one shrink if it saw a 429, else one grow if it succeeded, else nothing |
| Windows.WindowStaysInRange | source/policy/default_policy.cpp:17-42 | over every run a window that starts in range never leaves it |
| Windows.StormConverges | source/core/engine.hpp:345-354 | after k rate-limited fetches the window is at the minimum or shrunk geometrically |
| Windows.CalmRecovers | source/core/engine.hpp:279-286 | after k undisturbed successes it is at the maximum or grown geometrically |
| Windows.NapsHold | source/core/engine.hpp:324-367 | the i-th pause of a fetch is an honoured Retry-After or the i-th backoff, and there are as many as retries |
| Windows.SleepBound | source/core/engine.hpp:324-367 | a fetch pauses at most max_retries times, an hour each; without Retry-After the n pauses come to the sum of min(base 2^i, 32000) ms, i below n, give or take a quarter and a millisecond each, so to at most 5/4 of min(base(2^n − 1), 32000 n) ms |
| Windows.NominalSumIs | source/policy/default_policy.cpp:44-52 | that sum is base(2^n − 1) as long as the cap is not reached, and never more |
| Windows.GaugeShowsWindow | source/core/engine.hpp:294-300 | after a cycle that ended OK the gauge shows the cursor's window |
| Windows.RetryAfterIsHonoured | source/core/engine.hpp:356-365 | a retry sleeps exactly the n seconds of a Retry-After in (0, 3600], else a backoff |
| Budget.CostAwarePolicy.constructor | source/policy/cost_aware_policy.hpp:24-27 | nothing is spent at first, in tokens or dollars |
| Budget.CostAwarePolicy.RecordCost | source/policy/cost_aware_policy.hpp:29-41 | tokens grow by the cost, dollars stay tokens at the price, and the object still represents the engine's policy slot |
| Budget.CostAwarePolicy.RemainingBudget | source/policy/cost_aware_policy.hpp:43-46 | remaining + cumulative = budget, when a budget is active |
| Budget.CostAwarePolicy.Exceeded | source/policy/cost_aware_policy.hpp:48-51 | the object's verdict is the one the engine's gate uses |
| Budget.CumulativeIsSum | source/core/engine.hpp:288-292 | cumulative cost is the sum over accepted responses |
| Budget.NoRequestOverBudget | source/core/engine.hpp:240-244 | no request is issued once the budget is reached, in either mode |
| Budget.OvershootBound | source/core/engine.hpp:240-292 | the final total is below the budget plus the largest single cost |
| Budget.ConstantCost | source/core/engine.hpp:240-292 | with constant cost c, whatever faults come in between, exactly ceil(budget / c) fetches have succeeded when BUDGET_EXHAUSTED is returned |
| BudgetRuns.BudgetedDelivers | source/core/engine.hpp:240-292 | on a chain long enough, served without faults, the first ceil(budget / c) calls deliver the first pages and the next returns BUDGET_EXHAUSTED, in both modes |
| Gauge.GaugeIsRightIff | docs/METRICS.md:25 | under each policy: between fetches the gauge shows the cost the adapter has reported so far, on every engine and schedule, if and only if the adapter reports no positive cost on any page it can read |
| Gauge.GaugeIsZero | source/core/engine.hpp:288-296 | no step of the engine sets the gauge |
| Gauge.LogIsFree | source/core/engine.hpp:288-292 | with an adapter that reports no positive cost, and none below zero, no accepted response has a cost |
| Gauge.DataAdaptersReportNone | source/core/vendor_adapter.hpp:32 | generic_rest and datadog_metrics report no cost for any page |
| Gauge.PromptAdaptersReport | source/adapters/ai_adapter.hpp:38-41 | openai and anthropic report a positive cost for some page, and never a negative one; how much is Prompts.OpenAIReads and Prompts.AnthropicReads |
| NetworkCount.OutcomesAreCounted | source/core/engine.hpp:295-383 | on every run success_count and each of the five error counters is the number of cycles that ended with that code, and retry_count the number of retries they made |
| NetworkCount.NetworkCountIff | docs/METRICS.md:22 | in both modes, at rest with nothing in flight: error_network is the number of NETWORK results returned if and only if no wait timed out or the abandoned cycle ended in NETWORK |
| Budget.BudgetReturnMeansExceeded | source/core/engine.hpp:240-244 | BUDGET_EXHAUSTED is never returned below the budget |
| GenericRest.GenericRestAdapter.constructor | source/adapters/generic_rest.cpp:19-35 | a new adapter has parsed nothing |
| GenericRest.GenericRestAdapter.ParseResponse | source/adapters/generic_rest.cpp:72-87 | true with a batch exactly if the document holds that list under the data field; otherwise the caller's batch is left alone; the document is kept either way |
| GenericRest.PageIsTheList | source/adapters/generic_rest.cpp:72-87 | a page is exactly the list the document holds under the data field, in order; nothing else yields one |
| GenericRest.GenericRestAdapter.NextCursor | source/adapters/generic_rest.cpp:89-107 | the next cursor is a function of the last parse and the current cursor |
| GenericRest.KeepsPromises | source/adapters/generic_rest.cpp:37-107 | a successful parse forgets all earlier ones, and windows never reach requests or tokens |
| GenericRest.GoesOnIff | source/adapters/generic_rest.cpp:72-107 | after a successful parse the stream goes on exactly if the page has records and names a token, which is the next request |
| GenericRest.RestEnds | source/adapters/generic_rest.cpp:89-107 | on every run the cursor is exhausted exactly from the first accepted document on that has no records or names no token |
| GenericRest.PolicyKeepsKey | source/policy/default_policy.cpp:17-42 | the policy moves the window's end and nothing else |
| GenericRest.RestDeliversChain | source/adapters/generic_rest.cpp:72-107 | generic_rest with the default policy, under every schedule, 429s included: the k-th batch the caller receives is the list in the server's k-th page, the pages being followed through the documents' own next tokens |
| GenericRest.RestDeliversAll | source/adapters/generic_rest.cpp:72-107 | when the stream reports completion these are all pages, down to one without records or without a token |
| Answers.EachReadFromItsAnswer | source/core/engine.hpp:260-292 | on every run, with any adapter: each accepted batch and cost was read from an acceptable answer to the request it is logged with, each from a later answer than the one before |
| Answers.EndsExactly | source/core/engine.hpp:279-303 | on every run, for an adapter that some documents exhaust: the cursor is exhausted if and only if it was so at first or the last accepted document is such a one, and no other is |
| Prompts.OpenAIAdapter.constructor | source/adapters/openai.cpp:22-44 | a new adapter has parsed nothing and counted no tokens |
| Prompts.OpenAIAdapter.ParseResponse | source/adapters/openai.cpp:81-102 | document and token count after each outcome; the caller's batch is overwritten once the choices are read, even if the usage then makes it fail |
| Prompts.OpenAIReads | source/adapters/openai.cpp:81-102 | an answer is readable exactly if it has a list of choices and any usage.total_tokens is a number; its records are the choices, and its cost is usage.total_tokens if that is positive, else none |
| Prompts.OpenAIAdapter.NextCursor | source/adapters/openai.cpp:104-123 | the cursor moves to the next prompt index or is exhausted |
| Prompts.AnthropicAdapter.constructor | source/adapters/anthropic.cpp:18-39 | a new adapter has parsed nothing and counted no tokens |
| Prompts.AnthropicAdapter.ParseResponse | source/adapters/anthropic.cpp:71-95 | document and token count after each outcome; the caller's batch is overwritten once the content is read, even if the usage then makes it fail |
| Prompts.AnthropicReads | source/adapters/anthropic.cpp:71-95 | the same with content, and with usage.input_tokens + usage.output_tokens as the cost |
| Prompts.TokensTravel | source/adapters/anthropic.cpp:114-117 | the next cursor carries a positive token count under _token_count, if it or fewer than sixteen other keys are there and it has at most 256 digits; otherwise the extra metadata stays |
| Prompts.AnthropicAdapter.NextCursor | source/adapters/anthropic.cpp:97-120 | the cursor moves on, carrying the token count within the caps |
| Prompts.OpenAIKeepsPromises | source/adapters/openai.cpp:46-123 | what the engine theorems ask of an adapter holds |
| Prompts.AnthropicForgets | source/adapters/anthropic.cpp:71-95 | a successful parse forgets all earlier ones |
| Prompts.AnthropicIsBlind | source/adapters/anthropic.cpp:41-120 | windows never reach requests, tokens or extras, and are carried through |
| Prompts.OpenAIWalks | source/adapters/openai.cpp:46-123 | the token's index names the prompt sent, and the next token's index is one more, until the last prompt |
| Prompts.AnthropicWalks | source/adapters/anthropic.cpp:41-120 | the same for the other adapter |
| Prompts.PromptsInOrder | source/adapters/openai.cpp:46-123 | for every fault schedule the i-th successful request carries the text of prompt i, none skipped or repeated, and the cursor is exhausted after exactly one success per prompt |
| Prompts.IndexIs | source/adapters/openai.cpp:107-112 | a token's index is the number it spells, and 0 if it spells none that fits an int |
| Costs.OpenAICosts | source/adapters/openai.cpp:142-148 | on every run the cumulative cost, and with a budget the spending between fetches, is the sum of usage.total_tokens, where positive, over the accepted documents |
| Costs.AnthropicCosts | source/adapters/ai_adapter.hpp:38-42 | the same with usage.input_tokens + usage.output_tokens |
| Datadog.DatadogMetricsAdapter.constructor | source/adapters/datadog_metrics.cpp:19-34 | a new adapter has parsed nothing |
| Datadog.DatadogMetricsAdapter.ParseResponse | source/adapters/datadog_metrics.cpp:64-87 | true exactly if the document has a series list; the batch then is the point lists of all series joined in order; a failure leaves the caller's batch alone |
| Datadog.PageIsThePoints | source/adapters/datadog_metrics.cpp:64-87 | a page is the point lists of its series, joined in order, and a document without a series list is none |
| Datadog.PointsDelivered | source/adapters/datadog_metrics.cpp:64-87 | on every schedule the k-th batch the caller receives is the points of the k-th accepted document |
| Datadog.DatadogMetricsAdapter.NextCursor | source/adapters/datadog_metrics.cpp:89-109 | the range moves by one configured window; after a page the cursor is exhausted exactly if it was or the page has no series |
| Datadog.NextIsExhaustedIff | source/adapters/datadog_metrics.cpp:89-109 | after a successful parse the next cursor is exhausted if and only if the current one was or the document's series list is empty; its range is one configured window on |
| Datadog.SeriesEnd | source/adapters/datadog_metrics.cpp:104-106 | on every run the cursor is exhausted if and only if it was so at the start or the last accepted document has no series, and no other accepted document is without |
| Datadog.SecondsTruncate | source/adapters/datadog_metrics.cpp:49-50 | milliseconds become seconds toward zero |
| Datadog.FlattenSeries | source/adapters/datadog_metrics.cpp:72-82 | the nested loops collect all points of all series, in order |
| Datadog.FlattenSplit | source/adapters/datadog_metrics.cpp:72-82 | flattening distributes over concatenation |
| Datadog.SeriesForgets | source/adapters/datadog_metrics.cpp:64-87 | a successful parse forgets all earlier ones |
| Datadog.StartIsFixedStep | source/adapters/datadog_metrics.cpp:89-101 | after k successes the range starts at k windows whatever the policy did to its end |
| Datadog.SlotsAlways | source/adapters/datadog_metrics.cpp:36-109 | on every run each accepted range starts at its slot, in seconds; 429s or not, it reaches the next slot if window_ms is at most min_window_ms |
| Datadog.CoversSlotIff | source/adapters/datadog_metrics.cpp:36-62 | the range an accepted response answers, in seconds; before truncation its end reaches the slot's end exactly if it is the first or the cycle's window, once shrunk by a 429, is at least the configured one |
| Datadog.RangesAbut | source/adapters/datadog_metrics.cpp:49-50 | after truncation to seconds each calm range still reaches the next one |
| Datadog.NoHoleWithout429 | source/adapters/datadog_metrics.cpp:36-62 | without 429s and with a window of at most max_window_ms, the ranges queried successfully leave no hole, down to the second |
| Coverage.NoHoleIff | source/adapters/datadog_metrics.cpp:36-109 | for each policy: no response script and no schedule leaves a hole in the time passed if and only if window_ms is at most min_window_ms, or, prefetching with max_retries 0, at most what one growth and one shrink make of it |
| Coverage.SafeHasNoHole | source/adapters/datadog_metrics.cpp:36-109 | the first half, for one engine and schedule |
| Coverage.UnsafeHasHole | source/adapters/datadog_metrics.cpp:36-109 | otherwise an engine with this policy and a schedule of it leave a hole |
| Coverage.HoleIsReached | source/core/engine.hpp:151-205 | the default configuration prefetches, and a schedule of it reaches the hole that one 429 leaves |
| Coverage.CalmNoHoleIff | source/adapters/datadog_metrics.cpp:36-109 | for each policy: no script without a 429 and no schedule does if and only if it is at most max_window_ms |
| Weathers.Reach | source/core/engine.hpp:345-354 | sequential mode: against a server that limits one second for ever, shrinking windows still bring the cursor past it |
| Weathers.PacedReach | source/core/engine.hpp:161-179 | without retries, and if one growth and one shrink make the window smaller than configured, the same server lets the stream past that second with no two failures in a row, so a prefetching engine gets there too |
| Weathers.SunnyState | source/core/engine.hpp:246-316 | against a server that limits nothing every cycle succeeds |
| Weathers.ShoweredState | source/core/engine.hpp:345-367 | against a server that limits every other request each of the first thousand cycles succeeds after one retry, and no accepted range asks for the last second of the thousandth slot |
| Coverage.NeverAccepted | source/core/engine.hpp:260-286 | a second limited whenever it is asked for is in no accepted range |
| ChunkText.RFind | source/adapters/ai_adapter.hpp:58-63 | the last occurrence that starts at or before the limit, or none |
| ChunkText.ChunkText | source/adapters/ai_adapter.hpp:48-75 | the loop produces the specified chunk list |
| ChunkText.ChunksSpecified | source/adapters/ai_adapter.hpp:48-75 | chunks are properly cut (last sentence end, else last space, else the limit), concatenate to the text, and are nonempty and at most max_chars + 2 long |
| ChunkText.ProperChunksAreUnique | source/adapters/ai_adapter.hpp:53-72 | that description leaves no choice |
| ChunkText.LosslessIff | source/adapters/ai_adapter.hpp:50 | nothing is lost if and only if the limit is positive or the text empty |
| ChunkText.ExceedsLimitIff | source/adapters/ai_adapter.hpp:54-68 | a chunk short of the text's end exceeds the limit exactly if a sentence end starts at the limit or one before, or a space stands at the limit with no sentence end in reach |
| ChunkText.LastChunkFits | source/adapters/ai_adapter.hpp:54 | a chunk whose limit reaches the end of the text fits |
| ChunkText.BoundIsTight | source/adapters/ai_adapter.hpp:58-60 | the bound of max_chars + 2 is reached for every limit |
| ChunkText.PromptChunkForCursor | source/adapters/anthropic.cpp:138-153 | the chunk the token's index names, or the empty string |
| ChunkText.ReadingRebuilds | source/adapters/anthropic.cpp:138-153 | reading indices 0, 1, 2, ... until the first empty answer rebuilds the prompt |
| CApi.CodesAreDistinct | source/core/stream_error.hpp:9-20 | every engine result has its own code; success is 0, exhaustion 1, and the failures are -1 to -8 in the header's order |
| CApi.StreamHandle.constructor | source/c_api/c_api.cpp:19-29 | a new handle has nothing cached |
| CApi.StreamHandle.AppendRecords | source/c_api/c_api.cpp:49-59 | the records of one batch are appended and serialised in order |
| CApi.StreamHandle.EnsureFetched | source/c_api/c_api.cpp:39-67 | an unread batch is kept; else the next result is fetched and serialised whole and per record |
| CApi.StreamHandle.ConsumeCache | source/c_api/c_api.cpp:70-76 | the unread batch is gone, nothing else |
| CApi.StreamHandle.HasNext | source/c_api/c_api.cpp:152-159 | 1 exactly if a batch is unread or the engine has more; what 0 means is HandleEndings.NothingAfterHasNext |
| CApi.StreamHandle.CopyOut | source/c_api/c_api.cpp:182-183 | text and terminator are in the buffer, the rest of it untouched |
| CApi.StreamHandle.NextBatchV1 | source/c_api/c_api.cpp:161-188 | return code, count, buffer and cache in every case; on failure the buffer is untouched |
| CApi.StreamHandle.NextV2Ts | source/c_api/c_api.cpp:190-204 | the timestamp cached with the batch is read without consuming it; what it is, is Timestamps.HandleReports |
| CApi.StreamHandle.NextV2Sc | source/c_api/c_api.cpp:206-227 | return code, buffer and cache in every case |
| CApi.StreamHandle.OfferCached | source/c_api/c_api.cpp:244-251 | records go to the callback in order until it stops; the batch is consumed only if it does not |
| CApi.StreamHandle.TakeTurn | source/c_api/c_api.cpp:238-252 | a turn ends the loop on EXHAUSTED, on an error or on a stop, and otherwise consumes one batch |
| CApi.StreamHandle.DeliverAlong | source/c_api/c_api.cpp:238-252 | the loop follows its turns one by one |
| CApi.StreamHandle.DeliverAll | source/c_api/c_api.cpp:238-252 | the loop shows, consumes and returns what the recursive specification says, endless streams included |
| CApi.StreamHandle.ForeachV1 | source/c_api/c_api.cpp:231-253 | the strings passed, the return code and the cache, over all batches |
| CApi.EachAnswers | source/c_api/c_api.cpp:238-252 | a foreach that its callback stops returns the callback's own answer to the last record shown; any other returns what the engine said last, EXHAUSTED counting as success |
| Reading.HandleInStep | source/c_api/c_api.cpp:39-76 | for any interleaving of the four calls: batches consumed, then the unread one, are the engine's in order; a stop causes redelivery of that batch from its first record and nothing else |
| Reading.EachRecordOnce | source/c_api/c_api.cpp:161-253 | if no callback stops, every record is seen exactly once and in order |
| Reading.EachWhole | source/c_api/c_api.cpp:244-251 | a foreach that returns STREAM_OK, or whose callback never stops, shows whole batches only |
| Reading.PeekIsTransparent | source/c_api/c_api.cpp:177-204 | on a given stream: a call that shows nothing changes nothing that later calls return or show if it found a batch or was refused; otherwise it has used up the error it returns |
| Reading.TransparentIff | source/c_api/c_api.cpp:39-47 | over all streams: such a call changes nothing that later calls return or show, if and only if it is refused for its arguments or a batch is already unread |
| Reading.ErrorIsLost | source/c_api/c_api.cpp:190-204 | a stream whose first result is NETWORK and whose second is a batch: after a timestamp read the next read succeeds, without it that read returns the failure |
| Reading.ClientMeans | source/c_api/c_api.cpp:177-227 | STREAM_ERROR_CLIENT from a read is the buffer's size if and only if a batch is unread afterwards; a large enough buffer then gets exactly that batch; otherwise the error was the engine's |
| Reading.SwallowedIff | source/c_api/c_api.cpp:44-47 | on a given stream: losing that error goes unnoticed by all later calls if and only if the stream repeats it for ever |
| Swallowed.UnnoticedIff | source/c_api/c_api.cpp:39-47 | on an engine between calls: whatever the server answers from now on and on every continuation, losing the next result, if it is an error, goes unnoticed if and only if the cursor is exhausted or the stream cancelled (sequential mode), or a batch is ready, or the stream is cancelled with only CANCELLED left to hand out (prefetch mode) |
| Swallowed.CancelledHolds | source/core/engine.hpp:236-254 | only a cancelled stream has a cycle that ended in CANCELLED |
| Reading.HandleReadsChain | source/c_api/c_api.cpp:39-67 | on an engine in either mode, under every schedule, the handle's caller reads a prefix of the page chain |
| Reading.EachEnds | source/c_api/c_api.cpp:238-241 | foreach returns STREAM_OK only after EXHAUSTED, having consumed every batch until then |
| Reading.ForeachIsHonest | source/c_api/c_api.cpp:231-253 | STREAM_OK from foreach on a handle that has reported no error means that every page of the chain was delivered in order |
| HandleEndings.HandleAfterCancelIff | source/c_api/c_api.cpp:39-47 | after stream_cancel every read that asks for data returns CANCELLED and shows nothing, on every continuation, if and only if no batch is unread and the engine's condition holds |
| HandleEndings.NothingAfterHasNext | source/c_api/c_api.cpp:152-159 | after stream_has_next answered 0 nothing is ever shown again, and no read but a foreach returns STREAM_OK |
| HandleEndings.BarrenRun | source/c_api/c_api.cpp:161-253 | while the engine gives no batch, calls show nothing and return its errors |
| Timestamps.HandleReports | source/c_api/c_api.cpp:61-63 | the unread batch's timestamp is that of the latest result taken; hence, the stream supplying the engine's cursor as it stood at that read, it is that cursor's start |
| Timestamps.RequestsAskForOwn | source/core/engine.hpp:256-257 | until a response is accepted, every request of a cycle asks for the window start the cycle began with |
| Timestamps.DatadogTimestamp | source/c_api/c_api.cpp:61-63 | after the k-th batch, whose range began at k - 1 windows, k windows are reported in sequential mode, and k or k + 1 in prefetch mode, as the next worker has advanced or not |
| Timestamps.TimestampIsOwnIff | source/c_api/c_api.cpp:190-204 | under each policy that leaves the key alone: the reported start is the batch's own, on every engine and schedule, if and only if the adapter passes the start on |

## Left out

- CurlTransport, sockets, TLS and URL escaping: the transport is an arbitrary response to each request; the parts of a request that do not depend on the cursor are not modelled.
- JSON parsing and printing: a body is a parsed document or malformed, and the printer is an arbitrary function; a next token that is not a string and not null is read as the empty token.
- Registry, configuration loaders, `stream_create` and null handles: each is settled by one branch; the loader's ranges are the validity predicate of the policy.
- Language bindings, log text, token redaction, Prometheus formatting, the metrics callback and the 80% budget warning: presentation.
- Memory orderings, floating-point rounding, the random generator and the clock: sequential consistency, exact reals, any jitter in [0.75, 1.25], and a timeout that may strike whenever the result is not ready.
- Overflow of int32, int64 and size_t: integers are unbounded, with INT_MAX as an explicit bound only where an index is printed and read back; in particular the int32 casts of text sizes in the C API.
- A negative prompt index, which is undefined behaviour in the source, yields the empty prompt; token counts are not forced to be nonnegative.
- Dynamic dispatch: adapters and policies fill the engine's slots as records of functions; the adapter objects are proved to be those functions.
- Interference.RunUnder: the other threads are cancel() calls only; workers and timeouts belong to the prefetch machine.
- Engine.ExecutionEngine.Stream: makes at most a given number of turns, because an endless chain keeps the source's loop running for ever.
- PrefetchEngine.PrefetchingEngine.Stream: likewise, with the wait of each call bounded as in NextBatch.
- CApi.StreamHandle.ForeachV1: makes at most a given number of turns, because the source's loop does not end on an endless chain; every call that ends is covered by some number.
- PrefetchEngine.PrefetchingEngine.NextBatch: the wait lasts a given number of turns of the other threads instead of ten minutes.
- PrefetchEngine.PrefetchingEngine.Perform: a worker's fetch cycle is run by the step functions; Engine.ExecutionEngine.FetchOne is the same cycle as an object method, in sequential mode.
- Drain.DrainTerminates: for prefetch mode, where the code bounds consecutive failures; sequential mode has no bound (Drain.SequentialDrainNeverEnds).
