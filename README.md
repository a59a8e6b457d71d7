# Discrete-event simulators of distributed-systems behaviour, in Dafny

This project models a collection of small discrete-event simulators. Each
one studies one behaviour of distributed systems:

- **retry_sim**: how retry policies amplify load on a failing server. The
  policies are a fixed budget of N retries, an adaptive token bucket and a
  circuit breaker. The load comes from open-loop, serial and serial-with-backoff
  clients.
- **cache_sim**: a cold-started LRU cache in front of a backend that can
  serve only so many requests per second.
- **nudge**: a single server fed by FCFS, LIFO or "Nudge" queues. A Nudge
  queue lets a newly arriving job swap once with a larger job just ahead of it.
- **omission**: open-loop and closed-loop clients of a multi-slot server.
  One open-loop client also offers a replacement for every job that took
  longer than its timeout.
- **ski_sim**: skiers cycling between a lift line, a chair lift and the slope.
- **simple_collapse_sim**: timeouts and retries against a server whose
  latency grows with its concurrency, driven by ramp-shaped or spike-shaped
  load. The clients retry either immediately or with exponential backoff
  and jitter.

Every simulator runs the same event loop. It keeps a collection of pending
`(time, handler)` events, repeatedly removes an earliest one, runs its
handler, and adds the events the handler returns. The module `Kernel` holds
that loop's queue operations once, as pure functions on a sequence of
events, with their proved properties:

- the removed event is an earliest one;
- the queue loses exactly that event;
- handlers never schedule into the past, so the dispatched times form a
  non-decreasing trace.

Each simulator is one module. Its objects (strategies, clients, servers,
queues, lifts, skiers, statistics) are classes whose methods update their
fields in place. A method is specified by:

- a pure function of the old state, or
- an outright statement of the new state and the returned events.

Each sim loop is a `while` loop whose invariants tie the pending events to
the objects' state. Examples:

- every occupied server slot has exactly one completion pending;
- every skier is in exactly one place (line, lift or slope) and matches its state;
- the collapse server's concurrency equals the number of pending ends;
- a client's retry counter never lets it exceed its three attempts.

Random draws and the answers of code outside the model are parameters of
each step. These are exponential gaps, Weibull or normal sizes, uniform
jitter, and the retry simulator's server outcome.

## Model

| member | source | states |
|---|---|---|
| Kernel.MinIndex | ski_sim.py:135 | the index of an event whose time is no later than any other pending event's |
| Kernel.PopMin | ski_sim.py:135 | the popped event was pending, nothing left is earlier, and the rest is the queue minus exactly that event (as multisets) |
| Kernel.Extend | ski_sim.py:139-141 | the queue gains exactly the returned events (length and multiset), and returning nothing is the same as returning an empty list |
| Kernel.DispatchKeepsClock | ski_sim.py:133-141 | if no pending event is before the clock and the handler schedules nothing before the popped time, the clock only advances and the new queue has nothing before it |
| Kernel.TraceStaysSorted | ski_sim.py:135 | appending a time no earlier than the last keeps the dispatch trace sorted |
| Kernel.KindCountPopMin | ski_sim.py:135 | popping removes exactly one event of its own kind and none of any other |
| RetryStrategy.NRetriesStrategy.constructor | retry_sim/retry_strategy.py:5-7 | a budget of N with no tries spent |
| RetryStrategy.NRetriesStrategy.NewCall | retry_sim/retry_strategy.py:9-10 | each call gets a fresh budget with the same N and nothing spent |
| RetryStrategy.NRetriesStrategy.ShouldRetry | retry_sim/retry_strategy.py:15-17 | one try is spent, and a retry is granted iff the tries spent are still within N |
| RetryStrategy.ConsecutiveAnswers | retry_sim/retry_strategy.py:15-17 | over k consecutive failures, answer i is a retry iff the (i+1)-th try is within N: exactly the first N failures are retried |
| RetryStrategy.ThreeRetriesScenario | retry_sim/retry_strategy.py:15-17 | a budget of 3 retries the first three failures and refuses the fourth |
| RetryStrategy.AdaptiveRetryStrategy.constructor | retry_sim/retry_strategy.py:27-30 | the bucket starts full; with a non-negative size it holds between 0 and its size |
| RetryStrategy.AdaptiveRetryStrategy.NewCall | retry_sim/retry_strategy.py:32-33 | every call shares the client's one bucket |
| RetryStrategy.AdaptiveRetryStrategy.Start | retry_sim/retry_strategy.py:35-36 | starting a call refills the bucket by the fill rate, capped at its size, keeping it within bounds |
| RetryStrategy.AdaptiveRetryStrategy.ShouldRetry | retry_sim/retry_strategy.py:38-43 | a retry is granted iff more than one token is left, and then costs exactly one token; the bucket stays within bounds |
| RetryStrategy.Min | retry_sim/retry_strategy.py:36 | the result is one of the two arguments and no larger than either |
| RetryStrategy.DrainBucket | retry_sim/retry_strategy.py:38-43 | k failures without refills answer as BucketAnswers of the starting tokens and remove one token per granted retry |
| RetryStrategy.BucketAnswers | retry_sim/retry_strategy.py:38-43 | answer i is a retry iff the tokens minus i are above one |
| RetryStrategy.BucketAnswersSpent | retry_sim/retry_strategy.py:38-43 | a run of failures gets at most one retry per failure, and when some are refused at most one token remains |
| RetryStrategy.FullBucketScenario | retry_sim/retry_strategy.py:38-43 | a full bucket of 5 grants four retries in a row and refuses the fifth |
| RetryStrategy.CircuitBreakerRetryStrategy.constructor | retry_sim/retry_strategy.py:69-73 | the breaker starts with no calls and no failures |
| RetryStrategy.CircuitBreakerRetryStrategy.NewCall | retry_sim/retry_strategy.py:75-76 | a call gets the shared breaker and a fresh budget of the breaker's N |
| RetryStrategy.CircuitBreakerRetryCall.constructor | retry_sim/retry_strategy.py:54-56 | the call keeps the breaker and its budget |
| RetryStrategy.CircuitBreakerRetryCall.Start | retry_sim/retry_strategy.py:58-59 | a started call counts one call on the shared breaker and no failure |
| RetryStrategy.CircuitBreakerRetryCall.ShouldRetry | retry_sim/retry_strategy.py:61-66 | every failure is counted; while failures per call exceed the limit the answer is no and the budget is untouched, otherwise the budget decides |
| RetryStrategy.BreakerScenario | retry_sim/retry_strategy.py:61-66 | a 10% breaker with 10 calls and 1 failure refuses the next failure without spending the call's budget |
| RetryStrategy.NewCall | retry_sim/client.py:100 | the per-call policy of each of the three strategies: a fresh budget, the shared bucket, or the breaker with a fresh budget |
| RetryStrategy.StartCall | retry_sim/client.py:107 | starting a call does what its strategy's start does, and never lowers any breaker's call count |
| RetryStrategy.AskRetry | retry_sim/client.py:118 | the answer is the one the strategy's state predicts before asking, and the state moves as that answer says |
| RetryStrategy.Make | retry_sim/retry_strategy.py:19-84 | each factory builds a fresh strategy of its own kind from its parameters |
| RetryStats.Stats.constructor | retry_sim/retry_sim.py:12-17 | all counters start at zero |
| RetryStats.Stats.FirstTry | retry_sim/retry_sim.py:19-21 | a first try is one more unique call and one more total call |
| RetryStats.Stats.Retry | retry_sim/retry_sim.py:23-24 | a retry is one more total call only |
| RetryStats.Stats.Success | retry_sim/retry_sim.py:26-27 | a success is one more success only |
| RetryClient.Client.constructor | retry_sim/client.py:10-16 | the client keeps its strategy, rate, stats and backoff, and is not draining |
| RetryClient.Client.GenLoad | retry_sim/client.py:18-24 | when draining nothing is scheduled; otherwise its own next run after the drawn gap and a new call starting now |
| RetryClient.Client.DoneSuccess | retry_sim/client.py:26-27 | an open-loop client schedules nothing when a call succeeds |
| RetryClient.Client.DoneFailure | retry_sim/client.py:29-30 | an open-loop client schedules nothing when a call fails |
| RetryClient.Max | retry_sim/client.py:52 | the result is one of the two arguments and no smaller than either |
| RetryClient.SerialClient.constructor | retry_sim/client.py:36-43 | not draining, last call start at 0 |
| RetryClient.SerialClient.GenLoad | retry_sim/client.py:45-55 | unless draining, the one next call starts the drawn gap after the previous start but never before now, and that time is remembered |
| RetryClient.SerialClient.DoneSuccess | retry_sim/client.py:57-58 | a success schedules the next call exactly as GenLoad does |
| RetryClient.SerialClient.DoneFailure | retry_sim/client.py:60-61 | a failure schedules the next call exactly as GenLoad does |
| RetryClient.SerialClientWithBackoff.constructor | retry_sim/client.py:68-76 | the base and current backoff are one over the rate |
| RetryClient.SerialClientWithBackoff.GenLoad | retry_sim/client.py:78-83 | unless draining, one new call starts after the drawn gap |
| RetryClient.SerialClientWithBackoff.DoneSuccess | retry_sim/client.py:85-88 | a success resets the backoff to the base and schedules the next call as GenLoad does |
| RetryClient.SerialClientWithBackoff.DoneFailure | retry_sim/client.py:90-95 | a failure schedules the next load generation after the current backoff, which then doubles |
| RetryClient.Call.constructor | retry_sim/client.py:99-104 | a new call has its own per-call policy, the client's stats and the client's retry backoff |
| RetryClient.Call.Start | retry_sim/client.py:106-109 | the policy is started, one unique call is counted, and the server is asked after the round trip |
| RetryClient.Call.DoneSuccess | retry_sim/client.py:112-115 | one success is counted and the client reacts as it does to a success; a backoff that was not negative stays so |
| RetryClient.Call.DoneFailure | retry_sim/client.py:117-126 | if the policy grants a retry, one retry is counted and the server is asked again after the round trip plus the backoff, which doubles; otherwise the client reacts to a failure; no backoff turns negative |
| RetryClient.ClientDoneSuccess | retry_sim/client.py:115 | each client kind's reaction to a success |
| RetryClient.ClientDoneFailure | retry_sim/client.py:126 | each client kind's reaction to a final failure |
| RetrySim.Starts | retry_sim/client.py:24 | the number of call starts among the events; zero iff none is a start |
| RetrySim.Seed | retry_sim/retry_sim.py:44 | one load-generation event per client, at that client's drawn time |
| RetrySim.SeedOnePerClient | retry_sim/retry_sim.py:44 | distinct clients each get exactly one seed event, and no one else gets any |
| RetrySim.SeedLinked | retry_sim/retry_sim.py:44 | every seed event belongs to a client of the run, and every client has one |
| RetrySim.SeedNames | retry_sim/retry_sim.py:44 | the i-th seed event is the i-th client's |
| RetrySim.SeedInOrder | retry_sim/retry_sim.py:44 | with non-negative round-trip draws no seed event lies before time zero, and all of them generate load |
| RetrySim.OwnedInWorld | retry_sim/retry_sim.py:41-50 | what a client may change lies within the objects the run may change |
| RetrySim.GenLoadOpen | retry_sim/client.py:18-24 | an open-loop client that is not draining keeps its own next run pending; with a non-negative gap nothing is scheduled before now, and the new call's backoff is not negative |
| RetrySim.GenLoadSerial | retry_sim/client.py:45-55 | a draining serial client schedules nothing; the next start is never before now, and the new call's backoff is not negative |
| RetrySim.GenLoadBackoff | retry_sim/client.py:78-83 | a draining backoff client schedules nothing; with a non-negative gap nothing is scheduled before now |
| RetrySim.DispatchStart | retry_sim/client.py:106-109 | a call start yields one server request after the round trip, so never before now |
| RetrySim.DispatchSuccess | retry_sim/client.py:112-115 | a success yields at most one event, none before now and none for a draining client; no backoff turns negative |
| RetrySim.DispatchFailure | retry_sim/client.py:117-126 | a failure yields at most one event, never before now since round trips and backoffs are not negative; a draining client starts no new call; no backoff turns negative |
| RetrySim.Dispatch | retry_sim/retry_sim.py:47-48 | the handler an event names runs; nothing is scheduled before the event's time and no backoff turns negative; an open-loop client that is not draining keeps its next run pending; a draining client starts no call, gets back at most one event, and none for a load generation |
| RetrySim.StillPending | retry_sim/retry_sim.py:47-48 | an event kind still pends after a step unless that step popped its only copy and did not re-add it |
| RetrySim.Step | retry_sim/retry_sim.py:47-49 | one step pops the earliest event and dispatches it; nothing pending is then earlier than that event; every call is either still tracked or freshly created; clients' drain flags are untouched; while the event's client drains the queue does not grow |
| RetrySim.Advance | retry_sim/retry_sim.py:47-50 | dispatching an earliest event whose handler schedules nothing before it keeps the trace sorted, the queue no earlier than the clock, and the drain flag in step with the horizon |
| RetrySim.SimLoop | retry_sim/retry_sim.py:41-50 | as written: the dispatched times never go backwards and nothing pending is earlier than the clock; the run stops only when the queue empties or the draws run out, the drain flag records whether the clock passed the horizon, and any non-draining open-loop client keeps the run going until the draws run out |
| RetrySim.SetDrain | retry_sim/retry_sim.py:50 | every client sees the new drain flag; no backoff changes |
| RetrySim.StaysQuiet | retry_sim/retry_sim.py:50 | a step that starts nothing and does not lengthen the queue after a step past the horizon keeps the run quiet |
| RetrySim.StepAndDrain | retry_sim/retry_sim.py:47-50 | one corrected step: dispatch, then every client sees whether this event was past the horizon; the trace stays in order; a draining run starts no call and does not lengthen the queue |
| RetrySim.SimLoopDraining | retry_sim/retry_sim.py:41-50 | corrected: the dispatched times never go backwards; every step after one past the horizon starts no new call and leaves the queue no longer than the step before it |
| CacheSim.Without | cache_sim/cache_sim.py:20 | removing a key keeps every other key and drops only that one |
| CacheSim.WithoutDistinct | cache_sim/cache_sim.py:20 | removing a present key from a duplicate-free order shortens it by exactly that key |
| CacheSim.Store | cache_sim/cache_sim.py:23-24 | storing nothing leaves the map unchanged; storing a value maps the key to it and changes no other key |
| CacheSim.LRU.constructor | cache_sim/cache_sim.py:9-15 | the cache starts full with keys 1..capacity, all present |
| CacheSim.LRU.Put | cache_sim/cache_sim.py:18-25 | a present key moves to the most-recent end with its old value; when the cache was full the least-recently-used key is evicted first; a new value is stored only if given |
| CacheSim.LRU.IsCached | cache_sim/cache_sim.py:28-29 | a hit iff the key is present, and a hit refreshes its recency; a miss on a full cache still evicts the least-recently-used key |
| CacheSim.LRU.Flush | cache_sim/cache_sim.py:32-33 | the cache becomes empty |
| CacheSim.ColdMissScenario | cache_sim/cache_sim.py:18-29 | in a full cache of two, a hit refreshes key 1, and a miss on key 3 evicts key 2 and caches nothing |
| CacheSim.Stats.constructor | cache_sim/cache_sim.py:37-41 | no hits, no misses, last report at time 0 |
| CacheSim.Stats.AddStats | cache_sim/cache_sim.py:43-50 | more than a second after the last report, the counts so far are reported and reset; then the lookup is counted as a hit or a miss |
| CacheSim.RecordLookups | cache_sim/cache_sim.py:43-50 | a run of lookups leaves some count behind, reports at most once per lookup, and every report carries non-negative counts with a positive sum, so the hit-rate division never divides by zero |
| CacheSim.Backend.constructor | cache_sim/cache_sim.py:56-59 | nothing served yet, window starting at 0 |
| CacheSim.Backend.Get | cache_sim/cache_sim.py:63-67 | a new one-second window starts when more than a second has passed; the request is served iff the count in the window stays within the limit |
| CacheSim.Burst | cache_sim/cache_sim.py:63-67 | within one window the requests served form a prefix of the burst: once one is refused, all later ones are |
| NudgeSim.PlainAll | nudge/nudge.py:38-42 | a queue's jobs with their swapped flags cleared, position by position |
| NudgeSim.NudgeAppendNearFCFS | nudge/nudge.py:73-88 | appending keeps all but the last waiting job in place, and differs from FCFS order iff the last waiting job is larger and never swapped, in which case the two trade places |
| NudgeSim.NudgeAppendPermutes | nudge/nudge.py:73-88 | a Nudge append holds exactly the old jobs plus the new one |
| NudgeSim.NudgeAppendKeepsSwapped | nudge/nudge.py:73-88 | a job that was swapped once is never moved again, and only the last waiting job can change |
| NudgeSim.NudgeAppendFCFSCases | nudge/nudge.py:73-88 | when the queue is empty, or the last job is no larger or already swapped, the append is FCFS |
| NudgeSim.Take | nudge/nudge.py:61-62 | LIFO takes the newest job, FCFS and Nudge take the oldest; the rest stays in order |
| NudgeSim.JobQueue.constructor | nudge/nudge.py:55-56 | an empty queue with the chosen discipline |
| NudgeSim.JobQueue.Append | nudge/nudge.py:58-59 | the queue becomes its discipline's append of the job |
| NudgeSim.JobQueue.Pop | nudge/nudge.py:61-96 | the job taken and the queue left are the discipline's Take |
| NudgeSim.Server.constructor | nudge/nudge.py:103-107 | an idle server with nothing in flight |
| NudgeSim.Server.JobDone | nudge/nudge.py:109-120 | the finished job is the one in flight; the next waiting job starts and completes after its size, or the server goes idle |
| NudgeSim.Server.Start | nudge/nudge.py:122-125 | an idle server becomes busy with the job |
| NudgeSim.Client.constructor | nudge/nudge.py:129-131 | the client feeds the given server |
| NudgeSim.Client.Generate | nudge/nudge.py:133-141 | the next arrival is scheduled after the gap; a busy server queues the job, an idle one starts it and schedules its completion |
| NudgeSim.AppendedSizes | nudge/nudge.py:73-88 | appending a job of non-negative size keeps every waiting job's size non-negative |
| NudgeSim.Dispatch | nudge/nudge.py:150-158 | an arrival adds one job; a completion finishes exactly the job in flight; no event is in the past |
| NudgeSim.SimLoop | nudge/nudge.py:144-158 | the trace is sorted; one arrival is always pending; a completion is pending iff the server is busy; jobs are conserved (generated + held before = finished + held after) |
| OmissionSim.Occupied | omission/omission.py:69 | the number of occupied slots is at most the number of slots |
| OmissionSim.OccupiedUpdate | omission/omission.py:81-85 | writing one slot changes the occupied count by exactly that slot's change |
| OmissionSim.OccupiedFull | omission/omission.py:94-102 | when every slot is occupied the count equals the number of slots |
| OmissionSim.FirstFree | omission/omission.py:97-100 | when some slot is free, the result is the first free slot |
| OmissionSim.OfferResult | omission/omission.py:93-106 | below the MPL the job takes the first free slot and completes after its size; otherwise it is queued and nothing is scheduled; one more job is held and the busy count stays the occupied count |
| OmissionSim.Release | omission/omission.py:73-85 | a completed slot takes the oldest queued job (completing after its size) or becomes free; one fewer job is held |
| OmissionSim.ClientDone | omission/omission.py:123-166 | open loop: nothing; closed loop: a think-done event after the think time; with a timeout: a replacement offered iff the job took longer than the timeout |
| OmissionSim.JobDoneResult | omission/omission.py:73-91 | a completion releases its slot and then runs the client's reaction; completions stay matched to occupied slots |
| OmissionSim.OfferAll | omission/omission.py:135-136 | offering jobs one by one holds that many more jobs, and keeps completions matched to occupied slots |
| OmissionSim.FCFSQueue.constructor | omission/omission.py:47-48 | an empty queue |
| OmissionSim.FCFSQueue.Append | omission/omission.py:50-51 | the job joins the back |
| OmissionSim.FCFSQueue.Pop | omission/omission.py:53-54 | the oldest job leaves the front |
| OmissionSim.Server.constructor | omission/omission.py:64-71 | no busy slots, all MPL slots free, nothing queued |
| OmissionSim.Server.Offer | omission/omission.py:93-106 | the server's new state and the returned event are OfferResult of the old state |
| OmissionSim.Server.JobDone | omission/omission.py:73-91 | the completed job is the one in the slot, and the new state and events are JobDoneResult |
| OmissionSim.Server.Done | omission/omission.py:87-89 | the client's reaction is ClientDone of the old state |
| OmissionSim.GenerateOpen | omission/omission.py:114-121 | the job is offered as OfferResult says, and the next generation is scheduled after the gap |
| OmissionSim.GenerateClosed | omission/omission.py:134-136 | the whole population offers one job each, as OfferAll says |
| OmissionSim.JobsAt | omission/omission.py:135 | one job per drawn size, all created now |
| OmissionSim.ThinkDoneHandler | omission/omission.py:138-140 | one job is offered; the result is its completion event, or nothing when queued |
| OmissionSim.Dispatch | omission/omission.py:176-184 | no event is in the past, completions stay matched to slots, and exactly one job completes iff the event is a completion |
| OmissionSim.Step | omission/omission.py:176-184 | one step pops the earliest event; completions stay matched to occupied slots and the client population is conserved |
| OmissionSim.SimLoop | omission/omission.py:170-184 | the trace is sorted; every occupied slot has exactly one completion pending; jobs are conserved (held before + created = completed + held after) |
| OmissionSim.StepCounts | omission/omission.py:176-184 | popping a completion and adding the handler's events keeps completions matched to slots |
| SkiSim.Skiier.constructor | ski_sim.py:43-47 | a new skier is waiting |
| SkiSim.Skiier.BoardLift | ski_sim.py:51-54 | a waiting skier rides and leaves the lift after the drawn ride time |
| SkiSim.Skiier.LeaveLift | ski_sim.py:58-62 | a riding skier skis and rejoins the line after slope length over speed |
| SkiSim.Skiier.JoinQueue | ski_sim.py:65-69 | a skiing skier waits at the back of the line and nothing is scheduled |
| SkiSim.PopOrder | ski_sim.py:90-93 | a chair boards up to its width, never more than are waiting |
| SkiSim.PopOrderAt | ski_sim.py:92 | the i-th skier to board is the i-th from the back of the line |
| SkiSim.LeaveEvents | ski_sim.py:93 | one departure per boarded skier |
| SkiSim.LeaveEventAt | ski_sim.py:93 | the i-th departure is the i-th boarded skier's, after the i-th ride time |
| SkiSim.LeaveEventsCount | ski_sim.py:93 | each boarded skier gets exactly one departure |
| SkiSim.Lift.constructor | ski_sim.py:78-84 | the line starts empty |
| SkiSim.Lift.DequeueSkiiers | ski_sim.py:88-94 | the skiers at the back of the line board, newest first, up to the chair width; the line loses exactly them; the next chair and their departures are scheduled |
| SkiSim.Lift.BoardNext | ski_sim.py:91-93 | the newest skier in line boards |
| SkiSim.Lift.Seat | ski_sim.py:90-93 | after seat i, exactly the skiers boarded so far are riding and the rest are still waiting |
| SkiSim.BoardingStep | ski_sim.py:90-93 | boarding one more skier keeps the boarded, the line and the departures in step |
| SkiSim.SkiingCount | ski_sim.py:116 | the number of skiers skiing is at most the number of skiers |
| SkiSim.Stats.constructor | ski_sim.py:106-112 | no samples yet |
| SkiSim.Stats.CalcStats | ski_sim.py:114-118 | a sample records the line length and the fraction of skiers skiing, which lies between 0 and 1, and the next sample is scheduled |
| SkiSim.FractionBounds | ski_sim.py:117 | a count over a larger positive total lies between 0 and 1 |
| SkiSim.StepDequeue | ski_sim.py:88-94 | a chair keeps every skier in exactly the one place its state names |
| SkiSim.DequeueKeepsSingletons | ski_sim.py:88-94 | after a chair there is still exactly one pending chair and one pending statistics sample |
| SkiSim.StepCalc | ski_sim.py:114-118 | a sample keeps every skier in exactly the one place its state names |
| SkiSim.StepLeave | ski_sim.py:58-62 | a departure keeps every skier in exactly the one place its state names |
| SkiSim.StepJoin | ski_sim.py:65-69 | an arrival at the line keeps every skier in exactly the one place its state names |
| SkiSim.Step | ski_sim.py:133-141 | one step pops the earliest event, never goes back in time, and keeps every skier placed |
| SkiSim.StartPlaced | ski_sim.py:129 | with everyone waiting in line, one sample and one chair pending place every skier |
| SkiSim.SimLoop | ski_sim.py:127-141 | the trace is sorted; at every point each skier is in exactly one place (the line, one pending departure, or one pending arrival) as its state says, and one sample and one chair are pending |
| CollapseSim.Stats.constructor | simple_collapse_sim/sim.py:162-165 | counters at zero from time 0, no history |
| CollapseSim.Stats.Retry | simple_collapse_sim/sim.py:167-168 | one more retry, nothing else |
| CollapseSim.Stats.Start | simple_collapse_sim/sim.py:170-171 | one more start, nothing else |
| CollapseSim.Stats.Success | simple_collapse_sim/sim.py:173-174 | one more success, nothing else |
| CollapseSim.Stats.Timeout | simple_collapse_sim/sim.py:176-177 | one more timeout, nothing else |
| CollapseSim.Stats.PrintStats | simple_collapse_sim/sim.py:179-184 | the second's counters go into the history, fresh counters start now, and the next report is a second later |
| CollapseSim.Server.constructor | simple_collapse_sim/sim.py:90-91 | concurrency starts at 0 |
| CollapseSim.Server.Start | simple_collapse_sim/sim.py:93-95 | concurrency rises by one and the request ends after the base time plus the concurrency-dependent slowdown, never sooner than the base time |
| CollapseSim.Server.End | simple_collapse_sim/sim.py:97-99 | concurrency falls by one and the answer reaches the client after the network delay |
| CollapseSim.Client.constructor | simple_collapse_sim/sim.py:33-37 | three retries left, first try, backoff 10 |
| CollapseSim.Client.SendReq | simple_collapse_sim/sim.py:40-42 | two events tagged with the current try: the timeout after the request limit plus the extra delay, and the server start after the network delay plus the extra delay |
| CollapseSim.Client.SendNewReq | simple_collapse_sim/sim.py:44-46 | one start is counted and the request is sent without extra delay |
| CollapseSim.Client.RetryWait | simple_collapse_sim/sim.py:49-50 | without jitter no wait; with jitter the backoff doubles first and the wait is a uniform fraction of it, below it |
| CollapseSim.Client.Timeout | simple_collapse_sim/sim.py:54-63 | a stale timeout changes nothing; a current one counts a timeout, spends a retry and moves to the next try; it resends after the retry wait iff retries are left |
| CollapseSim.Client.Done | simple_collapse_sim/sim.py:67-71 | an answer to the current try counts a success and retires the try; a stale one changes nothing |
| CollapseSim.Jittered | simple_collapse_sim/sim.py:82 | a uniform draw in [0, 1) times a positive backoff lies in [0, backoff) |
| CollapseSim.ThreeTimeouts | simple_collapse_sim/sim.py:54-63 | a request that never gets an answer is sent three times in all and then abandoned: three timeouts, two retries |
| CollapseSim.LateAnswer | simple_collapse_sim/sim.py:67-71 | an answer to a timed-out try is ignored, and the answer to the retry counts as the success |
| CollapseSim.RampUpDownLoadGenerator.constructor | simple_collapse_sim/sim.py:103-109 | the generator keeps its parameters |
| CollapseSim.RampUpDownLoadGenerator.Rate | simple_collapse_sim/sim.py:113 | with a non-negative slope the rate never exceeds the base rate, which it reaches at the peak time |
| CollapseSim.RampUpDownLoadGenerator.GenLoad | simple_collapse_sim/sim.py:111-116 | a fresh client sends its first request now, and the next arrival is scheduled iff the current rate is positive |
| CollapseSim.RampWindow | simple_collapse_sim/sim.py:113-115 | arrivals continue exactly within base-rate/slope of the peak time |
| CollapseSim.SpikeLoadGenerator.constructor | simple_collapse_sim/sim.py:120-127 | the generator keeps its parameters |
| CollapseSim.SpikeLoadGenerator.Rate | simple_collapse_sim/sim.py:131-134 | the peak rate inside the closed spike window, the base rate outside |
| CollapseSim.SpikeLoadGenerator.GenLoad | simple_collapse_sim/sim.py:129-135 | a fresh client sends its first request now, and the next arrival is always scheduled |
| CollapseSim.EndsAppend | simple_collapse_sim/sim.py:232 | the pending server ends of two event lists add up |
| CollapseSim.EndsPopMin | simple_collapse_sim/sim.py:226 | popping removes one pending end iff the popped event is an end |
| CollapseSim.NoEnds | simple_collapse_sim/sim.py:41-42 | events without server ends count no ends |
| CollapseSim.StepPrint | simple_collapse_sim/sim.py:179-184 | a report keeps the loop invariant |
| CollapseSim.StepStart | simple_collapse_sim/sim.py:93-95 | a server start keeps concurrency equal to the pending ends |
| CollapseSim.StepEnd | simple_collapse_sim/sim.py:97-99 | a server end keeps concurrency equal to the pending ends |
| CollapseSim.StepTimeout | simple_collapse_sim/sim.py:54-63 | a timeout keeps retries at most timeouts and every client within its three tries |
| CollapseSim.StepDone | simple_collapse_sim/sim.py:67-71 | an answer keeps the loop invariant |
| CollapseSim.StepGen | simple_collapse_sim/sim.py:111-135 | an arrival creates one fresh, tracked client and keeps the loop invariant |
| CollapseSim.Step | simple_collapse_sim/sim.py:224-233 | one step pops the earliest event and keeps the invariant; every client named is old or freshly created |
| CollapseSim.SimLoop | simple_collapse_sim/sim.py:218-233 | the trace is sorted; server concurrency always equals its starting value plus the pending ends; retries never exceed timeouts in any second; every pending client event is for one of its three tries |

## Left out

- Printing, CSV output, headers and the averages computed for reports (`avg`, `stat_data_average`, the `Stats.print` methods). These are floating-point summaries of recorded counts.
- Random sampling (exponential, Weibull, normal and uniform draws, `net_rtt`, `netdelay`, `select_size`, `weibull_scale`, the job-type factories of omission/omission.py) becomes drawn parameters of each step. The loops assume only that the draws are non-negative, as those distributions give, except that the normal ride time is assumed non-negative too. The retry loops also assume what the drivers set up: non-negative first backoffs, and positive rates for the backoff clients, whose base backoff is one over the rate.
- The `run_sim*`, `run_sims*`, `make_sim_*` and `run_multiple_and_average_stats` drivers are set-up code and are not modelled, nor is the driver loop `run_sim` of cache_sim/cache_sim.py. The cache classes are modelled on their own.
- The retry simulator's `Server` class is not part of this model (it is not among the repository's files). Each server request is answered by one success or failure event taken from the step's draw.
- Every sim loop consumes one draw per step, so a run is bounded by its list of draws. A run that would go on forever in the source stops when the draws run out.
- Ties between events at the same time are broken by an unspecified choice of earliest event. The heap layout and Python's tie-break by comparing callbacks are not modelled.
- The loops dispatch the first event past the horizon before stopping: the test `t < max_t` reads the time of the previously dispatched event, as in omission/omission.py:176-184 and ski_sim.py:133-141.
- Python subclasses become variants: `ClientWithBackoffAndJitter` is a `jitter` flag of `CollapseSim.Client`; the nudge queues are a `Discipline`; the retry clients are a `ClientRef`; the omission clients are a `ClientKind`.
- The `server` back-reference in the collapse simulator's `StatData` is used only for printing and is left out.
- The collapse simulator's loop starts from the queue its drivers build: a report at 1.0 and the first arrival at 0.01.
- CollapseSim.RampUpDownLoadGenerator.GenLoad: the gap to the next arrival is a drawn parameter, so the sign of the rate passed to `expovariate` is not modelled.
- CacheSim.LRU.Put requires a positive capacity: with capacity 0 the source pops from an empty dictionary and raises.
- CacheSim.Stats.AddStats requires some lookup counted before a report, since the report divides by the count.
- RetryClient.SerialClientWithBackoff.constructor requires a non-zero rate, since the source divides by it.
- SkiSim.Skiier.LeaveLift requires a non-zero speed and SkiSim.Stats.CalcStats requires at least one skier, since the source divides by them. The loop requires positive speeds.
- Handler assertions (`assert self.busy`, the skier state checks, the busy-slot check) become preconditions, and the loops prove them from their invariants.
- The unused `O_NONBLOCK` import of retry_sim/retry_strategy.py has no counterpart.

## Findings

| source | as written | input that shows it | evidently intended | confidence | as-written member | corrected member |
|---|---|---|---|---|---|---|
| retry_sim/retry_sim.py:50 | `sim_loop` sets a module-level `drain` flag, but the clients only ever read their own `drain` attribute, which stays false | any run with an open-loop `Client`: every load generation schedules the next one, so the queue never empties and the loop never ends | once the clock passes the horizon the clients stop starting calls, so no later step makes the queue longer | not executed | RetrySim.SimLoop | RetrySim.SimLoopDraining |
