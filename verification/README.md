# A verified model of the travel planner

Dafny proofs about the parts of the travel planning service where the code is subtle: task creation and
execution under concurrency, streaming of model output, limiters, the canonical request record, and the
invariants of planning and of the plan library. `dafny verify dfyconfig.toml` checks everything.

Each file models one part of the program and is a module of the same name.

* **Creating a task.** `CreateTask` interleaves any number of calls at every lock, clock and store call;
  `CreateOutcome` says which answers of its surroundings make a call fail, and tells all its ways as stories.
  `RequestLock` has the two locks, in memory and in Redis, and `LockedCreation` puts calls and lock together.
  `TaskStore` is the store of record;
  `TaskCache` and `TaskCacheRuns` put the cache in front of it, first one call at a time, then interleaved
  with cache errors and expiry; `TaskCacheUse` says what the cache is good for.
* **Running and watching a task.** `EventBus` is the bus as a class with maps and channels; `EventDelivery`
  interleaves its snapshots, sends, subscriptions and departures, and `EventLosses` says what a slow reader
  can lose; `TaskStream` adds the task, its store and the stream requests, and `TaskCourse` tells all the
  ways a task can take; `TaskRunner` has the code of runTask and StreamPlan as methods over that protocol.
* **Streaming model output.** `SseStream` reads server-sent events line by line against a batch reading of
  the bytes; `SseWriting` writes such streams, and `SseContents` says what the result holds in terms of the
  decoded chunks. `SummaryStream` scans a growing JSON text for its summary; `SummaryWriting` writes such
  texts and gets them back, whole or cut, and `JsonText` does so with every spelling that section 7 of
  RFC 8259 allows, from a table of its own. `LlmStreaming` joins the two: what the user is shown.
  `Bytes` and `Utf8` hold what they share.
* **Limits.** `RateLimiter` is the fixed window per client, `ApiLimiter` the spacing and the semaphore in
  front of the external API.
* **Canonical forms.** `Brief` normalizes a request, `RequestRecord` is the record its hash is taken of.
  `LlmWarnings` prints what a plan says about the model calls, `Evaluator` reads it, and
  `WarningRoundTrip` connects the two. `Text` and `Numbers` hold what they share.
* **Planning.** `Itinerary` orders and distributes the places, `BudgetTool` adds up the costs and
  `BudgetShown` says which prices they are, `TravelPlan` has the validators, and `Planning` leads from places to a plan that passes them.
* **The library.** `PlanLibrary` has the stores and the operations on saved and published plans,
  `PlanLibraryRuns` what holds after every series of them.

Where the source keeps state in objects, maps and loops, the model has classes and methods, each proved
against a function of the old state or of the inputs; the properties are lemmas about those functions.
Concurrency is a state machine whose steps are the critical sections, sends and store calls of the code;
its theorems are about every run from the start.

## What the proofs brought to light

The code is modelled as it is. Where a natural property fails, the model has the exact condition or a
concrete run, or both.

* A send on the closed channel of a reader that leaves between the snapshot and the send of an event panics.
  What follows depends on the event. At the event of the creation, the task is never started
  (`TaskStream.LeavingReaderOrphansTheTask`, `CreateTask.UnannouncedTaskIsNeverPlanned`). At the done event, the
  recover function of runTask stores the task as failed and publishes an error after it
  (`TaskStream.LeavingReaderEndsTheTaskTwice`), and later readers are replayed both
  (`TaskStream.LateReaderIsReplayedBoth`, `TaskStream.ReplayIsRightIff`). At the recover function's own event
  nothing recovers, and the whole process goes down (`TaskStream.LeavingReaderCrashesTheProcess`).
  `TaskStream.HowATaskEnds` says exactly when each of the four ways out is taken, and
  `TaskStream.TaskEndsOnce` when a task ends once.
* If the update to running reports an error, runTask returns without any event: the task stays pending or
  running and its readers wait, whatever happens afterwards (`TaskStream.RefusedTaskNeverEnds`).
* A store that makes a task but reports an error leads the caller to find its own task and to take it for
  another call's; nobody runs it (`CreateTask.UnacknowledgedTaskIsNeverPlanned`).
* Without a unique index on the hash, a caller that outwaits the lock makes a second task
  (`CreateTask.OverwritingStoreAdmitsTwo`). Two tasks of a hash come to be exactly when one is stored over
  another (`CreateTask.SharedIffOverwritten`); one call of a hash at a time never does it
  (`CreateTask.OneAtATimeSharesNothing`), and lock, wait and lookup see to that as long as none of them fails,
  nobody tires of waiting and no lock runs out too early (`LockedCreation.LockedCallsShareNothing`).
* The in-memory lock can be freed by a late release (`RequestLock.ReleaseRobsIff`), and an empty hash is
  never exclusive.
* A cache in front of a store whose finished tasks are rewritten keeps answering with the old one
  (`TaskCacheRuns.RewrittenTaskStaysCached`); runTask never rewrites one (`TaskCacheRuns.CachedTasksAreRight`).
  A hash that is given a second task can be answered with the first
  (`TaskCacheRuns.SecondTaskOfAHashIsMissed`).
* The rate limiter admits up to 2 * limit - 1 calls in one window, not 2 * limit
  (`RateLimiter.AtMostTwiceTheLimit`, `RateLimiter.BoundIsReached`).
* The API limiter reserves more than qps times in some second unless qps divides 1e9
  (`ApiLimiter.KeepsRateIffDivides`). Calls may get through later than their reserved times, when they have
  to wait for the semaphore, and then any number of them can get through at once, whatever qps is
  (`ApiLimiter.LateCallsBunch`); the bound holds of calls that get through on time
  (`ApiLimiter.PromptRateIffDivides`).
* A character that is written as two surrogate escapes is shown as two replacement characters: each escape
  is taken by itself (`JsonText.EverySpellingIsRead`).
* An intensive pace together with low walking gives an itinerary that fails the planner's own pace check
  (`Itinerary.DailyPaceIff`).
* A budget is never complete: the hotel is always unavailable (`BudgetTool.BudgetAddsUp`).
* The harness drops equal warnings before it counts, so that two calls of the model with equal durations and
  token counts are counted as one (`WarningRoundTrip.HarnessIsRightIff`, `WarningRoundTrip.EqualTracesCountOnce`).
* A model that returns no plan is reported, on the first attempt, as one whose plan failed validation
  (`LlmWarnings.OwnReasons`).

Two comments in the source say something else than the code, and the model follows the code: the
summary scanner is said to match only the top-level key (`internal/agent/eino/summary_stream.go:115-118`),
but takes the first `"summary"` after an opening brace or a comma, at any depth
(`SummaryWriting.NestedKeyIsTaken`); and it is said to require a colon behind the key, but it skips to the
next colon wherever it is, which can be that of a later key (`SummaryWriting.SecondKeyCanBeTaken`).
`SummaryWriting.ValueOfThisKeyIff` is the exact condition.

## Assumptions

* One publisher per task, and one tool call per streamed answer; with a second one the reset branch of the
  display can be taken (`LlmStreaming.SecondCallReplays`, `LlmStreaming.SecondCallCanReplay`).
* Ids that are drawn at random are new. The request hash is injective on the record.
* The planner reports no done or error events of its own, and store and bus calls of CreateTask and runTask do
  not panic, except for the send on a closed channel.
* Clock readings of the rate limiter do not decrease in lock order; those of the API limiter are arbitrary.
* JSON decoding of one frame, and of the plan from its arguments, are parameters.
* Redis does set-if-absent with expiry, and compare-and-delete, atomically; a key lives while its expiry
  time is later than the present.

## Model

| member | source | states |
|---|---|---|
| CreateTask.SameRequestSameTask | internal/travel/service.go:95-149 | on every interleaving of any calls, with lock refusals, lock failures, wait timeouts, lookup errors and ambiguous writes, against a store that refuses a second task of a hash: two tasks never share a hash, and every successful call returns the one task of its hash |
| CreateTask.SharedIffOverwritten | internal/travel/task_store.go:36-45 | with either kind of store, on every run: two tasks of one hash come to be if and only if some task is stored while its hash already has one, and as long as none is, all successful calls for a hash return its one task |
| CreateTask.OneAtATimeSharesNothing | internal/travel/service.go:102-131 | with either kind of store, so with MemoryTaskStore: on every run in which at most one call of a hash at a time is looking up or creating, and no such lookup fails, two tasks never share a hash and every successful call returns the task of its hash |
| LockedCreation.LockedCallsShareNothing | internal/travel/service.go:95-149 | the same from the lock: with either lock and any store, on every run in which lock and lookups do not fail, nobody tires of waiting, and no lock runs out on a call that is looking up or creating (nor, in memory, before its release) |
| LockedCreation.StepKeepsGuard | internal/travel/service.go:95-130 | every step of such a run keeps whoever is looking up or creating in possession of the lock |
| CreateTask.PlannerStartsOnce | internal/travel/service.go:131-149 | on every run without overwriting, so on every run against a refusing store, the planner is started at most once per task; once the call that drew the id is over, exactly once if and only if the store acknowledged the creation and the event of the creation was sent |
| CreateTask.Create | internal/travel/service.go:73-150 | the code of one call, whatever its surroundings reply: it ends where the call automaton of the interleavings ends, with an id or an error; an error exactly when the last answer refuses the request or is the panic of the event's publication, or when the store reported an error and the last lookup found nothing |
| CreateOutcome.OnlyThenAnError | internal/travel/service.go:73-172 | on every run, with either kind of store: a caller gets an error if and only if its request was refused, or the event of its creation panicked, or the store reported an error for the creation and the lookup that follows found no task; and it gets an id if and only if that id was found last, or is its own and the planner has been started for it |
| CreateOutcome.CallsAreStories | internal/travel/service.go:73-172 | what a call goes through, whatever its surroundings reply, is exactly one of the stories written out there (refused; found while waiting; found by the lookup, with the lock, without it or after waiting; created, with what comes of it), and its caller gets what the story says: both directions |
| CreateOutcome.AnswersAreTheTruth | internal/travel/task_store.go:36-86 | in the interleavings an answer can come exactly when it is true of the store: lookups find what the hash leads to or miss, a refusing store takes a task only for a new hash; locks, lookups and creations can fail at any time |
| CreateTask.Announce | internal/travel/service.go:141-150 | the end of the call: the event, then the planner, or a panic in between |
| CreateTask.WaitForExistingTask | internal/travel/service.go:152-172 | polls until the task appears, a lookup fails or the call gives up; only then does the call go on, with the found id or without the lock |
| CreateTask.OverwritingStoreAdmitsTwo | internal/travel/task_store.go:36-45 | with MemoryTaskStore, which overwrites, a call that outwaits the lock holder makes a second task of the hash, and both are planned: a concrete run |
| CreateTask.UnacknowledgedTaskIsNeverPlanned | internal/travel/service.go:131-136 | a creation that is made but reported as failed leaves a task nobody plans, which every caller is then given: a concrete run |
| CreateTask.UnannouncedTaskIsNeverPlanned | internal/travel/service.go:137-144 | an acknowledged creation whose event meets the closed channel of a reader is not planned, and another call returns it: a concrete run |
| RequestLock.AtMostOneHolder | internal/travel/locks.go:31-85 | on every run a hash that is not empty has at most one unreleased, unexpired holder: always for the token lock, and for the memory lock whenever every release comes before expiry |
| RequestLock.ExclusiveUnlessRobbed | internal/travel/locks.go:31-50 | the only way to lose exclusion is a release that deletes an entry which another call has taken and which has not run out |
| RequestLock.LateReleaseFreesNobody | internal/travel/locks.go:65-85 | with tokens, a release by an expired holder leaves a later holder entered, holding and excluding |
| RequestLock.ReleaseRobsIff | internal/travel/locks.go:45-50 | memory lock: after a release the next caller can hold the lock beside another holder if and only if the entry is live and another call's |
| RequestLock.RefusedIffHeld | internal/travel/locks.go:31-85 | on every run a call is refused the lock of a hash only while another holds it, and always then unless a lock was freed for somebody else |
| RequestLock.HeldForItsTime | internal/travel/locks.go:31-85 | whoever acquires holds the lock for exactly the time to live from then on, whatever the others do, unless it releases it before |
| RequestLock.ReleaseLetsIn | internal/travel/locks.go:45-85 | whoever releases a lock it holds lets the next call in |
| RequestLock.EmptyHashExcludesNobody | internal/travel/locks.go:35-37 | an empty hash is acquired by everybody at once, with either lock |
| RequestLock.MemoryRequestLock.Acquire | internal/travel/locks.go:31-51 | which of the four answers, and the entry it leaves, as the step of the runs |
| RequestLock.MemoryRequestLock.Release | internal/travel/locks.go:45-50 | deletes the entry of the hash, whoever took it |
| RequestLock.TokenRequestLock.Acquire | internal/travel/locks.go:65-78 | set if absent or run out, with the caller's token, as the step of the runs |
| RequestLock.TokenRequestLock.Release | internal/travel/locks.go:75-85 | deletes the entry only on a matching token |
| TaskStream.TaskEndsOnce | internal/travel/service.go:271-319 | every run of runTask that stops has published exactly one done or error event, as its last, if and only if sending it met no closed channel; then the stored final status says the same |
| TaskStream.ReadersSeeOneTerminalEvent | internal/travel/handler.go:106-206 | for every interleaving with stream requests: a reader that stayed to the end has shown exactly one terminal event, last; unless sending the terminal event met a closed channel, a finished task is replayed, or the event synthesized, with exactly one terminal event, last, and in agreement with the stored status |
| TaskStream.ReplayIsRightIff | internal/travel/handler.go:126-145 | on every run, what a request for a finished task is replayed has exactly one terminal event, last, if and only if sending the terminal event met no closed channel or the recover function's error has not followed yet; and it agrees with the stored status if and only if, besides, it is not the done event of a task by then stored as failed |
| TaskStream.ReplayIsTheRecentPast | internal/travel/handler.go:126-206 | on every run a request for a finished task is given the last 100 events in order, and, if none of them is terminal, one more: done for a succeeded task, an error for a failed one |
| TaskStream.LateReaderIsReplayedBoth | internal/travel/handler.go:193-206 | a reader that asks for a task that ended twice is replayed a done and an error event: a concrete run |
| TaskStream.NoReaderIsStranded | internal/travel/handler.go:150-190 | on every run, once the terminal event is sent, or the error that follows when its sending was given up: a reader still streaming has a terminal event waiting if and only if it was given one, that is, one was published for it and neither dropped on its full buffer nor given up; so it has whenever the last event was not dropped |
| TaskStream.StatusOnlyAdvances | internal/travel/service.go:271-319 | the stored status moves from pending through running to one final status, and never changes afterwards |
| TaskStream.FinishedTaskIsNotUpdated | internal/travel/service.go:271-319 | the code never updates a task that is stored as finished |
| TaskStream.RefusedTaskNeverEnds | internal/travel/service.go:291-297 | after a running update that reported an error, whatever happens: nothing more is published, the stored status stays and is not final, and there is no terminal event |
| TaskStream.HowATaskEnds | internal/travel/service.go:271-319 | for every run: orphaned, refused and crashed exactly when a step of the run met the guard of that way out, and stopped exactly when the last update or event came without a crash |
| TaskStream.NoOtherEnd | internal/travel/service.go:271-319 | there is no fifth way to come to rest: anywhere else the code, or a send of its event, can go on |
| TaskCourse.RunsAreCourses | internal/travel/service.go:271-319 | what the code does on all runs, over any store, planner and readers, is exactly the set of courses written out there: each act of a task, in order, to the point reached; both directions |
| TaskCourse.EveryRunIsACourse | internal/travel/service.go:271-319 | on every run the published events, in their order, and the stored status are those the course says |
| TaskCourse.CourseHappens | internal/travel/service.go:271-319 | every course is taken by some run, and leaves the status it says |
| TaskCourse.SucceedsIff | internal/travel/service.go:300-319 | a task that stopped is stored as succeeded if and only if the planner returned a plan, no publication panicked, and the last update was made |
| TaskStream.LeavingReaderEndsTheTaskTwice | internal/travel/service.go:272-288 | a reader that closes its channel between snapshot and send of the done event makes a planned task store failed and publish an error as well: a concrete run |
| TaskStream.LeavingReaderCrashesTheProcess | internal/travel/service.go:279-288 | a reader that closes its channel between snapshot and send of the recover function's own event brings the process down: a concrete run |
| TaskStream.LeavingReaderOrphansTheTask | internal/travel/service.go:137-144 | a reader that closes its channel between snapshot and send of the creation's event leaves a task that is never started: a concrete run |
| TaskStream.StepKeepsInv | internal/travel/service.go:271-319 | every step of task, store, bus and readers keeps the invariant the theorems rest on |
| TaskRunner.TaskRunner.RunTask | internal/travel/service.go:271-319 | the events published and the status stored for each planner outcome (plan, nil plan, error, panic) and each outcome of the store updates, as steps the protocol allows |
| TaskRunner.TaskRunner.Conclude | internal/travel/service.go:300-319 | what follows each planner outcome |
| TaskRunner.ReplayHistory | internal/travel/handler.go:193-206 | writes the whole history, and tells whether it had a terminal event |
| TaskRunner.StreamPlan | internal/travel/handler.go:106-191 | what one request writes: the replay of a finished task, or the events up to and including the first terminal one |
| EventDelivery.DeliveryIsOrderedAndComplete | internal/travel/event_bus.go:24-82 | with one publisher and publishing split into snapshot and sends, what a subscriber is given is strictly increasing and is exactly what was published since its replay began, which reaches back 100 events from its joining, up to the last event (or the one before, while that one is on its way), minus recorded losses; losses are full buffers unless a send met a closed channel |
| EventDelivery.LossNeedsFullBuffer | internal/travel/event_bus.go:44-49 | an event is lost to a full buffer only by a send that found it full |
| EventLosses.FirstSixteenArrive | internal/travel/event_bus.go:53-68 | on every run no subscriber loses any of the first 16 events after it joined to a full buffer |
| EventLosses.LossNeedsSixteenUnread | internal/travel/event_bus.go:44-68 | an event is lost to a full buffer only when at least 16 events published since joining wait unread in it |
| EventLosses.SeventeenthCanBeLost | internal/travel/event_bus.go:44-68 | the seventeenth can be lost: a concrete run, for every event |
| EventDelivery.PublishedAsGiven | internal/travel/event_bus.go:24-42 | what is published is the event as it was given, with the next number |
| EventDelivery.SkippedOnlyByClosedChannel | internal/travel/event_bus.go:44-51 | on every run, a step makes a publication be given up for a subscriber if and only if it is a send that meets a closed channel while that subscriber still waits; it loses exactly the last event published, which it had not lost before |
| EventDelivery.HistoryIsTheRecentPast | internal/travel/event_bus.go:24-42 | history is the last min(n, 100) events, numbered consecutively up to n |
| EventDelivery.ClosedOnlyByLeavingInBetween | internal/travel/event_bus.go:44-82 | a pending send meets a closed channel exactly when its subscriber left after the snapshot |
| EventDelivery.StepKeepsInv | internal/travel/event_bus.go:24-82 | every snapshot, send, subscription, departure and receipt keeps the delivery invariant |
| EventBus.EventBus.Snapshot | internal/travel/event_bus.go:28-42 | numbers the event, records it in the bounded history, and takes the subscribers of that moment |
| EventBus.RecordedIs | internal/travel/event_bus.go:28-38 | the event keeps all but its number, and the last 99 events stay before it |
| EventBus.EventBus.Send | internal/travel/event_bus.go:44-49 | delivers, drops on a full buffer, or panics on a closed channel |
| EventBus.EventBus.SendAll | internal/travel/event_bus.go:44-49 | offers the event to each subscriber of the snapshot, in any order, with the same result |
| EventBus.EventBus.Publish | internal/travel/event_bus.go:24-50 | snapshot and sends together: number, history and every channel |
| EventBus.EventBus.Subscribe | internal/travel/event_bus.go:53-68 | a channel that holds the recent history and has room for 16 events more, and the subscription |
| EventBus.EventBus.Unsubscribe | internal/travel/event_bus.go:69-82 | removes the subscriber and closes its channel |
| EventBus.EventBus.History | internal/travel/event_bus.go:84-91 | the recorded events of the task |
| TaskCacheRuns.CacheAgrees | internal/travel/task_cache.go:33-113 | on every interleaving of calls, cache errors, expiry and failing writes: the cache holds only finished tasks, each as the store of record holds it unless that task was rewritten after finishing, and each cached hash leads where the store of record leads unless it was given a second task |
| TaskCacheRuns.AnswersAreTheAuthoritys | internal/travel/task_cache.go:49-88 | every answer that is not an error is one the store of record would have given at some moment between beginning and end of the call, with the same two exceptions |
| TaskCacheRuns.CachedTasksAreRight | internal/travel/task_cache.go:33-113 | for tasks created under new ids and updated by runTask the first exception cannot occur: every cached task is what the store of record holds, and every answer to a reader of a task is the store's own |
| TaskCacheUse.ErrorIffStoreFailed | internal/travel/task_cache.go:33-104 | on every run a call ends in an error if and only if one of its own accesses to the store of record failed; no failure of the cache makes it fail |
| TaskCacheUse.CachedTaskNeedsNoStore | internal/travel/task_cache.go:49-58 | in every reachable state a task that is in the cache is answered after one access, to the cache, however the store of record fares |
| TaskCacheUse.ReadingFillsTheCache | internal/travel/task_cache.go:49-65 | in every reachable state reading a task that the cache does not have leaves a finished task there under its id and its hash, and of an unfinished one the hash |
| TaskCacheRuns.RewrittenTaskStaysCached | internal/travel/task_cache.go:49-65 | without that discipline it can: a finished task that is rewritten is answered from the cache as it was: a concrete run |
| TaskCacheRuns.SecondTaskOfAHashIsMissed | internal/travel/task_cache.go:67-88 | the second exception is real: a hash that was given a second task is answered from the cache with the first: a concrete run |
| TaskCacheRuns.StepKeepsInv | internal/travel/task_cache.go:33-113 | every step of every call keeps the invariant behind the two theorems |
| TaskCache.CachedTaskStore.Get | internal/travel/task_cache.go:49-65 | calls one at a time: the answer of the store of record, also when that store is down if not an error; a cached finished task without asking it; what the reading puts into the cache |
| TaskCache.CachedTaskStore.FindByHash | internal/travel/task_cache.go:67-88 | the answer of the store of record, through the cached id or not |
| TaskCache.CachedTaskStore.Create | internal/travel/task_cache.go:33-39 | stores in the store of record; a task that fits leaves the cache in agreement |
| TaskCache.CachedTaskStore.Update | internal/travel/task_cache.go:41-47 | stores in the store of record; an update that rewrites no finished task leaves the cache in agreement |
| TaskCache.CachedTaskStore.CacheTask | internal/travel/task_cache.go:90-104 | caches the hash, and the task if it is finished, each with its expiry and nothing else; a task the store of record holds leaves the cache in agreement |
| TaskCache.CachingKeepsAgreement | internal/travel/task_cache.go:90-104 | caching a task that the store of record holds keeps cache and store in agreement |
| TaskCache.StoringKeepsAgreement | internal/travel/task_cache.go:33-47 | storing a task that fits keeps what is cached right |
| TaskCache.MemoryTaskCache.GetTask | internal/travel/task_cache.go:251-262 | found exactly when stored and not expired |
| TaskCache.MemoryTaskCache.GetTaskIDByHash | internal/travel/task_cache.go:225-236 | found exactly when stored and not expired |
| TaskCache.MemoryTaskCache.SetTask | internal/travel/task_cache.go:238-249 | stores with an expiry time, or none for a ttl that is not positive |
| TaskCache.MemoryTaskCache.SetRequestHash | internal/travel/task_cache.go:212-223 | stores with an expiry time; empty hash or id changes nothing |
| TaskStore.MemoryTaskStore.Create | internal/travel/task_store.go:36-45 | the task is found by id and by hash, whatever was there before |
| TaskStore.MemoryTaskStore.Update | internal/travel/task_store.go:47-59 | replaces a known task; an unknown one is an error |
| TaskStore.MemoryTaskStore.Get | internal/travel/task_store.go:61-72 | the task, or not found |
| TaskStore.MemoryTaskStore.FindByHash | internal/travel/task_store.go:74-86 | the task its hash leads to |
| SummaryStream.SummaryProgress.Parse | internal/agent/eino/summary_stream.go:36-113 | the scanning loops compute the reading of the text defined token by token |
| SummaryStream.ExtractSummarySoFar | internal/agent/eino/summary_stream.go:27-34 | the reading, cut to whole characters; every spelling of every string is read (JsonText.EverySpellingIsRead) |
| SummaryStream.IndexOfSummaryKey | internal/agent/eino/summary_stream.go:115-139 | the first "summary" that an opening brace or a comma introduces, or none |
| SummaryStream.DecodeUnicodeEscape | internal/agent/eino/summary_stream.go:141-165 | the code point of four hexadecimal digits of either case, or none |
| SummaryStream.TrimIncompleteUtf8 | internal/agent/eino/summary_stream.go:167-177 | drops bytes until the text ends in a whole character |
| SummaryStream.ExtractGrows | internal/agent/eino/summary_stream.go:27-177 | for every text and every continuation, what was extracted is a prefix of what will be |
| SummaryStream.ClosedIsFinal | internal/agent/eino/summary_stream.go:36-113 | after the closing quote nothing that follows changes the result |
| SummaryWriting.RoundTrip | internal/agent/eino/summary_stream.go:36-177 | every string of characters and escapes, as the value of the first matching key of any document, is extracted as the text it stands for, a surrogate escape as U+FFFD |
| JsonText.EverySpellingIsRead | internal/agent/eino/summary_stream.go:36-113 | the same against a table of its own: every string in every spelling that section 7 of RFC 8259 allows (each character up to U+FFFF as four digits of either case, the eight short escapes as literal bytes, all others as themselves), behind a brace or a comma, with blanks wherever they may be, is read as what it spells |
| JsonText.BadEscapeEndsIt | internal/agent/eino/summary_stream.go:91-103 | reading ends at an escape that is none or is cut off, without completing, and what stands before it is shown |
| SummaryWriting.EveryTextRoundTrips | internal/agent/eino/summary_stream.go:36-177 | every well-formed text, written with the escapes a writer needs, comes back |
| SummaryWriting.ValueOfThisKeyIff | internal/agent/eino/summary_stream.go:115-139 | for every text with a matching key: whatever is written as its value is what is extracted, if and only if no colon stands between the first matching key and this one |
| SummaryWriting.ComesBackIffOpens | internal/agent/eino/summary_stream.go:36-113 | for every text whatsoever: all that is written behind it comes back if and only if it opens the value |
| SummaryWriting.NestedKeyIsTaken | internal/agent/eino/summary_stream.go:115-139 | the value of a nested key is extracted: a concrete text with any continuation |
| SummaryWriting.SecondKeyCanBeTaken | internal/agent/eino/summary_stream.go:36-52 | a first key without colon leaves the value to the second: a concrete text |
| SummaryWriting.Truncation | internal/agent/eino/summary_stream.go:27-34 | cut at any byte, the document yields a whole number of the text's characters (section 4 of RFC 3629) |
| SummaryWriting.DeltaIsWholeCharacters | internal/agent/eino/llm.go:225-243 | what a later cut shows beyond an earlier one is whole characters |
| SummaryWriting.HeadOpens | internal/agent/eino/summary_stream.go:36-58 | any text whose first matching key ends it, colon, blanks and quote opens the value |
| Utf8.EncodeDecode | internal/agent/eino/summary_stream.go:92-104 | the bytes written for a code point decode to it (section 3 of RFC 3629) |
| LlmStreaming.GenerateTravelPlanStreaming | internal/agent/eino/llm.go:216-285 | from response body to shown summary, for one tool call, in terms of the decoded chunks: the plan is parsed from the concatenated arguments of that call if it is usable, else from the content if that may do; the deltas concatenate to the summary of the parsed text, which is also what is reported as done, and nothing is ever replayed |
| LlmStreaming.ShownSoFar | internal/agent/eino/llm.go:225-243 | however the text was cut, what has been shown is the summary so far, and the reset branch is never taken |
| LlmStreaming.FragmentationDoesNotMatter | internal/agent/eino/llm.go:225-243 | two ways of cutting one text show the same |
| LlmStreaming.ShownAtTheEnd | internal/agent/eino/llm.go:260-273 | the final flush completes the summary of the parsed text, also when the text came as content |
| LlmStreaming.SecondCallReplays | internal/agent/eino/llm.go:228-243 | with a second tool call whose summary is longer than the first one's and does not go on from it, the reset branch is taken, and both summaries have been sent, one behind the other |
| LlmStreaming.SecondCallCanReplay | internal/agent/eino/llm.go:228-243 | such a second call exists: two written summaries that take the branch |
| LlmStreaming.SummaryReporter.OnToolArgs | internal/agent/eino/llm.go:228-243 | one report changes the display as the specification says, with its reset branch |
| LlmStreaming.SummaryReporter.Finish | internal/agent/eino/llm.go:260-273 | the last delta and the done report |
| LlmStreaming.ExtractStreamToolPayload | internal/agent/eino/llm_stream.go:210-235 | a usable tool call if there is any, in whatever order they are visited; otherwise the content, or an error |
| SseStream.ChatStream.Run | internal/agent/eino/llm_stream.go:103-192 | the line-by-line loop does what the batch reading of the bytes says (lines, blank-line groups, joined data lines, as in section 9.2.6 of the HTML standard, line feeds only, tail flushed), up to the turn in which the caller is gone or the read fails, and says which of them ended it |
| SseContents.ResultHoldsTheChunks | internal/agent/eino/llm_stream.go:124-158 | from the decoded chunks before the end marker: the content is the concatenation of all choices' contents, the arguments of an index that of the arguments of all parts with that index, each name and the finish reason the last that is not empty, the usage the last given, the count that of the decodable frames; the reports are the texts so far after each piece |
| SseContents.OnlyCallInUpdates | internal/agent/eino/llm_stream.go:144-153 | when the chunks have arguments for one tool call only, nothing else is collected |
| SseWriting.WrittenIsRead | internal/agent/eino/llm_stream.go:105-190 | every stream written as server-sent events, with either line end, other fields, comments, blank lines and several data lines, is read as the events it says, whatever follows |
| SseWriting.MarkerIsSeen | internal/agent/eino/llm_stream.go:124-127 | the end marker is seen with blanks around it, with or without the space after the colon |
| SseStream.ChatStream.FlushEvent | internal/agent/eino/llm_stream.go:110-160 | one event: its data lines joined, decoded, applied; the end marker stops |
| SseStream.ChatStream.AddChunk | internal/agent/eino/llm_stream.go:129-160 | usage, then the choices, in order |
| SseStream.ChatStream.AddChoice | internal/agent/eino/llm_stream.go:137-158 | content before tool calls before finish reason |
| SseStream.ChatStream.AddToolPart | internal/agent/eino/llm_stream.go:144-153 | an index's arguments are the fragments so far, in order, and are reported; what they are in terms of the chunks is SseContents.ResultHoldsTheChunks |
| SseStream.StreamsCompose | internal/agent/eino/llm_stream.go:162-190 | a stream made of a complete part and a rest says what the two say, one after the other |
| SseStream.NothingAfterDone | internal/agent/eino/llm_stream.go:125-127 | nothing after the end marker has any effect |
| SseStream.MalformedFrameIsSkipped | internal/agent/eino/llm_stream.go:129-132 | a frame that cannot be decoded leaves no trace |
| RateLimiter.AtMostTwiceTheLimit | internal/travel/rate_limiter.go:35-49 | for every series of calls in order of time: at most 2 * limit - 1 calls of a key get through in any closed stretch of one window |
| RateLimiter.BoundIsReached | internal/travel/rate_limiter.go:35-49 | and for every limit some series reaches that bound |
| RateLimiter.RefusedIff | internal/travel/rate_limiter.go:42-48 | a call is refused exactly when limit calls of its key got through since its bucket opened, no longer than a window ago |
| RateLimiter.ThroughInBucket | internal/travel/rate_limiter.go:42-48 | in each bucket as many calls get through as were made, up to the limit |
| RateLimiter.OtherKeysDoNotMatter | internal/travel/rate_limiter.go:42-47 | what gets through for a key depends on that key's calls alone |
| RateLimiter.MemoryRateLimiter.Allow | internal/travel/rate_limiter.go:35-49 | the decision of the specification for the calls so far; a cancelled call changes nothing |
| RateLimiter.MemoryRateLimiter.constructor | internal/travel/rate_limiter.go:28-33 | a limit that is not positive becomes 60 |
| ApiLimiter.SlotsAreSpaced | internal/agent/eino/api_client.go:48-56 | reserved times are at least one interval apart in lock order and never before the caller's own clock reading, in whatever order the readings come |
| ApiLimiter.NoScheduleIsEarlier | internal/agent/eino/api_client.go:48-56 | no other schedule that waits for the readings and keeps the intervals is earlier anywhere |
| ApiLimiter.RateBound | internal/agent/eino/api_client.go:48-56 | any half-open second holds at most ceil(1e9 / interval) reserved times |
| ApiLimiter.KeepsRateIffDivides | internal/agent/eino/api_client.go:30-41 | every second holds at most qps reserved times, for all readings, if and only if qps divides 1e9 |
| ApiLimiter.PromptRunsKeepRate | internal/agent/eino/api_client.go:43-80 | of the calls that get through: on runs in which each does at its reserved time, every second sees at most ceil(1e9 / interval) |
| ApiLimiter.PromptRateIffDivides | internal/agent/eino/api_client.go:43-80 | which is at most qps on all such runs if and only if qps divides 1e9 |
| ApiLimiter.LateCallsBunch | internal/agent/eino/api_client.go:58-79 | otherwise there is no bound: for every interval, concurrency and n some run lets n calls through in one instant |
| ApiLimiter.RunsAreLimited | internal/agent/eino/api_client.go:43-80 | on every run, with waiters cancelled or not: calls in flight never exceed the concurrency, and none enters before its reserved time |
| ApiLimiter.ExternalApiLimiter.Reserve | internal/agent/eino/api_client.go:48-56 | the next time of the schedule |
| ApiLimiter.ExternalApiLimiter.TryEnter | internal/agent/eino/api_client.go:74-79 | enters exactly when there is room |
| ApiLimiter.ExternalApiLimiter.constructor | internal/agent/eino/api_client.go:30-41 | defaults, and the interval of a rate |
| RequestRecord.SameRecordIff | internal/travel/cache.go:25-84 | two requests have the same record if and only if they have the same numbers, trimmed cities, texts (blank or default alike) and choices under any of their names, and each list names the same set of trimmed, non-empty values, an empty budget_includes standing for the usual set |
| RequestRecord.OtherDimensions | internal/travel/cache.go:31-72 | test mode, user and kind of agent keep records apart; spelling of the kind does not |
| RequestRecord.NormalizingChangesNoRecord | internal/travel/dto.go:27-50 | normalizing in ToDomain and again for the record changes nothing, and the id is not part of the record |
| Brief.NormalizedTwice | internal/domain/brief.go:24-42 | normalizing a request twice is normalizing it once |
| Brief.NormalizeTravelBrief | internal/domain/brief.go:24-42 | normalizing the result again changes nothing; each list holds the trimmed, non-empty values of the given one, once each (the usual set for an empty budget_includes); each choice is the label its table gives its name; cities and texts are trimmed, and numbers and id are kept |
| Brief.NormalizeStringSlice | internal/domain/brief.go:132-150 | the trimmed, non-empty values where they occur first |
| Brief.FirstOccurrencesAre | internal/domain/brief.go:132-150 | the cleaned list has exactly the values of the list, once each, trimmed |
| Brief.TransportTwice | internal/domain/brief.go:44-67 | every label of a transport mode is its own label |
| Brief.PaceTwice | internal/domain/brief.go:69-80 | every label of a pace is its own label |
| Brief.WalkingTwice | internal/domain/brief.go:82-95 | every label of a walking tolerance is its own label |
| Brief.BudgetTypeTwice | internal/domain/brief.go:97-106 | every label of a budget type is its own label |
| Brief.ChosenMode | internal/domain/brief.go:44-67 | a transport mode is the label its table of names gives it, and a name outside the table is kept, trimmed |
| Brief.ChosenPace | internal/domain/brief.go:69-80 | the same of a pace |
| Brief.ChosenWalking | internal/domain/brief.go:82-95 | the same of a walking tolerance |
| Brief.ChosenBudgetType | internal/domain/brief.go:97-106 | the same of a budget type |
| Text.SortIsCanonical | internal/travel/cache.go:80-84 | lists without repetition sort to the same list exactly when they hold the same strings |
| Text.TrimmedAway | internal/domain/brief.go:124-130 | trimming takes away white space at both ends, all of it and nothing else |
| WarningRoundTrip.WarningsAreReadBack | internal/harness/evaluator.go:291-335 | for every list of traces, fallbacks, tool failures, feasibility notes and other warnings, analyzeWarnings counts from the printed warnings what happened, durations and token counts included |
| WarningRoundTrip.HarnessIsRightIff | internal/harness/evaluator.go:92-93 | through both mergings, the planner's and the harness's own: each printed text is counted once, so the count is what happened if and only if no trace, fallback or tool failure is printed exactly like an earlier one |
| WarningRoundTrip.EqualTracesCountOnce | internal/harness/evaluator.go:275-289 | two traces that are printed alike are counted as one, whatever they say |
| WarningRoundTrip.TraceDuration | internal/agent/eino/llm.go:480-501 | the duration of a trace comes back, for every 64-bit value |
| WarningRoundTrip.TraceTokens | internal/agent/eino/llm.go:480-501 | the three token counts come back, for all 64-bit values |
| WarningRoundTrip.UnknownIff | internal/harness/evaluator.go:302-311 | a trace reads as one with unknown token counts exactly when they are unknown |
| WarningRoundTrip.FallbackDuration | internal/agent/eino/llm.go:503-516 | the duration of a fallback comes back whatever its reason says |
| WarningRoundTrip.KindIsSeen | internal/harness/evaluator.go:294-317 | each warning is taken for the kind it is |
| Numbers.ScanPrinted | internal/harness/evaluator.go:328-332 | every 64-bit number is read back as printed |
| Evaluator.MergeCaseWarnings | internal/harness/evaluator.go:275-289 | the loop with its set of texts seen keeps the first of each text that is not blank |
| Evaluator.MergedAre | internal/harness/evaluator.go:275-289 | exactly the texts that are not blank stay, each once |
| Evaluator.MergedBefore | internal/agent/eino/nodes.go:357-357 | that the planner merges its warnings before the harness does makes no difference |
| Evaluator.AnalyzeWarnings | internal/harness/evaluator.go:291-320 | the loop computes the figures of the specification, with 64-bit addition; external calls are the tool fallbacks, or a single successful one if there is none |
| Evaluator.ParseIntField | internal/harness/evaluator.go:322-335 | the first field of that name that holds a number, or 0 |
| LlmWarnings.Generate | internal/agent/eino/llm.go:68-113 | the first attempt that does not fail decides; otherwise the fallback plan, with one warning that states the last reason |
| LlmWarnings.Try | internal/agent/eino/llm.go:90-108 | the attempts up to the first that does not fail |
| LlmWarnings.OwnReasons | internal/agent/eino/llm.go:518-552 | what the reasons that Generate itself gives are classified as; a plan that did not come counts as failed validation |
| Itinerary.ItemsAreEven | internal/agent/eino/nodes.go:218-238 | in every itinerary the items of a name are as many as the places of that name have even shares of all slots, floor or ceiling of days * itemsPerDay / n each |
| Itinerary.EachPlaceHasItsShare | internal/agent/eino/nodes.go:218-238 | so a place whose name no other bears occurs floor or ceiling of days * itemsPerDay / n times in the itinerary |
| Itinerary.TurnsAreEven | internal/agent/eino/nodes.go:218-222 | over all slots of all days it is the turn of each place position that often |
| Itinerary.NoRepeatWithinADayIff | internal/agent/eino/nodes.go:218-222 | no day visits a place position twice if and only if there are at least as many places as slots in a day |
| Itinerary.DailyPaceIff | internal/agent/eino/nodes.go:276-285 | an itinerary passes the daily_pace check if and only if the request does not combine an intensive pace with low walking |
| Itinerary.MovedAndTheRest | internal/agent/eino/nodes.go:395-406 | granting the must-visit wishes is a permutation: at most as many places as wishes move, each matched by a wish, and the others keep their order |
| Itinerary.FirstWishComesFirst | internal/agent/eino/nodes.go:395-406 | the first wish, if any place matches it, decides what comes first |
| Itinerary.WishesComeFirst | internal/agent/eino/nodes.go:395-406 | every wish that any place meets is met by one of the first places, as many as there are wishes up to it |
| Itinerary.AvoidedOnlyIfAllAre | internal/agent/eino/nodes.go:385-394 | an avoided place is kept only if all are avoided; every other place is kept |
| Itinerary.KeptIffWanted | internal/agent/eino/nodes.go:385-394 | the places planned with are exactly those that have no word to avoid in name, category or address, or all when each has one |
| Itinerary.DaysShowPlaces | internal/agent/eino/nodes.go:217-239 | days are numbered from 1 and show the places in turn, each item with its place's name, category, address, cost and duration at the time of its slot |
| Itinerary.ApplyPoiPreferences | internal/agent/eino/nodes.go:381-408 | the array loops compute that rearrangement, and the list handed in is unchanged |
| Itinerary.MoveToFront | internal/agent/eino/nodes.go:400-403 | the in-place shift and the new list: one place moved to the front |
| Itinerary.ContainsAnyPreference | internal/agent/eino/nodes.go:410-418 | whether one of the trimmed, non-empty preferences occurs |
| Itinerary.OptimizeItinerary | internal/agent/eino/nodes.go:201-239 | every item of every day, places that are wanted only, wishes first, as many items a day as pace and walking allow, and the even shares of the days returned; an error without places |
| BudgetTool.BudgetAddsUp | internal/agent/eino/tools.go:152-189 | for all charges: total = known total = sum of the counted lines; missing is exactly the keys of the lines without an amount; the budget is never complete |
| BudgetTool.BudgetPassesIff | internal/agent/eino/json_parser.go:119-164 | the budget passes its validator if and only if no shown sum is negative, and the breakdown check if and only if the total is not |
| BudgetTool.BudgetPasses | internal/agent/eino/nodes.go:320-322 | with costs that are not negative it always passes both; in whole cents the total is the exact sum of all charges |
| BudgetShown.BudgetShowsThePrices | internal/agent/eino/tools.go:112-190 | for all days, places and routes: food, tickets and transport are shown to the nearest cent, each as the sum of the prices of what belongs to it, an item without a cost of its own having that of the last place of its name; no hotel; the total is their sum |
| BudgetShown.IntercityIff | internal/agent/eino/tools.go:257-268 | a line between cities is needed exactly when the cities are given and differ, and a word for such travel is in the mode of transport or in something the budget includes |
| BudgetTool.RoundedIsNearest | internal/agent/eino/tools.go:350-352 | rounding goes to the nearest cent, from the middle away from zero |
| BudgetTool.Run | internal/agent/eino/tools.go:101-190 | the loops compute the budget of the charges; the two errors |
| BudgetTool.ChargesNonNegative | internal/agent/eino/tools.go:123-144 | validated costs give charges that are not negative |
| BudgetTool.MissingBudgetKeys | internal/agent/eino/tools.go:227-235 | the keys of the unavailable lines, in order |
| BudgetTool.RoundedIsWhole | internal/agent/eino/tools.go:350-352 | rounding gives whole cents and leaves whole cents alone |
| Planning.MakePlan | internal/agent/eino/nodes.go:363-379 | the nodes from places to plan: its days show the places in turn, its budget their prices, with title and warnings; it passes validatePlanNode if and only if the visited places have names, categories and valid costs and the total is not negative; with good places and routes always, and so do both budget checks |
| Planning.PlanPassesIff | internal/agent/eino/nodes.go:434-477 | the same for any itinerary and budget of this shape |
| PlanLibraryRuns.PublicExactlyWhenPublished | internal/plans/service.go:184-347 | after every series of operations a public plan is published exactly when its plan exists, is not deleted and has the status published; every such plan has one |
| PlanLibraryRuns.MirrorsAreInverse | internal/plans/store.go:213-233 | after every series planToPubID and the stored plan ids are inverse, and no user has two plans of one task |
| PlanLibraryRuns.CountersAreTheEvents | internal/plans/service.go:416-428 | after every series the counters of a public plan are the numbers of its events of each kind, and the hot score is views + 5 * saves + 3 * copies |
| PlanLibraryRuns.PublicPlansShowTheirPlans | internal/plans/service.go:268-327 | after every series of operations each public plan belongs to the owner of its plan and shows that plan's itinerary, destination and days |
| PlanLibraryRuns.ChangesAreSeen | internal/plans/service.go:184-249 | after every series of operations renaming a published plan changes the title of its public plan alone, and editing it brings title, summary and tags of its public plan in line |
| PlanLibraryRuns.CopyShowsTheSame | internal/plans/service.go:268-414 | after every series of operations a copy of a public plan, published without any change, shows the public the same title, summary, tags, itinerary, destination and days, as the copier's own and beside the first |
| PlanLibraryRuns.RunKeepsTitles | internal/plans/service.go:99-414 | no operation makes a title of a plan or a public plan that has not 2 to 80 characters |
| PlanLibraryRuns.PublicPlansLast | internal/plans/service.go:268-327 | between any two moments, republishing included, a plan keeps its public id and its public plan its date and at least its counts |
| PlanLibraryRuns.StepKeepsInv | internal/plans/service.go:99-428 | every operation keeps the library's invariant |
| PlanLibrary.Library.Save | internal/plans/service.go:99-167 | the user's existing plan of the task; or a new private draft with the task's itinerary, destination and days, under a title from request or plan; or an error, exactly when |
| PlanLibrary.Library.RenamePlan | internal/plans/service.go:184-206 | the new title, trimmed, in the plan and in its mirror if published, and nothing else; an error exactly for a title outside 2 to 80 characters or another's plan |
| PlanLibrary.Library.EditPlan | internal/plans/service.go:208-249 | the given fields and no others, in the plan and in its mirror if published; an invalid field changes nothing |
| PlanLibrary.Library.DeletePlan | internal/plans/service.go:251-266 | the plan is gone for its owner, its mirror is taken back, and nothing else changes |
| PlanLibrary.Library.PublishPlan | internal/plans/service.go:268-327 | the mirror returned is the stored one, published, shows what the plan and the request say, and goes on from the one before; when it is refused |
| PlanLibrary.Library.UnpublishPlan | internal/plans/service.go:329-347 | only a published plan, whose mirror is taken back |
| PlanLibrary.Library.GetPublic | internal/plans/service.go:353-377 | only published plans; the copy returned is the stored one; exactly one view and event are added if the view counts |
| PlanLibrary.Library.SavePublicAsCopy | internal/plans/service.go:382-414 | against the stored public plan: a new private draft of the viewer with its title, summary, tags, itinerary, destination and days, naming it as the source, without task and note; exactly one save is added, as an event and in the count |
| PlanLibrary.Library.IncrementPublicCounter | internal/plans/service.go:416-428 | counter and event together, or neither, and nothing else |
| PlanLibrary.MemoryPublicPlanStore.Upsert | internal/plans/store.go:213-233 | the id of the plan and the counters stay, the hot score is computed |
| PlanLibrary.MemoryPublicPlanStore.SetStatus | internal/plans/store.go:322-336 | the status of a known public plan |
| PlanLibrary.MemoryPublicPlanStore.IncrementCounter | internal/plans/store.go:338-360 | one counter and the hot score |
| PlanLibrary.MemoryPlanStore.GetByTaskID | internal/plans/store.go:93-105 | some live plan of the user and task, if there is any |
| PlanLibrary.MemoryPlanStore.Get | internal/plans/store.go:67-78 | only the owner's live plan |
| PlanLibrary.MemoryPlanStore.Update | internal/plans/store.go:147-159 | only a plan of the same owner |
| PlanLibrary.MemoryPlanStore.SoftDelete | internal/plans/store.go:161-176 | marks the plan deleted |

## Left out

* HTTP, routing, JSON codecs, SHA-256, logging, configuration and environment: calls into foreign code.
* MySQL and Redis clients beyond what the protocols use, and the Redis rate limiter, which the memory one stands for.
* The AMap tools, prompts, schemas, chat extraction and its regular expressions, and the web client.
* Listing, pagination, search and sorting of plans; archives, author names and timestamps of the library apart from the date of publication.
* Concurrent use of the plan library, and failures of its stores.
* validateRouteFeasibility apart from its pace and budget checks: the other checks read one field each.
* validateGeneratedPlan apart from the budget part: it compares fields one by one.
* Methods on nil receivers.
* The view deduper: whether a view counts is a parameter of GetPublic.
* Overflow of the library's counters.
* sort.Strings is the function Text.Sort, not an algorithm in place.
* strings.ToLower: Text.Lower maps A to Z and the two other characters with a lower case among the letters of the names that are compared with; other capital letters stay, which no comparison here can tell.
- WarningRoundTrip.TraceDuration: requires a prompt version without white space; the planner's own is constant and has none.
- WarningRoundTrip.UnknownIff: requires a prompt version that does not contain the words it looks for.
- BudgetTool.BudgetAddsUp: amounts are exact, so floating-point rounding of sums is not modelled.
- CreateTask.PlannerStartsOnce: says "at most once" of a task whose creation was made but not acknowledged, or whose event was not sent, because the code never starts it.
- TaskRunner.TaskRunner.RunTask: runs with nobody listening; a send on a closed channel is a step of TaskStream only.
- EventDelivery.DeliveryIsOrderedAndComplete: says nothing of a second publisher of the same task.
- RateLimiter.AtMostTwiceTheLimit: needs clock readings in order, because the code reads the clock before it takes the lock.
- PlanLibraryRuns.PublicExactlyWhenPublished: says nothing of visibility or of titles, which the code does not keep equal.
