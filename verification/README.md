# Verified model of the query platform's coordination code

This project models the parts of Dalmatian that several processes rely on at
once, and proves what they promise each other. Everything is plain Dafny 4.11;
`dafny verify dfyconfig.toml` checks the whole project.

Four components are modelled.

* **The lease-based job queue.** The ten server-side scripts of
  `src/dalmatian/jobs.py` are functions on one shared state (`Scripts`), and
  again methods that update that state in place, command by command (`Store`).
  Around them `Protocol` puts clients, workers with program counters, reapers,
  promotions, heartbeats from anywhere, crashes, record expiry and a monotone
  clock. One step is one atomic action. Every call carries a clock reading that
  may be arbitrarily old, and what a client read about a job may be read long
  before it acts, so a statement about all sequences of steps covers every
  interleaving. `Worker` shows that one turn of the worker's loop makes only
  calls those program counters allow.
* **Reading a recursive path pattern.** `Globs` gives the meaning of a pattern
  segment by segment and the code's translation to a regular expression
  character by character; `ReadPlan` has the base, the name filter and the
  regular expression that are handed to the engine.
* **The single-flight result cache.** `ResultCache` is the shared cache with
  its expiring locks, `SingleFlight` any number of callers in any number of
  processes over it, `QueryService` one query from admission to answer.
* **The dataset cache.** `Datasets` is the least-recently-used cache with
  expiry and release.

Identifiers, hashes, tokens and storage locations are opaque numbers, and new
ones are fresh. Queue times are milliseconds. A key that has expired is absent.

## Where the code does less than one might expect

Each of these is a lemma.

* Two reapers that both see a job queued list it twice, so the raw depth can go
  over the limit (`RawDepthCanExceedLimit`). It does so along a run if and only
  if, with the queue full, a job is reaped that is queued and no longer in the
  processing list: the guard the reap script does not have (`StepExceedsIff`,
  `DepthWithinIff`). The number of distinct live jobs never goes over it
  (`LiveJobsBounded`).
* The scripts that end an attempt compare worker ids, not attempt numbers: two
  processes under one id could end each other's attempts
  (`ScriptComparesOnlyWorkerIds`). What fences them is the sequential worker
  loop and the fresh worker id per process (`HeldCallsFenced`).
* A recorded cancellation bars its own attempt and no other
  (`CancelledAttemptIsBarred`, `CancelCanBeLost`). It holds for good if and only
  if no retryable failure by the live owner, with attempts left, gets in: the
  retry script does not read it and the next claim resets it (`LostByIff`,
  `HonouredIff`). One that finds the job queued or retrying is final.
* A lease counts from the clock reading the claim carried. The reaper takes a
  job exactly when its own reading is a lease later than that one
  (`ReaperWaitsForLease`); measured from when the claim took effect it can be
  sooner (`LeaseCountsFromReading`).
* An accepted publication does not promise a success (`PublishedJobCanFail`). A
  job succeeds exactly by its live owner's completion with no cancellation on
  record, and then with what that owner published (`SucceedsIff`,
  `PublishedSucceedsIff`).
* Without a regular expression the read plan is exact only for patterns without
  a doubled slash at the first `**` and without a slash at the end; otherwise
  it reads more than the pattern means (`PlanExactIff`). Slashes at the ends of
  a path are stripped before (`src/dalmatian/storage.py:181`,
  `src/dalmatian/datasets.py:50`), doubled ones inside are not, so those are
  what remains (`CleanedExactIff`).
* Nobody looks into the cache again after taking the lock, so a caller that
  looked early runs the query a second time although its result is cached by
  then (`RunsAgain`, `RunsIffUnlocked`). The README of the repository says at
  line 329 that one caller computes a result requested at once; the code
  guarantees only that two executions do not overlap within their leases
  (`NoOverlap`).
* Jitter keeps two successive retry delays in order exactly if, in whole
  milliseconds, 1.2 times the earlier base is at most 0.8 times the later one,
  or below 2 ms (`NotReorderedIff`). So it does below the cap
  (`UncappedNotReordered`) and never does at it (`AtCapReorders`).
* `misses` is counted outside the dataset cache's lock. Hits plus misses are the
  successful calls exactly if no thread's update overlaps another's
  (`CountsAddUpIff`).

## Model

| member | source | states |
|---|---|---|
| Store.QueueStore.Enqueue | src/dalmatian/jobs.py:71-106 | the depth is summed list by list; a bound key answers without a change, a full queue refuses, else record, list entry and binding appear together; the new id enters at the head, the far end from where moves take |
| Store.QueueStore.Publish | src/dalmatian/jobs.py:108-139 | fenced unless running, owned, same attempt, not cancelled, lease live; then the record moves as the write mode says |
| Store.QueueStore.Move | src/dalmatian/jobs.py:499-504 | the tail of a pending list becomes the head of the processing list |
| Store.QueueStore.Claim | src/dalmatian/jobs.py:141-157 | a listed queued job gets its next attempt number, an owner, a lease and a cleared cancellation |
| Store.QueueStore.Heartbeat | src/dalmatian/jobs.py:159-169 | only the owner of a live lease extends it |
| Store.QueueStore.Complete | src/dalmatian/jobs.py:171-185 | only an owner with a live lease and no cancellation succeeds; one list entry goes |
| Store.QueueStore.Terminal | src/dalmatian/jobs.py:187-202 | ends the attempt as told, and lists a failure as dead |
| Store.QueueStore.Retry | src/dalmatian/jobs.py:204-227 | to the retry set with its due time, or to the dead list once the budget is used up |
| Store.QueueStore.Reap | src/dalmatian/jobs.py:229-265 | removes stale entries, returns queued ids, ends running jobs whose lease is the expected one and over |
| Store.QueueStore.Promote | src/dalmatian/jobs.py:267-283 | a due retrying job becomes queued on its shard; other members of the set are dropped or left |
| Store.QueueStore.Cancel | src/dalmatian/jobs.py:285-304 | cancels a waiting job, records the wish for a running one |
| Store.QueueStore.Submit | src/dalmatian/jobs.py:378-456 | whether or not the early read found the binding, state and answer are the script's while it is retained: busy, key taken, record expired or the record, each exactly when; an early binding alone decides the answer and changes nothing |
| Requests.SubmissionMeans | src/dalmatian/jobs.py:77-105 | in every state: full exactly if unbound and at the limit, created exactly if unbound and below it, a conflict exactly if bound to another request; the creation alone changes anything, and it adds one queued record, one entry and one binding |
| Requests.CancellationMeans | src/dalmatian/jobs.py:286-303 | each reply to a cancellation exactly by the job's status, and what it changed |
| Store.QueueStore.RequestCancel | src/dalmatian/jobs.py:560-575 | the record's status after the cancellation, or none without a record |
| Store.QueueStore.PromoteRetries | src/dalmatian/jobs.py:474-488 | the loop promotes the first hundred due ids, earliest first, and counts the moved |
| Store.DueIds | src/dalmatian/jobs.py:476 | at most the limit, all due ids if they fit, and none later than one left out |
| Store.PromotionIsComplete | src/dalmatian/jobs.py:474-488 | every id of the batch was due and ends up queued, no other job is touched, nothing due is left unless the batch was full, and the count is that of the ids with a record |
| Store.QueueStore.Reserve | src/dalmatian/jobs.py:490-533 | promotion, then own shard, then the others in order, then the claim |
| Store.StealsWhatThereIs | src/dalmatian/jobs.py:497-508 | no list is picked only if all lists are empty; the own list comes first, then the first that is not empty |
| Store.PickedIsGranted | src/dalmatian/jobs.py:490-533 | a queued job that is picked undisturbed is granted with its own request and the next attempt number to that worker, until the lease given |
| Store.QueueStore.Fail | src/dalmatian/jobs.py:635-673 | a retryable failure waits the delay for the attempts read; another one is terminal |
| Store.QueueStore.Sweep | src/dalmatian/jobs.py:676-713 | over a list with any duplicates only leased running jobs stay listed; each late running job ends cancelled, failed or retrying by its record, every other record is untouched; the invariant holds throughout; the count is that of unleased entries |
| Store.QueueStore.ReapStale | src/dalmatian/jobs.py:675-715 | the same, and then the promotion that ends it: the due batch is queued, and nothing due is left unless the batch was full |
| Placement.LiveWithinDepth | src/dalmatian/jobs.py:83-85 | pigeonhole: distinct live jobs are at most the entries in all lists and the retry set |
| Placement.EnqueueKeeps | src/dalmatian/jobs.py:71-106 | keeps the placement invariant and the bound on live jobs |
| Placement.MoveKeeps | src/dalmatian/jobs.py:499-504 | between the halves of a reservation no queued job is lost |
| Placement.ClaimKeeps | src/dalmatian/jobs.py:141-157 | keeps the invariant |
| Placement.CompleteKeeps | src/dalmatian/jobs.py:171-185 | keeps the invariant though one list entry goes |
| Placement.TerminalKeeps | src/dalmatian/jobs.py:187-202 | keeps the invariant; a failed job enters the dead list once |
| Placement.RetryKeeps | src/dalmatian/jobs.py:204-227 | keeps the invariant on both branches |
| Placement.ReapKeeps | src/dalmatian/jobs.py:229-265 | keeps the invariant for any expected lease, stale or not |
| Placement.PromoteKeeps | src/dalmatian/jobs.py:267-283 | keeps the invariant |
| Placement.CancelKeeps | src/dalmatian/jobs.py:285-304 | keeps the invariant |
| Placement.StepKeepsDbInv | src/dalmatian/jobs.py:70-304 | every step of the protocol keeps it |
| Evolution.StepEvolves | src/dalmatian/jobs.py:141-304 | what one step can make of a job: the status machine, and who starts and completes an attempt |
| Guarantees.Reachable | src/dalmatian/jobs.py:70-304 | placement, accounting, fencing, timing and registry invariants hold in every reachable state |
| Guarantees.NoJobIsLost | src/dalmatian/jobs.py:71-304 | queued: in its own shard's list or in processing; running: in processing; in the retry set exactly when retrying |
| Guarantees.LiveJobsBounded | src/dalmatian/jobs.py:83-105 | distinct live jobs never exceed the depth limit |
| Guarantees.BudgetAndDeadList | src/dalmatian/jobs.py:187-265 | attempts within the budget, strictly so while waiting; the dead list is the failed jobs, each once |
| Entries.ExactlyOnceIff | src/dalmatian/jobs.py:71-304 | along every run a job has exactly one entry in the lists and the retry set while it is live, and none after a success or a failure, if and only if no reap finds it queued without an entry in the processing list |
| Entries.CancelEntries | src/dalmatian/jobs.py:289-297 | a cancelled waiting job loses its entry, unless it was moved already |
| Order.StepLists | src/dalmatian/jobs.py:100-281 | what each step does to each shard's list: one entry at the head, one move off the tail, one withdrawal, or nothing |
| Order.EntryWaits | src/dalmatian/jobs.py:100-282 | after an accepted submission, a return or a promotion the next move takes what it would have taken before, and the new entry only from an empty list |
| Order.FirstInFirstOut | src/dalmatian/jobs.py:499-504 | in every run a job ahead in a shard's list, until it enters again, is moved or cancelled before any job behind it is moved |
| Order.EntryOrderIsServiceOrder | src/dalmatian/jobs.py:100-504 | of two jobs that enter one list the first to enter is the first to be moved, unless it is cancelled |
| Records.RecordsAreClean | src/dalmatian/jobs.py:86-301 | in every reachable record owner, lease, result, error and next attempt time agree with the status and with the retry set |
| Fencing.StepKeepsFenced | src/dalmatian/worker.py:92-182 | owners, held attempts, the history of claims and publications and stored results stay consistent |
| Guarantees.HeldCallsFenced | src/dalmatian/jobs.py:171-227 | a call for attempt n changes nothing once the job's attempt is another |
| Witnesses.ScriptComparesOnlyWorkerIds | src/dalmatian/jobs.py:174-179 | after two claims under one worker id the call the first process makes for attempt 1 is accepted in attempt 2 |
| Guarantees.PublicationOrder | src/dalmatian/jobs.py:108-139 | accepted publications of a job have increasing attempts, and none follows a later claim |
| Registry.StepRecords | src/dalmatian/storage.py:81-105 | a step changes the registry only by recording the publication it reports |
| Guarantees.ErrorModeIsExclusive | src/dalmatian/jobs.py:128-131 | with only `error` writers one query id is ever accepted at a destination |
| Guarantees.LastAtIsNewest | src/dalmatian/jobs.py:132-138 | the last publication at a destination with one writer is that writer's newest |
| Guarantees.StoredResultWasPublished | src/dalmatian/worker.py:106-183 | a succeeded stored job names the manifest of the attempt on record, accepted, and the last accepted for it |
| Guarantees.RecordStillNamesResult | src/dalmatian/jobs.py:108-139 | without another writer the publication record still names that manifest |
| Witnesses.PublishedJobCanFail | src/dalmatian/jobs.py:108-139 | a run where a published job fails |
| Success.SucceedsIff | src/dalmatian/jobs.py:171-185 | in every reachable state a step makes a job succeed if and only if it is the live owner's completion with no cancellation on record, with the result that owner holds |
| Success.PublishedSucceedsIff | src/dalmatian/worker.py:167-173 | after an accepted publication the completion succeeds with that manifest exactly if the lease is live and no cancellation is on record |
| Endings.CancelledIff | src/dalmatian/jobs.py:187-265 | in every reachable state a step cancels a running job if and only if it is the live owner's cancellation, or a late reap with one on record |
| Endings.FailedIff | src/dalmatian/jobs.py:187-265 | it fails one if and only if the live owner fails it, or reports a retryable failure or is reaped late with no attempt left, and in a reap no cancellation on record |
| Endings.RetryingIff | src/dalmatian/jobs.py:204-265 | it delays one if and only if the live owner's retryable failure or a late reap, without a cancellation on record, finds attempts left |
| Endings.WaitingMovesIff | src/dalmatian/jobs.py:141-304 | who starts a queued job, promotes a retrying one and cancels either, exactly |
| Endings.StepWrites | src/dalmatian/jobs.py:150-304 | the error text changes exactly at the end of an attempt, to the report, the reaper's text or none; the cancellation is recorded exactly by a client; every change is stamped with its call's reading |
| Endings.DeadListGrows | src/dalmatian/jobs.py:199-257 | only a failure extends the dead list, by its own id in front |
| Endings.AcknowledgedIffEnded | src/dalmatian/jobs.py:171-227 | a completing, failing or cancelling call is acknowledged exactly if it ended the attempt, and else changes nothing |
| Endings.ReapAnswers | src/dalmatian/jobs.py:238-264 | the reaper is refused exactly for a running job with another lease or a live one |
| Endings.ClaimAnswers | src/dalmatian/jobs.py:145-148 | a claim is granted exactly for a listed, queued job with a request, and what a refusal changes |
| Publishing.ReplyMeans | src/dalmatian/jobs.py:108-139 | in every reachable state -1 exactly if the worker no longer runs that attempt with a live lease and no cancellation; 0 exactly if an `error` writer finds the destination taken by others, by the history of accepted publications; else 1 |
| Publishing.ReplyTakesEffect | src/dalmatian/jobs.py:119-138 | 1 records the publication at its destination alone; any other reply changes nothing |
| Publishing.ReplyEndsExecution | src/dalmatian/spark.py:381-401 | the three replies end the execution fenced, with an existing output, or with the manifest as its result, each exactly then |
| Publishing.SyncRefusedIff | src/dalmatian/storage.py:81-105 | a synchronous publication is refused exactly in `error` mode at a taken destination |
| Heartbeats.BeatenIff | src/dalmatian/jobs.py:159-169 | a heartbeat is accepted if and only if its worker runs the job with a lease that ends after its reading; then the lease alone moves, to a lease after the reading, and else nothing |
| Heartbeats.InTimeIsKept | src/dalmatian/jobs.py:246-247 | a reap with a reading within a lease of the last claim or accepted heartbeat takes nothing |
| Heartbeats.BeatingKeepsTheJob | src/dalmatian/jobs.py:159-250 | so no reap of a run takes a job whose owner beats in time |
| Heartbeats.BeatThenReap | src/dalmatian/jobs.py:159-250 | nor one right after an accepted heartbeat, within a lease of it |
| MemoryRegistry.MemoryOutputRegistry.PublishOutput | src/dalmatian/storage.py:43-70 | the in-process registry's decision and new entry |
| MemoryRegistry.RegistriesAgree | src/dalmatian/storage.py:39-105 | over any requests both registries answer alike and agree on what is authoritative |
| MemoryRegistry.AppendFieldsAre | src/dalmatian/storage.py:51-69 | the in-process registry's append fields are those of the last append accepted since anything else was |
| Timing.StepKeepsTimed | src/dalmatian/jobs.py:141-283 | leases and due times stay tied to the readings and delays in the history |
| Guarantees.ReaperWaitsForLease | src/dalmatian/jobs.py:246-250 | a running job is taken if and only if the reaper knows the lease and reads the clock a lease after the last claim's or heartbeat's reading |
| Witnesses.LeaseCountsFromReading | src/dalmatian/jobs.py:509-516 | a run where a slow claim is reaped within a lease of taking effect |
| Guarantees.RetryWaits | src/dalmatian/jobs.py:204-283 | attempt n + 1 is not claimed before the time set for it |
| RetryDelay.DelayBounded | src/dalmatian/jobs.py:630-633 | between 1 ms and the larger of 1 ms and 1.2 times the cap |
| RetryDelay.BaseDoubles | src/dalmatian/jobs.py:631 | the first base is the setting, each further one twice the last, up to the cap |
| RetryDelay.NotReorderedIff | src/dalmatian/jobs.py:630-633 | jitter never reorders two successive delays if and only if, with bases b and c in seconds, 1200 b is below 2 or its whole part is at most 800 c |
| RetryDelay.HalfAgainSuffices | src/dalmatian/jobs.py:630-633 | a later base at least half as long again keeps them in order |
| RetryDelay.LessReorders | src/dalmatian/jobs.py:630-633 | one shorter than that by more than the rounding does not |
| RetryDelay.AtCapReorders | src/dalmatian/jobs.py:630-633 | every cap the settings allow, 0.1 s and more, reorders once it is reached |
| RetryDelay.UncappedNotReordered | src/dalmatian/jobs.py:630-633 | below the cap it never does |
| RetryDelay.CappedCanReorder | src/dalmatian/jobs.py:630-633 | for one, with two seconds as base and cap |
| Lifecycle.TerminalIsFinal | src/dalmatian/jobs.py:171-265 | status, result and attempts of a terminal job never change again |
| Lifecycle.ChangesWithinMeasure | src/dalmatian/jobs.py:204-283 | at most 3 * max_attempts - 1 status changes, by a measure that falls at each |
| Lifecycle.CancelledAttemptIsBarred | src/dalmatian/jobs.py:108-185 | after a cancellation recorded in attempt n that attempt never publishes or succeeds |
| Lifecycle.ReapHonoursCancel | src/dalmatian/jobs.py:251-253 | reaping such an attempt cancels the job |
| Lifecycle.CancelWhileWaitingIsFinal | src/dalmatian/jobs.py:285-298 | a cancellation of a queued or retrying job is final in every continuation, duplicates and moved ids included |
| Witnesses.CancelCanBeLost | src/dalmatian/jobs.py:150-152 | a run where a cancellation recorded in attempt 1 is forgotten and attempt 2 succeeds |
| Cancellation.LostByIff | src/dalmatian/jobs.py:204-227 | one step sends a job with a recorded cancellation to the retry set if and only if it is a retryable failure by the live owner with attempts left; any other step leaves it running with the flag, ended without a success, or expired |
| Cancellation.HonouredIff | src/dalmatian/jobs.py:150-227 | over every continuation the cancellation holds, in its attempt and for good, if and only if no such failure gets in |
| Cancellation.OnlyFailureLoses | src/dalmatian/jobs.py:150-227 | a job that waits, is claimed again or succeeds later has had such a failure |
| Witnesses.RawDepthCanExceedLimit | src/dalmatian/jobs.py:240-244 | a run where two reapers list one job twice |
| RawDepth.ReapDepth | src/dalmatian/jobs.py:238-264 | one entry more if the job is queued and not in the processing list, and never one more otherwise |
| RawDepth.StepDepth | src/dalmatian/jobs.py:71-304 | from any well-placed state a reap like that adds one entry, and no other step takes the depth over the limit or higher above it |
| RawDepth.StepExceedsIff | src/dalmatian/jobs.py:240-244 | in every reachable state within the limit a step exceeds it if and only if the queue is full and the step is such a reap |
| RawDepth.DepthWithinIff | src/dalmatian/jobs.py:83-105 | along a run the raw depth stays within the limit if and only if no step is such a reap of a full queue |
| Progress.NoStuckJob | src/dalmatian/jobs.py:490-715 | from every reachable state new workers' reservations, reaping and promotion alone can bring each live job to an end, by steps the code takes with nothing stale: current readings, only listed ids reaped or promoted, with the lease on record |
| Idempotency.Idempotent | src/dalmatian/jobs.py:71-106 | while a binding is retained all answers name one job, at most one created it, and a conflict is exactly another hash |
| Idempotency.PreCheckAgrees | src/dalmatian/jobs.py:386-401 | the early read's answer is what the script would answer at any later time, with no change |
| Worker.StoreOutput | src/dalmatian/spark.py:353-401 | data, commit check, manifest, publication in this order; what each reply, or its loss, raises or returns |
| Worker.Execute | src/dalmatian/spark.py:224-255 | a commit that is allowed asks to publish this attempt's manifest once; a stored result is returned only on reply 1; after the deadline, or with a text that mentions cancelling, what is raised becomes a cancellation, and a fence or another fault otherwise |
| Worker.Conclude | src/dalmatian/worker.py:132-181 | exactly when the turn completes, fails or cancels the job, in which order, and that all of it is allowed |
| Worker.WorkOnce | src/dalmatian/worker.py:92-182 | publication first, then the concluding calls; all of them allowed; a stored result it reports is the one this attempt published |
| Worker.KeepLease | src/dalmatian/worker.py:59-70 | the heartbeat thread cancels the engine's query exactly if a beat finds the lease lost or a cancellation, at the first such beat, and survives exceptions |
| Worker.AllowedIsEnabled | src/dalmatian/worker.py:92-182 | the first of the allowed calls is a step the protocol enables, and after the script's reply the rest is allowed |
| Worker.AllowedIsPlayed | src/dalmatian/worker.py:92-182 | whatever others do in between, all the calls of a turn, with the scripts' replies, are enabled steps |
| Faults.RetriedIffItMayPass | src/dalmatian/worker.py:73-166 | after a fault, while the job is owned, it goes to the retry set exactly for connection trouble, a retryable query error or a text that tells of an outage, with attempts left; else it fails |
| Faults.InterruptionFails | src/dalmatian/worker.py:132-145 | an interruption nobody asked for, a deadline included, fails the job |
| Faults.AskedForCancels | src/dalmatian/worker.py:134-136 | one that was asked for cancels it |
| Faults.ResultIsReported | src/dalmatian/worker.py:167-176 | a result is reported first, unless a cancellation is seen |
| Faults.FencedKeepsOff | src/dalmatian/worker.py:146-155 | a fenced worker makes no call but to call off a job whose cancellation it sees |
| Globs.RegexIsGlob | src/dalmatian/spark.py:119-138 | the translated regular expression accepts a path if and only if matching by segments does, `**/` being any number of whole segments |
| ReadPlan.BuildParts | src/dalmatian/spark.py:119-138 | the loop builds exactly that translation |
| ReadPlan.BuildGlobRegex | src/dalmatian/spark.py:111-138 | and only for the patterns that need one |
| ReadPlanProofs.WholeSegment | src/dalmatian/spark.py:101-103 | the first `**` of a well-formed pattern has a slash or an edge on both sides |
| ReadPlanProofs.FilterIsLast | src/dalmatian/spark.py:105-107 | the name filter is the last segment of the pattern |
| ReadPlanProofs.PlanDropsNothing | src/dalmatian/spark.py:98-108 | base and filter never drop a path the pattern means |
| ReadPlanProofs.PlanExactIff | src/dalmatian/spark.py:97-146 | what is admitted is exactly what the pattern means if and only if it needs the regular expression or is free of doubled and trailing slashes |
| ReadPlanProofs.CleanedExactIff | src/dalmatian/spark.py:97-146 | for the patterns the source hands over, which do not end in a slash, doubled slashes at the first `**` are all that can make the plan inexact |
| ReadPlanParts.PlainIsDirect | src/dalmatian/spark.py:98-100 | a pattern without `**` is handed on as it is, without a regular expression, and is exact |
| ReadPlanParts.BaseMeans | src/dalmatian/spark.py:101-102 | the base is what comes before the first `**` without the slashes between |
| ReadPlanParts.FilterIff | src/dalmatian/spark.py:103-107 | there is a name filter exactly if the last segment is neither empty nor `**`, and it is that segment |
| ReadPlanParts.NeedsRegexIff | src/dalmatian/spark.py:112-117 | a regular expression is built exactly if, after the first `**` and empty segments, more than one segment or a second `**` follows |
| ResultCache.ValkeyResultCache.Get | src/dalmatian/cache.py:103-112 | the value until it expires |
| ResultCache.ValkeyResultCache.Set | src/dalmatian/cache.py:114-121 | nothing without a time to live or over the size, else stored with its expiry |
| ResultCache.ValkeyResultCache.Wait | src/dalmatian/cache.py:131-140 | the first value seen before the deadline, or none if every look before it was in vain; pauses grow by half from 10 ms up to 250 ms |
| ResultCache.ValkeyResultCache.TryAcquire | src/dalmatian/cache.py:123-126 | a lock only where no live one is |
| ResultCache.ValkeyResultCache.Unlock | src/dalmatian/cache.py:77-82 | deletes the lock only for its own token |
| SingleFlightProofs.AlwaysLeased | src/dalmatian/service.py:165-188 | until its lease ends a caller's lock is its own, and no two callers share a token |
| SingleFlightProofs.NoOverlap | src/dalmatian/service.py:165-188 | of two executions for one key at once, one is past its lease, hence past its query limit and thirty seconds |
| SingleFlightProofs.LateReleaseIsHarmless | src/dalmatian/cache.py:77-82 | no action of another caller frees a lock whose owner is in time |
| SingleFlightProofs.LeavesOnlyByReleasing | src/dalmatian/service.py:178-188 | a caller with a lock leaves only by its release, exceptions included, and then no lock of its own is left |
| SingleFlightProofs.ServedIsFresh | src/dalmatian/service.py:156-173 | every hit or coalesced answer is an engine result for that key stored at most the maximal time to live ago |
| SingleFlightProofs.RunsIffUnlocked | src/dalmatian/service.py:168-179 | a caller that looked in vain runs the query exactly if the lock is free |
| SingleFlightWitnesses.RunsAgain | src/dalmatian/service.py:168-179 | a run with a second execution while the first one's result is cached |
| SingleFlightWitnesses.LateRunsOverlap | src/dalmatian/service.py:167-168 | a run with overlapping executions after a lease ended |
| SingleFlightProofs.NoSlotIsLost | src/dalmatian/service.py:95-102 | callers inside and free slots add up, so no release goes over the semaphore's bound and an empty process has all slots |
| SingleFlight.PlanMeans | src/dalmatian/service.py:74-88 | refused exactly over a limit; a key, the request's own fingerprint, exactly for an inline result of safe sources that is to live at all |
| CacheUse.OnlyCacheableTraces | src/dalmatian/service.py:151-188 | in every run only callers whose request may be cached change the shared cache or add a run, stored or served event, and only under their own fingerprint |
| CacheUse.LookFindsLastKept | src/dalmatian/cache.py:103-121 | a look finds a value exactly if one was stored under the key and the last one has not expired |
| CacheUse.ServedIff | src/dalmatian/service.py:156-163 | an admitted caller that may use the cache is served at once exactly then, and else goes on |
| CacheUse.KeptIff | src/dalmatian/service.py:180-184 | a result is stored exactly if its query may be cached and it fits, with the time to live asked for |
| CacheUse.EntersIff | src/dalmatian/service.py:84-98 | a caller gets in exactly if its limit is allowed and fewer callers than slots are inside |
| QueryService.Service.Lock | src/dalmatian/service.py:166-176 | which of the two attempts gets the lock, for how long, and else what was waited for |
| QueryService.Service.RunAndRelease | src/dalmatian/service.py:178-188 | a result is kept, a failure is not, and the lock is released either way |
| QueryService.Service.ExecuteAdmitted | src/dalmatian/service.py:145-188 | reply and cached values by a plain case distinction; refused exactly over the limit; a query that may not be cached is run and leaves the shared cache alone; no lock of this query is left and the live ones of others stay |
| QueryService.Service.Execute | src/dalmatian/service.py:118-143 | the same behind admission: full exactly without a slot, and the slot is free again on every path |
| QueryActions.QueryIsActions | src/dalmatian/service.py:145-188 | with nobody else acting, an admitted query is a sequence of the interleaved actions: the cache ends as the query leaves it and the slot is free |
| QueryActions.WaiterIsServed | src/dalmatian/service.py:169-173 | a caller that waits and sees another one's value is served with it |
| Datasets.DatasetCache.Create | src/dalmatian/datasets.py:136-147 | limits below one are refused |
| Datasets.DatasetCache.Get | src/dalmatian/datasets.py:168-180 | an expired entry is dropped and released, a live one moves to the end |
| Datasets.DatasetCache.Store | src/dalmatian/datasets.py:182-191 | the old value is released, the new one goes last |
| Datasets.DatasetCache.Evict | src/dalmatian/datasets.py:189-191 | the loop releases just the oldest entries over the limit, in order |
| Datasets.DatasetCache.GetOrLoad | src/dalmatian/datasets.py:149-166 | two looks, then the loader, which may raise |
| Datasets.DatasetCache.Close | src/dalmatian/datasets.py:197-202 | releases what was cached, in order |
| DatasetProofs.NothingLeaks | src/dalmatian/datasets.py:168-202 | in every interleaving each value given to the cache is cached, about to be released by a `close`, or released, as often as it was given |
| DatasetProofs.ReleasedOnce | src/dalmatian/datasets.py:168-202 | distinct values are released at most once and never while cached, and all of them once `close` is through |
| DatasetProofs.AlwaysTidy | src/dalmatian/datasets.py:182-191 | in every interleaving the size limit holds and keys are distinct |
| DatasetProofs.HitsAreFresh | src/dalmatian/datasets.py:168-180 | in every interleaving a hit is the most recent load of its key, younger than the limit |
| DatasetProofs.CallIsOps | src/dalmatian/datasets.py:149-166 | a call is a sequence of those interleaved operations |
| DatasetProofs.ClosedReleasesAll | src/dalmatian/datasets.py:149-202 | after any calls and a `close` each loaded value is released as often as it was loaded |
| DatasetProofs.CountsAddUp | src/dalmatian/datasets.py:149-180 | hits plus misses are the successful calls |
| DatasetProofs.CountsEach | src/dalmatian/datasets.py:149-180 | the hits are the calls that hit, the misses the loads |
| DatasetProofs.OutcomeMeans | src/dalmatian/datasets.py:149-166 | a hit is a value the cache held, a load what the loader made |
| Counters.CountsAddUpIff | src/dalmatian/datasets.py:163-180 | in every interleaving of threads the two counters are at most the successful calls, and equal if and only if no miss is written after another was counted since it was read |
| Counters.AnUpdateCanBeLost | src/dalmatian/datasets.py:165 | two loads counted as one |
| DatasetHistory.RecencyIs | src/dalmatian/datasets.py:178-188 | the recency order is the accessed keys, once each, by their last accesses |
| DatasetHistory.AgreesWithHistory | src/dalmatian/datasets.py:149-191 | if no loader raises, every call answers as a plain function of the whole history does |
| DatasetHistory.KeysAreRecent | src/dalmatian/datasets.py:149-191 | and the keys are the last `max_entries` distinct keys accessed, whatever expired |
| DatasetHistory.RaiseForgets | src/dalmatian/datasets.py:156-166 | a loader that raises leaves its key out and the rest in order |

## Left out

- Worker.Execute: does not model the engine; its end, the commit check's answer, the publication's reply and whether it is lost, the deadline and the text of an exception are parameters.
- Store.QueueStore.Reserve: does not model the time `brpoplpush` blocks; it is one attempt on the own list. Interference between its parts is covered by the separate steps of `Protocol`.
- Store.QueueStore.ReapStale: is stated for a sweep nobody interferes with; single reaps with old knowledge are steps of `Protocol`. The delays are arbitrary there.
- Store.DueIds: members with equal scores are ordered by their number, where the server orders them by their text.
- QueryActions.QueryIsActions: is for a query that does not wait for another caller's value; that case is `QueryActions.WaiterIsServed`.
- Store.QueueStore.Submit: does not check the length of an idempotency key.
- RetryDelay.DelayBounded: uses real numbers for the delay, not floating point.
- Globs.RegexIsGlob: takes the regular expression as a syntax tree with the usual meaning; escaping of literals and the text handed to the engine are not modelled. Paths contain no newline.
- ReadPlanProofs.PlanExactIff: is for patterns with something before the first `**`, as every URI has, and `**` only as a whole segment; bracket and brace classes and URI escaping are not modelled. It also covers a slash at the end, which no pattern has by then. A pattern without `**` is passed on as it is.
- SingleFlightProofs.ServedIsFresh: counts the age of an answer from when it was stored; the code does not bound the time between the end of an execution and the store.
- SingleFlightProofs.NoSlotIsLost: covers queries through `_slot`; the slots of streams, which are released by a generator that may never start, are not modelled.
- DatasetProofs.CountsAddUp: is for one caller at a time; with threads it is `Counters.CountsAddUpIff`, where the two halves of an update are steps of their own.
- DatasetHistory.AgreesWithHistory: cached values are never `None`, and releasing one does not raise.
- ResultCache.ValkeyResultCache.Get: values that do not decode are not modelled; nothing else writes under these keys.
- ResultCache.ValkeyResultCache.Wait: its clock readings and what each look finds are parameters; in `SingleFlight` a waiting caller may look at any time and give up at any time.
- `MemoryCache` and `NullCache`, stand-ins without expiry or without effect.
- Worker.KeepLease: does not model the stop event; the beats are those made before it. In `Protocol` heartbeats come from any worker at any time, and nothing is claimed about one that outlives its attempt.
- The stop signal and the reap interval of the worker's loop.
- Choosing shards from a dataset's affinity key or a host name, and the choice of a fresh id.
- The last-append fields of the two publication registries are not compared: overwriting drops them in one and keeps them in the other.
- Expiry of job records and bindings is a step that may happen at any time; properties are stated for records and bindings that have not expired.
- HTTP, metrics, logging, settings, SQL validation and metadata, source resolution and fingerprints, Spark, Hadoop and the Valkey client.
