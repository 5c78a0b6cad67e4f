# The lease-based work queue, its worker pool and what surrounds them

A batch job is a JSON array of prompts. Ingestion turns it into rows of `prompt_items`, a pool of workers drains the rows
through the inference endpoint, each finished chunk is first written to storage as a JSONL file and then committed to the
table, and the download streams those files back as one JSON array. No single function carries the safety argument:
leases lapse while workers still compute, a paused worker may renew and complete afterwards, an empty claim makes a worker
leave for good, and a process may die anywhere and take up its interrupted jobs again.

The project has three layers.

* **The lease protocol** (`Domain`, `QueueTable`, `Protocol`, `Invariant`) is one transition system over the table, the
  clock, the row locks, the store and one phase per worker. Because of `FOR UPDATE SKIP LOCKED` a claim takes two steps,
  locking and committing, with other steps in between. Theorems about all its runs are in `Ownership`, `Completion`,
  `Lossless`, `Scheduling`, `Records`, `Timing`, `Progress`, `Delivery`, `Download`, `WriteBeforeCommit`, `DownloadBytes`,
  `Disk` and `Conservation`.
* **The life of a job** (`Flushing`, `Lifecycle`, `Recovery`, `ResumeExact`, `LiveLease`, `EarlyCompletion`) puts any number
  of processes on top of the protocol: replicas of the service, which accept jobs, flush, start the engine, close or abort
  a job, and take up interrupted jobs when they start, and the stand-alone worker processes of workers/run_worker.py. Each
  of them may crash anywhere. Every history of such events is a run of the protocol (`Lifecycle.HistoryIsRun`).
* **The objects** (`Repositories`, `Validation`, `Ingestor`, `Engine`, `Storage`, `Backpressure`, `JobService`) are classes
  with the source's fields, loops and in-place updates, each method proved against a function of the old state; the
  functions are the ones the protocol uses. `Ingest`, `RowIds`, `OneShot`, `Execution`, `Retry`, `Jsonl`, `Framing`,
  `JsonReader`, `Torn` and `Text` hold those functions and what is proved about them.

Runs are finite step sequences, so a statement about `Final(c, s, steps)` for every valid `steps` is one about every
reachable state. `claims` and `writes` in the protocol state, `flushed`, `tasks`, `early`, `dead`, `clean` and `whole` in
the lifecycle, are history.

What the code does differs from what is written about it in some places; the model follows the code.

* An expired row goes from CLAIMED to CLAIMED under a new owner and never back to PENDING (docs/diagrams/05_item_state.mmd:7).
* Chunk files have fresh generated names, not deterministic keys (scripts/build_doc.py:290), so a redelivered row can have
  several stored records; `Delivery.StorageBounds` bounds them.
* "Resuming is safe and lossless" (app/services/job_service.py:90-91) is true exactly if the job has nothing left to do,
  or no lease on it is live and no worker of it alive, in this process or another, when the engine starts. The table can
  be asked for the leases beforehand; the workers are known to whoever runs the processes. `ResumeExact.LosslessExactly` is the if-and-only-if for every state in which an engine can start,
  `LiveLease.CompletedWithClaimedRow` and `LiveLease.CompletedBesideWorker` are histories from a fresh system that run into
  the two other cases. `Recovery.CrashAndResume` is what is guaranteed over whole histories.
* Running several worker processes or replicas on a job is safe for its rows ("Horizontal scaling" in the README.md of the repository, lines 198-205), but
  the first to find nothing to claim sets the job COMPLETED. Only when the last has returned is it true to its name
  (`Recovery.CrashAndResume`, `Recovery.CompletedExactly`).
* COMPLETED does not imply that the input has been ingested, because a worker process sets it as well:
  `EarlyCompletion.CompletedWithNothing` is the history, `EarlyCompletion.IngestedExactly` the exact condition.
* A job whose process dies before its first state change stays PENDING for ever (`Recovery.StrandedSubmission`); the exact
  condition for being resumed is in `Recovery.ResumedExactly`.
* An accepted prompt is lost when a malformed row with its id was flushed before it; `OneShot.WritingRefines` is the exact
  condition, `OneShot.ComposedLosesPrompt` an input for every batch size and every setting of the composed pipeline.
* With zero configured attempts a record claims one attempt without a call (`Retry.AttemptsCountCalls`).
* A chunk with a text containing U+0085, U+2028 or U+2029 cannot be read back (`Framing.ChunkRoundTrip`), and one torn file
  makes the whole download of its job fail unless it was cut at the end of a record (`Disk.TornDownload`).

## Model

| member | source | states |
|---|---|---|
| Recovery.CrashAndResume | app/services/job_service.py:87-113 | over every history of any number of processes, with submissions, flushes, worker steps, failures and crashes anywhere: when an engine closes the job, which started with the leases of dead workers expired and, as a worker process, after the ingest, and the workers of other processes have returned by then or were dead at its start, the job is COMPLETED with exactly one terminal row per distinct external id of the input, holding the prompts an uninterrupted ingest would have stored |
| Recovery.StartedAlone | app/engine/batch_engine.py:44-65 | if no worker of the job is alive when an engine starts and no other engine is started on it meanwhile, the condition about the other processes holds when it closes the job, and the one about leases says that none was live |
| Recovery.SafeResume | app/services/job_service.py:87-99 | hence, in every history: an engine that starts with no lease on the job live and no worker of it alive, and beside which no other engine is started on the job, leaves that table when it closes the job |
| ResumeExact.LosslessExactly | app/services/job_service.py:87-107 | for every state in which an engine can start on a job, in the service or in a worker process, with a pool and a chunk size of at least one: whatever the workers then do, the job ends with terminal rows only, if and only if it had only such rows at the start, or no lease on it was live and no worker of it alive |
| Lossless.DrainsExactly | app/engine/worker.py:52-92 | the same for any fresh pool in any state of the protocol, deaths of workers included |
| Lossless.LeaseLost | app/engine/worker.py:55-63 | if a lease on the job is live, the pool has a run in which all its workers return, every claimable row is locked by others and the leased row is untouched |
| ResumeExact.CompletesUnfinished | app/engine/batch_engine.py:65-66 | from every state in which an engine can start but the condition fails, the job can become COMPLETED with a row unfinished |
| ResumeExact.LeaseOutlives | app/engine/batch_engine.py:65-66 | if it fails because a lease is live, that row can be the leased one, with no row left that a claim could take and the other workers as they were |
| Lossless.SoloChunk | app/engine/worker.py:55-82 | whoever else works on the job, a worker can take a chunk from lock to completion: its rows, which could be taken, become terminal, and nothing else in the table changes |
| Recovery.TableDetermined | app/engine/worker.py:52-98 | in the histories of `Recovery.CrashAndResume`, with an endpoint that answers each prompt always alike, status, error and attempts of every row are a function of the input alone |
| Recovery.CompletedExactly | app/engine/batch_engine.py:65-66 | when the pool of an engine that started after the ingest has returned: unless a worker of the job has died meanwhile, every row is terminal if and only if none is in progress and none locked by a claim under way; if the other processes are done, nobody has died meanwhile and none is locked |
| Recovery.LeftBehind | app/services/job_service.py:87-99 | what such an engine can leave: rows CLAIMED by workers that were dead when it started or belong to other processes, and, unless a worker has died meanwhile, PENDING rows that other processes have locked; if the other processes are done, only rows CLAIMED by workers dead at the start, and that only if a lease of theirs was live then |
| Recovery.FinishedForGood | app/infrastructure/db/repositories/job_repository.py:66-75 | after a job has finished, no event of any history executes it again, adds a row to it or changes a terminal row; its state stays as it is or becomes COMPLETED, the latter only if a worker process runs on it |
| Recovery.ResumedExactly | app/infrastructure/db/repositories/job_repository.py:50-75 | after a crash a process takes up a job again if and only if the last state written for it is INGESTING or RUNNING; so, if no other process has ever worked on the job, an interrupted execution is resumed if and only if it had written its first state |
| Recovery.StrandedSubmission | app/services/job_service.py:78-81 | from every reachable state in which a job is PENDING, a crash of the process that accepted it leaves it unexecuted in every later history, and PENDING unless a worker process is run on it |
| Recovery.CrashAfter | app/services/job_service.py:78-107 | a crash right after a job has been accepted finds it PENDING and not to be resumed, one right after its first state change or after the start of its engine finds it to be resumed |
| Recovery.AbortFails | app/services/job_service.py:108-113 | an execution that ends in an error leaves the job FAILED; if no other process is executing it, it is never executed again and stays FAILED unless a worker process runs on it |
| Recovery.IngestedKeys | app/infrastructure/db/repositories/work_queue_repository.py:85-91 | a table seeded by the whole input has one row per distinct id, in whatever batches it was written |
| EarlyCompletion.CompletedIngested | app/engine/batch_engine.py:65-66 | in every reachable state a COMPLETED job has one row for each distinct id of its whole input, with the prompts of an uninterrupted ingest, unless an engine closed it while flushes were outstanding |
| EarlyCompletion.IngestedExactly | workers/run_worker.py:19-25 | when an engine sets a job COMPLETED, some later history leaves it COMPLETED, executed by nobody and with part of its input missing, if and only if the whole input is not in the table at that moment |
| EarlyCompletion.LostForGood | app/infrastructure/db/repositories/job_repository.py:66-75 | once that has happened, no later history adds the missing part |
| EarlyCompletion.CompletedWithNothing | workers/run_worker.py:19-25 | it happens: from every fresh system and for every non-empty input a history that leaves the job COMPLETED without a row |
| LiveLease.CompletedWithClaimedRow | app/engine/batch_engine.py:65-66 | a history of a fresh system, for every lease time, in which a job is interrupted by a crash, resumed and COMPLETED with its row CLAIMED by the dead worker and no open work to be reported |
| LiveLease.CompletedBesideWorker | workers/run_worker.py:19-25 | a history of a fresh system in which no lease is ever live when an engine starts, and the job is COMPLETED with its row unfinished because a worker process is at it |
| Lifecycle.HistoryInv | app/services/job_service.py:101-113 | in every reachable state: keys and prompts of each job are those of a prefix of its flushes; while a process is at a job its living workers are those of its pool; and once a worker of a pool that started after the ingest has left, every row open to it is locked unless a worker of the job has died meanwhile |
| Lifecycle.HistoryIsRun | workers/run_worker.py:19-25 | every history of any number of processes, with crashes and restarts, is a run of the lease protocol |
| Flushing.FlushSeedsStep | app/services/ingestor.py:61-65 | repeating a flush changes no key or prompt, and the next new flush adds exactly the next batch |
| Flushing.FlushAgain | app/infrastructure/db/repositories/work_queue_repository.py:85-91 | a flush that has been made before, by whatever process, leaves the table as it is |
| Lifecycle.DrainingStep | app/engine/batch_engine.py:44-67 | no step by anybody, crashes included, that adds no row to the job invalidates what holds since its engine started |
| Completion.PoolCompletion | app/engine/worker.py:55-63 | in every interleaving, lapsed leases and claims that only met locked rows included: when all pool workers have returned, a pending row is inside an outsider's claim and a claimed row belongs to an outsider |
| Completion.CleanStartCompletes | app/engine/batch_engine.py:65-66 | several pools, of one process or many, may drain a job at once, start while others are at it and find their inserts made: if the leases of the workers dead when a pool started had expired, and it and every other worker of the job have returned, every row of the job is terminal |
| Completion.EmptyClaim | app/infrastructure/db/repositories/work_queue_repository.py:18-27 | an empty claim means that every claimable row of the job is locked or belongs to a living worker |
| Completion.CoveredStep | app/infrastructure/db/repositories/work_queue_repository.py:18-36 | every step keeps it: once a pool worker has left, each open row is locked by a claim under way |
| Completion.ChunkSizeNeeded | app/engine/worker.py:62-63 | with chunk size zero a pool returns at once and leaves its rows pending |
| Completion.OutsiderMayNotDieClaiming | app/infrastructure/db/repositories/work_queue_repository.py:18-27 | a run in which an outsider dies while it has a row locked and the pool returns without that row |
| Invariant.RunInv | app/engine/worker.py:52-92 | the invariant of all reachable states: keys unique, every CLAIMED row held in memory by its living owner of the same job or owned by a dead worker, locks held by claims under way, every committed result stored |
| Invariant.RunEvolves | app/infrastructure/db/repositories/work_queue_repository.py:16-53 | over any run no row disappears, no key or prompt changes, nothing becomes PENDING again and no terminal row changes |
| Invariant.CompleteEffect | app/infrastructure/db/repositories/work_queue_repository.py:40-53 | a completion gives each row still owned the record computed for that very row and changes no other row |
| Ownership.OwnedInChunk | app/infrastructure/db/repositories/work_queue_repository.py:29-31 | in every reachable state the rows CLAIMED under a live worker's id are among its current chunk, none between chunks, and all in its one job |
| Ownership.OneRowPerResult | app/infrastructure/db/repositories/work_queue_repository.py:49-51 | although the statement names no job, each result matches its own row or none |
| Ownership.Fencing | app/infrastructure/db/repositories/work_queue_repository.py:116-137 | a late completion makes exactly the rows still owned terminal and leaves reassigned rows alone |
| Ownership.OneCompletion | app/infrastructure/db/repositories/work_queue_repository.py:116-137 | over a run every row, present at the start or inserted on the way, gets at most one effective completion, and exactly one if a worker made it terminal |
| Ownership.CompletesExactly | app/infrastructure/db/repositories/work_queue_repository.py:40-53 | a step makes an existing row terminal if and only if it is an effective completion of it |
| Scheduling.SchedulingIndependence | app/engine/worker.py:52-98 | every complete run ends with the status, error and attempts of one sequential pass over the rows in id order |
| Scheduling.PoolLikeSequentialPass | app/engine/batch_engine.py:44-65 | hence for every such pool, whatever its size, chunk size, delays and lapses and whoever else drained the job with it |
| Scheduling.SequentialPassAt | app/engine/worker.py:94-98 | the sequential pass, row by row: open rows of the job take the verdict of their prompt, other rows stay |
| Scheduling.RunVerdict | app/engine/worker.py:172-178 | in any run every row that becomes terminal, inserted on the way or not, has the verdict of its prompt, and terminal rows stay as they are |
| Records.StoredAnswers | app/engine/worker.py:112-178 | in every run each stored record has its row, and its status, response, error and attempts are those of calls made in the run for the prompt of that row: SUCCEEDED with the text of the last call, or FAILED without a response |
| Records.EndpointAnswers | app/engine/worker.py:94-98 | hence, if the endpoint answers each prompt always alike, each stored record holds its answer to the prompt of the row with its id |
| WriteBeforeCommit.WriteBeforeCommit | app/engine/worker.py:81-82 | in every reachable state a row made terminal by a worker names a stored chunk of its own job, whose file is the serialisation of its records; one of them has the row's id, status, error and attempts and tells how calls made for the row's prompt went, with the text of the last one if that succeeded; the file reads back as those records if and only if their texts allow |
| WriteBeforeCommit.NeverOverwritten | app/engine/worker.py:66 | chunk names being fresh, no stored file is ever replaced |
| WriteBeforeCommit.RejectedNamesNoFile | app/infrastructure/db/repositories/work_queue_repository.py:73-82 | a row without a prompt, and no other terminal row, names no file |
| Timing.TimingBoundExact | app/engine/worker.py:180-183 | punctual workers never hold a row twice, in any run, if and only if the longest renewal gap plus the longest time from the end of processing to completion is within the lease |
| Timing.ChunksDisjoint | app/engine/worker.py:73-82 | within that bound the in-memory chunks of live workers are pairwise disjoint at all times |
| Timing.ClaimedOnce | app/infrastructure/db/repositories/work_queue_repository.py:23-31 | within that bound and without crashes no row is claimed twice in a run |
| Timing.LateDoubleDelivery | app/engine/worker.py:77-82 | beyond the bound a punctual run delivers a row to two live workers |
| Progress.ExactClaims | app/engine/worker.py:55-63 | without lapse, a pool of n workers, fresh or resumed, over P rows that are pending or were left by dead workers makes exactly ceil(P / size) claims that take rows and n empty ones |
| Progress.ResumedPool | app/services/job_service.py:87-99 | for a pool that starts beside nobody but dead workers with expired leases, P is the number of rows pending plus the number in progress |
| Progress.WorkBounded | app/engine/worker.py:55-92 | no such run, finished or not, has more than 5 ceil(P / size) + n worker steps |
| Progress.ClaimTakes | app/infrastructure/db/repositories/work_queue_repository.py:24-26 | without lapse a claim takes min(size, available) rows, all of them available |
| Progress.NoDeadlock | app/infrastructure/db/repositories/work_queue_repository.py:25 | whenever a worker is alive some worker can take a step of its loop |
| Progress.ChunksIsCeiling | app/infrastructure/db/repositories/work_queue_repository.py:26 | the claim count is the ceiling of rows over chunk size |
| Delivery.StorageBounds | app/engine/worker.py:66-82 | over any run a row has at most as many stored records as it was claimed, and at least one if a worker made it terminal |
| Delivery.ClaimsAreDeliveries | app/infrastructure/db/repositories/work_queue_repository.py:32 | the deliveries in the history are exactly the claims of the run that took the row |
| Delivery.TokensRun | app/engine/worker.py:66-82 | in every reachable state stored records are claims that were written, and attempts of an unfinished row counts its claims |
| Download.DownloadExactlyOnce | app/infrastructure/storage/local_storage.py:38-53 | without lapse and crash, once all rows are terminal, the download has each processed row exactly once and succeeded + failed - rejected records |
| Download.CountedRun | app/infrastructure/storage/local_storage.py:38-53 | in every run the length of the download is the number of stored deliveries of the job |
| DownloadBytes.DownloadIsStore | app/services/job_service.py:121-130 | in every state reachable without broken writes, unless a text of the job's own results holds a raw line boundary: the array the client parses is, as a multiset, the stored records of the job, each a JSON object with the six fields by name, and each telling how calls for the prompt of its row went |
| Disk.TornDownload | app/infrastructure/storage/local_storage.py:31-53 | in every reachable state, writes that broke off included: the download of a job can be read to its end if and only if each of its torn files was cut at the end of a record and no text of what is complete holds a raw line boundary; the client then reads exactly the stored records and those complete in torn files, each telling how calls for the prompt of its row went |
| Disk.NeverTorn | app/engine/worker.py:77-82 | no row ever names a torn file: the file of a row made terminal by a worker is complete and holds its record |
| Torn.TornChunk | app/infrastructure/storage/local_storage.py:29-33 | a chunk file cut anywhere yields the records complete in it and then fails unless the cut is at the end of a record |
| Torn.PrefixFails | app/infrastructure/storage/local_storage.py:29 | no proper prefix of a serialised record parses as a record |
| Storage.OneListing | app/infrastructure/storage/local_storage.py:41-46 | the sorted listing of a job's files, hence its download, is determined by the files |
| DownloadBytes.CleanDownload | app/services/job_service.py:121-130 | without lapse and crash the client reads one record for each row that was not rejected and none for the others; if the endpoint answers each prompt always alike, that record holds its answer to the prompt of the row |
| DownloadBytes.ListingSum | app/infrastructure/storage/local_storage.py:41-46 | any complete listing adds up to the store, for every way of counting records |
| Conservation.CountsConserved | app/infrastructure/db/repositories/job_repository.py:77-98 | after ingest the four counts always add up to the number of distinct external ids, PENDING never grows and terminal rows stay |
| Conservation.CompletionsAddUp | app/infrastructure/db/repositories/work_queue_repository.py:116-137 | over any run the counts returned by completions plus the rows inserted as FAILED are what succeeded + failed has grown by |
| Conservation.RowsAreKeys | app/infrastructure/db/models.py:83 | a job has as many rows as distinct external ids |
| Conservation.CountsAddUp | app/infrastructure/db/repositories/work_queue_repository.py:152-159 | the four status counts partition the rows of the job |
| QueueTable.SelectIsSelection | app/infrastructure/db/repositories/work_queue_repository.py:19-26 | a claim selects the lowest unlocked eligible ids, at most `size` of them, and leaves none out while it has room |
| QueueTable.SelectionUnique | app/infrastructure/db/repositories/work_queue_repository.py:19-26 | that promise determines the selection |
| QueueTable.CompleteRowsAt | app/infrastructure/db/repositories/work_queue_repository.py:123-136 | statement after statement, each row still CLAIMED by the worker takes the first record with its id, every other row stays |
| QueueTable.CompleteCountIs | app/infrastructure/db/repositories/work_queue_repository.py:122-137 | the summed row counts are the number of rows made terminal |
| QueueTable.InsertRowsFacts | app/infrastructure/db/repositories/work_queue_repository.py:85-88 | an insert keeps keys unique, keeps existing rows, adds only rows it was given and leaves none of their keys missing |
| Repositories.AtomicClaim | app/infrastructure/db/repositories/work_queue_repository.py:93-114 | with no other claim under way the two protocol steps of a claim are the one atomic claim of `ClaimChunk` |
| Repositories.OpenWorkIsClaimable | app/infrastructure/db/repositories/work_queue_repository.py:161-176 | open work is reported if and only if an uncontended claim would take a row |
| Repositories.WorkQueue.BulkInsert | app/infrastructure/db/repositories/work_queue_repository.py:60-91 | accepted items before rejected ids, existing keys untouched, the number of new rows returned |
| Repositories.WorkQueue.ClaimChunk | app/infrastructure/db/repositories/work_queue_repository.py:93-114 | exactly the selected rows change, and they are returned once each in some order, with their external id, their prompt and the number of deliveries including this one |
| Repositories.WorkQueue.CompleteItems | app/infrastructure/db/repositories/work_queue_repository.py:116-137 | the loop of statements has the effect of `CompleteRows` and returns the number of rows made terminal |
| Ownership.ClaimExpires | app/infrastructure/db/repositories/work_queue_repository.py:28-32 | however long a claim waits for its locks, the rows it takes are claimable again exactly when the lease time has passed since its start |
| Ownership.RenewalRevives | app/infrastructure/db/repositories/work_queue_repository.py:139-150 | a renewal revives even a lapsed lease: a row its worker still owns is claimable again exactly after the new lease, and until then no run takes it away from that worker unfinished |
| Repositories.WorkQueue.CountByStatus | app/infrastructure/db/repositories/work_queue_repository.py:152-159 | the count per status of the job's rows, a status without rows having no entry |
| Repositories.WorkQueue.HasOpenWork | app/infrastructure/db/repositories/work_queue_repository.py:161-176 | true exactly when an uncontended claim of the job, of whatever size, would take a row now |
| Repositories.JobRepository.ListActive | app/infrastructure/db/repositories/job_repository.py:66-75 | the INGESTING and RUNNING jobs, each once, with their paths |
| Repositories.JobRepository.GetStatus | app/infrastructure/db/repositories/job_repository.py:77-98 | the four counters are the numbers of the job's rows with each status; an unknown job is an error |
| Ingest.Replay | app/services/ingestor.py:54-99 | after any number of committed flushes a full re-ingest keeps every row and ends with the keys and prompts of one uninterrupted ingest |
| Ingest.SecondIngestInsertsNothing | app/infrastructure/db/repositories/work_queue_repository.py:85-91 | a second full ingest leaves the table as it is |
| Ingest.IngestSeeds | app/services/ingestor.py:54-99 | the first value written for a key wins over all flushes, and what was there before over all |
| Ingest.FlushesIsCeiling | app/services/ingestor.py:95-97 | the number of inserts is the ceiling of rows over batch size |
| OneShot.WritingRefines | app/services/ingestor.py:68-97 | for an id, batched ingestion writes what a one-shot ingest would if and only if its first row and its first accepted row fall into one batch |
| OneShot.IngestRefines | app/services/ingestor.py:68-97 | on a fresh job the whole table is the one-shot one if and only if every id meets that condition |
| OneShot.BatchSizeIrrelevant | app/services/ingestor.py:82-97 | with the duplicate rule on and no malformed row before an accepted one of its id, the table is the one-shot one for every batch size |
| OneShot.AcceptedFirst | app/services/validation/rules.py:48-52 | rows before an accepted one with the same id can only be malformed ones |
| OneShot.MalformedFirstLosesPrompt | app/services/ingestor.py:72-80 | for every batch size and every prompt the rules let pass, an input of JSON values whose last one is accepted with that prompt while the table ends with its id FAILED and without the prompt |
| OneShot.ComposedLosesPrompt | app/composition.py:35-43 | the same for the composed pipeline under all its settings and every prompt it accepts |
| OneShot.ComposedRules | app/composition.py:35-43 | the composed pipeline has at most one duplicate rule, and which items pass its stateless rules |
| Ingestor.BatchIngestor.Ingest | app/services/ingestor.py:54-109 | the streaming loop writes each input row once, in order, in full batches of 500 and a rest, with ceil(total / 500) inserts and total = accepted + rejected; a broken file leaves only the full batches and no total |
| Ingestor.BatchIngestor.Classify | app/services/ingestor.py:43-52 | an object with an id that is neither null nor empty is entered under that id in text form, any other under "row-" and its position in decimal digits; it is malformed if and only if its prompt is not a string, and an accepted item has the prompt of its object |
| RowIds.EntriesAre | app/services/ingestor.py:43-52 | the same for every object of an input, at whatever position |
| RowIds.PositionsDiffer | app/services/ingestor.py:46-48 | objects without an id of their own never share one |
| RowIds.AcceptedExactly | app/services/ingestor.py:72-93 | an object is accepted if and only if it is well formed, passes the stateless rules and, with the duplicate rule on, no earlier well-formed object, accepted or not, has its id |
| Ingestor.Collector.Flush | app/services/ingestor.py:61-65 | one insert of everything collected and an empty collection afterwards, or nothing at all |
| Validation.CheckAllMeaning | app/services/validation/pipeline.py:16-22 | all rules run: an item passes iff it passes the stateless ones and its id was not seen; its id is seen afterwards even if it fails |
| Validation.ComposedViolations | app/services/validation/pipeline.py:16-22 | under the composed rules exactly these violations are collected, in this order, whichever others there are: a blank id, a stripped prompt shorter than the minimum, more than the allowed quarter characters, an id seen before |
| Validation.SeenIsAllIds | app/services/validation/rules.py:45-52 | after any sequence the seen ids are those of all validated items |
| Validation.AcceptedIff | app/services/validation/rules.py:45-52 | an item is accepted iff it passes the stateless rules and no earlier item, accepted or not, had its id |
| Validation.AcceptedDistinct | app/services/validation/rules.py:45-52 | accepted ids are pairwise distinct |
| Validation.TwoUniqueRejectAll | app/services/validation/rules.py:48-52 | two duplicate rules in one pipeline reject every item |
| Validation.ValidationPipeline.ValidateItem | app/services/validation/pipeline.py:16-22 | the loop over the rules collects all violations and leaves the context as the rules do |
| Retry.RowResultMeaning | app/engine/worker.py:112-178 | the record of a row: its attempts are the calls made, all but the last retryable, and its status, response and error follow from the last |
| Retry.AttemptsCountCalls | app/engine/worker.py:113 | attempts counts calls if and only if at least one attempt is configured |
| Retry.DelayExact | app/engine/retry.py:31-33 | a delay is the drawn share of the smaller of the cap and base * factor^attempt, which a draw of one attains |
| Retry.SleptBounds | app/engine/retry.py:31-33 | total back-off is at most the sum of the ceilings, hence at most the number of retries times the cap |
| Retry.SleptGeometric | app/engine/retry.py:32 | total back-off is at most the geometric sum of the uncapped ceilings |
| Retry.GeometricClosedForm | app/engine/retry.py:32 | that sum is base (factor^n - 1) / (factor - 1) for factor > 1 |
| Engine.ProcessRow | app/engine/worker.py:100-178 | the retry loop returns the specified record, sleeps the specified delays and leaves INFLIGHT as it was on every exit |
| Engine.Worker.ProcessChunk | app/engine/worker.py:94-98 | one record per row of the chunk, in its order, under its id and with what the endpoint answers to its prompt: status, response, error and attempts |
| Engine.Worker.RunChunk | app/engine/worker.py:55-82 | one turn of the loop completes the claimed rows and nothing else, each naming a file of its job that is in storage and holds its result and answer, and changes no other file; or it finds nothing claimable |
| Engine.Worker.FinishChunk | app/engine/worker.py:75-82 | the rows of a claimed chunk are completed with the reference of a file written before, of their job and under a fresh name, that holds their results and answers |
| Engine.Worker.Run | app/engine/worker.py:52-92 | a worker on its own returns only when nothing of the job is claimable, having completed every row it changed as the sequential pass would, and with its result and answer in a file of its job that the row names; no file that was there changes |
| Engine.ChunkDrained | app/engine/worker.py:75-82 | claiming and completing a chunk finishes exactly its rows and leaves the worker owning nothing |
| Storage.LocalFileStorage.WriteChunk | app/infrastructure/storage/local_storage.py:24-36 | the file ends with a newline, holds one JSON object per line with the six fields of a record by name, and reads back as the records, unless a text holds a raw line boundary; a write that breaks off after n characters leaves a file that reads back as the records complete in it if the cut is at the end of one, and not at all otherwise; no other file changes |
| Storage.LocalFileStorage.IterResults | app/infrastructure/storage/local_storage.py:38-53 | the records of all files of the job in the order of their names, each file once, up to the first line that does not parse |
| Storage.LocalFileStorage.ListChunks | app/infrastructure/storage/local_storage.py:41-44 | all files of the job and no others, each once, by ascending name |
| Framing.ChunkRoundTrip | app/infrastructure/storage/local_storage.py:29-53 | reading back a written chunk gives its records, for every list including the empty one, if and only if no text contains U+0085, U+2028 or U+2029; otherwise reading fails |
| Framing.DownloadRoundTrip | app/services/job_service.py:125-130 | the streamed download reads back as exactly the records, whatever their texts |
| JsonReader.DownloadMembers | app/services/job_service.py:125-130 | read as JSON without knowledge of records, the streamed download is an array of one object per record, with its six fields by name |
| JsonReader.RecordMembers | app/domain/results.py:24-32 | read as JSON without knowledge of records, a serialised record is an object with the members external_id, status, response, error, attempts and latency_ms, in this order, with the values of the record, null where there is none |
| Jsonl.RecordRoundTrip | app/infrastructure/storage/local_storage.py:29 | a serialised record reads back as itself and leaves what follows it |
| Jsonl.StringRoundTrip | app/infrastructure/storage/local_storage.py:29 | an escaped string (section 7 of RFC 8259) reads back as itself |
| JsonReader.CodeEscape | app/infrastructure/storage/local_storage.py:29 | an escape of four hexadecimal digits stands for the character with that code (section 7 of RFC 8259) |
| Backpressure.PermitsConserved | app/engine/concurrency.py:19-21 | in every run of rows through the limiter free and held permits add up to the limit, INFLIGHT counts the rows in a call or its back-off and never exceeds held permits, and all permits are back when no row holds one |
| Backpressure.MemoryBounded | app/engine/worker.py:56-61 | in every reachable state a pool has at most pool size times chunk size rows in memory |
| Backpressure.ConcurrencyLimiter.Create | app/engine/concurrency.py:14-17 | a limit below one is refused |
| Backpressure.ConcurrencyLimiter.Run | app/engine/concurrency.py:19-21 | a row runs if and only if a permit is free, and permits and INFLIGHT are afterwards as before |
| JobService.BatchEngine.Run | app/engine/batch_engine.py:44-67 | a pool run one worker after the other leaves nothing claimable, completes rows as the sequential pass would, each naming a file with its result and answer, changes no file that was there, and sets COMPLETED in any case |
| JobService.Service.Execute | app/services/job_service.py:101-113 | every object of the input, or of its full batches if it is broken, has its row, with the keys and prompts an ingest into the old table gives; the table is drained from there, every row made terminal by a worker names a file with its result and answer, the job is COMPLETED with its total or FAILED with the parser's error, only its rows change, and all of them are terminal if no lease was live at the start |
| JobService.Service.ResumeActive | app/services/job_service.py:87-99 | after a restart every job that was INGESTING or RUNNING has been executed again, its ingest included, with all that `Execute` states relative to the table at the restart, total and error included; all other jobs and their rows are as they were, and no file has changed |
| JobService.Service.StreamResults | app/services/job_service.py:121-130 | nothing for an unknown job; otherwise the body is a JSON array of the objects of the records of all files of the job, with the six fields by name, or, if a line of one does not parse, breaks off just before the closing bracket after the records before that line |

## Left out

- Database internals: each repository call is one atomic step, except the claim, which is split into locking and committing; rows another transaction may be holding at that moment are the `busy` set of a Lock step.
- Order of rows in RETURNING: unspecified, hence an arbitrary permutation.
- Error text of rows rejected at ingest: what a multi-row insert with differing keys stores is not visible in the source; rejected rows have no error here.
- `chunk_id` and timestamp columns, model and config of a job: stored and never read by what is modelled.
- Freshness of generated worker ids and chunk ids: assumed, as uuids; the worker objects require that no chunk id still to be generated names a file.
- Inputs: the file of a job stays as it is between executions.
- Recovery.CompletedExactly: its condition is read when the pool has returned, the one known beforehand being that of `ResumeExact.LosslessExactly`; it says nothing for the case that a worker of another process has died meanwhile, in which any row can be left (`Completion.OutsiderMayNotDieClaiming`).
- Recovery.ResumedExactly: its second half covers jobs no other process has ever worked on; another process may have written any state.
- Engine.Worker.Run: a worker alone on the table; interleavings of workers, heartbeats and lapses are the subject of the protocol.
- Engine.Worker.RunChunk: no heartbeat renews the lease and no other worker or failing write comes in between; the protocol, and `Disk` for writes, have those.
- Engine.Worker.ProcessChunk: processes the rows one after the other and without the limiter, where the source gathers them concurrently under it; the limiter around one row is `Backpressure.ConcurrencyLimiter.Run`, its use by many rows at once the state machine of `Backpressure`.
- Backpressure.ConcurrencyLimiter.Run: returns nothing where the source waits for a permit; waiting, and leaving through an exception or cancellation, are moves of the state machine in `Backpressure`.
- JobService.BatchEngine.Run: runs the workers one after the other; all interleavings are in `Completion.PoolCompletion`.
- JobService.Service.ResumeActive: executes the interrupted jobs one after the other, where the source starts them as concurrent tasks; the lifecycle model has them interleaved.
- JobService.Service.Execute: the only error it meets is a broken input; failing database, storage or worker calls are the Abort events of the lifecycle.
- Encoding: files are sequences of characters; a write that breaks off inside a multi-byte character, which makes the file undecodable, counts as one cut inside a record.
- DownloadBytes.DownloadIsStore: its reachable states have no broken writes; `Disk.TornDownload` has them.
- DownloadBytes.CleanDownload: likewise, there being no crash in its runs.
- Retry.SleptBounds: real arithmetic; rounding and overflow of floating-point powers are not modelled.
- JSON parsing beyond the fixed record shape the writer emits, surrogate escapes, ijson tokenising, file paths: input is a sequence of JSON values and storage a map.
- Wall-clock latency: an arbitrary number in each record. Metrics other than INFLIGHT, logging, Sentry, HTTP routes, configuration, token and cost estimates, `_validate_submit`.
- The inference client and its HTTP mapping: only the four kinds of outcome are kept. `S3SpacesStorage` is an unimplemented skeleton in the source.
