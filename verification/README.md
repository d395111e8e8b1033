# Verified model of the media job service

The service accepts multipart submissions, streams each file into an S3-style
object store, records a job in a PostgreSQL table, and lets a pool of workers
send the jobs to an external processor. This project models the three protocols
that hold its correctness together, and the sequential code they rest on, and
proves what they keep.

**Upload pipeline** (`Prelude`, `Chunking`, `Int64`, `Streaming`, `Store`, `Bags`, `Upload*`,
`Pipeline`, `SharedPool`, `Capacity`, `PeakRun`, `Limits`). `Streaming` and `Store` are the sequential code:
array buffers, the capped and replaying reader, `fill`, the producer loop and the
buffer pool, for any client that hands out its bytes in pieces of its own
choosing. `UploadProtocol` is the concurrent upload as a step relation over the
caller, the bounded channel, the part workers, the shared pool of dirty buffers
and the store, in which every request may fail, take effect unheard, or be
cancelled. `UploadSafety` proves the invariant step by step, `UploadResults` the
theorems about whole runs, `UploadProgress` that uploads end. `Pipeline` puts the
checked and capped reader under the concurrent upload, `SharedPool` proves all of
it of any number of uploads on one pool, `Capacity` that their memory stays below
the figure reported at startup, `PeakRun` that it can get there, and `Limits` what becomes of a file under the
configured size limits, working or not.

**Job queue** (`JobTable`, `JobRuns`, `Leases`, `WorkerPool`, `Fleet`,
`WorkerLoop`, `Processor`, `Memo`). `JobTable` is the table with the repository's statements as
methods of a class. `JobRuns` runs them with row locks as explicit steps and any
number of workers, stale ones included. `Leases` adds time for one claimed job.
`WorkerPool` is one worker process with its channel, pool and shutdown; `Fleet` is
any number of them over one table, and discharges what each of the two models
assumes of the other. `WorkerLoop` is the worker's own code between the points where other goroutines
act. `Processor` is the client's retry loop in 64-bit arithmetic, and `Memo` the
mock processor's bounded memory.

**Submission** (`Naming`, `Submission`, `SubmissionResults`, `Service`).
`Submission` is the step relation of concurrent requests over both stores, with a
failure possible at every step, including an insert that takes effect although
its reply is lost and deletions that fail. `Service` is the handler and the draft
as sequential code, each method proved to follow those steps.

Every theorem about runs is for all runs from the initial state, of any length,
over all parameters that the configuration check admits.

## Where the code and its comments disagree

- `recordFailure`, `ReapExpired` and the repository's documentation say that
  MAX_ATTEMPTS bounds a job whose worker keeps dying. It does not: neither the
  claim nor the reaper looks at the attempts. `JobRuns.CrashLoopsAreUnbounded`
  gives the runs; `JobRuns.AttemptsAreBounded` says that the bound holds exactly
  as long as no reaper requeues the job with its attempts used up.
- Half a lease between heartbeats keeps a job from the reaper only if the wait
  before the first heartbeat, the write and the clocks leave room:
  `Leases.SafeIffCovered`.
- "A job that was queued is put back to pending on shutdown" holds only while it
  has attempts left: `WorkerLoop.Worker.ReleaseQueued`.
- An orphan clean-up after a failed insert is described as best effort. When the
  insert took effect and only its reply was lost, it deletes the object of a live
  job: `SubmissionResults.TornInsertLosesTheObject`, with
  `SubmissionResults.TornJobsKeepUndeletedObjects` saying exactly when.
- `Validate` does not check the size limits. A document, image or video limit
  below -1 makes `cappedReader` slice out of range, and so does the largest int64
  (`Streaming.RoomIsExact`); a limit of -1 refuses even an empty file. With a
  negative limit every file whose head passes its check crashes its request, however
  long the file and the form are (`Limits.NegativeLimitCrashes`). The largest int64
  also wraps the ceiling on the whole request, so that with an ordinary text limit
  no file is ever reached (`Limits.UnlimitedKindCrashes`). `Limits.ConfigsThatCrash`
  has all configurations.
- `Validate` also admits a negative backoff base (`JobTable.DelayInRange`), more than
  36 calls per processing run (`Processor.WaitsNeverOverflow`; a bound of arithmetic
  only, since the waits before the one that fails take 218 years) and settings whose
  peak memory does not fit in the reported int64 (`Capacity.PeakIsReported`).

## Model

| member | source | states |
|---|---|---|
| `Chunking.BlocksCutTheBody` | internal/storage/s3/store.go:278-302 | cutting a body at the part size loses nothing: the blocks lie end to end to the body, all full but perhaps the last, none empty |
| `Chunking.CutIsUnique` | internal/storage/s3/store.go:278-302 | there is no other such cut, so full parts in order are the blocks of what they add up to |
| `Streaming.ReadFull` | internal/api/http/mime.go:186-190 | reads exactly the first bytes of the stream, whatever the chunking; UnexpectedEOF exactly for a short but nonempty end |
| `Streaming.CappedReader.Read` | internal/api/http/mime.go:267-283 | for every int64 limit: panics iff the limit is below -1 or the largest int64; else hands out the body in order, and reports TooLarge exactly when it has seen a byte past the limit, for ever after and with no data |
| `Streaming.RoomIsExact` | internal/api/http/mime.go:273-275 | over all int64 limits: no read slices out of range iff -1 <= limit < largest int64; the bound is the intended one iff the limit is below the largest int64 |
| `Limits.MaxRequestBytes` | internal/api/http/handlers.go:248-256 | the largest of the three kind limits plus the text limit plus 1048576, when that fits in an int64; in general the wrapped sum |
| `Limits.RequestLimitIsExact` | internal/api/http/handlers.go:255 | that ceiling is the intended sum iff the sum lies between the smallest and the largest int64 |
| `Limits.ReceiveFile` | internal/api/http/handlers.go:102-151 | ceiling, check, slot, cap and store on the bytes of a file that arrive. A stored document, image or video is the whole file and no larger than MAX_DOC_BYTES, MAX_IMAGE_BYTES or MAX_VIDEO_BYTES. A file below the ceiling is refused, shed, crashes its request, is stored, or is too large by one byte or more, exactly as its first 64 bytes, the slot and the limit of its own kind say. In general the request crashes iff it has a slot, enough of the file arrives to pass its check, and its limit cannot be worked with |
| `Limits.HeadArrivesIff` | internal/api/http/mime.go:185-194 | a file of 64 bytes or more passes iff its first 64 bytes come in below the ceiling and verify, whatever the length of file and form; a shorter one iff all of it and its delimiter do |
| `Limits.ConfigsThatCrash` | internal/config/config.go:145-191 | some file of a kind crashes its request iff the kind's limit is below -1 or the largest int64 and a head that passes fits below the ceiling |
| `Limits.NegativeLimitCrashes` | internal/api/http/mime.go:267-275 | the run: with a document limit of -2 beside ordinary limits every document whose head passes and arrives crashes its request |
| `Limits.LargestLimitShutsTheDoor` | internal/api/http/handlers.go:248-256 | with a kind limit of the largest int64, n bytes of a request come in below the ceiling iff the text limit is in one of two exact ranges |
| `Limits.UnlimitedKindCrashes` | internal/api/http/mime.go:267-275 | so which files of such a kind crash, for every text limit; with an ordinary one, none |
| `Streaming.ValidateFile` | internal/api/http/mime.go:174-211 | a type outside the table is refused with nothing read; else accepts iff the head passes its check and was not cut off by a reader failure, and the reader it returns replays the whole body, sniffed head included |
| `Streaming.Fill` | internal/storage/s3/store.go:318-331 | the buffer gets the next bytes of the body; EOF only at the genuine end of a body that fits, any other failure stays a failure |
| `Store.BufferPool.Get` | internal/storage/s3/store.go:306-312 | a buffer of part size that nobody else holds, with arbitrary old contents, one more checked out |
| `Store.ProduceRest` | internal/storage/s3/store.go:278-302 | when the loop reports success the queued parts are exactly the blocks of the body, numbered from 1; a read failure is passed on with its cause; every buffer is queued or back |
| `Store.ProduceParts` | internal/storage/s3/store.go:265-302 | the same with the first buffer already read, also when the context ends before the first send |
| `Store.PutAuto` | internal/storage/s3/store.go:143-157 | against a store that accepts everything: stored iff the body fits and the reader is sound (unless the context ends), and then byte for byte with its length; all buffers checked out are back, once; a panic of the reader takes exactly one with it |
| `Store.AttachFile` | internal/api/http/handlers.go:188-214 | sequentially over check, slot, cap and store: which of the seven outcomes occurs is determined by the body, the type's rule, the slot and the reader's fate; one byte over the limit stores nothing and is reported as too large |
| `Pipeline.ReadStep` | internal/api/http/mime.go:267-283 | every outcome of a read of the capped reader into a part buffer is a read step of the concurrent upload, with the same bytes in the buffer and the same decision after it |
| `Pipeline.OtherStepsKeepFills` | internal/storage/s3/store.go:206-233 | meanwhile no step of part workers, other uploads or a cancellation disturbs the reader or its buffer |
| `Pipeline.FillRun` | internal/storage/s3/store.go:318-331 | the loop of fill is a run of the upload that ends with the decision putAuto or produceParts takes on its result |
| `Pipeline.CheckedReaderIsTracked` | internal/api/http/mime.go:200-210 | a reader fresh from the check is where its upload starts |
| `Pipeline.FilesAreStoredWhole` | internal/api/http/handlers.go:188-214 | end to end over the concurrent upload, in every run and for every limit a reader can work with: only the file itself becomes visible, and only if it keeps to its limit and came to its end; one byte more or a hang-up leaves nothing; without faults every finished run stores a file that keeps to its limit |
| `Bags.SortGivesIota` | internal/storage/s3/store.go:243-247 | sorting a list that holds each of 1..k once gives 1..k |
| `UploadSafety.StepKeepsOwned` | internal/storage/s3/store.go:143-302 | every step of every goroutine keeps each buffer with exactly one holder: the pool, another upload, the caller, one queued part or one worker |
| `UploadSafety.StepKeepsNumbered` | internal/storage/s3/store.go:206-233 | every part number handed out is at every moment in exactly one place: queued, with a worker, recorded, or lost with a failure |
| `UploadSafety.StepKeepsControl` | internal/storage/s3/store.go:198-260 | the control state stays coherent: dead workers imply the failure flag, completion is asked for only without failures, a failed upload has been aborted |
| `UploadSafety.StepKeepsAccounted` | internal/storage/s3/store.go:265-302 | nothing is read twice or skipped: parts sent, bytes in hand and bytes to come make up the body |
| `UploadSafety.StepKeepsFaithful` | internal/storage/s3/store.go:206-225 | a queued or uploading part carries the bytes it was sent with, although its buffer comes from a shared, dirty pool |
| `UploadResults.EverythingRecorded` | internal/storage/s3/store.go:227-241 | when no failure was flagged and all workers are gone, the recorded numbers are 1..k once each |
| `UploadResults.UploadStoresTheBody` | internal/storage/s3/store.go:165-302 | in every run: success means that exactly the body is stored and its length reported; after a read, part or cancellation failure completion is never requested and the multipart upload is aborted; no other object is ever visible |
| `UploadResults.ManifestIsTheBlocks` | internal/storage/s3/store.go:243-259 | the manifest of every completion is 1..k in order, and part i holds the i-th block of the body |
| `UploadResults.UploadsLeftPending` | internal/storage/s3/store.go:173-196 | a multipart upload is still pending after the call iff its creation took effect although it reported an error, or its abortion failed and no completion took effect before |
| `UploadResults.BuffersAreBoundedAndReturned` | internal/storage/s3/store.go:199-233 | at most 1 + 2 * workers buffers are out, each with one holder, and on every way out all of them are back in the pool |
| `UploadResults.UploadsTolerateEachOther` | internal/storage/s3/store.go:306-312 | what one upload does to the shared memory is within what every other upload tolerates |
| `SharedPool.SharedUploadsAreSound` | internal/storage/s3/store.go:32-76 | any number of uploads interleaving on one pool, which may drop free buffers at any time: each stores its own body or nothing, keeps its buffer bound, and no buffer is ever with two of them |
| `SharedPool.StartsAreCoherent` | internal/storage/s3/store.go:64-77 | any number of uploads of one part size can start together over any memory |
| `SharedPool.EachUploadRuns` | internal/storage/s3/store.go:32-76 | every run of the shared system is, seen from each upload, a run of the single-upload protocol |
| `UploadProgress.RunIsNeverStuck` | internal/storage/s3/store.go:198-241 | every reachable state short of the end has an enabled step of the upload's own that needs no request to fail, also when all workers died with the channel full |
| `UploadProgress.StepIsLower` | internal/storage/s3/store.go:265-302 | each such step lowers a measure over unread bytes, empty reads, the caller's place and the workers' load; surroundings leave it alone |
| `UploadProgress.UploadsEnd` | internal/storage/s3/store.go:198-302 | there is no infinite run in which an upload keeps moving |
| `UploadProgress.FaultlessUploadsSucceed` | internal/storage/s3/store.go:165-302 | without faults and cancellation every run that ends stores a body that fits |
| `UploadProgress.FaultlessUploadsCanFinish` | internal/storage/s3/store.go:165-302 | wherever such a run has come, it can be brought to its end, and then the body is stored |
| `Capacity.UploadsFitInThePeak` | internal/api/http/handlers.go:199-244 | with one slot held per upload, the part buffers of all requests together never exceed part size * (1 + 2 * part workers) * slots; a request giving back its slot holds none |
| `Capacity.PeakIsReported` | internal/config/config.go:140-143 | the int64 figure equals part size * (1 + 2 * part workers) * slots iff that fits in an int64 |
| `PeakRun.UploadReachesItsBound` | internal/storage/s3/store.go:199-233 | every upload of a body of 1 + 2 * workers parts or more has a run in which that many buffers are out |
| `PeakRun.ThePeakIsReached` | internal/config/config.go:140-143 | for every configuration there is a run of the whole process that takes exactly the worst case |
| `JobTable.JobRepo.Create` | internal/storage/postgres/jobs.go:59-92 | inserts the pending row iff the id is not taken and the idempotency key is empty or not taken, and else changes nothing; keeps the table invariant |
| `JobTable.JobRepo.GetByIdempotencyKey` | internal/storage/postgres/jobs.go:97-111 | the one job with a nonempty key, or none iff there is none |
| `JobTable.JobRepo.ClaimBatch` | internal/storage/postgres/jobs.go:134-171 | distinct pending, due, unlocked rows become processing with this worker, this lease and one more attempt; a due unlocked row is left behind only when the limit is reached, and then no claimed row was created after it; nothing else changes; keeps the table invariant |
| `JobTable.SelectOldest` | internal/storage/postgres/jobs.go:145-152 | as many candidates as the limit allows, none created after one left behind |
| `JobTable.JobRepo.ExtendLease` | internal/storage/postgres/jobs.go:173-187 | sets the lease of a processing row, whoever owns it, and nothing else |
| `JobTable.JobRepo.Complete` | internal/storage/postgres/jobs.go:189-207 | writes summary, status and completion time of a processing row only, and clears error, lease and owner; keeps the table invariant |
| `JobTable.JobRepo.Retry` | internal/storage/postgres/jobs.go:212-238 | makes a processing row pending, due after its delay, iff attempts are left, and fails it otherwise, with the error, lease and owner columns that go with it; keeps the table invariant |
| `JobTable.JobRepo.Fail` | internal/storage/postgres/jobs.go:240-258 | fails a processing row only, with the given error and every column that goes with it; keeps the table invariant |
| `JobTable.JobRepo.ReapExpired` | internal/storage/postgres/jobs.go:263-278 | requeues exactly the processing rows whose lease has run out, and counts them; after it there is none |
| `JobTable.DelayInRange` | internal/config/config.go:187-189 | with base <= max, every delay lies between them iff the base is not negative |
| `JobTable.DelayGrows` | internal/storage/postgres/jobs.go:221-222 | more attempts never mean a shorter delay |
| `JobTable.DelayDoubles` | internal/storage/postgres/jobs.go:221-222 | the delay after the first attempt is the base, and each further attempt doubles it, up to the maximum |
| `JobRuns.ReachableTablesAreSound` | internal/storage/postgres/jobs.go:137-278 | in every reachable state lease, owner, completion time, next attempt, result and error agree with the status, keys are unique, and claims in progress hold disjoint sets of pending rows |
| `JobRuns.AttemptsAreAccounted` | internal/storage/postgres/jobs.go:137-278 | over every run: attempts = claims = reschedules + reaps + (1 if terminal) + (1 if processing), and a job ends at most once, stale workers included |
| `JobRuns.AttemptsAreBounded` | internal/storage/postgres/jobs.go:263-273 | a claimed or ended job has at most MAX_ATTEMPTS attempts iff no reaper requeued it with its attempts used up; otherwise it has exactly as many more as there were such reaps (a pending one is a claim behind) |
| `JobRuns.LifetimeSteps` | internal/storage/postgres/jobs.go:212-237 | so attempts are at most MAX_ATTEMPTS plus those reaps, and claim and exit steps at most twice that |
| `JobRuns.CrashLoopsAreUnbounded` | internal/storage/postgres/jobs.go:260-278 | for every lease and every n there is a run, along a clock that only goes forward, that claims and reaps one job n times, whatever MAX_ATTEMPTS is |
| `JobRuns.ClaimsNeverRepeat` | internal/storage/postgres/jobs.go:134-171 | no two claims of a run return the same pair of job and attempt |
| `JobRuns.ClaimReturnsTheOldestDue` | internal/storage/postgres/jobs.go:145-153 | a claim that commits takes exactly the rows its SELECT locked: pending, due, locked by no other claim, as many as the limit, or else all; none created after such a row left behind; each with its next attempt, this worker and this lease, whatever happened in between |
| `JobRuns.EndedForEver` | internal/storage/postgres/jobs.go:189-258 | a completed or failed row never changes again |
| `Fleet.LifetimeCalls` | internal/worker/worker.go:199-288 | over all worker processes together, a job costs at most max(1, maxRetries) calls to the processor for each attempt MAX_ATTEMPTS grants and each reap beyond them |
| `Fleet.GrantsAreClaimable` | internal/storage/postgres/jobs.go:134-171 | what the table grants a process is at most what it asked for, each job once, and no ticket it had before |
| `Fleet.TableAllows` | internal/worker/worker.go:159-172 | conversely every step the processes make is one the table's model allows: a ticket is processed only by the process it was issued to, at most once, within the client's bound on calls |
| `Fleet.OneRunPerTicket` | internal/worker/worker.go:159-172 | in every reachable state, a job a worker can take has not been processed for this attempt by any process |
| `Fleet.TicketsAreHandledOnce` | internal/worker/worker.go:81-172 | every claim ever granted went to exactly one process or astray; once that process has stopped, the job got one outcome call, or was released once, or dropped on cancellation, or lost with the error of its claim; and it was processed, with calls to the external processor, iff it got its outcome call |
| `Fleet.TheTableRuns` | internal/storage/postgres/jobs.go:137-278 | every run of the whole system is, seen from the table, a run of the job queue |
| `Fleet.EachPoolRuns` | internal/worker/worker.go:53-73 | and, seen from each process, a run of the worker pool |
| `JobRuns.NotClaimedEarly` | internal/storage/postgres/jobs.go:219-223 | no claim selects a job before the time its last reschedule set |
| `JobRuns.DelaysNeverShrink` | internal/storage/postgres/jobs.go:219-223 | the delay written does not shrink from one reschedule of a job to any later one |
| `JobRuns.DelaysDouble` | internal/storage/postgres/jobs.go:219-223 | over every run: of two reschedules of a job with one claim between them, the second writes twice the delay of the first, up to the maximum; after the first attempt the delay is the base |
| `JobRuns.Execute` | internal/storage/postgres/jobs.go:59-278 | every statement of the repository but a claim is the step of the same name |
| `JobRuns.ExecuteClaim` | internal/storage/postgres/jobs.go:134-171 | ClaimBatch is a SELECT step and its commit, and returns the jobs whose tickets the commit issues |
| `JobRuns.RowsKeepTheirSubmission` | internal/storage/postgres/jobs.go:137-278 | no statement deletes a row or changes its creation time, key, object key or size |
| `Leases.SafeIffCovered` | internal/worker/worker.go:290-307 | a running job is safe from the reaper in all runs iff pick-up delay + max(lease/2, 100ms) + write delay + clock skew <= lease |
| `Leases.CoveredIsSafe` | internal/worker/worker.go:215-223 | then no reaper can take the job from its claim until runJob returns, however long it runs |
| `Leases.UncoveredIsReaped` | internal/storage/postgres/jobs.go:263-273 | otherwise there is a run in which a running job is reaped |
| `WorkerPool.SendNeverBlocks` | internal/worker/worker.go:119-157 | in every reachable state queue and unsent batch fit the channel, so the poller's send is always possible |
| `WorkerPool.ClaimedJobsAreHandledOnce` | internal/worker/worker.go:81-172 | once Stop has returned the queue is empty and each claimed job got one outcome call or was released once, but for the unsent tail of at most one batch, and that only if cancelled, and the jobs of claims that took effect although they reported an error |
| `WorkerPool.OnlyTornClaimsLose` | internal/storage/postgres/jobs.go:153-169 | a process whose claims never take effect behind an error loses no job |
| `WorkerPool.NoJobInTwoPlaces` | internal/worker/worker.go:159-172 | no claimed job is with two workers, or with a worker and queued |
| `WorkerPool.StopIsNeverStuck` | internal/worker/worker.go:81-100 | after Stop some step other than a tick is possible until it has returned |
| `WorkerPool.StopEnds` | internal/worker/worker.go:81-172 | after Stop the number of steps is bounded by the work left plus two per tick |
| `WorkerLoop.Worker.SendAll` | internal/worker/worker.go:149-155 | the batch goes into the channel in order and without exceeding it; only a cancelled context leaves a rest |
| `WorkerLoop.Worker.PollRound` | internal/worker/worker.go:120-155 | one round changes only pending, due, unlocked rows, into rows this worker processes: as many as the free capacity and the batch size allow, or all, none created after one left behind; it returns their tickets, each once, unless the answer was lost, and goes on iff all of a nonempty batch was sent; nothing changes if it is ending, full or refused |
| `WorkerLoop.Worker.PollOnce` | internal/worker/worker.go:119-157 | jobs taken, still queued and dropped are, in this order, those queued before and those claimed; at most one batch is cut off; the rows changed are pending ones now processing, and all of them were claimed unless an answer was lost |
| `WorkerLoop.Worker.ReleaseQueued` | internal/worker/worker.go:87-100 | the channel ends empty; a released job that was processing is pending and due at once if attempts are left and failed otherwise; every other row is untouched |
| `WorkerLoop.Worker.RunJob` | internal/worker/worker.go:242-262 | no call without a presigned URL; else a summary iff the last reply is a decodable one below 400, a permanent error iff it is another 4xx than 429 or the request could not be built; every reply before it was none, 5xx, 429 or undecodable |
| `WorkerLoop.Worker.RecordFailure` | internal/worker/worker.go:267-288 | a processing row is failed iff the error is permanent or its attempts are used up, and else pending and due after its delay; all columns |
| `WorkerLoop.Worker.Process` | internal/worker/worker.go:199-240 | one outcome call, after the calls the client makes: the row is completed with the summary iff the last reply is a decodable one below 400; failed iff not so and the reply is permanent (4xx but 429) or attempts are used up; else pending and due after the backoff; a row no longer processing, and every other row, stays |
| `Processor.Process` | internal/processor/http.go:72-113 | between 1 and max(1, maxRetries) calls; a summary iff the last reply is a decodable one below 400, a permanent error iff it is a 4xx other than 429 or could not be sent; each reply before it was none, 5xx, 429 or undecodable; a transient error only after all calls; the waits are 200ms doubled each time plus the draw |
| `Processor.WaitInRange` | internal/processor/http.go:88-111 | the k-th wait lies in [200ms * 2^(k-1), 300ms * 2^(k-1)] |
| `Processor.WaitsNeverOverflow` | internal/processor/http.go:88-111 | all waits are in range, without int64 overflow, iff maxRetries <= 36 (the wait that overflows would come after 218 years of earlier ones) |
| `Processor.DrawsNeverPanic` | internal/processor/http.go:105 | drawing the jitter cannot panic iff maxRetries <= 37 (likewise) |
| `Processor.TotalWaitIsBounded` | internal/processor/http.go:88-112 | m waits take between 200ms and 300ms times (2^m - 1) |
| `Processor.ProcessWaitsAtMost` | internal/processor/http.go:88-112 | one call of Process waits at most 300ms * (2^(maxRetries-1) - 1) |
| `Memo.Server.Cached` | cmd/mockprocessor/main.go:218-223 | answers with a summary iff the history of calls recalls it |
| `Memo.Server.Remember` | cmd/mockprocessor/main.go:225-237 | map and queue stay exactly the last 10000 insertions of the history, without duplicates |
| `Memo.RememberedIdsDiffer` | cmd/mockprocessor/main.go:225-237 | the window on any history has distinct ids and at most 10000 of them |
| `Memo.FirstSummaryWins` | cmd/mockprocessor/main.go:225-237 | a summary is recalled iff some call introduced it while its id was unknown and it was recalled ever since |
| `Memo.RememberedForCapInsertions` | cmd/mockprocessor/main.go:231-234 | a new entry is recalled as long as fewer than 10000 insertions follow its own |
| `Memo.RecalledForCapInsertions` | cmd/mockprocessor/main.go:231-234 | and, unless the job is remembered anew, exactly as long |
| `Naming.SanitizedNamesArePlain` | internal/service/job.go:185-198 | whatever the file is called, the stored name is one plain path segment of at most 128 letters, digits, underscores, dots and dashes (or the clock's) |
| `Naming.HarmlessNamesStay` | internal/service/job.go:185-198 | a name of safe characters without outer dots is kept, and of a long one its last 128 characters |
| `Naming.UnsafeRunsCollapse` | internal/service/job.go:189 | a run of other characters inside a name becomes one underscore |
| `Naming.DirectoriesAreDropped` | internal/service/job.go:188 | whatever is before the last slash or backslash does not matter |
| `Naming.OuterDotsAreDropped` | internal/service/job.go:190 | nor do dots at either end |
| `Naming.ClockNamesDotsOnly` | internal/service/job.go:194-197 | the clock names a file iff its name has nothing but dots |
| `Naming.UnderOneJobOnly` | internal/service/job.go:86 | no object key lies under two job ids |
| `Submission.TouchedIsOwn` | internal/service/job.go:78-160 | a step writes or deletes only an object of its own draft, and never one of a committed job |
| `Submission.StepKeepsReqs` | internal/service/job.go:78-160 | every step of every request keeps drafts, rows and replies in agreement, and draft ids distinct |
| `Submission.StepKeepsRows` | internal/service/job.go:117-160 | and every row's object present with its size, unless its insert was torn and its object deleted |
| `Submission.StepKeepsAccounted` | internal/service/job.go:92-169 | every stored object is at every moment named by a row, owned by a request in progress, or leaked by a failed last deletion |
| `SubmissionResults.RowsNameTheirObjects` | internal/service/job.go:117-160 | in every reachable state a job's object is stored at its recorded size iff not both its insert was torn and its object deleted |
| `SubmissionResults.TornJobsKeepUndeletedObjects` | internal/service/job.go:117-160 | over every run: a job whose insert reported no error always has its object; one whose insert was torn has it iff no deletion by its request has succeeded |
| `SubmissionResults.StoresAgreeAtRest` | internal/service/job.go:78-169 | once all requests have ended, the stored objects are exactly those named by rows iff no last deletion failed and no torn insert lost its object |
| `SubmissionResults.LeaksAreLeftBehind` | internal/service/job.go:92-169 | over every run that comes to rest: an object leaked iff its draft got no row and it was stored and never deleted, or landed after its clean-up |
| `SubmissionResults.StoresAgreeUnlessLeftBehind` | internal/service/job.go:78-169 | so at rest the stores agree iff every object ever stored, whether its upload reported it or not, belongs to a job or was deleted for good, and no object of a torn insert was deleted |
| `SubmissionResults.OneJobPerKey` | migrations/003_idempotency.sql:9-10 | at most one job per nonempty idempotency key |
| `SubmissionResults.RepliesAgree` | internal/api/http/handlers.go:116-174 | all accepted requests with one nonempty key were told the same job, which has that key |
| `SubmissionResults.CommittedObjectsLast` | internal/service/job.go:128-160 | however a run goes on, the bytes stored for a job whose insert succeeded stay; the loser's two deletions included |
| `SubmissionResults.TornInsertLosesTheObject` | internal/service/job.go:145-160 | for any file name there is a run that ends with a live job whose object is gone |
| `SubmissionResults.QueueStepsAreAllowed` | internal/storage/postgres/jobs.go:137-278 | the steps of the job queue are steps of the submission protocol's surroundings |
| `SubmissionResults.InsertsAgree` | internal/storage/postgres/jobs.go:70-92 | the insert of the submission protocol is the insert of the job queue |
| `Service.Draft.AttachFile` | internal/service/job.go:78-108 | stores the file under jobs/, the id and the sanitized name iff it is the first and the store accepts it, and else leaves what the clean-up leaves; by steps of the protocol |
| `Service.Draft.Commit` | internal/service/job.go:117-151 | commits iff there is text or a file, the insert is heard, and id and nonempty key are not taken; the row it inserts, column by column; a duplicate key is answered with the job that has it; both stores afterwards |
| `Service.Draft.Discard` | internal/service/job.go:155-160 | deletes the object of an uncommitted draft only |
| `Service.ReadParts` | internal/api/http/handlers.go:129-163 | succeeds iff every text part is readable, every file accepted and stored, no part broken, and at most one file; the text then is the last text part, the file and its key the one file part |
| `Service.GoodForms` | internal/api/http/handlers.go:129-163 | a form is accepted iff each part is good and at most one is a file, counting one the draft has already |
| `Service.TextOf` | internal/api/http/handlers.go:144-151 | a draft has text iff the last text part of its form is not empty |
| `Service.FileOf` | internal/api/http/handlers.go:152-163 | and the object and the size are those of the one file part |
| `Service.FastPath` | internal/api/http/handlers.go:114-127 | answers before the body is read when the key is too long, or known and the lookup succeeds, and in no other case (accepted only after a lookup); touches neither store |
| `Service.CreateJob` | internal/api/http/handlers.go:102-174 | stated on the parts: a form whose parts are readable, accepted and stored, with one file at most, with a file or a nonempty last text, and with no key or one that no job has, becomes the pending job it describes, with its object, and is accepted when the insert is heard; nothing else reaches the table; a replay changes nothing; every request ends by steps of the protocol |
| `Service.RequestsKeepReachable` | internal/service/job.go:78-160 | so the results on both stores hold of the sequential code |

## Left out

- Streaming.ValidateFile: resolving the media type, and the check of magic bytes, are an arbitrary optional rule with an arbitrary predicate on the head.
- Store.PutAuto: one goroutine and a store that accepts every request; workers, order of completion and failures are in the upload protocol, to which `Pipeline` ties the reader.
- Store.ProduceRest: the channel here is unbounded and nobody receives from it; the bounded one is in the upload protocol.
- Store.ProduceParts: likewise.
- Store.AttachFile: likewise; the concurrent result is `Pipeline.FilesAreStoredWhole`.
- Store.BufferPool.Get: buffers are never handed to a second upload here; sharing is in `SharedPool`.
- UploadProgress.UploadsEnd: assumes that requests to the store return and that a reader makes progress after finitely many empty reads.
- WorkerPool.StopEnds: assumes that claims and processing runs return; the 10 second limit on the final drain is not modelled, since each release is attempted anyway.
- WorkerLoop.Worker.PollOnce: other goroutines act between rounds, not between single sends; every interleaving is in `WorkerPool`.
- WorkerLoop.Worker.Process: the heartbeat is in `Leases`; a panic in the jitter draw ends the process and records nothing.
- Leases.SafeIffCovered: extensions that are issued also succeed; a lost extension is a write delay beyond the assumed one.
- Service.Draft.AttachFile: a failed upload that lands after its clean-up is in `Submission` only.
- Service.CreateJob: runs without other requests between its steps; the interleavings are in `Submission`. Replies carry the job id only.
- JobTable.JobRepo.Create: text, file name, content type, trace context and `updated_at` are not columns of the model.
- JobTable.DelayInRange: delays are integers; floating point in POWER and make_interval is not modelled.
- Part numbers are unbounded; S3's limit of 10000 parts and the int32 counter are not modelled.
- `Put` with a known size: the handler never passes one.
- HTTP, JSON, authentication, metrics, logging, tracing, presigning, migrations, readiness checks and environment parsing.
- Form parsing: a request is a list of parts. Bytes just below the ceiling that could begin a boundary count as the file's, although the form reader holds them back.
- `Get`, `CountByStatus` and the job response: reads that change nothing.
