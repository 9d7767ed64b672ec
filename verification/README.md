# RainLogs: a verified model of the worker side

RainLogs pulls Cloudflare logs for many customers, archives them on one or more object
stores, links the archives of a zone into a hash chain, and deletes them when their
retention time is over or the account is erased. This project models that machinery as
state machines over small tables, a task queue and a list of stores, and proves what holds
over every run: any step of any actor may come next, and every external call may succeed,
fail, or take effect and lose its reply (`Base.Outcome`).

The code that changes state step by step is written as classes and methods (`Service`,
`ZoneScheduler`, `StreamSession`, `InstantLogsManager`, `MultiStore`, `FSStore`,
`IpLimiter`). Each method is proved against a specification function, or to be a run of the
state machine; the theorems about all interleavings are lemmas about the machine. A `Service`
object or a scheduler runs one task undisturbed; that the same task behaves under
interference is what the lemmas about `Pipeline.Runs` and `Scheduler.Runs` say.

| file | subject |
|---|---|
| `Base`, `Calendar` | shared types; UTC dates and how they are printed |
| `Worm`, `ChainVerifier` | the hash chain and the `rainlogs-verify` loop |
| `Blob`, `ObjectStore`, `FileStore` | archive objects, failover over providers, the filesystem backend |
| `Pipeline` | the state machine of job table, attempts, stores, retention worker and erasure handler |
| `Lifecycle`, `Tables`, `ChainForest`, `ChainPath`, `Uploads`, `Quota`, `Archive`, `Retention`, `Erasure` | what every run of `Pipeline` keeps |
| `Reach` | runs from an empty start that reach a fork, and an archive under every quota that admits one |
| `Overshoot`, `Forks` | runs that reach the ceiling of the usage, and runs that leave the chain's path in each possible way |
| `Leftovers` | copies that outlive a confirmed delete of the retention worker |
| `Sweeps` | what a retention or erasure sweep leaves behind, and when an erasure leaves nothing |
| `Requests`, `Interference` | an erasure request while anything else runs: what it leaves, and when it surely leaves nothing |
| `Processors` | the task processors and the erasure handler as imperative code |
| `Scheduler`, `ZoneScheduler` | the watermark protocol and one scheduler's loop |
| `InstantLogs`, `StreamManager` | streaming, batching, the stream map, mutex and WaitGroup |
| `RateLimit`, `Kms` | the evicting rate limiter and the key ring |

## Assumptions

- SHA-256 is any function to 64 characters (`Worm.Sha256`); every integrity statement hands over
  the collision or the preimage that a forgery would need. gzip and gunzip are any pair with
  `gunzip(gzip(x)) == x` (`Blob.Lawful`), AES-256-GCM any seal/open pair with the same law
  (`Kms.Lawful`).
- Go strings and byte slices are sequences of characters, one per byte. Instants are whole
  nanoseconds; the database and the processes run on UTC. Windows end before the year 10000.
- A pull window's zone belongs to its customer and job ids are fresh, as the handlers and the
  table constraints ensure; other inserts fail (`Pipeline.CreateStep`). Job rows are never removed.
- `Env.concurrency` is the number of tasks that all workers together run at a time;
  `Env.apiProviders` is the length of the API process's provider list, a prefix of the workers'.
- The token bucket is that of `golang.org/x/time` v0.14.0 (go.mod:20) in real arithmetic.
- Rows of one zone may tie on `created_at`; `GetLastJob` breaks ties by id, and the erasure listing,
  which orders by `created_at` alone, is taken to list later inserts first.

## Where the code and its documentation disagree

The model follows the code.

- The verify task hashes decompressed bytes and compares them with a column that holds the hash of
  the gzip bytes. It passes exactly when the two hashes agree, so no ordinary archive is ever stamped
  (`Archive.VerifyPassesExactlyWhen`, `Archive.StampMeansCollision`).
- docs/guide/api-reference.md:337 recomputes a chain hash from that column; the code folds in the hash
  of the raw bytes. The recipe works exactly when the two hashes agree or a collision is at hand
  (`Archive.DocumentedRecipeHoldsExactlyWhen`).
- README.md:248 promises that one call erases all objects of an account.
  - A request that nothing interrupts does so exactly when each object lies on a provider that the API was started
    with and a delete of it, for a listed row, takes effect there (`Processors.Service.DeleteCustomer`); with every
    call answered that means: each object lies on such a provider and is named by one of the customer's newest 9999
    rows (`Sweeps.AnsweredErasesAllExactlyWhen`).
  - Whatever runs between the listing and the end of the request, an object that is left although no delete failed on
    its provider is on a provider unknown to the API, was named by none of those rows at the listing, or was uploaded
    since (`Requests.RequestResidue`). A request with answered calls leaves nothing in every such run exactly when that
    condition holds at its listing and no pull of the customer can upload any more: no new task would pass the checks,
    because the record is deleted already, the quota admits nothing or no worker runs, and they stop each running one
    (`Interference.SurelyErasesAllExactlyWhen`, for runs without instant-log batches of the customer, which nothing
    erases). A repeated request meets it once no task that read the record is left (`Requests.QuietIsClosed`); a first
    request for a customer whose quota admits archives never does while a worker runs.
  - What stays, then: copies on other providers, copies whose delete failed, objects of older rows, objects that pulls
    upload between the listing and the deletion of the record or, past their checks, after it
    (`Interference.ArchivedMeanwhile`), instant-log archives, and uploads that no row names because the reply of the put
    or the update of the row was lost (`Processors.FailoverCopySurvivesErasure`, `Processors.OrphanSurvivesErasure`,
    `Erasure.OrphanIsPermanent`, `Retention.InstantArchivesAreKept`).
- README.md:18 promises that retention periods are strictly enforced. A delete counts as done when one provider
  confirms it, and the row is then expired; a copy on a provider whose own delete failed is listed by no later pass
  (`Leftovers.SpentCopyIsPermanent`, `Leftovers.RetentionLeavesCopy`).
- README.md:50 speaks of a continuous chain. Two workers are enough to fork it (`Reach.ForkHappens`)
  and an empty window restarts it; it is one path under the conditions of `ChainPath.OrderlyZoneIsOnePath`. Each of the
  four conditions is needed (`Forks.EachDemandIsNeeded`): tasks of one zone that overlap, two rows with one creation
  time, a lookup of the last job that is not answered, and the expiry of the newest done row each leave an archive that
  is not linked to the settled row before it.
- The quota column defaults to unlimited, but the API writes 0 for a new customer, which archives nothing
  until the quota is changed (`Quota.ApiCustomersArchiveNothing`); a quota admits archives exactly when it is -1
  or at least 1 (`Reach.ArchivesExactlyWhen`).
- The API accepts pull intervals of up to six days. Every window after the first can be pulled exactly when
  interval and gap between passes fit into an hour together, and some window can exactly when the interval is
  shorter than an hour (`ZoneScheduler.PullableExactlyWhen`).
- `stopAll` is meant to return once the streams end, but waits for goroutines that need the mutex it holds
  (`StreamManager.StopAllReturnsExactlyWhen`); a run that hangs is `StreamManager.ShutdownHangs`.
- A cancelled instant-log session can leave its producer goroutine and connection behind for good
  (`InstantLogs.ProducerEndsExactlyWhen`, `InstantLogs.LeakHappens`).
- rainlogs-verify reports an intact chain without asking whether all rows were read; when rows are missing, the
  report is right whatever they hold only for tables of one row (`ChainVerifier.VerdictRightExactlyWhen`).

## Model

| member | source | states |
|---|---|---|
| Worm.MessageDecodes | pkg/worm/worm.go:14-22 | the unframed text prev, object hash, job id decodes in one way only |
| Worm.TamperEvident | pkg/worm/worm.go:11-22 | two histories of any lengths with one head hash are equal record for record, or a SHA-256 collision or a preimage of Genesis is computed from them |
| ChainVerifier.Verify | cmd/rainlogs-verify/main.go:47-108 | the loop reports the first row whose stored previous hash is not the hash of the row before it, and reports intact, with count, last id and final hash, exactly when there is none |
| ChainVerifier.VerdictRightExactlyWhen | cmd/rainlogs-verify/main.go:58-99 | the loop does not look at rows.Err(): with n rows missing its verdict is right for every completion of the table exactly when it found a break, n is 0, or the table has one row |
| ChainVerifier.SameFinalHash | cmd/rainlogs-verify/main.go:79-91 | intact histories with one final hash agree on all rows that both have, counted from the newest, or exhibit a collision |
| ChainVerifier.FrontTruncationUnseen | cmd/rainlogs-verify/main.go:55-77 | dropping the oldest rows of an intact history keeps it intact with the same final hash |
| Calendar.StampInjective | internal/storage/common.go:53-54 | a printed time stamp determines its instant to the second |
| Calendar.MonthStartMonotone | internal/db/repositories.go:358 | the start of the current month never moves back as the days go on, and is never in the future |
| Calendar.MonthStartIsFirst | internal/db/repositories.go:358 | it is the first day of the current month |
| Calendar.InMonthExactlyWhen | internal/db/repositories.go:358 | an earlier day has the same year and month exactly when that month had begun by then |
| Calendar.GregorianYears | internal/storage/common.go:48-54 | days before a year in closed form, with the exceptions for centuries; four centuries are 146097 days |
| Calendar.MonthLengths | internal/storage/common.go:48-54 | the lengths of the twelve months, with the leap rule written out |
| Calendar.UnixEpoch | internal/storage/common.go:48-54 | day 719528 is 1 January 1970 |
| Calendar.DateOfDayNumber | internal/storage/common.go:48-54 | every valid date is the date of exactly one day |
| Calendar.DayPathReads | internal/storage/common.go:48-52 | the digits of a day path read as the year, month and day of the instant |
| Calendar.StampReads | internal/storage/common.go:53-54 | the digits of a stamp read as the date, hour, minute and second of the instant, each at its place |
| Blob.CountLines | internal/storage/common.go:77-85 | the counter loop counts the newlines among the bytes |
| Blob.KeyInjective | internal/storage/common.go:43-56 | two object keys are equal exactly when log type, customer, zone, both window ends to the second and hash prefix are, for any log type text |
| Blob.PreparedObject | internal/storage/common.go:23-60 | hash and size are those of the compressed bytes; the key shows the log type, the owner, the day, both window ends in order and the first eight digits of the hash at fixed places |
| ObjectStore.MultiStore.PutLogs | internal/storage/s3.go:142-155 | providers are tried in order up to the first success; a provider holds the object exactly if it was tried and its call took effect; it succeeds exactly when one does and reports that one's label |
| ObjectStore.MultiStore.GetLogs | internal/storage/s3.go:157-171 | returns the bytes of the first provider that can deliver the object, and an error when none can |
| ObjectStore.MultiStore.DeleteObject | internal/storage/s3.go:173-189 | every provider is tried; an error is reported exactly when there are providers and all failed |
| ObjectStore.Backend.PutLogs | internal/storage/s3.go:81-102 | the prepared blob is stored under its key unless the call fails; only a confirmed call returns its metadata |
| ObjectStore.Backend.GetLogs | internal/storage/s3.go:104-116 | succeeds exactly when the call works, the object exists and is gzip, and returns its bytes |
| ObjectStore.Backend.DeleteObject | internal/storage/s3.go:118-128 | the key is gone unless the call failed, also when its reply was lost |
| ObjectStore.GetFirstSource | internal/storage/s3.go:159-171 | a download comes from the first readable provider, and fails only when none is readable |
| ObjectStore.PutThenGet | internal/storage/s3.go:144-171 | a confirmed put is readable from the provider that confirmed it, and no other key changes on any provider |
| ObjectStore.PutIdempotent | internal/storage/s3.go:81-84 | repeating a put under any faults adds at most the one key to a provider and changes nothing where it was stored |
| ObjectStore.DeleteResidue | internal/storage/s3.go:173-189 | after a delete the key is left exactly where it was and the provider's own delete failed; the call succeeds exactly when there are no providers or one confirmed |
| FileStore.TempIsNotKey | internal/storage/fs.go:64-70 | no temporary file name is an object key |
| FileStore.FSStore.Install | internal/storage/fs.go:57-89 | a put that fails or dies between any two system calls leaves the target as it was or complete; it succeeds exactly when every call worked |
| FileStore.FSStore.PutLogs | internal/storage/fs.go:40-90 | the same for the object key, and success is reported only for the complete object |
| FileStore.FSStore.GetLogs | internal/storage/fs.go:92-109 | returns the decompressed file, and an error exactly when it is missing, cannot be opened or read, or is not gzip |
| FileStore.FSStore.DeleteObject | internal/storage/fs.go:111-120 | deleting is idempotent: it succeeds exactly when the key is absent afterwards |
| Pipeline.LastDoneIsNewest | internal/db/repositories.go:416-430 | no done row of the zone is newer, by creation time and then id, than the one GetLastJob returns |
| Pipeline.IdLessAt | internal/db/repositories.go:416-419 | ids that tie on the creation time are ordered by the first character in which they differ |
| Pipeline.DueRowsAre | internal/db/repositories.go:322-331 | the retention listing holds exactly the customer's done rows whose period ended before the cutoff |
| Pipeline.NewestKeyedAre | internal/db/repositories.go:315-320 | the erasure listing holds only the customer's rows that name an object |
| Lifecycle.StepKeeps | internal/worker/worker.go:59-217 | every step of every actor keeps the shape of all rows, attempts and work lists, and moves a row only along its life cycle |
| Lifecycle.RunKeeps | internal/db/repositories.go:276-297 | over every run status only moves pending to done or failed and done to expired, and settled contents never change |
| Lifecycle.Frame | internal/worker/worker.go:170-217 | a step writes at most one row, and a row is written by another actor only once it is settled |
| Lifecycle.ReachableRow | internal/worker/worker.go:144-217 | a key comes with both hashes and only on done or expired rows, a failed row was attempted once and names no object, a stamp comes with a key |
| Tables.InsertedExactlyWhen | internal/worker/worker.go:59-70 | a job is inserted, blank, exactly when a worker is free, its id is new and its zone belongs to its customer |
| Tables.ConstraintsHold | internal/db/repositories.go:276-297 | over every run ids are unique, jobs belong to zones of their customer, and no more tasks run than there are workers |
| Lifecycle.AbandonedStaysPending | internal/worker/worker.go:120-140 | an attempt that stops on a rate limit, a cancel or a crash leaves its row pending for ever |
| ChainForest.ForestKept | internal/worker/worker.go:151-180 | under every interleaving each link goes to Genesis or to a row of the zone that became done strictly earlier |
| ChainForest.ReachableLink | internal/worker/security.go:148-180 | each archived row hashes Genesis, or the stored hash of an earlier done row of its zone, followed by its own object hash and id; an empty window's hash is empty |
| ChainForest.ChainIsHead | internal/worker/worker.go:156-162 | following the links ends, and a stored chain hash is the head hash of the records met on the way |
| ChainForest.StoredHashPinsHistory | internal/worker/worker.go:156-175 | any other history that yields a stored chain hash hands over a collision or a preimage of Genesis |
| ChainPath.OverlapForks | internal/worker/worker.go:156-180 | two admitted attempts of one zone can always both finish on the same parent |
| Reach.ForkHappens | internal/worker/security.go:148-180 | from an empty start and with two workers, two windows of one zone end as archives that both continue Genesis |
| ChainPath.LastIsPrev | internal/db/repositories.go:416-419 | with growing creation times, and the newest settled row still done, the newest done row is the last settled one |
| ChainPath.PathKept | internal/worker/worker.go:151-180 | runs in which the zone's attempts do not overlap, lookups are answered and the newest done row does not expire link every row to the settled row before it |
| ChainPath.OrderlyZoneIsOnePath | internal/worker/worker.go:144-180 | under these conditions the links behind a row visit every archived window back to the last empty one, in order, expired ones included |
| Forks.OrderlyIsAllGranted | internal/worker/worker.go:144-180 | a run meets these conditions exactly when it meets each of the four alone |
| Forks.EachDemandIsNeeded | internal/db/repositories.go:416-430 | for each of the four a run from an empty start that breaks only this one and ends with an archive not linked to the settled row before it |
| Quota.OvershootBound | internal/worker/worker.go:82-95 | usage never exceeds quota - 1 + concurrency * size, over every run of both processors, expiry and month change |
| Overshoot.CeilingReached | internal/worker/worker.go:82-95 | archives that sum to quota - 1, then one of the largest size from every worker: a run from an empty start whose usage is exactly quota - 1 + concurrency * size |
| Quota.LoadRun | internal/worker/security.go:83-96 | usage plus size for every attempt past the check stays under that ceiling from any state that meets it |
| Quota.CreatedThisMonth | internal/db/repositories.go:350-362 | a job is counted exactly when its creation date has the year and month of now |
| Quota.QuotaIsMonthly | internal/worker/worker.go:82-95 | in every reachable state the check lets a task through exactly when the quota is -1 or the bytes of the customer's done jobs of the current month are less |
| Quota.ApiCustomersArchiveNothing | internal/api/handlers/handlers.go:101-110 | no pull of a customer registered with the zero quota archives or uploads an object, over every run |
| Reach.ArchivesExactlyWhen | internal/worker/worker.go:82-95 | some run archives for a customer exactly when its quota is -1 or at least 1 |
| Uploads.PullsStep | internal/storage/common.go:43-56 | by its key, a step adds an upload of the customer's pulls exactly when an attempt for the customer uploads |
| Archive.DownloadIsUpload | internal/storage/s3.go:144-171 | for every run and fault pattern a download returns only bytes that were uploaded under the key |
| Archive.ArchivedRowReads | internal/worker/worker.go:164-180 | over every run the hash, size and key of a row are those of the object that it archived |
| Archive.InstantKeyReads | internal/worker/instant_logs.go:227 | an instant-log batch is stored under a key of its own kind that shows its window |
| Archive.DownloadRecomputesLink | internal/worker/worker.go:151-175 | without an 8-digit clash in one window a download is what the job archived, and hashing it with the parent's hash gives the job's chain hash |
| Archive.DocumentedRecipeHoldsExactlyWhen | internal/worker/worker.go:151-175 | recomputing a link from the sha256 column works exactly when raw and gzip bytes hash alike or a collision is exhibited |
| Archive.VerifyPassesExactlyWhen | internal/worker/worker.go:244-264 | the verify task passes on an honest archive exactly when it can be read and raw and gzip bytes hash alike |
| Archive.StampMeansCollision | internal/worker/worker.go:253-271 | over every run a verification stamp means that the bytes equal or collide with their own gzip form |
| Retention.SharedKey | internal/storage/common.go:43-56 | rows that share a key agree on customer, zone, kind and window to the second |
| Retention.DeletesOnlyPastRetention | internal/worker/worker.go:299-305 | the retention worker deletes a key only for a settled row of its customer past retention; all rows with the key end in the same second; no other key changes |
| Retention.MarkMeansConfirmedDelete | internal/worker/worker.go:299-309 | over every run, before a pass marks a row expired it deleted the object in a call that a provider confirmed; copies left lie where that very delete failed, unless an upload wrote the object again since |
| Leftovers.SpentCopyIsPermanent | internal/db/repositories.go:322-331 | once every row naming an object is expired, no run of retention passes deletes a copy left of it, unless it is uploaded again or an erasure reaches it |
| Leftovers.RetentionLeavesCopy | internal/storage/s3.go:173-189 | a run from an empty start to a row past retention, expired by a confirmed delete, with such a copy on the second provider |
| Retention.SkippedRowListedAgain | internal/db/repositories.go:322-331 | a row that stays done past retention is listed again by every later pass |
| Retention.LossNeedsRow | internal/worker/worker.go:299-311 | an object disappears from a store only if a done or expired row names it |
| Retention.InstantArchivesAreKept | internal/worker/instant_logs.go:227 | instant-log archives have no job row, so neither retention nor erasure ever deletes one |
| Erasure.AddedArchivesBound | internal/worker/worker.go:72-80 | once the customer record is deleted, later archives number at most the tasks already past loading it |
| Erasure.AddedUploadsBound | internal/worker/worker.go:72-80 | later uploads, named by a row or not, number at most the tasks that had loaded the record and not uploaded |
| Erasure.LateAttemptNeverArchives | internal/worker/worker.go:72-76 | a task that has not loaded the customer by then never archives |
| Erasure.ListedExactly | internal/api/handlers/handlers.go:161-166 | the handler's list holds a keyed row exactly when fewer than the limit of the customer's rows are newer |
| Erasure.ListedRowsEndExpired | internal/api/handlers/handlers.go:158-173 | with working database calls every listed row ends expired, whatever runs meanwhile |
| Erasure.EraseLeaves | internal/api/handlers/handlers.go:166-170 | one delete leaves exactly the copies on providers unknown to the API or whose delete failed, and the row is expired all the same |
| Erasure.EraseCustomerExactly | internal/api/handlers/handlers.go:176-189 | the end of a request deletes exactly the customer's record and its zones |
| Erasure.ForeignCopyIsPermanent | cmd/api/main.go:62-75 | a copy on a provider that the API does not know is out of reach of every later pass and erasure |
| Erasure.OrphanIsPermanent | internal/worker/worker.go:164-180 | an upload of an erased customer that no row names stays on every provider for good |
| Sweeps.AnsweredErasesAllExactlyWhen | internal/api/handlers/handlers.go:160-173 | a request that nothing interrupts, with every call answered, leaves no object of the customer exactly when each object lies on a known provider and one of the newest 9999 rows names it |
| Requests.RequestResidue | internal/api/handlers/handlers.go:158-173 | whatever runs from the listing on: an object left where no delete of the request failed is on an unknown provider, was named by none of the newest 9999 rows at the listing, or was uploaded since |
| Requests.ClosedForGood | internal/worker/worker.go:72-95 | once no check lets a pull of the customer through any more, none uploads in any continuation |
| Requests.ClosedRequestErases | internal/api/handlers/handlers.go:158-192 | then a request with answered calls whose listing reaches every object leaves nothing, in every run through its end and after |
| Interference.SurelyErasesAllExactlyWhen | internal/api/handlers/handlers.go:158-192 | a request with answered calls leaves nothing in every run exactly when at its listing each object is on a known provider and named by one of the newest 9999 rows, and no pull of the customer can upload any more |
| Interference.ArchivedMeanwhile | internal/api/handlers/handlers.go:161-186 | a run from an empty start, one known provider, one worker and no failed call: a pull that uploads between the listing and the deletion of the record leaves its archive and a done row |
| Sweeps.ExpiredMeansConfirmed | internal/worker/worker.go:299-309 | a job that a sweep expired had its object deleted by a provider that confirmed it; copies stay exactly where every delete of the key failed |
| Processors.Service.ProcessTask | internal/worker/worker.go:53-198 | one pull task is a run of the protocol; for which replies its row ends done, failed or pending, the stores change, and the task reports success, each as an if-and-only-if |
| Processors.Service.CreateJob | internal/worker/worker.go:59-70 | a new pending row with empty columns; no other row changes |
| Processors.Service.FailJob | internal/worker/worker.go:200-217 | counts one attempt and marks the job failed; the write may be lost |
| Processors.Service.PassChecks | internal/worker/worker.go:72-95 | passes exactly when customer and zone load undeleted and the quota is -1 or the usage call works and the month's usage is under it |
| Processors.Service.LinkLogs | internal/worker/worker.go:151-162 | the chain hash of the raw hash on the newest done job of the zone, or on Genesis when the lookup fails |
| Processors.Service.UploadLogs | internal/worker/worker.go:164-168 | stores exactly what the failover put stores, and refuses exactly when no provider confirmed |
| Processors.Service.ArchiveLogs | internal/worker/security.go:148-182 | link, upload and last write of a job, for both processors |
| Processors.Service.FinishNothing | internal/worker/worker.go:144-149 | an empty window is done with no key and an empty chain hash |
| Processors.BlankRowUnseen | internal/worker/worker.go:59-70 | the task's own pending row changes neither the quota check nor the link |
| Processors.Service.VerifyTask | internal/worker/worker.go:233-272 | succeeds exactly when the object is read and its bytes hash to the column; only then is the row stamped |
| Processors.Service.ExpireOne | internal/worker/worker.go:299-309 | one listed job: object first, then the row, and the row only if the object is dealt with |
| Processors.Service.ExpireTask | internal/worker/worker.go:288-312 | exactly the listed jobs that were handled and written are expired, and an object stays exactly where every delete of its key failed |
| Processors.Service.EraseOne | internal/api/handlers/handlers.go:166-170 | one listed job of an erasure: the row is marked whatever the delete reported |
| Processors.Service.DeleteCustomer | internal/api/handlers/handlers.go:143-192 | listed jobs whose update was written are expired, an object stays exactly where the API does not know the provider or every delete failed, zones and customer are soft-deleted, 204 exactly when the customer was, and nothing is left exactly when each object lies on a known provider where a delete for a listed row takes effect; the request runs undisturbed |
| Processors.Service.DropZones | internal/db/repositories.go:240-248 | exactly the customer's zones are soft-deleted, and no other zone changes |
| Processors.FailoverCopySurvivesErasure | cmd/worker/main.go:58-101 | a run from an empty start after which the account is erased and its failed-over archive is still stored |
| Processors.OrphanSurvivesErasure | internal/worker/worker.go:164-180 | the same with one provider that the API knows: an upload whose reply or row update was lost is still stored |
| Scheduler.ChainCovers | internal/worker/worker.go:358-363 | a chain of half-open windows leaves no instant out between its start and its end |
| Scheduler.WatermarkCovered | internal/worker/worker.go:351-435 | every watermark ever held ends a contiguous chain of enqueued windows back to a first one, through any interleaving, crash, lost write, conflict or manual pull |
| Scheduler.EnqueueWithoutWriteStalls | internal/worker/worker.go:421-433 | a lost reply of the enqueue, a failed watermark write or a crash between them stalls the zone |
| Scheduler.LostWriteStalls | internal/worker/worker.go:421-433 | while it is stalled and its task queued, no scheduler enqueues for the zone |
| Scheduler.VisitingIs | internal/worker/worker.go:358-434 | a visit of any scheduler leaves a Business zone alone, and otherwise enqueues the window from the watermark, or one interval back, to now exactly when its task id is free and the call takes effect |
| Scheduler.WritingIs | internal/db/repositories.go:216-219 | the watermark owed is written to that zone alone |
| Scheduler.TriggerIs | internal/api/handlers/handlers.go:390-435 | a manual pull asks for the same window of any zone that is not deleted, and touches no watermark and no queued id |
| Scheduler.ZoneEdits | internal/api/handlers/handlers.go:225-388 | intervals from 300 to 518400 seconds are accepted, a new zone is active and never pulled, and an edit keeps the watermark |
| Scheduler.SilentZone | internal/db/repositories.go:205-214 | while a zone is on the Business plan, paused or deleted, no run of any schedulers enqueues a window for it or moves its watermark |
| ZoneScheduler.ZoneScheduler.EnqueueTask | internal/worker/worker.go:421-429 | a queued id is a conflict and changes nothing; a failed enqueue changes nothing |
| ZoneScheduler.ZoneScheduler.UpdateLastPulled | internal/db/repositories.go:216-219 | writes the watermark of an existing zone unless the write fails |
| ZoneScheduler.ZoneScheduler.ScheduleZone | internal/worker/worker.go:358-434 | one zone of the loop: nothing for a Business zone or a queued id; otherwise the window from the watermark, or one interval back, to now is enqueued under its task id, and only a confirmed enqueue moves the watermark |
| ZoneScheduler.ZoneScheduler.Schedule | internal/worker/worker.go:351-435 | the loop visits the due zones in order and computes the pass whose effect on each zone PassOnListedZone and PassOnOtherZone state |
| ZoneScheduler.PassOnListedZone | internal/worker/worker.go:358-434 | what a pass does to each listed zone: nothing to a Business zone, a queued id or a failed enqueue, and otherwise exactly one window up to now and then the watermark |
| ZoneScheduler.PassOnOtherZone | internal/db/repositories.go:205-214 | a pass does nothing to a zone that is paused, deleted or not due |
| ZoneScheduler.PassIsRun | internal/worker/worker.go:351-435 | a pass is a run of the protocol, so coverage applies to it |
| ZoneScheduler.OwnVisit | internal/worker/worker.go:381-433 | a lone scheduler never meets a task id conflict and always advances the watermark to its own clock |
| ZoneScheduler.ForeignRun | internal/api/handlers/handlers.go:390-435 | other zones' edits, manual pulls and tasks leaving the queue do not disturb a zone's schedule |
| ZoneScheduler.WindowLengths | internal/worker/worker.go:358-434 | with passes at most gap apart, and any such changes between them, every window after the first continues the last one and is longer than the interval by at most gap |
| ZoneScheduler.PullableWindows | internal/cloudflare/client.go:56-62 | in any such run, a window is accepted exactly when it is a minute old and fits the hour, and which windows do |
| ZoneScheduler.DelayedWindow | internal/worker/worker.go:330-349 | passes that tick on time can delay a window by any part of the gap |
| ZoneScheduler.PullableExactlyWhen | internal/cloudflare/client.go:56-59 | every window after the first fits the hour in every run exactly when interval plus gap does; some window in some run does exactly when the interval is shorter than an hour |
| InstantLogs.FramingDecodes | internal/worker/instant_logs.go:214-218 | splitting an upload at newlines gives the messages back exactly when none contains a newline |
| InstantLogs.StreamSession.Upload | internal/worker/instant_logs.go:207-239 | one framed batch from the last upload to now; the buffer is emptied whether or not the store took it |
| InstantLogs.StreamSession.Loop | internal/worker/instant_logs.go:244-261 | the select loop computes the session after any sequence of wakeups and how it ends |
| InstantLogs.WakeIs | internal/worker/instant_logs.go:244-261 | a tick, a cancel and the end of the channel hand over the whole buffer, as the 2000th message does; only the cancel and the end of the channel end the session |
| InstantLogs.WakesExactlyWhen | internal/worker/instant_logs.go:244-261 | what can wake a running session: a tick always, and it empties the buffer; a message in the channel; a cancel; the end of an empty channel |
| InstantLogs.StepKeeps | internal/cloudflare/instant_logs.go:75-96 | every step of producer, channel and session keeps the conservation invariant |
| InstantLogs.StreamConserves | internal/worker/instant_logs.go:204-261 | messages read are, in order, those of batches, buffer, channel and producer; batches hold 1 to 2000 and tile the time; a remote close leaves nothing, a cancelled session at most 101 |
| InstantLogs.LeakIsForever | internal/cloudflare/instant_logs.go:81-95 | a producer in front of a full channel nobody reads stays there |
| InstantLogs.ProducerEndsExactlyWhen | internal/cloudflare/instant_logs.go:81-95 | after a cancel the producer can still end exactly when it is not in that position |
| InstantLogs.LeakHappens | internal/worker/instant_logs.go:244-261 | every session can be cancelled into that position |
| StreamManager.StepKeeps | internal/worker/instant_logs.go:65-133 | every lock, unlock, Add, Done, cancel and map step keeps the manager's invariant |
| StreamManager.StreamsAreTracked | internal/worker/instant_logs.go:95-132 | the WaitGroup counts unfinished goroutines, each map entry has its own uncancelled one, no zone has two |
| StreamManager.StreamEndsExactlyWhen | internal/worker/instant_logs.go:117-131 | a stream can end, and its goroutine finish once the mutex is free, exactly when its own or the parent context is cancelled |
| StreamManager.SyncIsExact | internal/worker/instant_logs.go:82-132 | a completed sync leaves exactly the active Business zones in the map |
| StreamManager.StopAllReturnsExactlyWhen | internal/worker/instant_logs.go:65-73 | from taking the mutex stopAll can return exactly when every goroutine had left its last locked section |
| StreamManager.ShutdownHangs | internal/worker/instant_logs.go:65-133 | a run from the start with one connected stream whose shutdown never returns |
| StreamManager.UnlockedWaitTerminates | internal/worker/instant_logs.go:117-131 | a wait without the mutex takes boundedly many steps and is never stuck |
| StreamManager.UnlockFirstReturns | internal/worker/instant_logs.go:65-73 | so a stopAll that unlocked first would always return |
| StreamManager.InstantLogsManager.RemoveStale | internal/worker/instant_logs.go:95-102 | the first loop cancels exactly the streams of other zones |
| StreamManager.InstantLogsManager.StartMissing | internal/worker/instant_logs.go:104-132 | the second loop starts the missing streams and keeps the others |
| StreamManager.InstantLogsManager.SyncStreams | internal/worker/instant_logs.go:75-133 | a sync is a run of the protocol that ends with the Business zones and leaves their running streams alone |
| StreamManager.InstantLogsManager.Wait | internal/worker/instant_logs.go:72 | goroutines past their last locked section finish during the wait, and no others move |
| StreamManager.InstantLogsManager.StopAll | internal/worker/instant_logs.go:65-73 | every stream is cancelled and the map empty; it returns exactly when every goroutine had left its last locked section, and otherwise waits for ever holding the mutex |
| RateLimit.TokenBucket.Take | internal/api/middleware/ratelimit.go:84 | admits exactly when the tokens left plus the rate times the time since, at most the burst, make a whole token, and changes nothing when it refuses |
| RateLimit.IpLimiter.Get | internal/api/middleware/ratelimit.go:62-73 | the client's bucket, new and full for an unknown client, and its last-seen time; other clients keep theirs |
| RateLimit.IpLimiter.Request | internal/api/middleware/ratelimit.go:80-92 | get and Allow together compute the admission of the specification |
| RateLimit.IpLimiter.Evict | internal/api/middleware/ratelimit.go:51-60 | exactly the clients not seen for the time to live are forgotten |
| RateLimit.TracesAlike | internal/api/middleware/ratelimit.go:51-73 | the evicting limiter answers every sequence of requests and evictions as the one that never forgets, if the time to live fills a bucket |
| RateLimit.EvictionUnseenExactlyWhen | internal/api/middleware/ratelimit.go:14-73 | and only if: otherwise a client that comes back is admitted more often |
| RateLimit.BucketPays | internal/api/middleware/ratelimit.go:78-90 | without eviction a client's admissions are covered by its tokens and the rate times the span |
| RateLimit.SpanBoundedExactlyWhen | internal/api/middleware/ratelimit.go:51-90 | across evictions a client is admitted at most burst plus rate times the span, in every span, exactly when the time to live fills a bucket |
| RateLimit.RefillExactly | internal/api/middleware/ratelimit.go:62-84 | a new client gets its whole burst at once; after that n requests at a later instant are all admitted exactly when n is at most the burst and the rate times the time between |
| RateLimit.AddressLimitBounded | cmd/api/main.go:117 | the limiter per address admits at most 120 plus 60 times the span |
| RateLimit.CustomerLimitBounded | internal/api/routes/routes.go:23 | the limiter per customer at most 60 plus 30 times the span |
| Kms.HexRoundTrip | internal/kms/kms.go:82 | decoding encoded bytes gives them back |
| Kms.NewKeyRing | internal/kms/kms.go:42-64 | a ring is built exactly when all keys are 32 bytes of hex text and the active id is configured, and holds exactly those keys; a fault is that of some key |
| Kms.TagIs | internal/kms/kms.go:98-113 | the tag of a text is the part before its first colon |
| Kms.Decrypt | internal/kms/kms.go:89-141 | the scan loop answers a plaintext exactly when the key before the first colon, or v1, is in the ring, the rest is hex of at least 12 bytes and the cipher opens it to that plaintext |
| Kms.DecryptsExactlyWhen | internal/kms/kms.go:89-141 | the same of the specification, and which fault is reported when; a text that does not authenticate is refused |
| Kms.EncryptedText | internal/kms/kms.go:66-87 | the stored text is the active id, a colon and hex of the nonce and of what the active key seals under it |
| Kms.UnhexExactlyWhen | internal/kms/kms.go:120-124 | text is read as bytes exactly when it consists of pairs of hex digits of either case |
| Kms.UnhexByte | internal/kms/kms.go:120-124 | each pair is one byte, the high digit first |
| Kms.NewIs | internal/kms/kms.go:24-40 | a single-key ring is built exactly from 32 bytes of hex text, under the id v1 |
| Kms.RoundTripExactlyWhen | internal/kms/kms.go:66-141 | text encrypted under a ring decrypts under every later ring that holds the key, exactly when its id has no colon |
| Kms.LegacySelectsV1 | internal/kms/kms.go:109-118 | untagged hex text is never read as tagged and is opened with v1, as if tagged v1 |
| Kms.SingleKeyRoundTrip | internal/kms/kms.go:24-40 | what the single-key encryptor wrote, tagged or legacy, decrypts while its key is v1, and is refused without v1 |

## Left out

- Cloudflare's HTTP, GraphQL and WebSocket calls, S3 SDK calls, SQL text, Redis and asynq internals, Slack alerts: each is a step or a reply that succeeds or fails.
- Echo routing, JSON binding, role checks, JWT, API keys and their revocation, audit events, configuration, logging, the dashboard: plumbing around the modelled operations.
- The row-scanning loops of the repositories: a query is a function of the table (`LastDone`, `Usage`, `DueRows`, `NewestKeyed`, `IsDueList`).
- The daily loop that enqueues one expiry task for each customer that is not deleted: in the model a retention pass may start at any time, for any customer.
- Bulk export, VerifyObject (nothing calls it), the reconnect backoff of a zone stream and its alerts: they would only add easy members.
- The columns err_msg, log_count, s3_provider and updated_at, and the values of retried errors; a fetch that the log API forbids is recognised by its kind, not by its text.
- Processors.Service.ProcessTask: stores are a list of maps here and the providers' own objects in `ObjectStore`; the enqueueing of the verify task, whose failure is only logged, is not modelled.
- Processors.Service.DeleteCustomer: the method runs undisturbed; what pulls do between its calls is the subject of `Requests.RequestResidue` and `Interference.SurelyErasesAllExactlyWhen`.
- Sweeps.AnsweredErasesAllExactlyWhen: speaks of a request that nothing interrupts, as above.
- Interference.SurelyErasesAllExactlyWhen: instant-log batches of the customer during the request are excluded; a stored one stays in any case.
- Processors.Service.DropZones: the one UPDATE statement is a loop over the zones, so that each zone is a step of the protocol.
- Processors.Service.ExpireTask: the retention time is read with the listing, while the task carries the value read when it was enqueued; nothing in the model changes it in between.
- RateLimit.IpLimiter.Request: get and Allow read the clock once and are not interrupted by an eviction; the rounding of tokens and durations is not modelled.
- ObjectStore.Backend: an S3 bucket or directory is a map; a lost reply of one put or delete is an outcome, a partial S3 object is not.
- FileStore.FSStore.PutLogs: directories are not part of the map, and the cleaning of joined paths is not modelled.
