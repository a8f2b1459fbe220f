# A verified model of FletViewer's task, cache and layout logic

FletViewer browses image galleries, buys and downloads gallery archives, caches images and lays
galleries out in columns. This project models the parts of it whose guarantees hold over whole runs,
and proves them:

- **Paid archives** (`ArchiveProtocol`, `ArchiveSafety`, `ArchiveTheorems`, `ArchiveStranded`,
  `ArchiveCancel`, `ArchiveRevisions`, `ArchiveEffects`, `ArchiveService`). Every critical section of the
  service between two suspension points is a step of a state machine over the task table, the durable
  records, cancellation tokens, the download permit, all drivers with their program counters and a ledger of
  paid submissions. Crashes, failed writes, calls whose caller goes away half-way, and any number of reopens
  are steps too. `ArchiveEffects` says what each step brings about, apart from how the state machine does it.
  `ArchiveService` is the object whose methods do exactly these steps.
- **Resumable downloads** (`ResumableDownload`): one attempt over a part file, and any sequence of
  attempts against an honest server.
- **The download manager** (`ManagerProtocol`, `ManagerSafety`, `ManagerTheorems`, `ManagerEffects`,
  `DownloadManager`): the task life cycle under the manager's lock, with table rows, snapshot files, workers,
  late callbacks and restarts.
- **Gallery commits** (`GalleryCommit`, `LocalGalleries`, `LocalGalleryManager`): staging, rename, index,
  unlink, with a stop or a failure at any point, interleaved handlers and library scans. How the file system
  tells names apart is a parameter, so that one which ignores case is covered.
- **Shared image loads** (`ImageLoads`, `ImageTaskService`), the **cache maintenance window**
  (`CacheMaintenance`, `CacheGate`), the **image cache** (`ImageCache`) and the **sprite URLs** (`SpriteUrl`).
- **The masonry layout** (`Masonry`, `MasonryGallery`): greedy list scheduling, and the chains of nested tail
  hosts that append to it without touching what is mounted.
- **The image result pump** (`ResultPump`, `ImageResultPump`), the **storage merge** (`FileTree`,
  `StorageMigration`), the **paged feed** (`PagedFeed`, `PagedFeedState`) and the **reader's scroll window**
  (`ViewerState`).

Where the original changes objects in place, a class has the same fields and its methods are proved against
the functions the theorems are about, and `Valid` says that its state is one the theorems hold of. What the outside decides (network answers, failing writes, clocks, the
order in which threads run or directories are listed) is a parameter or a nondeterministic step.

## What the proofs found

The model keeps the code as it is. Where a promise does not hold, a lemma gives the run, and another says
exactly when it does hold:

- Reopening keeps `Ready` records (`archive.rs:192`), and nothing else ever moves such a task: an archive that
  was paid for is never downloaded and every `retry` is refused (`ArchiveStranded.StrandedForever`). FVCORE.md
  line 417 promises resumption. A crash is one way there; a `retry` whose caller goes away after its write is
  another (`ArchiveStranded.DroppedRetryIsStranded`), and the calls are awaited by their request handlers
  (`control.rs:1034`, `runtime.rs:541-545`). Recovery offers a retry for all other unfinished records
  (`ArchiveStranded.RecoveryOffersRetryUnlessReady`).
- A `start` whose caller goes away in time shows `Submitting` with nobody at work; that is the only way
  (`ArchiveTheorems.ShownActivityIsReal`), and such a task is never paid for.
- After a retry, the clean-up of the previous attempt may remove the new attempt's cancellation token, and a
  `cancel` before the new token is registered is answered with success and cancels the attempt that is over.
  `cancel` works over every run that does not retry before the clean-up, and a retry is safe exactly when no
  clean-up is outstanding (`ArchiveCancel.RetryIsCancellableExactlyWhenClean`).
- FVCORE.md line 105 says every state change produces a higher revision. While the service runs that holds; a
  reopen shows the durable record under its old revision, a lower one exactly after failed writes
  (`ArchiveRevisions.ReopeningReusesRevisions`).
- A download body that ends early without an error completes the task, with the resource exactly when the body
  was full (`ResumableDownload.TruncationCompletes`, `CompletionIsExact`); a cancellation seen after the last
  chunk makes every later retry fail with 416 (`LateCancelIsFinal`, `UndisturbedRetry`); the byte count of a
  completed task is right exactly for status 200 and 206 or an empty start (`CountIsRightExactly`).
- A worker's callback that runs late can delete a task under its successor, whose next save writes the row
  again (`ManagerTheorems.LateCallbackRevivesARow`); a start is safe exactly when no earlier callback is
  outstanding (`StartIsSafeExactlyWhenPrompt`). A deleted task comes back at the next start of the program
  exactly when its directory could not be removed (`RestartRevives`, `ADeletedTaskCanReturn`).
- An archive whose file name is, to the file system, `gallery.json` or that of a cover is overwritten in the
  staging directory and then removed as a download: no copy remains. Downloads are kept exactly for other names
  (`LocalGalleries.DownloadsAreKeptExactlyWhenSafe`). A task without gallery id or token is committed again by
  every replay, and only such a task (`LocalGalleries.CommitsAreUniqueExactlyWhenIdentified`).
- Two result-pump workers can be at work at the same time, against the class comment that speaks of a single
  worker; it takes a result that arrives while a worker is leaving, and nothing else does it
  (`ResultPump.SecondWorkerExactlyWhenLeaving`). Nothing is lost or doubled by it.

## Model

| member | source | states |
|---|---|---|
| `ArchiveTheorems.PaidAtMostOnce` | fvcore/src/archive.rs:143-282 | over every run with crashes, failed writes and reopens the paid submission of a task runs at most once |
| `ArchiveTheorems.PaymentIsAnnounced` | fvcore/src/archive.rs:239-280 | whenever the paid call can start, a durable `Submitting` record exists and nothing was paid before |
| `ArchiveTheorems.PossibleChargeIsNeverHidden` | fvcore/src/archive.rs:460-521 | once paid, record and table entry are `Submitting`, `CostUnknown`, or carry both URL and timestamp |
| `ArchiveTheorems.LedgerOfTheTable` | fvcore/src/archive.rs:172-199 | settled and ready tasks carry URL and timestamp; `retry_supported` holds exactly where `retry` accepts within the validity time |
| `ArchiveTheorems.NoPanic` | fvcore/src/archive.rs:337-343 | the missing-timestamp error and the `expect` on the signed URL (550) are unreachable |
| `ArchiveTheorems.SingleWriter` | fvcore/src/archive.rs:523-592 | one unsettled driver per task, one streaming driver in the whole service |
| `ArchiveTheorems.ProgressTouchesOnlyDownloads` | fvcore/src/archive.rs:638-651 | saved progress always finds its task `Downloading`, leaves it so and leaves other tasks alone |
| `ArchiveTheorems.ShownActivityIsReal` | fvcore/src/archive.rs:213-282 | a downloading task has a driver, a settled one none; a submitting one has a driver exactly unless its `start` was dropped, and then nothing was paid |
| `ArchiveTheorems.CrashNeverReplaysPayment` | fvcore/src/archive.rs:172-179 | whatever follows a crash, tasks that existed then are never paid for again |
| `ArchiveTheorems.RetryNeverPays` | fvcore/src/archive.rs:318-366 | once a task left its submission no run pays for it again |
| `ArchiveTheorems.DurableUrlIsNeverLost` | fvcore/src/archive.rs:479-489 | a saved signed URL stays saved through every run |
| `ArchiveTheorems.CostUnknownForever` | fvcore/src/archive.rs:504-518 | a task shown as `CostUnknown` is never shown as anything else later |
| `ArchiveTheorems.RevisionsGrow` | fvcore/src/archive.rs:681-690 | while the service runs no table record changes without a higher revision |
| `ArchiveTheorems.RecoveryKeepsTheRevision` | fvcore/src/archive.rs:172-199 | reopening keeps the revision, and changes the state exactly of the interrupted states |
| `ArchiveTheorems.DroppedStartShowsSubmitting` | fvcore/src/archive.rs:268-280 | a reachable state that shows `Submitting` with no driver at all |
| `ArchiveTheorems.DroppedCallNeverPays` | fvcore/src/archive.rs:268-280 | whatever follows, a task whose `start` or `retry` was dropped is not paid for again |
| `ArchiveTheorems.StaleCleanupBlocksCancel` | fvcore/src/archive.rs:635 | a reachable state where a retried, unfinished task cannot be cancelled |
| `ArchiveCancel.CancelReachesItsDriver` | fvcore/src/archive.rs:305-316 | over every run that never retries the task while a clean-up is outstanding, each driver at work has the task's token and `cancel` cancels it |
| `ArchiveCancel.StaleRetryEscapesCancel` | fvcore/src/archive.rs:635 | from every reachable state with an outstanding clean-up a retry can end with a waiting driver that `cancel` does not reach |
| `ArchiveCancel.EarlyCancelIsLost` | fvcore/src/archive.rs:354-364 | from every such state a `cancel` before the new token fires the old one and the new driver runs on |
| `ArchiveCancel.RetryIsCancellableExactlyWhenClean` | fvcore/src/archive.rs:318-366 | a retry keeps `cancel` working over all clean continuations if and only if no clean-up is outstanding |
| `ArchiveRevisions.DiskNeverAhead` | fvcore/src/archive.rs:681-712 | in every reachable state the durable revision is at most the one shown |
| `ArchiveRevisions.ReopeningReusesRevisions` | fvcore/src/archive.rs:162-200 | from every running state a crash and reopen show the recovered record under its durable revision: never higher, lower exactly after failed writes |
| `ArchiveRevisions.OneRevisionTwoStates` | fvcore/src/archive.rs:172-199 | two reachable states, one after the other, with the same revision and different states of a task |
| `ArchiveSafety.StepKeepsInv` | fvcore/src/archive.rs:143-690 | every step of calls, drivers, crashes and reopening keeps the invariant of ledger, owners, permit, revisions, dropped calls and phase |
| `ArchiveStranded.StrandedForever` | fvcore/src/archive.rs:192 | a durable `Ready` record without a driver keeps its state and URL through every run, gets no driver and no retry |
| `ArchiveStranded.CrashStrandsAReadyTask` | fvcore/src/archive.rs:488-502 | a crash between buying and downloading reaches such a state, with the task paid for once |
| `ArchiveStranded.DroppedRetryIsStranded` | fvcore/src/archive.rs:353-365 | dropping any `retry` after its write strands the task over every continuation |
| `ArchiveStranded.DroppedRetryHappens` | fvcore/src/archive.rs:353-365 | such a retry is reachable |
| `ArchiveStranded.RecoveryOffersRetryUnlessReady` | fvcore/src/archive.rs:194-197 | of unfinished records with a URL, recovery offers a retry exactly for those not `Ready` |
| `ArchiveService.ProgressIsTheLastTick` | fvcore/src/archive.rs:577-590 | the progress loop leaves the last tick's count and spends a revision exactly when a tick moved |
| `ArchiveService.StreamedTouchesOneRecord` | fvcore/src/archive.rs:577-590 | polling a stream changes its task's record and durable copy, exactly to the last tick and the last saved one, and nothing else |
| `ArchiveService.ArchiveService.DropCall` | fvcore/src/archive.rs:268-281 | a caller that goes away takes its half-done call with it |
| `ArchiveService.ArchiveService.Open` | fvcore/src/archive.rs:143-211 | succeeds exactly when every readable record can be rewritten, in whatever order they are listed; the table is then their recovery |
| `ArchiveService.ArchiveService.LoadEntries` | fvcore/src/archive.rs:157-201 | the loop is a run of the protocol whether or not it is cut short by a record that cannot be written |
| `ArchiveService.ArchiveService.OpenEntry` | fvcore/src/archive.rs:162-200 | one record's recovery is the protocol's step, unreadable ones are skipped |
| `ArchiveService.ArchiveService.Start` | fvcore/src/archive.rs:232-268 | the durable record comes first; a failed write leaves nothing |
| `ArchiveService.ArchiveService.FinishSubmission` | fvcore/src/archive.rs:473-520 | the three outcomes: ready, unsaved URL, refusal |
| `ArchiveService.ArchiveService.SelectSlot` | fvcore/src/archive.rs:524-534 | a cancelled driver never takes the permit |
| `ArchiveService.ArchiveService.BeginStream` | fvcore/src/archive.rs:535-555 | the task shows `Downloading`; its URL, which every reachable state has, is returned |
| `ArchiveService.ArchiveService.StreamBytes` | fvcore/src/archive.rs:577-590 | the select loop is a run of the protocol that ends exactly in its recursive specification |
| `ArchiveService.ArchiveService.SaveProgress` | fvcore/src/archive.rs:638-651 | does the protocol's progress step |
| `ArchiveService.ArchiveService.Settle` | fvcore/src/archive.rs:592-634 | completed, failed rename, broken or cancelled stream, as the protocol says |
| `ArchiveService.ArchiveService.FinishCancelled` | fvcore/src/archive.rs:653-664 | does the protocol's cancellation step |
| `ArchiveService.ArchiveService.Cancel` | fvcore/src/archive.rs:305-316 | which error for which state, and whose token fires |
| `ArchiveService.ArchiveService.Retry` | fvcore/src/archive.rs:318-366 | refusals in order, and the failed write that leaves `Ready` without a driver |
| `ArchiveService.ArchiveService.MarkConsumed` | fvcore/src/archive.rs:401-430 | only completed tasks are consumed; all results |
| `ArchiveService.ArchiveService.MarkLocalGalleryDeleted` | fvcore/src/archive.rs:432-458 | idempotent release of a deleted gallery; all results |
| `ArchiveEffects.SignedAndSavedIsReady` | fvcore/src/archive.rs:473-502 | a signed answer that is saved makes the task `Ready` with URL, time and file name, in table and record, and its driver waits for the permit |
| `ArchiveEffects.OtherwiseTheCostIsUnknown` | fvcore/src/archive.rs:489-519 | an answer that cannot be saved, or a refusal, makes it `CostUnknown` and ends the driver; which of it reaches the disk |
| `ArchiveEffects.CancelledWaiterNeverDownloads` | fvcore/src/archive.rs:524-534 | in every reachable state a waiting driver with a cancelled token cannot take the permit and leaves its task `Cancelled` |
| `ArchiveEffects.WaiterDownloads` | fvcore/src/archive.rs:535-555 | any other takes a free permit and its task shows `Downloading` |
| `ArchiveEffects.ProgressIsShown` | fvcore/src/archive.rs:638-651 | saved progress is the count it is given, a total of 0 is none |
| `ArchiveEffects.StreamsEndAsTheySay` | fvcore/src/archive.rs:592-634 | a received stream completes the task with the path of its file exactly if it could be renamed and fails it otherwise, a broken one cancels or fails it; counts, error and retry flag of each |
| `ArchiveEffects.CompletedMeansDelivered` | fvcore/src/archive.rs:592-617 | over every run a task is shown or recorded as completed or consumed only after a stream of its own was received and renamed |
| `ArchiveEffects.ShutdownCancelsEverybody` | fvcore/src/archive.rs:368-369 | after it every token, new ones included, is cancelled and nobody takes the permit |
| `ArchiveEffects.AcceptedRetryWaits` | fvcore/src/archive.rs:318-366 | in every reachable state a retry of a task that offers it is accepted exactly within 24 hours of buying, and leads to a driver that waits |
| `ArchiveEffects.RefusedRetries` | fvcore/src/archive.rs:325-352 | in every reachable state each refusal is given exactly for its own reason |
| `ArchiveEffects.ConsumptionIsRecorded` | fvcore/src/archive.rs:401-430 | the path or the error it is given, and the state that goes with it |
| `ArchiveEffects.DeletedGalleryIsForgotten` | fvcore/src/archive.rs:432-458 | the path goes, the task stays consumed |
| `ArchiveEffects.InterruptionsAreNamed` | fvcore/src/archive.rs:172-197 | which state and error a stop in each state leaves, and when a retry is offered; nothing else changes |
| `ArchiveEffects.StopLeavesTheRecords` | fvcore/src/archive.rs:143-162 | a process stop leaves the records and nothing else |
| `ArchiveEffects.OpeningListsEverything` | fvcore/src/archive.rs:157-165 | opening looks at every record before the service is up |
| `ResumableDownload.AttemptKeepsPrefix` | core/download/manager.py:304-388 | against an honest server any attempt leaves the part file a prefix of the resource |
| `ResumableDownload.PartIsAlwaysAPrefix` | core/download/manager.py:304-388 | so does any sequence of failures, cancellations, crashes and retries |
| `ResumableDownload.CompletionIsExact` | core/download/manager.py:356-388 | a completed file is the resource exactly when the body was the whole rest; `bytes_done` is its length, retries of completed tasks included |
| `ResumableDownload.TruncationCompletes` | core/download/manager.py:356-388 | every body that stops short without an error completes the task with less than the resource |
| `ResumableDownload.CountIsRightExactly` | core/download/manager.py:326-338 | for every completed attempt the count is the file's length if and only if the status was 200 or 206 or nothing was there before |
| `ResumableDownload.FinalIsTheResource` | core/download/manager.py:304-388 | over any tries without silent truncation a completed task holds exactly the resource |
| `ResumableDownload.UndisturbedRetry` | core/download/manager.py:312-338 | with a range server, in any chunks, an undisturbed retry completes exactly when something is missing |
| `ResumableDownload.LateCancelIsFinal` | core/download/manager.py:376-380 | from any incomplete part file, a cancellation after the last chunk makes the next retry fail although all bytes are there |
| `ResumableDownload.UnexpectedStatusMiscounts` | core/download/manager.py:329-345 | over a started file every other success status completes with the wrong `bytes_done` |
| `ResumableDownload.Task.ReceiveBody` | core/download/manager.py:356-367 | the chunk loop: offset, file and counters after exactly the chunks read |
| `ResumableDownload.Task.Run` | core/download/manager.py:304-388 | one attempt equals its specification, all ends included |
| `ResumableDownload.CancelBeforeTheRequest` | core/download/manager.py:324-325 | a cancellation before the request leaves both files alone |
| `ResumableDownload.CancelBetweenChunks` | core/download/manager.py:356-363 | a cancellation seen before a chunk leaves exactly the chunks before it in the part file, however the body would have gone on |
| `ResumableDownload.FailedRequestTouchesNothing` | core/download/manager.py:327-338 | a request that fails or is answered with an error leaves both files alone and fails the task |
| `ResumableDownload.BrokenBodyKeepsWhatCame` | core/download/manager.py:356-400 | a dropped connection keeps everything that came; a process that dies all but an unflushed tail |
| `ResumableDownload.FinishedBodyCompletes` | core/download/manager.py:376-388 | a body read to its end becomes the final file, after what was kept of an earlier part exactly for status 206 |
| `ResumableDownload.RepliesStartWhereTheySay` | core/download/manager.py:329-338 | what the part file holds when the reply starts |
| `ResumableDownload.ProgressCountsThePartFile` | core/download/manager.py:361-364 | while bytes arrive the count is the length of the part file for status 200 and 206 |
| `ManagerTheorems.OneWorkerPerTask` | core/download/manager.py:172-190 | no task ever has two unfinished workers |
| `ManagerTheorems.RunningMeansWorked` | core/download/manager.py:317-322 | a running task has an active worker |
| `ManagerTheorems.CancelNeverLeaks` | core/download/manager.py:192-200 | a worker is only stopped by a cancellation requested after it was submitted |
| `ManagerTheorems.StampsCountFutures` | core/download/manager.py:192-222 | only cancel and delete requests set the stamp, to the number of workers submitted so far |
| `ManagerTheorems.DurableEqualsMemory` | core/download/manager.py:434-466 | with prompt callbacks rows, snapshots and memory agree at every lock release |
| `ManagerTheorems.StartIsSafeExactlyWhenPrompt` | core/download/manager.py:172-190 | from any state where rows and memory agree, a start keeps them together over all prompt continuations if and only if no earlier worker's callback is outstanding |
| `ManagerTheorems.DeletedOnceTheWorkerStops` | core/download/manager.py:412-423 | the callback of the worker removes a task deleted meanwhile from map, table, futures and cancel set |
| `ManagerTheorems.DeletionStaysPending` | core/download/manager.py:208-222 | until then nothing drops the pending deletion |
| `ManagerTheorems.GoneForever` | core/download/manager.py:208-222 | a task gone with its directory never comes back in any run |
| `ManagerTheorems.RestartRevives` | core/download/manager.py:253-302 | a restart brings a deleted task back exactly when its snapshot is still there |
| `ManagerTheorems.ADeletedTaskCanReturn` | core/download/manager.py:208-222 | a reachable state with a deleted task whose snapshot is left, and its return |
| `ManagerTheorems.LateCallbackRevivesARow` | core/download/manager.py:412-423 | a reachable run in which a deleted task's row is written again and reloaded |
| `ManagerEffects.CreatedTaskIsQueued` | core/download/manager.py:148-170 | a new task is queued in memory, table and snapshot |
| `ManagerEffects.IdleTasksCanStart` | core/download/manager.py:177-180 | in every state of the invariant a known task can be started if and only if its worker, if any, has returned |
| `ManagerEffects.StartedTaskHasAWorker` | core/download/manager.py:181-190 | a start queues the task, submits a worker for it and forgets an earlier cancellation |
| `ManagerEffects.CancelIsRecorded` | core/download/manager.py:192-200 | the request stands whatever the status; a queued task is cancelled at once |
| `ManagerEffects.CancelStopsTheWorker` | core/download/manager.py:192-200 | over every run after a cancellation throughout which the worker has not returned and the task is known, retries and deletions included, the next look of the worker ends it with the task `cancelled` |
| `ManagerEffects.RequestStands` | core/download/manager.py:402-410 | over every such run the request stands as long as the worker has not returned |
| `ManagerEffects.UndisturbedTaskCompletes` | core/download/manager.py:304-388 | left alone, a started task runs, completes and has its worker forgotten |
| `ManagerEffects.CancelledTaskCanStartAgain` | core/download/manager.py:172-200 | cancelled while it runs, it can be started again and the earlier request does not stop the new worker |
| `ManagerEffects.DeletedWhileRunningIsGone` | core/download/manager.py:208-222 | deleted while it runs, it is gone from memory, table and disk once its worker stopped and its directory is removed |
| `ManagerEffects.IdleTaskIsDeleted` | core/download/manager.py:208-222 | an idle task goes at once, its snapshot with its directory |
| `ManagerEffects.WorkerFails` | core/download/manager.py:391-400 | an exception at any point of the work shows the task as failed and ends the worker |
| `ManagerEffects.DroppedWorkerNeverRuns` | core/download/manager.py:140-146 | a worker the pool drops leaves its task as it is |
| `ManagerEffects.CallbackForgetsTheWorker` | core/download/manager.py:412-423 | the callback forgets its worker, and the task exactly if its deletion is pending |
| `ManagerEffects.ConsumptionIsShown` | core/download/manager.py:239-251 | consumed everywhere, or the old status with an error |
| `ManagerEffects.RestartRepairs` | core/download/manager.py:253-302 | every row and every snapshot without a row is a task again; what was running has failed, all else is as it was |
| `ManagerSafety.StepKeepsInv` | core/download/manager.py:148-423 | every lock section keeps the worker and cancellation invariant |
| `ManagerSafety.StepKeepsTidy` | core/download/manager.py:148-466 | every lock section with prompt callbacks keeps the durable copies in step |
| `DownloadManager.DownloadManager.StartTask` | core/download/manager.py:172-190 | submits exactly for a startable task, as the protocol's step |
| `DownloadManager.DownloadManager.CancelTask` | core/download/manager.py:192-200 | request and immediate cancellation of a queued task |
| `DownloadManager.DownloadManager.RetryTask` | core/download/manager.py:202-206 | restarts exactly failed, cancelled and completed startable tasks |
| `DownloadManager.DownloadManager.DeleteTask` | core/download/manager.py:208-222 | removes at once exactly when no worker is unfinished, else defers |
| `DownloadManager.DownloadManager.ForgetFuture` | core/download/manager.py:412-423 | the callback does the protocol's step, deferred deletion included |
| `DownloadManager.DownloadManager.CancelIfRequested` | core/download/manager.py:402-410 | stops exactly when asked |
| `DownloadManager.DownloadManager.LoadRows` | core/download/manager.py:253-275 | for any order of rows: memory is the repaired table, repaired rows are saved |
| `DownloadManager.DownloadManager.RecoverSnapshots` | core/download/manager.py:276-302 | for any order of snapshots: exactly those without a row become tasks |
| `DownloadManager.DownloadManager.Restart` | core/download/manager.py:253-302 | both loops together are the protocol's restart |
| `GalleryCommit.StepKeepsInv` | core/download/local_gallery.py:66-143 | every step of interleaved handlers, failures, stops and scans keeps the invariant |
| `GalleryCommit.DownloadIsNeverLost` | core/download/local_gallery.py:93-105 | at every point of every run the task's download, or a directory holding a download of that task, exists |
| `GalleryCommit.AtMostOneCommit` | core/download/local_gallery.py:262-268 | replays never yield two directories for an identified task |
| `GalleryCommit.ViewedMeansComplete` | core/download/local_gallery.py:187-205 | a directory in view with metadata is its owner's, and if the owner's name is safe it has the archive the metadata names |
| `GalleryCommit.ConsumedMeansCommitted` | core/download/local_gallery.py:80-105 | over every run a task is recorded as consumed only once a directory of its own is in view |
| `GalleryCommit.FailureCleansUp` | core/download/local_gallery.py:100-111 | a failure removes the staging directory it was filling, leaves download, directories and records alone, and the handler can begin again |
| `GalleryCommit.SetAsideKeepsFiles` | core/download/local_gallery.py:130-142 | broken metadata is set aside under another name, every other file stays |
| `LocalGalleries.DownloadsAreKeptExactlyWhenSafe` | core/download/local_gallery.py:91-104 | no run loses a task's downloads if and only if the file system tells its archive's name apart from `gallery.json` and every cover name |
| `LocalGalleries.UnsafeNameLosesTheArchive` | core/download/local_gallery.py:91-104 | with such a name a run ends with no copy anywhere |
| `LocalGalleries.CommitsAreUniqueExactlyWhenIdentified` | core/download/local_gallery.py:254-268 | replays give one directory if and only if gallery id and token (and file name) are non-empty |
| `LocalGalleries.UnidentifiedCommitsTwice` | core/download/local_gallery.py:194-195 | otherwise a stop and a replay give two |
| `LocalGalleries.OnlyDownloadIsKept` | core/download/local_gallery.py:93-105 | a task downloaded once keeps that very archive, as a download or in a directory |
| `LocalGalleries.LaterDownloadIsDropped` | core/download/local_gallery.py:80-85 | a later download of a committed task is removed without a copy |
| `LocalGalleries.CommitRun` | core/download/local_gallery.py:86-99 | the undisturbed handler brings exactly one finished directory into view |
| `LocalGalleryManager.LocalGalleryManager.FindCommitted` | core/download/local_gallery.py:262-268 | finds an earlier commit exactly when there is one, in any listing order |
| `LocalGalleryManager.LocalGalleryManager.UniquePath` | core/download/local_gallery.py:270-279 | the first free name of 999, or none when all are taken |
| `LocalGalleryManager.LocalGalleryManager.HandleDownloadCompleted` | core/download/local_gallery.py:66-111 | is a run of the protocol for every point of failure; comes to a directory exactly when the download is there and a commit exists or can be made; says what it leaves of download, directories and record |
| `ImageLoads.OneLiveFetchPerUrl` | core/image/fetcher.py:120-137 | no URL ever has two uncancelled unfinished fetches |
| `ImageLoads.CancelledExactlyWhenAbandoned` | core/image/fetcher.py:163-171 | apart from maintenance an unfinished fetch is cancelled exactly when its last subscriber has left |
| `ImageLoads.LiveFetchIsWanted` | core/api/images.py:84-143 | every subscriber of a live fetch is the handle of a task that still wants it |
| `ImageLoads.OthersNeverCancelMyFetch` | core/image/fetcher.py:163-171 | a waiting task's fetch is cancelled by nobody but maintenance |
| `ImageLoads.OneLiveHandlePerTask` | core/api/images.py:105-117 | all live subscriptions made for a task are its present handle |
| `ImageLoads.HandlesAreDistinct` | core/api/images.py:84-117 | no two tasks share a handle |
| `ImageLoads.OldCompletionKeepsTheNewFetch` | core/image/fetcher.py:173-176 | a late completion callback removes no newer fetch |
| `ImageLoads.TableEmptiesOut` | core/image/fetcher.py:173-176 | when every callback has run no entry is left |
| `ImageLoads.StartSharesWhatIsLive` | core/image/fetcher.py:125-134 | a start submits a new fetch exactly when no live one of the URL exists |
| `ImageLoads.StartedTaskWants` | core/api/images.py:84-95 | a started task is subscribed to a live fetch of its URL, all other tasks are as before |
| `ImageLoads.RetriedTaskWantsAgain` | core/api/images.py:111-117 | a retried task is not cancelled, keeps its URL, is subscribed to a live fetch of it under a new handle, and has left its old one; other tasks are as before |
| `ImageLoads.CancelThenRetryFetchesAnew` | core/api/images.py:105-117 | cancelling and retrying a task that was alone with its fetch leaves that one cancelled and starts another |
| `ImageLoads.CancelLetsGo` | core/api/images.py:105-109 | a cancelled task wants nothing; its fetch is cancelled exactly if it was alone with it |
| `ImageLoads.RemoveLetsGo` | core/api/images.py:139-143 | so with a removed one, and the task is gone |
| `ImageLoads.LeavingDecides` | core/image/fetcher.py:163-171 | the last to leave cancels, anybody else leaves the fetch running |
| `ImageLoads.ReportedFetchIsReplaced` | core/image/fetcher.py:173-176 | whoever asks after a reported fetch gets a new one |
| `ImageLoads.MaintenanceEndsFetches` | core/image/fetcher.py:305-308 | maintenance cancels every fetch it hits and no other |
| `ImageLoads.StepKeepsInv` | core/image/fetcher.py:120-176 | every command, completion and maintenance step keeps the invariant |
| `ImageTaskService.ImageTaskService.Subscribe` | core/image/fetcher.py:120-137 | joins or starts as specified, with a fresh handle |
| `ImageTaskService.ImageTaskService.Unsubscribe` | core/image/fetcher.py:163-171 | leaves exactly a current entry it is counted in |
| `ImageTaskService.ImageTaskService.Start` | core/api/images.py:84-95 | refuses exactly empty URLs, keeps the invariant |
| `ImageTaskService.ImageTaskService.Cancel` | core/api/images.py:105-109 | does the specified step, keeps the invariant |
| `ImageTaskService.ImageTaskService.Retry` | core/api/images.py:111-117 | does the step of `RetriedTaskWantsAgain`, keeps the invariant |
| `ImageTaskService.ImageTaskService.Remove` | core/api/images.py:139-143 | forgets the task and its claim |
| `CacheMaintenance.WindowIsExclusive` | core/image/fetcher.py:300-316 | during the callback no thread is inside the cache or about to be |
| `CacheMaintenance.CounterIsExact` | core/image/fetcher.py:377-399 | the counter is the number of threads inside, each once whatever its depth |
| `CacheMaintenance.NobodySleepsInVain` | core/image/fetcher.py:300-316 | threads sleep only while maintenance is on, the maintainer only while threads are inside |
| `CacheMaintenance.OthersNeverBlockNesting` | core/image/fetcher.py:379-386 | over every run of the others, maintenance included, a thread inside keeps its depth, can nest and come back, and holds off the window |
| `CacheMaintenance.WindowCanAlwaysOpen` | core/image/fetcher.py:303-312 | from every announced state the threads inside can finish so that the window opens |
| `CacheMaintenance.FreeCacheAdmits` | core/image/fetcher.py:377-393 | without maintenance a thread is let in at once and counted |
| `CacheMaintenance.ClosedWindowLetsEverybodyIn` | core/image/fetcher.py:313-316 | when maintenance ends whoever waited can enter and is let in |
| `CacheMaintenance.LastOneOutOpensTheWindow` | core/image/fetcher.py:394-399 | once announced nobody new is let in, and the last one out wakes the maintainer, who may begin |
| `CacheGate.CacheGate.Enter` | core/image/fetcher.py:387-391 | admitted exactly when no maintenance is on |
| `CacheGate.CacheGate.Leave` | core/image/fetcher.py:394-399 | the last one out wakes everybody |
| `CacheGate.CacheGate.AwaitWorkers` | core/image/fetcher.py:309-312 | the callback may run exactly when nobody is counted |
| `ImageCache.GenuineGrows` | core/image/fetcher.py:401-474 | bytes that belong to a URL belong to it after anything else is served |
| `ImageCache.PrintedSpriteIsItsRectangle` | core/provider/ehgrabber.py:1152-1179 | what is cached for a printed sprite is that rectangle of what belongs to its sheet |
| `ImageCache.ImageCache.Fetch` | core/image/fetcher.py:401-474 | a hit changes nothing and returns the cached bytes; a miss of a plain URL succeeds exactly when its transfer does and returns the chunks joined; every success is genuine and left indexed; other URLs are untouched |
| `ImageCache.ImageCache.FetchFromNetwork` | core/image/fetcher.py:439-466 | succeeds exactly when the body completes, gets into place or is there, and is indexed |
| `ImageCache.ImageCache.FetchSpriteCrop` | core/image/fetcher.py:507-543 | the crop of a genuine sheet is genuine |
| `ImageCache.ImageCache.CutSheet` | core/image/fetcher.py:513-543 | succeeds exactly when the rectangle can be cut, stored and indexed, with that very rectangle |
| `ImageCache.ConcatJoins` | core/image/fetcher.py:557-567 | joining chunks loses and reorders nothing |
| `ImageCache.ImageCache.WriteResponse` | core/image/fetcher.py:545-585 | the file becomes the concatenated chunks or stays as it was |
| `ImageCache.ImageCache.GetCachedPath` | core/cache/image_cache_db.py:84-92 | a row with a missing or empty file is dropped, any other is a hit |
| `ImageCache.ImageCache.PutCachedFilename` | core/image/fetcher.py:459-462 | the row names the new file; a failure drops a row that named another one and keeps any other |
| `ImageCache.ImageCache.Clear` | core/cache/image_cache_db.py:193-203 | files and rows go together |
| `ImageCache.ImageCache.GetGalleryPagePath` | core/cache/image_cache_db.py:134-142 | the page row counts exactly while its file is usable |
| `ImageCache.ImageCache.FetchGalleryPage` | core/image/fetcher.py:321-356 | a usable page row is returned as it is; otherwise the bytes are genuine for a URL the page resolved to and the row names their file; other pages and URLs are untouched, after a clear in between nothing is left |
| `SpriteUrl.RoundTrip` | core/provider/ehgrabber.py:1170-1179 | parsing a printed sprite gives back sheet and rectangle, even when the base contains `@` |
| `SpriteUrl.PartialRangesAreNotCrops` | core/provider/ehgrabber.py:1170-1179 | a printed range parses exactly when position, width and height were given |
| `SpriteUrl.WrittenRectangle` | core/image/fetcher.py:600-630 | any written rectangle of any sheet is read back exactly if it is not empty, and refused otherwise |
| `SpriteUrl.SignsAreRead` | core/image/fetcher.py:617-619 | a sign before a number is read |
| `SpriteUrl.BlanksAreIgnored` | core/image/fetcher.py:617-619 | blanks around a number are ignored |
| `SpriteUrl.UnderscoreIsIgnored` | core/image/fetcher.py:617-619 | so is a single underscore between digits |
| `SpriteUrl.BlankFieldIsSkipped` | core/image/fetcher.py:607-611 | a field without a value counts as missing |
| `SpriteUrl.SpritesHaveTheirOwnUrls` | core/provider/ehgrabber.py:1170-1179 | distinct sprites never share a URL |
| `SpriteUrl.ParseSpriteCrop` | core/image/fetcher.py:600-630 | an accepted crop has non-negative starts, positive extent and a proper prefix as base |
| `SpriteUrl.DecimalIsInt` | core/image/fetcher.py:617-619 | printed numbers parse to themselves |
| `Masonry.SafeAspectRatio` | app/controls/masonry_gallery.py:32-40 | a ratio within the limits is kept, one outside is clamped, none, a negative one or a value that is no number gives 0.72; infinities and not-a-number as Python compares them |
| `Masonry.CostIsHeightAndSpacing` | app/controls/masonry_gallery.py:78-85 | without its share of the spacing the cost of an item times its ratio is 1 |
| `Masonry.ArgMin` | app/controls/masonry_gallery.py:80-85 | the leftmost shortest column |
| `Masonry.GrahamBound` | app/controls/masonry_gallery.py:80-85 | the tallest greedy column is at most 2 - 1/m times the tallest of any other assignment |
| `Masonry.GalleryWithinGraham` | app/controls/masonry_gallery.py:107-126 | so is what a gallery of any items shows |
| `Masonry.ColumnsStayLevel` | app/controls/masonry_gallery.py:80-85 | columns never differ by more than the largest item |
| `Masonry.HeightsConserveCost` | app/controls/masonry_gallery.py:80-85 | no assignment creates or loses height |
| `Masonry.PlaceConcat` | app/controls/masonry_gallery.py:74-105 | placing in two batches is placing at once |
| `Masonry.PlaceIsGreedy` | app/controls/masonry_gallery.py:107-126 | heights and columns of a layout are those of the greedy assignment |
| `Masonry.PlaceShowsEveryItemOnce` | app/controls/masonry_gallery.py:107-126 | every item is shown as often as listed, nothing else is |
| `Masonry.AppendIsRebuild` | app/controls/masonry_gallery.py:74-105 | what an append distributes is what a layout from scratch would add |
| `MasonryGallery.MasonryGallery.constructor` | app/controls/masonry_gallery.py:46-54 | normalised column count and spacing, a valid empty tree |
| `MasonryGallery.MasonryGallery.SetItems` | app/controls/masonry_gallery.py:56-61 | the tree shows the new list from scratch |
| `MasonryGallery.MasonryGallery.SetColumnCount` | app/controls/masonry_gallery.py:63-72 | rebuilds exactly when the normalised count changes |
| `MasonryGallery.MasonryGallery.AppendBatch` | app/controls/masonry_gallery.py:74-105 | only empty tail hosts change, exactly those of the columns that gain an item are returned, and the flattened tree still is the layout from scratch of the whole list |
| `MasonryGallery.MasonryGallery.FillColumns` | app/controls/masonry_gallery.py:90-105 | each column's chain gains exactly its cards and ends in one new empty host |
| `MasonryGallery.MasonryGallery.Rebuild` | app/controls/masonry_gallery.py:107-136 | one empty host per column and the full layout |
| `ResultPump.NoLostWakeup` | app/image_results.py:26-95 | a waiting result or a set flag always has a worker, restart or starter that will look again |
| `ResultPump.EachResultOnceInOrder` | app/image_results.py:54-60 | results are taken once, in the order they came |
| `ResultPump.NextResultStartsAgain` | app/image_results.py:26-40 | after everybody stopped the next result starts a worker again |
| `ResultPump.BatchIsLimited` | app/image_results.py:54-65 | an undelayed worker takes at most a batch, exactly a batch if anything is left, and leaves only an empty queue; a delayed one takes nothing |
| `ResultPump.RoundOfAWorker` | app/image_results.py:54-81 | one round takes something, loses nothing and comes back for the rest unless the page has gone or refused |
| `ResultPump.StartOrGiveUp` | app/image_results.py:26-40 | a start that fails gives the flag back, so that the next result starts again |
| `ResultPump.QueueCanAlwaysDrain` | app/image_results.py:54-95 | no reachable state is stuck: the threads there can empty the queue |
| `ResultPump.TimelyRunsHaveOneWorker` | app/image_results.py:26-40 | over every run in which each result finds the flag set or nobody at all there is never a second thread |
| `ResultPump.SecondWorkerExactlyWhenLeaving` | app/image_results.py:82-90 | from any state with at most one thread a result leaves a second one if and only if it finds the flag clear and somebody leaving |
| `ResultPump.TwoWorkersCanCoexist` | app/image_results.py:82-95 | a reachable state with two workers |
| `ResultPump.StepKeepsInv` | app/image_results.py:26-99 | every section of starters and workers keeps the invariant |
| `ImageResultPump.ImageResultPump.Enqueue` | app/image_results.py:26-31 | asks for a worker exactly when the flag was clear |
| `ImageResultPump.ImageResultPump.TakeBatch` | app/image_results.py:57-65 | takes the front of the queue, at most a batch and exactly one if anything is left; leaves exactly on an empty undelayed batch |
| `ImageResultPump.ImageResultPump.EndRun` | app/image_results.py:82-90 | restarts exactly when results wait on a live page |
| `FileTree.RenameKeeps` | core/storage_migration.py:174-177 | a rename to a free place keeps every file of the job |
| `FileTree.AddKeeps` | core/storage_migration.py:179-181 | a copy in any state of completion does too |
| `FileTree.RemoveKeeps` | core/storage_migration.py:182-192 | so does removing any part of a completely copied source |
| `StorageMigration.DrainMore` | core/storage_migration.py:248-266 | handling one child leaves what the others left behind accounted for |
| `StorageMigration.Disk.MigratePath` | core/storage_migration.py:160-199 | never touches an existing target; the tree afterwards for every kind of luck; a failure is recorded exactly when neither rename nor copy succeeds |
| `StorageMigration.Disk.MergeListed` | core/storage_migration.py:248-266 | any listing order: nothing outside the two directories changes, nothing at the destination changes, skipped names stay; stops with an error exactly at a critical failure |
| `StorageMigration.Disk.MergeTree` | core/storage_migration.py:228-280 | terminates; after every change each source file is intact on one side and all others as they were; unless it raises everything not blocked has moved, whatever the disk did; it raises exactly when the destination is blocked, or for a critical merge of a file or with a failed move; `moved` tells exactly whether something arrived; skipped names stay; the source goes exactly when empty |
| `PagedFeed.LoadingMeansOneRequest` | core/paged_feed.py:37-79 | loading exactly while one request of this generation is unanswered, never two |
| `PagedFeed.ItemsAreTheFirstOccurrences` | core/paged_feed.py:63-69 | items are the first occurrences of the batches completed in this generation, keys their key set |
| `PagedFeed.ReissuedOnlyAfterRetryableFailure` | core/paged_feed.py:46-51 | a cursor is issued at most once more than it failed retryably |
| `PagedFeed.StaleAnswersChangeNothing` | core/paged_feed.py:60-61 | answers of earlier generations change nothing |
| `PagedFeed.PageIsShown` | core/paged_feed.py:53-72 | a current page extends the list by every key it brings, its cursor is the next one, and may be asked for unless it was before |
| `PagedFeed.ReplacementStartsAfresh` | core/paged_feed.py:37-51 | a replacing request empties the list, asks for its cursor alone, and makes every earlier answer stale |
| `PagedFeed.RequestKeepsTheList` | core/paged_feed.py:37-51 | a further request keeps what is shown and is the one awaited |
| `PagedFeed.FailedPageCanBeRetried` | core/paged_feed.py:74-79 | after a current failure nothing is loading and its cursor can be asked for again exactly if the failure allows it |
| `PagedFeed.DedupIsIncremental` | core/paged_feed.py:63-69 | feeding batches is deduplicating everything at once |
| `PagedFeedState.PagedFeedState.Begin` | core/paged_feed.py:37-51 | issues exactly when allowed, replacing ones always |
| `PagedFeedState.PagedFeedState.AppendNew` | core/paged_feed.py:62-69 | the loop appends the new items in order and returns exactly those |
| `PagedFeedState.PagedFeedState.Complete` | core/paged_feed.py:53-72 | returns what the batch added, nothing for a stale answer |
| `PagedFeedState.PagedFeedState.Fail` | core/paged_feed.py:74-79 | frees the cursor exactly for a current retryable failure |
| `ViewerState.EstimatedHeight` | app/views/image_viewer.py:94 | the height within 320 and 1800, below and above the nearer limit |
| `ViewerState.CardOffsets` | app/views/image_viewer.py:153-157 | offsets are the prefix sums of heights and gaps |
| `ViewerState.ViewerState.IndexForScroll` | core/image/viewer_state.py:71-77 | the end of the leading cards that start at or before the scroll position; with ascending offsets the last such card, 0 if none |
| `ViewerState.ViewerState.VerticalWindow` | core/image/viewer_state.py:79-106 | all touched cards before the first that starts too low, and the pages at most `adjacent_pages` from the index; with ascending offsets stopping early loses nothing |
| `ViewerState.ViewportIsCovered` | core/image/viewer_state.py:91-99 | which cards a buffered viewport touches, in scroll positions alone |
| `ViewerState.ViewerState.Move` | core/image/viewer_state.py:37-42 | never leaves the pages |
| `ViewerState.WindowIsOneRun` | core/image/viewer_state.py:71-106 | after a scroll the window is one interval around the index, its size bounded linearly by viewport and buffer |

## Left out

- User interface, navigation, themes, notifications and logging: no invariant of their own.
- Provider scraping, HTTP sessions and the byte stream of `download_to`: they appear as nondeterministic results.
- Real file systems, SQLite and power loss: a rename or a row write is atomic and a stop is a process stop.
- Clocks: the current time is a parameter of `retry`; timestamps of snapshots are not modelled.
- The revision of an archive task is unbounded; the original's `u64` would wrap after 2^64 changes.
- `shutdown` of the archive service waits for tokens to be removed; only the cancellation it sends is modelled.
- DownloadManager.DownloadManager.SaveTask: saves are assumed to succeed, so the errors of a failing table or snapshot write are not modelled.
- ManagerTheorems.DurableEqualsMemory: holds for runs in which a start never finds a finished worker whose callback is still to come; `StartIsSafeExactlyWhenPrompt` shows that this cannot be dropped.
- DownloadManager.DownloadManager.LoadRows: rows that do not parse, which the manager never writes itself, are not modelled.
- DownloadManager.DownloadManager.RecoverSnapshots: corrupt or misplaced snapshots, which are set aside, are not modelled.
- ManagerTheorems.DeletedOnceTheWorkerStops: under the same condition on callbacks.
- GalleryCommit.DownloadIsNeverLost: a stop between removing the download and recording it as consumed ends in a consume error at the next replay; only the data is claimed safe, and any download of the task counts (`LaterDownloadIsDropped`).
- ImageLoads.OneLiveHandlePerTask: each command of the task service is one step; two commands on the same task at once are not modelled.
- ImageCache.ImageCache.Fetch: fetches of one URL exclude each other in the original, so a fetch is one call; the hash in file names is taken to be injective, and a legacy index is not imported.
- The repair branch of a fetch for a row that survives `get_cached_path` (417-430): without a concurrent writer of the same row it is never taken.
- ImageCache.ImageCache.FetchGalleryPage: a cancellation of the page request itself and a resolver that fails, both of which leave the cache alone, are not modelled.
- StorageMigration.Disk.MergeListed: a directory that cannot be created or listed, which ends its merge like a failed move, is not modelled.
- Deadlock freedom of the striped URL locks: a sprite takes a second stripe while it holds one.
- SpriteUrl.ParseSpriteCrop: percent decoding is a parameter that leaves plain text alone; numbers are read with ASCII digits, signs, underscores and blanks, not with other Unicode digits; the style is given already split into base, position, width and height.
- Masonry.SafeAspectRatio: an integer too large for a float raises `OverflowError` in the original.
- Masonry.GrahamBound: heights are reals, not floating-point numbers.
- MasonryGallery.MasonryGallery.AppendBatch: the batch is a value; passing the gallery's own list is not modelled.
- StorageMigration.Disk.MergeTree: the source does not lie inside the destination, where every file of the source is a file of the destination too and cannot both move and stay; temporary names of copies are unused names; symbolic links are not modelled.
- `_rewrite_text_paths`, SQLite side files and the choice of directories in `migrate_legacy_storage`: easy or without a general law.
- ResultPump.NoLostWakeup: while the page lives and no start of a worker has failed; `NextResultStartsAgain` covers the rest.
- ViewerState.WindowIsOneRun: scroll positions, viewport and buffer are reals.
- Generation counters and the paged mode of the viewer, image decoding, DTO conversion, configuration, history and size formatting: they would only add easy members.
