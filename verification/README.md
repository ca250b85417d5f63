# fileagent: verified models of its protocols and of its path-template language

fileagent collects files on many machines and uploads them to an object store. An agent watches directories,
queues uploads in a local SQLite database and retries them across crashes. A Control Plane keeps one stream per
agent, sends it rules, and indexes what arrived. This project models the parts whose correctness depends on whole
runs or on a whole parser, and proves what they promise.

- **Durable uploads** (`QueueTables`, `Queue`, `Capacity`, `UploadLifecycle`, `UploadIdentity`, `Stranding`,
  `ReportSafety`, `Acceptance`, `Submission`). The task table, the abort outbox, the report table and the
  processed-file table are maps in a class, and each transaction is one method with a fault at every statement. The
  agent is a machine of interleaved steps: each goroutine does one database call or one store call per step, any call
  may fail, and a restart may happen between any two steps and drops all memory.
- **Resumable multipart upload** (`PartLayout`, `ObjectStore`, `Uploader`). The uploader is imperative code over a
  file that may return different bytes at every read and a store that may refuse or lose any answer. Both pick
  arbitrary values (`*`) inside their contracts. The store is trusted in one thing: an ETag that looks like an MD5 is
  the MD5 of the bytes it stored. SHA-256 and MD5 are functions nobody looks into; where a skipped part is checked by
  its ETag, MD5 is assumed not to collide between that part and what the file can show.
- **Watcher** (`Debounce`, `DebounceSafety`, `Delivery`). The event loop, its timers, their callbacks and the sweep
  interleave one locked section at a time.
- **Control Plane** (`Registry`, `Dispatch`, `DispatchSafety`, `AgentLocks`). Connections with their send queue and
  writer, callers waiting for a write, and the per-agent lock that orders snapshots against incremental pushes.
- **File index** (`FileIndex`, `SequenceOrder`). The ordering guard shared by the insert and the delete statement, and
  what its padded text order means for numbers.
- **trollsift** (`Decimal`, `Fields`, `Patterns`, `Templates`, `PartialComposition`, `Matching`, `TimeFormats`,
  `PathReading`). Parser, printer, partial evaluation, matcher and glob translation of path templates. The
  regular-expression engine is any function that returns a fitting cut of the path; time zones and time texts are
  functions of the host. A glob means what the doublestar library makes of it.

State machines carry some fields that only record history (which upload was ever persisted, what was delivered, how
many entries were unfired at most). The model types that have them say so. No step depends on them, except that a new
task or upload ID has never been used before.

Where code and comments differ, the model follows the code. The comment on `completeDelivery` says that a claim is
rolled back only at shutdown, but a send superseded by a newer generation rolls back too
(`agent/internal/watcher/watcher.go:521-549`); `Delivery.DoubleIffHarmful` gives the exact consequence. The comment on
`handleFailure` says that a give-up that could not be stamped keeps the task retryable, but only the running process
retries it: after a restart recovery skips the row (`agent/internal/executor/executor.go:704`), as `Stranding` proves.
The part-range check is described as a bounds check, but it lets numbers below one through; `PartLayout.OutsideIff`
states that.

## Model

| member | source | states |
|---|---|---|
| UploadIdentity.UploadNeverLost | agent/internal/executor/executor.go:273-655 | in every run from an empty start, with crashes, failed aborts and failed queue calls, an upload whose ID was once persisted and that the store still holds is on a pending, running or failed row or in the abort outbox, under the bucket and key where the store knows it |
| UploadIdentity.BoundedAttempts | agent/internal/executor/executor.go:526-655 | in every run, the uploader is called for one task at most max(1, retryMax) times, plus once per restart that found it running and once per failure that left no stamp to stop the retries |
| UploadIdentity.RunKeeps | agent/internal/executor/executor.go:273-485 | the invariant that ties rows, outbox, goroutines, store and attempt budgets together holds after every run from any state that satisfies it |
| UploadIdentity.ApplyKeeps | agent/internal/executor/executor.go:130-269 | every single event of the agent keeps that invariant |
| UploadIdentity.StepMoves | agent/internal/executor/executor.go:273-415 | a step of an upload, failure, abandonment or recovery changes only its own row and its own goroutine, forgets no upload, and stays within the task's budget |
| UploadIdentity.AckKeeps | agent/internal/executor/reports.go:103-119 | applying an acknowledgement read earlier keeps the invariant even if the row has moved on since |
| UploadIdentity.RestartKeeps | agent/internal/executor/executor.go:695-745 | dropping every goroutine, resetting running rows and listing failed ones for recovery keeps the invariant |
| UploadIdentity.EvictKeeps | agent/internal/queue/queue.go:382-451 | evicting the oldest row keeps the invariant: its upload is recorded in the same step |
| Stranding.ComesBackUnlessStranded | agent/internal/executor/executor.go:526-745 | after every run, for a persisted upload that the store still holds and the outbox does not, some continuation makes its row pending again with it exactly if the row is not failed, out of retries, without the never-retry stamp and without a retry timer |
| Stranding.StrandedForGood | agent/internal/executor/executor.go:695-745 | such a stranded row stays as it is in every continuation, however often the agent restarts and recovery lists it, unless it is evicted, and then it never returns and its upload is recorded or gone |
| Stranding.TakenUpAgain | agent/internal/executor/executor.go:608-745 | from any other failed row with a live upload outside the outbox, a timer or a restart with its recovery makes it pending or records its upload |
| Stranding.StrandsIff | agent/internal/executor/executor.go:608-655 | a row becomes stranded exactly when it is failed, out of retries and unstamped, and the agent restarts or the row's timer fails to requeue it |
| Stranding.GiveUpStrands | agent/internal/executor/executor.go:526-607 | wherever a spent task gives up, a failed give-up stamp, a written backoff stamp and a restart strand its row, with its upload, the store and the outbox as they were |
| Stranding.UploadIsStranded | agent/internal/executor/executor.go:526-745 | that is reached from an empty start, by any new task and any upload ID |
| Stranding.RecordedCanBeAborted | agent/internal/executor/executor.go:438-485 | from any reachable state a recorded upload can be drained: once the store agrees, both upload and record are gone and no row has changed |
| ReportSafety.ReportsMatchReportedRows | agent/internal/queue/reports.go:16-38 | after every run a report is stored exactly for the rows in status reported |
| ReportSafety.OnlyAcksWriteProcessed | agent/internal/executor/reports.go:103-119 | no event but the application of an acknowledgement changes the processed files |
| ReportSafety.ProcessedOnlyByAck | agent/internal/queue/reports.go:79-109 | when the processed files change, a stored success report of that row was acknowledged, and in the same step the row is completed and the report is gone |
| ReportSafety.CompletedForGood | agent/internal/queue/reports.go:79-109 | a completed row never changes again in any run, and a repeated acknowledgement of it changes nothing |
| ReportSafety.AbandonedForGood | agent/internal/executor/executor.go:534-607 | a row given up on is never pending or running again in any run |
| ReportSafety.StampedIsGiven | agent/internal/executor/executor.go:695-745 | a row stamped never-retry counts as given up on |
| Acceptance.ReportsTellTheTruth | agent/internal/executor/reports.go:34-60 | in every run a stored report says success exactly if, since the task's last claim, the object store accepted its upload |
| Acceptance.AbandonedReportsFailure | agent/internal/executor/executor.go:552-607 | in every run the report of a row stamped never-retry says failure |
| Acceptance.ProcessedWasAccepted | agent/internal/queue/reports.go:79-109 | in every run a file version that counts as processed was accepted by the object store in that size and time |
| Acceptance.CompletedWasAccepted | agent/internal/executor/executor.go:273-334 | in every run a completed task, uploaded or taken for a duplicate, was given up on or its version was accepted by the store |
| Acceptance.RunIsTrue | agent/internal/executor/reports.go:34-119 | the invariant between reports, rows, goroutines, processed files and what the store has accepted holds after every run |
| Acceptance.UploadCanFinish | agent/internal/executor/executor.go:273-363 | the oldest pending task of an unprocessed small file can be claimed, uploaded, reported and acknowledged, and then its version is processed with the reported digest |
| Acceptance.DuplicateIsSkipped | agent/internal/executor/executor.go:273-334 | a claimed task whose size and time were processed before ends completed with the store untouched and no attempt counted, and an upload it still has is recorded for abort |
| Submission.TakenIffNew | agent/internal/queue/queue.go:276-304 | in every run a new task is taken exactly if no pending, running or reported row has its rule, path, time and size, and no other row changes |
| Submission.VersionsDoNotBlock | agent/internal/queue/queue.go:284-288 | in every run, whether a version is taken does not depend on an earlier submission of another time or size |
| LocalQueue.Queue.EnqueueIfNoActive | agent/internal/queue/queue.go:276-304 | inserts a pending row exactly when the ID is free and no pending, running or reported row has the same rule, path, time and size; a fault changes nothing |
| LocalQueue.Queue.DequeuePending | agent/internal/queue/queue.go:453-488 | hands out the oldest pending rows in order of creation, at most the limit, and marks exactly those running; fewer than the limit only when none is left pending; after a fault nothing is handed out although the rows before it stay running |
| LocalQueue.Queue.ListPending | agent/internal/queue/queue.go:456-473 | the listed rows are pending and in order of creation, no pending row left out is older than a listed one, and none is left out below the limit |
| LocalQueue.Queue.MarkFailedAbandoned | agent/internal/queue/aborts.go:130-163 | the never-retry stamp and the abort record are written together or not at all, and an unknown row is reported |
| LocalQueue.Queue.MarkCompletedAbandoningUpload | agent/internal/queue/aborts.go:176-207 | completion and the abort record of the unused upload are written together or not at all |
| LocalQueue.Queue.SaveReport | agent/internal/queue/reports.go:16-38 | the reported status, the digest and the stored report are written together or not at all |
| LocalQueue.Queue.CompleteReported | agent/internal/queue/reports.go:79-109 | completion, removal of the report and, for a success, the processed file are written together or not at all |
| LocalQueue.Queue.DeleteOldestEvictable | agent/internal/queue/queue.go:382-451 | removes an oldest pending or failed row other than the excluded one together with recording its upload, passing over, oldest first, the rows that workers claimed meanwhile; finds nothing only if there is none left or all eight attempts were raced; a fault removes nothing |
| LocalQueue.Queue.TryEvict | agent/internal/queue/queue.go:384-449 | one attempt removes and records together, or loses its row to a worker, or changes nothing |
| LocalQueue.Queue.SelectOldest | agent/internal/queue/queue.go:389-412 | returns a pending or failed row no younger than any other, or says that every other row is running, reported or completed |
| LocalQueue.Queue.ResetRunningToPending | agent/internal/queue/queue.go:507-571 | every running row becomes pending with the size and time its file has now, or nothing changes |
| LocalQueue.Queue.EnqueueMultipartAbort | agent/internal/queue/aborts.go:33-49 | an upload already recorded keeps its record |
| Capacity.Executor.AbandonTaskUpload | agent/internal/executor/executor.go:375-415 | the store is asked after the record was written, unless writing it failed, which does not stop the abort; the record goes only when the store confirmed and the delete succeeded |
| Capacity.Executor.EnforceCapacity | agent/internal/executor/executor.go:172-207 | the loop ends; it drops oldest rows first, never the new one, each with its upload recorded or confirmed aborted, and stops within the cap or with nothing left to drop, never dropping below the cap |
| Capacity.Executor.ShedOne | agent/internal/executor/executor.go:172-207 | drops the oldest row there is to drop, and its record goes only for an abort the store confirmed |
| Capacity.Executor.Submit | agent/internal/executor/executor.go:130-156 | the new task is stored, unless a pending, running or reported row has its rule, path, time and size, and survives; every upload dropped for it is recorded or confirmed aborted, and no other record is lost; afterwards the queue is within the cap or every other row is running or reported |
| PartLayout.PartsPartition | agent/internal/uploader/multipart.go:461-473 | every byte of the file lies in the range of exactly one of the parts 1 to the last |
| PartLayout.PartIsNext | agent/internal/uploader/multipart.go:461-473 | each part starts where the one before it ends, and none is empty |
| PartLayout.OutsideIff | agent/internal/uploader/multipart.go:461-473 | the range check refuses exactly the numbers past the last part |
| PartLayout.PartOfByte | agent/internal/uploader/multipart.go:461-473 | a part number covers a byte exactly if it is the byte's position divided by the part size, plus one |
| ObjectStore.DigestIsNormal | agent/internal/uploader/uploader.go:422-442 | a hexadecimal digest is unchanged by ETag normalisation and comparable |
| ObjectStore.QuotedDigestIsNormal | agent/internal/uploader/uploader.go:422-442 | a digest in any number of quotes and in any case is comparable and compares as its lower-case form |
| ObjectStore.DashIsNotComparable | agent/internal/uploader/uploader.go:426-442 | an ETag with a dash, as multipart objects have, is not comparable |
| Uploader.UploadFile | agent/internal/uploader/uploader.go:190-285 | success reports the digest and size of the published object, and an unchanged file is published whole; at most one upload is started; the old upload stays on the row, is recorded, or is gone; if the store lists every part, nothing that upload holds is sent to it again; an unchanged file leaves a row that resumes, whichever reads or calls failed, and above the single-part threshold discards nothing unless one did; if no read or call fails, an unchanged file is uploaded, whatever row and store hold from before |
| Uploader.UploadUntilDone | agent/internal/uploader/uploader.go:190-285 | any number of attempts on an unchanged file, with any failed reads and calls, followed by a successful one publishes exactly the file under its digest and size; above the single-part threshold none of them discards stored parts unless a read failed or the store held back an answer |
| Uploader.MultipartUpload | agent/internal/uploader/multipart.go:85-334 | the digest and size are those of the object assembled from parts 1 to n in order, for any parts already stored and any change of the file between reads; the final count check never fires; if the store lists every part, parts already stored are not sent again |
| Uploader.OpenUpload | agent/internal/uploader/multipart.go:85-203 | resumes the recorded upload only if it exists and the file has shown, for every part listed, bytes with that part's length and ETag; starts a new one only if it is gone, and persists the new ID at once |
| Uploader.FeedTurn | agent/internal/uploader/multipart.go:205-310 | one turn keeps the digest's input equal to what the store assembles from the list so far |
| Uploader.FeedAllParts | agent/internal/uploader/multipart.go:205-310 | after the loop the digest's input is what the store assembles from the list, whichever parts were skipped |
| Uploader.FeedAndComplete | agent/internal/uploader/multipart.go:205-334 | success publishes the object made of exactly the planned parts in ascending order and reports its digest; no listed part is sent again, and no other upload is touched |
| Uploader.CompleteFed | agent/internal/uploader/multipart.go:312-334 | what was fed is what the completed list assembles to, so the count check never fires |
| Uploader.FeedSkippedPart | agent/internal/uploader/multipart.go:225-239 | a skipped part feeds the digest with exactly the bytes the store holds, or the upload is stale |
| Uploader.FeedNewPart | agent/internal/uploader/multipart.go:241-291 | one read feeds both store and digest; a short read or a wrong ETag fails |
| Uploader.HashResumePartChecked | agent/internal/uploader/multipart.go:393-416 | bytes are returned only if they have the part's length and the remote ETag; for an unchanged file with a matching ETag they always are |
| Uploader.VerifyResumePartETag | agent/internal/uploader/multipart.go:363-379 | a pass means that the part is within the plan and the file has shown bytes with its length and ETag; an unchanged, readable file passes exactly with a matching ETag |
| Uploader.CanResumeParts | agent/internal/uploader/multipart.go:53-67 | parts are resumed exactly with a snapshot, a successful stat, the same version and the multipart path |
| Uploader.DiscardStaleUpload | agent/internal/uploader/multipart.go:519-553 | on success the upload is on record or gone; on failure nothing was destroyed |
| Uploader.SinglePartUpload | agent/internal/uploader/uploader.go:345-391 | success reports the digest and size of exactly the bytes delivered |
| DebounceSafety.FiredMeansQuiet | agent/internal/watcher/watcher.go:407-437 | in every interleaving a fired entry has no armed timer, no callback before its check and no running flush of its current generation, and no channel is closed twice |
| DebounceSafety.FiredIffQuiet | agent/internal/watcher/watcher.go:521-584 | in every interleaving an entry of the map has fired exactly when no timer or callback of its current generation is outstanding, so an unfired file always has somebody coming back to it |
| DebounceSafety.WriteIsFollowedUp | agent/internal/watcher/watcher.go:636-664 | in every reachable state between sweeps a write leaves the file in the map, unfired, with a new timer of a new generation; every callback it had is superseded; and the new callback, left alone, delivers |
| DebounceSafety.RemoveForgets | agent/internal/watcher/watcher.go:601-635 | in every reachable state between sweeps a removal takes the file off the map and supersedes every callback it had |
| DebounceSafety.SweptNeverFlushes | agent/internal/watcher/watcher.go:282-298 | a swept entry stays out of the map in every continuation, and any callback it still has fails its generation check |
| DebounceSafety.InvalidatedNeverDelivered | agent/internal/watcher/watcher.go:1289-1306 | a generation superseded or removed before its send passed the entry check, or while it was parked, is never delivered in any continuation |
| DebounceSafety.PendingBounded | agent/internal/watcher/watcher.go:282-298 | in every run the map holds at most as many entries as were unfired at some moment so far, plus one sweep budget |
| DebounceSafety.RunKeeps | agent/internal/watcher/watcher.go:552-675 | the invariant over entries, timers, callbacks and channels holds after every run |
| DebounceSafety.RearmKeeps | agent/internal/watcher/watcher.go:641-664 | a later write keeps it: old channel closed once, parked sends released, one timer for the new generation |
| DebounceSafety.DropKeeps | agent/internal/watcher/watcher.go:601-635 | removing a file keeps it |
| DebounceSafety.FinishKeeps | agent/internal/watcher/watcher.go:552-584 | marking an entry as fired after its flush keeps it, because an older callback cannot mark a newer generation |
| DebounceSafety.PeakWasReached | agent/internal/watcher/watcher.go:282-298 | the recorded peak is the number of unfired entries at some moment of the run |
| Delivery.Watcher.ClaimDelivery | agent/internal/watcher/watcher.go:961-975 | a version is claimed exactly when cursor and placeholder, where present, are both older |
| Delivery.Watcher.CompleteDelivery | agent/internal/watcher/watcher.go:993-1004 | delivery moves the cursor to the later of both versions and nothing else does; only the claim's own placeholder goes; other paths keep theirs |
| Delivery.RunOwned | agent/internal/watcher/watcher.go:961-1004 | in every run the cursor never goes back and every placeholder belongs to a live claim |
| Delivery.AtMostOnce | agent/internal/watcher/watcher.go:879-929 | in a run without harmful rollbacks each version of a file is delivered at most once |
| Delivery.AtMostOnceWithoutOlder | agent/internal/watcher/watcher.go:961-1004 | in particular, if no claim is rolled back while an older claim on its path is in flight, each version is delivered at most once |
| Delivery.DoubleIffHarmful | agent/internal/watcher/watcher.go:993-1004 | settling a claim makes a double delivery possible exactly when it rolls back the placeholder while another claim on the path is in flight for a version not yet recorded |
| Delivery.HarmsOlderOnly | agent/internal/watcher/watcher.go:993-1004 | that other claim is for an older version |
| Delivery.HarmDelivers | agent/internal/watcher/watcher.go:961-1004 | a concrete continuation delivers the older version twice |
| Delivery.HarmIsReachable | agent/internal/watcher/watcher.go:961-1004 | two claims from the start reach such a state |
| Registry.WrittenIsPrefix | controlplane/internal/grpcserver/handler.go:133-157 | in every interleaving the messages written on a connection are a prefix of those queued on it, and no queue is sent to after it was closed, or closed twice |
| Registry.SendSyncTrue | controlplane/internal/grpcserver/registry.go:305-357 | an accepted call that returns true had its own message written on the connection it was made on, at its place in the queue |
| Registry.NoMissedWakeUp | controlplane/internal/grpcserver/registry.go:335-357 | whenever a waiter's message has been published, waking it and looking again returns true |
| Registry.EntryStays | controlplane/internal/grpcserver/registry.go:143-156 | a registry entry lasts until its own connection is torn down or the agent reconnects, whatever other connections do |
| Registry.DisplacedIsCancelled | controlplane/internal/grpcserver/registry.go:108-137 | a connection that is not in the registry was cancelled or torn down |
| Registry.RunKeeps | controlplane/internal/grpcserver/registry.go:272-357 | the queue, counter, generation and waiter invariant holds after every run |
| Registry.AgentConn.Enqueue | controlplane/internal/grpcserver/registry.go:272-282 | refuses exactly when 32 messages wait; otherwise the number returned is the place of the message among all ever queued, and nothing is lost or reordered |
| Registry.AgentConn.NoteWritten | controlplane/internal/grpcserver/registry.go:286-292 | after a write the published count is the number of messages written, and every waiter finds its generation over |
| Registry.AgentConn.WriteNext | controlplane/internal/grpcserver/handler.go:140-157 | one round writes the oldest message and publishes it, or stops the writer with that one message lost |
| Registry.AgentConn.WriteLoop | controlplane/internal/grpcserver/handler.go:133-157 | however the writer ends, it wrote a prefix of what was queued and published all of it; without a failure it wrote everything |
| Registry.AgentRegistry.Register | controlplane/internal/grpcserver/registry.go:108-137 | replaces the entry by a new connection and cancels the displaced one, whose queue and counters stay as they are, as do all others |
| Registry.AgentRegistry.Unregister | controlplane/internal/grpcserver/registry.go:143-156 | removes the entry and closes the queue exactly when the connection owns the entry, and never a second time |
| Registry.AgentRegistry.SendSyncEnqueue | controlplane/internal/grpcserver/registry.go:305-330 | queues only on the registered connection, so never on a closed queue, and returns the place the caller has to wait for |
| DispatchSafety.SnapshotKnowsEarlierTraffic | controlplane/internal/agent/dispatch.go:344-427 | in every run, traffic queued before a snapshot was caused by a write the snapshot has seen, if the agent was not released during that sync |
| DispatchSafety.OvertakenIffReleased | controlplane/internal/agent/dispatch.go:98-136 | in every reachable state a push of a later write can get ahead of a listed snapshot, with no further release, exactly if the agent was released since that sync took its lock |
| DispatchSafety.OvertakenIsSent | controlplane/internal/agent/dispatch.go:344-427 | the snapshot is then sent after that push |
| DispatchSafety.ReleasedMidSync | controlplane/internal/agent/dispatch.go:127-136 | a release between listing and sending reaches such a state from the start |
| DispatchSafety.CountsAreExact | controlplane/internal/agent/dispatch.go:98-136 | in every run the use count is the number of callers between acquire and release, and no retired unused entry is in the map |
| DispatchSafety.RunKeeps | controlplane/internal/agent/dispatch.go:178-288 | the invariant over lock table, callers and message logs holds after every run |
| AgentLocks.Locks.Acquire | controlplane/internal/agent/dispatch.go:98-111 | the caller joins the agent's live entry, or a new one in place of a retired one; no other entry changes |
| AgentLocks.Locks.Release | controlplane/internal/agent/dispatch.go:116-123 | the caller leaves its own entry, which goes exactly when it is retired, unused and not replaced |
| AgentLocks.Locks.Retire | controlplane/internal/agent/dispatch.go:127-136 | leaves the agent without an entry, or with a retired one that is still used; no other agent's entry changes |
| FileIndex.ConvergesIffAgree | controlplane/internal/db/ingest.sql.go:139-161 | for any row and any events, with or without sequences, every order of the events gives the same row exactly when the newest agree: those of the latest time and highest padded sequence, or all of the latest time once a sequence is missing; and then any redelivery gives it too |
| FileIndex.Converges | controlplane/internal/db/ingest.sql.go:139-161 | two arrangements of the same notifications that agree end in the same status, time, sequence and source |
| FileIndex.DistinctAgree | controlplane/internal/db/ingest.sql.go:139-161 | numbered events that differ in observation time or padded sequence agree, whatever row they meet |
| FileIndex.RunOutcome | controlplane/internal/db/ingest.sql.go:17-26 | the final row is the old one if no event passes it, and otherwise one written by an event of the latest time, and of the highest sequence among them if all are numbered |
| FileIndex.ObservedNeverDecreases | controlplane/internal/db/ingest.sql.go:139-161 | the observation time never goes back, for any events |
| FileIndex.UnnumberedDependsOnOrder | controlplane/internal/db/ingest.sql.go:17-26 | whenever an event without a sequence shares the latest time with a different write, a permutation of the same events ends differently |
| SequenceOrder.PaddingIsNumeric | controlplane/internal/db/ingest.sql.go:160-161 | numerals of up to 32 digits in one base and case are ordered by their zero-padded text exactly as by their numbers |
| SequenceOrder.DecimalOrder | controlplane/internal/db/ingest.sql.go:22-24 | in particular decimal numerals |
| SequenceOrder.LargestRemains | controlplane/internal/db/ingest.sql.go:139-161 | for numbered events in any order, what remains has the latest time of all, the old row included, and among those the numerically largest sequence |
| FileIndex.Index.UpsertIndexedFile | controlplane/internal/db/ingest.sql.go:126-165 | inserts a missing row, updates under the guard, and returns a row exactly when it wrote: the event's status, source and sequence, at the database time for agent and api and at the observed time otherwise |
| FileIndex.Index.DeleteIndexedFile | controlplane/internal/db/ingest.sql.go:17-26 | under the guard marks an existing row as deleted, at the observed time, and never creates or removes one |
| FileIndex.Index.UpsertObservedFile | controlplane/internal/db/ingest.go:11-18 | always returns the current row, and says whether the write was suppressed |
| FileIndex.Index.MarkObservedFileDeleted | controlplane/internal/db/ingest.go:22-32 | tells an applied deletion, a stale one and one of an absent file apart |
| PartialComposition.PartialMeaning | pkg/trollsift/parser.go:178-210 | filling in some fields with brace-free texts and parsing the result gives a template that composes with any further values, in both modes, to what the original composes to with both, down to the error |
| PartialComposition.PartialParses | pkg/trollsift/parser.go:69-121 | the partially filled template is always accepted, and its segments are those of the original with neighbouring texts joined |
| PartialComposition.PrintedAndReadAgain | pkg/trollsift/field.go:121-143 | printing an accepted template without values and parsing it gives the same segments, up to the pad flag of fields without width |
| PartialComposition.NewIsParse | pkg/trollsift/parser.go:56-66 | validation never rejects what the parser accepted; accepted templates alternate texts and fields |
| PartialComposition.PrintedIsParsed | pkg/trollsift/parser.go:69-121 | the parser undoes the printer on any segments with brace-free texts |
| Fields.SpecRoundTrip | pkg/trollsift/field.go:39-143 | every parsed specification is read back from its printed form |
| Fields.AcceptedIff | pkg/trollsift/field.go:39-117 | exactly the specifications whose zone, if given, is non-empty, known and on a time format are accepted |
| Fields.TzIsFound | pkg/trollsift/field.go:44-52 | a printed zone suffix is found where it was put |
| Patterns.ParsePattern | pkg/trollsift/parser.go:69-121 | the parsing loop computes the parse of the whole pattern, including which error comes first |
| Patterns.NewParser | pkg/trollsift/parser.go:56-66 | parsing followed by the validation loop computes the accepted segments |
| Patterns.ComposePattern | pkg/trollsift/parser.go:178-210 | the composing loop computes the composition, including which error comes first |
| Templates.ParsedIffSpelled | pkg/trollsift/parser.go:69-121 | a pattern is accepted with exactly the segments that spell it, brace-free texts and fields between their braces; stray, missing and nested braces are refused |
| Templates.FilledIffSuited | pkg/trollsift/parser.go:178-210 | a template is filled exactly if every field has a value of its kind, where a partial filling may leave fields out |
| Templates.NumberIsShown | pkg/trollsift/format.go:9-34 | a number is shown by a numeral of its value, filled with zeros to the field's width and never cut |
| PathReading.GlobFindsPath | pkg/trollsift/parser.go:215-237 | for templates without glob metacharacters in their texts, the glob matches a path the parser accepts if no captured string contains a slash, and, if no component of the glob is exactly two stars, only then |
| PathReading.GlobFindsExactly | pkg/trollsift/parser.go:215-237 | in particular, where no two fields without width stand side by side, the glob matches exactly the accepted paths whose captured strings have no slash |
| PathReading.AdjacentFieldsCross | pkg/trollsift/parser.go:215-237 | the condition is needed: two such fields that fill a component match any text there, slashes and all |
| PathReading.StarIsDoublestar | pkg/trollsift/parser.go:215-237 | giving a component of two stars its own meaning loses no match |
| PathReading.LdmlWidths | pkg/trollsift/ldml.go:27-77 | at every position the expression takes as many characters as the glob writes and the time format has |
| PathReading.Reassembly | pkg/trollsift/parser.go:136-210 | for templates with distinct names, composing the parsed values gives the path back exactly when no number without width has superfluous zeros in front and the host prints every time, in its field's zone, as it was written |
| PathReading.ReadIffReadable | pkg/trollsift/parser.go:152-172 | reading a cut fails exactly on a number above 2^63 - 1 or a time the host refuses in the field's zone |
| PathReading.StampMatches | pkg/trollsift/ldml.go:29-77 | what a time format's expression matches, its glob matches |
| TimeFormats.FormatIsRead | pkg/trollsift/ldml.go:17-42 | a format made of yyyy, MM, dd, HH, mm, ss, yy and texts without their letters matches exactly four digits for yyyy, two for each other symbol, and the texts, in that order |
| TimeFormats.FormatIsMarked | pkg/trollsift/ldml.go:60-77 | its glob is a mark for each of those digits, and the texts |
| TimeFormats.TimeFieldMatches | pkg/trollsift/regex.go:38-39 | so a time field of a template captures exactly such pieces |
| PathReading.PieceAgain | pkg/trollsift/format.go:9-34 | a captured piece is printed back unchanged exactly if it is no number without width and with zeros in front and no time that the host prints otherwise; it is never printed longer |
| Matching.MatchLdml | pkg/trollsift/ldml.go:104-112 | the table scan finds the first symbol that starts at the position |
| Matching.LdmlToRegex | pkg/trollsift/ldml.go:29-42 | the translation loop computes the expression |
| Matching.LdmlToGlob | pkg/trollsift/ldml.go:62-77 | the translation loop computes the glob fragment |
| Matching.BuildParseRegex | pkg/trollsift/regex.go:11-46 | one group per segment in order, and the template's fields in the order of their groups |
| Matching.GlobifyPattern | pkg/trollsift/parser.go:215-237 | the loop computes the glob of all segments |
| Matching.Parse | pkg/trollsift/parser.go:136-173 | a result consists of the values of some fitting cut of the path; a path that cannot be cut is refused, and one that can is read if the engine finds a cut whenever there is one; widths above a thousand are refused |
| Matching.CompilesIff | pkg/trollsift/regex.go:25-37 | a template is refused for its width exactly if a text or number field is wider than a thousand |
| Matching.ReadCaptures | pkg/trollsift/parser.go:152-172 | the values of the captures by index, a later field overriding an earlier one of the same name, or the first conversion error |
| Matching.CaughtIsField | pkg/trollsift/parser.go:152-154 | the capture at a field's index is the piece that field matched, wherever the literals stand |
| Decimal.ReadsBackIffCanonical | pkg/trollsift/format.go:17-25 | printing a numeral that was read gives it back exactly when it has no superfluous zero in front |
| Decimal.PaddedReadsBack | pkg/trollsift/format.go:17-25 | printing it at its old width always gives it back |

## Left out

- A failed database call is modelled as one without effect; a commit whose outcome the agent does not learn is not modelled.
- In the runs, claiming a pending row is one step of one row; the code selects and updates in separate statements, so two
  workers could claim one row, and a fault between updates leaves rows running without a worker until the next start.
- Backoff durations, retry due times and the reporter's timers: any retry may fire at any moment.
- Single-statement queue calls (status update, failure stamp, progress save, outbox delete) are functions of the tables; only the multi-statement ones are methods.
- The JSON list of completed parts on a row: the code never trusts it over the store's listing, and the model reads only the listing.
- Tail append mode: only its refusal by the executor is modelled.
- Credential refresh, heartbeats, directory listing, tags, REST handlers and configuration: they would only add easy members.
- 64-bit overflow of sizes, offsets, sequence numbers and generations; numerals read by templates do respect it.
- The moment at which a ready consumer races the closing of a cancellation channel: a send past its entry check may still go out, as the code documents.
- The watcher loop's end, which only stops timers, and the independent recheck timers, which enter the model only as claimants.
- The event sent for a removed file, which needs no claim; what a removal does to the map and its callbacks is modelled.
- The buffering below the stream: written means handed to the transport.
- The graceful and the forced way of ending a connection differ only below the stream; in the model a writer may stop at any time.
- The size budget of a rule snapshot and the credential push after a rule: a sync or push may end without sending.
- Index columns that keep their old value when none is given, and deletions that arrive before any row exists.
- Database text comparison is character by character; locale collation is not modelled.
- Template text is a sequence of characters, so widths in bytes and in characters coincide, as for ASCII.
- Go time layouts: formatting and parsing of times are functions of the host, and the layout translation is not modelled.
- Classes, alternatives and escapes in a glob, which a template's own text would have to bring.
- Delivery.AtMostOnce: needs runs without harmful rollbacks, because the code does not promise it otherwise; Delivery.DoubleIffHarmful shows the condition is exact.
- PathReading.GlobFindsPath: where a component of the glob is exactly two stars it states one direction only, because the other fails there, as PathReading.AdjacentFieldsCross shows.
- LocalQueue.Queue.TryEvict: a raced row becomes running, as when a worker claims it; a row that vanishes meanwhile is not modelled.
- PathReading.Reassembly: where a template has time fields, the host is taken to print a time at the width it was read at, as it does for the seven symbols.
- TimeFormats.FormatIsRead: texts that contain single symbol letters, as in a format with month names, are not covered.
- SequenceOrder.PaddingIsNumeric: sequences longer than 32 characters, which the database cuts, and sequences of mixed case are not ordered by number.
