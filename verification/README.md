# Verified model of the document-ingestion and search service

A Dafny model of the service's most intricate behaviour, with proofs about it. `dafny verify
dfyconfig.toml` checks everything.

## What is modelled

**Ingestion as a state machine** (`Ids`, `Tags`, `Protocol*`). The state is the document, job and
chunk tables, the broker queue with retry counts, the heartbeat and pause keys, the tag tables and
the one worker with the delivery it holds. Every worker task is split at its commits and writes, so
API calls, crashes, redeliveries, lost deliveries, expiring keys, sweeps, purges and configuration
changes interleave with it anywhere. `Apply` is total: a refused call or an impossible step leaves
the state alone, so a run is any sequence of actions, and `Reachable` means reachable by some run
from an empty system. The main theorems are about every run:

* resuming is correct: a stored vector is always its label's vector of its own text, and a job
  marked done leaves every parsed chunk at its model (`ProtocolRuns.DoneMeansCovered` gives the exact
  condition);
* embedding work is bounded, by a conservation law (`ProtocolWork`);
* a failing ingest is tried exactly four times (`ProtocolRetries`);
* draining terminates, sweeps are fair and no job is stranded (`ProtocolSweeps`, `ProtocolLiveness`);
* the chunks' copy of the tags follows its source, and when exactly (`ProtocolTags`, `Tags`,
  `ProtocolTagDrain`), and what each tag call makes of that source (`TagEffects`);
* deletes are final, and when exactly a requested one completes (`ProtocolDeletes`,
  `ProtocolDeleteDrain`).

**The code of the tasks and calls** (`IngestWorker`, `ApiCalls`). Methods over a class holding the
shared tables, in the order the source does things, each proved to be one step or one sequence of
steps of the state machine, so every theorem about runs applies to them.

**The two rate limiters** (`RpmLimiter`, `TokenBucket`), in real-valued time: the window bound at
every moment, the bound on the wait, the budget over any interval, and an exact snapshot.

**The ZIP writer** (`Bytes`, `Crc`, `Zip`): the table-driven CRC equals the bit-by-bit one, and a
reader that starts from the end record undoes the writer. Layouts are those of sections 4.3.7,
4.3.12 and 4.3.16 of the PKWARE ZIP APPNOTE; the checksum is that of section 8 of RFC 1952.

**Search** (`Expansion`, `Ordering`, `RankFusion`, `Rerank`, `LikeEscape`): span expansion, rank
fusion, the rerank step and the LIKE filter, the last against section 8.5 of ISO/IEC 9075-2.

**Access, configuration, realtime, chunking** (`Permissions`, `PermissionGates`, `ConfigFile`,
`Realtime`, `Chunking`, `PageSections`).

## Where the code does not do what is expected of it

Each of these is a lemma, beside the exact condition under which the expectation holds.

* A negative `batch_size`, which the configuration accepts, marks documents done with nothing
  embedded (`ProtocolRuns.NegativeBatchSizeSkipsEverything`, `ProtocolRuns.DoneMeansCovered`).
* A tag sync that fails four times, or runs into its time limit once, is dropped, and the chunks
  keep stale tags (`ProtocolTagDrain.DroppedSyncsLeaveStaleTags`,
  `ProtocolTagDrain.AgreesExactlyWhen`).
* A delete that fails four times, or runs into its time limit once, before its rows are deleted is
  dropped too, and the document stays marked for deletion for good unless its retention ends
  (`ProtocolDeleteDrain.DeleteCompletesExactlyWhen`, `ProtocolDeleteDrain.TombstoneStays`).
* A config file that is not blank but parses to an empty mapping, beside a usable backup: a crash
  during the next change loses the configuration that was loaded from the backup. A missing file
  beside a usable backup: nothing was loaded, and a crash in the first write brings the old backup
  back (`ConfigFile.CrashSafeWhenSound`). A rejected change is not always undone, for instance when
  there was no backup to restore (`ConfigFile.RejectedIsUndone`).
* Across several collections "more available" depends on the place of the last result alone, not on
  relevance (`RankFusion.MoreIsByPlace`).
* A negative window overlap loses tokens (`Chunking.EveryTokenIsKept`, `Chunking.TokensAreLost`).
* A streamed frame may be older than the snapshot frame before it, exactly when the hash was read
  ahead of the stream (`Realtime.FramesGoBackExactly`, `Realtime.FramesCanGoBack`), and a key may be
  missing when the hash expired (`Realtime.LastFrameIsLastPublished`, `Realtime.FrameCanBeMissed`).

## Model

| member | source | states |
|---|---|---|
| `ProtocolRuns.StoredVectorsAreCorrect` | worker/tasks.py:346-396 | In every reachable state, whatever attempts were cut short and whatever the models, a row labelled m holds the parsed text of its chunk and m's vector of that text |
| `ProtocolRuns.DoneMeansCovered` | worker/tasks.py:578-595 | Marking a job done records the parsed chunk count, and every parsed chunk is stored at the attempt's model if and only if the batch size was not negative or nothing was left to embed |
| `ProtocolRuns.NegativeBatchSizeSkipsEverything` | worker/tasks.py:371-396 | From a fresh system with a negative batch size there is a run that ends with a done job, its chunk count on record and an empty chunk table |
| `ProtocolRuns.DoneStays` | worker/tasks.py:180-210 | No step of any kind takes a done job back out of done while its row exists |
| `ProtocolRuns.DeletesAreFinal` | worker/tasks.py:833-873 | After the delete task has committed, no continuation of the run ever has a document row, job row or chunk of that document |
| `ProtocolRuns.DropLosesNoLiveChunk` | worker/tasks.py:859-873 | Dropping a collection found empty keeps every chunk of a document that has a row, whatever was uploaded between the check and the drop |
| `ProtocolDeleteDrain.DeleteCompletesExactlyWhen` | worker/tasks.py:833-878 | A delete requested in a settled state and drained has completed, leaving nothing of the document, if and only if before its rows were deleted the task never ran out of time and failed at most three times; otherwise the row is stranded: still there, marked for deletion, with no delete queued or running |
| `ProtocolDeleteDrain.TombstoneStays` | worker/tasks.py:874-878 | A delete that gave up is never taken up again: in every run without a retention purge of the document its row stays marked for deletion and no delete of it is queued |
| `ProtocolDeleteDrain.TimedOutDeleteStrands` | worker/tasks.py:874-875 | One time limit is enough to leave such a row |
| `ProtocolRuns.TagCopyFollows` | worker/tasks.py:804-830 | In every reachable state the stored tags of an active document are its effective tags unless a sync for it is due or being written, or one gave up |
| `ProtocolRuns.TagCopyAgreesWhenDrained` | api/services/tag_bridge.py:34-62 | With the queue drained and no sync given up, every chunk of every active document carries exactly the effective tags |
| `ProtocolRuns.SyncGivesUp` | worker/tasks.py:798-830 | Among any queued work, a sync that fails on its first try and on every retry is dropped, and nothing else changes |
| `ProtocolRuns.SyncTimesOut` | worker/tasks.py:826-827 | A sync that runs into its time limit is dropped at once, without a retry |
| `ProtocolRetries.FailingIngestIsTriedFourTimes` | worker/tasks.py:750-801 | However it is interleaved with keys and configuration, an ingest that keeps failing in ways that may be retried is, once nothing is left to do, attempted exactly four times less the retries it began with, and its job is failed |
| `ProtocolRetries.FailingRunExists` | worker/tasks.py:790-801 | Such a run to its end exists |
| `ProtocolRetries.CrashUndoesTake` | worker/celery_app.py:31 | A worker that dies on a delivery it has just taken leaves everything, the queue included, as it was |
| `ProtocolTagDrain.ChunksCarryLastWrite` | worker/tasks.py:804-830 | Over any interleaving of tag calls and syncs, a document's chunks carry exactly what the last sync written for it wrote, or what they carried at the start |
| `ProtocolTagDrain.AgreesExactlyWhen` | worker/tasks.py:804-830 | From any settled state, after any tag call, at every moment of any drain of its syncs, the chunks of an active document agree with its effective tags if and only if a sync of it was written, the call did not change them, or it has no chunk |
| `ProtocolTagDrain.DroppedSyncsLeaveStaleTags` | worker/tasks.py:826-830 | From any settled state, any tag call that changes the effective tags of an active document with a chunk can end with nothing queued and stale tags, by the time limit or by the retries |
| `ProtocolRuns.InvKept` | worker/tasks.py:756-830 | Every action keeps the whole invariant: identities, the running job's status, deletes, resumability and the tag copy |
| `ProtocolSafety.IdentitiesKept` | api/services/documents.py:198-265 | Every action keeps rows, deliveries and the held task consistent about which document and collection they belong to, and unconfirmed uploads free of jobs and chunks |
| `ProtocolDeletes.RunningJobKept` | worker/tasks.py:172-210 | The job of a claimed task is processing until it is marked done, through any interleaving |
| `ProtocolDeletes.FinalKept` | worker/tasks.py:833-873 | Every action keeps deleted documents erased, and keeps the running delete's progress facts true |
| `ProtocolResume.TodoRemains` | api/adapters/vector_store/pgvector.py:571-594 | The resume query leaves exactly the chunks not stored at the model, each once |
| `ProtocolResume.BatchShrinksRemaining` | worker/tasks.py:369-396 | Storing one batch turns exactly that batch's chunks from remaining to stored |
| `ProtocolResume.ResumableKept` | worker/tasks.py:346-396 | Every action keeps stored rows right and the running attempt's list of chunks to do exact |
| `ProtocolWork.StoredTextsFillGaps` | worker/tasks.py:369-396 | Over any run at one model, the number of texts stored plus the chunks still missing equals the chunks missing at the start |
| `ProtocolWork.EmbeddingWorkIsBounded` | worker/tasks.py:369-396 | All texts sent to the embedder, stored, cut off or still in flight at the end of the run, number at most the chunk count plus one batch per interrupted attempt, and one batch more only if the one in flight is at another model |
| `ProtocolSweeps.LineShrinks` | worker/tasks.py:963-1012 | No step puts a job in front of one that waits, and each sweep that passes it over takes a full batch from in front of it |
| `ProtocolSweeps.SweepFairness` | worker/tasks.py:963-1012 | A pending or rate-limited job with q jobs of its status no newer than it sees fewer than q / limit sweeps before it is re-enqueued, whatever else happens |
| `ProtocolSweeps.SweepFairnessFromAnywhere` | worker/tasks.py:963-1012 | The same from every reachable state |
| `ProtocolSweeps.ReenqueuedIsQueued` | worker/tasks.py:963-1012 | A job that a sweep re-enqueues has a delivery of its own on the queue |
| `ProtocolLiveness.DrainingTerminates` | worker/tasks.py:756-801 | With no 429, crash or new work, every step that changes anything lowers the measure built on the sum of (4 - retries) over the queued deliveries |
| `ProtocolLiveness.NeverStuck` | worker/tasks.py:756-801 | While anything is queued or running, some healthy step changes the state |
| `ProtocolLiveness.DrainExists` | worker/tasks.py:756-801 | From every invariant state a healthy run drains the queue |
| `ProtocolLiveness.DrainSettles` | worker/tasks.py:409-600 | A completed healthy drain leaves every job that was queued, running or settled done or failed, and every other job untouched |
| `ProtocolLiveness.RoundShrinks` | worker/tasks.py:1015-1056 | One sweep and its drain take a full batch, or all there are, out of each open status and put none in |
| `ProtocolLiveness.NoJobIsStranded` | worker/tasks.py:1015-1056 | Once the rounds have had room for all waiting jobs, however each drain went, every job is done or failed |
| `ProtocolLiveness.EveryJobSettles` | worker/tasks.py:1015-1056 | From every reachable state such rounds exist and settle every pending, stale processing or rate-limited job |
| `ProtocolTags.TagCopyKept` | api/services/tags.py:144-306 | Every action keeps the agreement between stored and effective tags, up to due, running or given-up syncs |
| `ProtocolTags.RetagKeeps` | api/services/tag_bridge.py:34-62 | A tag change that enqueues a sync for each document it can affect keeps the agreement |
| `Tags.MergeMovesAssignments` | api/services/tags.py:182-206 | After a merge an assignment holds exactly if it held, or held of the source and is now of the target; none of the source is left |
| `Tags.MergeElsewhere` | api/services/tags.py:190-206 | A merge changes no effective tags outside its workspace |
| `Tags.RenameElsewhere` | api/services/tags.py:144-167 | A rename changes no effective tags outside its workspace |
| `Tags.DeleteElsewhere` | api/services/tags.py:170-179 | Deleting a tag changes no effective tags outside its workspace |
| `Tags.CreateElsewhere` | api/services/tags.py:109-131 | Creating a tag changes no effective tags at all |
| `Tags.AttachElsewhere` | api/services/tags.py:237-306 | Assigning or unassigning changes effective tags only of documents under the target; `TagEffects` says what it does to those |
| `TagEffects.AttachExactly` | api/services/tags.py:237-242 | After assigning, an assignment holds exactly if it held or is the one assigned; no tag changes |
| `TagEffects.DetachExactly` | api/services/tags.py:245-249 | After unassigning, an assignment holds exactly if it held and is not the one unassigned; no tag changes |
| `TagEffects.CreateExactly` | api/services/tags.py:109-131 | A creation is refused exactly for an identifier in use or a name its workspace has; otherwise the tag is there under that name, attached nowhere, and the rest is as it was |
| `TagEffects.RenameExactly` | api/services/tags.py:144-167 | A rename is refused exactly for a tag the workspace has not or a name another tag of it has; otherwise that tag has the new name, the others keep theirs, and so do all assignments |
| `TagEffects.DeleteExactly` | api/services/tags.py:170-179 | A deletion takes exactly that tag and all its assignments |
| `TagEffects.MergeExactly` | api/services/tags.py:190-206 | A merge is refused exactly for equal tags or one the workspace has not; otherwise the source is gone, every other tag is as it was, and its assignments are the target's |
| `TagEffects.DropExactly` | worker/tasks.py:848-855 | Deleting a document takes exactly the assignments of its own row |
| `TagEffects.AcceptedExactly` | api/services/tags.py:109-306 | Each tag call goes through exactly when the tags, the workspace and the target it names exist there, the names are free and a tagged document is active; a refused call leaves the tables alone |
| `TagEffects.EffectiveAfterCall` | api/services/tags.py:109-306 | After each of the six calls a document carries exactly the names it keeps, renamed, merged, deleted or unassigned as the call says, and the one assigned to it or above it, all from the tables before the call |
| `TagEffects.EffectiveRows` | worker/tasks.py:218-252 | A name is effective exactly when some tag of that name is on the document, its collection or that collection's workspace |
| `IngestWorker.Backend.ClaimJob` | worker/tasks.py:180-210 | Claims exactly the rows that exist, are not done and are not processing with a heartbeat, setting them processing; otherwise changes no job; the queue is untouched |
| `IngestWorker.Backend.EffectiveDocumentTags` | worker/tasks.py:218-252 | Exactly the names of the tags that the rows put on the document, on its collection or on that collection's workspace |
| `IngestWorker.Backend.PendingChunks` | worker/tasks.py:362-368 | The chunks not stored at the current model, in order |
| `IngestWorker.Backend.EmbedAndStore` | worker/tasks.py:346-396 | A run of protocol steps in which every text sent was first admitted by the limiter; the counts shown start at the resume point, never fall and end at the chunk count; finishing with a positive batch size it sends exactly the missing chunks; cut short it keeps what it stored |
| `IngestWorker.Backend.EmbedBatches` | worker/tasks.py:376-395 | The batch loop: throttle, embed, upsert, count and show, until the list is used up or a call fails |
| `IngestWorker.Backend.Pipeline` | worker/tasks.py:505-595 | When it finishes the job is done with the right count and, for a positive batch size, every chunk is stored at its model |
| `IngestWorker.Backend.IngestDocument` | worker/tasks.py:750-801 | One delivery handled to its end is a run of the protocol that skips, finishes, is rate limited or errs, with the job status that goes with each; the delivery leaves the queue, and comes back with one more retry exactly when it erred, not terminally, with fewer than three retries |
| `IngestWorker.Backend.RecordRateLimit` | worker/tasks.py:651-680 | A 429 pauses embedding, drops the heartbeat, leaves that job alone rate limited, and enqueues nothing |
| `IngestWorker.Backend.RecordError` | worker/tasks.py:770-801 | Any other error fails the job and drops its heartbeat; the queue gains the delivery with one more retry exactly when the error is not terminal and it had fewer than three |
| `IngestWorker.Backend.StoreBatch` | worker/tasks.py:383-396 | Exactly the batch's rows are written, each with its parsed text, its vector at the model and the effective tags, a row already there keeping its collection; all others stay |
| `IngestWorker.Backend.RecordDone` | worker/tasks.py:578-595 | The job is done with the parsed count, and the document, if it is still there, records that count and the model |
| `IngestWorker.Backend.RequeueByStatus` | worker/tasks.py:963-1012 | Each returned row that is not visibly alive gets one more fresh delivery and the newest stamp; no other delivery is added and no other row changes |
| `IngestWorker.Backend.RetryRateLimitedIngests` | worker/tasks.py:1046-1056 | Nothing while embedding is paused, otherwise the three sweeps in order |
| `IngestWorker.Backend.SyncDocumentTags` | worker/tasks.py:804-830 | Without a fault exactly the document's chunks in its collection get exactly the effective tags and nothing else in the store changes; an error before or during the write redelivers the task with one more retry while it has had fewer than three, the time limit drops it, and neither changes a chunk |
| `IngestWorker.Backend.DeleteDocument` | worker/tasks.py:839-873 | A run of the protocol that takes exactly the document's row, jobs and chunks and, exactly when no document of it is left, the rest of the collection's chunks; chunks of a document with a row survive, and the queue is untouched |
| `ApiCalls.CreatePendingJob` | api/services/documents.py:237-265 | Inserts one pending job and dispatches it, or leaves it for the sweep when the broker is down |
| `ApiCalls.PersistAndEnqueue` | api/services/documents.py:198-234 | An upload inserts an active document row with its pending job and dispatches it when the broker is up |
| `ApiCalls.CreateUpload` | api/services/documents.py:404-442 | Reserves a hidden row without job or delivery exactly when the caller may write, the retention is none or 1 to 30 days, the type is supported and the storage can sign; 403 and 422 otherwise, 415 or 400 for the last two, with nothing changed |
| `ApiCalls.VerifyUploadedObject` | api/services/documents.py:122-158 | The upload is accepted exactly when the object is there, within the limit and its leading bytes, none for an empty object, pass the content check; one over the limit or failing the check is purged, a missing or vanished one is not |
| `ApiCalls.ConfirmUpload` | api/services/documents.py:445-493 | One guarded flip to active with one pending job, dispatched when the broker is up, exactly when the caller may write, the document awaits an upload and the upload is accepted; 403, 404, 409, 413 or 415 otherwise, with no row changed |
| `ApiCalls.ConfirmTwice` | api/services/documents.py:445-493 | A second confirmation answers 409 and changes nothing |
| `ApiCalls.ReprocessDocument` | api/services/documents.py:268-315 | Returns the newest job without changing anything when it is queued or running, otherwise creates and dispatches one; 404 and 409 change nothing |
| `ApiCalls.RequestDelete` | api/services/documents.py:696-727 | Tombstones, drops exactly the document's jobs and dispatches the delete; without a broker the row is active again and 503 answered; 404 changes nothing |
| `ApiCalls.Repoint` | api/services/tags.py:182-187 | The two statements leave exactly the repointed rows, with no collision on the primary key |
| `ApiCalls.MergeTags` | api/services/tags.py:190-206 | The merge with its syncs is the protocol's merge step; 422 for equal tags, 404 for one the workspace has not, with nothing changed |
| `ApiCalls.SyncRows` | api/services/tag_bridge.py:39-62 | One sync is enqueued for each active document selected, no more |
| `RpmLimiter.WindowStaysUnderLimit` | worker/tasks.py:309-339 | At every moment T the texts recorded in (T - 60, T] are at most the limit of the last admission, or are a single batch |
| `RpmLimiter.TailCoversWindow` | worker/tasks.py:322-325 | What the deque adds up to is at least what the trailing window holds |
| `RpmLimiter.RpmLimiter.Used` | worker/tasks.py:322-325 | Drops exactly what has left the window and adds up the rest |
| `RpmLimiter.RpmLimiter.Throttle` | worker/tasks.py:327-339 | Always returns, within 60.05 seconds of entry plus the time the clock readings took, having recorded the batch under the window rule; it does not sleep when the batch fits at once |
| `TokenBucket.SnapshotRemainingIsExact` | api/services/mcp/rate_limit.py:92-113 | Exactly `remaining` immediate calls pass and the next is refused |
| `TokenBucket.ResetIsTheLeastWait` | api/services/mcp/rate_limit.py:92-113 | A call passes after a wait if and only if the wait is at least the unrounded reset time |
| `TokenBucket.UserBudgetBound` | api/services/mcp/middleware.py:105-147 | Whatever keys are rotated and however limits change within R, any interval of d seconds lets through at most R + d R / 60 of the user's requests |
| `TokenBucket.OwnLimitBounds` | api/services/mcp/middleware.py:105-147 | The bound from the requests alone: if every authenticated request of the user carries the limit R, any interval of d seconds lets through at most R + d R / 60 of them, whatever the global limits, raw keys and other users |
| `TokenBucket.LimitInForceBounds` | api/services/mcp/middleware.py:105-147 | The same for limits that change or are inherited, as long as each in force is at most R |
| `TokenBucket.FullBucket` | api/services/mcp/rate_limit.py:71-90 | A new key, or one idle for a minute, lets through exactly as many immediate calls as its limit in force |
| `TokenBucket.OpPays` | api/services/mcp/middleware.py:116-137 | Guard and post-authentication block each lower the user's potential by at least what they let through for the user |
| `TokenBucket.Limiter.SetKeyLimit` | api/services/mcp/rate_limit.py:47-65 | Sets the key's limit when it is positive and clears it otherwise; no other limit and no bucket changes |
| `TokenBucket.Limiter.Allow` | api/services/mcp/rate_limit.py:71-90 | Allows exactly when the refilled, re-clamped bucket holds a token, and takes it |
| `TokenBucket.ShownResetIsClose` | api/services/mcp/rate_limit.py:112-113 | Half a millisecond after the rounded reset time a call passes, and more than half a millisecond before it none does |
| `TokenBucket.Limiter.Snapshot` | api/services/mcp/rate_limit.py:92-113 | Reads limit, remaining calls and the rounded reset time without changing the buckets |
| `TokenBucket.HandleRequest` | api/services/mcp/middleware.py:100-147 | One request is the raw-key guard and then, for a user, the post-authentication block; it is refused with 401, 429 or the resolver's status, or passed on; a user is shown their own limit if it is positive and the global one otherwise, with one call less for a new key, and only the raw key's and the user's entries change |
| `Crc.TableStep` | ui/src/lib/zip.ts:11-25 | Eight shifts of the register act on its low byte alone, and the rest moves right |
| `Crc.BuildTable` | ui/src/lib/zip.ts:11-19 | The table holds, for each byte, eight bit-steps of it |
| `Crc.Crc32` | ui/src/lib/zip.ts:21-25 | The table-driven checksum equals the bit-by-bit CRC-32 on every byte string |
| `Crc.CheckValue` | ui/src/lib/zip.ts:11-25 | The bit-by-bit form gives the published check value CBF43926 on the nine digits 123456789 |
| `Crc.OneByteChangeIsSeen` | ui/src/lib/zip.ts:21-25 | Two strings that differ in one byte never have the same checksum |
| `Zip.RecordBack` | ui/src/lib/zip.ts:27-29 | Little-endian fields that fit their widths read back to their values, whatever follows them |
| `Zip.ReadBack` | ui/src/lib/zip.ts:42-110 | A reader that starts from the end record, follows the recorded offsets and refuses any header whose version, flags, method, sizes or checksum disagree gets back exactly the names and bytes, for every list within the field limits |
| `Zip.LocalLayout` | ui/src/lib/zip.ts:54-67 | A local header byte by byte: signature, version 20, the UTF-8 flag, stored, checksum, both sizes, name length and name |
| `Zip.CentralLayout` | ui/src/lib/zip.ts:71-92 | A central header byte by byte, with the offset of its local header |
| `Zip.EndLayout` | ui/src/lib/zip.ts:96-105 | The end record byte by byte, with both counts, the directory's size and its offset |
| `Zip.LimitsAreNecessary` | ui/src/lib/zip.ts:70-105 | No byte string at all reads back to 65536 entries or more, or to a name or content too long for its field |
| `Zip.Concat` | ui/src/lib/zip.ts:31-39 | The parts end to end |
| `Zip.BuildZip` | ui/src/lib/zip.ts:42-110 | The one-pass writer with its running offset produces the specified archive, which reads back to the entries |
| `Expansion.MergeIntervals` | api/services/expansion.py:87-99 | The merged spans leave gaps between them and cover exactly what the windows cover |
| `Expansion.FitBudget` | api/services/expansion.py:59-84 | The two-ended loop computes the specified trimming, which `FitShrinks` and `FitSettled` determine |
| `Expansion.FitShrinks` | api/services/expansion.py:73-83 | Over the budget with an end that is no hit, the end dropped is the left one if it is no hit and the right one is a hit or no longer than it, otherwise the right one |
| `Expansion.FitSettled` | api/services/expansion.py:73-78 | Nothing is dropped from what fits, is one chunk, or has a hit at both ends |
| `Expansion.FitTrims` | api/services/expansion.py:59-84 | What is kept is one contiguous part with every hit in it that fits, is one chunk or has hits at both ends, and one more chunk would have been over the budget |
| `Expansion.SizeIsExact` | api/services/expansion.py:69-71 | The size the budget is checked against is the exact length of the text assembled |
| `Expansion.ExpandSpans` | api/services/expansion.py:102-181 | Returns the input untouched when there is nothing to expand, otherwise an expansion: ranks 1 to N, outputs in the order of the first hits they stand for, each span a longest run of places near a hit |
| `Expansion.PageRange` | api/services/expansion.py:44-52 | The lowest and the highest known page, unless all that is known is one page or nothing |
| `Expansion.BuildSpan` | api/services/expansion.py:184-207 | The fetched chunks of the span, trimmed, with their page range: the text holds the kept texts whole in ascending order of their indexes with one blank line between; the orphan hit when none was fetched |
| `Expansion.JoinedAt` | api/services/expansion.py:204 | In the joined text the j-th chunk's text stands after the texts before it and two characters for each, and those two are a blank line |
| `Expansion.TextIsInOrder` | api/services/expansion.py:184-207 | An output's text holds each kept chunk's stored text at its place, in strictly ascending order of index, with one blank line between and nothing else |
| `Expansion.KeptIsUnbroken` | api/services/expansion.py:84 | A stored chunk between two kept ones is kept |
| `Expansion.PassesOnce` | api/services/expansion.py:166-167 | A result that cannot be expanded comes out exactly once, with its own text |
| `Expansion.OutputsAreApart` | api/services/expansion.py:102-181 | Spans of one document in different outputs leave a gap |
| `Expansion.OutputsCover` | api/services/expansion.py:140-155 | The spans together cover exactly the places near a hit |
| `Expansion.NoChunkTwice` | api/services/expansion.py:165-181 | No stored chunk is used by two outputs |
| `Expansion.HitTextIsKeptOnce` | api/services/expansion.py:165-207 | The text of every stored hit is inside exactly one output, one that stands no later than the hit |
| `Expansion.BudgetIsMet` | api/services/expansion.py:59-84 | An assembled text fits the budget, is a single chunk, or has hits at both ends |
| `Expansion.ExpansionIsUnique` | api/services/expansion.py:102-207 | The inputs determine the expansion completely |
| `Permissions.ResolveScope` | api/services/permissions.py:172-206 | The dictionaries filled from the rows are the specified scope |
| `Permissions.ReadableMeans` | api/services/permissions.py:142-152 | A collection is readable exactly when it is granted itself, or its workspace is and no narrower grant lies in that workspace |
| `Permissions.ScopeListsTheReadable` | api/services/permissions.py:319-347 | The listed scope is exactly the existing collections the read gate lets through, and is unrestricted exactly when the gate lets everything through |
| `Permissions.FiltersMatchTheGate` | api/services/permissions.py:257-316 | Both id filters list exactly the candidates the gate would let through, each once, in the order of their first occurrences |
| `Permissions.DedupHas` | api/services/permissions.py:265 | The candidate list is freed of repetitions and of nothing else |
| `Permissions.FilterWorkspaceTree` | api/services/permissions.py:350-380 | Whole for the unrestricted; otherwise exactly the workspaces the gate lets the caller read, in order, each with exactly the collections it lets the caller read, in order and as often, their number and the sum of their documents; empty without a user |
| `Permissions.TreeShowsTheReadable` | api/services/permissions.py:350-380 | On elements: a workspace is listed if and only if it was and the gate opens it, a collection under it if and only if it was and the gate opens that |
| `Permissions.TotalAdds` | api/services/permissions.py:377 | The document total of two lists end to end is the sum of their totals |
| `PermissionGates.ReadCollectionMeans` | api/services/permissions.py:213-231 | By the rows alone: a user may read a collection when no row is a data grant, when one names it, or when one names its workspace and none lies inside that workspace |
| `PermissionGates.WriteCollectionMeans` | api/services/permissions.py:158-162 | Writing needs reading and a write grant at the nearest level that has a grant, the collection or its workspace |
| `PermissionGates.DocumentMeans` | api/services/permissions.py:233-254 | A document is readable by its own grant or with its collection, and writable when also the nearest grant on it, its collection or its workspace is a write grant |
| `PermissionGates.WorkspaceMeans` | api/services/permissions.py:429-449 | A workspace is readable when a grant is on it or on anything inside it, and writable by a write grant on it |
| `PermissionGates.OthersMean` | api/services/permissions.py:213-254 | The master key passes every gate, and a caller without a user none |
| `Permissions.WritableIsReadable` | api/services/permissions.py:213-254 | Write access to a collection, document or workspace implies read access |
| `Permissions.CollectionGrantEffect` | api/services/permissions.py:580-618 | A collection grant opens that collection and closes exactly its workspace's ungranted collections |
| `Permissions.DocumentGrantEffect` | api/services/permissions.py:580-618 | A document grant opens no collection and closes exactly its workspace's ungranted collections |
| `Permissions.WorkspaceGrantEffect` | api/services/permissions.py:580-618 | A workspace grant opens exactly that workspace's collections unless a narrower grant lies in it |
| `Permissions.DocumentGrantOpensOne` | api/services/permissions.py:233-254 | A document grant makes that document readable and no other |
| `Permissions.CapabilityGrantEffect` | api/services/permissions.py:57-64 | A capability grant changes no data access |
| `Permissions.HeldGranted` | api/services/permissions.py:580-618 | Granting sets the level held on the target and changes nothing else held |
| `Permissions.RevokeUndoesGrant` | api/services/permissions.py:681-691 | Revoking a new grant gives back the very table there was |
| `Permissions.GrantTable.GrantPermission` | api/services/permissions.py:580-618 | Inserts or re-levels in place, keeps targets unique, refuses a missing resource |
| `Permissions.GrantTable.RevokePermission` | api/services/permissions.py:681-691 | Removes exactly that grant, or reports that there is none |
| `ConfigFile.ConfigFiles.WriteConfig` | api/services/config_service.py:206-239 | After any number of file operations the disk is where the trace of the write says; completed, the file holds the new configuration and the backup the old one if it parsed; a file that is not UTF-8 makes it fail before anything is written |
| `ConfigFile.ConfigFiles.RestoreBackup` | api/services/config_service.py:281-285 | The same for the restore: completed, the file holds the backup if that can be read; the backup never changes |
| `ConfigFile.ConfigFiles.ApplyConfig` | api/services/config_service.py:288-355 | The same for a whole change, accepted or rejected |
| `ConfigFile.CrashSafeWhenSound` | api/services/config_service.py:206-239 | Every crash point of every change loads the configuration from before or the one being installed, if and only if the file is not empty-but-parsed or missing beside a usable backup |
| `ConfigFile.ConfigIsNeverLost` | api/services/config_env.py:36-65 | Over any sequence of changes, each accepted, rejected or cut anywhere, what is loaded is what was loaded at the start or was installed since, never empty if it was not |
| `ConfigFile.RejectedIsUndone` | api/services/config_service.py:349-355 | The exact states of file and backup from which a rejected change restores what was loaded before |
| `ConfigFile.AppliedIsLoaded` | api/services/config_service.py:206-239 | A completed change is loaded exactly when the old file was readable or already loaded as that |
| `Ordering.SortIsStable` | api/services/search.py:244-247 | Sorting is a permutation, highest key first, ties in arrival order |
| `RankFusion.SortTakesTurns` | api/services/search.py:238-247 | Sorting by reciprocal rank is taking turns among the collections |
| `RankFusion.MergeCollectionsRrf` | api/services/search.py:210-248 | The merge is the specified one, which `SoleListIsKept` and `SeveralTakeTurns` spell out |
| `RankFusion.SoleListIsKept` | api/services/search.py:231-237 | With one contributing collection the merge is its list: same order, same scores, ranks from 1 |
| `RankFusion.SeveralTakeTurns` | api/services/search.py:239-248 | With several, every result comes out once, by place and then by collection, scored 1 / (60 + place), ranks from 1 |
| `RankFusion.CutFirst` | api/services/search.py:125-182 | Cutting every collection to top_k before the merge never changes the merged top_k |
| `RankFusion.FairCut` | api/services/search.py:210-248 | A cut takes from collections that are not used up within one of each other |
| `RankFusion.UpdateTopKStats` | api/services/search.py:251-261 | Adds to each known collection's counter the number of results that carry it, and no counter appears |
| `RankFusion.ContributionsAreFair` | api/services/search.py:251-261 | The counters of a cut differ by at most one unless a collection ran out |
| `RankFusion.ContributionsSum` | api/services/search.py:251-261 | The contributions add up to the number of results |
| `RankFusion.AnswerSize` | api/services/search.py:458-462 | The answer has exactly top_k results, or everything there is |
| `RankFusion.MoreMeansFull` | api/services/mcp/tools.py:139-144 | When more is announced the answer holds exactly top_k results and strictly more exist |
| `RankFusion.MoreIsByPlace` | api/services/search.py:366-378 | With several collections more is announced exactly when the pool exceeds top_k and the last result was among the first seven of its collection |
| `RankFusion.MoreIsByScore` | api/services/search.py:366-378 | With one contributing collection more is announced exactly when it holds more than top_k and the last result scores at least nine tenths of a positive first |
| `Rerank.FiniteScores` | api/adapters/reranker/reorder.py:24-36 | Finite scores are kept, and every other becomes the lowest finite one, or zero when there is none |
| `Rerank.NewOrderIsStable` | api/adapters/reranker/reorder.py:97-105 | The new order lists every head position once, higher scores first, ties in their incoming order |
| `Rerank.RerankByScores` | api/adapters/reranker/reorder.py:39-105 | A failure of the provider or fewer than two results leaves them unchanged; otherwise the head comes out in the new order with the new scores, the tail follows as it was, ranks run from 1 |
| `Rerank.RerankPermutes` | api/adapters/reranker/reorder.py:97-105 | A successful rerank is a permutation of the incoming results |
| `Rerank.NotFiniteSinks` | api/adapters/reranker/reorder.py:24-36 | A text with no finite score precedes a scored one only on a tie with the lowest score, in incoming order |
| `Realtime.LastFrameIsLastPublished` | api/routers/ws.py:72-103 | Whatever the interleaving, at rest the last frame for a key is the last payload published for it, if visible; if and only if the hash did not hold the key when it was read and nothing was published for it since the subscription, no frame was sent for it |
| `Realtime.ReadExists` | api/routers/ws.py:76-84 | A client that replays or streams has read the hash at some step of the run |
| `Realtime.HashHolds` | api/services/realtime.py:49-54 | The hash holds a key exactly when it was published and the hash has not expired since, so a key is missed when an expiry fell between its last publication and the reading |
| `Realtime.FrameCanBeMissed` | api/services/realtime.py:49-54 | For any payload there is a run in which it is published, the hash expires, and a client that comes later is never sent it |
| `Realtime.RunKeeps` | api/services/realtime.py:35-54 | Every run keeps the hash current, the replayed snapshot right for keys silent since, and the frames equal to replay then stream |
| `Realtime.OnlyReadableFrames` | api/routers/ws.py:98-118 | A scoped client is only ever sent events of collections its read gate lets through |
| `Realtime.VisibleMeans` | api/routers/ws.py:98-118 | The filter shows an event if and only if the caller may read everything, or it names an existing collection the caller may read |
| `Realtime.FramesGoBackExactly` | api/routers/ws.py:72-103 | For every run and key, at rest the frames of the key went back in publication order if and only if, when the client read the hash, it held a visible event of the key and an older visible event of the key was waiting in the stream |
| `Realtime.FramesCanGoBack` | api/routers/ws.py:72-103 | For every client and every two payloads of a key it may see there is a run at rest in which the frames of the key went back |
| `LikeEscape.EscapedIsQuoted` | api/services/filters.py:30-36 | The three replacements, in their order, escape each special character of the term exactly once |
| `LikeEscape.QuotedMatches` | api/services/filters.py:30-36 | A quoted term matches itself and nothing else |
| `LikeEscape.PatternIsSubstring` | api/services/filters.py:30-36 | The pattern matches exactly the strings whose folded form contains the folded term |
| `Chunking.SlidingWindow` | api/services/ingestion.py:29-59 | For any window size: nothing for blank text, a refusal for an overlap as large as the window, short text whole, otherwise the specified windows decoded, trimmed and without those that come out blank |
| `Chunking.TextsMean` | api/services/ingestion.py:51-59 | The texts are those of the windows that do not come out blank, all of them, in order |
| `Chunking.TokenWindows` | api/services/ingestion.py:50-58 | The loop cuts the specified windows |
| `Chunking.WindowsReassemble` | api/services/ingestion.py:50-58 | With an overlap that is not negative the windows reassemble to the token list |
| `Chunking.WindowsChain` | api/services/ingestion.py:50-58 | Every window but the last is full and shares exactly the overlap with the next |
| `Chunking.TokensAreLost` | api/services/ingestion.py:42-58 | For text longer than a window, the windows hold enough tokens exactly when the overlap is not negative |
| `Chunking.CutsHold` | api/services/ingestion.py:50-58 | A position inside a window's slice is a token of one of the windows cut |
| `Chunking.EveryTokenIsKept` | api/services/ingestion.py:42-58 | For every window size, positive or not, and text longer than it, every token is in some window if and only if the overlap is not negative |
| `Chunking.PackParagraphs` | api/adapters/parsers/txt.py:51-87 | The loop is greedy packing; packed segments stay within the cap and only oversized paragraphs are windowed |
| `Chunking.GreedyIsValid` | api/adapters/parsers/txt.py:51-87 | Packing keeps every paragraph, in order |
| `Chunking.GreedyIsFewest` | api/adapters/parsers/txt.py:51-87 | No other way of cutting the paragraphs in order within the cap uses fewer segments |
| `Chunking.PushHeading` | api/adapters/parsers/pdf.py:84-87 | The popped and pushed stack is exactly the headings with no later heading of equal or smaller level |
| `Chunking.SectionSnoc` | api/adapters/parsers/pdf.py:84-87 | One more heading keeps, of the governing ones, those above it, and governs itself |
| `Chunking.SectionNests` | api/adapters/parsers/pdf.py:84-87 | The governing headings nest ever deeper and end with the last heading read |
| `PageSections.SectionMeans` | api/adapters/parsers/pdf.py:84-87 | By places: the section holds, in order, exactly the headings with no later one of an equal or smaller level |
| `PageSections.HeadingsMean` | api/adapters/parsers/pdf.py:147-173 | The k-th heading is the k-th numbered heading line, at that line's level; its title is the words of that line and, in order, of each later unnumbered heading line before the next numbered one that still fits 25 words |
| `PageSections.JoinedSnoc` | api/adapters/parsers/pdf.py:173 | Joining one more part puts it at the end, after the separator |
| `PageSections.PageChunkMeans` | api/adapters/parsers/pdf.py:84-116 | A page's chunk carries the level of the last heading read by the end of the page, the titles of the section there, and the page's text after them |
| `PageSections.PagesInOrder` | api/adapters/parsers/pdf.py:88-116 | Exactly the pages with text get a chunk, one each, in order |
| `Chunking.PageHeadings` | api/adapters/parsers/pdf.py:147-173 | The running loop finds one heading for each numbered heading line, in order, with the wrapped lines that follow it and still fit |
| `Chunking.WrappedStaysShort` | api/adapters/parsers/pdf.py:166-171 | No title outgrows the word limit, and each begins with its numbered line |
| `Chunking.ParsePages` | api/adapters/parsers/pdf.py:72-117 | One chunk per page with text, numbered without gaps, tagged with the titles and level of the headings that govern the end of its page and prefixed by them |

## Left out

- One worker runs one task at a time, and API calls are single steps; the claim commit and the first heartbeat are separate steps, so nothing is claimed about several workers.
- Lookups before the claim are taken to succeed; when they raise, the error handler overwrites even a done job.
- The embedder and the configuration an ingest captures are one consistent pair.
- Parsing is a fixed function of the document and chunk ids are injective; chunks beyond the end of a shorter later parse therefore do not arise.
- Time stamps of job rows grow strictly with each write; equal wall-clock stamps are not modelled.
- A delivery of a tag sync or delete task is never lost by the broker, and a tag change commits together with its enqueued syncs; a broker failure between the two is not modelled.
- The retention purge may enqueue a delete for any document row, which includes the expired ones.
- ProtocolLiveness.NoJobIsStranded: supposes that the provider no longer answers 429 and the worker no longer dies; embedding may still fail.
- ProtocolSweeps.SweepFairness: covers pending and rate-limited jobs only, because a live processing row keeps its sweep slot without moving to the back.
- ApiCalls.MergeTags: the other tag calls exist as steps of the protocol only; tag names arrive normalised and the sorted list is a set.
- Deleting collections and workspaces, reprocessing from the original, local-path ingestion and the presigned URLs themselves.
- A soft time limit raised after the done commit.
- TokenBucket.OwnLimitBounds: a request's raw key is taken not to be the user's budget key, which is built from the user's id.
- TokenBucket.Limiter.Snapshot: arithmetic is on real numbers, so the rounding to three decimals is of the exact value.
- RpmLimiter.RpmLimiter.Throttle: sleeps take exactly the time asked, time is real-valued.
- Zip.LimitsAreNecessary: says nothing about the total size of the headers and contents; `Fits` bounds it in `ReadBack`.
- Names and contents of ZIP entries are the bytes the UTF-8 encoder produced; the browser's blob is the byte string.
- Expansion.ExpandSpans: chunk indexes are not negative, and the fetch returns what is stored; a page range is a pair of numbers, its label text is left out.
- RankFusion.MoreIsByPlace: scores are real numbers; the vector and keyword search that ranks each collection is an input.
- Permissions: user ids and the management API's name lookups; every grant list is one user's.
- ConfigFile.CrashSafeWhenSound: a torn write is blank, unparseable or not UTF-8, never a shorter valid file; the live adapters and worker acknowledgements are left out.
- Realtime.LastFrameIsLastPublished: one publisher, which does not die between the hash and the channel; events without a snapshot key are left out; an event's serial number is added to tell publications apart; the client reads the hash in one step, after its subscription has taken effect.
- LikeEscape.PatternIsSubstring: case folding maps one character to one character.
- Chunking.SlidingWindow: the tokenizer, its decoder and the trimming of white space are parameters.
- Chunking.PackParagraphs: token counts of paragraphs are inputs, and the separators a packed segment adds are not counted, as in the source.
- Chunking.ParsePages: the layout of a page, the body size the heading size is measured against, and the Markdown parser.
- Secret masking, health checks, settings, the web interface, authentication and the SQL engine.
