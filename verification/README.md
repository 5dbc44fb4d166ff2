# Verified model of the TOBS export protocols

TOBS exports Telegram chats. Around its I/O it contains several hand-written concurrent protocols and
bounded data structures. This project models them in Dafny and proves what they promise, for every
schedule, every clock and every input.

asyncio is cooperative, so a protocol is a state machine whose events are the pieces of code between
two awaits. Each protocol module has

- a `State` (or `Pool`), the `Event`s, `Enabled` and `Step`, and `Run` over any sequence of enabled events;
- invariants, shown for one step and then for all runs;
- the promises as lemmas over all runs, with a work measure where termination is claimed;
- a class with the source's fields, whose methods are proved equal to `Step` on those fields.

Telegram, the clock, the disk, outcomes of callbacks and the foreign codecs are oracles: they are
parameters of the events or of the configuration, and nothing is assumed about them unless stated.

| file | source | content |
|---|---|---|
| `TaskPool.dfy` | `src/core/connection.py` | the self-resizing task pool over any number of semaphore generations |
| `Pipeline.dfy` | `src/export/pipeline.py` | fetcher, processors, reordering writer and the join/sentinel shutdown |
| `History.dfy`, `HotZones.dfy`, `ChunkFetch.dfy`, `ShardedFetch.dfy` | `src/telegram_sharded_client.py`, `src/hot_zones_manager.py` | chunk planning, backward pagination with adaptive splitting, work stealing, draining and sorting |
| `DownloadQueue.dfy` | `src/media/download_queue.py` | download tasks with retries, back-off and the global pause |
| `Prefetch.dfy` | `src/export/prefetch_processor.py` | batching producer, bounded queue, consumer, `stop` |
| `CacheCodec.dfy`, `Cache.dfy`, `CacheFile.dfy` | `src/core/cache.py` | value codecs, two evictions, and the cache file with its dirty mark |
| `Bloom.dfy`, `BufferedSaver.dfy` | `src/export/exporter.py` | byte-packed Bloom filter, buffered atomic writer |
| `Pagination.dfy` | `src/telegram_client.py` | forward pagination |
| `Markdown.dfy` | `src/note_generator.py` | escaping and quoting |
| `Counting.dfy` | | sums over sequences, used by the protocol proofs |

## Where the code falls short of its documentation

The model follows the code; each of these is a lemma.

- `DownloadQueue.DeadlockReachableIff`: with a bounded queue, workers that all wait to put a retry back
  block one another for ever. With at least one worker, n enqueued tasks can end so if and only if
  0 < `max_queue_size` <= n - workers.
- `Prefetch.StopOutcomeIff`: with nobody taking from the queue, `stop` hangs if the queue is full when
  the producer is cancelled. If the producer is just handling an iterator error in its put, `stop`
  raises that error, whether or not there is room (`RaisesDespiteRoom`); it then never drains the queue,
  and the consumer is never given None. A `stop` that returned also leaves whoever asks later waiting
  for ever (`StopStarvesConsumer`).
- `TaskPool.ScaleUpLowersPermitsIff`: scaling up lowers the permits of the current semaphore if and only
  if more tasks hold one than the pool grows by; a fully busy pool is left with at most two, and
  `ResizeLimitsForGood` shows that this lasts.
- `CacheFile.RestartIff`: a hit re-dates and moves its entry but does not mark the cache as changed, so a
  save after nothing but hits is skipped and a restart brings back the old dates, counts and order
  (`HitIsForgotten`). The cache comes back whole if and only if no key hit since is still alive and
  every entry alive is storable; values, keys and times to live come back anyway
  (`RestartKeepsValues`).
- `CacheFile.WriteDuringSaveIsLost`: a write while a save is under way is neither in the file nor marked.
- `CacheCodec.UnreadableStaysPacked`: a packed value that msgpack cannot read back, such as a map with
  integer keys, is returned still compressed.
- `Cache.KeyJustSetSurvivesIff`: going over the limit evicts one entry more than needed, so a full
  cache of size one drops the key it was just given.
- `CacheCodec.RoundTripIff`, `CacheCodec.GzippedBytesNeverReturn`: under gzip, compressed bytes never
  come back, and a text that is itself JSON comes back parsed.
- `HotZones.ChunkRespectsZoneIff`: a hot zone whose size equals the default chunk size is taken for no
  zone at all. `CoincidenceLengthensChunks` shows a chunk ten times too long; the iff says for every
  planned chunk whether it keeps to a zone's size.
- `HotZones.LowestSeverityNeverLearned`: the severity LOW and its size of 25000 are dead code.
- `BufferedSaver.ReplacementIsAtomicIff`: the old file is gone if it has been removed and the rename fails,
  is interrupted or is never reached. `TemporaryLeftIff` says when the temporary file stays behind.
- `ShardedFetch.WholeHistoryIff`: an export without `min_id` starts at the id of the oldest message and
  so drops that message; the history comes out whole if and only if a `min_id` below its oldest message
  is given.
- `ShardedFetch.ExportIsWholeIff`: a worker swallows its own exception, so the check of the consumer for a
  failed worker never fires and the export is silently incomplete, if and only if messages were lost.
- `ShardedFetch.ExportIsPlainScan`: an export with nothing to sort fails on its summary line.

## Model

| member | source | states |
|---|---|---|
| TaskPool.ConcurrencyBound | src/core/connection.py:184-285 | over any run of submissions, completions, failures and resizes, holders over all generations plus free permits of the current one never exceed `max_workers`, both task counters are exact, and no submission is lost |
| TaskPool.NeverWedges | src/core/connection.py:184-285 | every waiter of every generation waits behind as many permit holders as that generation was installed with, at least one, and an unfinished pool can always move |
| TaskPool.DrainsInMeasure | src/core/connection.py:184-218 | once submissions stop, every schedule takes exactly as many steps as work is in flight; a run is at rest, and has finished every task, if and only if it has taken that many |
| TaskPool.NoOvertaking | src/core/connection.py:184-218 | over any run, the tasks waiting on a generation are those that waited or joined, in that order, less the first ones, which were served |
| TaskPool.ResizeKeepsBoundIff | src/core/connection.py:269-285 | for any new size, the bound survives a resize if and only if the present holders fit that size |
| TaskPool.ShrinkingUnguardedBreaksBound | src/core/connection.py:259-285 | without the utilisation guard a reachable pool of three holders shrinks to two and breaks the bound |
| TaskPool.LowUtilizationLeavesPermits | src/core/connection.py:226-259 | a utilisation below 0.3, seen by a finishing task, leaves at least three free permits |
| TaskPool.ScalingInv | src/core/connection.py:220-267 | scaling keeps the whole invariant, only ever adds a generation and leaves the work in flight alone |
| TaskPool.ResizeInv | src/core/connection.py:269-285 | a resize above the permits in use keeps the invariant and installs a semaphore with at least one free permit |
| TaskPool.ResizeKeepsPermits | src/core/connection.py:269-285 | for any new size, the new semaphore has the free permits plus the difference of the sizes, at least none; growing lowers the permits if and only if more tasks hold one of the current semaphore than the pool grows by |
| TaskPool.ScaleUpLowersPermitsIff | src/core/connection.py:246-254 | the same for the scaling decision, which leaves at most two permits more than were free |
| TaskPool.ResizeLimitsForGood | src/core/connection.py:269-285 | in every run after a resize up to the next, once the older tasks are done, no more tasks hold permits than the resize kept |
| TaskPool.SizeStaysInRange | src/core/connection.py:246-262 | scaling stays between 2 and 20, or where the pool started outside that range |
| TaskPool.SizeAfter | src/core/connection.py:220-267 | an event changes the size if and only if a successful, cooled finish of a scaling pool finds, in integers, either size < 20, times not degraded, active > 4 * free permits and queued > 2 * active (two more, at most 20), or size > 2, 7 * active < 3 * free permits and 2 * queued < active (one less) |
| TaskPool.OutcomesCounted | src/core/connection.py:194-216 | completed and failed tasks are the successful and failed finishes of the run |
| TaskPool.AdaptiveTaskPool.constructor | src/core/connection.py:164-182 | a new pool is the initial state |
| TaskPool.AdaptiveTaskPool.SubmitTask | src/core/connection.py:184-191 | a submission takes a permit of the current semaphore or queues on it |
| TaskPool.AdaptiveTaskPool.ResumeTask | src/core/connection.py:188-191 | a task that was handed a permit starts |
| TaskPool.AdaptiveTaskPool.FinishTask | src/core/connection.py:193-218 | a finish counts its outcome, may scale, and returns the permit to the generation it came from |
| TaskPool.AdaptiveTaskPool.ScalePool | src/core/connection.py:220-267 | the scaling decision |
| TaskPool.AdaptiveTaskPool.ResizePool | src/core/connection.py:269-285 | the loop that takes permits off the new semaphore leaves what the specification carries over |
| Pipeline.FinishedRunIsSequential | src/export/pipeline.py:119-319 | for every schedule, a finished run has called the writer with exactly the values of the sequential map and filter in fetch order, its buffer is empty, `expected_seq` is `last_seq + 1`, and processed, errors, None results and writer failures add up to `last_seq` |
| Pipeline.CallsArePrefix | src/export/pipeline.py:195-247 | at every moment, also of an aborted run, the writer calls are the values of a prefix of the fetched messages |
| Pipeline.EveryRunFinishes | src/export/pipeline.py:263-319 | with a processor, or nothing to process, every run is short and one that cannot move has returned, for any queue bounds |
| Pipeline.NoProcessorNeverFinishes | src/export/pipeline.py:255-269 | without a processor a run with a message never returns |
| Pipeline.AlwaysMoves | src/export/pipeline.py:119-284 | no reachable unfinished state is a deadlock |
| Pipeline.SentinelsComeLast | src/export/pipeline.py:266-284 | `task_done` never outruns `put`, a processor stop is queued only when no message is queued or held, and the writer stop is the last item with all processors gone |
| Pipeline.QueuesStayBounded | src/export/pipeline.py:98-106 | in every run neither queue holds more than its bound |
| Pipeline.StepLocated | src/export/pipeline.py:119-247 | every event keeps each fetched message in exactly one place |
| Pipeline.StepOrdered | src/export/pipeline.py:204-243 | every event keeps the writer's calls and count equal to the sequential result on the flushed prefix |
| Pipeline.StepErrors | src/export/pipeline.py:168-186 | every event keeps failures either counted or still ahead of the writer queue |
| Pipeline.StepPhased | src/export/pipeline.py:263-284 | every event keeps what each phase of the shutdown guarantees |
| Pipeline.StepWorks | src/export/pipeline.py:119-284 | every event reduces the remaining work |
| Pipeline.AsyncPipeline.constructor | src/export/pipeline.py:98-110 | a new run is the initial state |
| Pipeline.AsyncPipeline.PutMessage | src/export/pipeline.py:125-139 | a fetched message is numbered and queued |
| Pipeline.AsyncPipeline.EndFetch | src/export/pipeline.py:140-144 | the end of the fetch fixes `last_seq` |
| Pipeline.AsyncPipeline.GetJob | src/export/pipeline.py:152-166 | a processor takes the next message, or exits on a stop |
| Pipeline.AsyncPipeline.EndProcess | src/export/pipeline.py:168-170 | `process_fn` returns or raises |
| Pipeline.AsyncPipeline.PutResult | src/export/pipeline.py:170-186 | the result or failure marker is queued, a failure counted, and the message marked done |
| Pipeline.AsyncPipeline.GetResult | src/export/pipeline.py:204-218 | the writer buffers the next result, or closes on its stop |
| Pipeline.AsyncPipeline.FlushNext | src/export/pipeline.py:220-240 | the expected result is popped and written, skipped, or counted as failed |
| Pipeline.AsyncPipeline.EndFlush | src/export/pipeline.py:242-242 | the writer marks the item done and waits again |
| Pipeline.AsyncPipeline.Orchestrate | src/export/pipeline.py:263-284 | the orchestrator's next step through the shutdown sequence |
| History.BetweenSplit | src/telegram_sharded_client.py:970-1018 | a history window splits at any of its own messages |
| History.SortedUnique | src/telegram_sharded_client.py:1628-1628 | a sorted rearrangement of an ascending list is that list |
| History.SortedPart | src/telegram_sharded_client.py:1628-1628 | sorting part of an ascending list gives a strictly ascending list of its members |
| HotZones.PlanPartitions | src/telegram_sharded_client.py:1509-1543 | the plan is a strictly increasing partition of the id range into nonempty chunks |
| HotZones.ChunkLength | src/telegram_sharded_client.py:1509-1543 | every planned chunk is as long as the size dictated at its start, or the size of the density's band if none is or it equals the default, or as what remains of the range if that is less |
| HotZones.HotSizeIsLeast | src/hot_zones_manager.py:272-302 | a dictated size is the least of the zones of the datacenter that overlap the remaining range, and none is dictated only without such a zone |
| HotZones.OverlapsIff | src/hot_zones_manager.py:61-63 | two ranges overlap if and only if they have an id in common, ends included |
| HotZones.PartitionContents | src/telegram_sharded_client.py:1509-1543 | the chunks hold every message of the range, each once |
| HotZones.ChunkRespectsZoneIff | src/telegram_sharded_client.py:1509-1543 | a planned chunk that overlaps a zone of its datacenter is no longer than the zone's size if and only if the smallest size dictated at its start differs from the default, or the density-based size, or the remaining range, is no longer than that |
| HotZones.ChunksRespectZones | src/hot_zones_manager.py:272-322 | so if no zone of the datacenter has the default size, no chunk is longer than the size of any zone of that datacenter it overlaps |
| HotZones.CoincidenceLengthensChunks | src/telegram_sharded_client.py:1517-1521 | a zone whose size equals the default gets chunks ten times its size |
| HotZones.HotSizesAscendAlongPlan | src/hot_zones_manager.py:289-299 | sizes dictated by hot zones never decrease along the plan, and once none applies none does again |
| HotZones.LearnedChunksArePlannedShort | src/hot_zones_manager.py:430-508 | after a slow chunk in unknown territory is analysed, a size of at most 15000 is known there, and a planned chunk that overlaps it keeps to that size if and only if the smallest size dictated at its start is not the default, or the density-based size or the rest of the range is no longer |
| HotZones.LearnedZone | src/hot_zones_manager.py:453-504 | a zone is added if and only if none overlaps and the chunk took more than 10 s or is denser than 150; it covers the chunk with its time and density as first observation, and is CRITICAL with 5000 above 60 s or 180, else HIGH with 10000 above 20 s or 150, else MEDIUM with 15000 |
| HotZones.SlowerNeverLonger | src/hot_zones_manager.py:474-490 | a slower and denser chunk never teaches longer chunks |
| HotZones.DensityPerThousand | src/hot_zones_manager.py:447-449 | density times span is a thousand times the messages, or zero for an empty span |
| HotZones.LowestSeverityNeverLearned | src/hot_zones_manager.py:474-504 | whatever slow chunks are analysed, no zone with the lowest severity or a size above 15000 is ever learned |
| HotZones.LearnedMeans | src/hot_zones_manager.py:455-468 | over any sequence of analysed chunks, latency and density of a zone are the means over all its observations: mean times count is the starting total plus the sum over exactly the chunks that overlapped it |
| HotZones.ZonesForRangeMembers | src/hot_zones_manager.py:304-322 | the zones of a range are exactly those of the datacenter that overlap it |
| HotZones.HotZonesManager.AnalyzeAndUpdate | src/hot_zones_manager.py:430-508 | the in-place update of zones is the specified learning |
| HotZones.HotZonesManager.PlanChunks | src/telegram_sharded_client.py:1499-1543 | the planning loop fills the task queue with the plan, a partition of the range |
| ChunkFetch.EmitsExactly | src/telegram_sharded_client.py:957-1128 | whatever the clock says, a chunk fetch emits every message of `(start, end]` exactly once |
| ChunkFetch.PartsEmitExactly | src/telegram_sharded_client.py:1083-1110 | the sub-fetches emit exactly the discarded range up to their last cut |
| ChunkFetch.FetchesBounded | src/telegram_sharded_client.py:1055-1113 | with r retries at most (4^(r+1) - 1) / 3 chunk fetches happen |
| ChunkFetch.SplitsIff | src/telegram_sharded_client.py:1055-1060 | a chunk is fetched in parts if and only if its fetch is slow, it spans more than 1000 ids and retries are left; otherwise one fetch emits the window |
| ChunkFetch.SplitEmitsQuarters | src/telegram_sharded_client.py:1083-1110 | a split emits its four quarters in order, the last with the rest, each with one retry less |
| ChunkFetch.PageBack | src/telegram_sharded_client.py:968-1018 | one page extends the buffer without gap or repetition, and a short page reaches the start |
| ChunkFetch.Worker.CollectBuffer | src/telegram_sharded_client.py:968-1018 | backward pagination collects the window, newest first, in one request more than it has full hundreds |
| ChunkFetch.Worker.StreamBuffer | src/telegram_sharded_client.py:1116-1128 | streaming puts the buffer on the queue in order and counts it once |
| ChunkFetch.Worker.Put | src/telegram_sharded_client.py:40-43 | a put appends and counts |
| ChunkFetch.Worker.FetchChunkStreaming | src/telegram_sharded_client.py:957-1128 | what is put on the queue is what the fetch emits, `message_count` and `stats["messages"]` both grow by exactly that number, and every split costs four more fetches |
| ShardedFetch.PlannedExportIsPlainScan | src/telegram_sharded_client.py:1509-1640 | planned by the hot-zone planner, a completed failure-free export yields exactly the messages of `(effective_min, max_id]`, ascending and duplicate-free, for any bounds, any interleaving and any slow/fast verdicts |
| ShardedFetch.WholeHistoryIff | src/telegram_sharded_client.py:1323-1396 | from the oldest to the newest message: without `min_id` the export is the history less its oldest message, or fails if there is no other, and it is the whole history if and only if a `min_id` below the oldest message is given |
| ShardedFetch.ExportIsPlainScan | src/telegram_sharded_client.py:602-666 | the same for any partition into chunks; an empty range ends in the error of the summary line |
| ShardedFetch.ExportIsAscendingPart | src/telegram_sharded_client.py:660-666 | with worker failures the result is still strictly ascending and part of the range |
| ShardedFetch.ExportIsWholeIff | src/telegram_sharded_client.py:602-666 | in any completed run, what was collected, lost with failed workers and left in untaken chunks makes up the range exactly; the export is the plain scan if and only if nothing was lost and the chunks left are empty, and chunks are left only if every worker failed |
| ShardedFetch.QueuesDeliverInOrder | src/telegram_sharded_client.py:33-71 | queues are FIFO, and a queue the consumer has left delivered exactly its `message_count` messages |
| ShardedFetch.QueuesStayBounded | src/telegram_sharded_client.py:33-43 | in every run no queue holds more than its bound |
| ShardedFetch.EveryRunDrains | src/telegram_sharded_client.py:1587-1623 | every run is bounded, and one that cannot continue without a failure has drained every queue |
| ShardedFetch.AlwaysMoves | src/telegram_sharded_client.py:1587-1623 | draining bounded queues one after another never deadlocks |
| ShardedFetch.StepPlaces | src/telegram_sharded_client.py:602-666 | every event keeps each message in one place: an untaken chunk, a worker, its queue, collected, or lost |
| ShardedFetch.ShardedExport.constructor | src/telegram_sharded_client.py:1552-1585 | a new export is the initial state |
| ShardedFetch.ShardedExport.TakeChunk | src/telegram_sharded_client.py:602-634 | a worker takes the next chunk or quits |
| ShardedFetch.ShardedExport.PutMessage | src/telegram_sharded_client.py:1120-1123 | a worker puts its next message |
| ShardedFetch.ShardedExport.FailWorker | src/telegram_sharded_client.py:660-666 | an exception finishes the worker and loses the rest of its chunk |
| ShardedFetch.ShardedExport.Collect | src/telegram_sharded_client.py:1594-1617 | one turn of the consumer: a message, the next queue, or nothing yet |
| DownloadQueue.TasksConserved | src/media/download_queue.py:250-278 | in every run each task is in exactly one place, `total_queued` is completed plus failed plus live, no task exceeds three attempts, and one that met a server error has failed and is nowhere queued |
| DownloadQueue.TerminalAbsorbs | src/media/download_queue.py:457-618 | nothing about a settled task changes again |
| DownloadQueue.StuckIff | src/media/download_queue.py:429-618 | with live tasks and a worker, the system is stuck if and only if all workers wait to put a retry back, the queue is full and nothing is paused |
| DownloadQueue.FewTasksNeverStick | src/media/download_queue.py:590-598 | fewer live tasks than slots plus workers, or an unbounded queue, rule the deadlock out |
| DownloadQueue.DeadlockReachableIff | src/media/download_queue.py:250-278 | with at least one worker, some schedule of n enqueued tasks ends stuck with live tasks if and only if 0 < `max_queue_size` <= n - workers |
| DownloadQueue.RequeueNeverBlocks | src/media/download_queue.py:597-598 | with an unbounded queue or no more live tasks than slots, putting a retry back never blocks |
| DownloadQueue.DrainsCompletely | src/media/download_queue.py:429-618 | under that condition a run of work events is bounded, and one that cannot continue has settled every task |
| DownloadQueue.WorkIsBounded | src/media/download_queue.py:429-618 | without new tasks only idle waits can go on for ever |
| DownloadQueue.RetriesIff | src/media/download_queue.py:570-588 | a failed attempt is retried if and only if attempts remain and it was no server error; the third condition never matters |
| DownloadQueue.AttemptOutcome | src/media/download_queue.py:480-618 | a success completes the task, a timeout or server error fails it for good, and any other error sends it to back-off on its first two attempts and fails it on the third; nothing else changes |
| DownloadQueue.OutcomesCounted | src/media/download_queue.py:480-618 | over every run, `total_completed` grows by the successes, and `total_failed` by the timeouts, the server errors and the other errors on a third attempt |
| DownloadQueue.AttemptsCounted | src/media/download_queue.py:457-461 | a task's attempts are the times it was taken from the queue |
| DownloadQueue.QueueIsFifo | src/media/download_queue.py:273-278 | over every run, retries included, the queue is what was there and what was put since, in order, less as many from the front as were taken |
| DownloadQueue.QueueStaysBounded | src/media/download_queue.py:155-157 | in every run the queue holds no more than its bound |
| DownloadQueue.PausesIff | src/media/download_queue.py:374-401 | how each event moves the running count of server errors, and that downloads pause exactly when an error brings it to the threshold and resume only by the timer |
| DownloadQueue.PausedAtThreshold | src/media/download_queue.py:374-391 | without a success or an ended pause, downloads are paused if and only if there were as many server errors as the threshold, and one at least |
| DownloadQueue.PauseHoldsWorkers | src/media/download_queue.py:433-438 | during a pause a worker at the top of its loop stays there |
| DownloadQueue.ServerErrorsCounted | src/media/download_queue.py:374-378 | Telegram errors are counted once globally and once on the task they struck |
| DownloadQueue.StepPlaces | src/media/download_queue.py:250-278 | every event keeps the number of places of every task |
| DownloadQueue.MediaDownloadQueue.constructor | src/media/download_queue.py:127-176 | a new queue is the initial state |
| DownloadQueue.MediaDownloadQueue.AddTask | src/media/download_queue.py:256-271 | a new task is registered and counted before its put |
| DownloadQueue.MediaDownloadQueue.PutTask | src/media/download_queue.py:273-278 | the new task enters the queue |
| DownloadQueue.MediaDownloadQueue.CheckPause | src/media/download_queue.py:433-438 | a worker goes on only when not paused |
| DownloadQueue.MediaDownloadQueue.WaitForTask | src/media/download_queue.py:440-461 | the timed wait starts an attempt on the next task, or times out |
| DownloadQueue.MediaDownloadQueue.EndAttempt | src/media/download_queue.py:480-618 | an attempt ends in completion, failure, or a retry |
| DownloadQueue.MediaDownloadQueue.NoteServerError | src/media/download_queue.py:374-391 | a server error is counted and may pause downloads |
| DownloadQueue.MediaDownloadQueue.RetryOrFail | src/media/download_queue.py:570-612 | the retry decision and its two outcomes |
| DownloadQueue.MediaDownloadQueue.PutBack | src/media/download_queue.py:597-601 | the retry re-enters the queue |
| DownloadQueue.MediaDownloadQueue.EndPause | src/media/download_queue.py:393-401 | the end of a pause lowers the running count by two, not below zero |
| Prefetch.NoneMeansComplete | src/export/prefetch_processor.py:121-216 | when None arrives from an unfailed, unstopped producer, the consumer has received exactly the batching of all messages that were not skipped |
| Prefetch.DeliveredIsPrefix | src/export/prefetch_processor.py:121-216 | in every run the delivered batches concatenated are a prefix of the messages to keep, none is empty, and all but the last are full |
| Prefetch.BatchingIsUnique | src/export/prefetch_processor.py:133-153 | full batches followed by at most one shorter one are the only batching of their messages |
| Prefetch.StopOutcomeIff | src/export/prefetch_processor.py:163-238 | in every run, for every continuation in which nobody takes from the queue: `stop` on an unfinished producer returns if and only if the queue has a free slot at the cancellation and no iterator error is being handled, raises if and only if one is, and hangs otherwise |
| Prefetch.RaisesDespiteRoom | src/export/prefetch_processor.py:172-182 | a consumer that makes room and calls `stop` before the handler of an iterator error runs again still makes `stop` raise |
| Prefetch.HandlerWaitsIff | src/export/prefetch_processor.py:121-180 | with a bounded queue, some run leads the handler of an iterator error to a full queue if and only if the messages that are not skipped fill `queue_size` batches |
| Prefetch.ConsumerFreesStop | src/export/prefetch_processor.py:186-238 | in every run, a `stop` that awaits the producer can be brought on, if need be by a consumer that takes a batch |
| Prefetch.StopStarvesConsumer | src/export/prefetch_processor.py:172-238 | once `stop` has returned, nothing moves any more; once it has raised, nothing is drained, no sentinel is queued, and the consumer is never given None |
| Prefetch.StopBeforeStart | src/export/prefetch_processor.py:218-231 | a `stop` before the producer task first ran ends it without a trace: nothing is read or queued, whatever follows |
| Prefetch.ConsumerIsServed | src/export/prefetch_processor.py:186-216 | until given None or `stop` is called, a consumer is never left waiting for ever |
| Prefetch.EveryRunEnds | src/export/prefetch_processor.py:121-238 | every run ends within four events a message and ten more |
| Prefetch.PrefetchBatchProcessor.constructor | src/export/prefetch_processor.py:68-100 | a new processor is the initial state |
| Prefetch.PrefetchBatchProcessor.Start | src/export/prefetch_processor.py:121-124 | the producer task runs for the first time |
| Prefetch.PrefetchBatchProcessor.GoToPut | src/export/prefetch_processor.py:133-160 | the producer reaches a put and sleeps there if the queue is full |
| Prefetch.PrefetchBatchProcessor.ReadOn | src/export/prefetch_processor.py:124-151 | the next message is skipped or batched, or the input ends |
| Prefetch.PrefetchBatchProcessor.PutCurrent | src/export/prefetch_processor.py:133-153 | the current batch is queued and a new one begun |
| Prefetch.PrefetchBatchProcessor.PutNone | src/export/prefetch_processor.py:155-182 | the sentinel is queued |
| Prefetch.PrefetchBatchProcessor.IteratorRaises | src/export/prefetch_processor.py:172-180 | an iterator error leads to the sentinel |
| Prefetch.PrefetchBatchProcessor.GetNextBatch | src/export/prefetch_processor.py:186-216 | the consumer takes the next item in order |
| Prefetch.PrefetchBatchProcessor.CancelProducer | src/export/prefetch_processor.py:218-231 | the cancellation sends the producer to its sentinel, ends one that never ran, and makes `stop` raise if it meets the handler of an iterator error |
| Prefetch.PrefetchBatchProcessor.DrainQueue | src/export/prefetch_processor.py:224-238 | once the producer is done, also if `stop` found it so, `stop` empties the queue and returns |
| CacheCodec.RoundTripIff | src/core/cache.py:199-285 | decompressing a compressed value gives it back if and only if it was stored plain, or is under gzip a text that is not JSON or a JSON-normal object, or is read back unchanged by msgpack |
| CacheCodec.StoredIff | src/core/cache.py:199-246 | how a value is stored follows from the lengths of its bytes: zipped under gzip if they reach the threshold and more than a tenth is saved, packed and zipped under msgpack if they reach it, else plain |
| CacheCodec.UnreadableStaysPacked | src/core/cache.py:272-283 | a packed value that msgpack cannot read is returned still compressed |
| CacheCodec.GzippedBytesNeverReturn | src/core/cache.py:208-271 | bytes that gzip compresses never come back as they were |
| Cache.StrategiesAgree | src/core/cache.py:287-377 | under a strictly rising clock, from any cache loaded in order, the LRU dictionary stays ordered by last access and both strategies hold the same entries at every moment, unless a TTL cache without a default time to live runs its clean-up, which no other strategy then does |
| Cache.EvictionsAgree | src/core/cache.py:354-377 | popping the oldest entries and deleting after a sort by last access remove the same entries |
| Cache.ByAccessIsLruOrder | src/core/cache.py:361-375 | sorting any arrangement of the entries by last access gives the LRU order |
| Cache.AnswersAgree | src/core/cache.py:287-316 | under the same conditions both strategies answer every lookup alike |
| Cache.SetRespectsLimit | src/core/cache.py:340-377 | after every `set` the size is at most `max_size` |
| Cache.EvictShape | src/core/cache.py:354-377 | eviction keeps only entries it was given and cuts an overfull cache to one below the limit |
| Cache.KeyJustSetSurvivesIff | src/core/cache.py:318-377 | the key just set survives if and only if nothing had to be evicted or the limit is at least two |
| Cache.LifetimeIff | src/core/cache.py:287-352 | after a `set` and no later one of the key, a lookup answers none once more than its time to live, or else the default, has passed, however often it was hit; until then, or for ever without one, it answers if and only if the entry survived its `set` and was neither deleted nor evicted; birth, date and count are those of the `set` and the hits |
| Cache.GoneIff | src/core/cache.py:180-197 | other than by `set`, an entry goes if and only if its key is deleted, or it has run out and is looked up or cleaned up |
| Cache.PlaceOrder | src/core/cache.py:309-347 | under LRU a key goes to the end; otherwise a known key keeps its place and a new one follows |
| Cache.HitReturnsLastSetIff | src/core/cache.py:287-352 | from any loaded cache, after any operations: a hit returns the last value set for its key if and only if the codec brings that value back, and what was loaded for the key if none was set |
| CacheFile.RestartIff | src/core/cache.py:287-578 | from any start, after any operations and saves that leave the cache unmarked, a load restores exactly the unexpired entries in order if and only if no key hit since the last write is still alive and every entry alive is bytes or JSON-normal |
| CacheFile.RestartKeepsValues | src/core/cache.py:398-578 | in any such case the same keys come back, with creation time, time to live, and the stored value where it is storable |
| CacheFile.SnapshotRestoresIff | src/core/cache.py:547-578 | a written snapshot loaded into an empty cache restores exactly the unexpired entries in order if and only if every entry alive at the save can be written and every one alive at the load is bytes or JSON-normal |
| CacheFile.HitIsForgotten | src/core/cache.py:304-312 | after any actions that leave the cache unmarked, a hit on a live key and a save, a restart does not give the cache back |
| CacheFile.SaveDuringIff | src/core/cache.py:527-573 | a save with operations under way equals one before them if and only if it writes nothing or none of them marks the cache |
| CacheFile.WriteDuringSaveIsLost | src/core/cache.py:550-573 | a value set during a save leaves the cache unmarked and is not brought back |
| CacheFile.HitAcrossRestartIff | src/core/cache.py:287-578 | across a restart of an unmarked cache, a hit returns the last value set before or after it if and only if the codec brings that value back, provided the stored value is storable, and what was first loaded if none was set |
| CacheFile.CacheManager.GetValue | src/core/cache.py:287-316 | lookup, expiry, re-dating, which counters move, and that a hit leaves the mark alone |
| CacheFile.CacheManager.SetValue | src/core/cache.py:318-352 | assignment, reordering, eviction with its count, and the mark |
| CacheFile.CacheManager.EvictIfNeeded | src/core/cache.py:354-377 | both eviction loops realise the specified eviction and count every entry they remove |
| CacheFile.CacheManager.DeleteKey | src/core/cache.py:379-387 | deletion, its counter and the mark |
| CacheFile.CacheManager.constructor | src/core/cache.py:92-128 | a new manager is empty and unmarked |
| CacheFile.CacheManager.CleanUpExpired | src/core/cache.py:180-197 | the periodic clean-up removes and counts exactly the expired entries, and marks the cache if there were any |
| CacheFile.CacheManager.SaveCache | src/core/cache.py:527-578 | a save writes the snapshot if the cache is marked and every entry can be written, and nothing otherwise |
| CacheFile.CacheManager.LoadCache | src/core/cache.py:398-453 | the load of an empty manager brings back the unexpired entries of the file |
| Bloom.SetBit | src/export/exporter.py:99-106 | or-ing one mask into one byte adds exactly that bit index and clears nothing |
| Bloom.MaskIsShift | src/export/exporter.py:99-106 | the mask of a bit is one shifted by its offset |
| Bloom.PositionsIff | src/export/exporter.py:94-105 | an item's positions are its hashes with each seed, modulo the size |
| Bloom.BloomFilter.constructor | src/export/exporter.py:82-92 | a new filter has no bit set |
| Bloom.BloomFilter.InRange | src/export/exporter.py:94-105 | every byte index is inside the array |
| Bloom.BloomFilter.Add | src/export/exporter.py:99-106 | an addition sets exactly the item's positions |
| Bloom.BloomFilter.Contains | src/export/exporter.py:108-116 | an item is reported if and only if all its positions are positions of items added; an added item always is |
| Bloom.BloomFilter.ToDict | src/export/exporter.py:132-139 | the saved form holds the filter's numbers and, decoded, the bits of exactly the items added |
| Bloom.BloomFilter.FromDict | src/export/exporter.py:141-150 | the restored filter stands for the same items |
| Bloom.RoundTripKeepsItems | src/export/exporter.py:99-150 | no false negative after any additions with a save and restore between them |
| BufferedSaver.ReplacementIsAtomicIff | src/export/exporter.py:362-394 | at every moment of the exit, whatever fails, is interrupted or crashes, the target is the old file or the whole new one if and only if it is not the case that an existing file was removed and the rename has not happened |
| BufferedSaver.TemporaryLeftIff | src/export/exporter.py:362-394 | after the exit the temporary file is left if and only if the flush or the close was not done, or the operation that should have moved or removed it had no effect |
| BufferedSaver.QuietExitReplaces | src/export/exporter.py:362-394 | a block without exception whose exit raises nothing has put the whole new file in place, and `_finalized` is set only then |
| BufferedSaver.AsyncBufferedSaver.constructor | src/export/exporter.py:343-360 | an empty temporary file; the target is untouched |
| BufferedSaver.AsyncBufferedSaver.Write | src/export/exporter.py:396-400 | file plus buffer grow by exactly the data, and the file is written if and only if the buffer reaches its bound |
| BufferedSaver.AsyncBufferedSaver.Flush | src/export/exporter.py:402-412 | the buffer moves to the file |
| BufferedSaver.AsyncBufferedSaver.Close | src/export/exporter.py:362-394 | what becomes of target and temporary file, and whether the exit raises, for every outcome, interruptions included, of its five operations |
| Pagination.FetchMessages | src/telegram_client.py:576-661 | for any batch size, any placement of service messages and any request failures, the loop makes requests that fail less than three times, raises if and only if the next one is due and fails three times, and has yielded what the requests brought: all that was wanted, unless it raises; it terminates |
| Pagination.PagesBring | src/telegram_client.py:583-661 | what a number of requests bring are exactly the ordinary ones among the first messages fetched, and the offset leaves the rest |
| Pagination.PagesGiveWanted | src/telegram_client.py:583-661 | at every request the caller has a prefix of what it wanted, and all of it once no request is due |
| Pagination.WantedIff | src/telegram_client.py:646-655 | wanted are exactly the messages above `min_id` without an action, ascending, cut at the limit |
| Pagination.OffsetStep | src/telegram_client.py:657-661 | the offset strictly rises and leaves exactly what follows the batch |
| Pagination.PromiseKept | src/telegram_client.py:583-661 | a batch moves its ordinary messages from what is left to what has been yielded, up to the limit |
| Pagination.YieldBatch | src/telegram_client.py:646-655 | the inner loop yields the batch's ordinary messages up to the limit |
| Markdown.ChainIsSinglePass | src/note_generator.py:720-726 | the six successive replacements equal one single-pass escape |
| Markdown.SpecialIff | src/note_generator.py:720-726 | the escaped characters are exactly the six of the source |
| Markdown.MessageTextRecovers | src/note_generator.py:718-728 | the text can be read back from the quoted block by an explicit inverse |
| Markdown.MessageTextInjective | src/note_generator.py:718-728 | two texts never give the same block |
| Markdown.EscapeIsWellEscaped | src/note_generator.py:721-726 | in the escaped text every special character is the second of a pair opened by a backslash |
| Markdown.WellEscapedIsEscape | src/note_generator.py:721-726 | conversely, well-escaped text is the escape of what it reads as |
| Markdown.BlockShape | src/note_generator.py:727-728 | a block is the quote prefix, escaped text whose every further line starts with the prefix, and a blank line |

## Left out

- The internals of `asyncio.Semaphore`: it is FIFO with atomic hand-off, and free permits imply no waiters.
- Cancellation of a waiting or running pool task, and the statistics of the pool beyond its counters.
- The pipeline under a shutdown request, and its timings and queue-length maxima; a fetch that raises is covered only by `Pipeline.CallsArePrefix`.
- Records of chunks that were slow but not split; they only feed statistics and `analyze_and_update_hot_zones`.
- FloodWait and other waits that only repeat a request; real time enters as verdicts of the clock.
- The `limit` branch of the sharded fetch: it keeps whichever messages were drained first.
- The file-writing chunk fetch, the static range mode and the worker clients and sessions.
- The persistent database of hot zones and density sampling; a density is a parameter of the plan.
- The cancellation paths of the download queue (`_cancel_stuck_tasks`, `stop`) and `wait_all`, which does not wait for tasks in back-off.
- Task identifiers of the download queue: a task is its `enqueue` call, so a repeated identifier does not arise.
- `CacheFile.SnapshotRestoresIff`: the JSON layer acts on each entry's data by itself.
- The backup file of the cache, `clear`, its background tasks, legacy pickle entries and the compression counters.
- Base64 and Python's `hash` in the Bloom filter: an inverse pair of functions, and any function.
- An iterator that answers a cancellation with another exception, and cancellation from outside `stop`.
- `ShardedFetch.WholeHistoryIff`: requests for the newest and the oldest message that fail or answer nothing.
- Write errors of a buffered file before its exit, and modes other than writing a new file.
- Floating point: ratios and thresholds are exact reals.
- Note buffering per topic file, Bloom sizing by logarithms, reporters, metrics, logging, menus and configuration.
