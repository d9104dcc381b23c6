# A verified model of the Run:ai Model Streamer

The streamer reads many byte ranges of many files, concurrently, into memory the caller supplies, and owes
exactly one truthful response for each range. This project models the parts of it that make that hard, and
proves what they promise. `dafny verify dfyconfig.toml` checks everything.

Where the source changes state step by step, the model is a class or a loop proved against a specification.
Where several threads, ranks or processes interleave, it is a step relation on values, one step for each atomic
piece of the source (a lock body, a semaphore wait or post, an atomic counter update, a collective, a file
lock), and the results are about every run. Addresses are natural numbers; files and memory are maps from
positions to bytes.

**Work planning** (`Assigner`, `Assignment`, `Batches`, `BackendLock`, `Submission`). The caller's ranges are
coalesced into transfers, the transfers are sliced between workers, the slices are cut again into tasks, one or
more for each range. Each of the three is shown to preserve what is to be read and where it goes, zero-sized
ranges included; `Submission.PrepareSubmission` composes them.

**Reading files** (`Fd`, `Events`, `Traces`, `BatchReader`). Partial reads, whole blocks, early stops. What a
thread does is kept as a trace of its own stores and of the tasks it finishes, so that what is proved of it
holds whatever other threads do to memory elsewhere in the meantime: a task is finished with Success only once
its bytes are in place, is never written to again, and neither waits for nor fails with a block it does not need.

**The object-storage worker** (`CapacityQueue`, `ObjectStorageWorker`, and on values `WorkerModel`,
`WorkerInvariant`, `WorkerSteps`, `WorkerAdmit`, `WorkerOwners`, `WorkerMoves`, `WorkerRounds`). A window of
credit, contiguous blocks of handles found through an ordered map, counters by task and by workload, error
short-circuiting, abort and late completions. The backend is an environment: it may refuse a read, fail, delay
and reorder completions, answer with an empty round or close a round with a FinishedError sentinel; it returns
issued handles only, each at most once, nothing for a read it refused, and a sentinel only at the end of a
round. `Inv` is the accounting that every method keeps; it ties every handle ever reserved, erased blocks
included, to its task, so that nobody writes where a task has been answered Success and each such task has all
of its own reads landed. `Execute` and `Drain` also return, as ghosts, the run they made, in which every state
change is an admission, a submission or a drain with the exact effect of each.

**Answers** (`Answers`, `Delivery`). Any number of workers finish tasks in any interleaving: each stores a
failure, counts the request down, and pushes the response if it was the last. Each submission in flight has its
own dispatch, which may throw at any workload; what was not dispatched then fails. `Delivery` shows that what
the workers push is what the response queue was told to expect.

**Everything at once** (`System`, `SystemSteps`, `SystemRuns`, `SystemProgress`, `SystemRest`). The threads'
traces, the moves of the object-storage workers, the writes of their backend, dispatch and the end of every
task, interleaved in any way over one memory. The backend may write at any moment inside the buffer of a read it
was given and has not reported; it reports a success only with the object's bytes there. Every run of this is a
run of `Answers`, whose two guards (a success has its bytes in place, nobody writes where a task has succeeded)
are thereby facts about the readers. Every step but a backend's write uses up work, and until all is done
something can go on without any failure. The rest of the process may write anywhere else. `SystemRest` says
exactly when a destination is free for another use.

**End to end** (`Plans`, `ManyPlans`, `Parts`, `EndToEnd`, `Streaming`). Any number of prepared submissions
together, their batches read as `BatchReader` does and their object-storage workloads by the pool: a range
answered Success has its own file's bytes at its own destination, and every range is answered once. `Streaming`
adds the responder and the consumer: what is delivered is true, and a submission is done exactly when all its
ranges have been delivered.

**Completion plumbing** (`SharedQueue`, `Responder`, `SubmissionsMgr`, `Deque`, `Pool`). The atomic pieces are
methods of classes, proved against functions on values; the step relations are made of those functions.

**Distributed streaming** (`Seqs`, `FileChunks`, `Greedy`, `LongestFirst`, `Partition`, `Staging`, `Lockstep`,
`Distribution`). Chunks are dealt heaviest first to the lightest rank, within 4/3 - 1/(3n) of the best division;
then all ranks go through rounds of collectives in lockstep. `Distribution` joins the two: every rank that
finishes has yielded exactly the chunks that were asked for.

**Memory-capped packing** (`Packing`, `RequestsIterator`, `RequestsBuffer`), the **download lock**
(`DownloadLock`) and the **safetensors layout check** (`SafetensorsLayout`).

Three places where the code does less than its surroundings suggest are stated as they are, with the exact
condition:

- A response that carries FinishedError or TimedOut is handed to the caller without being counted
  (`cpp/streamer/impl/streamer/streamer.cc:155-169`). If a range is answered with such a code, its submission
  never leaves the registry and never reports done: `Responder.SkippedSubmissionStays` is such a run,
  `Responder.ForgottenIff` says exactly when a submission is forgotten.
- The header check looks at gaps and overlaps but not at where the first tensor starts
  (`py/runai_model_streamer/runai_model_streamer/safetensors_streamer/safetensors_pytorch.py:83-105`).
  `SafetensorsLayout.OffsetsMatchIff`: the contiguous request reads every tensor from its own place if and only
  if the first one starts at 0; `SafetensorsLayout.MisplacedTensor` is an accepted header for which it does not.
- A worker that gives up answers ranges whose reads the backend still has
  (`cpp/streamer/impl/object_storage_worker/object_storage_worker.cc:317-330`). `SystemRest.LateReadAfterAnswer`
  reaches such a state, in which an answered destination may still be written; `SystemRest.ReuseIff` says exactly
  when it is free.

Preconditions taken from the source: at least one worker and a positive block size; `offset + size` of a range
does not wrap; destinations of the submissions in flight do not overlap, where one that has been answered is in
flight until none of its reads is out, see `SystemRest.ReuseIff` (explicitly unchecked at
`cpp/streamer/impl/streamer/streamer.cc:399`); file ids in a Python file list are unique.

## Model

| member | source | states |
|---|---|---|
| WorkerModel.PiecesCover | cpp/streamer/impl/object_storage_worker/object_storage_worker.cc:157-191 | every byte of a task lies in one of its chunks, and the chunk's file offset and destination place it where the task's do |
| WorkerModel.LayoutCount | cpp/streamer/impl/object_storage_worker/object_storage_worker.cc:104-115 | the ceilings added up before splitting are exactly the number of chunks the splitting makes, so the reserved handle block fits |
| WorkerModel.ReportFacts | cpp/streamer/impl/object_storage_worker/object_storage_worker.cc:290-309 | reporting a workload leaves answered tasks alone and gives each open task its file's first error, or the given code, and nothing on Success without an error |
| WorkerOwners.CompleteStep | cpp/streamer/impl/object_storage_worker/object_storage_worker.cc:254-288 | a completion of an outstanding live chunk finds a positive chunk count, task count and credit (the asserts never fire) and keeps the whole accounting: counters equal what is left, credit equals live outstanding chunks |
| WorkerSteps.FinalizeIsolates | cpp/streamer/impl/object_storage_worker/object_storage_worker.cc:290-315 | error isolation: at a normal finish the open tasks are exactly those with a failed chunk, each fails with the first error recorded for its file, successes stay, other files get no error |
| WorkerOwners.FinalizeStep | cpp/streamer/impl/object_storage_worker/object_storage_worker.cc:311-315 | erasing a finished workload keeps the accounting of all others |
| WorkerOwners.AbortStep | cpp/streamer/impl/object_storage_worker/object_storage_worker.cc:317-347 | dropping every live workload, each open task answered with a failure, leaves an empty window whose credit is right although reads are still outstanding at the backend |
| WorkerOwners.TakeStep | cpp/utils/capacity_queue/capacity_queue.h:47-68 | taking the oldest pending chunk moves its handle from pending to outstanding and takes one credit, keeping the invariant |
| WorkerOwners.LateStep | cpp/streamer/impl/object_storage_worker/object_storage_worker.cc:388-398 | a completion whose block was erased changes no counter, credit or answer and keeps the invariant |
| WorkerOwners.IdleMeansAnswered | cpp/utils/capacity_queue/capacity_queue.h:93-97 | with nothing pending and nothing in flight every admitted task has its one answer; for a success each read of the task has a handle of its own and the backend reported every one of the task's own handles as successful |
| WorkerOwners.AdmitStep | cpp/streamer/impl/object_storage_worker/object_storage_worker.cc:102-203 | a new handle block, its chunks and the answers to zero-sized tasks keep the invariant: fresh handles, disjoint blocks, counters equal to the chunks queued |
| WorkerOwners.InlineStep | cpp/streamer/impl/object_storage_worker/object_storage_worker.cc:117-135 | a workload answered on the spot (nothing to read, or discarded) keeps the invariant |
| WorkerOwners.NoWriteAfterSuccess | cpp/streamer/impl/object_storage_worker/object_storage_worker.cc:254-288 | an outstanding read, a late one of an erased block included, never belongs to a task answered Success |
| WorkerOwners.SuccessIsOwn | cpp/streamer/impl/object_storage_worker/object_storage_worker.cc:254-288 | a task answered Success has a handle for each of its reads, and all of its own handles were reported successful |
| WorkerMoves.MoveKeeps | cpp/streamer/impl/object_storage_worker/object_storage_worker.cc:102-412 | each atomic move of a worker - admit, discard, submit, land, complete, late completion, abort - keeps the whole invariant |
| WorkerMoves.BooksStay | cpp/streamer/impl/object_storage_worker/object_storage_worker.cc:102-412 | no move takes back an answer, forgets a task or gives a handle another owner; only the admission of a workload adds any |
| WorkerMoves.OneBlock | cpp/streamer/impl/object_storage_worker/object_storage_worker.cc:205-221 | a handle lies in one live block at most |
| WorkerMoves.FirstErrorStays | cpp/streamer/impl/object_storage_worker/object_storage_worker.cc:254-279 | no step replaces the first error recorded for a file or for a task while its workload lives |
| WorkerRounds.RunMoves | cpp/streamer/impl/object_storage_worker/object_storage_worker.cc:349-412 | whatever a worker does, round after round, is a run of those atomic moves and keeps the invariant |
| WorkerRounds.ErasedIsDead | cpp/streamer/impl/object_storage_worker/object_storage_worker.cc:311-347 | in every run a handle that some live block contained and that no live block contains later is in none ever after |
| WorkerRounds.DeadForever | cpp/streamer/impl/object_storage_worker/object_storage_worker.cc:388-402 | over any run of admissions, discards, submissions and drains an erased handle is in no live block again: its completion can only be a late one |
| WorkerRounds.RoutesTo | cpp/streamer/impl/object_storage_worker/object_storage_worker.cc:205-221 | which live block a search finds makes no difference to where a completion goes |
| CapacityQueues.CapacityQueue.TryTake | cpp/utils/capacity_queue/capacity_queue.h:47-68 | refuses exactly when nothing is pending or the front item does not fit beside what is in flight; otherwise hands out the front and reserves its cost |
| CapacityQueues.CapacityQueue.Enqueue | cpp/utils/capacity_queue/capacity_queue.h:36-39 | appends, reserving nothing |
| CapacityQueues.CapacityQueue.Complete | cpp/utils/capacity_queue/capacity_queue.h:72-75 | releases the cost, never below zero |
| CapacityQueues.CapacityQueue.Clear | cpp/utils/capacity_queue/capacity_queue.h:81-85 | empties the window |
| ObjectStorageWorkers.ObjectStorageWorker.Capacity | cpp/streamer/impl/object_storage_worker/object_storage_worker.cc:23-74 | the window is none exactly for an empty workload or when building the client fails, with the client's own code recorded; otherwise it is the number of whole chunks in the bytes the client advertises, at least one, and SIZE_MAX stays unbounded |
| ObjectStorageWorkers.ObjectStorageWorker.Discard | cpp/streamer/impl/object_storage_worker/object_storage_worker.cc:76-100 | every task of the workload is answered with the recorded code, or with UnknownError when none is recorded; the worker stays valid without a window and the record is cleared |
| ObjectStorageWorkers.ObjectStorageWorker.CountChunks | cpp/streamer/impl/object_storage_worker/object_storage_worker.cc:104-115 | the total of the per-task ceilings over all batches |
| ObjectStorageWorkers.ObjectStorageWorker.EnqueueTask | cpp/streamer/impl/object_storage_worker/object_storage_worker.cc:157-191 | one task's chunks enter the window in order with consecutive handles; offset and buffer advance together; the last chunk is the remainder |
| ObjectStorageWorkers.ObjectStorageWorker.BuildBlock | cpp/streamer/impl/object_storage_worker/object_storage_worker.cc:137-191 | the splitting pass builds the chunk-to-task index, the per-task counters and the pending chunks of exactly the workload's layout, and answers zero-sized tasks |
| ObjectStorageWorkers.ObjectStorageWorker.Enqueue | cpp/streamer/impl/object_storage_worker/object_storage_worker.cc:102-203 | the state afterwards is the one with the new block (or with all tasks answered when none has bytes), and the worker's invariant holds |
| ObjectStorageWorkers.ObjectStorageWorker.Locate | cpp/streamer/impl/object_storage_worker/object_storage_worker.cc:205-221 | finds a block if and only if a live block contains the handle, and then the task that owns the chunk there; agrees with searching all live blocks |
| ObjectStorageWorkers.ObjectStorageWorker.ReportWorkload | cpp/streamer/impl/object_storage_worker/object_storage_worker.cc:290-309 | the batch-by-batch loop computes the specification's report |
| ObjectStorageWorkers.ObjectStorageWorker.Finalize | cpp/streamer/impl/object_storage_worker/object_storage_worker.cc:311-315 | reports and removes the block from map and order |
| ObjectStorageWorkers.ObjectStorageWorker.CompleteChunk | cpp/streamer/impl/object_storage_worker/object_storage_worker.cc:254-288 | one credit, one chunk, the first errors, the task's answer with its last chunk, the workload's end with its last task: exactly the specified new state |
| ObjectStorageWorkers.ObjectStorageWorker.AbortAll | cpp/streamer/impl/object_storage_worker/object_storage_worker.cc:317-347 | every open task is answered with the code, no other answer changes, the window is idle |
| ObjectStorageWorkers.ObjectStorageWorker.Submit | cpp/streamer/impl/object_storage_worker/object_storage_worker.cc:223-252 | the read of the chunk's own task is issued; or, for a failed task or a refused read, the chunk is completed with that error and nothing is outstanding |
| ObjectStorageWorkers.ObjectStorageWorker.Dispatch | cpp/streamer/impl/object_storage_worker/object_storage_worker.cc:388-401 | a completion is routed to the block its handle lies in, a late one to nothing; progress is reported exactly for live ones |
| ObjectStorageWorkers.ObjectStorageWorker.DispatchAll | cpp/streamer/impl/object_storage_worker/object_storage_worker.cc:376-402 | the completions up to the sentinel are routed in order, none skipped; ran-dry means an empty round or a sentinel |
| ObjectStorageWorkers.ObjectStorageWorker.DrainBatch | cpp/streamer/impl/object_storage_worker/object_storage_worker.cc:349-412 | the new state is determined by the stop flag and the backend's reply: a stop answers every open task FinishedError, a failed reply answers them with its code, a reply without a completion with FinishedError; otherwise a round strictly reduces what the backend holds or the window is idle |
| ObjectStorageWorkers.ObjectStorageWorker.Pump | cpp/utils/capacity_worker/capacity_worker.h:116-122 | submits oldest first until nothing is pending or the window is full |
| ObjectStorageWorkers.ObjectStorageWorker.SubmitAll | cpp/utils/capacity_worker/capacity_worker.h:56-67 | terminates with nothing pending whatever the backend answers; drains only while the window is full |
| ObjectStorageWorkers.ObjectStorageWorker.Execute | cpp/utils/capacity_worker/capacity_worker.h:37-68 | admits the workload exactly when the window is up or comes up with it, and otherwise answers all of it with the reason, to try again with the next; after an admission every state change is a submission or a drain of a full window, and it ends with nothing pending and room left, or just drained, whatever the backend does |
| ObjectStorageWorkers.ObjectStorageWorker.Drain | cpp/utils/capacity_worker/capacity_worker.h:70-78 | nothing without a window; otherwise one drain, then submissions, and twice pending plus outstanding strictly decreases, or the window is idle |
| ObjectStorageWorkers.ObjectStorageWorker.Idle | cpp/utils/capacity_worker/capacity_worker.h:80-83 | idle means no live workload and every task ever admitted answered once, a success only with all of the task's own reads landed |
| Assigner.CoalesceFile | cpp/streamer/impl/assigner/assigner.cc:58-116 | one file's ranges extend the open transfer exactly when adjacent in file and memory; fails exactly on overflow of the byte total |
| Assigner.Coalesce | cpp/streamer/impl/assigner/assigner.cc:49-121 | lossless and greedily maximal: the transfers spelled out are the caller's ranges in order (offset, size, destination, index by prefix sums), none spans two files, no two neighbours could be merged |
| Assignment.BytesPerWorker | cpp/streamer/impl/assigner/assigner.cc:246-266 | the shares add up to the total, whole blocks for all but worker 0, whose excess is less than one block per workload; no worker is left out while a block of the total is left for it, and none works for less than a block unless it works alone |
| Assignment.AssignWorker | cpp/streamer/impl/assigner/assigner.cc:135-177 | one worker's loop keeps the slicing invariant and stops exactly at its target, or with all transfers assigned |
| Assignment.Assign | cpp/streamer/impl/assigner/assigner.cc:125-201 | slices tile every transfer once and in order, every workload index is below the number of workloads, no empty slice in a non-empty transfer, empty transfers still get one, per-worker totals equal the targets, and there are as many workloads as blocks and workers allow |
| Submission.CheckObjectStorage | cpp/streamer/impl/assigner/assigner.cc:208-234 | the kind of the first file with ranges, which in a homogeneous submission is the kind of all |
| Batches.BatchItr.Consume | cpp/streamer/impl/batches/batches.cc:66-83 | advances by at most the demand, enters at most one new slice per call, stays inside the slices |
| Batches.HandleRequest | cpp/streamer/impl/batches/batches.cc:172-205 | one range's tasks tile it at the slice boundaries, at least one even for size zero, never two in the same slice (no lost insertion), and the request's counter is their number |
| Batches.BuildTasks | cpp/streamer/impl/batches/batches.cc:120-170 | all ranges of a transfer are cut so that each slice's batch has exactly the slice's bytes and each range its tasks in order |
| Batches.BatchChain | cpp/streamer/impl/batches/batches.cc:120-170 | the tasks of a batch are contiguous in both file and memory from the slice's own start |
| Submission.PlanTransfers | cpp/streamer/impl/streamer/streamer.cc:247-299 | over all transfers: each workload has one batch for each of its slices, in order, and none is empty; each range has one request whose counter is its tasks summed over all batches |
| Submission.VerifyRequests | cpp/streamer/impl/streamer/streamer.cc:402-418 | rejects exactly when some range with bytes has a null destination |
| BackendLock.LockObjectPlugin | cpp/streamer/impl/streamer/streamer.cc:420-479 | accepts exactly when all files with ranges share one backend the lock does not exclude; an accepted object-storage submission locks its plugin and nothing else changes the lock |
| BackendLock.LockStays | cpp/streamer/impl/pools/backend_pools.cc:37-72 | once taken the lock stays as it is through any number of submissions, accepted or not |
| Submission.PrepareSubmission | cpp/streamer/impl/streamer/streamer.cc:171-299 | what is rejected, and with which code; otherwise the plan covers exactly the listed ranges, one request each, every byte in one task, shared out to as many of the backend's workers as there are blocks of the backend's size, evenly up to one block per workload; the plugin is locked even by a submission that a later check rejects, and left alone by one with a null destination |
| Fd.Read | cpp/utils/fd/fd.cc:100-145 | partial reads are put together in place, nothing outside is written, no call stores more than a chunk, a short count means end of file, and each of the three modes ends as it promises |
| BatchReader.File.Read | cpp/streamer/impl/file/file.cc:37-60 | Success only with all bytes in place; EofError only past the end; FileAccessError only for a failed device |
| BatchReader.Batch.Finish | cpp/streamer/impl/task/task.cc:26-36 | only the first call for a task counts |
| BatchReader.Batch.FinishedUntil | cpp/streamer/impl/batch/batch.cc:188-206 | finishes exactly the tasks that end at or before the position reached |
| BatchReader.Batch.HandleError | cpp/streamer/impl/batch/batch.cc:72-99 | open tasks take the code, finished ones keep theirs, Success does nothing |
| BatchReader.Batch.ReadBlocks | cpp/streamer/impl/batch/batch.cc:118-131 | whole blocks in order until stopped or failed; every task that ends by a block's end is finished before a byte beyond it is stored, and is a success although a later block fails |
| BatchReader.Batch.ReadTasks | cpp/streamer/impl/batch/batch.cc:102-157 | Success means every task succeeded; otherwise the code has its cause (file too short, device failed, told to stop), the tasks whose blocks the file holds have succeeded, and at most a block is read after the stop flag goes up |
| BatchReader.Batch.Execute | cpp/streamer/impl/batch/batch.cc:46-70 | every task of the batch is finished exactly once, with Success only after its bytes were stored in place, otherwise with the batch's error; no store touches a finished task; no task waits for a block it does not need, before or after an error; a stop raised beforehand means that nothing is read. All this is said of the batch's own stores and holds whatever others do to memory meanwhile |
| Answers.StepKeeps | cpp/streamer/impl/request/request.cc:21-30 | every interleaved step of any worker keeps counters, results and pushed answers right |
| Answers.AnswersTruthful | cpp/streamer/impl/request/request.cc:21-35 | in every run a pushed answer says Success exactly when all the range's tasks succeeded, and then every byte is in place, then and later; otherwise a code one of its tasks failed with |
| Answers.AnsweredExactlyOnce | cpp/streamer/impl/batch/batch.cc:173-186 | in every run no range is answered twice, and when all tasks are done every range has been answered, wherever dispatch threw |
| Delivery.PushIsOwed | cpp/streamer/impl/request/request.cc:21-35 | the response a last task pushes is one the queue was told to expect, of a submission registered before its first workload was dispatched, and then one less is owed |
| Delivery.RunFollows | cpp/streamer/impl/streamer/streamer.cc:301-372 | the workers' pushes together with the queue are, in every interleaving, a run of the responder: everything proved of the responder holds of the streamer's own pushes |
| Delivery.NothingOwed | cpp/streamer/impl/streamer/streamer.cc:301-372 | when all tasks are done the queue is owed nothing more for any submission |
| SystemSteps.StepRefines | cpp/streamer/impl/streamer/streamer.cc:301-372 | each step of threads, object-storage workers, backend and dispatch, in any interleaving, is a step of the answers' protocol or none: that a success has its bytes in place and that nobody writes where a task has succeeded are conclusions about the readers |
| SystemSteps.DoneDecides | cpp/streamer/impl/batch/batch.cc:46-70 | a task that a batch's thread finishes was open until then, and if it succeeds its bytes are in memory although others write elsewhere |
| SystemSteps.AnswerLands | cpp/streamer/impl/object_storage_worker/object_storage_worker.cc:254-288 | an object-storage worker says Success only when the task's whole window has the object's bytes |
| SystemSteps.FillOpen | cpp/streamer/impl/object_storage_worker/object_storage_worker.cc:317-347 | an outstanding read, also one of a dropped workload, writes only where a task that has not succeeded reads to |
| SystemRuns.Projects | cpp/streamer/impl/streamer/streamer.cc:301-372 | every run of the system is a run of the answers' protocol that ends in the same state |
| SystemRuns.ResponsesTruthful | cpp/streamer/impl/streamer/streamer.cc:301-372 | in every run of the system a response says Success exactly when all the range's tasks succeeded, and then every byte of it is in place; otherwise the code of one of its tasks |
| SystemRuns.ResponsesOnce | cpp/streamer/impl/batch/batch.cc:173-186 | in every run of the system no range is answered twice, and when all tasks are done every range has been answered |
| SystemRuns.SuccessIsForGood | cpp/streamer/impl/batch/batch.cc:46-70 | no step of anyone changes a byte of a task that has succeeded |
| SystemProgress.StepsAreFinite | cpp/streamer/impl/streamer/streamer.cc:317-372 | every step of the system but one that only writes memory uses up work, of which there is a fixed amount |
| SystemProgress.NeverStuck | cpp/streamer/impl/streamer/streamer.cc:317-372 | until all tasks are accounted for some step uses up work without any failure: a thread goes on, a worker submits within its window, the backend delivers what it was asked for |
| SystemProgress.CanFinish | cpp/streamer/impl/streamer/streamer.cc:317-372 | from every state of every run, whatever failed so far, there is a way on without any further failure to the end of all tasks |
| SystemRest.RestForever | cpp/streamer/impl/object_storage_worker/object_storage_worker.cc:317-347 | once a task is decided and no read of it is out, that stays so in every run, and nobody writes to its destination again |
| SystemRest.ReuseIff | cpp/streamer/impl/object_storage_worker/object_storage_worker.cc:317-330 | in any reachable state, whatever happens next leaves the destination of an answered range as it is if and only if no read of the range is still out at the backend: that is when it may be used for something else |
| SystemRest.SuccessAtRest | cpp/streamer/impl/object_storage_worker/object_storage_worker.cc:254-288 | a range answered Success is free at once, late reads or not |
| SystemRest.BatchAtRest | cpp/streamer/impl/batch/batch.cc:46-70 | so is a range read from files, whatever its answer |
| SystemRest.LateReadAfterAnswer | cpp/streamer/impl/object_storage_worker/object_storage_worker.cc:317-330 | a worker that gives up while a read is out answers the range although the late read may still write there: from every such state there is a run to one where the range is answered and not free |
| SystemRest.NextRequestUndisturbed | py/runai_model_streamer/runai_model_streamer/file_streamer/requests_iterator.py:108-124 | a later request whose destinations overlap only with tasks at rest is not disturbed by what is left of an earlier one: to it every step of the other is a write elsewhere |
| Plans.SubmissionIsGood | cpp/streamer/impl/streamer/streamer.cc:171-299 | a prepared submission with non-overlapping destinations meets everything the run results assume |
| ManyPlans.SubmissionsAreGood | cpp/streamer/impl/streamer/streamer.cc:171-356 | so do any number of prepared submissions in flight together, each with its own files, workloads and dispatch |
| Parts.PartsFit | cpp/streamer/impl/streamer/streamer.cc:317-356 | one thread for each batch and one load for each object-storage workload do every task of the plan, each once |
| EndToEnd.AtWorkOk | cpp/streamer/impl/streamer/streamer.cc:171-356 | prepared submissions, batches read as Batch.Execute does and object-storage workloads in the pool, together, satisfy what the results about the system assume |
| EndToEnd.SuccessMeansPlaced | cpp/streamer/impl/streamer/streamer.cc:171-356 | end to end: in every run over any prepared submissions, a response Success is that of a listed range, and that range's own file has its bytes at its own destination, then and later |
| EndToEnd.EveryRangeAnswered | cpp/streamer/impl/streamer/streamer.cc:171-356 | every listed range of every submission is answered, none twice, and from any moment of any run this end can still be reached without a further failure |
| Streaming.WholeKeeps | cpp/streamer/impl/streamer/streamer.cc:301-372 | every step of threads, workers, backend, dispatch, responder and consumer together keeps the invariants of all of them and the log: what was pushed, in order, is what was accepted and then, after a stop, ignored |
| Streaming.NamesFit | cpp/streamer/impl/streamer/streamer.cc:171-299 | distinct ids, one for each prepared submission with ranges, are what the results of this module ask for |
| Streaming.DeliveredMeansPlaced | cpp/streamer/impl/streamer/streamer.cc:155-169 | in every run of everything up to the consumer: a response delivered is that of a listed range of the submission whose id it carries, and if it says Success the range's own file has its bytes at its own destination, then and later |
| Streaming.DoneIff | cpp/streamer/impl/streamer/streamer.cc:374-389 | submission_done fires with the response just accounted for if and only if every range of the submission has now been delivered, none with FinishedError or TimedOut |
| SharedQueues.SharedQueue.PushLocked | cpp/common/shared_queue/shared_queue.h:183-216 | accepts, ignores a stopped queue, or notes an unexpected response, and says whether a post follows |
| SharedQueues.SharedQueue.PopLocked | cpp/common/shared_queue/shared_queue.h:162-180 | the oldest response, or FinishedError once stopped, leaving everything else |
| SharedQueues.SharedQueue.StopLocked | cpp/common/shared_queue/shared_queue.h:241-252 | stops, and only the first stop posts |
| SharedQueues.SharedQueue.Increment | cpp/common/shared_queue/shared_queue.h:129-134 | raises the expected count only |
| Responder.EntryEndsIff | cpp/common/shared_queue/shared_queue.h:137-152 | in every run, of either mode, pop ends before waiting if and only if the queue was stopped or, in the mode that ends on drain, every response ever expected has been delivered |
| Responder.WaiterIsOwed | cpp/common/shared_queue/shared_queue.h:137-161 | in the mode that ends on drain a consumer past that check is always served: there is a token, one on its way, or a response still owed, and the queue does not drain while it waits |
| Responder.DrainedIsTerminal | cpp/common/shared_queue/shared_queue.h:146-152 | a drained queue stays drained, and delivers nothing, until it is told to expect more |
| Responder.AssertionsHold | cpp/common/shared_queue/shared_queue.h:137-222 | in every run with one consumer a woken consumer finds a response unless stopped, no push is unexpected, and no response is consumed for an unknown submission |
| Responder.DeliveriesFifo | cpp/common/shared_queue/shared_queue.h:129-222 | deliveries are a prefix of the accepted pushes; increments equal running plus accepted |
| Responder.TokensConserved | cpp/common/shared_queue/shared_queue.h:137-264 | every accepted response posts one token, the first stop one more and a later stop none; each token is still to be posted, in the semaphore, or taken |
| Responder.NoLostWakeup | cpp/common/shared_queue/shared_queue.h:137-264 | with no producer between lock and post, tokens equal waiting responses, and a stopped queue wakes a waiting consumer |
| Responder.ForgottenIff | cpp/streamer/impl/streamer/streamer.cc:155-169 | a fully consumed submission leaves the registry if and only if no response delivered for it carried FinishedError or TimedOut and none was pushed after the queue was stopped |
| Responder.DoneOnLast | cpp/streamer/impl/streamer/streamer.cc:374-389 | submission_done fires on the last response and only then |
| Responder.NoDoubleDone | cpp/streamer/impl/submissions/submissions_mgr.cc:43-70 | between two completions of an id it was registered anew |
| Responder.SkippedSubmissionStays | cpp/streamer/impl/streamer/streamer.cc:155-169 | a concrete run: a range answered FinishedError is delivered, but its submission stays registered for ever and never completes |
| Submissions.SubmissionsMgr.Generate | cpp/streamer/impl/submissions/submissions_mgr.cc:19-32 | the first id from the wrapping counter on that is neither zero nor live, and the counter moves behind it; the search ends as long as one is free |
| Submissions.SubmissionsMgr.Add | cpp/streamer/impl/submissions/submissions_mgr.cc:34-41 | registers the expected count under a usable id |
| Submissions.SubmissionsMgr.Consume | cpp/streamer/impl/submissions/submissions_mgr.cc:43-70 | counts down; completed and erased exactly on the last |
| Deques.Deque.PushLocked | cpp/utils/threadpool/threadpool.h:22-33 | appends the message; never to a stopped queue |
| Deques.Deque.PopLocked | cpp/utils/threadpool/threadpool.h:35-50 | the front message, or nothing once stopped |
| Deques.Deque.TryPopLocked | cpp/utils/threadpool/threadpool.h:54-73 | the front message, or the token goes back once stopped |
| Deques.Deque.StopLocked | cpp/utils/threadpool/threadpool.h:76-86 | sets the flag and leaves the messages |
| Pool.FrontNeverMissing | cpp/utils/threadpool/threadpool.h:35-73 | over all interleavings neither pop nor try_pop takes the front of an empty queue, and messages are taken in the order pushed |
| Pool.EnoughTokens | cpp/utils/threadpool/threadpool.h:54-92 | after stop the tokens in play are one for each thread still there and one for each dropped message: an exit uses one, try_pop returns its own |
| Pool.ParkedWakes | cpp/utils/threadpool/threadpool.h:76-92 | once stop has made its posts a parked thread always finds a token |
| Pool.ShutdownAdvances | cpp/utils/threadpool/threadpool.h:178-186 | every step after stop brings the shutdown strictly closer |
| Pool.ShutdownNotStuck | cpp/utils/threadpool/threadpool.h:217-246 | until every thread has left some step is enabled |
| LongestFirst.Deal | py/runai_model_streamer/runai_model_streamer/distributed_streamer/partition.py:77-87 | the greedy loop gives every item to a lightest rank and its running sizes are the loads |
| LongestFirst.Divide | py/runai_model_streamer/runai_model_streamer/distributed_streamer/partition.py:61-87 | sorting and dealing divides the items; two ranks differ by at most the largest item; no rank exceeds 4/3 - 1/(3n) of the best division |
| Greedy.Balanced | py/runai_model_streamer/runai_model_streamer/distributed_streamer/partition.py:77-87 | at any time two ranks differ by at most the largest item |
| Greedy.LargeItemFits | py/runai_model_streamer/runai_model_streamer/distributed_streamer/partition.py:77-87 | an item heavier than a third of the best makespan still fits under it where greedy places it |
| Greedy.WithinFourThirds | py/runai_model_streamer/runai_model_streamer/distributed_streamer/partition.py:77-87 | the longest-first bound: every rank's load is within 4/3 - 1/(3n) of the makespan of any assignment whatsoever |
| LongestFirst.OwnerOf | py/runai_model_streamer/runai_model_streamer/distributed_streamer/partition.py:77-87 | any division into lists is an assignment with the same loads, so the bound compares against every division |
| Partition.Regroup | py/runai_model_streamer/runai_model_streamer/distributed_streamer/partition.py:92-104 | units are grouped by path, nothing lost |
| Partition.BuildPart | py/runai_model_streamer/runai_model_streamer/distributed_streamer/partition.py:104-123 | a part reads back exactly its units with the mapping to their original request and chunk; its ranges come by ascending offset, those that start together by size |
| Partition.PartitionByChunks | py/runai_model_streamer/runai_model_streamer/distributed_streamer/partition.py:26-127 | error exactly for n <= 0; otherwise n ranks whose parts read back exactly the original chunks, each part in ascending order, balanced and near-best |
| Partition.PartitionByFiles | py/runai_model_streamer/runai_model_streamer/distributed_streamer/partition.py:129-185 | the same for whole files, each kept intact |
| Partition.UnitsDistinct | py/runai_model_streamer/runai_model_streamer/distributed_streamer/partition.py:45-60 | with unique ids no two chunks have the same origin |
| Partition.Bijection | py/runai_model_streamer/runai_model_streamer/distributed_streamer/partition.py:92-127 | each chunk of each request is read by exactly one rank, once, with its own path, offset and size, and ranks read nothing else |
| Partition.TotalChunks | py/runai_model_streamer/runai_model_streamer/distributed_streamer/partition.py:206-209 | the sum is the number of chunks read back over all ranks |
| Staging.AlignedOffset | py/runai_model_streamer/runai_model_streamer/distributed_streamer/distributed_streamer.py:47-53 | the smallest offset from the current one at which the address is aligned |
| Staging.PackedFacts | py/runai_model_streamer/runai_model_streamer/distributed_streamer/distributed_streamer.py:484-513 | a batch is a prefix of the queue, aligned, non-overlapping, inside the buffer |
| Staging.PackedTight | py/runai_model_streamer/runai_model_streamer/distributed_streamer/distributed_streamer.py:484-513 | each chunk goes to the least aligned offset behind the one before, and a batch with chunks and room left ends at a chunk that does not fit |
| Staging.UnpackHeld | py/runai_model_streamer/runai_model_streamer/distributed_streamer/distributed_streamer.py:577-580 | what a receiver cuts out by the metadata are the sender's chunks |
| Staging.BatchMakesProgress | py/runai_model_streamer/runai_model_streamer/distributed_streamer/distributed_streamer.py:484-513 | with a chunk left that fits the buffer a batch is never empty |
| Staging.Stager.Prefill | py/runai_model_streamer/runai_model_streamer/distributed_streamer/distributed_streamer.py:469-517 | buffer, metadata, size and count hold the next batch of the stream, and a chunk that does not fit is kept for the next one |
| Lockstep.SameCollectives | py/runai_model_streamer/runai_model_streamer/distributed_streamer/distributed_streamer.py:530-580 | in every run the i-th collective of any two ranks has the same root, kind and length, and metadata rows agree |
| Lockstep.NeverFails | py/runai_model_streamer/runai_model_streamer/distributed_streamer/distributed_streamer.py:582-584 | "No chunks to read" is unreachable, and so is a collective a rank does not expect |
| Lockstep.SameChunksToRead | py/runai_model_streamer/runai_model_streamer/distributed_streamer/distributed_streamer.py:426-454 | at the start of a round every rank has the same count of chunks left |
| Lockstep.YieldsEverything | py/runai_model_streamer/runai_model_streamer/distributed_streamer/distributed_streamer.py:547-580 | a rank that finishes has yielded every chunk of every rank exactly once, bytes included |
| Lockstep.NeverStuck | py/runai_model_streamer/runai_model_streamer/distributed_streamer/distributed_streamer.py:530-580 | until all ranks have finished one of them can move |
| Lockstep.StepsAreFinite | py/runai_model_streamer/runai_model_streamer/distributed_streamer/distributed_streamer.py:431-454 | every step brings its rank strictly closer to the end |
| Distribution.EveryRankGetsAll | py/runai_model_streamer/runai_model_streamer/distributed_streamer/distributed_streamer.py:333-395 | partition and lockstep together: a finishing rank has yielded exactly the requested chunks under their original ids and indices, each with the bytes its own file has at its own offset |
| Distribution.NamesOnce | py/runai_model_streamer/runai_model_streamer/distributed_streamer/distributed_streamer.py:333-395 | with unique ids no chunk is yielded twice under one name and none is missing |
| RequestsIterator.FileChunksIterator.NextChunks | py/runai_model_streamer/runai_model_streamer/file_streamer/requests_iterator.py:240-248 | the longest prefix that fits, and the cursor moves past it |
| Packing.PackConserves | py/runai_model_streamer/runai_model_streamer/file_streamer/requests_iterator.py:181-222 | per file, the request followed by what is left is what was left: nothing lost, repeated or reordered |
| Packing.PackFits | py/runai_model_streamer/runai_model_streamer/file_streamer/requests_iterator.py:181-222 | a request fits the budget and holds no empty slice |
| Packing.PackIds | py/runai_model_streamer/runai_model_streamer/file_streamer/requests_iterator.py:181-222 | no file appears twice in one request |
| Packing.PackInOrder | py/runai_model_streamer/runai_model_streamer/file_streamer/requests_iterator.py:181-222 | a request takes the ranges in the order they are listed, over all files, and stops only at the first that does not fit |
| Packing.PackProgress | py/runai_model_streamer/runai_model_streamer/file_streamer/requests_iterator.py:200-219 | when every range fits the buffer, an empty request means no range is left |
| RequestsIterator.FilesRequestsIterator.NextRequest | py/runai_model_streamer/runai_model_streamer/file_streamer/requests_iterator.py:181-222 | the loop computes the specified request, within the limit; nothing comes back only when everything has been handed out |
| RequestsIterator.FilesRequestsIterator.GetGlobalFileAndChunk | py/runai_model_streamer/runai_model_streamer/file_streamer/requests_iterator.py:177-179 | the local position of a response names exactly that range of the original file |
| RequestsIterator.Stream | py/runai_model_streamer/runai_model_streamer/file_streamer/file_streamer.py:186-201 | submitting request after request until none comes delivers every range of every file once and in order, in requests that fit |
| RequestsBuffer.LargestRange | py/runai_model_streamer/runai_model_streamer/file_streamer/requests_iterator.py:250-257 | the maximum, 0 for none |
| RequestsBuffer.WithMemoryCap | py/runai_model_streamer/runai_model_streamer/file_streamer/requests_iterator.py:127-149 | refused exactly when the limit is missing or below the largest range; otherwise unlimited gives the sum of all ranges, largest-chunk the size of the largest, limited the user's bound or the sum, whichever is smaller |
| RequestsBuffer.PackDestinations | py/runai_model_streamer/runai_model_streamer/file_streamer/requests_iterator.py:116-122 | destinations back to back in flat order |
| RequestsBuffer.FlatIndex | py/runai_model_streamer/runai_model_streamer/file_streamer/requests_iterator.py:83-84 | file base plus range index is the range's place in the flat list |
| RequestsBuffer.SlicesDisjoint | py/runai_model_streamer/runai_model_streamer/file_streamer/requests_iterator.py:113-122 | slices of one request do not overlap and stay inside the buffer |
| RequestsBuffer.FilesRequestsIteratorWithBuffer.NextRequest | py/runai_model_streamer/runai_model_streamer/file_streamer/requests_iterator.py:108-124 | a non-empty request with one destination per range, or none when everything was handed out |
| RequestsBuffer.FilesRequestsIteratorWithBuffer.Slice | py/runai_model_streamer/runai_model_streamer/file_streamer/requests_iterator.py:99-106 | the part of the buffer that was this range's destination, inside the buffer and of its size |
| DownloadLock.OneRebuilder | py/runai_model_streamer/runai_model_streamer/safetensors_streamer/safetensors_streamer.py:120-143 | in every run at most one process rebuilds, and nobody skips meanwhile |
| DownloadLock.SentinelIsForever | py/runai_model_streamer/runai_model_streamer/safetensors_streamer/safetensors_streamer.py:120-197 | a written sentinel is never removed and the directory never changes after it, whatever crashes |
| DownloadLock.SkipperSeesFinished | py/runai_model_streamer/runai_model_streamer/safetensors_streamer/safetensors_streamer.py:131-138 | a skipping process sees the directory as the finisher left it, also in the gap of the downgrade |
| DownloadLock.BuilderAlone | py/runai_model_streamer/runai_model_streamer/safetensors_streamer/safetensors_streamer.py:139-161 | sealed files are exactly what one process downloaded since it cleared the directory |
| DownloadLock.NotStuck | py/runai_model_streamer/runai_model_streamer/safetensors_streamer/safetensors_streamer.py:122-143 | unless all are out some process can go on without a crash |
| SafetensorsLayout.SortFindsChain | py/runai_model_streamer/runai_model_streamer/safetensors_streamer/safetensors_pytorch.py:77-82 | if any order of the tensors is gapless the sorted one is, ties by zero-sized tensors included |
| SafetensorsLayout.CheckLayout | py/runai_model_streamer/runai_model_streamer/safetensors_streamer/safetensors_pytorch.py:77-105 | accepted exactly when no tensor ends before it starts and some order leaves neither gap nor overlap, whatever the header's key order |
| SafetensorsLayout.Contiguous | py/runai_model_streamer/runai_model_streamer/file_streamer/requests_iterator.py:43-51 | offsets are the prefix sums from the start |
| SafetensorsLayout.MisplacedTensor | py/runai_model_streamer/runai_model_streamer/safetensors_streamer/safetensors_pytorch.py:77-105 | a concrete header that is accepted and whose tensor is read from 8 bytes before its place |
| SafetensorsLayout.OffsetsMatchIff | py/runai_model_streamer/runai_model_streamer/safetensors_streamer/safetensors_pytorch.py:77-105 | the contiguous request reads every tensor from its place if and only if the first tensor starts at 0, which the check does not look at |

## Left out

- Answers: the counter and result of a request and the finished flag of a task are values of a step relation, not fields of classes, because their updates interleave; `Batch::handle_response` and `Workload::fail` are steps of it.
- System: a worker's moves and a thread's events interleave one at a time; `WorkerRounds.RunMoves` and `BatchReader.Batch.Execute` say that the methods' own runs are made of them. A file does not change while it is read, and the source of an object-storage read has the bytes of the file it stands for.
- Delivery.RunFollows: the ids of the submissions are distinct; that a 64-bit counter may come round to an id used long before is left out.
- SystemProgress.NeverStuck: says what can go on, not that a scheduler or a backend will let it.
- Lockstep: collectives and the rounds around them are steps on values (the staging of a batch is a class); the stale rows of the metadata tensor beyond the count are not carried; faults and timeouts of collectives are left out.
- DownloadLock: the object's methods are steps on values, because other processes interleave with them; an exit with an exception is a death without a sentinel; file listing and the download itself are steps that write any file.
- ObjectStorageWorkers.ObjectStorageWorker.Enqueue: does not model the catch for a failed allocation (`cpp/streamer/impl/object_storage_worker/object_storage_worker.cc:195-202`), best effort by the source's own comment.
- ObjectStorageWorkers.ObjectStorageWorker.Capacity: credentials and environment variables are left out; how building the client goes is a parameter, and the number of responses asked for at once is the backend's choice.
- ObjectStorageWorkers.ObjectStorageWorker.Execute: the stop flag is read as an arbitrary value each time, so nothing is said about how soon a stop is seen.
- Fd.Read: an interrupted call is repeated without effect; a device interrupts finitely often.
- Responder.NoLostWakeup: one consumer, as the source's own callers have; a timed wait is one that comes back with or without a token.
- Submission.PrepareSubmission: the minted id, logging and the URI parse are parameters; a submission that gets this far has one backend (BackendLock.LockObjectPlugin), so the refusal in `Workload::add_batch` is not a branch.
- RequestsIterator.Stream: the response loop of the file streamer, its single-submission check and its drain are left out; the requests it submits are not.
- SafetensorsLayout.CheckLayout: the dtype and shape checks of a tensor's own header entry are left out; only offsets matter to the layout.
- Assigner.Coalesce: the reservation of space and the notice about unordered ranges change nothing and are left out.
- A dispatch drain that itself runs out of memory, and what is lost when a pool is torn down with workloads still queued.
- The S3, GCS and Azure clients, plugin loading, client pooling and the choice of pool by backend kind.
- Throughput figures, clocks, and how long a timeout lasts.
- Torch tensor views, device memory, process-group creation and file globbing.
