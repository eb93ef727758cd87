# Batch preparation and sharing: protocol proofs

Four cooperating systems prepare training batches once and share them. This project models each of
them and proves what it promises over whole runs.

- **Coordinator control plane** (`coordinator_*.dfy`). Trainers start jobs and ask for their next
  batch; workers take materialisation tasks and report results; a maintainer plans ahead and cleans
  up; a bounded cache in Redis keeps reusable payloads. `coordinator_board` and `coordinator_pins`
  hold the records of the store, `coordinator_state` the questions asked by the scheduling and cache
  policies, `coordinator_cache` the eviction order, `coordinator_service` every call as an atomic step.
  `coordinator_invariants`, `coordinator_board_steps`, `coordinator_job_steps` and `coordinator_runs`
  carry one invariant through every step; `coordinator_guarantees`, `coordinator_delivery`,
  `coordinator_admission`, `coordinator_scheduling` and `coordinator_progress` state what follows;
  `coordinator_value`, `coordinator_completion` and `coordinator_calls` say in plain terms what the
  policies choose and what each call does to the records;
  `coordinator_dangling` and `coordinator_interference` exhibit two faults on the runs of
  `coordinator_tiny`. `coordinator_plan`, `coordinator_store`, `coordinator_objects` and
  `coordinator_prefetch` are the imperative form: classes whose methods keep the original fields and
  loops, are proved equal to the steps and can be called one after the other
  (`coordinator_links` has what the calls need of each other).
- **CoorDL coordinated preparation** (`coordl_*.dfy`). N owners stage a shared plan through two
  atomic Redis scripts; N jobs consume it; the last consumer removes a batch.
- **TensorSocket** (`tensorsocket_*.dfy`). A producer broadcasts one stream to several consumers with
  acknowledgements, per-consumer credit and a lag window, over explicit data and control channels
  that may lose messages.
- **Trainer prefetch pipeline** (`prefetcher*.dfy`). One coordinator thread, F fetch threads and an
  ordered publisher over bounded queues, with sentinels and an end marker. `prefetcher_objects` has
  the loops of all threads as methods; whatever the other threads do in between, each loop is proved
  to be a run of the interleaving model, so what is proved of the runs holds of the object's fields.
  `prefetcher_failures` covers the runs in which something fails or somebody stops the pipeline.

`text.dfy` and `sequences.dfy` hold the few general facts about identifiers, sums and slices.

## Assumptions

- Every remote call, maintainer pass and Redis script is one atomic step. The lock of the store
  covers single store calls only; one entry of the expiry pass and one job of the scheduling pass
  are steps of their own.
- A data set is registered once, with a positive batch size. Job ids are not empty. A job has one
  sequential caller of `get_next_batch`. A job is not finished with status ACTIVE.
- A worker reports exactly one outcome for a task it was given, and a Redis outcome only after it has
  put the payload there, which it reports with its own copy as a fallback, or found it there, which
  it reports without one. Task ids are fresh. Redis operations succeed.
- A cache key equals its batch id, as in the code, so one id indexes entries, handles and tasks.
- Numbers are mathematical: floats are reals and sizes are unbounded integers. Time is an arbitrary
  input of the step that reads it. The shuffle is any permutation determined by seed plus epoch.
- In the prefetcher the conditions of the end marker are read in one step, as under its lock, and
  waiting loops are steps that become possible. A run is taken to its end only if the trainer keeps
  taking items; everything else is claimed for all runs, with and without failures and stops.
- In the runs of TensorSocket consumers register before the first batch is published, and loader
  epochs are not empty. CoorDL progress is claimed without timeouts and without the stop event, and
  for a staging window of at least one.

## Where the code does less than it seems

- A payload that the cache rejects is deleted from Redis even when there is no fallback, and its READY
  handle then names a missing key: in every reachable state exactly the forced handles do
  (`CoordinatorGuarantees.ReadyHandlesAgreeWithRedis`), and `CoordinatorAdmission.AdmissionOutcome`
  says when a handle is forced. In the run of `CoordinatorDangling.DanglingHandleIsReachable` an
  attempt fails after its put, and the next attempt finds the payload and reports it without fallback.
- An active job can be answered FAILED although no attempt at its batch has failed: two jobs wait for a
  shared batch, the one that owns the task finishes, and the waiting task is cancelled
  (`CoordinatorInterference.OthersEndFailsABatch`); the other trainer gives up on that answer.
  `CoordinatorDelivery.FailedAnswersExplained` gives the exact condition over all runs, and
  `CoordinatorProgress.EveryActiveJobCanBeServed` shows that the coordinator could still serve it.
- A TensorSocket consumer that registers after a batch has been dropped is never sent anything, and as
  long as it stays nobody else is sent more than what had been made already and the first
  max_lag_batches (`TensorSocketLatecomer.LatecomerStarvesAll`).
  `TensorSocketProducer.DrainKeepsInvariant` says exactly which control messages are harmless.
- The published counter of the prefetcher can pass the scheduled one.
  `PrefetcherDelivery.WhenPublishedExceedsScheduled` gives the exact condition.

## Model

| member | source | states |
|---|---|---|
| CoorDLPlan.BuildPlan | experiments/baselines/coordl/plan.py:34-81 | terminates with exactly total_batches entries, entry k being (epoch k div B, index k mod B, owner, slice) with B the floor or ceiling of n/b; refuses exactly the bad arguments and the data sets without a complete minibatch |
| CoorDLPlan.AppendEpoch | experiments/baselines/coordl/plan.py:53-71 | one epoch of the inner loop appends the first min(B, what is still missing) slices in closed form, skipping an incomplete batch under drop_last |
| CoorDLPlan.EntrySpelledOut | experiments/baselines/coordl/plan.py:46-69 | batch i of epoch e is named e{e}_b{i}, prepared by owner i mod N, and holds samples i * b up to (i + 1) * b of the permutation drawn with seed + e, or of 0..n-1 without shuffling |
| CoorDLPlan.EntryIdInjective | experiments/baselines/coordl/plan.py:61 | e{epoch}_b{index} names one batch only |
| CoorDLPlan.ClosedFormIsValid | experiments/baselines/coordl/plan.py:59-67 | a plan in closed form has pairwise distinct batch ids and only existing owners |
| CoorDLPlan.EpochPartitionsKeptSamples | experiments/baselines/coordl/plan.py:46-71 | the entries of a whole epoch concatenate to the permutation drawn with seed + epoch, cut to whole batches under drop_last, so no sample is prepared twice and without dropping each is prepared once |
| CoorDLStaging.KeysAreSeparate | experiments/baselines/coordl/staging.py:104-108 | payload keys and counter keys never coincide and each names one batch |
| CoorDLStaging.StagingStore.Publish | experiments/baselines/coordl/staging.py:11-18 | publishing creates payload and zero counter, and changes nothing when the payload is there |
| CoorDLStaging.StagingStore.Consume | experiments/baselines/coordl/staging.py:20-33 | consuming counts one reader, returns payload and count, and removes both keys with the last of n readers |
| CoorDLStaging.StagingStore.Exists | experiments/baselines/coordl/staging.py:92-93 | answers whether the payload is staged |
| CoorDLProcesses.PreparationOwner.constructor | experiments/baselines/coordl/pipeline.py:133 | the owner starts with exactly its own plan entries in plan order |
| CoorDLProcesses.PreparationOwner.TakeTurn | experiments/baselines/coordl/pipeline.py:155-188 | each turn of the owner loop is an enabled publish or pop of the protocol, a waiting turn is one in which neither is enabled, and completion means nothing is left |
| CoorDLProcesses.BatchIterator.Poll | experiments/baselines/coordl/pipeline.py:231-245 | each poll is the enabled consume step of its job, or changes nothing while the batch is not staged or the plan is exhausted |
| CoorDLProtocol.StagedExactlyWhileNeeded | experiments/baselines/coordl/staging.py:11-33 | in every reachable state a batch is staged iff it is published and some job has not consumed it; its counter is the number of jobs past it, below N; no publish is ever refused |
| CoorDLProtocol.JobsConsumeThePlanInOrder | experiments/baselines/coordl/pipeline.py:231-245 | every job has consumed a prefix of the plan, in order, and got the samples and the owner of each entry |
| CoorDLProtocol.StagingIsBounded | experiments/runners/coordl_runner.py:205-211 | at most window payloads per owner and N times window in total are ever staged |
| CoorDLProtocol.NextIsUnstaged | experiments/baselines/coordl/pipeline.py:181 | the next entry of an owner is never staged already |
| CoorDLProtocol.StepWork | experiments/baselines/coordl/pipeline.py:155-188 | every publish, pop and consume does exactly one unit of the remaining work |
| CoorDLProtocol.NeverStuck | experiments/baselines/coordl/pipeline.py:157-188 | every reachable state that is not final enables a publish, a pop or a consume |
| CoorDLProtocol.EveryMaximalRunFinishes | experiments/baselines/coordl/pipeline.py:155-245 | a run has at most (N + 2) times plan length steps, and it cannot be extended iff it has that many, with all jobs done, deques drained and nothing staged |
| CoorDLProtocol.BuiltPlanIsAccepted | experiments/baselines/coordl/plan.py:43-81 | the plan that the builder returns satisfies what the protocol theorems ask of a plan |
| TensorSocketProducer.StreamIsTheEpochsInOrder | experiments/baselines/tensorsocket/producer.py:246-252 | the shared stream is the loader epochs one after the other, each batch once, and the epoch number of a batch is that of the epoch it lies in |
| TensorSocketProducer.DropThroughBuffered | experiments/baselines/tensorsocket/producer.py:299-303 | dropping acknowledged batches leaves deque and index map holding one and the same contiguous stretch |
| TensorSocketProducer.PruneStartsAtSlowest | experiments/baselines/tensorsocket/producer.py:293-303 | after pruning the buffer starts right behind the slowest acknowledgement |
| TensorSocketProducer.MessageIsWholeStretch | experiments/baselines/tensorsocket/producer.py:210-233 | a consumer with credit is sent the whole stretch up to its limit: the break for a missing batch is never taken |
| TensorSocketProducer.DrainKeepsInvariant | experiments/baselines/tensorsocket/producer.py:140-175 | a control message keeps the retention, credit and lag invariant exactly if it is no registration after a batch has been dropped and no acknowledgement of something not sent |
| TensorSocketProducer.BuildConsumer | experiments/baselines/tensorsocket/producer.py:187-233 | one sending pass, seen from one registered consumer: what it is sent and how far that takes it |
| TensorSocketProducer.PassUsesAllCredit | experiments/baselines/tensorsocket/producer.py:184-233 | a sending pass takes every registered consumer to min(last_acked + buffer size, smallest last_acked + max lag), or leaves it where it is if it was further, and sends it exactly the stretch of the stream up to there |
| TensorSocketProducer.BuildKeepsInvariant | experiments/baselines/tensorsocket/producer.py:177-244 | a sending pass keeps the retention, credit and lag invariant |
| TensorSocketProtocol.DeliveryIsAPrefix | experiments/baselines/tensorsocket/consumer.py:99-143 | over reliable channels every consumer has received a gap-free, duplicate-free prefix of the one shared stream, also while and after it closes |
| TensorSocketProtocol.ClosedIsForgotten | experiments/baselines/tensorsocket/producer.py:172-175 | over reliable channels a consumer is registered as long as it has not closed, and no longer once its close message has arrived |
| TensorSocketProtocol.LossyDeliveryIsASubstream | experiments/baselines/tensorsocket/consumer.py:133-143 | when data, acknowledgements or close messages are lost, what is received is still strictly increasing and has the contents of the stream |
| TensorSocketProtocol.RetentionAndBounds | experiments/baselines/tensorsocket/producer.py:96-109 | deque and index map agree and hold everything above a registered last_acked; buffer, outstanding and lag stay within their bounds, whatever data, acknowledgements or close messages are lost |
| TensorSocketProgress.NeverStalls | experiments/baselines/tensorsocket/producer.py:96-109 | while nobody leaves, some step always moves a batch or an acknowledgement |
| TensorSocketProgress.EveryConsumerGetsEveryBatch | experiments/baselines/tensorsocket/producer.py:86-109 | after a fixed number of moving steps, in any order, every consumer has received the first k batches of the stream |
| TensorSocketLatecomer.LatecomerStarvesAll | experiments/baselines/tensorsocket/producer.py:177-203 | after a registration that comes once a batch has been dropped, and whatever the producer does until that consumer closes, it is sent nothing, and nobody is sent a batch beyond those already made and the first max_lag_batches |
| TensorSocketObjects.TensorProducer.DrainControl | experiments/baselines/tensorsocket/producer.py:140-175 | the drain loop handles the arrived messages in order |
| TensorSocketObjects.TensorProducer.PruneBuffer | experiments/baselines/tensorsocket/producer.py:293-303 | the pruning loop is the pruning step of the protocol, also without consumers |
| TensorSocketObjects.TensorProducer.NextSourceBatch | experiments/baselines/tensorsocket/producer.py:246-252 | reads the next batch of the stream and restarts an exhausted loader one epoch on |
| TensorSocketObjects.TensorProducer.FillBufferThrough | experiments/baselines/tensorsocket/producer.py:237-244 | fills deque and index map through the given index |
| TensorSocketObjects.TensorProducer.RequestedRanges | experiments/baselines/tensorsocket/producer.py:184-203 | the first loop grants a range exactly to the consumers below both last_acked + buffer size and slowest + max lag, up to the smaller of the two, and finds the largest index needed |
| TensorSocketObjects.TensorProducer.SendRequested | experiments/baselines/tensorsocket/producer.py:207-235 | the second loop sends each of them its stretch and marks it as sent |
| TensorSocketObjects.TensorProducer.BuildMessages | experiments/baselines/tensorsocket/producer.py:177-235 | one call is the sending pass of the protocol, returns its messages and leaves nobody with both credit and room in the lag window |
| TensorSocketObjects.TensorConsumer.Fetch | experiments/baselines/tensorsocket/consumer.py:133-143 | the fetch loop skips what it has seen, waits while its queue is full, else queues and acknowledges |
| PrefetcherDelivery.EveryNumberIsInExactlyOnePlace | batchflow/integrations/pytorch/prefetcher.py:223-267 | in every state of every interleaving a sequence number handed out is in exactly one place (coordinator, queues, fetchers, reorder buffer, publisher, shown or lost) and no other number is anywhere |
| PrefetcherDelivery.DeliveryIsInOrder | batchflow/integrations/pytorch/prefetcher.py:433-490 | the BatchItems ever put into the ready queue are 0, 1, 2, ..., the trainer has received a prefix of them, and no queue outgrows its capacity |
| PrefetcherDelivery.EndIsSound | batchflow/integrations/pytorch/prefetcher.py:610-626 | when EndItem is enqueued the history of the ready queue is exactly the scheduled batches in order and then EndItem; nothing was lost and nothing failed |
| PrefetcherDelivery.NothingFollowsTheEnd | batchflow/integrations/pytorch/prefetcher.py:610-626 | nothing is ever enqueued behind EndItem, so it is enqueued at most once |
| PrefetcherDelivery.WhenPublishedExceedsScheduled | batchflow/integrations/pytorch/prefetcher.py:255-258 | the published counter exceeds the scheduled one exactly while a queued task is not yet counted and already published |
| PrefetcherDelivery.PublishedCanExceedScheduled | batchflow/integrations/pytorch/prefetcher.py:255-258 | a concrete run in which that happens |
| PrefetcherSafety.EndMeansAllShown | batchflow/integrations/pytorch/prefetcher.py:610-626 | once the end race is won everything handed out has been shown and nothing is in flight or lost |
| PrefetcherSafety.StepPreserves | batchflow/integrations/pytorch/prefetcher.py:223-668 | every step of every thread, with failures and stops, keeps the pipeline invariant |
| PrefetcherProgress.NeverStuck | batchflow/integrations/pytorch/prefetcher.py:610-668 | without failure or stop, and with a trainer that takes items, some step is possible until EndItem has been taken, despite bounded queues and sentinels |
| PrefetcherProgress.IdleMeansEndDue | batchflow/integrations/pytorch/prefetcher.py:610-626 | when all threads are idle or gone and nothing is queued, the end of the run is due |
| PrefetcherProgress.EveryStepMakesProgress | batchflow/integrations/pytorch/prefetcher.py:223-668 | every step of every thread in every run, failures and stops included, strictly lowers a measure |
| PrefetcherProgress.EveryMaximalQuietRunFinishes | batchflow/integrations/pytorch/prefetcher.py:223-668 | such a run is bounded in length, and one that cannot be continued has delivered all scheduled batches in order and then EndItem |
| PrefetcherProgress.EveryQuietRunCanFinish | batchflow/integrations/pytorch/prefetcher.py:223-668 | from every state on the way the run can be completed |
| PrefetcherFailures.FailuresReachTheTrainer | batchflow/integrations/pytorch/prefetcher.py:259-262 | in a run that is not stopped from outside, after a failure of any thread the trainer has an ErrorItem, finds one in its queue or is being offered one; and the stop event is set only once it is queued |
| PrefetcherFailures.StoppedThreadsEnd | batchflow/integrations/pytorch/prefetcher.py:173-181 | once the stop event is set, no thread can come to rest before it has ended |
| PrefetcherFailures.EveryMaximalRunEnds | batchflow/integrations/pytorch/prefetcher.py:223-668 | every run, whatever fails, is bounded in length; at rest either nothing went wrong and the trainer has all batches and EndItem, or all threads have ended and the trainer has an ErrorItem unless the run was stopped from outside; a failure excludes the former |
| PrefetcherObjects.BatchPrefetcher.constructor | batchflow/integrations/pytorch/prefetcher.py:82-133 | the prefetcher starts in the initial state of the model, with queues of at least one place and at least one fetch thread |
| PrefetcherObjects.BatchPrefetcher.MaybeSendEnd | batchflow/integrations/pytorch/prefetcher.py:610-626 | whichever thread calls it, it claims the end exactly if the end is due and then offers the end marker; otherwise the thread goes on |
| PrefetcherObjects.BatchPrefetcher.PublishReady | batchflow/integrations/pytorch/prefetcher.py:450-456 | the inner loop is a run of publisher steps that ends when the next number is not buffered or an acknowledgement fails; its puts wait for room in the ready queue, and a batch dropped because of a stop is accounted for |
| PrefetcherObjects.BatchPrefetcher.PutReadyItem | batchflow/integrations/pytorch/prefetcher.py:660-668 | whichever thread calls it, the item goes into the ready queue as soon as there is room, or is dropped if the stop event is set first; both are steps of that thread |
| PrefetcherObjects.BatchPrefetcher.SignalError | batchflow/integrations/pytorch/prefetcher.py:628-630 | offers the error and then sets the stop event |
| PrefetcherObjects.BatchPrefetcher.GetNextFetchTask | batchflow/integrations/pytorch/prefetcher.py:269-346 | polls until a batch, the end, a failure or the stop event; exactly a usable answer gets the next sequence number |
| PrefetcherObjects.BatchPrefetcher.PutTask | batchflow/integrations/pytorch/prefetcher.py:632-640 | queues the task within the capacity, or loses it to the stop event |
| PrefetcherObjects.BatchPrefetcher.CoordinatorLoop | batchflow/integrations/pytorch/prefetcher.py:244-267 | the loop with its error handling and sentinels is a run of coordinator steps, whatever the other threads, the trainer and the coordinator service do in between, and ends the thread; it hands out one number per batch it was given, declares itself done only at the limit, at the end or on a stop, and swallows no failure |
| PrefetcherObjects.BatchPrefetcher.FetchTask | batchflow/integrations/pytorch/prefetcher.py:365-374 | fetches once; a failure becomes a step of failing and, unless the run is being stopped, an ErrorItem and the stop event; a result goes to the publisher or is lost to a stop |
| PrefetcherObjects.BatchPrefetcher.FetchLoop | batchflow/integrations/pytorch/prefetcher.py:353-378 | the loop with its except and finally clauses is a run of steps of that fetch thread under any interference, ends the thread, never waits while it has a step to make, and follows each failed fetch by a step of failing |
| PrefetcherObjects.BatchPrefetcher.AcknowledgeAndPublish | batchflow/integrations/pytorch/prefetcher.py:469-490 | acknowledges once and then offers the batch to the trainer; a failed acknowledgement is raised |
| PrefetcherObjects.BatchPrefetcher.Wait | batchflow/integrations/pytorch/prefetcher.py:357-360 | a thread may begin to wait only if its last wait has left it nothing to do or it has done it |
| PrefetcherObjects.BatchPrefetcher.PublishLoop | batchflow/integrations/pytorch/prefetcher.py:441-463 | the loop with its reorder buffer and error handling is a run of publisher steps under any interference, ends the thread, never waits while it has a step to make, and swallows no failed acknowledgement |
| PrefetcherObjects.BatchPrefetcher.TrainerSees | batchflow/integrations/pytorch/prefetcher.py:433-490 | whenever the fields show where a run has led, what the trainer has got and what still lies in its queue are batches 0, 1, 2, ... in order, and with the end marker exactly the scheduled batches and then the marker |
| PrefetcherObjects.BatchPrefetcher.FailedCallsReachTheTrainer | batchflow/integrations/pytorch/prefetcher.py:628-630 | once a failed fetch, acknowledgement or coordinator call has been gone on from, the trainer has an error, finds it in its queue or is being offered it, unless the run was stopped from outside |
| PrefetcherObjects.BatchPrefetcher.ThreadsEndWell | batchflow/integrations/pytorch/prefetcher.py:223-668 | when nobody can do anything any more, the trainer has all batches and the end marker, or an error |
| PrefetcherThreads.HaltedIsNotDue | batchflow/integrations/pytorch/prefetcher.py:483-490 | a publisher that has dropped a batch because of a stop never finds the end of the run due |
| CoordinatorPlan.SplitSamples | batchflow/coordinator/batch_coordinator.py:84-105 | the loop cuts the samples into consecutive groups, dropping an incomplete last one under drop_last, and fails exactly for a batch size that is not positive |
| CoordinatorPlan.GroupsPerEpoch | batchflow/common/core.py:98-106 | an epoch has exactly batches_per_epoch groups |
| CoordinatorPlan.GroupsPartitionTheEpoch | batchflow/coordinator/batch_coordinator.py:57-67 | the groups concatenate to the shuffled samples, cut to whole batches under drop_last |
| CoordinatorPlan.GroupSpelledOut | batchflow/coordinator/batch_coordinator.py:57-67 | group i of an epoch is samples i * b up to (i + 1) * b of the samples shuffled with seed + epoch, or of the samples as they are |
| CoordinatorPlan.KeptSpelledOut | batchflow/coordinator/batch_coordinator.py:57-67 | the kept samples of an epoch are the samples shuffled with seed + epoch, cut to whole batches under drop_last |
| CoordinatorPlan.PlanIdInjective | batchflow/coordinator/batch_coordinator.py:135-137 | a plan id names one data set and epoch |
| CoordinatorPlan.BatchIdInjective | batchflow/coordinator/batch_coordinator.py:139-148 | for one owner (or shared batches) a batch id names one data set, epoch and index, whatever the names contain |
| CoordinatorPlan.BatchCoordinator.GetOrBuildEpochPlan | batchflow/coordinator/batch_coordinator.py:49-82 | the memo always returns the plan that building anew would give, whose groups concatenate to the samples shuffled with seed + epoch, cut under drop_last |
| CoordinatorPlan.BatchCoordinator.GetBatchesForJob | batchflow/coordinator/batch_coordinator.py:24-47 | returns the next lookahead batches of the epoch from the given index |
| CoordinatorState.ValuePositiveIffWanted | batchflow/coordinator/scheduler.py:203-259 | V(k) is never negative, and positive exactly when some active job of that data set has k in its extended lookahead |
| CoordinatorState.AveragesStayPositive | batchflow/coordinator/store.py:292-313 | moving averages of positive samples stay positive for any smoothing factor |
| CoordinatorValue.TargetDepthMeans | batchflow/coordinator/scheduler.py:51-77 | with both times known the depth is the least one with depth * compute time >= preparation time, never above a positive lookahead; otherwise the configured number of ready batches, at least one, cut likewise |
| CoordinatorValue.CoverageMeans | batchflow/coordinator/scheduler.py:242-251 | coverage times depth is the number of the next depth batches that are ready or in flight |
| CoordinatorValue.WishMeans | batchflow/coordinator/scheduler.py:222-238 | a job wants a payload at its first place among the next multiplier times target depth batches |
| CoordinatorValue.ValueGrows | batchflow/coordinator/scheduler.py:203-259 | a payload that every job wants at least as soon, takes as long to prepare and whose jobs are covered no better is worth at least as much, and strictly more if some job wants it sooner or wants only it, or it takes longer, or (beta > 0) a job that wants it is covered worse |
| CoordinatorValue.ValueForOneJob | batchflow/coordinator/scheduler.py:238-259 | wanted by one job at place p, a payload is worth preparation time / (p + 1) * (1 + beta * (1 - coverage)) |
| CoordinatorCache.ChoiceIsUnique | batchflow/coordinator/cache_manager.py:105-145 | the shortest sufficient stretch of the (value, last access, key) ranking is the only possible choice of victims |
| CoordinatorCache.WantedEvictedLast | batchflow/coordinator/cache_manager.py:124-143 | when a victim of positive value goes, every unpinned payload of value zero goes in the same admission |
| CoordinatorValue.VictimIsNoBetter | batchflow/coordinator/cache_manager.py:124-143 | a victim is worth less than what comes in and no more than any unpinned payload that stays, and among equals it is the one unused for longest |
| CoordinatorValue.VictimsAreLessUrgent | batchflow/coordinator/cache_manager.py:124-143 | a victim is never wanted by every job at least as soon as, and by some job sooner than, an unpinned payload that stays |
| CoordinatorCalls.EvictsJustEnough | batchflow/coordinator/cache_manager.py:136-145 | with its victims gone the payload fits, and with the last of them kept it would not |
| CoordinatorCalls.EvictionsClear | batchflow/coordinator/cache_manager.py:147-162 | evicting cached payloads deletes their Redis keys, entries and handles, and nothing else |
| CoordinatorAdmission.UnwantedGoFirst | batchflow/coordinator/cache_manager.py:124-143 | when a wanted payload is evicted every unpinned payload that no job wants is evicted with it |
| CoordinatorAdmission.EvictAllFrees | batchflow/coordinator/cache_manager.py:69-71 | evicting the victims frees exactly their bytes |
| CoordinatorAdmission.AdmittedIffRoom | batchflow/coordinator/cache_manager.py:63-88 | a payload is admitted exactly when it fits the capacity and the candidates can make enough room; the second capacity test never fails |
| CoordinatorAdmission.AdmissionOutcome | batchflow/coordinator/cache_manager.py:171-224 | after a completion from Redis the key is in Redis iff there was room, the READY handle points to Redis iff there was room or no fallback, and it is marked forced iff there was neither |
| CoordinatorAdmission.ForcedHandleCanDangle | batchflow/coordinator/cache_manager.py:179-201 | a payload beyond the capacity that its worker has found in Redis, and so reports without fallback, leaves a READY handle naming a key that has just been deleted |
| CoordinatorCompletion.CompletionRecords | batchflow/coordinator/service.py:386-482 | after a completion the entry has the reported size, the present time and the data set, and is with the worker at the reported host, port and expiry, in Redis, with the fallback as reported, or forced; the handle says the same |
| CoordinatorCompletion.CompletionTeaches | batchflow/coordinator/service.py:410-436 | a completion feeds its size, and its duration if it has one, to the averages of its data set |
| CoordinatorCompletion.AverageMoves | batchflow/coordinator/store.py:292-345 | an average moves the fraction alpha of the way to a positive sample, starts with the first one, and ignores others |
| CoordinatorCompletion.CompletionFreesWorker | batchflow/coordinator/store.py:640-672 | a completed or failed task is charged to no worker any more |
| CoordinatorDangling.DanglingHandleIsReachable | batchflow/data_worker/data_worker.py:212-228 | for every bounded cache a run from the start that leads there: an attempt puts the payload and fails, the next one finds it |
| CoordinatorBoard.OneLiveTaskPerBatch | batchflow/coordinator/store.py:542-563 | a batch has at most one live task |
| CoordinatorBoard.RemovalBetweenCompletions | batchflow/coordinator/store.py:736-759 | in a possible history of a payload two completions have a removal between them |
| CoordinatorBoard.GivenUpBetweenStarts | batchflow/coordinator/store.py:608-672 | and two assignments have a failure or a removal between them |
| CoordinatorBoard.CreateKeepsCoherence | batchflow/coordinator/store.py:530-585 | create_task keeps index, tasks, entries and handles coherent |
| CoordinatorBoard.AssignKeepsCoherence | batchflow/coordinator/store.py:608-628 | so does assigning, or cancelling at assignment |
| CoordinatorBoard.CompleteKeepsCoherence | batchflow/coordinator/store.py:630-653 | so does completing a running task |
| CoordinatorBoard.FailKeepsCoherence | batchflow/coordinator/store.py:655-672 | so does failing a running task |
| CoordinatorBoard.CancelKeepsCoherence | batchflow/coordinator/store.py:170-175 | so does cancelling the waiting tasks of a finished job |
| CoordinatorBoard.RemoveKeepsCoherence | batchflow/coordinator/store.py:736-759 | so does removing a payload |
| CoordinatorPins.PinAgrees | batchflow/coordinator/store.py:698-704 | pinning adds one key to one job and keeps both pin maps in agreement |
| CoordinatorPins.UnpinAgrees | batchflow/coordinator/store.py:706-718 | unpinning removes just that pin |
| CoordinatorPins.ReleaseAgrees | batchflow/coordinator/store.py:724-734 | releasing a job removes all its pins and nobody else's |
| CoordinatorPins.InUseMeansPinned | batchflow/coordinator/store.py:720-722 | the pin count is positive exactly when some job has the key pinned |
| CoordinatorRuns.StepPreserves | batchflow/coordinator/service.py:132-726 | every remote call, worker report and maintainer pass keeps the whole invariant |
| CoordinatorGuarantees.LifecycleIsCoherent | batchflow/coordinator/store.py:530-672 | in every reachable state, per batch id: no index means no entry and no handle; PENDING, RUNNING or CANCELLED means a PENDING entry and no handle; COMPLETED means AVAILABLE and the handle built from the entry; FAILED means FAILED and no handle; at most one live task |
| CoordinatorGuarantees.MaterialisedOnce | batchflow/coordinator/store.py:542-563 | over every run two completions of a batch id have a removal between them, two assignments a failure or a removal |
| CoordinatorGuarantees.PinsAreTheOutstandingBatches | batchflow/coordinator/service.py:250-259 | a job's pins are exactly the batches issued READY to it and not acknowledged since, a finished job has none, and whatever is pinned has a READY handle |
| CoordinatorGuarantees.StepSparesPinned | batchflow/coordinator/service.py:523-539 | no step removes or relocates the entry or the handle of a key that is in use |
| CoordinatorGuarantees.PinnedPayloadsSurvive | batchflow/coordinator/store.py:736-740 | over any stretch of a run in which a key stays in use its handle stays the same, and at the end a handle that points to Redis names a present key exactly if it was not forced |
| CoordinatorGuarantees.ReadyHandlesAgreeWithRedis | batchflow/data_worker/data_worker.py:284-331 | in every reachable state a READY handle with a Redis location names a key present in Redis if and only if it was not forced there |
| CoordinatorGuarantees.BudgetIsKept | batchflow/coordinator/cache_manager.py:63-88 | the AVAILABLE reusable Redis entries that are not forced never total more than a positive capacity by their recorded sizes |
| CoordinatorCompletion.BudgetIsKeptAsReported | batchflow/coordinator/cache_manager.py:63-88 | over every run, the payloads that READY handles point to in the cache, by the sizes that workers reported, never total more than a positive capacity |
| CoordinatorDelivery.IssueOrder | batchflow/coordinator/service.py:211-279 | the m-th READY batch issued to a job is batch m mod B of epoch m div B, with its stretch of the samples shuffled with seed + epoch: no gap, no repeat, across epoch wraps |
| CoordinatorDelivery.SharedJobsSeeTheSame | batchflow/coordinator/batch_coordinator.py:38-47 | with reuse two jobs on one data set are issued the same batches in the same order |
| CoordinatorDelivery.EpochIsComplete | batchflow/coordinator/batch_coordinator.py:57-67 | what a job is issued in epoch e concatenates to the samples shuffled with seed + e (or as they are without shuffling), cut to whole batches under drop_last |
| CoordinatorDelivery.DoneOnlyWhenOver | batchflow/coordinator/service.py:194-245 | a known job is told done exactly when it is not active or its data set has no batch |
| CoordinatorDelivery.AnswersFollowTheCourse | batchflow/coordinator/service.py:247-270 | a READY answer carries the stored handle of the next batch, appends it to what was issued and leaves it in use; any other answer issues and pins nothing |
| CoordinatorDelivery.AnswerMirrorsTheTask | batchflow/coordinator/scheduler.py:368-429 | READY iff the current task completed, FAILED iff the last attempt failed or was cancelled, PENDING otherwise |
| CoordinatorDelivery.FailedAnswersExplained | batchflow/coordinator/store.py:154-177 | in every reachable state an active job is answered FAILED iff the last attempt at its next batch failed, or was cancelled as a task of another job, which has finished |
| CoordinatorDelivery.CancelledBelongsToFinished | batchflow/coordinator/store.py:168-176 | a cancelled task belongs to a finished job, so for an active job always to another one |
| CoordinatorInterference.OthersEndFailsABatch | batchflow/coordinator/store.py:168-176 | for every configuration with reuse a run in which two jobs wait for one batch, the owner of its task finishes and the other, still active, is answered FAILED although nothing has failed |
| CoordinatorJobSteps.UpcomingIsTheWindow | batchflow/coordinator/service.py:690-726 | an active job's upcoming batches are always exactly its freshly planned window |
| CoordinatorJobSteps.AdvancedPosition | batchflow/coordinator/service.py:254-268 | issuing moves a job one batch on, over the end of an epoch to the start of the next |
| CoordinatorCalls.StartMeans | batchflow/coordinator/service.py:142-172 | a known job or unknown data set is refused; otherwise just this job is added, active at the start of epoch 0, listed last |
| CoordinatorCalls.WindowMeans | batchflow/coordinator/batch_coordinator.py:24-47 | an active job has in view the next max(1, lookahead or default) batches of its epoch, or what is left of it |
| CoordinatorCalls.AskingMeans | batchflow/coordinator/service.py:174-279 | asking records the reported compute time and touches exactly the entry of the batch handed out |
| CoordinatorCalls.AcknowledgingMeans | batchflow/coordinator/service.py:281-305 | an acknowledgement of an epoch that the job has reached releases just that pin, any other changes nothing |
| CoordinatorCalls.FinishingMeans | batchflow/coordinator/store.py:154-177 | a job ends once with the status given then, loses window and pins, and exactly its own waiting tasks are cancelled |
| CoordinatorCalls.RegisteringMeans | batchflow/coordinator/store.py:478-491 | a registered worker has no task, others keep theirs |
| CoordinatorCalls.ChoiceMeans | batchflow/coordinator/scheduler.py:495-522 | the chosen task is a job's if one waits, of the highest priority among those, and the oldest among equals |
| CoordinatorCalls.PollingMeans | batchflow/coordinator/service.py:363-384 | the chosen task runs on the polling worker, which is charged with it, and nothing else changes hands |
| CoordinatorCalls.FailingMeans | batchflow/coordinator/service.py:484-493 | a failed task is over, its entry says so and its batch is neither ready nor in flight |
| CoordinatorCalls.ExpiryMeans | batchflow/coordinator/service.py:523-539 | an expiry pass removes exactly the visited entries that have run out and that nobody is fetching |
| CoordinatorScheduling.SchedulingMeetsTheTarget | batchflow/coordinator/service.py:541-586 | after a scheduling pass exactly min(target depth, upcoming count) of the job's next batches are ready or in flight |
| CoordinatorCalls.SchedulingMeans | batchflow/coordinator/service.py:541-586 | the pass only adds waiting tasks of this job, for uncovered batches within the depth, with the given priority and storage |
| CoordinatorScheduling.PrefetchUsesOnlySpareCapacity | batchflow/coordinator/service.py:588-688 | the opportunistic pass acts only if every active job is covered to its target depth, only adds tasks for batches nobody had in hand, and afterwards no more tasks wait than workers are idle |
| CoordinatorCalls.PrefetchingMeans | batchflow/coordinator/service.py:588-688 | the pass acts only with reuse, prefetching and Redis on and some active job, and adds tasks for candidates only |
| CoordinatorCalls.PrefetchOrdersTheBest | batchflow/coordinator/service.py:645-688 | if it may act and there is a candidate, it orders the most valuable one, for no job and for reuse |
| CoordinatorCalls.CandidateMeans | batchflow/coordinator/service.py:612-643 | a candidate lies between target depth and multiplier times target depth of an active job, is not in hand and is worth something |
| CoordinatorCalls.AdmissibleMeans | batchflow/coordinator/cache_manager.py:90-103 | it must fit beside what is cached, or beside what is left when unpinned payloads worth less are given up, by its estimated size; with no estimate there must be room left |
| CoordinatorCalls.RoundingMeans | batchflow/coordinator/cache_manager.py:96 | the estimate is rounded to the nearest integer, halves to even |
| CoordinatorProgress.EveryActiveJobCanBeServed | batchflow/coordinator/service.py:541-586 | from every reachable state maintainer and workers alone can bring an active job's next batch to READY, after any failures and cancellations; if it was not READY before, with a handle that the trainer accepts |
| CoordinatorProgress.ChoiceExists | batchflow/coordinator/scheduler.py:495-522 | there is a task to choose exactly when one is waiting |
| CoordinatorStoreObject.CoordinatorStore.CreateTask | batchflow/coordinator/store.py:530-585 | refuses for an inactive job, returns the live task that serves the batch, else creates one; new state as in the model |
| CoordinatorStoreObject.CoordinatorStore.RegisterDataset | batchflow/coordinator/store.py:106-108 | adds or replaces the data set of that id |
| CoordinatorStoreObject.CoordinatorStore.RegisterWorker | batchflow/coordinator/store.py:478-491 | adds or replaces the worker, without tasks |
| CoordinatorStoreObject.CoordinatorStore.AssignTaskToWorker | batchflow/coordinator/store.py:608-628 | hands a waiting task to a worker, or cancels it when its job has ended |
| CoordinatorStoreObject.CoordinatorStore.CompleteTask | batchflow/coordinator/store.py:630-653 | records entry and handle and discharges the worker |
| CoordinatorStoreObject.CoordinatorStore.FailTask | batchflow/coordinator/store.py:655-672 | marks task and entry failed and discharges the worker |
| CoordinatorStoreObject.CoordinatorStore.FinishJob | batchflow/coordinator/store.py:154-177 | closes an active job once, and its loop cancels exactly that job's waiting tasks |
| CoordinatorStoreObject.CoordinatorStore.IssueBatchToJob | batchflow/coordinator/store.py:189-220 | advances only an active job at exactly that position |
| CoordinatorStoreObject.CoordinatorStore.PinPayload | batchflow/coordinator/store.py:698-704 | pins only a payload that has an entry |
| CoordinatorStoreObject.CoordinatorStore.UnpinPayload | batchflow/coordinator/store.py:706-718 | unpins in both maps and drops empty sets |
| CoordinatorStoreObject.CoordinatorStore.ReleaseJobPayloadPins | batchflow/coordinator/store.py:724-734 | visiting the job's own keys releases all its pins in both maps |
| CoordinatorStoreObject.CoordinatorStore.RemovePayload | batchflow/coordinator/store.py:736-759 | refuses a payload in use; otherwise removes entry, handle, index and task and disturbs no pin |
| CoordinatorStoreObject.CoordinatorStore.ReusableCacheBytes | batchflow/coordinator/store.py:688-696 | the loop sums exactly the cached payloads |
| CoordinatorStoreObject.CoordinatorStore.UpcomingBatches | batchflow/coordinator/store.py:384-394 | lists the planned batches at or after the job's position |
| CoordinatorStoreObject.CoordinatorStore.GetBatch | batchflow/coordinator/store.py:372-382 | finds the first planned batch at a position |
| CoordinatorStoreObject.CoordinatorStore.CountReadyOrInflight | batchflow/coordinator/store.py:419-449 | counts the covered ones among the first limit upcoming batches |
| CoordinatorStoreObject.CoordinatorStore.CountPendingTasks | batchflow/coordinator/store.py:521-528 | counts the waiting tasks |
| CoordinatorStoreObject.CoordinatorStore.CountIdleWorkers | batchflow/coordinator/store.py:512-519 | counts the workers without a task |
| CoordinatorStoreObject.CoordinatorStore.ChooseNextTask | batchflow/coordinator/scheduler.py:495-522 | chooses a near-term task before any opportunistic one, the highest priority among those, the oldest among equals |
| CoordinatorObjects.Coordinator.ComputeCacheKeyValue | batchflow/coordinator/scheduler.py:203-259 | the loop over the active jobs computes V(k) |
| CoordinatorObjects.Coordinator.RankCandidates | batchflow/coordinator/cache_manager.py:125-135 | collects exactly the unpinned cached payloads worth less than the incoming one, in (value, last access, key) order |
| CoordinatorObjects.Coordinator.ChooseEvictionVictims | batchflow/coordinator/cache_manager.py:105-145 | the victims are the shortest stretch of that ranking that frees enough; None exactly when the payload exceeds the capacity or all candidates together do not suffice |
| CoordinatorObjects.Coordinator.EvictPayload | batchflow/coordinator/cache_manager.py:147-162 | removes an unpinned payload with its Redis key, and leaves a pinned one alone |
| CoordinatorObjects.Coordinator.AdmitReusablePayload | batchflow/coordinator/cache_manager.py:42-88 | evicts the chosen victims and keeps the payload, or deletes its key and places it with its fallback |
| CoordinatorObjects.Coordinator.CompleteMaterialization | batchflow/coordinator/service.py:386-482 | learns the estimates, decides about admission and records the result with the reported size at the present time: the completion step of the model |
| CoordinatorObjects.Coordinator.FailMaterialization | batchflow/coordinator/service.py:484-493 | the failure step of the model |
| CoordinatorObjects.Coordinator.PollMaterializationTask | batchflow/coordinator/service.py:363-384 | chooses and assigns: the polling step of the model |
| CoordinatorObjects.Coordinator.RefreshJobWindow | batchflow/coordinator/service.py:690-726 | plans the window again when forced or when it has become too short |
| CoordinatorObjects.Coordinator.GetNextBatch | batchflow/coordinator/service.py:174-279 | answer and new state are those of the model, and the next call can follow |
| CoordinatorObjects.Coordinator.AcknowledgeBatch | batchflow/coordinator/service.py:281-305 | refuses an epoch ahead of the job; otherwise releases just that pin |
| CoordinatorObjects.Coordinator.FinishJob | batchflow/coordinator/service.py:307-331 | closes the job, cancels its waiting tasks, releases its pins and drops its window |
| CoordinatorObjects.Coordinator.StartJob | batchflow/coordinator/service.py:142-172 | refuses exactly a known job or an unknown data set; otherwise plans and schedules |
| CoordinatorObjects.Coordinator.RegisterDataset | batchflow/coordinator/service.py:132-140 | adds a new data set, of which no plan can have been remembered |
| CoordinatorObjects.Coordinator.RegisterWorker | batchflow/coordinator/service.py:335-358 | adds the worker, without tasks even if it was known |
| CoordinatorObjects.Coordinator.CleanupExpired | batchflow/coordinator/service.py:523-539 | looks at every entry exactly once and removes the expired ones that nobody uses |
| CoordinatorObjects.Coordinator.ScheduleJobBatches | batchflow/coordinator/service.py:541-586 | the loop with its counters is the scheduling pass of the model |
| CoordinatorPrefetch.CanAdmitEstimatedPayload | batchflow/coordinator/cache_manager.py:90-103 | true exactly when room can be made for the estimated size |
| CoordinatorPrefetch.CanOpportunisticallyPrefetch | batchflow/coordinator/scheduler.py:280-299 | true exactly for a wanted batch that nobody has in hand, with the feature on |
| CoordinatorPrefetch.DemandIsCovered | batchflow/coordinator/service.py:600-610 | finds whether every active job is covered to its target depth |
| CoordinatorPrefetch.RankPrefetches | batchflow/coordinator/service.py:620-650 | collects one candidate per key beyond the target depths, all of them, most valuable first |
| CoordinatorPrefetch.SchedulePrefetch | batchflow/coordinator/service.py:588-688 | the whole pass is the opportunistic step of the model |

## Left out

- CoordinatorGuarantees.ReadyHandlesAgreeWithRedis: does not model a failing Redis deletion (the code logs it and goes on), keys expiring in Redis or a server restart, because Redis calls are assumed to succeed.
- CoordinatorObjects.Coordinator.RegisterDataset: does not model registering a data set again under a known id, which the code allows; plans remembered from before would then be handed out still.
- CoordinatorDelivery.IssueOrder: does not model two concurrent callers of one job, because a job has one sequential caller.
- TensorSocketProtocol.DeliveryIsAPrefix: does not cover a consumer that registers after the first publish; what happens then is the subject of TensorSocketLatecomer.LatecomerStarvesAll.
- PrefetcherObjects.BatchPrefetcher.CoordinatorLoop: follows a finite schedule of what happens around the thread and stops where the schedule ends while the thread is waiting, because a loop must terminate here; connecting to the coordinator and starting the job are left out.
- CoordinatorPlan.BatchIdInjective: does not compare ids of different owners, because the job suffix is ambiguous when names contain the separators.
- CoordinatorStoreObject.CoordinatorStore.ChooseNextTask: scans for the best task where the code sorts the list and takes the first, because only the first is used.
- Aliasing of the store's mutable records: entries, jobs and task states are values that the fields of a class replace, so a reference held across calls is not modelled.
- The numeric priority of a task and the choice between reusable and transient storage: weighted sums that only rank or classify; they are arbitrary inputs of the scheduling step, except that without reuse storage is transient.
- Counters and metrics that no decision reads, heartbeats, log messages, failure texts and the time stamps of tasks.
- gRPC, ZeroMQ and Redis transport, protobuf conversion, serialisation, tensors, decoding and transforms: payloads are opaque.
- The worker-local payload store: only which outcome a worker reports, and with which fallback, is modelled.
- Timeouts, poll intervals, the stop event and cleanup of CoorDL owners, and the shutdown messages of TensorSocket.
- Dataset building, configuration, deployment, process launching, reporting, plotting and the training loops.
- Store helpers that no caller uses (`put_payload_entry`, `delete_payload_entry`, `put_batch_handle`, `delete_batch_handle`, `count_ready_or_inflight_from_index`) and `choose_next_batch_for_job`.
