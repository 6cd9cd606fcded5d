# Dato Core, verified models

Dafny models of the stateful protocols and value-level cores of Dato Core, with proofs over every run, every
interleaving or every value. `dafny verify dfyconfig.toml` checks the whole project.

* **Termination detection** (`ConsensusNode`, `AsyncConsensus`, `TerminationDetection`, `TerminationSafety`,
  `TerminationBound`, `PresetMarker`). N processes with several fibers each pass one token round a ring. A declared
  completion means that nothing runs and nothing is in flight; detection takes at most two rounds; the constructor's
  preset marker is the one exception, and exactly when it is wrong is stated and proved.
* **Fibers** (`FiberScheduler`, `FiberControl`, `SchedulerSafety`, `SchedulerOrder`, `FiberBarrier`). Every live fiber is
  in exactly one place, no wake-up is lost or doubled, every queue is first in first out over whole runs, a wake lands on
  the queue its priority asks for, and the sense-reversing barrier separates its rounds.
* **Replicated query objects** (`QueryObject`, `Replication`, `ReplicationSafety`, `ReplicationLimits`, `ObjectKeys`).
  Along every run that meets a condition on its steps, and with any number of threads, a replica is an exact prefix of
  its master. It is so in every reachable state if and only if four conditions hold; the code as built meets none of
  them, and replicas can silently lose updates. At most one process is master; promotion keeps a prefix; store names
  never collide.
* **The bounded cache** (`CacheBlock`, `CacheStore`, `CacheRefinement`, `CacheAccounts`, `CacheHollow`, `CacheObjects`,
  `CacheUtilization`). With spills and evictions anywhere, the cache answers as a plain object store does; no memory,
  block or file is leaked, and a creation gives back the victim's memory and takes what room there is then. The unlocked
  utilization counter stays within a bound under any interleaving, and exceeds the limit exactly when two threads can
  race and blocks can grow.
* **Flexible values** (`FlexValues`, `FlexEquality`, `FlexOrder`, `FlexConverter`, `FlexShapes`). Approximate equality is
  equality of meaning, equal values hash alike, the two comparison operators are one strict order, that of the meanings,
  and every convertible C++ type matches exactly one converter case. Which flexible value stands for a C++ value, and
  what each is read as, is told by shapes alone. A value of any such type survives the round trip if and only if the integers in
  it that pass through arrays of doubles are doubles (`Doubles` defines them and their rounding).
* **Files and names** (`TempFiles`, `FilePool`, `FileRaces`, `S3Url`). Looking up temporary names by lower bound is exact just as long
  as no name is another with digits dropped, which one directory allows for a million names and no more. File handles
  and deferred deletion, with threads in between too. S3 URLs round-trip and sanitize injectively.

`Prelude`, `Sums`, `Division`, `Texts` and `Decimals` hold what several of these share.

A system is a value, `Enabled` and `Apply` describe its steps, `Run` and `Reachable` its behaviours. Where the source
changes objects in place there is a class beside the value model, and each of its methods is proved to do what the
step function does to the object's state; the laws are proved about the step functions.

Choices worth knowing:

* A counted call's arrival (count, handler, wake-up) is one step, and so is a fiber's whole pass through the critical
  section up to its next sleep.
* The scheduler's wakers follow the documented rule: a fiber is woken under the mutex it passed to `deschedule_self`.
  `WithoutTheRuleTheAssertionFails` shows that the rule is needed.
* `Replication.Config` leaves open four things that decide whether replicas agree. `AS_BUILT` is what the code does. Its
  master runs four callback threads (the default at src/fault/sockets/async_reply_socket.hpp:87, taken at
  src/fault/query_object_server_master.cpp:41-44) and reads the version before taking the lock. A replica clears
  `waiting_for_snapshot` before installing the snapshot, and receives the snapshot on another socket than the updates.
  A survivor of a dead master is reconnected to the next one (src/fault/sockets/subscribe_socket.cpp:89-105, 183-203)
  without comparing versions. `ReplicationLimits.AsBuilt` draws the conclusion; the run-level theorems say which runs
  of the code are good all the same.
* `city_hash_visitor` says it combines with xor and hashes keys and values. It combines with or, and hashes the key
  twice; the model does what the code does.
* Entries created while the cache is full get no memory. Reading such an entry before anything was written to it goes
  through a null pointer; `ReadBreaksExactly` states when, and `ReadsCanBreak` gives such a run for any limits.
* Converting a double that lies outside the range of an integer type is undefined in C++. Here it wraps, which is what
  x86-64 does with the two values that can occur, 2^63 and 2^64.
* Integers are unbounded unless a width is written out. Identifiers, counters and versions do not wrap.

## Model

| member | source | states |
|---|---|---|
| TerminationSafety.TerminationIsSafe | src/fiber/fiber_async_consensus.cpp:226-299 | in every reachable state, a completion declared on a marker some process wrote, or on the preset one with nothing sent by the last process, means that every fiber of every process is idle, no counted call is in flight, and every process not yet told has its message on the way |
| TerminationSafety.DoneOnlyAfterCompletion | src/fiber/fiber_async_consensus.cpp:82-87 | no process is done before completion was declared, and in a process that is done no fiber stays descheduled |
| TerminationSafety.TokenConservation | src/fiber/fiber_async_consensus.cpp:102-299 | always exactly one token, held or on its way; its totals are the sums of the recorded counters; calls sent are calls received plus calls in flight; an idle process never keeps the token; active fibers plus set sleeping flags make up all fibers |
| TerminationSafety.StepKeeps | src/fiber/fiber_async_consensus.cpp:82-299 | every step of every process keeps the marker invariant from which the above follows |
| TerminationBound.OnlyTheTokenMoves | src/fiber/fiber_async_consensus.cpp:213-224 | in a quiet, undetected state the token can move and nothing else can |
| TerminationBound.DetectsWithinTwoRounds | src/fiber/fiber_async_consensus.cpp:213-299 | from every reachable quiet state every run has declared completion after at most two visits per process, and until then the token can move |
| PresetMarker.PresetIsSafeExactlyWhenNothingSent | src/fiber/fiber_async_consensus.cpp:58-61 | completing on the preset marker is right in all runs if and only if the last process had sent no counted call by then |
| PresetMarker.PrematureCompletion | src/fiber/fiber_async_consensus.cpp:226-262 | for any number of processes, fibers and sent calls, a run that completes on the preset marker with those calls still in flight |
| ConsensusNode.CancelReleasesAll | src/fiber/fiber_async_consensus.cpp:154-191 | cancel leaves no fiber descheduled, wakes exactly those that were, and leaves the process active |
| ConsensusNode.CancelOneReleases | src/fiber/fiber_async_consensus.cpp:193-211 | cancel_one releases the fiber named if it slept and touches no other |
| ConsensusNode.ForceDoneReleasesAll | src/fiber/fiber_async_consensus.cpp:82-87 | force_done leaves no fiber descheduled |
| ConsensusNode.PassTokenKeeps | src/fiber/fiber_async_consensus.cpp:226-299 | passing or completing keeps the process's own invariant |
| ConsensusNode.ReceiveTokenKeeps | src/fiber/fiber_async_consensus.cpp:213-224 | receiving the token keeps the process's own invariant |
| ConsensusNode.FinishWhenDone | src/fiber/fiber_async_consensus.cpp:102-109 | a fiber that finds done set leaves at once, nothing else changing |
| ConsensusNode.FinishBySleeping | src/fiber/fiber_async_consensus.cpp:116-147 | a fiber that is not the last active one, or has no token to pass, goes to sleep and sends nothing |
| ConsensusNode.FinishByPassing | src/fiber/fiber_async_consensus.cpp:116-147 | the last active fiber with the token records the counters, sends the token on and sleeps |
| ConsensusNode.FinishByCompleting | src/fiber/fiber_async_consensus.cpp:226-262 | the last active fiber that meets its own marker with equal totals broadcasts completion |
| ConsensusNode.ResumeKeeps | src/fiber/fiber_async_consensus.cpp:131-151 | a woken fiber leaves the critical section, for good if done is set, and nothing else changes |
| ConsensusNode.ArrivalPasses | src/fiber/fiber_async_consensus.cpp:213-299 | a token arriving at an idle process that cannot complete is stamped and passed to the next |
| ConsensusNode.ArrivalCompletes | src/fiber/fiber_async_consensus.cpp:213-262 | a token arriving at an idle process that can complete is not passed on, and the process is done |
| AsyncConsensus.Detector.constructor | src/fiber/fiber_async_consensus.cpp:44-61 | builds the initial process state, preset marker included |
| AsyncConsensus.Detector.CancelAll | src/fiber/fiber_async_consensus.cpp:154-191 | does in place what Cancel says |
| AsyncConsensus.Detector.CancelFiber | src/fiber/fiber_async_consensus.cpp:193-211 | does in place what CancelOne says |
| AsyncConsensus.Detector.ForceCompletion | src/fiber/fiber_async_consensus.cpp:82-87 | does in place what ForceDone says |
| AsyncConsensus.Detector.PassTheToken | src/fiber/fiber_async_consensus.cpp:226-299 | does in place what PassToken says, and sends what it says |
| AsyncConsensus.Detector.ReceiveTheToken | src/fiber/fiber_async_consensus.cpp:213-224 | does in place what ReceiveToken says |
| AsyncConsensus.Detector.BeginDoneCriticalSection | src/fiber/fiber_async_consensus.cpp:89-93 | enters the critical section |
| AsyncConsensus.Detector.CancelCriticalSection | src/fiber/fiber_async_consensus.cpp:96-100 | undoes entering the critical section exactly |
| AsyncConsensus.Detector.EndDoneCriticalSection | src/fiber/fiber_async_consensus.cpp:102-152 | does in place what EndDone says up to the fiber's next sleep |
| AsyncConsensus.Detector.ResumeWait | src/fiber/fiber_async_consensus.cpp:131-151 | does in place what Resume says when a sleeping fiber runs again |
| SchedulerSafety.SinglePlacement | src/fiber/fiber_control.cpp:131-197 | in every run a live fiber is in exactly one place (a worker's queues, running, being switched out, in a waker's hand, descheduled) and there once; a fiber that is not alive is nowhere |
| SchedulerSafety.QueuedFibersAreResumable | src/fiber/fiber_control.cpp:347-444 | fibers are only queued and run on workers they are bound to, and nothing is queued before its context is saved |
| SchedulerSafety.JoinWaitsForAll | src/fiber/fiber_control.cpp:463-469 | fibers_active is the number of live fibers, so join returns only when none is left anywhere |
| SchedulerSafety.AssertionsHold | src/fiber/fiber_control.cpp:482-492 | in every run the fiber that deschedules itself is schedulable and not already descheduled, and a fiber being woken is not half-descheduled, when wakers follow the rule |
| SchedulerSafety.WithoutTheRuleTheAssertionFails | src/fiber/fiber_control.hpp:370-402 | a reachable state in which a waker that ignores the rule meets a half-descheduled fiber |
| SchedulerSafety.WakeTakesOnce | src/fiber/fiber_control.cpp:517-536 | waking a descheduled fiber takes it exactly once; waking any other changes nothing |
| SchedulerSafety.TakenFiberIsQueuedOnce | src/fiber/fiber_control.cpp:517-536 | a taken fiber lands once on the queues of one worker it is bound to, and nowhere else |
| SchedulerSafety.SchedulerIsNeverStuck | src/fiber/fiber_control.cpp:398-455 | a worker can always switch or clean up after a switch, and a taken fiber can always be queued |
| SchedulerSafety.PickIsAllowed | src/fiber/fiber_control.cpp:330-345 | the chosen worker is in the affinity set, and is the caller's own when allowed; the list of workers is only permuted |
| SchedulerSafety.StepKeeps | src/fiber/fiber_control.cpp:287-536 | every operation keeps the placement of all fibers |
| SchedulerOrder.ServedInOrder | src/fiber/fiber_control.cpp:131-197 | over every run, what has left a worker's priority or affinity queue and what is still on it are, in this order, what was put on it; the affinity queue is served only while nobody has priority |
| SchedulerOrder.WakeLands | src/fiber/fiber_control.cpp:517-536 | whatever others do between taking a woken fiber and queueing it, it goes to the end of the priority queue if the wake was one with priority, else to the end of the affinity queue, and no other queue changes |
| SchedulerOrder.SwitchMeaning | src/fiber/fiber_control.cpp:347-407 | a switch runs the first in line and leaves whoever ran; with nobody in line a fiber on its way out is left and any other goes on |
| SchedulerOrder.CleanUpMeaning | src/fiber/fiber_control.cpp:409-444 | in every reachable state, the fiber just left goes to the end of the affinity queue, or is descheduled with its mutex and no other released, or is gone |
| SchedulerOrder.LaunchLands | src/fiber/fiber_control.cpp:287-328 | a launched fiber goes to the end of the affinity queue of the worker picked for it, and nowhere else |
| SchedulerOrder.AllowedExactly | src/fiber/fiber_control.cpp:301-304 | a new fiber's list holds exactly the existing workers of its affinity set, in order |
| SchedulerOrder.PickExactly | src/fiber/fiber_control.cpp:330-345 | the caller's own worker if allowed, else the entry of the list the random number names |
| FiberScheduler.PopIsFifo | src/fiber/fiber_control.cpp:160-181 | popping a two-part queue takes its first element and loses none |
| FiberScheduler.RemoveTakesFirst | src/fiber/fiber_control.cpp:183-197 | priority fibers go first, each queue in arrival order |
| FiberControl.Control.ActiveQueueInsertTail | src/fiber/fiber_control.cpp:131-144 | queues a fiber in place as Enqueue says |
| FiberControl.Control.ActiveQueueInsertHead | src/fiber/fiber_control.cpp:146-158 | queues a priority fiber in place as Enqueue says |
| FiberControl.Control.TryPopQueue | src/fiber/fiber_control.cpp:160-181 | takes the first fiber of a queue, or none exactly if it is empty |
| FiberControl.Control.ActiveQueueRemove | src/fiber/fiber_control.cpp:183-197 | takes a worker's first fiber, priority first, or none exactly if there is none |
| FiberControl.Control.PickFiberWorker | src/fiber/fiber_control.cpp:330-345 | picks and swaps in place as Pick says |
| FiberControl.Control.LaunchFiber | src/fiber/fiber_control.cpp:287-328 | creates, counts and queues a fiber as Launch says |
| FiberControl.Control.YieldToFiber | src/fiber/fiber_control.cpp:347-407 | switches the running fiber as YieldTo says |
| FiberControl.Control.Yield | src/fiber/fiber_control.cpp:446-455 | takes the next fiber and switches to it as Switch says |
| FiberControl.Control.RescheduleFiber | src/fiber/fiber_control.cpp:409-444 | requeues, parks and unlocks, or destroys the fiber just switched out |
| FiberControl.Control.AfterJump | src/fiber/fiber_control.cpp:398-402 | handles the fiber just left once its context is saved |
| FiberControl.Control.DescheduleSelf | src/fiber/fiber_control.cpp:482-492 | records the mutex to release after the switch |
| FiberControl.Control.ScheduleTid | src/fiber/fiber_control.cpp:517-536 | takes and queues a descheduled fiber; leaves any other alone |
| FiberBarrier.NobodyLeavesEarly | src/fiber/fiber_barrier.hpp:59-86 | over all rounds and schedules nobody leaves its k-th wait before all have entered it |
| FiberBarrier.ReleaseIsClean | src/fiber/fiber_barrier.hpp:66-78 | when a round is released all have left the one before, the wake-ups go to exactly the other participants, and nobody stays descheduled |
| FiberBarrier.ParkedMeansSomeoneMissing | src/fiber/fiber_barrier.hpp:79-86 | a fiber stays descheduled only while some participant has yet to enter its round |
| FiberBarrier.LastOneIn | src/fiber/fiber_barrier.hpp:63-69 | when the last one enters, everybody else waits in this round and the handles list exactly them |
| FiberBarrier.SenseBarrier.constructor | src/fiber/fiber_barrier.hpp:44-51 | the barrier before its first round |
| FiberBarrier.SenseBarrier.Wait | src/fiber/fiber_barrier.hpp:59-86 | does in place what Enter says, wake-up loop included |
| FiberBarrier.SenseBarrier.WakeUp | src/fiber/fiber_barrier.hpp:79-86 | the wait loop after a wake-up, spurious or not |
| QueryObject.ProcessMeaning | src/fault/query_object.cpp:30-72 | a message changes value and version together, only if it is an update and then as the update says; the reply to a query is the object's answer for its value, that to an update what the update returned, that to a contents request the value, each under the version it belongs to |
| QueryObject.ReplicasGetNoUpdates | src/fault/query_object_client.hpp:165-194 | of the client's update, query and query_any only the last can reach a replica, so no update does |
| QueryObject.StrayUpdatesExactly | src/fault/query_object_client.cpp:101-123 | with arbitrary flags, a client's message can reach and change a replica if and only if it marks an update for any target |
| QueryObject.Hosted.ProcessMessage | src/fault/query_object.cpp:30-72 | dispatches in place as Process says |
| QueryObject.Hosted.Wrapped | src/fault/query_object.cpp:76-84 | processes with replies suppressed |
| QueryObject.MasterServer.MasterReplyCallback | src/fault/query_object_server_master.cpp:59-96 | the whole callback: processes the message and publishes it, under the version the object had before it, exactly if it changed the object |
| QueryObject.MasterServer.ReadVersion | src/fault/query_object_server_master.cpp:63 | the version read before the lock |
| QueryObject.MasterServer.FinishCallback | src/fault/query_object_server_master.cpp:65-95 | the part under the lock, for whatever version was read before it |
| QueryObject.ReplicaServer.SubscribeCallback | src/fault/query_object_server_replica.cpp:181-220 | buffers while waiting for the snapshot, else reports a wrong tag and applies the message |
| QueryObject.ReplicaServer.PlaybackRecordedMessages | src/fault/query_object_server_replica.cpp:136-148 | applies in order the buffered messages not older than the object, and forgets them |
| QueryObject.ReplicaServer.InstallSnapshot | src/fault/query_object_server_replica.cpp:79-87 | ends the wait with the snapshot brought forward by what was buffered |
| ReplicationSafety.ReplicasHoldPrefixes | src/fault/query_object_server_replica.cpp:66-89 | with any number of threads, along every run in which no message is handled inside the handover, snapshots overtake nothing and are installed over truly tagged messages, and takeovers match, every replica past its snapshot holds exactly the first `version` changing updates of its master, and precisely the later ones are still to come |
| ReplicationSafety.InstallExactly | src/fault/query_object_server_replica.cpp:79-87 | after such a run, ending the wait gives a prefix if and only if the snapshot overtook nothing and the buffered messages it does not contain carry their true versions |
| ReplicationSafety.ResubscribeExactly | src/fault/sockets/subscribe_socket.cpp:183-203 | after such a run, a survivor reconnected to a new master holds a prefix of its log if and only if it holds exactly what that master holds |
| ReplicationSafety.SurvivorsMatchByVersion | src/fault/sockets/subscribe_socket.cpp:89-105 | right after a promotion a survivor of the same master matches the new one if and only if their versions are equal |
| ReplicationSafety.SnapshotSurvivesExactly | src/fault/query_object_server_replica.cpp:79-87 | a survivor that has its snapshot and has not installed it goes on to hold a prefix of the new master's log if and only if snapshot and buffered messages add up to what that master holds |
| ReplicationSafety.WaitingSurvivorsMatchByVersion | src/fault/query_object_server_replica.cpp:136-148 | right after a promotion, if its own wait would have ended well, they add up to it if and only if as many updates were received as the promoted replica had applied |
| ReplicationSafety.NewSnapshotExactly | src/fault/query_object_server_replica.cpp:66-89 | a survivor still without a snapshot gets one from the new master, and goes on to hold a prefix if and only if every message buffered from the old one is older than the new master's version or would not change it |
| ReplicationSafety.PromptRunsAgree | src/fault/query_object_server_master.cpp:59-96 | with any number of threads, along every undisturbed run whose changing callbacks finish with the version they read, every replica past its snapshot holds a prefix and no replica reports divergence |
| ReplicationSafety.GoodConfigurationsAgree | src/fault/query_object_server_replica.cpp:181-220 | with one callback thread, an uninterrupted handover, ordered sockets and matched takeovers, that holds in every reachable state |
| ReplicationSafety.CaughtUpReplicaEqualsMaster | src/fault/query_object_server_replica.cpp:181-220 | along the same runs as ReplicasHoldPrefixes, a replica with nothing left to receive from the living master equals it |
| ReplicationSafety.ReplicaAnswers | src/fault/query_object_server_replica.cpp:151-179 | along the same runs, a query sent to a replica past its snapshot is answered, under its version, for exactly the first that many updates of its master |
| ReplicationSafety.MasterAnswers | src/fault/query_object_server_master.cpp:59-96 | a query sent to the master is answered for all updates of its log; an update is answered with what it returns on top of them, and leaves the value of the log with it added |
| ReplicationSafety.PlaybackCatchesUp | src/fault/query_object_server_replica.cpp:136-148 | playing back from a snapshot inside the buffered range applies each later update exactly once if these carry their true versions |
| ReplicationSafety.PlaybackFallsShort | src/fault/query_object_server_replica.cpp:136-148 | if one of them carries an older version, playing back ends short of the master |
| ReplicationSafety.StepKeeps | src/fault/query_object_server_master.cpp:59-96 | every tidy step of master, replicas, crashes, elections and takeovers keeps the replication invariant, with any number of threads |
| ReplicationSafety.SingleMaster | src/fault/query_object_server_common.cpp:34-49 | whatever threads and sockets do, at most one live process is master, and it holds the key |
| ReplicationSafety.PromotionKeepsAPrefix | src/fault/query_object_server_process.cpp:63-98 | along the same runs, a promoted replica starts as the only master, from exactly a prefix of the log it followed |
| ReplicationLimits.PrefixesExactly | src/fault/query_object_server_replica.cpp:66-89 | for every object with an update that always changes it, replicas hold prefixes in all reachable states if and only if the four conditions hold |
| ReplicationLimits.ReportsExactly | src/fault/query_object_server_replica.cpp:181-220 | and no reachable state has reported divergence if and only if the same four hold |
| ReplicationLimits.AsBuilt | src/fault/query_object_server_master.cpp:36-51 | as built there are reachable states in which a replica is no prefix of its master, and ones in which divergence was reported |
| ReplicationLimits.ConcurrentCallbacksLoseAnUpdate | src/fault/query_object_server_master.cpp:63-73 | with two callback threads or more, a reachable state in which a replica has received both updates of its master, holds one of them, and nothing was reported |
| ReplicationLimits.ConcurrentCallbacksShareATag | src/fault/query_object_server_master.cpp:63-73 | with two callback threads or more, a reachable state with two updates on a channel under one version, and another in which the second was reported |
| ReplicationLimits.SplitHandoverLosesAnUpdate | src/fault/query_object_server_replica.cpp:83-86 | a reachable state in which a message handled between the two assignments that end the wait is lost without report |
| ReplicationLimits.OvertakingSnapshotRepeatsAnUpdate | src/fault/query_object_server_replica.cpp:66-89 | a reachable state in which a replica has applied twice the one update of its master, because its snapshot overtook it |
| ReplicationLimits.UnmatchedTakeoverLosesAnUpdate | src/fault/sockets/subscribe_socket.cpp:183-203 | a reachable state in which a survivor reconnected to a promoted replica lacks an update that one holds, has nothing left to receive, and reported nothing |
| ObjectKeys.NamesNeverCollide | src/fault/query_object_server_common.cpp:20-31 | for keys without a dot, names of master, numbered replicas and publisher are equal exactly for equal key and role |
| ObjectKeys.NamesShowNumbers | src/fault/query_object_server_common.cpp:20-31 | the master's name is the key, a replica's the key, a dot and its number, the publisher's the key and .PUB |
| ObjectKeys.DottedKeysCollide | src/fault/query_object_server_manager.hpp:64-68 | every name but the master's contains a dot and, taken as a key, collides: the rule is needed |
| ObjectKeys.Store.Elect | src/fault/query_object_server_common.cpp:34-49 | an election is won exactly if nobody holds the name, and then the winner does |
| CacheRefinement.CacheIsAPlainStore | src/fileio/cache_stream_sink.cpp:36-50 | along every run of create, write, close, open, read and free, with spills and evictions anywhere, each answer is that of a plain object store holding the concatenation of what was written since creation; a read of an empty hollow entry alone may break |
| CacheRefinement.ReadBreaksExactly | src/fileio/cache_stream_source.cpp:25-51 | a read goes through a null pointer if and only if the entry was given no memory at creation and was never written |
| CacheHollow.ReadsCanBreak | src/fileio/fixed_size_cache_manager.cpp:159-197 | for all limits there is a run that fills the cache and after which every read through some open stream goes through a null pointer |
| CacheRefinement.EvictionSparesOpenBlocks | src/fileio/fixed_size_cache_manager.cpp:225-249 | creating an entry never changes a block that an open stream holds |
| CacheRefinement.StepRefines | src/fileio/fixed_size_cache_manager.cpp:159-249 | every operation keeps the cache related to the plain store and answers as it does |
| CacheAccounts.NothingLeaks | src/fileio/fixed_size_cache_manager.cpp:97-123 | along every run the utilization counter is the sum of all capacities, the blocks there are are those in the table or held by a stream, and the files there are are those of these blocks |
| CacheAccounts.CreationEvicts | src/fileio/fixed_size_cache_manager.cpp:225-249 | after any run, a creation that evicts moves the victim's bytes unchanged to a fresh file and leaves it no memory |
| CacheAccounts.CreationAccounts | src/fileio/fixed_size_cache_manager.cpp:159-197 | after any run, a creation leaves an empty entry whose limit is what room is left once the victim gave back its capacity (its own old limit if it was overwritten in memory), with up to 1024 bytes of memory, or none exactly if that limit is zero; the counter moves by just these amounts |
| CacheRefinement.ReadMeaning | src/fileio/cache_stream_source.cpp:42-51 | a read returns the next bytes of the object, from memory or file alike |
| CacheBlock.ExtendMeaning | src/fileio/fixed_size_cache_manager.cpp:41-71 | growing succeeds exactly when block and cache limits leave room for what is asked, keeps every byte, accounts for exactly what it adds and stays within the cache limit it read; it takes the least capacity that doubles the block or fills its limit, or just what is asked if the cache has no room for that |
| CacheBlock.StreamWriteAppends | src/fileio/cache_stream_sink.cpp:36-50 | a write appends exactly its bytes whether they stay in memory, spill or go to the spill file, and touches no other block's file; they stay in memory exactly if the buffer is large enough or can grow to them within both limits |
| CacheBlock.WriteToFileKeepsContent | src/fileio/fixed_size_cache_manager.cpp:74-82 | evicting moves a block's bytes to a new file unchanged and gives back all its memory |
| CacheBlock.InitializeMeaning | src/fileio/fixed_size_cache_manager.cpp:84-95 | a block just initialized is empty, in no file, charged for its first allocation, and hollow exactly when it was granted nothing |
| CacheBlock.ClearMeaning | src/fileio/fixed_size_cache_manager.cpp:97-123 | destroying a block gives back its memory or removes its file, and only its own |
| CacheObjects.MemoryBlock.ExtendCapacity | src/fileio/fixed_size_cache_manager.cpp:41-71 | grows the buffer in place as Extend says |
| CacheObjects.MemoryBlock.WriteBytesToMemoryCache | src/fileio/fixed_size_cache_manager.hpp:115-127 | appends to the buffer as WriteMemory says |
| CacheObjects.MemoryBlock.ReleaseMemory | src/fileio/fixed_size_cache_manager.cpp:97-106 | frees the buffer as Release says |
| CacheObjects.MemoryBlock.ClearBlock | src/fileio/fixed_size_cache_manager.cpp:108-123 | frees the buffer or deletes the file as Clear says |
| CacheObjects.MemoryBlock.Initialize | src/fileio/fixed_size_cache_manager.cpp:84-95 | clears and reallocates as InitializeMemory says |
| CacheObjects.MemoryBlock.Spill | src/fileio/fixed_size_cache_manager.cpp:74-82 | moves the buffer to a fresh file as WriteToFile says |
| CacheObjects.StreamSink.WriteThrough | src/fileio/cache_stream_sink.cpp:36-50 | writes to memory, then spills and goes on in the file, as StreamWrite says |
| CacheObjects.ArraySource.ReadChunk | src/fileio/cache_stream_source.cpp:42-51 | copies out the next bytes and moves on by as many |
| CacheObjects.PickVictim | src/fileio/fixed_size_cache_manager.cpp:225-249 | the eviction loop finds a largest non-empty block held by no stream, or none exactly if there is none |
| CacheUtilization.OvercommitBound | src/fileio/fixed_size_cache_manager.cpp:41-71 | with n threads interleaving reads of the counter and commits, it always equals the sum of live capacities and never exceeds the cache limit by more than n-1 block limits |
| CacheUtilization.OneThreadNeverOvercommits | src/fileio/fixed_size_cache_manager.cpp:159-197 | with one thread it never exceeds the cache limit |
| CacheUtilization.OvercommitExactly | src/fileio/fixed_size_cache_manager.hpp:199-203 | the limit can be exceeded if and only if there are two threads and both limits are above the first allocation |
| CacheUtilization.StepKeeps | src/fileio/fixed_size_cache_manager.cpp:41-106 | every read, commit and release keeps the counter, the capacities and what threads still owe in balance |
| FlexEquality.ApproxIsSameMeaning | src/flexible_type/flexible_type.cpp:137-150 | two values are approximately equal exactly when they mean the same: numbers and time stamps alike, lists element by element, dictionaries as bags of pairs |
| FlexEquality.ApproxIsEquivalence | src/flexible_type/flexible_type_detail.hpp:190-210 | approximate equality is reflexive, symmetric and transitive on all nested values, whatever the hash |
| FlexEquality.EqualValuesHashAlike | src/flexible_type/flexible_type_detail.hpp:656-680 | equal values have equal 64-bit hashes, so a lookup by hash never misses an equal key |
| FlexEquality.PairOrderIsIrrelevant | src/flexible_type/flexible_type.cpp:161-170 | reordering a dictionary's pairs changes neither equality nor hash |
| FlexEquality.SameMeaningSameHash | src/flexible_type/flexible_type.cpp:152-170 | the hash is a function of the meaning, for arbitrary mixing functions |
| FlexEquality.ListsEqual | src/flexible_type/flexible_type.cpp:146-150 | the list loop decides equality of meaning |
| FlexEquality.HashList | src/flexible_type/flexible_type.cpp:152-159 | the list loop computes the hash |
| FlexEquality.HashDict | src/flexible_type/flexible_type.cpp:161-170 | the dictionary loop computes the hash |
| FlexEquality.HashOfList | src/flexible_type/flexible_type.cpp:152-159 | a list's hash mixes the left fold of its items' hashes |
| FlexEquality.HashOfDict | src/flexible_type/flexible_type.cpp:161-170 | a dictionary's hash combines with itself the smallest set of bits that holds the hash of every key |
| FlexOrder.GreaterIsLessReversed | src/flexible_type/flexible_type_detail.hpp:81-146 | on all values, failures included, greater is less with its arguments exchanged |
| FlexOrder.StrictTotalOrder | src/flexible_type/flexible_type_detail.hpp:81-146 | less is irreflexive and transitive on all values, and on comparable ones exactly one of less, greater and approximately equal holds |
| FlexOrder.Trichotomy | src/flexible_type/flexible_type_detail.hpp:81-146 | where the comparison is defined, neither operator says yes exactly when the values mean the same |
| FlexOrder.FailsExactly | src/flexible_type/flexible_type_detail.hpp:81-84 | the type assertion is reached exactly when the values are not comparable up to and including their first difference |
| FlexOrder.LessExactly | src/flexible_type/flexible_type_detail.hpp:81-110 | less says yes if and only if the values are comparable and the first one's meaning comes before the second's: numbers by value, texts and sequences by their first difference, a proper beginning first |
| FlexOrder.GreaterExactly | src/flexible_type/flexible_type_detail.hpp:119-146 | and greater if and only if it comes after |
| FlexOrder.ListLess | src/flexible_type/flexible_type_detail.hpp:103-109 | the loop of lt_operator |
| FlexOrder.ListGreater | src/flexible_type/flexible_type_detail.hpp:139-145 | the loop of gt_operator |
| FlexConverter.ExactlyOneCase | src/flexible_type/flexible_type_converter.hpp:110-114 | every type of the documented universe matches the guard of exactly one case, and no other type matches any |
| FlexConverter.RoundTripExactly | src/flexible_type/flexible_type_converter.hpp:129-629 | for every type of the universe at any depth, map keys included, get of set gives the value back if and only if every integer in it that goes through an array of doubles is a multiple of the distance between doubles of its size |
| FlexConverter.SecondTripIsExact | src/flexible_type/flexible_type_converter.hpp:129-629 | get of set never throws and gives a value of the type, and for that one a second trip changes nothing |
| FlexConverter.FirstLostInteger | src/flexible_type/flexible_type_converter.hpp:224-256 | a vector holding 2^53 + 1 comes back holding 2^53, and no smaller integer is lost |
| FlexConverter.ThroughDouble | src/flexible_type/flexible_type_converter.hpp:403-437 | a number of any width and sign put into a double and taken out is of its type and a double, and is unchanged if and only if it was one |
| FlexConverter.IntegerArraysExactly | src/flexible_type/flexible_type_converter.hpp:224-256 | a vector of integers of any width and sign comes back if and only if each is a multiple of the distance between doubles of its size |
| FlexConverter.NumberRoundTrip | src/flexible_type/flexible_type_converter.hpp:202-222 | scalars of every width and sign come back, wrap-around included |
| FlexShapes.SetRepresents | src/flexible_type/flexible_type_converter.hpp:129-629 | for every type of the universe, what set builds stands for what it is given: items and pair members in their order, one dictionary pair for each map entry, sequences of numbers as their nearest doubles, integers as their low 64 bits |
| FlexShapes.GetReads | src/flexible_type/flexible_type_converter.hpp:129-629 | get returns y if and only if the flexible value is read as y shape by shape, the first of equal keys counting, whole parts of doubles wrapping to the type; where there is no such y it throws |
| FlexShapes.RepresentedIsRead | src/flexible_type/flexible_type_converter.hpp:129-629 | whatever stands for an exact value is read as that value, in whichever order its maps are listed |
| FlexConverter.MapLands | src/flexible_type/flexible_type_converter.hpp:293-363 | in whatever order a map is walked, what comes back is a map of the type with exact keys and values, and the map itself if all of it was exact |
| Doubles.RoundsToNearest | src/flexible_type/flexible_type_converter.hpp:249-254 | putting an integer into a double gives a double, and none is nearer |
| Doubles.TiesToEven | src/flexible_type/flexible_type_converter.hpp:249-254 | of two equally near the one with the even significand |
| Doubles.RoundsExactly | src/flexible_type/flexible_type_converter.hpp:249-254 | an integer is unchanged if and only if it is a double, and if and only if it is a multiple of the gap at its size |
| Doubles.DoubleMeaning | src/flexible_type/flexible_type_converter.hpp:249-254 | the integers that are doubles are those with 53 significant bits times a power of two |
| FlexConverter.SetArray | src/flexible_type/flexible_type_converter.hpp:249-254 | the loop that fills an array of doubles |
| FlexConverter.GetVector | src/flexible_type/flexible_type_converter.hpp:269-283 | the loop that converts a list element by element, or throws |
| FlexConverter.GetMap | src/flexible_type/flexible_type_converter.hpp:302-318 | the loop that inserts pair by pair, or throws |
| TempFiles.LookupFinds | src/fileio/temp_files.cpp:248-278 | in a sorted prefix-free history the lower bound and its predecessor are enough to find the one stored prefix |
| TempFiles.SearchIsExact | src/fileio/temp_files.cpp:226-278 | in every run with at most a million names issued, in any number of directories, the history is prefix-free and the search answers as a full scan would |
| TempFiles.ExactlyWithoutClashes | src/fileio/temp_files.cpp:226-278 | the search is exact in all runs that issue at most n names if and only if no two of their numbers that fall into one directory differ just by digits dropped from the end |
| TempFiles.ExactlyAMillionNames | src/fileio/temp_files.cpp:101-111 | with one directory, or any number of them that divides 900000, that is the case if and only if n is at most a million |
| TempFiles.NamePrefix | src/fileio/temp_files.cpp:226-243 | one name begins another exactly if both are in one directory and its number is the other's with digits dropped |
| TempFiles.HiddenEntry | src/fileio/temp_files.cpp:248-278 | an entry that continues another with a digit hides it from the search |
| TempFiles.NamesApart | src/fileio/temp_files.cpp:226-243 | no six-digit name is a prefix of another |
| TempFiles.PaddedMeaning | src/fileio/temp_files.cpp:231-233 | the counter in decimal, with zeros in front only to make up six digits |
| TempFiles.DirectoriesTakeTurns | src/fileio/temp_files.cpp:101-111 | the first names go to the directories one after the other, and then it starts over |
| TempFiles.HistoryTells | src/fileio/temp_files.cpp:226-316 | while names do not clash, the history holds after every step of a run the new name and what it held, less what the step deletes |
| TempFiles.DeleteForgets | src/fileio/temp_files.cpp:248-278 | deleting a file forgets exactly the entry it begins with |
| TempFiles.UnlinkedExactly | src/fileio/temp_files.cpp:282-316 | of many files exactly those are unlinked that begin with an entry |
| TempFiles.DeleteAllForgets | src/fileio/temp_files.cpp:282-316 | deleting many files forgets exactly the entries that are prefixes of one of them |
| TempFiles.TempNames.GetTempName | src/fileio/temp_files.cpp:226-243 | issues the next padded name in the directory whose turn it is and records it in order |
| TempFiles.TempNames.DeleteTempFile | src/fileio/temp_files.cpp:248-278 | finds and forgets an entry as the search says |
| TempFiles.TempNames.DeleteTempFiles | src/fileio/temp_files.cpp:282-316 | unlinks what has a stored prefix and forgets the prefixes afterwards |
| FilePool.OneHandlePerPath | src/fileio/file_handle_pool.cpp:32-62 | in every run each path has at most one live handle |
| FilePool.RefsTellTheRun | src/fileio/file_handle_pool.cpp:32-62 | after any run a handle has as many references as were handed out and copied, less those dropped |
| FilePool.RegisterMeaning | src/fileio/file_handle_pool.cpp:32-62 | registering hands out the live handle of the path if there is one, else a new one, and changes no other |
| FilePool.SweepLeavesLive | src/fileio/file_handle_pool.cpp:42-60 | every 16384th registration leaves exactly the paths in use in the pool |
| FilePool.DeleteOtherKinds | src/fileio/fs_utils.cpp:217-235 | a missing path is left alone and reported, a directory is removed outright |
| FilePool.DeleteSparesFilesInUse | src/fileio/fs_utils.cpp:217-235 | delete_path removes a regular file exactly when no live handle is on it, and otherwise marks that handle and no other |
| FileRaces.RemovalHitsExactly | src/fileio/fs_utils.cpp:217-235 | with other threads in between, a file whose removal was decided, by delete_path or by the last reference to it, is in use at some point before it is removed if and only if its path is registered in between |
| FileRaces.RemovedWhileInUse | src/fileio/file_handle_pool.cpp:64-80 | a run of four steps after which a file is gone while its handle lives |
| FileRaces.DeleteInTwoParts | src/fileio/fs_utils.cpp:225-233 | with nothing in between, marking and removing are delete_path |
| FileRaces.DropInTwoParts | src/fileio/file_ownership_handle.hpp:61-72 | with nothing in between, giving up a reference and the destructor are one drop |
| FilePool.FlagTellsTheRun | src/fileio/file_handle_pool.cpp:64-80 | after any run a handle is marked exactly if its path is in the cache or some delete_path of the run met it in use on a regular file |
| FilePool.LastDropDeletes | src/fileio/file_ownership_handle.hpp:61-72 | after any run, the last reference removes the file exactly in those two cases; no other drop touches the disk |
| FilePool.SweepIsUnobservable | src/fileio/file_handle_pool.cpp:50-60 | a pool that never sweeps gives the same answers, handles and disk along every run |
| FilePool.GetMeaning | src/fileio/file_handle_pool.cpp:82-92 | a lookup finds the path's live handle exactly if there is one |
| FilePool.Pool.GetFileHandle | src/fileio/file_handle_pool.cpp:82-92 | looks up in place as Get says, erasing an expired entry |
| FilePool.Pool.RegisterFile | src/fileio/file_handle_pool.cpp:32-62 | hands out the one handle of a path, sweeping when due |
| FilePool.Pool.Sweep | src/fileio/file_handle_pool.cpp:50-60 | erases exactly the expired entries |
| FilePool.Pool.MarkFileForDelete | src/fileio/file_handle_pool.cpp:64-80 | marks the live handle, or reports that there is none |
| FilePool.Pool.RemovePath | src/fileio/fs_utils.cpp:217-235 | delete_path in place |
| FilePool.Pool.DropReference | src/fileio/file_ownership_handle.hpp:61-72 | the destructor in place |
| S3Url.RoundTrip | src/fileio/s3_api.cpp:112-206 | for every accepted URL, printing what was parsed and parsing again gives the same record |
| S3Url.ParseOfPrint | src/fileio/s3_api.cpp:112-123 | every well-formed record is printed to a URL that parses back to it |
| S3Url.ParsedIsWellFormed | src/fileio/s3_api.cpp:134-206 | whatever is accepted is well formed |
| S3Url.KeysInOrder | src/fileio/s3_api.cpp:134-206 | a URL written with colon-free access key, secret key and path is accepted if and only if the path names a bucket, after an endpoint if there is one, and gives exactly these keys and the pieces of the path |
| S3Url.AcceptsExactly | src/fileio/s3_api.cpp:134-206 | no other URL is accepted |
| S3Url.PrintedInOrder | src/fileio/s3_api.cpp:112-123 | printing writes scheme, access key, secret key and the pieces of the path with one slash between them |
| S3Url.SanitizedHasNoKeys | src/fileio/s3_api.cpp:731-741 | the sanitized form of an accepted URL is the pieces of its path, the same for any other keys |
| S3Url.RejectedHasNoKeys | src/fileio/s3_api.cpp:705-729 | of a rejected URL written with two keys neither is left |
| S3Url.DropsUpToAColon | src/fileio/s3_api.cpp:705-729 | and nothing is dropped but text that ends in a colon |
| S3Url.SanitizedNamesTheObject | src/fileio/s3_api.cpp:731-741 | two accepted URLs look the same sanitized if and only if endpoint, bucket and object name agree |
| S3Url.NoColonBeforeTheSlash | src/fileio/s3_api.cpp:705-729 | of a rejected S3 URL no colon is left before the first slash |
| S3Url.ParseS3Url | src/fileio/s3_api.cpp:134-206 | cuts the URL down step by step to what Parse says |
| S3Url.ParseTokens | src/fileio/s3_api.cpp:160-205 | walks the tokens to what ParsePath says |
| S3Url.JoinTokens | src/fileio/s3_api.cpp:192-198 | the loop that puts the object name together |

## Left out

- 64-bit wrap-around of call counters, versions, fiber identifiers and the utilization counter.
- Two-step interleavings inside `force_done` and between `begin_done_critical_section` and `end_done_critical_section` of one fiber: each is one step here.
- `reset` and `set_nfibers` of the consensus object: they assume that nobody uses it.
- The scheduler's counters of waiting and active workers, its condition variables, stacks, fiber-local storage and contexts: workers are always free to take their next step.
- Fairness: nothing says that a queued fiber is eventually run.
- The barrier's `alive` flag, which nothing clears, and `resize_unsafe`.
- FiberControl.Control.ScheduleTid: takes and queues in one call, while the state machine lets other steps come between.
- Messages of a new master that reach a survivor mixed with late ones of the old: reconnecting drops what the old channel still held.
- QueryObject.ReplicasGetNoUpdates: speaks of the client's three calls; `query_update_general` takes any flags, and StrayUpdatesExactly says what they can do. The replication runs have no such messages.
- Failed snapshot requests, `query_object_server_manager`, sockets, serialization and the key-value store beyond insert-if-absent with keys that vanish with their owner.
- Opening a source while a sink on the same entry is still open, and creating an entry while a stream on it is open: the code lets pointers dangle there.
- CacheRefinement.CacheIsAPlainStore: speaks of one operation at a time; concurrent operations on different blocks are covered by the utilization model only.
- `cache_stream_source::seek`, `fixed_size_cache_manager::clear`, `get_temp_cache_id` and errors of the underlying files.
- CacheUtilization.OvercommitBound: the two limits do not change during a run, though they can be set at run time.
- Floating point in equality, hash and order, vectors and images, and the 128-bit hash.
- FlexConverter.RoundTripExactly: floating-point values themselves are reals, so infinities, NaN and the narrower `float` are not modelled; integers becoming doubles are rounded as IEEE 754 says.
- FlexConverter.ThroughDouble: a double past the top of a 64-bit type wraps, where C++ leaves the result open.
- TempFiles.TempNames.GetTempName: the configured locations do not change during a run, and none lies inside another's process directory.
- TempFiles.TempNames.DeleteTempFile: says whether to unlink, not whether unlinking succeeds.
- The endpoint pattern and the bucket rules of S3 URLs, which are parameters on one token, and `parse_s3url` called with a record that is not empty.
- FilePool.DeleteSparesFilesInUse: delete_path is one step there; FileRaces.RemovalHitsExactly says what threads in between can do. In both, the kind of the path is read together with the pool.
- FilePool.Pool.RemovePath: removing a file from the disk always succeeds, while `delete_path_impl` may refuse and report it.
- Moving a `file_ownership_handle`, and deletions by anything but these handles while one is alive, except as changes of the disk.
- HDFS, curl, the AWS client, general streams, the Lua and Python layers, `fiber_group`, `fiber_conditional` and `buffered_writer`: plumbing, or smaller cases of what is here.
