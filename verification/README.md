# Fluxon: proofs about the Python layer

Fluxon is a distributed key-value and message-channel store. Its core is a Rust library; around it stands
a Python layer that contains several protocols of its own. This project models those protocols in Dafny and
proves what holds in every run of the modelled steps, for any number of participants and any schedule, or on every
input; where the code falls short, it gives the failing run and the exact condition.
`dafny verify dfyconfig.toml` checks everything.

How the parts are modelled:

- **Protocols between processes or threads** are state machines. One etcd request, one file operation or one
  critical section of a lock is one atomic step. How the outside world answers a step is part of the event,
  so a theorem about `Run(s, es)` for all event lists `es` is a theorem about all schedules and all failures. A
  request that raises may or may not have been applied. `Run` folds the events; history fields, which no step
  reads, record what the theorems talk about.
- **Objects and loops** are classes and methods: the lease manager, the CUDA copy pipeline, the benchmark
  worker, the id-allocation loop, the wire-format loops, the record search, the group validation. Each method is proved
  against a specification function or a stated property, and the theorems are about those.
- **Pure code** (partition arithmetic, quoting) is functions and lemmas.

## What the proofs say about the code

- *Unique-key channels.* Part of the guarantee does not depend on the lock at all: under any lease expiry the mapping
  never changes from one id to another, an id is never stored twice, every handle is on a channel that was the
  stored mapping during the call, and a lock that is held without work under it was abandoned by a crash or a failed
  request (`LockIsGivenBack`). Mutual exclusion, and that a live mapping is never removed, need that no lock lease
  runs out while its holder is at work. The code's comment calls the removal of a stale mapping safe under the lock;
  `LapseSplits` gives a run in which one lapse leaves two clients on two live channels. What goes wrong there is the only
  thing that can: under any expiry a replaced channel was found dead, or was removed by a call that had looked before
  an earlier removal (`EndedWithEvidenceOrStray`). An undisturbed call always ends with a handle (`AloneSucceeds`). A release that fails after a successful publish makes the call raise although
  its channel stays published (`ThrownAfterPublish`).
- *Id allocation.* Losers of a compare-and-put guess instead of reading again, yet no id is ever granted twice. An id
  is lost only when a transaction is applied and its reply is not delivered. With one block size a guess stays
  behind the counter and a lone caller catches up; with mixed sizes it can jump over the counter, after which
  it is never served (`MixedSizesCanStarve`).
- *Keep-alive.* The loop takes its tick before it sleeps, so rounds come in pairs. The gap between two refreshes is
  at most the larger of the least interval and the first round, plus the late wake-up, plus the second round, so
  at most the least interval plus two rounds when sleeps end on time. With the TTLs the manager admits no lease is
  refreshed late as long as rounds and late wake-ups stay within `AdmittedDoNotLapse`.
- *Copy pipeline and worker.* A failed submission can swallow the completion of an older copy. The worker's final
  reconciliation ends exactly those operations, so every operation is ended once and has one result, the one its turn
  calls for unless its completion was swallowed (`ResultIs`). If another thread
  closes the pipeline, the worker's next poll or its last drain raises, the reconciliation is skipped, and the
  in-flight count stays too high by exactly the operations that are outstanding then (`Run`).
- *Closing the pipeline.* A call looks its thread's state up under one lock and works on it under another, and close
  may come in between; close does not mark the states it has been to. A submission that locks its state after the
  sweep always uses released objects, and if its slot has to grow it leaves two buffers that nothing releases
  (`LateSubmission`). That is the only way: without such a submission every object used is live and close leaves
  nothing behind (`MisuseIff`, `LiveAfterCloseIff`, `SafeForEverIff`). Late polls and drains are harmless.
- *Put monitor.* A key is in flight exactly while one thread submits it, so nothing is in flight once all have left.
- *Installer.* The ready test is right about a tree if and only if no file was deleted since its marker was written.
  With one manifest that always holds. With several it fails when an installer of another manifest dies, or is at
  work, between deleting a file and deleting the marker (`ReturnIsUnsafe`); a rollback after a completed installation
  is fine. A process that finds such a tree leaves it as it is (`InstallsIff`). A slow reader can also be overtaken
  by a whole installation of another manifest (`ReaderOvertaken`); its look at the marker is worth something exactly as
  long as nobody deletes or writes a member of the tree, and again once its own release is extracted anew (`ReaderIff`).
- *Wire format.* The comment on the reader promises an error value for every malformed input, and that holds. The
  writer makes no such promise: text that UTF-8 cannot encode and metadata of 4 GiB or more raise.
- *Environment values.* The rewriting of the three spellings of the host work directory goes through a marker text. It
  is right for a value if and only if the value nowhere has that text, nor that text short of one or two of its last
  underscores with a spelling behind it (`NormalizedIffNowhere`); a value that is the marker is expanded although it is
  no spelling (`MarkerIsTaken`).
- *Deployment groups.* Group names are stripped after the checks, so two groups whose names differ only in
  surrounding blanks are both accepted and the earlier one disappears (`SurvivesIff`, `LosesAGroup`).

## Model

| member | source | states |
|---|---|---|
| `UniqueKeyMoves.MovesAreOk` | fluxon_py/api_ext_chan.py:108-554 | every step of a call makes only the request its point allows: the lock is taken only when free, the mapping is put only when absent and removed only inside the critical section, and the remembered channel changes only to the one stored after the step |
| `UniqueKeySafety.RunInv` | fluxon_py/api_ext_chan.py:303-598 | in every run, with any lease expiry: at most one id per epoch (span between removals), none stored twice, every created channel pending at exactly one call, published, closed or leaked, and registered exactly while pending or leaked |
| `UniqueKeySafety.OneChannelPerEpoch` | fluxon_py/api_ext_chan.py:303-467 | two handles are on the same channel if and only if no removal lies between the instants at which their calls resolved |
| `UniqueKeySafety.MappingMoves` | fluxon_py/api_ext_chan.py:225-467 | with any lease expiry, the mapping only goes from absent to an id that was never stored before, or from present to absent; publishing never overwrites |
| `UniqueKeySafety.LockLeavesItsOwner` | fluxon_py/api_ext_chan.py:100-177 | in every run, a token that is in the lock key at one instant and not at a later one was given up in between by a release or revoke of the very acquisition that wrote it, or by its lease running out |
| `UniqueKeySafety.HandleWasStored` | fluxon_py/api_ext_chan.py:286-467 | with any lease expiry, the channel of every returned handle was the stored mapping at some instant while that call was under way |
| `UniqueKeySafety.RemovesItsOwnIff` | fluxon_py/api_ext_chan.py:225-410 | with any lease expiry, a call about to remove the mapping removes the channel it has evidence against if and only if no mapping was removed since it looked |
| `UniqueKeySafety.CreatedIsPublishedOrClosed` | fluxon_py/api_ext_chan.py:415-467 | once a call has ended and its publishes and closes were answered well, each channel it created is closed, or published and returned, or published and the release raised; none is left in the registry |
| `UniqueKeySafety.RegistryIsRestored` | fluxon_py/api_ext_chan.py:626-653 | when all calls have ended so, the process registry is exactly what it was before |
| `UniqueKeyEvidence.DeadIff` | fluxon_py/api_ext_chan.py:391-410 | in every run the channels recorded as dead are exactly those an event found dead |
| `UniqueKeyEvidence.FailedBindIsTheEnd` | fluxon_py/api_ext_chan.py:536-546 | a bind that fails otherwise than as stale ends the call with an error and changes nothing else |
| `UniqueKeyRequests.RequestIff` | fluxon_py/api_ext_chan.py:100-467 | each request that changes the store is made exactly when the call's place, the answer and the store call for it, also when it raises after it was applied |
| `UniqueKeyRequests.FastWay` | fluxon_py/api_ext_chan.py:286-330 | at most three reads as long as they raise, one bind to what is stored, and otherwise the lock |
| `UniqueKeyRequests.LockWay` | fluxon_py/api_ext_chan.py:108-177 | a lost lock transaction starts again and one that raised does not; the critical section is entered exactly by a transaction that won |
| `UniqueKeyRequests.ResolveWay` | fluxon_py/api_ext_chan.py:364-467 | a channel is made only if none is stored or the stored one was deleted for its missing meta, and closed again only if the key was taken meanwhile |
| `UniqueKeyRequests.CleanWay` | fluxon_py/api_ext_chan.py:225-284 | the cleanup deletes the mapping only while it is the stale one, then the meta, then the rest |
| `UniqueKeyRequests.LeaveWay` | fluxon_py/api_ext_chan.py:498-554 | what the section decided is carried out exactly if the lock was given back |
| `UniqueKeyRequests.LockIsGivenBack` | fluxon_py/api_ext_chan.py:100-177 | in every run a token in the lock key belongs to a call still at work under it, or was left to its lease by a crash or by a release or revoke that raised without being applied |
| `UniqueKeyOutcomes.FailedAttempt` | fluxon_py/api_ext_chan.py:469-496 | an attempt under the lock that fails is retried once under the same acquisition and then an error |
| `UniqueKeyOutcomes.DecidesIff` | fluxon_py/api_ext_chan.py:225-467 | exactly which answer makes a critical section decide on a handle, a bind, an error, an exception or another round |
| `UniqueKeyOutcomes.EndedIff` | fluxon_py/api_ext_chan.py:469-598 | in every run a call has ended with a handle, an error, an exception or a crash if and only if an event of the run is one that calls for it |
| `UniqueKeyMutex.RunMutexInv` | fluxon_py/api_ext_chan.py:108-177 | in every run without a lapse, the call inside the critical section holds the lock and what it read there is still so |
| `UniqueKeyMutex.MutualExclusion` | fluxon_py/api_ext_chan.py:484-554 | in every run without a lapse at most one call is inside the critical section |
| `UniqueKeyMutex.NoConflictInside` | fluxon_py/api_ext_chan.py:427-467 | without a lapse the publish transaction never finds the key taken, so no created channel is ever closed again, and an answered release returns the handle |
| `UniqueKeyMutex.RemovalHasEvidence` | fluxon_py/api_ext_chan.py:225-284 | without a lapse, if an event removes a mapping, an earlier event of the run found its channel dead: a bind answered that it is stale, or a look under the lock found its meta missing |
| `UniqueKeyMutex.SplitNeedsDeath` | fluxon_py/api_ext_chan.py:364-413 | without a lapse, handles on two different channels exist only if some event found one of the two dead |
| `UniqueKeyStray.EndedWithEvidenceOrStray` | fluxon_py/api_ext_chan.py:225-410 | in every run, with any lease expiry, the channel of every epoch that has ended was found dead by some event, or the epoch was ended by a stray removal, one whose call looked before an earlier removal |
| `UniqueKeyStray.SplitNeedsDeathOrStray` | fluxon_py/api_ext_chan.py:303-467 | with any lease expiry, of two handles on different channels the earlier channel was found dead by some event or removed by a stray removal |
| `UniqueKeyStray.MetaRemovalHasEvidence` | fluxon_py/api_ext_chan.py:225-284 | with any lease expiry, a call deletes the meta only of a channel some event found dead |
| `UniqueKeyStray.NoLapseNoStray` | fluxon_py/api_ext_chan.py:108-177 | without a lapse there is no stray removal |
| `UniqueKeyLapse.LapseSplits` | fluxon_py/api_ext_chan.py:391-410 | with one lapse both fail: a run that ends with two handles on two channels, both with their meta, and no event found either dead |
| `UniqueKeyBounds.CallsAreBounded` | fluxon_py/api_ext_chan.py:469-598 | in every run a call makes at most three rounds, six lock acquisitions and six resolve attempts |
| `UniqueKeyBounds.CallWorkIsBounded` | fluxon_py/api_ext_chan.py:61-598 | in every run a call takes at most 75 steps, not counting those of waiting for one acquisition of the lock: polls of its key, lease grants, lost lock transactions and revokes |
| `UniqueKeyAlone.FollowsPath` | fluxon_py/api_ext_chan.py:108-554 | when every request is answered, each step of a call is the one its path prescribes, seen only through its place, the lock, the mapping and the metas |
| `UniqueKeyAlone.AloneSucceeds` | fluxon_py/api_ext_chan.py:303-598 | from any state with a free lock and any other calls under way, an undisturbed call returns a handle in at most 24 steps: on the stored channel if it can be bound, else on a new one that is stored from then on, also when a stale channel must be cleaned up first |
| `UniqueKeyAlone.ThrownAfterPublish` | fluxon_py/api_ext_chan.py:427-554 | from any state with a free lock and no mapping: a call whose release raises after its publish raises, and its channel stays the stored mapping |
| `UniqueKeyAlone.AloneIsARun` | fluxon_py/api_ext_chan.py:61-598 | the undisturbed call is a run of the protocol made of that call's steps only |
| `Decimal.StrIsInjective` | fluxon_py/etcd.py:265-298 | the texts the transactions compare are equal exactly when the numbers are |
| `Decimal.IntOfStr` | fluxon_py/etcd.py:265-298 | reading a written number gives it back |
| `IdAllocator.RunInv` | fluxon_py/etcd.py:258-370 | in every interleaving the taken blocks follow one another without gap up to the counter, and every block and every answer agree |
| `IdAllocator.BlocksTileTheCounter` | fluxon_py/etcd.py:258-370 | an id lies in a taken block if and only if the counter passed it in this run, and then in exactly one |
| `IdAllocator.GrantsAreDisjoint` | fluxon_py/etcd.py:258-370 | no id is granted to two callers, whatever counts they ask for and however they guess |
| `IdAllocator.NothingIsBurned` | fluxon_py/etcd.py:258-370 | if no call raised, every id the counter passed was granted to a caller |
| `IdAllocator.AnsweredIff` | fluxon_py/etcd.py:258-370 | in every run a caller has a block, an error for its count, an exception or an error for its ten thousandth wrong guess if and only if an event gave it |
| `IdAllocatorProgress.AllocateRange` | fluxon_py/etcd.py:309-370 | the loop answers with the block behind its j-th guess, where j is the first try at which the key holds the start value plus j blocks; with an error if there is none or the count is not positive |
| `IdAllocatorProgress.ServedIffSomeGuessHits` | fluxon_py/etcd.py:321-361 | a caller running alone for n transactions is served if and only if one of its next n guesses, as far as its tries go, is what the key holds |
| `IdAllocatorProgress.HitInNumbers` | fluxon_py/etcd.py:321-361 | a guess hits exactly when the counter is that many blocks ahead, and both are absent or both present |
| `IdAllocatorProgress.GuessStaysBehind` | fluxon_py/etcd.py:258-298 | if all callers use one block size, every guess is a whole number of blocks behind the counter in every run |
| `IdAllocatorProgress.AloneIsServed` | fluxon_py/etcd.py:258-298 | from any point of such a run a caller left alone is served within n tries as soon as n blocks exceed counter minus guess; with block size 1 that is counter minus guess plus one tries |
| `IdAllocatorProgress.MixedSizesCanStarve` | fluxon_py/etcd.py:321-361 | a run with block sizes 2 and 1 after which a caller left alone is not served however long it goes on |
| `KeepAlive.LeaseManager.MinInterval` | fluxon_py/etcd.py:69-92 | the interval of the lease with the least positive TTL, one second exactly if there is none, never below half a second |
| `KeepAlive.LeaseManager.RefreshAll` | fluxon_py/etcd.py:107-121 | the refresh loop and the drop of the expired list together keep exactly the leases whose refresh succeeded, each refreshed within the round |
| `KeepAlive.LeaseManager.Loop` | fluxon_py/etcd.py:94-127 | the rounds follow the schedule that the theorems below are about: a round begins at the end of the one before, or one interval after the end of the one before that, if that is later |
| `KeepAlive.GapBound` | fluxon_py/etcd.py:94-127 | two refreshes of any lease are at most max(interval, first round) + late wake-up + second round apart, for the interval of any lease refreshed in the first round, so for the least TTL |
| `KeepAlive.OwnGapBound` | fluxon_py/etcd.py:94-127 | the same bound with the lease's own TTL |
| `KeepAlive.LeasesDoNotLapse` | fluxon_py/etcd.py:69-127 | with rounds of at most r and wake-ups late by at most d, the gap is below the TTL if r + d < 2/3 TTL + 0.5 and 2r + d < TTL |
| `KeepAlive.AdmittedDoNotLapse` | fluxon_py/etcd.py:47-127 | with TTLs of at least ten seconds, as adding a lease demands, no lease is ever refreshed late if r + d < 43/6 and 2r + d < 10 |
| `KeepAlive.GapIsAttained` | fluxon_py/etcd.py:94-127 | for the lease that sets the interval, exactly when the bound is met |
| `KeepAlive.RoundsArePaced` | fluxon_py/etcd.py:94-127 | every third round begins at least one interval after the end of the first, the interval being that of the least TTL refreshed, and rounds never overlap |
| `CudaQueue.PopIsDequeue` | fluxon_test_stack/benchmark_node_kv.py:2366-2420 | completing the front removes the oldest token and keeps the queue in step with the occupied slots |
| `CudaQueue.PushIsEnqueue` | fluxon_test_stack/benchmark_node_kv.py:2492-2505 | a submitted copy is appended at the end of the queue |
| `CudaQueue.QueueIsBounded` | fluxon_test_stack/benchmark_node_kv.py:2446-2451 | at most as many tokens are in flight as there are slots |
| `CudaQueue.SomeSlotIsFree` | fluxon_test_stack/benchmark_node_kv.py:2453-2462 | with fewer tokens than slots some slot is free, so the error for "no reusable slot" is unreachable |
| `CudaPipeline.Pipeline.NewSlots` | fluxon_test_stack/benchmark_node_kv.py:2303-2331 | a setup whose n-th creation call fails releases everything it created; otherwise the live objects are exactly those of the slots, numbered as the setup step of the interleaving model says |
| `CudaPipeline.Pipeline.StateFor` | fluxon_test_stack/benchmark_node_kv.py:2333-2343 | refused exactly when closed, failed exactly when the setup of a new thread fails, and then nothing changed |
| `CudaPipeline.Pipeline.EnsureCapacity` | fluxon_test_stack/benchmark_node_kv.py:2345-2364 | both buffers grow together or not at all, the replaced ones are released, none shrinks, the queue is unchanged; the runtime and the slot become what the growth step `Grow` of the interleaving model makes them |
| `CudaPipeline.Pipeline.CompleteFront` | fluxon_test_stack/benchmark_node_kv.py:2366-2420 | answers the oldest token exactly when there is one and it is ready or waited for |
| `CudaPipeline.Pipeline.PollReady` | fluxon_test_stack/benchmark_node_kv.py:2422-2429 | under the state's lock: the answered tokens and the remaining queue are the old queue, and the state becomes that of the step `Polled` |
| `CudaPipeline.Pipeline.Poll` | fluxon_test_stack/benchmark_node_kv.py:2422-2429 | the answered tokens and the remaining queue are the old queue, in order; other threads are unaffected |
| `CudaPipeline.Pipeline.FirstFree` | fluxon_test_stack/benchmark_node_kv.py:2453-2462 | finds the first free slot, and there is one; it is the slot the step `Submitted` takes |
| `CudaPipeline.Pipeline.SubmitReady` | fluxon_test_stack/benchmark_node_kv.py:2444-2506 | on any state close has not been to, also after close has begun: accepted: completed tokens and queue are the old queue and the new token; failed: only the front of a full queue is lost; the copy fits its buffers; state and runtime become those of the step `Submitted` |
| `CudaPipeline.Pipeline.Submit` | fluxon_test_stack/benchmark_node_kv.py:2431-2506 | the whole call when no close comes between its two sections: refused exactly for bad arguments, after close and when the setup fails, and then without any effect; otherwise as its locked section, touching no other thread |
| `CudaPipeline.Pipeline.DrainReady` | fluxon_test_stack/benchmark_node_kv.py:2513-2522 | under the state's lock: answers the whole queue, and the state becomes that of the step `Drained` |
| `CudaPipeline.Pipeline.Drain` | fluxon_test_stack/benchmark_node_kv.py:2513-2522 | answers the whole queue in order and leaves it empty |
| `CudaPipeline.Pipeline.ReleaseSlots` | fluxon_test_stack/benchmark_node_kv.py:2541-2574 | releases each object of the thread's slots once and nothing of other threads, as the step `FreeSlots` does |
| `CudaPipeline.Pipeline.Sweep` | fluxon_test_stack/benchmark_node_kv.py:2551-2572 | releases exactly the objects of one state, keeping the others in order; the live objects become those of the steps `Drained` and `FreeSlots` |
| `CudaPipeline.Pipeline.Close` | fluxon_test_stack/benchmark_node_kv.py:2541-2574 | run without another section in between it leaves nothing live; a second close changes nothing |
| `CudaTouches.FrontTouches` | fluxon_test_stack/benchmark_node_kv.py:2366-2420 | completing the front is a misuse exactly if one of its two events is not live |
| `CudaTouches.PollTouches` | fluxon_test_stack/benchmark_node_kv.py:2366-2380 | a poll needs the end event of the front it finds not ready |
| `CudaTouches.CopyTouches` | fluxon_test_stack/benchmark_node_kv.py:2464-2505 | a copy needs its staging buffer, start event and stream, the device buffer once the start is recorded, and the end event once the copy is under way, and nothing else |
| `CudaTouches.GrowTouches` | fluxon_test_stack/benchmark_node_kv.py:2345-2364 | larger buffers need those they replace, and only if they are obtained |
| `CudaTouches.ReleaseTouches` | fluxon_test_stack/benchmark_node_kv.py:2541-2574 | releasing a slot needs every object of it and takes exactly those |
| `CudaCloseSafety.WorkSafe` | fluxon_test_stack/benchmark_node_kv.py:2422-2522 | any locked section on a state close has not been to uses live objects only, touches no other thread's, and keeps the ownership exact |
| `CudaCloseSafety.SweepSafe` | fluxon_test_stack/benchmark_node_kv.py:2551-2572 | the sweep of a state releases each of its objects once, all of them live, and nothing else |
| `CudaCloseRuns.RunInv` | fluxon_test_stack/benchmark_node_kv.py:2333-2574 | in every interleaving of lookups, locked sections and the sections of close: states not swept own exactly their objects, swept ones have none but what late submissions grew |
| `CudaCloseRuns.FailedSetup` | fluxon_test_stack/benchmark_node_kv.py:2303-2343 | a lookup that cannot set a new state up changes nothing |
| `CudaCloseRuns.OwnershipHolds` | fluxon_test_stack/benchmark_node_kv.py:2303-2364 | in every interleaving the live objects of a slot whose state is not swept are exactly those it names |
| `CudaCloseRuns.MisuseIff` | fluxon_test_stack/benchmark_node_kv.py:2431-2574 | in every interleaving a released object was used if and only if a submission locked its state after the sweep |
| `CudaCloseRuns.LiveAfterCloseIff` | fluxon_test_stack/benchmark_node_kv.py:2541-2574 | whenever no state is left, so once close has been everywhere, nothing is live if and only if no such submission got new buffers |
| `CudaCloseRuns.SafeForEverIff` | fluxon_test_stack/benchmark_node_kv.py:2431-2574 | when close ends without a misuse, none follows and nothing becomes live, whatever happens, if and only if no submission is between its lookup and its lock |
| `CudaCloseRuns.LateSubmission` | fluxon_test_stack/benchmark_node_kv.py:2444-2506 | the failing run: lookup, close, submission; released objects are used, and exactly one host and one device buffer stay live |
| `KvWorker.Worker.Consume` | fluxon_test_stack/benchmark_node_kv.py:4018-4064 | ends and records the tokens once each, in order, with the result they come with; raises if and only if a token is not outstanding or comes twice |
| `KvWorker.Worker.PollCopies` | fluxon_test_stack/benchmark_node_kv.py:4066-4068 | unless it raises, the poll ends the copies that are ready, oldest first, as successes, and those are exactly what leaves the outstanding ones |
| `KvWorker.Worker.DrainCopies` | fluxon_test_stack/benchmark_node_kv.py:4106-4107 | unless it raises, the drain so ends all copies in flight |
| `KvWorker.Worker.PipelinedGet` | fluxon_test_stack/benchmark_node_kv.py:4124-4148 | begins one operation; the books become those of a submission that was taken, declined or dropped, each exactly when it can be |
| `KvWorker.Worker.PlainOperation` | fluxon_test_stack/benchmark_node_kv.py:4109-4184 | any other operation ends in its turn with the result due, a put after all copies in flight were ended, or with an error if the pipeline is closed |
| `KvWorker.Worker.Reconcile` | fluxon_test_stack/benchmark_node_kv.py:4190-4212 | after the drain, ends exactly the operations whose completion was lost, lowest index first, as errors; raises and leaves them if and only if the pipeline is closed |
| `KvWorker.Worker.Run` | fluxon_test_stack/benchmark_node_kv.py:3946-4217 | for any list of turns and a close of the pipeline at any of them: the books at the end are those of the turns taken, and the in-flight count is too high by exactly the operations still outstanding; the worker raises if and only if it uses the pipeline and a poll or the last drain comes after the close, at the first such poll, or the first poll cannot set the thread's state up, and then nothing is begun and the count is balanced |
| `WorkerBooks.AllAccounted` | fluxon_test_stack/benchmark_node_kv.py:4018-4064 | a log that names every operation once, except the open ones, has one entry for each of the others |
| `WorkerResults.ResultIs` | fluxon_test_stack/benchmark_node_kv.py:3946-4217 | at the end of a run that was not closed upon nothing is open and every operation has exactly one result: lost if and only if a dropped submission swallowed its completion, and otherwise the one its turn calls for |
| `WorkerResults.MissingIff` | fluxon_test_stack/benchmark_node_kv.py:4018-4064 | at every turn the operations open but no longer in flight are exactly the fronts of full queues at dropped submissions |
| `WorkerResults.NothingLost` | fluxon_test_stack/benchmark_node_kv.py:4190-4212 | so without a dropped submission no completion is lost |
| `WorkerResults.PlainResult` | fluxon_test_stack/benchmark_node_kv.py:4070-4188 | without pipelining every operation has exactly one result, an error if and only if it raised |
| `PutMonitor.RunInv` | fluxon_test_stack/benchmark_node_kv.py:2780-2872 | in every interleaving a key is in flight exactly while one thread holds it, and is confirmed by that thread only |
| `PutMonitor.OneSubmitterPerKey` | fluxon_test_stack/benchmark_node_kv.py:2780-2804 | at most one thread at a time submits a key, and never a confirmed key |
| `PutMonitor.SkippedMeansConfirmed` | fluxon_test_stack/benchmark_node_kv.py:2823-2872 | a caller told to skip, or whose put was confirmed, has exactly one thread whose put confirmed the key |
| `PutMonitor.NoLostWakeUp` | fluxon_test_stack/benchmark_node_kv.py:2797-2804 | finishing never finds its key missing, and no thread sleeps on a key that is not in flight |
| `PutMonitor.InFlightIff` | fluxon_test_stack/benchmark_node_kv.py:2780-2872 | in every run a key is in flight if and only if a thread is submitting it |
| `PutMonitor.AllLeft` | fluxon_test_stack/benchmark_node_kv.py:2797-2872 | once every thread has left, however its put ended, nothing is in flight and the confirmed keys are exactly those some put confirmed |
| `PutMonitor.NextLookAnswers` | fluxon_test_stack/benchmark_node_kv.py:2786-2795 | from any point of any run, once no thread submits its key, a thread's next look answers it or lets it submit |
| `PutMonitor.LeftIff` | fluxon_test_stack/benchmark_node_kv.py:2780-2872 | in every run a thread has left as timed out, skipped or ended if and only if an event answered it so: a look at a key in flight after the deadline, a look at a confirmed key that is not, or its own put |
| `PutMonitor.WaitsInTime` | fluxon_test_stack/benchmark_node_kv.py:2786-2791 | a look at a key in flight before the deadline goes to sleep and changes nothing else |
| `Installer.RunInv` | fluxon_release/install.py:24-167 | with crashes between any two file operations, any manifests and any restarts: a known marker stands for a complete tree, or for one with a member missing if a file was deleted since |
| `Installer.LockIsExclusive` | fluxon_release/install.py:88-102 | whoever has the install lock keeps it until it leaves or dies, and nothing but its own work moves it on |
| `Installer.HolderLeft` | fluxon_release/install.py:88-102 | between two holders of the lock there is an instant at which it is free |
| `Installer.ReadyIff` | fluxon_release/install.py:330-339 | in every run, if the ready test passes for a manifest, the tarball is extracted completely with nothing else there if and only if no file was deleted since the marker was written |
| `InstallerReaders.RunExtracting` | fluxon_release/install.py:105-167 | in every run, while a tarball is being extracted the tree holds exactly the members written so far, all whole but the one at work |
| `InstallerReaders.SinceMarked` | fluxon_release/install.py:53-167 | in every run, whatever happens after an instant at which a release's marker stood: the tree is that release's, whole and nothing else, if and only if nothing was missing then, or the release was extracted to its end since, and no file was deleted and no member begun after that |
| `InstallerReaders.ReaderIff` | fluxon_release/install.py:53-85 | so for a reader without the lock that saw its release's marker and accepts after any number of looks at the files, counted from the event at which it looked at the marker |
| `InstallerLooks.AcceptsIff` | fluxon_release/install.py:330-339 | in every run a reader without the lock takes the fast path if and only if it found its release's marker when it started and saw every required file after that, in order |
| `InstallerLooks.AcceptedSaw` | fluxon_release/install.py:336-338 | so each required file was there at one of its looks |
| `InstallerLooks.MissingFileRefuses` | fluxon_release/install.py:336-338 | a reader for which a required file is missing at every look does not take the fast path |
| `Installer.OneManifestIsSafe` | fluxon_release/install.py:53-167 | with one manifest neither the ready test nor a slow reader accepts anything but the complete tree, whatever files or foreign marker lay in the directory before |
| `Installer.ReturnIsUnsafe` | fluxon_release/install.py:232-260 | for any two manifests a, b and any file of a beyond the required ones: if the installer of b dies after deleting it, the ready test accepts the damaged tree for a |
| `InstallerProgress.InstallsIff` | fluxon_release/install.py:53-167 | from any state without a lock holder and along any schedule: once an uninterrupted installer has given the lock back, its tarball is fully extracted and marked if and only if the tarball has the required files and the tree it found did not look ready without being complete |
| `InstallerProgress.CanFinish` | fluxon_release/install.py:105-167 | there is always such a schedule |
| `InstallerProgress.TornMarker` | fluxon_release/install.py:160-167 | a crash while the marker is written can leave any beginning of it, and no release takes that for its own |
| `InstallerProgress.ReaderOvertaken` | fluxon_release/install.py:53-85 | for any two manifests: a reader that saw the marker of one can accept the finished tree of the other |
| `Installer.FingerprintsArePrefixFree` | fluxon_release/install.py:274-281 | no fingerprint text is a proper beginning of another, so a half-written marker equals none |
| `MessageWire.SerializeItems` | fluxon_py/api_msg.py:46-107 | the loop with its running offset lays the items out as the block table and data area that `BlocksTile` describes, or stops with the error of the first bad item |
| `MessageWire.DeserializeBlocks` | fluxon_py/api_msg.py:247-335 | the loop over the block table answers the items, or the error of the first bad block |
| `MessageExact.WrittenIff` | fluxon_py/api_msg.py:24-107 | a message is written if and only if it is bytes, a bytearray or a list whose items are all encodable text, dicts, bytes, bytearrays or tensors, and its metadata is shorter than 2^32 bytes; otherwise the error says which |
| `MessageExact.MetaSays` | fluxon_py/api_msg.py:33-107 | the metadata of bytes names one raw block over all of them, that of a list its length and for each item its type, size and place |
| `MessageExact.FirstBadItem` | fluxon_py/api_msg.py:58-103 | a list that cannot be sent fails with the error of its first bad item |
| `MessageExact.ReadIff` | fluxon_py/api_msg.py:120-345 | on arbitrary bytes the reader answers a message if and only if the bytes mean it by the format, and the error value otherwise |
| `MessageWire.RoundTrip` | fluxon_py/api_msg.py:24-335 | whatever is written reads back as the same message, for bytes, bytearrays and lists of any mix of items |
| `MessageCodec.LawfulExists` | fluxon_py/api_msg.py:24-335 | the codec laws that the round trip asks for can be kept: with any tensor codec whose load inverts its save there is a text and JSON codec that satisfies them |
| `MessageWire.BlocksTile` | fluxon_py/api_msg.py:46-107 | block i holds exactly the bytes of item i, starts where block i - 1 ends, and the last one ends with the data |
| `MessageWire.LaidOutIff` | fluxon_py/api_msg.py:58-103 | a list is written if and only if each of its items can be |
| `MessageWire.ReadsIff` | fluxon_py/api_msg.py:247-335 | on arbitrary input the reader answers a list if and only if it can read every block |
| `MessageWire.ReadsInside` | fluxon_py/api_msg.py:260-314 | then item i is what block i says, and its range lies inside the data area |
| `Bytes.UnpackPacked` | fluxon_py/api_msg.py:41-41 | reading a packed 32-bit length gives it back |
| `Bytes.LittleEndian` | fluxon_py/api_msg.py:41-41 | the lowest byte comes first |
| `Bytes.PackUnpacked` | fluxon_test_stack/benchmark_node_kv.py:1970-1976 | packing a read 32-bit length gives its bytes back |
| `ShellQuote.QuoteReads` | deployment/gen_k8s_daemonset.py:975-976 | for every string, the shell reads the quoted form as the string and goes on behind it |
| `ShellQuote.QuoteIsOneWord` | deployment/manual_dispatch_release.py:1544-1546 | the quoted form is one word of its own |
| `ShellQuote.QuotedTwice` | deployment/manual_dispatch_release.py:382-420 | quoted twice, the word the local shell hands over is read by the remote shell, with an environment of its own, as exactly the list that was quoted |
| `ShellQuote.RemoteLine` | deployment/manual_dispatch_release.py:389-393 | a handed-over line of a plain command, a plain command with a quoted argument, and anything behind it: the remote shell reads the first command, and in the second the argument as it was |
| `ShellQuote.JoinedReads` | deployment/gen_k8s_daemonset.py:893-893 | a joined list of quoted strings is read as exactly that list |
| `ShellExport.ExportReads` | deployment/gen_k8s_daemonset.py:435-447 | every exported single-line value is one word that evaluates to the value with `${HOSTWORKDIR}` replaced and nothing else expanded |
| `ShellExport.RefusedIff` | deployment/gen_k8s_daemonset.py:436-444 | a value is exported if and only if it has no dollar, or each dollar starts the token and there is no backquote |
| `ShellNormalize.MarkedInOnePass` | deployment/gen_k8s_daemonset.py:397-404 | the first three replacements do what one pass over all three spellings of the host work directory does; none of them creates or destroys a spelling |
| `ShellNormalize.NormalizedIff` | deployment/gen_k8s_daemonset.py:397-404 | the whole chain turns each spelling into the token and changes nothing else if and only if the marker does not clash with the value |
| `ShellNormalize.ClashIff` | deployment/gen_k8s_daemonset.py:397-404 | there is a clash if and only if the value somewhere has the marker's text, or that text short of one or two of its last underscores with a spelling behind it |
| `ShellNormalize.NormalizedIffNowhere` | deployment/gen_k8s_daemonset.py:397-404 | so the chain is right exactly for the values without such a place |
| `ShellNormalize.MarkerIsTaken` | deployment/gen_k8s_daemonset.py:397-404 | the value that is the marker itself clashes: it is no spelling, and becomes the token |
| `ShellNormalize.ConfiguredValueReads` | deployment/gen_k8s_daemonset.py:397-447 | without a clash the exported value evaluates to the configured one with every spelling replaced by the host work directory and nothing else expanded |
| `FlatRecord.PayloadRange` | fluxon_test_stack/benchmark_node_kv.py:1961-1999 | on arbitrary bytes reads and returns nothing outside the buffer, and answers what the walk over the entries answers |
| `FlatRecord.SearchFinds` | fluxon_test_stack/benchmark_node_kv.py:1961-1999 | on a written record, with anything behind it, the answer is the range of the first payload entry, or exactly the error its type, its length, a bad key before it or its absence calls for |
| `FlatRecord.RangeHoldsValue` | fluxon_test_stack/benchmark_node_kv.py:1990-1997 | the bytes in that range are the value of that entry |
| `FlatRecordCut.CutShort` | fluxon_test_stack/benchmark_node_kv.py:1961-1999 | a record that ends early answers in which part of which entry, length, key, header or value, the end is |
| `FlatRecord.FoundWasWritten` | fluxon_test_stack/benchmark_node_kv.py:1961-1999 | on arbitrary bytes a range is answered only if the buffer starts with entries of the format, at most as many as announced, and the last of them is the first payload entry |
| `KeyPartition.BoundsTile` | fluxon_test_stack/benchmark_node_kv.py:3596-3610 | the ranges of the effective slots lie end to end from 0 to the keyspace size and their lengths differ by at most one |
| `KeyPartition.RangesDiffer` | fluxon_test_stack/benchmark_node_kv.py:3596-3610 | there are exactly as many ranges as slots, or keys if there are fewer, or one without slots: any index gives one of them, no two have a key in common, none is empty |
| `KeyPartition.OneSlotPerKey` | fluxon_test_stack/benchmark_node_kv.py:3596-3610 | every key is in the range of exactly one effective slot |
| `KeyPartition.UniformSample` | fluxon_test_stack/benchmark_node_kv.py:3560-3570 | a uniform sample runs through all keys once in each turn of buckets |
| `KeyPartition.ZipfianSample` | fluxon_test_stack/benchmark_node_kv.py:440-450 | a zipfian sample is the first key whose cumulated weight reaches the bucket's share, or the last key |
| `KeyPartition.SelectedInRange` | fluxon_test_stack/benchmark_node_kv.py:3613-3673 | every selected key index lies in the keyspace, a local one in the range of the client's slot |
| `KeyPartition.LocalIff` | fluxon_test_stack/benchmark_node_kv.py:3630-3641 | an operation is local exactly if affinity is on and its route hash is below the ratio's part of all hashes |
| `KeyPartition.EveryKeyIsSelected` | fluxon_test_stack/benchmark_node_kv.py:3613-3673 | with uniform requests every key of the client's range is selected by local operations and every key by the others, each by a certain hash and whatever the other one |
| `KeyPartition.BootstrapShard` | fluxon_test_stack/benchmark_node_kv.py:3909-3914 | the strided loop visits exactly the keys of its residue class, in order |
| `KeyPartition.EveryKeyOnce` | fluxon_test_stack/benchmark_node_kv.py:3909-3922 | together the shards visit each key exactly once and report as many as there are |
| `AtomicGroups.CleanNames` | deployment/gen_k8s_daemonset.py:599-623 | accepts a list exactly if it is non-empty and every name is known; answers the distinct names in order of first appearance |
| `AtomicGroups.Claim` | deployment/gen_k8s_daemonset.py:627-635 | refuses exactly if an earlier group owns a pair of this one; otherwise adds exactly its pairs |
| `AtomicGroups.Validate` | deployment/gen_k8s_daemonset.py:569-643 | accepts exactly the configurations whose groups are well-formed, with no phase twice and no (service, node) pair in two groups |
| `AtomicGroups.SurvivesIff` | deployment/gen_k8s_daemonset.py:637-643 | an accepted group is in the result if and only if no later one has the same stripped name |
| `AtomicGroups.LosesAGroup` | deployment/gen_k8s_daemonset.py:637-643 | an accepted configuration of groups "g" and " g" that loses the first |
| `AtomicGroups.Build` | deployment/gen_k8s_daemonset.py:724-789 | fails exactly if some service cannot be rendered or none has a node in the group; answers the manifests of the others |
| `AtomicGroups.BuildableIff` | deployment/gen_k8s_daemonset.py:724-789 | a group fails exactly for a service that is missing, no mapping or bound to no node, for one that is to run on a node of it and cannot be rendered, or if none is to run |
| `AtomicGroups.TargetsInOrder` | deployment/gen_k8s_daemonset.py:724-739 | the nodes of a manifest come in the order of the group |
| `AtomicGroups.EmitsIff` | deployment/gen_k8s_daemonset.py:724-789 | a group emits exactly its own pairs whose service is bound to the node |
| `AtomicGroups.EmittedOnce` | deployment/gen_k8s_daemonset.py:724-789 | no pair is emitted by two groups, by two manifests of one group, or twice in one manifest |

## Left out

- The Rust core and its bindings, the channel classes, and what is inside a channel construction: a construction
  is one step that binds to the id it is given or fails, as stale or otherwise.
- Producers and consumers of different channel kinds on one unique id: all calls on an id use one kind.
- The lock deadline as a number: that it has passed is a possible answer of any lock step, so polls are not bounded.
- The process registry as a dictionary of objects: it is the set of its keys, since the protocol only adds and
  removes entries.
- UniqueKeyAlone.AloneSucceeds: is about a mapping that is absent or a channel id; other bytes under the key, which
  nothing in the protocol writes, make every call answer an error.
- Sleeping and jitter between tries of the id allocator; they change nothing a step can see.
- KeepAlive.LeaseManager.Loop: leases added while the loop sleeps are not modelled, because the code gives them no
  bound; nor is the one-second pause after an unexpected exception.
- KeepAlive.GapBound: is about leases whose two refreshes both succeed; a lease whose refresh fails is dropped.
- CudaPipeline.Pipeline.Close: release calls are taken to succeed; the code gathers their errors and goes on. Other
  threads' sections between those of close are the subject of the `CudaClose` modules.
- Completion error texts, timings and the keep-alive references of the copies; the blocking single copy, which is
  a submission followed by a drain.
- KvWorker.Worker.Run: profiler callbacks and the finalizing of copies are taken not to raise, and a close comes between
  the worker's calls of the pipeline, not inside one; which operation a turn performs, and whether its result counts as
  warm-up, is an input.
- The pip half of the installer and the directory tree: the source tree is a set of files, removed in any order and
  extracted one after the other; the retry loop of the removal is the removal going on.
- Installer.RunInv: has one lock for all installers of a tree. The code's lock file lies in the release directory
  (fluxon_release/install.py:68) and the tree where `--src-root` says, so installers started from two release
  directories on one tree share no lock; that case is not modelled.
- MessageWire.RoundTrip: the text, JSON, tensor and msgpack codecs are parameters that are taken to be inverse
  pairs; dicts have string keys and JSON values. A floating-point number is its 64 bits; NaN, which is not equal to
  itself when it is read back, is left out.
- Diagnostic texts and previews in the errors of the wire format.
- ShellExport.Exported: multi-line values, which are bash code by design, are not modelled.
- ShellQuote.QuoteReads: the shell model covers quoting and named parameters inside double quotes; other expansions
  are outside it and appear only as refused text.
- KeyPartition.SelectedInRange: the hashes and the entries of the zipfian table are parameters, so nothing is said
  about how the samples are distributed.
- AtomicGroups.Build: the rendered script, image and annotations of a manifest are not modelled.
- Reading and checking of configuration files, the error classes, the quick-start wrappers, logging, benchmark metrics
  and phase tables, the rendered deployment scripts and manifests, and packaging: each field or template stands by
  itself there, and no state or order is involved.
