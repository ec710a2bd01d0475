# Ownership and bounds in basic-webserver, in Dafny

basic-webserver is a host that runs Roc applications behind an HTTP server. Most of
what it must get right is bookkeeping under concurrency: a fixed set of compression
lanes, a bounded executor, a slab of resources handed to Roc as boxes, affine Roc
callables, staged files. This project models those parts of the host and proves what
they promise over every run; beside them it models the parsers, caches and loops whose
results can be stated outright.

`dafny verify dfyconfig.toml` checks the project.

## How it is built

- **Protocols** are step machines. One step is one lock-held region, one atomic
  operation or one system call of one party, steps of different parties interleave
  freely, and a failed assertion, `expect` or panic of the source sets a flag that is
  proved never to be set. An invariant is kept by every step, and the theorems speak of
  every run. Counting holders over sequences of parties (module `Bags`) is what "exactly
  one holder" and "exactly once" are made of.
- **Objects** of the source that update their fields in place are classes. Their
  methods, with the loops of the source, are proved against functions that the machines
  run too; where a method takes several steps, as in `BrotliCore` and `BodySinkService`,
  it is proved to take exactly steps of the machine.
- **Parsers and loops** are methods proved against independent definitions: grammars,
  inverses, maxima, concatenations.

| files | part of the host |
|---|---|
| `BrotliExecutor`, `BrotliInvariant`, `BrotliSteps`, `BrotliRuns` | Brotli lane executor: the machine, its invariant, every step, every run |
| `BrotliCore`, `BrotliDropRace`, `BrotliMarks` | its methods in program order, exactly when a lease is safe, its high-water marks |
| `SseTransition`, `SseItems` | server-sent-event transitions and their completion slot; the events and waits of whole runs |
| `RocExecutor` | fixed executor with active and queued admission |
| `ResourceTokens`, `HostResourceHeap`, `HostResourceRuns`, `RequestParts` | resource slab, its tokens and addresses, its runs, zero-copy requests |
| `AllocationTracker`, `AllocationRuns`, `AllocationHistories`, `AllocationFlows` | allocation tracker and its epochs |
| `RecyclingAlloc`, `Negotiation` | scratch allocator, content negotiation |
| `H2Send` | HTTP/2 response sending |
| `FilePaths`, `FileStreaming`, `NativeRouter` | file paths, ranges and streaming, prefix routes |
| `BodySink`, `BodySinkService` | staged uploads: any number of writers, and one call of `write_file` |
| `Bags`, `Text` | counting over sequences, string operations |

## What is assumed

- Atomic operations are sequentially consistent, mutexes are not poisoned, and ticket
  numbers, generations below their limit and counters do not wrap unless the model says
  so.
- Timeouts, deadlines, failing system calls and what a peer does are choices of the
  run: everything is proved whatever they are.
- Roc's reference counting is correct: a reference is copied or released only by its
  holder, and the last release calls the deallocator once.
- A response body acknowledges each server-sent event once.
- The file system changes a directory only through the modelled calls, and a file that
  is being served does not change.

## What turned out not to hold

- `BrotliJob::drop` stores its flag, takes the waker and takes the result in three
  separate actions. Between the first and the last, a worker can give the lane back and
  another stream can lease it; the old drop may then take the new stream's completion,
  and the new stream waits for nothing. With any number of workers and lanes some run
  does so (`SplitDropBreaksAPromise`). `LeaseSafeIffQuiet` says exactly when leasing a
  lane is safe: all promises are kept from then on if and only if no unfinished drop
  still refers to it. `QuietRunsKeepPromises` proves all promises for runs that lease
  only then, and `AtomicRunsKeepPromises` for all runs in which the drop is one step.
- A handle kept past its last reference resolves to the next resource of its slot
  (`StaleHandleFindsNextOccupant`). `LookupExact` says exactly when a lookup succeeds: as
  long as someone holds a reference, and then it finds what that reference was made for.
- A pooled HTTP/2 frame that is answered with an empty grant is dropped, and the response
  still succeeds (`EmptyGrantLosesAPooledFrame`, `SendStarved`). `SendResponse` proves
  exactly when a response succeeds, and that a success delivers the whole body if and
  only if no pooled frame is answered so.
- Two kinds of Range header that the grammar of section 14.1.1 of RFC 9110 does not have
  are not ignored: numbers with a plus sign (`PlusSignIsTaken`), and any last position
  after a first one past the end of the file, which is answered 416 without a look at it
  (`PastEndIsNotRead`). `TakenOutsideGrammar` proves that there are no others. A range of
  the grammar is ignored if and only if a number that has to be read does not fit 64 bits
  (`GrammarIgnored`).
- The live counters of an allocation epoch can differ from the live blocks born in it:
  when the window of a pointer is full, its block is counted but not remembered, and its
  release goes unnoticed (`CrowdedWindowMiscounts`), as does a change of its size
  (`ResizeMiscounts`). `CountsEpochExactly` says exactly when blocks and bytes agree: no
  block of the epoch was released that the table did not know to be born in it, and the
  resizes of such blocks cancel out in each domain. The block counters alone agree if and
  only if the first holds (`LiveMatchesIffNoneStray`). Blocks and bytes agree with the
  table if and only if every block of the epoch found room (`TableMatchesIffNoneLost`).

## Model

| member | source | states |
|---|---|---|
| `BrotliSteps.StepKeeps` | src/brotli_executor.rs:75-657 | every action of every stream and worker keeps the invariant: one holder per lane, links between tasks and cells, counters, leases, wakes; a lane is leased only where no unfinished drop refers to it |
| `BrotliSteps.InitKeeps` | src/brotli_executor.rs:202-248 | the executor starts with all lanes free and the invariant in force |
| `BrotliInvariant.CounterLimits` | src/brotli_executor.rs:53-79 | active, queued and running operations are bounded by the lanes and by min(workers, lanes) |
| `BrotliInvariant.LaneInHand` | src/brotli_executor.rs:401-433 | a task with a lane in hand leaves room for it in the channel, so `try_send` never finds it full |
| `BrotliInvariant.LedgerPush` | src/brotli_executor.rs:142-160 | pushing a lane gives back the lease of its last lessee and of nobody else, and that lease was outstanding, so none is given back twice |
| `BrotliRuns.InvStrandsNothing` | src/brotli_executor.rs:96-117 | a completion in a result slot has a stream that will take it, and the lane of a stream that is gone is free, leased again or with the workers |
| `BrotliRuns.InvAbandonsNobody` | src/brotli_executor.rs:498-548 | the operation that a waiting stream waits for is in the channel, with a worker, or finished in the stream's own cell |
| `BrotliRuns.QuiescentReturnsAll` | src/brotli_executor.rs:142-160 | when every stream is gone and the workers wait on an empty channel, all lanes are free, every counter is zero and every lease ever taken was given back exactly once |
| `BrotliRuns.InvLimits` | src/brotli_executor.rs:401-433 | queued, active and running operations and their high-water marks stay within lanes and min(workers, lanes) |
| `BrotliRuns.InvWoken` | src/brotli_executor.rs:498-548 | a pending job whose result is fully published has been woken |
| `BrotliRuns.QuietRunsKeepPromises` | src/brotli_executor.rs:250-657 | in every state of every run that leases no lane to which an unfinished drop refers: one holder per lane, leases returned once, no completion stranded, no stream abandoned, counters within limits, published results woken, no assertion failed |
| `BrotliRuns.AtomicRunsKeepPromises` | src/brotli_executor.rs:552-576 | with the drop of a job as one step, all promises hold in every state of every run |
| `BrotliMarks.MarksAreMaxima` | src/brotli_executor.rs:75-79 | in every run, with counter and mark raised in two separate actions: each mark is at most the greatest value its counter has had, and equal to it unless a task has counted itself with that value and not yet raised the mark |
| `BrotliDropRace.LeaseSafeIffQuiet` | src/brotli_executor.rs:250-295 | in a state that meets the invariant, leasing keeps all promises from then on, in every continuation with quiet leases, if and only if no unfinished drop refers to the lane |
| `BrotliDropRace.SplitDropBreaksAPromise` | src/brotli_executor.rs:552-576 | with any number of workers and lanes, some run from the start ends with a stream that waits for an operation that is nowhere |
| `BrotliCore.Core.constructor` | src/brotli_executor.rs:202-248 | the core starts in the machine's initial state |
| `BrotliCore.Core.TryAdmit` | src/brotli_executor.rs:250-295 | refused exactly when no lane is free; otherwise the admission followed by the six actions of the new stream |
| `BrotliCore.Core.ReleaseLane` | src/brotli_executor.rs:142-160 | the encoder goes, the active count sinks, then the lane is pushed: three steps of the machine, after which the lane is last on the free list |
| `BrotliCore.Core.Submit` | src/brotli_executor.rs:381-433 | the work is appended to the channel exactly if the channel has room |
| `BrotliCore.Core.PollJob` | src/brotli_executor.rs:498-548 | takes the result if it is there, else registers a waker and looks again |
| `BrotliCore.Core.DropJob` | src/brotli_executor.rs:552-576 | flag, waker, result; a completion that is there gives its lane back |
| `BrotliCore.Core.BeginWork` | src/brotli_executor.rs:582-600 | the first message leaves the channel and is counted as running; it is skipped exactly if the flag of its lane is set |
| `BrotliCore.Core.SkipWork` | src/brotli_executor.rs:600-607 | the lane of cancelled work is back on the free list without its encoder, one less active and running |
| `BrotliCore.Core.FinishWork` | src/brotli_executor.rs:609-655 | work is run, then its completion is in the cell of its lane and a registered waker was called, or the lane is back on the free list, as the flag says |
| `BrotliCore.Core.PublishWork` | src/brotli_executor.rs:96-117 | the result is stored exactly if the flag under the result lock is not set, and then a registered waker is taken and called; otherwise the lane is back on the free list |
| `BrotliCore.Core.ServeOne` | src/brotli_executor.rs:578-657 | one undisturbed turn of the worker loop is a number of the worker's steps; the flag decides at the start whether the completion is stored or the lane given back |
| `BrotliCore.AloneKeeps` | src/brotli_executor.rs:250-657 | what a task does in program order keeps the invariant of the machine |
| `BrotliCore.MethodsAreReady` | src/brotli_executor.rs:131-139 | in every reachable state the methods find their indices in range |
| `SseTransition.CompletionSlot.constructor` | src/http_server.rs:1365-1370 | the slot starts idle |
| `SseTransition.CompletionSlot.Begin` | src/http_server.rs:1372-1376 | from idle, and only from there, to pending |
| `SseTransition.CompletionSlot.AbortBegin` | src/http_server.rs:1378-1382 | from pending back to idle |
| `SseTransition.CompletionSlot.MarkQueued` | src/http_server.rs:1384-1389 | marks a pending slot as queued, leaves others alone |
| `SseTransition.CompletionSlot.StartRunning` | src/http_server.rs:1391-1404 | a pending slot starts to run, a cancelled one refuses |
| `SseTransition.CompletionSlot.Complete` | src/http_server.rs:1406-1417 | a running slot becomes ready, a cancelled one drops the result |
| `SseTransition.CompletionSlot.Poll` | src/http_server.rs:1419-1438 | a ready result is handed out once and leaves the slot idle |
| `SseTransition.CompletionSlot.Cancel` | src/http_server.rs:1440-1449 | the slot is cancelled and a ready result dropped |
| `SseTransition.StepControl` | src/http_server.rs:1500-1714 | every step of owner and workers keeps the agreement between slot, owner fields, queue and claims, and panics nowhere |
| `SseTransition.StepAccount` | src/http_server.rs:1181-1261 | every step moves callables without copying or losing one |
| `SseTransition.StepKeeps` | src/http_server.rs:1500-1760 | every step keeps the whole invariant |
| `SseTransition.DeliverControl` | src/http_server.rs:1607-1633 | the owner is at rest or leaving in a consistent state after a finished transition; `SseItems.PollTakes` says in which |
| `SseTransition.EndedAccounts` | src/http_server.rs:1635-1646 | once the owner is gone and no worker holds a job of it, a callable was advanced once or released once |
| `SseTransition.RunsKeepPromises` | src/http_server.rs:1308-1760 | in every run nothing panics, at most one job is in flight, no transition starts while an item is undrained, and each callable is advanced or released, never both, never twice, and in the end exactly once |
| `SseItems.TakeTells` | src/http_server.rs:1576-1693 | taking a finished transition out of the slot records its item once: out to the body, or primed before the response begins; a refused one ends the stream |
| `SseItems.StepTells` | src/http_server.rs:1500-1714 | every step keeps items, retained callable and wait, parked state and the ticket of a queued job in agreement with what the transitions returned |
| `SseItems.ItemsInOrder` | src/http_server.rs:1648-1705 | in every run the items of the accepted transitions are those handed out, in order, then the one still primed or lost to a cancel; only the first can be lost; the item being sent is the last one handed out, with the callable and wait its transition returned kept behind it; no transition begins while a wait is owed |
| `SseItems.PollStarts` | src/http_server.rs:1648-1668 | a poll starts the callable of the latest transition exactly if the stream has not ended, no item is primed or out, no transition is under way, and an owed wait is over |
| `SseItems.PollTakes` | src/http_server.rs:1576-1693 | a finished transition lets the stream go on exactly if it emitted or waited, its wait is within the limit and its first event is not too large; what it emitted is then out or primed, and what waited is parked; before the response begins every other result but an end drops the stream |
| `SseItems.QueueWaitRunsOut` | src/http_server.rs:1562-1576 | a queued job that no worker has claimed when its queue wait runs out is called back: the stream ends, its callable is released and never run |
| `SseItems.EveryRunIsTraced` | src/http_server.rs:1500-1714 | the traces these statements speak of cover every run |
| `RocExecutor.Position` | src/roc_executor.rs:204-223 | finds the entry of a ticket, or none |
| `RocExecutor.Executor.constructor` | src/roc_executor.rs:103-146 | an empty queue and a capacity of workers plus waiting places |
| `RocExecutor.Executor.TrySubmit` | src/roc_executor.rs:171-202 | refused as stopping or as full exactly then; else the job is appended under a new ticket, as active exactly if fewer jobs were outstanding than there are workers |
| `RocExecutor.Executor.CancelQueued` | src/roc_executor.rs:204-223 | takes back exactly the entry of the ticket, if it is still queued |
| `RocExecutor.Executor.TakeNext` | src/roc_executor.rs:245-267 | hands out the oldest entry, waits, or tells the worker to leave |
| `RocExecutor.Executor.RetireJob` | src/roc_executor.rs:269-280 | one outstanding job less |
| `RocExecutor.Executor.Stop` | src/roc_executor.rs:235-243 | no further submission is accepted |
| `RocExecutor.WithdrawFinds` | src/roc_executor.rs:204-223 | a withdrawn ticket that is still queued was admitted as queued: the assertion holds |
| `RocExecutor.StepKeeps` | src/roc_executor.rs:171-280 | every step of clients and workers keeps the invariant, also when a client leaves and its job retires without a completion |
| `RocExecutor.RunsKeepPromises` | src/roc_executor.rs:171-280 | in every state of every run outstanding = queued + claimed and unretired, within capacity; an active entry at position p has p + claimed and unretired < workers; tickets are dispatched in order; each is dispatched once or cancelled once, retired once, and published once or dropped once; no assertion fails |
| `RocExecutor.SkipKeeps` | src/http_server.rs:552-605 | a job whose client has left gives its capacity back once and is counted as dropped, and nobody else's job is touched |
| `RocExecutor.ActiveEntryHasAWorker` | src/roc_executor.rs:171-202 | an entry admitted as active at position p finds more than p workers that neither occupy capacity nor have left |
| `RocExecutor.AdmissionIsExact` | src/roc_executor.rs:171-202 | in every run a send changes nothing exactly if admission has stopped or the jobs that wait or hold a worker fill the capacity; else the job is the last in the queue, active exactly if those jobs are fewer than the workers, and the client holds that class and ticket |
| `RocExecutor.ChainsAreNeverRefused` | src/roc_executor.rs:245-280 | clients that submit only after seeing their completion, no more of them than the capacity, are never refused as full |
| `RocExecutor.ShutdownDrains` | src/roc_executor.rs:153-158 | once stopped and left by all workers, the queue is empty, nothing is outstanding, and every accepted ticket was cancelled, or dispatched, retired and published or dropped, exactly once |
| `ResourceTokens.EncodeIsPacking` | src/host_resource.rs:322-324 | the token is generation times 2^16 plus index plus one, without lost or overlapping bits |
| `ResourceTokens.DecodeIsUnpacking` | src/host_resource.rs:326-334 | mask and shift are remainder and quotient |
| `ResourceTokens.TokenRoundTrip` | src/host_resource.rs:322-334 | decoding undoes encoding for all indices below 65535 and generations 1 to 2^48 - 1 |
| `ResourceTokens.DecodedTokenIsEncoded` | src/host_resource.rs:326-334 | every 64-bit word that decodes is the token of what it decodes to |
| `ResourceTokens.TokensAreInjective` | src/host_resource.rs:322-334 | equal tokens have equal index and generation |
| `ResourceTokens.GenerationsPastTheLimitCollide` | src/host_resource.rs:7-9 | past the limit tokens repeat, so exhausted slots have to retire |
| `ResourceTokens.BaseInverse` | src/host_resource.rs:264-273 | the search for a base address is exactly inverse to slot addressing |
| `ResourceTokens.PayloadInverse` | src/host_resource.rs:250-258 | a handle is found exactly if it is the payload address of a slot |
| `HostResourceHeap.ResourceHeap.constructor` | src/host_resource.rs:73-104 | all slots free, in descending order on the free list |
| `HostResourceHeap.ResourceHeap.Reserve` | src/host_resource.rs:106-126 | grants exactly if some free slot has a generation left: the last such slot of the free list, under its next generation; the slots above it, or all if there is none, are retired, and those had used up their generations; nothing else changes |
| `HostResourceHeap.ReserveExact` | src/host_resource.rs:106-126 | the same of the function that the runs use |
| `HostResourceHeap.ReserveGrants` | src/host_resource.rs:106-126 | what is granted is reserved, under a generation that fits a token |
| `HostResourceHeap.ResourceHeap.Commit` | src/host_resource.rs:226-239 | resource, token and count of one; the slot is live |
| `HostResourceHeap.ResourceHeap.CancelReservation` | src/host_resource.rs:241-248 | the slot is free again, if it is still reserved under this generation |
| `HostResourceHeap.ResourceHeap.Get` | src/host_resource.rs:134-151 | invalid, stale or the resource, as address, count, token and state say |
| `HostResourceHeap.ResourceHeap.BeginClose` | src/host_resource.rs:154-196 | not owned, corrupt, or the resource taken out of a slot that is now closing |
| `HostResourceHeap.ResourceHeap.FinishClose` | src/host_resource.rs:203-208 | the closing slot is free again |
| `HostResourceHeap.ResourceHeap.DropAll` | src/host_resource.rs:282-297 | the loop drops the resources of exactly the live slots, in order |
| `HostResourceHeap.CommittedIsFound` | src/host_resource.rs:134-151 | a committed slot resolves under its own address while counted, and closes when the count is zero |
| `HostResourceRuns.ReserveKeeps` | src/host_resource.rs:106-126 | reserving, with all the slots it retires, keeps the invariant |
| `HostResourceRuns.ReservesWhileUsable` | src/host_resource.rs:106-126 | in every run a reservation is granted exactly if some slot is free with a generation left, and then such a slot under its next generation |
| `HostResourceRuns.RefPins` | src/host_resource.rs:128-151 | a reference pins its slot: live, counted, with the token and resource of its insertion |
| `HostResourceRuns.FinalizerHolds` | src/host_resource.rs:154-190 | the thread of the last release is always routed to closing its slot |
| `HostResourceRuns.CloserHolds` | src/host_resource.rs:203-208 | after the native drop the slot is still closing under the same generation: the assertions hold |
| `HostResourceRuns.DropHeapEnds` | src/host_resource.rs:282-297 | after the heap is dropped every inserted resource has been dropped once |
| `HostResourceRuns.StepKeeps` | src/host_resource.rs:106-297 | every step keeps the invariant, also between the two phases of a close |
| `HostResourceRuns.LookupExact` | src/host_resource.rs:134-151 | a handle resolves to a resource if and only if a reference to that resource is held |
| `HostResourceRuns.NotOwnedExact` | src/host_resource.rs:154-166 | not owned if and only if the address is outside the slab |
| `HostResourceRuns.RunsKeepPromises` | src/host_resource.rs:106-297 | in every run: no assertion fails, the free list is exactly the free slots without duplicates, free + active + retired = capacity, a retired slot has used up its generations, the high-water mark is the maximum of active, held references resolve, no resource is dropped twice and none is forgotten, no token is issued twice |
| `HostResourceRuns.StaleHandleFindsNextOccupant` | src/host_resource.rs:128-151 | a run in which a handle without reference finds the next occupant |
| `RequestParts.RequestToRocCopied` | src/http_server.rs:1024-1100 | what Roc reads from the copying conversion is what the request says |
| `RequestParts.MethodRoundTrip` | platform/InternalServer.roc:220-235 | the Roc side reads the method that the host tagged |
| `RequestParts.ShownReadsAlike` | platform/InternalServer.roc:128-177 | Roc reads slices and copies alike |
| `RequestParts.CopiedReadsBack` | platform/InternalServer.roc:128-177 | what Roc reads from the converted request is what the request says |
| `RequestParts.Install` | src/request_parts.rs:126-143 | the count becomes the number of references; with none, the slot is closed and free again, and in both cases nothing else changes |
| `RequestParts.DescribeTarget` | src/http_server.rs:950-987 | the strings of the target, with the number of those that are slices |
| `RequestParts.Describe` | src/http_server.rs:927-998 | the request shown as the copying conversion shows it, and the exact number of slices |
| `RequestParts.RequestToRocBacked` | src/http_server.rs:927-1000 | the backed conversion: the granted slot holds the request and counts the slices, or is free again if there are none |
| `RequestParts.RequestToRoc` | src/http_server.rs:906-1022 | whether backed or copied, Roc reads exactly what the request says; it is backed exactly if a slot can be granted, and then the slot counts exactly the slices handed out; no other slot changes but for exhausted free ones that are retired, and a slot stays taken only if it backs slices |
| `RequestParts.LastReleaseFrees` | src/request_parts.rs:110-143 | releasing each slice once deallocates exactly at the last one |
| `AllocationTracker.CountingAllocator.constructor` | src/allocation_benchmark.rs:45-49 | an empty table and counters |
| `AllocationTracker.CountingAllocator.TrackAllocation` | src/allocation_benchmark.rs:55-85 | the probe loop takes the first vacant slot of the window, or counts a miss |
| `AllocationTracker.CountingAllocator.UntrackAllocation` | src/allocation_benchmark.rs:87-113 | the probe loop finds and vacates the slot of the pointer, if it is in the window |
| `AllocationTracker.CountingAllocator.Alloc` | src/allocation_benchmark.rs:239-248 | tracked under the current domain and epoch, counted in the totals and in the epoch |
| `AllocationTracker.CountingAllocator.Dealloc` | src/allocation_benchmark.rs:261-267 | counted under the domain of its record, and as live only if born in this epoch |
| `AllocationTracker.CountingAllocator.Realloc` | src/allocation_benchmark.rs:269-279 | the record moves with its birth epoch and domain |
| `AllocationTracker.CountingAllocator.BeginEpoch` | src/allocation_benchmark.rs:383-396 | refused during an epoch; else counters reset under a new generation |
| `AllocationTracker.CountingAllocator.EndEpoch` | src/allocation_benchmark.rs:411-417 | a snapshot exactly if an epoch was active |
| `AllocationTracker.TrackRefines` | src/allocation_benchmark.rs:55-85 | tracking adds one entry to the map from pointers to records, unless the window is full, and changes no other |
| `AllocationTracker.UntrackRefines` | src/allocation_benchmark.rs:87-113 | untracking finds the entry whenever it is there, removes it and changes no other |
| `AllocationRuns.StepKeeps` | src/allocation_benchmark.rs:238-357 | every call keeps the table, the live blocks with their size and domain and epoch of birth, and all counters in agreement |
| `AllocationHistories.RunsKeepPromises` | src/allocation_benchmark.rs:55-357 | after every history: process counters are the sums of the domains, and the totals are exactly the live blocks and bytes; without misses the table is the map from live pointers to size, domain and epoch, and each domain's totals are its live blocks; in an epoch without misses table and map agree on its blocks and each domain's live counters are the count and the sum of the live blocks born in it; with misses the table still names live blocks only |
| `AllocationHistories.PeaksAreMaxima` | src/allocation_benchmark.rs:206-214 | the total peaks of the process and of each domain are the maxima of their live blocks and bytes over the whole history |
| `AllocationHistories.EpochPeaksAreMaxima` | src/allocation_benchmark.rs:206-214 | the epoch peaks of the process and of each domain are the maxima since the epoch began |
| `AllocationFlows.TotalsAreSums` | src/allocation_benchmark.rs:157-190 | after every history the calls and bytes allocated, given back and resized are the sums over its calls, for the process and for each domain: a release counts the size of its block, a resize the new size |
| `AllocationFlows.EpochIsSums` | src/allocation_benchmark.rs:296-357 | while an epoch runs, its counters are the sums over the calls since it began |
| `AllocationHistories.CountsEpochExactly` | src/allocation_benchmark.rs:261-279 | the live blocks and bytes of the epoch are, in each domain, those of the live blocks born in it, if and only if no call of the epoch released such a block without finding it under this epoch, and the resizes of such blocks without finding them add up to zero in each domain |
| `AllocationHistories.LiveMatchesIffNoneStray` | src/allocation_benchmark.rs:261-267 | the block counters alone match if and only if no call of the epoch released such a block without finding it |
| `AllocationHistories.TableMatchesIffNoneLost` | src/allocation_benchmark.rs:76-85 | blocks and bytes match the entries of the epoch, in each domain, if and only if no allocation of the epoch, and no move of a block known to be born in it, found its window full |
| `AllocationHistories.CrowdedWindowMiscounts` | src/allocation_benchmark.rs:51-85 | a history of 129 pointers with one hash whose last block is counted as live after its release |
| `AllocationHistories.ResizeMiscounts` | src/allocation_benchmark.rs:269-279 | a history in which it is resized instead: the blocks are counted right and the bytes wrong |
| `RecyclingAlloc.Recycler.constructor` | src/compression.rs:134-140 | no block cached, nothing outstanding |
| `RecyclingAlloc.Recycler.AllocCell` | src/compression.rs:165-192 | a block of the requested length with default contents that nobody else holds; system allocations = outstanding + cached + uncached frees |
| `RecyclingAlloc.Recycler.Reuse` | src/compression.rs:170-187 | a cached block leaves its slot and is reset |
| `RecyclingAlloc.Recycler.FreeCell` | src/compression.rs:194-224 | the block is kept exactly if it fits the byte limit and a slot is free, in an empty slot under its own type, and no other slot changes; the peak is the greatest number of cached bytes |
| `RecyclingAlloc.Recycler.Keep` | src/compression.rs:209-216 | a kept block is counted, within the limit, and raises the peak to the cached bytes |
| `Negotiation.ParseQuality` | src/compression.rs:603-619 | accepts exactly the qvalue grammar of section 12.4.2 of RFC 9110 and returns exact thousandths |
| `Negotiation.ParseMember` | src/compression.rs:577-601 | a token followed by nothing but weights, of which the last counts |
| `Text.TrimExact` | src/compression.rs:577-601 | trimming takes white space off both ends and nothing else |
| `Negotiation.FromHeaders` | src/compression.rs:475-527 | the best weight of each coding over all lines, else the wildcard's |
| `Negotiation.BestExact` | src/compression.rs:493-515 | the best weight is held by some member and exceeded by none |
| `Negotiation.CodingWeight` | src/compression.rs:493-527 | a coding has the highest weight of the members that name it, in any case; else that of the wildcard; else none |
| `Negotiation.IdentityWeight` | src/compression.rs:515-527 | identity has the highest weight of the members that name it; else it is excluded exactly by wildcards of weight zero only |
| `Negotiation.OneName` | src/compression.rs:475-527 | a line of one bare name accepts that coding and no other; the wildcard all of them, an unknown name none |
| `Negotiation.OrderDoesNotMatter` | src/compression.rs:475-527 | equal members in any order and on any lines are accepted alike |
| `Negotiation.PermutedLineAcceptsTheSame` | src/compression.rs:475-527 | permuting the members of a line changes nothing |
| `Negotiation.Preferred` | src/compression.rs:529-552 | a non-zero maximal weight, the first in the fixed order, unless identity is asked for with a higher one; none exactly otherwise |
| `Negotiation.PreferredStreaming` | src/compression.rs:558-569 | Brotli exactly if accepted and not outweighed by an explicit identity; never a representation the client excludes; not acceptable exactly if both are excluded |
| `H2Send.SendUnpooled` | src/http_server.rs:2735-2765 | one frame cut to the grants, sent whole and in order; it fails exactly if the answers run out before it is covered or one of its sends fails, and resets the stream exactly if the deadline came first |
| `H2Send.SendPooled` | src/http_server.rs:2700-2734 | one frame handed over whole after a positive grant, dropped after an empty one; it fails exactly without a grant or if its send fails, and resets the stream exactly at the deadline |
| `H2Send.SendFrame` | src/http_server.rs:2692-2781 | one turn of the outer loop: it fails exactly on a broken frame, a missing grant or a failing send, resets the stream exactly on a broken frame or a deadline, and ends it exactly with trailers or the last data |
| `H2Send.SendResponse` | src/http_server.rs:2669-2790 | succeeds exactly if the head is sent, no frame is broken or late, every frame is granted and no send fails; success delivers in order exactly the data that no empty grant dropped and ends the stream once, on the last frame; it is the whole body if and only if no pooled frame starved; a failure delivers a prefix and does not end the stream; a failure resets the stream exactly if a deadline or a broken body was the first thing to go wrong |
| `H2Send.SurvivesUnlessStarved` | src/http_server.rs:2706-2734 | nothing is lost if and only if no pooled frame is answered with an empty grant |
| `H2Send.PositiveGrantsNeverStarve` | src/http_server.rs:2706-2734 | positive grants, or no pooled data, suffice |
| `H2Send.EmptyGrantLosesAPooledFrame` | src/http_server.rs:2714 | a response of one pooled frame that is answered with one empty grant completes, and nothing of its data survives |
| `H2Send.SendStarved` | src/http_server.rs:2669-2790 | sending that response succeeds and delivers nothing |
| `FilePaths.PercentDecode` | src/file_server.rs:730-753 | the loop computes the decoding |
| `FilePaths.DecodesWhatIsEncoded` | src/file_server.rs:730-762 | whatever way bytes are written, literally or escaped, they are read back |
| `FilePaths.DecodesOnlyEncodings` | src/file_server.rs:730-762 | whatever is accepted is one way of writing the result |
| `FilePaths.DecodedSegmentsAreSafe` | src/file_server.rs:712-728 | decoded segments have no separator, NUL, colon or leading dot |
| `FilePaths.DecodesExactlySafeParts` | src/file_server.rs:712-728 | a path is taken for these segments exactly if it is not too long and each of its parts, none empty or with a backslash, decodes to its segment, which is text and safe |
| `FilePaths.DecodesEveryWriting` | src/file_server.rs:712-762 | safe segments are found again from every path that writes them, however their bytes are escaped |
| `FilePaths.DecodedPathRoundTrip` | src/file_server.rs:705-728 | their join is accepted by the plain validation and maps back to them |
| `FilePaths.ValidatesExactlySafePaths` | src/file_server.rs:705-710 | the plain validation accepts exactly the joins of safe segments up to the length limit |
| `FileStreaming.ParseRange` | src/file_server.rs:1015-1070 | a range lies within the file; without a header there is none |
| `FileStreaming.RangeLineExact` | src/file_server.rs:1016-1034 | exactly a single readable line of one unit and one hyphenated pair is looked at |
| `FileStreaming.IntegerRangeSelects` | src/file_server.rs:1048-1069 | an integer range selects its positions up to the end of the file, and is unsatisfiable exactly if it starts past it |
| `FileStreaming.SuffixRangeSelects` | src/file_server.rs:1035-1047 | a suffix range selects the last positions |
| `FileStreaming.TakenOutsideGrammar` | src/file_server.rs:1035-1065 | a pair that is not ignored is outside the grammar of section 14.1.1 of RFC 9110 if and only if it has a plus sign, or starts past the end and has a last position without the form or the order the grammar asks for |
| `FileStreaming.GrammarIgnored` | src/file_server.rs:1035-1065 | a range of the grammar is ignored if and only if a number that is read does not fit 64 bits |
| `FileStreaming.GrammarSelects` | src/file_server.rs:1035-1069 | any other range of the grammar selects exactly the positions it means, and is unsatisfiable exactly if it means none |
| `FileStreaming.RangeHeaderSelects` | src/file_server.rs:1015-1070 | the same of a whole header line: a line of the grammar selects the positions its text means, unless a number that is read does not fit 64 bits |
| `FileStreaming.OnlyRangeLinesSelect` | src/file_server.rs:1015-1034 | only a single line of that form can select anything or be refused |
| `FileStreaming.PastEndIsNotRead` | src/file_server.rs:1051-1053 | past the end any text at all is accepted as the last position |
| `FileStreaming.PlusSignIsTaken` | src/file_server.rs:1048-1050 | a plus sign is accepted |
| `FileStreaming.Prepare` | src/file_server.rs:448-553 | preconditions first, 416 exactly for an unsatisfiable range, 206 exactly for a selected one; a content-coded response is the whole file with status 200, a partial one is never coded; the length is announced exactly without coding; unless refused, a body is sent exactly if the file is not empty and the request is not HEAD, and it is coded exactly as preferred if there is no Range line |
| `FileStreaming.CopyFile` | src/file_server.rs:599-615 | non-empty chunks of at most the chunk size that concatenate to the bytes from start; it succeeds exactly if there is nothing to copy, or the file has the bytes and the receiver takes enough chunks; after a failure the chunks are the bytes before the first one that the file or the receiver did not have |
| `FileStreaming.StreamPart` | src/file_server.rs:328-363 | the bytes of a part of the file in chunks, and the remaining counter of the body is zero exactly after the last one |
| `FileStreaming.StreamSelected` | src/file_server.rs:448-566 | an identity response sends exactly the selected part |
| `FileStreaming.EndsAtTheLastChunk` | src/file_server.rs:328-363 | the remaining counter is zero exactly after the last chunk |
| `FileStreaming.ChunkWriter.constructor` | src/file_server.rs:624-630 | nothing written |
| `FileStreaming.ChunkWriter.SendBuffer` | src/file_server.rs:632-648 | the buffer goes out as one chunk, nothing is lost |
| `FileStreaming.ChunkWriter.Write` | src/file_server.rs:651-664 | sent chunks plus buffer are what was written, for any sequence of writes and flushes; it succeeds exactly if the receiver takes every chunk that gets full |
| `NativeRouter.Place` | src/native_router.rs:203-209 | one more prefix in its place |
| `NativeRouter.SortPrefixes` | src/native_router.rs:203-209 | ordered by length and then alphabetically, and a permutation |
| `NativeRouter.OneMore` | src/native_router.rs:341-351 | one more route is possible exactly if it is valid and new |
| `NativeRouter.Activate` | src/native_router.rs:132-217 | succeeds exactly on valid routes without duplicates, and keeps all of them |
| `NativeRouter.Route` | src/native_router.rs:219-265 | the exact route, else the longest prefix at a segment boundary, else none |
| `NativeRouter.UnderMount` | src/native_router.rs:243-256 | a path is under a mount with this relative path exactly if it is the mount, a slash and that path, or the mount itself, other than the root, and the relative path is empty |
| `NativeRouter.RouteDeclared` | src/native_router.rs:132-265 | routing over activated routes answers from the declarations |
| `NativeRouter.DeclarationOrderDoesNotMatter` | src/native_router.rs:132-265 | permuted declarations answer alike |
| `BodySink.StagingIsNoDestination` | src/file_server.rs:764-776 | no valid destination is a staging name |
| `BodySinkService.Sink.constructor` | src/body_sink.rs:118-166 | the directory as it is, no writer, all permits free |
| `BodySinkService.Sink.Acquire` | src/body_sink.rs:193-196 | refused exactly when no permit is left; otherwise a permit, then the count, then the mark |
| `BodySinkService.Sink.CreateStaging` | src/body_sink.rs:310-336 | a new empty file under the first name that is not taken, exactly if one of the sixteen comes before a failure of the system |
| `BodySinkService.Sink.Cleanup` | src/body_sink.rs:354-395 | the staging name goes, at the second attempt if the first fails; the outcome is a failed cleanup exactly if the first does |
| `BodySinkService.Sink.WriteChunks` | src/body_sink.rs:207-234 | the file holds the chunks and the count is their length, exactly if every chunk arrives and is written whole and their length fits 64 bits |
| `BodySinkService.Sink.Publish` | src/body_sink.rs:236-248 | the destination names the file exactly if the server is not stopping, the name is not taken and the link does not fail |
| `BodySinkService.Sink.DropLease` | src/body_sink.rs:296-301 | the count sinks, then the permit is back |
| `BodySinkService.Sink.WriteFile` | src/body_sink.rs:172-261 | Ok exactly if a permit and a name were free, all chunks arrived and were written, nothing failed and the destination is new; Ok publishes exactly the chunks under the destination; an error other than a failed cleanup leaves the directory as it was; after a failed cleanup it has the destination exactly if that was linked, and the staging name exactly if the second removal failed too; permits and count are as before; and the whole call is a run of the machine |
| `BodySinkService.CallKeeps` | src/body_sink.rs:172-371 | whatever the machine keeps, such a call keeps |
| `BodySink.StepKeeps` | src/body_sink.rs:172-371 | every system call of every writer keeps the invariant |
| `BodySink.PublishedFilesNeverChange` | src/body_sink.rs:344-352 | a file in place under its name is never changed by any later step |
| `BodySink.FailureIsTraceless` | src/body_sink.rs:387-395 | an error other than a failed cleanup leaves no name for the writer's file |
| `BodySink.FinalDirectory` | src/body_sink.rs:172-261 | when all have returned cleanly, the directory is what it was plus exactly the destinations of the successful writers |
| `BodySink.RunsKeepPromises` | src/body_sink.rs:172-371 | for any number of interleaved writers: existing files stay, at most one Ok per destination, Ok destinations hold exactly the chunks, clean failures leave no trace; the diagnostics count exactly the writers between counting and leaving, never more than the permits taken, and never below zero; the high-water mark stays within the permits and, once raised by everybody who was counted, at or above the count |

## Left out

- BrotliSteps.StepKeeps: a lease of a lane with an unfinished drop is excluded, because it does break the promises (`LeaseSafeIffQuiet`); the owner's drop and its stop messages are not modelled.
- BrotliRuns.QuietRunsKeepPromises: the same leases are excluded, for the same reason.
- BrotliCore.Core.FinishWork: the encoder and the bytes it produces are not modelled.
- SseTransition.RunsKeepPromises: the owner's fields are modelled on values, not as an object; wake-ups of the owner and the wake generation passed to Roc are not modelled.
- RocExecutor.RunsKeepPromises: what a job does between being claimed and being retired is not modelled; that only a queued ordinary job looks whether its client has left is not distinguished.
- RequestParts.RequestToRoc: how paths, queries and authorities are derived from a URI is given, and pointer tagging is not modelled.
- AllocationHistories.RunsKeepPromises: histories are sequential; concurrent calls and the wrap-around of 64-bit counters are not modelled.
- RecyclingAlloc.Recycler.AllocCell: element types are identities with a size, and elements integers with a default.
- H2Send.SendResponse: capacity beyond a grant that the transport buffers is not modelled.
- FileStreaming.Prepare: response headers, preconditions and If-Range are given as outcomes.
- BodySink.RunsKeepPromises: the SHA-256 digest, the validation of roots and the traversal to the parent directory are not modelled.
- NativeRouter.Route: probe responses, their counters and readiness are not modelled; they are targets of exact routes.
- Weak memory: all atomic operations are sequentially consistent.
- Liveness: nothing is said about how long anything takes.
- The Brotli, zstd and gzip codecs, Hyper, h2 and Tokio are opaque.
- Request-target parsing rests on URI and IP parsers that are not part of this model.
- Gates, readiness, capabilities, limits, time, commands, environment and other wrappers of system calls: each is a table lookup or a single call, with nothing to prove across calls.
