# Lupine: verified models

Lupine lets a program use the GPUs of another machine: a client library stands in for
the CUDA and HIP drivers and forwards calls to a server. To be fast it keeps page-level
copies of device memory, caches of driver answers, pools of handles made in advance and
gates around calls, all of which have to agree with a driver they cannot see. This
project models the parts where that agreement is hardest and proves it for all inputs
and all interleavings.

| files | part |
|---|---|
| DispatchGate | the gate that drains CUDA calls for a checkpoint |
| DirtyQueue, DirtySlots, DirtyReferences, DirtyLifetimes, FlushWatermark, DirtyFrees | publishing dirty pages from fault handlers, flushing them, and freeing allocations, as interleaved steps |
| HostRanges | sorting, merging, clipping and sending the ranges of a flush |
| ManagedMemory, ManagedAllocation, ManagedPrograms | coherence of a managed allocation: faults, demand fetches, flushes, invalidations, whole programs |
| EventTable, EventQueries, OwedCopies, EventAnswers | the table of completed events, queries answered without a request, the counter of copies still owed, and the two together |
| AllocationCache | the ordered cache of device allocations with its count of overlapping neighbours |
| LittleEndian, Options, Sequences | helpers of several modules |
| FatbinFilter | filtering a fat binary to what the server's devices can use |
| HipBundle | measuring an offload bundle on both sides |
| PrimaryContexts, ContextStates | folding retains of a primary context into one, and the cache of its state |
| HandlePools | pools of streams and events guarded by a generation |
| StreamCaptures | the count and the cache of stream captures, and the gate that waits for them |
| LibraryRecords, LibraryProfile | the profile of library images |
| ExportThunk | the AArch64 stub of a private export |

Concurrent protocols are state machines: one step per atomic access, lock operation or
critical section, any number of threads, all interleavings, sequentially consistent. A
run is a sequence of states linked by steps, and the main results speak about every state
of every run. Code that changes objects in place is a class or a method over an array or
buffer, proved against a specification function; the properties are proved about that
function.

Environment, stated where it is used: one end for each begin, and a resume only after its
drain (checkpoint.h:13-20); a fault handler publishes a range before the store that
faulted executes; an application that has started to free an allocation no longer touches
it; a request that waits for an answer is processed after the asynchronous requests that
any thread of the connection published before it entered (rpc.cpp:893-897, 1126-1134); the
driver keeps its retain count across a reset and makes the context inactive.

## Where the code and a promise differ

- A locally answered cuEventQuery invalidates managed memory without a flush, unless no
  work is pending or a capture is open. ManagedPrograms.LostWrite is a program whose write
  it loses; ManagedMemory.SyncLosesByte and SyncWithoutFlush say exactly when it loses one.
- A free can wait for ever, with the flush mutex held, for a reference that only a flush
  releases: DirtyFrees.FreeIsHeldUp is a run, WaitCanEnd and NeverHeldUpCondition the
  conditions, and QuietFreeCanEnd what an application can see to.
- A flush sends stale bytes over what the device wrote when full_dirty is set and the fetch
  before it fails, which it does not look at: ManagedPrograms.LostDeviceWrite is a run,
  ManagedMemory.FlushLosesByte and FlushOfFullDirty the condition.
- The cache of primary-context states can keep a state that a retain, release, reset or
  change of flags has overtaken: ContextStates.OverlapCachesWrongState gives two runs,
  HarmlessCondition and HarmlessRuns the condition.
- A pooled handle can be handed out between the destruction of its context and the discard:
  HandlePools.DeadHandleIsTaken is a run, TakenIsLive the condition.
- The owed-copies counter can reach zero while a returned call is still owed a copy:
  OwedCopies.EarlyDeliveryHidesACopy is a run, HidingCondition and TightCounter say exactly
  when a delivery can do it.
- capture_gate::end finds nothing to release when a capture is ended before the call that
  began it has its answer, and the gate then counts that capture for ever:
  StreamCaptures.SkippedReleaseStays is a run, SkippedDuringBegin the condition, and
  GrantedAtRest what a checkpoint then waits for.
- The overlap test of the allocation cache is an interval test exactly for ranges that
  neither wrap nor are empty above address one: AllocationCache.IntervalTestCondition.
- The fat binary test promises to forward sizes that do not add up; it does so except when
  their 64-bit sum wraps: FatbinFilter.SizesAddUp, and WrappedSizes for an image.
- A library record keeps only the id bytes whose number fits one byte:
  LibraryRecords.RecordRoundTrip. A record of 4 GiB or more outgrows its length prefix:
  LibraryProfile.AcceptedRecordIsLost, and RecordedComesBack for the condition.

## Model

| member | source | states |
|---|---|---|
| `DispatchGate.StepKeepsInv` | checkpoint.cpp:14-60 | Every atomic access, lock operation, wait, notification and spurious wake-up of begin, end, drain and resume, by any thread in any interleaving, keeps the gate invariant: the counters, the flags, exclusion and the pending wake-ups. |
| `DispatchGate.RunKeepsInv` | checkpoint.cpp:14-60 | Every state of every run, with any number of callers and drainers, satisfies the gate invariant. |
| `DispatchGate.DrainedGateIsExclusive` | checkpoint.cpp:42-60 | From the moment drain returns until the matching resume clears the flag, no call is admitted and no other drainer owns the gate. |
| `DispatchGate.DrainAdmitsNobody` | checkpoint.cpp:16-50 | While a drain stands between its store of pending_ and the matching resume, a step can only take calls out of the gate. |
| `DispatchGate.DrainWindow` | checkpoint.cpp:16-60 | Over the whole window of a drain the set of admitted calls only shrinks. |
| `DispatchGate.CountIsExact` | checkpoint.cpp:29-40 | active_calls_ is exactly the number of threads that have counted themselves, and an end that loads it never finds zero. |
| `DispatchGate.NoLostWakeup` | checkpoint.cpp:24-60 | A parked thread whose predicate holds is about to be notified by a thread already on its way to do so. |
| `DispatchGate.SomeThreadCanRun` | checkpoint.cpp:14-60 | The gate does not deadlock: while some call is under way and the application owes it no end or resume, some thread can take a step. |
| `DirtySlots.MoveKeepsSlots` | cuda_client_memcpy.cpp:562-606 | Every step of producers and flushers keeps the slots of a dirty queue in order: each reserved slot below next has one owner, no slot is filled while it is ready, and a taken slot is empty before it is reused. |
| `DirtyReferences.MoveConserves` | cuda_client_memcpy.cpp:594-602 | Every step keeps pending_dirty_ranges equal to ready slots plus ranges and whole windows held by the flush, those of untracked and portable registrations included, plus producers, fetches and fallback copies that hold a reference. |
| `DirtyLifetimes.MoveKeepsLifetimes` | cuda_client_memcpy.cpp:1519-1543 | Every step keeps references, held ranges and ready slots on registered allocations; a free waits for its references and fault handlers before it erases. |
| `DirtyLifetimes.EraseIsUnreferenced` | cuda_client_memcpy.cpp:2790-2808 | In any state that satisfies the invariants, an allocation about to be erased is in no ready slot, in no range or window a flush has taken, and in the hands of no fault handler or fetch. |
| `FlushWatermark.RunKeepsInv` | cuda_client_memcpy.cpp:1159-1347 | Every state of every run of any number of producers, collectors of server writes, flushers and frees, flushes that fail before they read the queue included, satisfies slots, conservation, lifetimes and the watermark invariant. |
| `FlushWatermark.WatermarkGrows` | cuda_client_memcpy.cpp:1468-1517 | lupine_flushed_host_epoch never moves back. |
| `FlushWatermark.FlushedMeansAcknowledged` | cuda_client_memcpy.cpp:1468-1481 | A published range of a live allocation whose ticket is at or below the watermark has been acknowledged, with contents read no earlier than its publication. |
| `FlushWatermark.PreparedMeansAcknowledged` | cuda_client_memcpy.cpp:1483-1517 | When lupine_prepare_rpc returns 0, by the fast path or after its loop, every range the calling thread published on a live allocation has been acknowledged, those it collected from the server's writes before and during the flush included. |
| `FlushWatermark.NothingIsLost` | cuda_client_memcpy.cpp:1232-1347 | Whatever fails, the connection, the collection of server writes or the send, a published range of a live allocation is acknowledged, queued, held by a flush, or covered by full_dirty. |
| `FlushWatermark.ReferencesAreCounted` | cuda_client_memcpy.cpp:594-602 | In every reachable state pending_dirty_ranges is exactly the number of references to the allocation, the windows of untracked and portable registrations (lines 1300-1325) included. |
| `FlushWatermark.ErasedMeansUnreferenced` | cuda_client_memcpy.cpp:2790-2808 | In every reachable state, erasing an allocation leaves no slot, no held range or window, no handler and no fetch that refers to it. |
| `DirtyFrees.BoundWaitsForever` | cuda_client_memcpy.cpp:1528-1534 | If a free waits while a range of its allocation is queued or a handler has reserved a slot for one, then in every later state of the run it still waits, holds the flush mutex, and the count is above zero. |
| `DirtyFrees.WaitEnds` | cuda_client_memcpy.cpp:1528-1534 | From a waiting free with no such range and no handler about to reserve a slot, the run can be continued to the end of the wait: every referrer left has a step that brings it nearer. |
| `DirtyFrees.WaitCanEnd` | cuda_client_memcpy.cpp:1528-1534 | If no handler is about to reserve a slot for the allocation, some continuation of the run ends the wait if and only if no range of it is queued or on its way into a slot. |
| `DirtyFrees.NeverHeldUpCondition` | cuda_client_memcpy.cpp:1528-1534 | In every waiting state: however the run goes on while the free waits, the wait can still end, if and only if no range of the allocation is queued or on its way into a slot and no handler stands at the reservation of a slot that is there to have. |
| `DirtyFrees.QuietFreeCanEnd` | cuda_client_memcpy.cpp:1519-1543 | A free that starts while no fault handler works on the allocation can always end its wait, whatever else runs in between. |
| `DirtyFrees.FreeIsHeldUp` | cuda_client_memcpy.cpp:1528-1534 | A run in which it cannot: a handler that has counted its reference when the free starts reserves its slot after the free has flushed the route. |
| `HostRanges.SortRanges` | cuda_client_memcpy.cpp:1349-1359 | The sorted list is a permutation of the ranges, ordered by allocation base, start and end. |
| `HostRanges.MergeRanges` | cuda_client_memcpy.cpp:1360-1369 | The merged list has gaps between the ranges of an allocation and the same union, byte for byte and allocation by allocation. |
| `HostRanges.SentOnce` | cuda_client_memcpy.cpp:1404-1463 | Ranges with gaps, clipped to the user window, put each byte of their union inside the window into exactly one item and every other byte into none. |
| `HostRanges.ItemsLand` | cuda_client_memcpy.cpp:1404-1463 | Every item is non-empty, lies in the window, and goes to the same offset of the backing as it has in the host view. |
| `HostRanges.SendBatch` | cuda_client_memcpy.cpp:1386-1402 | A batch that goes out is appended to what was sent; a refused one changes nothing. |
| `HostRanges.SendItem` | cuda_client_memcpy.cpp:1404-1450 | An item joins the batch or goes alone as a bulk push; sent plus waiting items are the old ones plus this item, in order, also across a full batch. |
| `HostRanges.SendRange` | cuda_client_memcpy.cpp:1404-1450 | A range adds exactly its clipped item; it fails only when the transport refuses or it has no backing, and then what was sent is a prefix. |
| `HostRanges.SendRanges` | cuda_client_memcpy.cpp:1404-1463 | All ranges together send exactly their clipped items in order, in batches of at most 1024 and bulk pushes of at least 8 MiB; a failure sends a prefix. |
| `HostRanges.FlushRanges` | cuda_client_memcpy.cpp:1349-1463 | Sort, merge, clip and send: a successful flush sends each wanted byte exactly once to its place in the backing and no other byte; a failed one sends none twice, and it fails only when the transport has refused a message or a wanted byte has no backing. |
| `ManagedMemory.FetchKeepsCoherent` | cuda_client_memcpy.cpp:1875-1955 | Copying a run of stale chunks from the server keeps the memory coherent. |
| `ManagedMemory.MarkKeepsCoherent` | cuda_client_memcpy.cpp:584-606 | Publishing a page as dirty, in the queue or through full_dirty, and opening it for writing keeps coherence. |
| `ManagedMemory.StoreKeepsCoherent` | cuda_client_memcpy.cpp:695-697 | A store to a writable page keeps coherence with the promised contents changed at that byte. |
| `ManagedMemory.FinishKeepsCoherent` | cuda_client_memcpy.cpp:1957-1973 | Making a fetched span readable and closing the fetch keeps coherence and leaves no current byte hidden. |
| `ManagedMemory.FlushKeepsCoherent` | cuda_client_memcpy.cpp:1232-1466 | A flush leaves nothing dirty, and the server then holds the promised contents. |
| `ManagedMemory.FlushLosesByte` | cuda_client_memcpy.cpp:1330-1335 | After a flush, also one whose fetch failed, the server holds another byte than promised exactly when full_dirty was set, the byte was still stale, and the client copy differs. |
| `ManagedMemory.FlushOfFullDirty` | cuda_client_memcpy.cpp:1330-1335 | For every coherent state a flush gives the server every promised byte, whatever the bytes are, if and only if full_dirty is not set or no byte of the data is still stale. |
| `ManagedMemory.FlushLosesWrite` | cuda_client_memcpy.cpp:1330-1335 | With full_dirty set, each stale byte has contents for which the flush overwrites what the device wrote. |
| `ManagedMemory.InvalidationKeepsCoherent` | cuda_client_memcpy.cpp:2250-2268 | With nothing dirty, hiding every page and dropping every fresh flag keeps coherence. |
| `ManagedMemory.PageFits` | cuda_client_memcpy.cpp:621-635 | The faulting page lies inside the storage and inside one 64 KiB chunk, and is a legal dirty range. |
| `ManagedMemory.ChunkStartsInData` | cuda_client_memcpy.cpp:1875-1880 | A chunk that begins in the storage begins in the user data, so the clipping in a fetch never goes below zero. |
| `ManagedMemory.SyncLosesByte` | cuda_client_memcpy.cpp:2201-2207 | After a synchronization that no flush precedes, as in a locally answered cuEventQuery, a byte reads other than promised exactly when device work is pending, no capture is open, the byte is current and dirty, and client and server differ there. |
| `ManagedMemory.SyncWithoutFlush` | cuda_client_memcpy.cpp:2201-2207 | For every coherent state that synchronization keeps every promised byte, whatever the bytes are, if and only if not all three hold: device work is pending, no capture is open, and some current byte is dirty. |
| `ManagedMemory.SyncLosesWrite` | cuda_client_memcpy.cpp:2201-2207 | With work pending and no capture open, each current dirty byte has contents for which that synchronization loses it. |
| `ManagedAllocation.RunEnd` | cuda_client_memcpy.cpp:2001-2007 | The scan of fresh flags ends the run at the first fresh chunk or at the limit: everything in it is stale. |
| `ManagedAllocation.DemandFetchKeepsCoherent` | cuda_client_memcpy.cpp:1977-2030 | A whole demand fetch keeps coherence and makes every byte of its run current. |
| `ManagedAllocation.Allocation.constructor` | cuda_client_memcpy.cpp:814-865 | A new allocation whose backing holds the same bytes is coherent. |
| `ManagedAllocation.Allocation.FetchStaleRange` | cuda_client_memcpy.cpp:1875-1880 | The client bytes of the range inside the user data, and no others, become the server's. |
| `ManagedAllocation.Allocation.FetchChunks` | cuda_client_memcpy.cpp:2019-2028 | A run of chunks becomes current and fresh. |
| `ManagedAllocation.Allocation.DemandFetchRun` | cuda_client_memcpy.cpp:1977-2030 | The fetch begins at the faulting chunk, reaches the first fresh chunk or the readahead limit, refetches no fresh chunk, and moves the readahead state on; if the faulting chunk is already fresh it fetches nothing. |
| `ManagedAllocation.Allocation.FinishDemandFetch` | cuda_client_memcpy.cpp:1957-1973 | The span becomes readable and the allocation is fresh exactly when all its chunks are. |
| `ManagedAllocation.Allocation.FetchFault` | cuda_client_memcpy.cpp:643-693 | The stale branch of the handler, in any state: a run of stale chunks around the fault is copied from the server and made readable, and the faulting byte is current. |
| `ManagedAllocation.Allocation.DemandFetch` | cuda_client_memcpy.cpp:643-693 | After the stale branch of the handler the faulting byte is current and readable, so the access does not fault there again. |
| `ManagedAllocation.Allocation.Load` | cuda_client_memcpy.cpp:608-704 | A load returns the client byte if it is current and the server byte otherwise. |
| `ManagedAllocation.Allocation.QueueDirtyRange` | cuda_client_memcpy.cpp:584-606 | The range is queued, or full_dirty is set when the queue is full; either way a new ticket is drawn and required. |
| `ManagedAllocation.Allocation.MarkPage` | cuda_client_memcpy.cpp:695-697 | The faulting page becomes writable after it is published, and the allocation stays coherent. |
| `ManagedAllocation.Allocation.Fault` | cuda_client_memcpy.cpp:608-704 | A fault on a stale byte fetches and makes it readable; a fault on a current byte publishes its page and makes it writable. |
| `ManagedAllocation.Allocation.HostRead` | cuda_client_memcpy.cpp:608-704 | A host read returns the promised byte; it fetches exactly when the byte was not current. |
| `ManagedAllocation.Allocation.Store` | cuda_client_memcpy.cpp:695-697 | A store to a writable page changes the client byte and the promised byte and keeps coherence. |
| `ManagedAllocation.Allocation.HostWrite` | cuda_client_memcpy.cpp:608-704 | A host store faults at most twice and changes the promised contents at its byte only. |
| `ManagedAllocation.Allocation.FetchRuns` | cuda_client_memcpy.cpp:2062-2095 | Every chunk of the asked span is fresh when the loop ends, and only fetched spans are still hidden; a fetch that fails ends it at a stale chunk. |
| `ManagedAllocation.Allocation.MakeRangeFresh` | cuda_client_memcpy.cpp:2035-2103 | Every byte of the asked range is current afterwards, and for the whole allocation the stale state is cleared; if a fetch fails the allocation stays stale, and coherent, with a stale byte left. |
| `ManagedAllocation.Allocation.ProtectRanges` | cuda_client_memcpy.cpp:1371-1378 | Exactly the bytes of the given ranges become read-only. |
| `ManagedAllocation.Allocation.Receive` | cuda_client_memcpy.cpp:1404-1463 | The server gets the client byte wherever an item carries it and keeps all others. |
| `ManagedAllocation.Allocation.SendRanges` | cuda_client_memcpy.cpp:1349-1463 | Through HostRanges.FlushRanges the server gets the client's bytes of the ranges inside the data and keeps all others. |
| `ManagedAllocation.Allocation.TakeRanges` | cuda_client_memcpy.cpp:1246-1294 | Taking empties the queue and clears full_dirty without losing a range. |
| `ManagedAllocation.Allocation.SendTaken` | cuda_client_memcpy.cpp:1336-1466 | What the flush holds is protected, sent and released; with stale bytes among it the server then holds the client's bytes everywhere. |
| `ManagedAllocation.Allocation.FlushRoute` | cuda_client_memcpy.cpp:1232-1466 | A flush of the route leaves nothing dirty and the server with the promised contents, also after the queue overflowed; if a fetch before it fails, it ends alike but has sent the stale bytes. |
| `ManagedAllocation.Allocation.FlushToServer` | cuda_client_memcpy.cpp:1468-1481 | The same over all routes, and the watermark reaches the epoch read at the start. |
| `ManagedAllocation.Allocation.PrepareRpc` | cuda_client_memcpy.cpp:1483-1517 | Before any request goes out nothing is dirty and the server holds the promised contents. |
| `ManagedAllocation.Allocation.Invalidate` | cuda_client_memcpy.cpp:2318-2357 | In any state the allocation becomes stale with no fresh chunk and no page accessible, and the readahead starts over. |
| `ManagedAllocation.Allocation.Launch` | cuda_client_memcpy.cpp:2314-2357 | A kernel sees all earlier host writes, and its result becomes the promised contents. |
| `ManagedAllocation.Allocation.SyncMappedDeviceToHost` | cuda_client_memcpy.cpp:2201-2313 | With a capture open or no work pending nothing changes; otherwise the host will see what the device wrote, and the allocation stays coherent unless a current byte is dirty. |
| `ManagedAllocation.Allocation.Synchronize` | cuda_client_memcpy.cpp:2201-2313 | After a synchronization that a request precedes the host will see what the device wrote, and nothing is lost. |
| `ManagedAllocation.Allocation.ScanAll` | cuda_client_memcpy.cpp:1977-2030 | Reading a fully stale allocation of any size front to back returns the promised bytes with at most eight fetches. |
| `ManagedPrograms.Step` | cuda_client_memcpy.cpp:608-704 | One host access, kernel, synchronization or locally answered query observes what one flat memory would show and moves it on alike. |
| `ManagedPrograms.Run` | cuda_client_memcpy.cpp:2201-2357 | Every legal program of reads, writes, kernels, synchronizations and locally answered queries, with the dirty queue overflowing at any time, observes exactly what one flat memory would show; a local query is legal unless a host write follows the last request while work is pending. |
| `ManagedPrograms.LostWrite` | cuda_client.cpp:4826-4828 | A run that breaks that rule: on a new allocation of any shape, a request, a write of any value to any byte, a locally answered query and a read give back the byte from before the write. |
| `ManagedPrograms.LostDeviceWrite` | cuda_client_memcpy.cpp:1333-1335 | A run in which a flush loses device writes: after a kernel the host stores to any byte while the dirty queue is full, every fetch fails, and the flush gives the server back the old byte at any offset of another chunk. |
| `EventTable.RecordKeepsDistinct` | events.cpp:15-32 | A record stamp written to the table, in place or over the least recent slot, leaves no event in two slots. |
| `EventTable.ForgetKeepsDistinct` | events.cpp:34-41 | Forgetting an event leaves no event in two slots. |
| `EventTable.CompleteAllKeeps` | events.cpp:81-98 | Caching a reply changes no event and no stamp, and a slot becomes complete only through a successful answer whose token has its event and its stamp. |
| `EventTable.PendingMatch` | events.cpp:60-79 | Every token of a collected batch carries the event and stamp of a slot. |
| `EventTable.Table.InvalidateCompletion` | events.cpp:15-32 | The event has a slot with a new stamp that is not complete; it took its own slot if it had one, otherwise one with the least stamp; all other slots stay. |
| `EventTable.Table.ForgetEvent` | events.cpp:34-41 | Exactly the slots of the event are emptied. |
| `EventTable.Table.QueryNeeded` | events.cpp:43-58 | No query is needed exactly when no copy is owed and the event's slot is complete; the stamp returned is the slot's, or 0. |
| `EventTable.Table.CollectQueryBatch` | events.cpp:60-79 | The batch is the incomplete other events of the route, in slot order, at most sixteen. |
| `EventTable.Table.CacheCompletions` | events.cpp:81-98 | The slots are completed as the answers say, in order. |
| `EventQueries.StepKeepsInv` | cuda_client.cpp:4749-4769 | Every step of records, returns, queries, replies, destroys and the server, by any threads, keeps the invariant of slots, tokens in flight and stamps. |
| `EventQueries.RunKeepsInv` | cuda_client.cpp:4810-4846 | Every state of every run satisfies that invariant. |
| `EventQueries.LocalAnswerIsSettled` | cuda_client.cpp:4826-4828 | When a query is answered without a request, some record of the event is complete on the server and every record whose call has returned was taken by the server no later than that one; across eviction, forgetting, re-records in flight and stamps written out of order. |
| `EventQueries.LocalAnswerIsCurrent` | events.cpp:43-58 | If every record call of the event has returned, a local answer means that the event's last record is complete on the server and none is still on its way. |
| `OwedCopies.RunKeepsInv` | events.cpp:100-115 | In every interleaving of copy calls, their counting and deliveries, the copies a returned call is still owed never exceed the counter plus the copies delivered ahead of their counting. |
| `OwedCopies.ZeroMeansNoneMissing` | cuda_client.cpp:4701-4713 | With the counter at zero and no copy delivered ahead of its counting, every copy still owed belongs to a call that has not returned. |
| `OwedCopies.HidingCondition` | cuda_client_memcpy.cpp:4439-4441 | Some delivery can leave the counter at zero while a returned call is still owed a copy if and only if such a copy exists and the counter is below the number of copies owed. |
| `OwedCopies.TightCounter` | cuda_client_memcpy.cpp:4439-4441 | While the counter is exactly the number of missing copies, that can happen if and only if a copy is owed whose call has not counted it yet. |
| `OwedCopies.EarlyDeliveryHidesACopy` | cuda_client_memcpy.cpp:4439-4441 | A run in which it does happen: a copy delivered before its call counts it cancels another call's count. |
| `EventAnswers.StepKeeps` | events.cpp:43-58 | Records, queries, copy calls and deliveries interleaved, each query loading the counter before it looks into the table, keep both invariants and what a load of zero goes on to mean. |
| `EventAnswers.LocalAnswerIsWhole` | events.cpp:43-58 | A query answered without a request, with no record of the event under way: its last record is complete on the server, and, if no copy had been delivered ahead of its call at the load of the counter, every copy whose call had returned by then has arrived. |
| `AllocationCache.NeighboursConcat` | cache.cpp:27-36 | The number of overlapping neighbours of two lists behind one another is that of both plus the junction. |
| `AllocationCache.NoneMeansDisjoint` | cache.cpp:136-141 | A count of zero means that all records, not only neighbours, are pairwise disjoint. |
| `AllocationCache.SomeMeansOverlap` | cache.cpp:136-141 | A positive count means that two neighbours do overlap. |
| `AllocationCache.WithoutCount` | cache.cpp:117-122 | Removing a record changes the count by its two junctions and the one it leaves. |
| `AllocationCache.WithCount` | cache.cpp:102-107 | Adding a record changes the count by the junction it splits and the two it makes. |
| `AllocationCache.Cache.constructor` | cache.cpp:20-23 | The cache starts empty with a count of zero. |
| `AllocationCache.Cache.Erase` | cache.cpp:110-123 | Exactly the record with that base goes, and the maintained count stays the number of overlapping neighbours. |
| `AllocationCache.Cache.Insert` | cache.cpp:85-108 | The record replaces any with its base, all others stay, an empty range or a null base only erases, and the count stays exact. |
| `AllocationCache.Cache.Lookup` | cache.cpp:125-144 | The answer is the containing record with the greatest base, and none only if no record contains the address: the early stop loses nothing. |
| `AllocationCache.Cache.OverlapsOtherRoute` | cache.cpp:146-164 | The early-stopping walk finds a record of another route exactly when the walk over all records would. |
| `AllocationCache.IntervalTestCondition` | cache.cpp:146-164 | For every base and size the walk answers as an interval intersection test over all caches if and only if base plus size does not wrap and the range is not empty above address one. |
| `AllocationCache.WrapMisses` | cache.cpp:150 | A range that wraps misses an overlapping record. |
| `AllocationCache.EmptyRangeReaches` | cache.cpp:153-154 | An empty range above address one is reported as overlapping. |
| `FatbinFilter.ParseSound` | fatbin_filter.h:37-63 | A body that parses is exactly its members behind one another. |
| `FatbinFilter.ParseConcat` | fatbin_filter.h:37-63 | Members put behind one another parse to themselves, whatever follows. |
| `FatbinFilter.KeptSpans` | fatbin_filter.h:37-63 | The walk accepts exactly the well-formed images, and its spans are the members usable by a listed device, in order. |
| `FatbinFilter.Assemble` | fatbin_filter.h:68-76 | The output is the header followed by the kept members. |
| `FatbinFilter.FilterFatbin` | fatbin_filter.h:14-77 | The result is non-empty exactly when the devices are known, the image is well formed, and some but not all members are kept; it is then an image packed from the kept members. |
| `FatbinFilter.PackIsWellFormed` | fatbin_filter.h:68-76 | An image packed from members is well formed and has exactly those members. |
| `FatbinFilter.FilterPreservesMeaning` | fatbin_filter.h:10-13 | A filtered image is well formed and shorter, and offers every listed device the same usable members in the same order, byte for byte. |
| `FatbinFilter.FilterAgain` | fatbin_filter.h:64-66 | Filtering a filtered image changes nothing. |
| `FatbinFilter.MayServeDevice` | cuda_client.cpp:5076-5114 | The client's loop computes whether some entry serves the device or cannot be accounted for. |
| `FatbinFilter.TestIsExact` | cuda_client.cpp:5057-5114 | On a well-formed image with members the test says exactly whether some member is usable by the device. |
| `FatbinFilter.TestAgrees` | cuda_client.cpp:5076-5114 | The test answers the same for an image and its filtered form, for every listed device. |
| `FatbinFilter.SizesAddUp` | cuda_client.cpp:5069-5086 | The sizes that pass the test add up to the image if and only if the outer header ends inside the image; otherwise the 64-bit sum wrapped, and the test answers no for every device instead of forwarding. |
| `FatbinFilter.WrappedSizes` | cuda_client.cpp:5069-5086 | Such an image of 16 bytes, refused for every device. |
| `HipBundle.BundleSize` | hip_fatbin.h:15-57 | The size is the end of the last payload if the image is a bundle that is all there, otherwise 0; nothing is read beyond what is available, beyond a bundle, or past the rows the checks let through. |
| `HipBundle.RowsBeforePayloads` | hip_fatbin.h:33-50 | No row of the table that is read lies in a payload that an earlier row lists. |
| `HipBundle.ExtentIsReached` | hip_fatbin.h:50-51 | The measured end is the end of some payload and no payload ends after it. |
| `HipBundle.CheckedIsInOrder` | hip_fatbin.h:33-56 | The checks made row by row, with the first payload so far, accept exactly the tables whose rows are within the limits and which end before every payload. |
| `HipBundle.ServerAgrees` | hip_server.cpp:75-93 | Once an image measures n under any bound, every image with the same first n bytes measures n under every bound that holds it and 0 under every smaller one; n is at most 256 MiB. |
| `HipBundle.PayloadsAreSent` | hip_client.cpp:463-472 | Every payload lies inside the n bytes sent, behind the whole table, and one ends at n. |
| `PrimaryContexts.Client.constructor` | cuda_client.cpp:1865-1881 | Before any call nothing is retained anywhere. |
| `PrimaryContexts.Client.PrimaryRetain` | cuda_client.cpp:1916-1948 | The answer and the driver state are those of a driver that received the retain, though only a retain of an inactive context is forwarded. |
| `PrimaryContexts.Client.PrimaryRelease` | cuda_client.cpp:1965-1988 | The same for a release, though only the one that drops the last reference of an active context is forwarded. |
| `PrimaryContexts.Client.PrimaryReset` | cuda_client.cpp:2075-2097 | The same for a reset, which keeps the program's count and gives back the forwarded retain. |
| `PrimaryContexts.Client.PrimaryState` | cuda_client.cpp:2017-2054 | With one thread at a time, a state answered from the cache is the current one. |
| `PrimaryContexts.Client.OneReference` | cuda_client.cpp:1860-1864 | The server counts one reference for a forwarded entry and none otherwise, however many the program holds, and activity agrees. |
| `PrimaryContexts.Run` | cuda_client.cpp:1860-2097 | Every sequence of retains, releases, resets and state queries on any devices, one thread at a time, gets the answers of drivers that received every call. |
| `ContextStates.HarmlessCondition` | cuda_client.cpp:2017-2054 | In any state, with any threads querying, retaining, releasing, resetting and setting flags: no continuation by the calls under way leaves a wrong state in the cache if and only if cache and replies are right now and no query that went to the server overlaps a call being forwarded that changes the state. |
| `ContextStates.HarmlessRuns` | cuda_client.cpp:1916-2062 | At every point of a run so far the calls under way were harmless if and only if at none of them a query overlapped a call that changes the state. |
| `ContextStates.ApartIsCurrent` | cuda_client.cpp:2017-2054 | If no query overlaps a forwarded call that changes the state, every cached state is current. |
| `ContextStates.OverlapCachesWrongState` | cuda_client.cpp:2038-2052 | Two runs of a query and a retain that leave an active context cached as inactive: the retain between reply and insert, and the insert between erase and retain. |
| `HandlePools.PushAppends` | cuda_client.cpp:3307-3349 | Pushing a batch in reverse puts each bucket's handles, youngest first, on top of its stack. |
| `HandlePools.HandedInOrder` | cuda_client.cpp:3307-3349 | Popping hands a batch's handles out in the order they were made. |
| `HandlePools.StepKeeps` | cuda_client.cpp:3301-3381 | Begin, creation, arrival, failure, hand-out, teardown and discard, by any threads, keep stacks, flights and dead handles in order. |
| `HandlePools.RunKeepsInv` | cuda_client.cpp:3453-3538 | Every state of every run satisfies that invariant, for the stream pools and for the event pools. |
| `HandlePools.TakenIsLive` | cuda_client.cpp:3364-3381 | A handle answered from a pool is of the asked kind, and it has died with its context if and only if a teardown of that context, executed after the handle was made, has still to discard. |
| `HandlePools.DeadHandleIsTaken` | cuda_client.cpp:3364-3381 | A run in which that happens: the context is destroyed on the server, and its handle is handed out before the discard. |
| `HandlePools.NeverTwice` | cuda_client.cpp:3369-3379 | No two hand-outs give the same handle, whether it is popped from a pool or is the first of an event batch that lands. |
| `HandlePools.DiscardIsFinal` | cuda_client.cpp:3351-3362 | At any time after a discard, whatever is pooled for what was torn down was asked for after it. |
| `HandlePools.OldBatchesNeverServe` | cuda_client.cpp:3301-3305 | After a discard no handle of a batch requested before it is answered for what was torn down, however late the batch arrives. |
| `HandlePools.OnePlace` | cuda_client.cpp:3486-3538 | Every handle made is in exactly one place: with one request, once on the stack of its bucket, with the program, or dropped. |
| `StreamCaptures.StepKeeps` | cuda_client.cpp:7803-7828 | Every step of begins, ends, queries and checkpoints, by any threads, keeps the books of the gate and the count, the captures and the cached entries in order. |
| `StreamCaptures.RunKeepsInv` | cuda_client.cpp:7628-7660 | Every state of every run satisfies that invariant. |
| `StreamCaptures.ZeroMeansNone` | cuda_client.cpp:7876-7880 | The captures going on never exceed lupine_active_stream_captures; at zero no stream is capturing. |
| `StreamCaptures.FoundIsOpen` | cuda_client.cpp:7881-7886 | An entry whose epoch equals the epoch loaded after the look-up describes a capture whose end has not advanced the epoch: it is going on with the stream in it, or one thread is ending it. |
| `StreamCaptures.LoadedIsOpen` | cuda_client.cpp:7714-7733 | With the epoch loaded first, the entry answered from describes a capture that had not finished at that load. |
| `StreamCaptures.QuietIsQuiet` | checkpoint.cpp:102-111 | From the grant of a checkpoint until it resumes no capture is going on, none is being begun, and no other checkpoint is granted. |
| `StreamCaptures.GrantedAtRest` | checkpoint.cpp:83-111 | When every call has returned and no capture is left, the gate counts exactly the releases that were skipped; what a checkpoint waits for holds if and only if there were none. |
| `StreamCaptures.SkippedDuringBegin` | checkpoint.cpp:93-100 | A release is skipped if and only if the begins that have an answer but are not yet counted make up all captures going on or being ended and all releases skipped before; some begin then waits to count its capture. |
| `StreamCaptures.OrderlyRunsSkipNone` | checkpoint.cpp:83-100 | No release is skipped in a run in which no capture is ended while a begin has still to count its own. |
| `StreamCaptures.SkippedReleaseStays` | checkpoint.cpp:93-100 | A run in which that happens and the gate counts one capture for ever although none is left. |
| `LibraryRecords.WriteRecord` | cuda_client.cpp:5354-5380 | The buffer holds the record of the image, its options and their values, an absent value array as complements. |
| `LibraryRecords.DecodeOfRecord` | cuda_client.cpp:5384-5406 | What decoding a record gives, in every case: refused for an id of a multiple of 256 bytes or a size below the header, otherwise the image with its id cut to the length one byte holds. |
| `LibraryRecords.RecordRoundTrip` | cuda_client.cpp:5354-5406 | Decoding gives the image back if and only if its id has 1 to 255 bytes and it can hold a fat binary header. |
| `LibraryRecords.AcceptedIsARecord` | cuda_client.cpp:5382-5406 | Whatever passes the check is a whole record, with as many options and values as it says and nothing behind them. |
| `LibraryRecords.ClaimIsExact` | cuda_client.cpp:5747-5749 | Two records are equal exactly when image, options and values are. |
| `LibraryProfile.ParseProfile` | cuda_client.cpp:5718-5729 | The loop yields the longest run of complete accepted records, at most 4096. |
| `LibraryProfile.LinesYield` | cuda_client.cpp:5718-5729 | A file begun by recorded lines yields their records in order and then whatever can be read of the rest, up to the limit. |
| `LibraryProfile.ProfileRoundTrip` | cuda_client.cpp:5765-5767 | Recorded lines come back, up to the limit, whatever follows them. |
| `LibraryProfile.TornTail` | cuda_client.cpp:5718-5729 | A file cut at any byte yields a prefix of what the whole file yields. |
| `LibraryProfile.Profile.Add` | cuda_client.cpp:5758-5769 | The lines and the file gain exactly one record. |
| `LibraryProfile.RecordedComesBack` | cuda_client.cpp:5718-5729 | What was recorded comes back, up to the limit, if and only if no record among those fails the check or has 4 GiB or more. |
| `LibraryProfile.AcceptedRecordIsLost` | cuda_client.cpp:5765-5767 | A record that passes the check and does not come back: an image with so many options that its record outgrows the length prefix. |
| `LibraryProfile.OutgrownIsLost` | cuda_client.cpp:5718-5729 | No file at all yields a record of 4 GiB or more. |
| `LibraryProfile.ReadableComesBack` | cuda_client.cpp:5718-5729 | Whatever was recorded, the lines before the first one that fails the check or outgrows its length prefix come back, up to the limit, and nothing else does unless that line outgrew its prefix. |
| `LibraryProfile.Profile.Reload` | cuda_client.cpp:5714-5729 | The next run reads back the first 4096 of the lines before the first unreadable one, and exactly those unless that line is of 4 GiB or more. |
| `ExportThunk.EmitMovImm64` | cuda_client.cpp:2893-2906 | Exactly four words of the buffer are written. |
| `ExportThunk.ConstantDecodes` | cuda_client.cpp:2893-2906 | They are a MOVZ and three MOVK of the value's half-words to the register. |
| `ExportThunk.ConstantRuns` | cuda_client.cpp:2888-2906 | Performed on any registers they set the register to the 64-bit value and change nothing else. |
| `ExportThunk.MakeStub` | cuda_client.cpp:2974-3010 | The seventeen words of the stub. |
| `ExportThunk.StubDecodes` | cuda_client.cpp:2974-3010 | They decode to six register moves, the slot, two constants and a branch. |
| `ExportThunk.ShiftRuns` | cuda_client.cpp:2986-2994 | The six moves shift X0 to X5 up to X2 to X7, and none reads a register already overwritten. |
| `ExportThunk.ThunkIsCorrect` | cuda_client.cpp:2974-3010 | For all registers and all 64-bit inputs the stub jumps to the handler with the slot in W0 and the upper half of X0 clear, the table in X1, the caller's X0 to X5 in X2 to X7, and every register but X16 above them, X30 included, unchanged. |

## Left out

- The RPC wrappers, serving of bundles over HTTP, standard output capture, descriptor passing and device ioctls: marshalling and plumbing.
- Real mmap, mprotect, signals and weak memory: protections are values per byte, steps are sequentially consistent, and a mapping is disjoint from others.
- Kernel attribute and occupancy caches, integrity hashes, private export tables and symbol maps: they rest on driver rules and constants outside the repository.
- The lane context cache and the current-context cache: direct-mapped slots that would only add easy members.
- Graph replays, which deliver copies the client never counted, in OwedCopies.
- Several client threads on one managed allocation: the coherence model is sequential; the interleaved model of dirty ranges covers publication, flush and free, not the bytes.
- Failures of mprotect and of the fetch of a fault, an allocation without a writable alias, and captures that are open at a launch, in the coherence model; data_offset is 0 there, as the code leaves it.
- Deferred device-to-host copies that land through the writable alias during a demand fetch.
- Empty ranges and route numbers outside the table, which lupine_queue_dirty_host_range ignores: the interleaved model begins where a range is accepted.
- In DirtyQueue a thread that collects server writes gives the allocation mutex up between two of them; what it does to protections and fresh chunks, and writes that landed through the writable alias, which are not published, are not modelled.
- A second attempt to free an allocation whose first free failed, in DirtyQueue: it stays registered and retiring.
- In DirtyQueue the release of one held range (full_dirty, full_dirty_pending and the reference) is one step, and the ranges of the queue are released before the windows of untracked and portable registrations.
- Overlapping calls of several threads in PrimaryContexts: its retain mutex makes retains, releases and resets one after the other, and ContextStates treats the query that does not take it.
- Transport failures and the flags in PrimaryContexts: with a lost answer the client cannot know the driver's count.
- The number of handles in a batch and the priorities computed from it, in HandlePools: a batch is any list of buckets of its owner.
- Streams other than those a capture was begun on or joined, the dependencies of a capture, and modes of capture, in StreamCaptures.
- The x86-64 stub, instruction cache maintenance and memory protection of the stub.
- The HIP client and server beyond measuring the image.
- HostRanges.SortRanges: the library sort is modelled by insertion, which fixes one of the orders std::sort may choose between equal ranges.
- HostRanges.SendBatch: the transport is a number of messages it accepts before it fails; the bytes on the wire are not modelled.
- ManagedAllocation.Allocation.Launch: a kernel writes its whole result at once; stream order is not modelled.
