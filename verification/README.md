# A verified model of the kernel's hard cores

The repository is a small multi-cpu capability kernel that runs Lua procs, with the arithmetic library and the
browser glue that go with it. This project models the parts of it whose correctness is not visible from any one
function, in Dafny 4.11, and proves what those parts are for:

- **IPC.** Ports, rights and messages as one state with reference counts and byte budgets (`PortRefs`), whole
  histories of it and the order of its queues (`PortRuns`, `PortOrder`), what letting go leaves alone (`PortKeep`), the
  operations on it (`PortCode`), and the wakeup protocol of blocked procs as a machine of single lock regions, claims
  and unlinks run by any number of cpus (`Wake`, `WakeInv`, `WakeTheorems`).
- **Scheduling.** The bucketed run queues and who may have a proc (`RunQueue`, `Sched`, `SchedTurns`, `SchedRuns`),
  the ticket lock (`TicketLock`) and the order in which bucket locks and the scheduler lock are taken (`IpcLock`).
- **Memory.** The headerless allocator behind each Lua state: free lists threaded through free blocks, the bump
  region, the large-block cache and whole-chunk reclaim (`HeapState`, `HeapSteps`, `Totals`, `HeapAccount`,
  `HeapMoves`, `HeapReclaim`, `HeapOutcomes`, `LuaHeap`).
- **Arithmetic.** Montgomery products over any number of limbs, modular exponentiation and double-scalar loops
  (`Limbs`, `Congruence`, `Bits`, `Montgomery`, `ModExp`, `BnMod`, `ScalarMul`), Poly1305 (`PolyArith`,
  `Poly1305`), the field modulo 2^255 - 19 (`Field25519`, `FieldPack`) and reduction modulo the Ed25519 group
  order (`ModL`).
- **Messages.** The wire format, written and read back, and what is made of any bytes at all (`Wire`, `WireProofs`,
  `WireRead`, `WireExact`, `WireCode`).
- **Threads, checks and the shared ring.** Channels between the threads of a proc (`Channel`, `ChannelProofs`,
  `ChannelCode`), the two CRCs (`Gf2`, `CrcDivision`, `Crc16`, `Crc32`, `CrcCode`) and the byte ring of the
  browser build (`Ring`, `RingProofs`, `RingCode`).

`Options` holds the one type they share.

Code that updates things in place is modelled by classes and array methods with loops. Each such method states
outright what it promises of the old and the new state, or of the mathematical value it is meant to have; where the
theorems are about a function of the old state, it is proved equal to that function as well. Code that several cpus, or a page and a worker, run at once is modelled as a
relation between states, one step for each uninterrupted stretch; its theorems hold in every state of every run.

Machine integers are written out: 32-bit limbs and their wrap-around, 64-bit accumulators as bounded types (so that
every assignment proves the absence of overflow), C's truncation and arithmetic shifts, JavaScript's 32-bit words,
and bit-vectors for the CRCs. Masks, shifts and disjoint ors elsewhere are written as the divisions, remainders and
sums they are.

`dafny verify dfyconfig.toml` checks the whole project.

## Model

| member | source | states |
|---|---|---|
| `WakeInv.StepInv` | src/port.c:522-747 | every step of every cpu (bucket region, claim, one unlink, one reap, block, dispatch, push, pop, reference change) keeps the invariant of records, ports, lists, claims and sleepers |
| `WakeTheorems.RunInv` | src/port.c:522-747 | the invariant holds in every state of every interleaving |
| `WakeTheorems.NoLostWakeup` | src/port.c:622-682 | every record a BLOCKED, unclaimed proc has registered is on its port's list and stands for something asked for there that has not happened, once no cpu is working on that port's bucket |
| `WakeTheorems.StillUnmet` | src/sysapi.c:2573-2633 | nothing an unclaimed sleeper asked for has happened yet |
| `WakeTheorems.ReceiverFacesEmptyPort` | src/sysapi.c:357-625 | a BLOCKED, unclaimed proc has receive records only on empty ports, and where it asked to hear of a hangup some holder other than itself remains |
| `WakeTheorems.SenderFacesFullPort` | src/sysapi.c:1414-1476 | it has send records only on live ports, where the queue plus the bytes it asked for passes MAXQUEUE |
| `WakeTheorems.ClaimedByOne` | src/port.c:622-662 | a claimed sleeper is in the hands of exactly one cpu |
| `WakeTheorems.OneWakePerSleep` | src/port.c:636-682 | blocks and wakeups alternate: each sleep is ended by one make_ready and no more |
| `WakeTheorems.ReadiesOnlySleepers` | src/port.c:636-682 | make_ready is only reached for a BLOCKED proc whose claim this cpu won |
| `WakeTheorems.NoUseAfterFree` | src/port.c:593-682 | every record a waking loop has yet to visit exists and is on the loop's port |
| `WakeTheorems.ReapsItsOwn` | src/port.c:593-620 | the record wait_reap holds exists until it frees it and belongs to the proc it reaps |
| `WakeTheorems.LoopsAdvance` | src/port.c:636-682 | a waking loop always has a next access that is safe to make |
| `PortRefs.GoneIsUnheld` | src/port.c:347-381 | counts are exact, so nothing refers to a slot that holds no port |
| `PortRuns.MakeSound` | src/port.c:234-381 | every single update keeps the counts, the byte budgets and the links exact, but for one count owed between striking a reference and counting it off, while which references may still be taken and messages made without a lock |
| `PortRuns.RunSound` | src/port.c:234-472 | they are exact in every state of every history |
| `PortRuns.NameKept` | src/serialize.c:174-195 | over every history a reference in a message is the same until it is released, and names a port of the generation it named when serialized |
| `PortRuns.QueuedKept` | src/port.c:695-809 | none of a message's references changes or goes while it is queued |
| `PortRuns.GenerationNamesOne` | src/port.c:259-280 | a generation is one port's, in one slot, for all time |
| `PortRuns.DeadStays` | src/port.c:347-381 | a dead port stays dead with an empty queue for as long as it exists |
| `PortOrder.InOrder` | src/port.c:695-809 | over every history, until a queue is flushed, what was on it and then queued is what was taken off and then what is left, in that order |
| `PortOrder.LiveInOrder` | src/port.c:695-809 | a port of one generation that lives and is held throughout gives its messages up in the order they were queued, none missing |
| `PortOrder.LeavesOnly` | src/port.c:326-381 | over every history a message leaves a queue only by being taken off its head, by the port dying for want of a receive right, or by the last reference to the port going |
| `PortRefs.RightMayTake` | src/port.c:418-456 | a right in hand may always be copied, whatever count is owed meanwhile |
| `PortRefs.FlightMayTake` | src/serialize.c:407-443 | a right in flight may always be minted, whatever count is owed |
| `PortRefs.AddRightValid` | src/port.c:418-456 | conservation survives a new handle, also between another cpu striking a reference and counting it off |
| `PortRefs.AddFlightValid` | src/serialize.c:174-195 | the same for a reference put into a message |
| `PortRefs.EnqueueValid` | src/port.c:695-747 | conservation of references and of queue bytes survives queueing a message |
| `PortRefs.DequeueValid` | src/port.c:792-809 | both survive taking one off, which then belongs to the caller alone |
| `PortRefs.MintedUndone` | src/serialize.c:278-294 | undoing what was minted gives back exactly the rights there were |
| `PortCode.Ipc.PortUnref` | src/port.c:347-381 | the recursion terminates, keeps every count exact, and is a history of single updates, as is every method below; the port is gone exactly when its last reference went and dead when its last receive right went; every other port still held keeps its queue, unless it lost its last receive right in turn |
| `PortCode.Ipc.PortFlush` | src/port.c:326-344 | only a port without receive rights, or without any, is flushed; its queue ends empty and it dead if it was to die; every other port still held keeps its queue |
| `PortCode.Ipc.MsgFree` | src/port.c:317-324 | the message and all its references are gone, and ports still held keep their queues |
| `PortCode.Ipc.ReleaseRef` | src/port.c:234-256 | one in-flight reference released, receive right first |
| `PortCode.Ipc.PortNew` | src/port.c:259-280 | the first free slot with a generation no port has had; nothing, and nothing changed, exactly without memory or with every slot in use |
| `PortCode.Ipc.RightNew` | src/port.c:401-456 | the first free handle from the hint, and the hint moved past it; none, and nothing changed, exactly when each handle from the hint up is in use or lies in an overflow array there is no memory for; a right hint stays right and makes the handle the first of all |
| `PortCode.DropKeepsHintsIff` | src/port.c:459-472 | dropping a right leaves no free handle below the hint if and only if the handle is not below it |
| `PortCode.Ipc.OpenPort` | src/sysapi.c:1018-1071 | when the port is to be had and the handle is not, the port is left in its slot with nothing holding it |
| `PortCode.Ipc.GrantNamed` | src/port.c:480-506 | a grant that cannot be recorded gives its right back; the hint still bounds the free handles exactly when that did not happen |
| `PortCode.Ipc.RightDrop` | src/port.c:459-472 | exactly that handle is gone; its port is gone or dead exactly as that was the last reference or the last receive right, and ports still held keep their queues |
| `PortCode.Ipc.Close` | src/sysapi.c:700-719 | refused for handle 0 and for handles not in use, else exactly that handle is gone and the hint no higher; ports still held and not dead keep their queues, and no reference in a message changes |
| `PortCode.Ipc.MsgNew` | src/serialize.h:11-26 | a message of the maker's own, with no references |
| `PortCode.Ipc.SerializeRight` | src/serialize.c:174-195 | accepted exactly for a right the sender has, within the limit and with room for its bytes; a refusal changes nothing |
| `PortCode.Ipc.Push` | src/port.c:695-747 | refused exactly by a dead port, one whose bytes would pass MAXQUEUE, or a want of memory, and then nothing changes; otherwise the message is last in the queue, its bytes added, and no other port differs |
| `PortCode.Ipc.Send` | src/sysapi.c:2988-3044 | the same answers and the same queue; a refused message is released and the sender's rights end as they began |
| `PortCode.Ipc.Pop` | src/port.c:792-809 | the oldest message, with its references, the rest in order behind it, or nothing exactly when the queue is empty |
| `PortCode.Ipc.TimerArm` | src/timer.c:157-182 | the timer's own reference is counted |
| `PortCode.Ipc.TimerDrop` | src/timer.c:185-203 | the timer's reference is released and no other, and nothing else is disturbed but what that frees |
| `PortCode.Ipc.ReapDead` | src/timer.c:143-155 | the timers of every port dead at the start are let go, and a timer let go was a dead or vanished port's |
| `PortCode.Ipc.TimerStart` | src/timer.c:157-182 | the first free slot, after reaping if there was none, with its deadline; refused only when every slot is a live port's |
| `PortCode.Ipc.Fire` | src/timer.c:185-203 | one tick is last in the queue, or refused exactly as any message would be, and the timer's reference released; ports still held keep their queues |
| `PortCode.Ipc.ExpireTimers` | src/timer.c:185-203 | no timer goes off early, none that is due is left, each that went off left its tick on its port if that is still held and took it, and one let go before its time was a dead or vanished port's |
| `PortCode.Ipc.Mint` | src/serialize.c:407-443 | a right for each of the first references in order, stopping only where no handle is free or to be had |
| `PortCode.Ipc.MintedUndo` | src/serialize.c:278-294 | every recorded handle is given back, the hint lowered, and nothing else is disturbed but what that frees |
| `PortCode.Ipc.Receive` | src/sysapi.c:2855-2875 | the message arrives with all its rights, or the receiver's rights are as before; it is disposed of either way, no other message or dead port is disturbed, and ports still held keep their queues |
| `HeapState.Safe` | src/luaheap.c:276-414 | outstanding blocks are 8-aligned, mapped, apart from one another and from every listed block |
| `HeapSteps.PushInv` | src/luaheap.c:370-376 | freeing onto a list keeps the heap sound and every other block's bytes |
| `HeapSteps.PopInv` | src/luaheap.c:348-368 | taking the head of a list keeps both, and the head is a free block |
| `HeapSteps.CarveInv` | src/luaheap.c:348-368 | cutting a block from a region keeps both |
| `HeapSteps.UnlinkInv` | src/luaheap.c:437-494 | taking a block out of the middle of a list keeps both |
| `HeapSteps.DropRegionInv` | src/luaheap.c:437-494 | unmapping a region with no blocks keeps both |
| `HeapSteps.CopyInv` | src/luaheap.c:603-685 | copying between two outstanding blocks moves those bytes and changes no other block |
| `HeapSteps.PutInv` | src/luaheap.c:348-414 | the owner of a block may store anywhere in it: the lists still lead where they led and no other block changes |
| `HeapReclaim.TallyDone` | src/luaheap.c:437-462 | summing the class lists gives each chunk's free bytes |
| `HeapReclaim.SweptAll` | src/luaheap.c:463-494 | the chunks kept are exactly those in use and the one being cut |
| `HeapAccount.StatsAddUp` | src/luaheap.c:687-735 | rounding + headers + unused = waste, cached <= unused, and no clamp ever acts |
| `LuaHeap.LuaHeap.constructor` | src/luaheap.c:221-236 | an empty heap that satisfies the invariant |
| `LuaHeap.LuaHeap.ClassIndex` | src/luaheap.c:180-188 | the smallest class that holds n |
| `LuaHeap.LuaHeap.DrainBump` | src/luaheap.c:276-301 | the region is cut up entirely and less than the smallest class is lost |
| `LuaHeap.LuaHeap.NewChunk` | src/luaheap.c:307-346 | success leaves room for the request; failure means the source refused at first, again after the cache was given back and again after the unused chunks were, and nothing is left to give back |
| `LuaHeap.LuaHeap.SmallAlloc` | src/luaheap.c:348-368 | the head of the class's list, or else the bump pointer, without asking for memory; nothing else disturbed; failure only when the source refused at every turn and nothing is left to give back |
| `LuaHeap.LuaHeap.LargeAlloc` | src/luaheap.c:378-414 | a cached block of the bucket first, without asking for memory; failure only when the source refused, and refused again once the cache was given back if there was one, and the cache is then empty |
| `LuaHeap.LuaHeap.SmallFree` | src/luaheap.c:370-376 | exactly that block is taken back, to the front of its list |
| `LuaHeap.LuaHeap.LargeFree` | src/luaheap.c:566-600 | exactly that block is taken back: kept in its bucket while it has room, else its region unmapped |
| `LuaHeap.LuaHeap.Tally` | src/luaheap.c:437-462 | the free bytes of each chunk, found by walking the lists |
| `LuaHeap.LuaHeap.UnlinkList` | src/luaheap.c:463-494 | no block of the chunk is left on the list and no other list changes |
| `LuaHeap.LuaHeap.ReleaseFreeChunks` | src/luaheap.c:437-494 | exactly the chunks with no outstanding block, other than the one being cut, are returned and unmapped, and no list leads into them |
| `LuaHeap.LuaHeap.ReleaseLargeFree` | src/luaheap.c:521-556 | the whole cache is returned and unmapped, and nothing else |
| `LuaHeap.LuaHeap.Realloc` | src/luaheap.c:603-685 | the first min(osize, nsize) bytes survive, every other block keeps all of its bytes, a block that fits stays; failure leaves the old block alone and means what it does for SmallAlloc and LargeAlloc; the peak is the most live at once |
| `LuaHeap.LuaHeap.Store` | src/luaheap.c:603-685 | a client's store into its block keeps the heap sound and every other block's bytes |
| `LuaHeap.LuaHeap.Reclaim` | src/luaheap.c:496-519 | as ReleaseFreeChunks, reporting the bytes returned |
| `LuaHeap.LuaHeap.Release` | src/luaheap.c:558-564 | the cache ends empty and the chunks left are exactly those in use and the one being cut |
| `LuaHeap.LuaHeap.Statistics` | src/luaheap.c:687-735 | live and mapped are the true sums and the parts add up |
| `RunQueue.BucketMonotone` | src/sched.c:178-187 | a higher priority is never in a lower bucket |
| `RunQueue.OneBucket` | src/sched.c:190-220 | a proc is in at most one bucket of one set, the one its priority names |
| `RunQueue.RqAddOk` | src/sched.c:190-200 | adding keeps the buckets, mask and count exact |
| `RunQueue.RqDelOk` | src/sched.c:202-220 | removing keeps them exact |
| `Sched.TakeLemma` | src/sched.c:222-248 | what a take finds is the first of the highest, or lowest, nonempty bucket, READY and in nobody's hands |
| `Sched.MakeReadyInv` | src/sched.c:289-368 | make_ready keeps ownership and exact queues |
| `Sched.BlockInv` | src/sched.c:261-273 | so does blocking |
| `Sched.ReleaseInv` | src/kernel.c:1344-1373 | so does giving a proc back after its turn |
| `Sched.ClaimIdleInv` | src/kernel.c:1478-1522 | so does the idle collector's claim |
| `Sched.SwapInv` | src/kernel.c:1534-1584 | so does swapping the two sets at the end of a lap |
| `Sched.DispatchInv` | src/kernel.c:1376-1463 | a dispatch takes at most its budget and holds a READY, unfrozen proc nobody had, so the two-cpu abort is unreachable |
| `SchedTurns.WithoutIs` | src/sched.c:202-220 | taking a proc out of a bucket closes the gap and moves nothing else |
| `SchedTurns.MakeReadyIs` | src/sched.c:289-368 | a held or broken proc is left as it is; any other is READY at its new price, off the queues if a cpu has it, else last in its new bucket of the set it was on, or of the running set if on none; nobody else is moved |
| `SchedTurns.ReleaseIs` | src/kernel.c:1344-1373 | a READY proc given back is last in its bucket for the next lap, any other is on no queue; nobody else is moved |
| `SchedTurns.DispatchOrder` | src/kernel.c:1376-1463 | a dispatch holds the first unfrozen proc in the order asked for; those before it, all frozen, are at the back of their buckets in the next lap; it holds none only when the budget is spent or the lap has nothing left |
| `SchedTurns.SwapTurns` | src/kernel.c:1534-1584 | a lap with anything left goes on; after the swap the running set is empty only if nothing at all is queued |
| `SchedRuns.GuardsHold` | src/sched.c:289-368 | what the regions take for granted of a state, beyond their own tests, always holds, so no run is left out |
| `SchedRuns.StepInv` | src/kernel.c:1343-1584 | every region under schedlock keeps the invariant |
| `SchedRuns.RunInv` | src/kernel.c:1343-1584 | it holds after every interleaving of regions |
| `SchedRuns.OneOwner` | src/sched.c:190-248 | in every reachable state a proc has at most one owner, a held proc is on no queue, and a READY proc is queued or held |
| `SchedRuns.StatusStep` | src/sched.c:261-368 | only waking a proc, or the cpu that has it blocking or ending it, changes whether it is runnable |
| `SchedRuns.WakeKept` | src/sched.c:289-368 | over every run a proc made READY is READY, and queued or in a cpu's hands, until the cpu running it blocks or ends it |
| `SchedRuns.FrozenStays` | src/sched.c:51-73 | no region dispatches or claims a frozen proc that nobody had |
| `SchedRuns.FrozenRuns` | src/sched.c:51-83 | once proc_freeze reports not running, no cpu has the proc until the matching thaw, over every run |
| `SchedRuns.Scheduler.constructor` | src/sched.c:161-176 | empty queues |
| `SchedRuns.Scheduler.Ready` | src/sched.c:289-368 | as MakeReadyIs says, and the invariant is kept |
| `SchedRuns.Scheduler.Take` | src/sched.c:222-248 | the first of the highest, or lowest, nonempty bucket, taken out of it and nobody else moved; nothing exactly when the running set is empty |
| `SchedRuns.Scheduler.Next` | src/kernel.c:1376-1463 | as DispatchOrder says, taking exactly as many as it counts |
| `SchedRuns.Scheduler.ProcFreeze` | src/sched.c:51-61 | one freeze more, and answers whether some cpu has the proc |
| `SchedRuns.Scheduler.ProcThaw` | src/sched.c:62-69 | one freeze fewer, never thawing what is not frozen |
| `SchedRuns.Scheduler.HeapClaim` | src/proc.c:2032-2083 | exactly a parked, unfrozen proc nobody has is claimed; a proc is used exactly while this cpu holds it unfrozen |
| `SchedRuns.Scheduler.LetGo` | src/kernel.c:1344-1373 | as ReleaseIs says |
| `TicketLock.StepInv` | src/lock.h:110-159 | every atomic operation keeps tickets owner up to next outstanding, one cpu each |
| `TicketLock.Outstanding` | src/lock.h:110-141 | a cpu has one ticket at most, so fewer than 2^32 are ever outstanding and the words tell them apart |
| `TicketLock.Exclusion` | src/lock.h:110-141 | mutual exclusion over every run |
| `TicketLock.ArrivalOrder` | src/lock.h:110-141 | service is in arrival order and the next to be served is always there |
| `TicketLock.CasExact` | src/lock.h:148-159 | canlock succeeds only when nobody holds or waits |
| `TicketLock.CasSafeIff` | src/lock.h:148-159 | the exchange keeps the order if and only if the tickets given out since the load are not a whole number of turns of the counter, or the lock is free |
| `TicketLock.WindowMatters` | src/lock.h:148-159 | a run in which 2^32 tickets are given out between the load and the exchange ends with two cpus holding the lock |
| `IpcLock.StepInv` | src/port.c:171-225 | one bucket, all buckets ascending, recursion and the scheduler lock keep owners and depths exact |
| `IpcLock.NeverAllWaiting` | src/port.c:171-225 | if every cpu waits, some wanted lock is free |
| `IpcLock.ChainEnds` | src/port.c:171-225 | from any cpu the chain of who waits for whom, cpu by cpu, ends at one not waiting or at a free lock |
| `IpcLock.NoDeadlock` | src/port.c:171-225 | the cpus are never all waiting for one another, over every run |
| `IpcLock.NoCycle` | src/port.c:171-225 | no cpus wait for one another in a ring, however many others run, over every run |
| `IpcLock.OneInside` | src/port.c:171-197 | two cpus are never inside one bucket, and its depth is the owner's |
| `IpcLock.AllAlone` | src/port.c:214-225 | a cpu inside all buckets is inside each and alone there |
| `WireProofs.EncIff` | src/serialize.c:114-274 | serialize succeeds exactly when depth, rights, buffers and size permit, and then appends the value's encoding |
| `WireCode.Accepts` | src/serialize.c:114-274 | the values accepted from scratch, as an if-and-only-if |
| `WireRead.DecEnc` | src/serialize.c:297-447 | reading where a value was written yields it, uses exactly its bytes and mints its rights in order |
| `WireRead.KeysMeet` | src/serialize.c:297-447 | two keys of a table arrive as one exactly when they are a string or bare buffer of the same bytes |
| `WireCode.RoundTrip` | src/serialize.c:114-447 | a message serialize accepted is read back whole, with the refs listing exactly its rights in order and every buffer claimed |
| `WireExact.ReadExact` | src/serialize.c:297-447 | on any bytes the reader accepts exactly those that spell something legal (depth, counts, each buffer there and named once, each right to a port that exists with a handle for it), and yields what they spell |
| `WireExact.BadStays` | src/serialize.c:297-447 | bytes refused as bad are bad whatever room there is, and bytes accepted are accepted the same with more |
| `WireExact.NeverShort` | src/serialize.c:297-447 | with room for every buffer and for MAXMSGRIGHTS rights, room is never the reason given |
| `WireRead.Dec` | src/serialize.c:297-447 | on any bytes at all the reader stays inside the message and only moves forward |
| `WireCode.EncGrows` | src/serialize.c:114-274 | a message, refused or not, was only ever appended to: bytes, references and buffers |
| `WireCode.Writer.Grow` | src/serialize.c:23-51 | the buffer holds the request, within the limit, its contents kept; without memory nothing changes |
| `WireCode.Writer.PutBytes` | src/serialize.c:23-51 | refused exactly past the largest message or for want of memory, and then nothing changes |
| `WireCode.Writer.Serialize` | src/serialize.c:114-274 | the recursive writer is the function the theorems speak of; running out of memory it fails with all written before in place |
| `WireCode.Read` | src/serialize.c:297-447 | accepts exactly what is spelled legally and yields what it means, for any bytes |
| `Montgomery.Mul32` | src/native.c:1829-1852 | the exact 64-bit product out of wrapping 16-bit halves |
| `Montgomery.AddC` | src/native.c:1855-1863 | the carry is not lost |
| `Montgomery.Sub` | src/native.c:1866-1887 | difference and borrow, with any aliasing |
| `Montgomery.Add` | src/native.c:1889-1906 | sum and carry, with any aliasing |
| `Montgomery.AccumulateRow` | src/native.c:1970-2032 | adds one row of the product exactly |
| `Montgomery.ReduceRow` | src/native.c:1970-2032 | adds the multiple of the modulus that makes the shift exact |
| `Montgomery.MontRows` | src/native.c:1970-2032 | the running total stays below twice the modulus at every outer step |
| `Montgomery.MontMul` | src/native.c:1970-2032 | for every limb count the result is below M and, times 2^(32k), congruent to A * B; the result may alias an operand |
| `ModExp.InvLimb` | src/native.c:2122-2131 | the inverse of an odd limb modulo 2^32 |
| `ModExp.ModAdd` | src/native.c:2134-2150 | the sum of residues modulo M |
| `ModExp.ModSub` | src/native.c:2152-2167 | the difference of residues modulo M |
| `ModExp.Unpack` | src/native.c:1791-1806 | big-endian bytes to limbs, the same number |
| `ModExp.Pack` | src/native.c:1807-1821 | limbs to big-endian bytes, the same number |
| `BnMod.BnMod.constructor` | src/native.c:2169-2198 | R^2 built by doubling, and -1/M[0] |
| `BnMod.DoublingsReachSquare` | src/native.c:2185-2198 | that many doublings of 1 reach R^2 |
| `BnMod.BnMod.Mul` | src/native.c:2200-2207 | the product in Montgomery form |
| `BnMod.BnMod.Enter` | src/native.c:2209-2213 | into Montgomery form |
| `BnMod.BnMod.Leave` | src/native.c:2215-2225 | out of it, reduced |
| `BnMod.BnMod.Exp` | src/native.c:2231-2262 | a to the e in Montgomery form, for every byte string e |
| `BnMod.BnMod.EnterExpLeave` | src/native.c:2209-2262 | entering, exponentiating and leaving is a^e mod m |
| `ScalarMul.EcMul` | src/native.c:2603-2632 | k * Q in any commutative group |
| `ScalarMul.EcDoubleScalarMul` | src/native.c:2560-2597 | u1 * P + u2 * Q in one pass, in any commutative group |
| `Poly1305.Poly1305.constructor` | src/native.c:158-179 | the clamped key in 26-bit limbs, and the pad |
| `Poly1305.Poly1305.Block` | src/native.c:190-232 | one step of the polynomial; no column overflows and the limbs are settled again |
| `Poly1305.Poly1305.Update` | src/native.c:234-272 | any piece of any length is absorbed in order |
| `Poly1305.Poly1305.Finish` | src/native.c:274-341 | the tag of section 2.5 of RFC 8439 of the whole message, however it was split; the state is wiped |
| `ModL.Row` | src/native.c:1592-1601 | one multiple of the order taken off, within 64 bits |
| `ModL.Estimate` | src/native.c:1602-1607 | what the quotient estimate leaves lies above -2^248 and below 2^252, so one correction settles it |
| `ModL.ModL` | src/native.c:1585-1614 | the 32 bytes are the input's residue in 0..L-1, for L the order in section 5.1 of RFC 8032 |
| `Field25519.FCarry` | src/native.c:1135-1163 | twelve carries leave every limb tight and the value the same modulo p |
| `Field25519.FM` | src/native.c:1175-1209 | the product modulo p for loose limbs, nothing overflowing, tight again; the result may alias |
| `Field25519.FS` | src/native.c:1217-1238 | the square modulo p |
| `Field25519.SumLoose` | src/native.c:1045-1050 | sums and differences of results may be multiplied again |
| `FieldPack.Multiple` | src/native.c:1272-1275 | the carry chain that only asks decides the sign |
| `FieldPack.Pack` | src/native.c:1261-1300 | the canonical residue in 0..p-1 of every element |
| `FieldPack.Unpack` | src/native.c:1303-1329 | the low 255 bits, as tight limbs |
| `FieldPack.Reencode` | src/native.c:1261-1329 | packing what was unpacked reduces the low 255 bits modulo p |
| `ChannelProofs.StepInv` | src/thread.c:1187-1507 | every operation, every turn of the run loop and any stray wake keeps order, capacity, queues and park tokens consistent |
| `ChannelProofs.RunInv` | src/thread.c:1187-1507 | for any capacity, any threads and any interleaving |
| `ChannelProofs.FirstInFirstOut` | src/thread.c:1204-1313 | values received are those accepted, once each and in order, and a drained channel has delivered all of them |
| `ChannelProofs.RunHistory` | src/thread.c:1204-1353 | nothing received is taken back, and a close fixes what was accepted |
| `ChannelProofs.CloseInv` | src/thread.c:1320-1353 | a close drops only values whose senders are still queued; what was received, buffered or deposited stays accepted |
| `ChannelProofs.WaitersFaceNothing` | src/thread.c:1188-1201 | a nonempty recvq means buf and sendq are empty and the channel open |
| `ChannelProofs.ReceiverSleepsForCause` | src/thread.c:1437-1507 | a thread asleep in recv faces an open, empty channel and is on its queue |
| `ChannelProofs.SenderSleepsForCause` | src/thread.c:1359-1418 | a thread asleep in send faces a full, open channel nobody receives on, its value still offered |
| `ChannelProofs.WakeBeforePark` | src/thread.c:526-642 | a wake between registering and parking is not slept through |
| `ChannelProofs.ReadiedRuns` | src/thread.c:214-233 | a readied thread is staged or in the ring |
| `ChannelProofs.RingAdvances` | src/thread.c:179-212 | nothing overtakes a thread in the ring: each turn brings it nearer or runs it, and staging loses nobody |
| `ChannelCode.ThreadChannel.ReadyThread` | src/thread.c:220-233 | off the parked set, or a token for a thread not parked yet |
| `ChannelCode.ThreadChannel.WakeAll` | src/thread.c:1188-1201 | every receiver off the queue and readied |
| `ChannelCode.ThreadChannel.NbSend` | src/thread.c:1204-1249 | raises exactly once closed; accepts exactly with room in the buffer, or unbuffered with a receiver waiting; accepted, the value is last in the buffer, or last on the queue as an offer nobody is parked on, and every receiver is readied; else nothing changes |
| `ChannelCode.ThreadChannel.NbRecv` | src/thread.c:1257-1312 | the oldest value, the rest in the order they had, the first waiting sender served; closed only when every one was received |
| `ChannelCode.ThreadChannel.Close` | src/thread.c:1320-1353 | idempotent; of the queue only a deposit at its head stays; every sender and receiver is readied |
| `ChannelCode.ThreadChannel.Send` | src/thread.c:1359-1392 | accepts and raises as NbSend does; refused, the offer is last on the queue with its sender and every receiver is readied |
| `ChannelCode.ThreadChannel.Recv` | src/thread.c:1437-1472 | a value, word of the close, or last on the queue, in one step |
| `ChannelCode.ThreadChannel.ParkBegin` | src/thread.c:526-642 | yields and is parked exactly when there is no token, else the token is consumed |
| `ChannelCode.ThreadChannel.RecvResume` | src/thread.c:1476-1507 | the waiter is unlinked wherever it stands, the others keeping their order |
| `ChannelCode.ThreadChannel.SendResume` | src/thread.c:1396-1418 | returns exactly when the value was taken, raises exactly when a close dropped it |
| `ChannelCode.ThreadChannel.DrainWake` | src/thread.c:904-920 | everything staged goes into the ring once |
| `ChannelCode.ThreadChannel.NextTurn` | src/thread.c:194-212 | the first in the ring runs, parked or not |
| `CrcDivision.TableStep` | src/crc.c:44-85 | for any generator and width, feeding k bits is a shift and a lookup on the top k bits |
| `CrcDivision.FeedLinear` | src/crc.c:72-106 | division is linear in register and message |
| `CrcDivision.BurstDetected` | src/crc.c:72-106 | messages alike outside a run of bits no longer than the register collide if and only if they are equal |
| `CrcDivision.FeedIsRemainder` | src/crc.c:72-106 | the register is the remainder of seed and message by the generator, and no other register is |
| `Gf2.RemainderUnique` | src/crc.c:72-106 | remainders modulo a polynomial over two elements are unique |
| `Crc16.SumDivides` | src/crc.c:72-88 | the table-driven sum is division by x^16 + x^12 + x^5 + 1, high bit first |
| `Crc16.SumIsRemainder` | src/crc.c:72-88 | it is that remainder, and nothing else is |
| `Crc16.SumAppend` | src/crc.c:72-88 | sums compose over concatenation |
| `Crc16.SumLinear` | src/crc.c:72-88 | sums are linear |
| `Crc16.TwoBytesDetected` | src/crc.c:72-88 | messages differing only within two adjacent bytes never collide |
| `Crc16.FrameChecks` | lib/zmodem.lua:627-641 | a frame runs to zero exactly when its tail is its own sum |
| `Crc32.SumDivides` | src/crc.c:92-106 | the table-driven sum is the reflected division, low bit first |
| `Crc32.SumIsRemainder` | src/crc.c:92-106 | it is that remainder, and nothing else is |
| `Crc32.SumAppend` | src/crc.c:92-106 | sums compose over concatenation |
| `Crc32.SumLinear` | src/crc.c:92-106 | sums are linear |
| `Crc32.FourBytesDetected` | src/crc.c:92-106 | messages differing only within four adjacent bytes never collide |
| `Crc32.FrameChecks` | lib/zmodem.lua:627-641 | a frame runs to 0xdebb20e3 exactly when its tail is its own sum, complemented, low byte first |
| `CrcCode.Tables.constructor` | src/crc.c:44-64 | both tables, built bit by bit in machine words |
| `CrcCode.Tables.Sum16` | src/crc.c:72-88 | the loop computes the sum, of the low sixteen bits of any seed |
| `CrcCode.Tables.Sum32` | src/crc.c:92-106 | the loop computes the sum, of the low thirty-two bits of any seed |
| `RingProofs.GetPut` | machine/wasm/ring.js:27-32 | any number comes back as its signed 32-bit word |
| `RingProofs.StepInv` | machine/wasm/ring.js:18-74 | each load, store and byte of either side keeps the ring consistent while fewer than 2^31 bytes have been accepted |
| `RingProofs.RunInv` | machine/wasm/ring.js:18-74 | over every interleaving of the two sides that has accepted fewer than 2^31 bytes |
| `RingProofs.ReceivedPrefix` | machine/wasm/ring.js:18-74 | records received are the first of those accepted, each as written |
| `RingProofs.NeverTorn` | machine/wasm/ring.js:47-74 | bytes read are always the beginning of the next record accepted |
| `RingProofs.StoreIsFree` | machine/wasm/ring.js:27-43 | no store falls on a byte not yet given back |
| `RingProofs.EmptyExactly` | machine/wasm/ring.js:47-54 | a read finds nothing exactly when everything was received |
| `RingProofs.RefusedWhole` | machine/wasm/ring.js:19-26 | a refused write changes nothing and was refused for want of room |
| `RingProofs.WordsExact` | machine/wasm/ring.js:19-26 | the stored positions are as far apart as the true ones if and only if they wrapped equally often |
| `RingProofs.TestRightIff` | machine/wasm/ring.js:19-54 | from a ring in order, a record published leaves the test for an empty ring right if and only if fewer than 2^31 bytes have been accepted |
| `RingProofs.PastTheLimit` | machine/wasm/ring.js:19-26 | for every size: once the writer's position has passed 2^31 and the reader's has not, the reader sees nothing and no record is refused |
| `RingProofs.LimitReached` | machine/wasm/ring.js:18-74 | every ring that can hold a header has a run that gets there: a record is accepted and the reader finds the ring empty |
| `RingCode.SharedRing.Write` | machine/wasm/ring.js:18-45 | appends the record whole, exactly when it fits, else leaves every byte alone |
| `RingCode.SharedRing.Read` | machine/wasm/ring.js:47-74 | the oldest record not yet read, or none exactly when there is none |

## Left out

- The wakeup protocol, the locks and the two sides of the ring are steps between values rather than classes, because what is proved is about their interleaving; pointers between waiter records are indices.
- Killing, breaking and reaping procs, the debugger's stops, and the reuse of a dead proc's slot take no part in the wakeup and scheduling steps.
- PortCode.Ipc.PortUnref: assumes nothing about the pointer an outer call keeps after its own flush; conservation is stated over the tables and queues.
- PortCode.Ipc.ExpireTimers: the clock is a parameter, and sys.timer, which opens a port and starts its timer, is left as those two.
- PortCode.Ipc.OpenPort: whether the proc is over its port limit is a parameter, as is whether there is memory, here and wherever an allocation may fail.
- PortCode.Ipc.Push: the cost of a message, its bytes and those of its buffers, is a parameter; the serializer's model gives the bytes.
- SchedRuns.Scheduler.Ready: the new priority is a parameter; the decay arithmetic of updatecpu and reprioritize is not modelled.
- Run-queue masks are sets of bit positions, and fairness across laps is not claimed, because mid-lap wakeups join the running lap.
- TicketLock.StepInv: there are fewer than 2^32 cpus, and fewer than 2^32 tickets are given out between canlock's load and its exchange; `held` and the counters are left out.
- IpcLock.StepInv: a cpu takes all buckets one by one, in ascending order, as separate steps; spinning is waiting.
- LuaHeap.LuaHeap.NewChunk: the chunk source is a list of offered addresses; chunk and large-block headers are records beside the memory, not bytes in it.
- luaheap_destroy, and the lock around each call.
- WireCode.Writer.Grow: how often memory is to be had is a number given at the start; the size hint is not modelled, and the host is little-endian.
- Lua values are a datatype and a table is the assignments made to it, in order: metatables, string coercions and the error Lua raises for a nil key are not modelled, and keys that meet are listed twice (WireRead.KeysMeet says when).
- BnMod.BnMod.constructor: the modulus is odd and above one, as every caller's is.
- ScalarMul.EcMul: the group is abstract; curve formulas, the Montgomery ladder, hashes, AES and signatures are not modelled.
- FieldPack.Unpack: stated modulo p, with tight limbs, as no caller compares limbs.
- ChannelProofs.StepInv: values are numbers, none nil; threads do not exit; alt's registration on several channels, and threads waiting on ports, appear only as stray wakes.
- Values in a channel are unbounded numbers standing for Lua values, and an offer's `done` flag is a set of offers.
- CRC seeds and messages are machine words; unzdle is left out.
- RingProofs.StepInv: stores and reads that begin at a wrapped, negative position are not modelled; memory is sequentially consistent, and the header words are kept apart from the data bytes.
- Device pumps, boot, consoles, the file system, the Lua interpreter and its collector, statistics and tracing: input and output, or easy.
