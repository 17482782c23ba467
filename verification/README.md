# Verified models of veSAL

Dafny models of the four parts of veSAL whose correctness is not obvious from reading them, with proofs that they
do what the library needs of them.  `dafny verify dfyconfig.toml` checks everything.

**CRC32C combination** (`Gf2Register`, `Gf2Polynomial`, `Crc32cTable`, `CrcMultiply`, `CrcCombine`, `CrcStream`,
`CrcClmul`).  Registers are 32-bit vectors.  They are shown to be the remainders modulo the generator 0x11EDC6F41 (section
12.1 of RFC 3720), with bit 31 as the constant term, so that the bit loop of `crc32Mult` is multiplication in
GF(2)[x]/P.  Every one of the 324 entries of the power table is proved from the row recurrence, and one of them says
x^(2^31) = x, which is what the folds modulo 2^31 - 1 rest on.  Hence the combination of checksums is the checksum of the
concatenation.  The carry-less-multiply path keeps an unreduced accumulator of 64 and then 96 bits; registers of the SIMD
unit are lists of bits, and the path is proved to give the same results as the plain one for every register and length.

**Memory pool** (`BlockLayout`, `ChunkMemory`, `CacheView`, `ChunkPools`, `Allocation`, `CacheProtocol`, `MpscQueue`,
`Preallocation`, `ObjectPool`).  The allocator is modelled twice.  `ChunkPools` has the pool and a thread's cache as objects:
chunk and block headers lie in memory by address, and the intrusive lists, counters and free lists are updated in place,
as the code does.  `CacheView` holds the invariant, on values: the ghost sequences behind the pointers, the place of
every chunk, and which blocks are free or out.  `Allocation` puts the whole together: hugepages that are registered for
address translation and split into chunks, all caches at once, and what a user may rely on for an allocated buffer.
Threads come and go there: a cache is made, attached, left by its thread, adopted, or given up with its chunks.
`CacheProtocol` has the threads, in any interleaving, over the whole life of a cache from creation or adoption to being
orphaned or destroyed; of `Push` its three accesses to the queue of another thread are three steps.  The two models meet in
the test `Recyclable()`: the first proves that equal counters mean that no block is out, the second uses it so.  `MpscQueue`
is the queue of deferred frees, one atomic access per step, with addresses that may be reused at once.

**Address translation** (`AddressTranslation`).  A global table of pages, a table per thread in front of it, and the
loop that splits a buffer at page boundaries while other threads register pages, against pointwise translation by whatever
page covers an address.

**Asynchronous requests** (`RingQueue`, `TimerManager`, `CypherChannel`, `DataFlow`).  The ring of results and the timer
list are objects of their own.  Each channel is a state machine over its steps, with the invariant and the theorems about
whole runs, and beside it the channel object, built on the ring and the timer list, whose methods are proved to take exactly
those steps.  The hardware and the engine are environments with steps of their own: they complete what they were given in any
order and arbitrarily late, and the channels see of it only the callback context or the completion record.

`Common` holds what several modules share.

Logs (such as the order of exchanges on the queue, or the results handed out) appear in the states as fields; they record
and never steer.  Where a function of the source reads a clock, an allocator, the kernel's page map or an engine's answer,
the model takes the answer as a parameter.

## Where code and comments disagree

- `src/common/object_pool.h:248-250` speaks of a 24-byte chunk header and objects up to 64K; the code has a 16-byte header
  and chunks of at most 32K, and the model follows the code.
- `src/common/memory_pool_helper.h:176-179` speaks of three page sizes in the lookup order; the code has four.
- `src/common/checksum_impl.h:42-51` calls the combination associative.  It is, with the sizes added as numbers; added in 64
  bits it is associative exactly when the sum of the sizes does not wrap (`CrcStream.CombinedAssociatesIff`).
- `src/cypher/qat_cypher_channel.cc:578-595` assumes that a slot found valid belongs to the completed request.  After a
  submission that the driver accepts this holds if and only if no request still in the hardware shares the slot of the new
  one (`CypherChannel.AttributedIff`); nothing in the code ensures it.  `CypherChannel.CollisionIsReachable` is a run in
  which the late completion of a timed-out request becomes the result of another one.  If the earlier request had not timed
  out, it never gets a result and no later result is handed out any more (`CypherChannel.LostForever`).
- `src/cypher/qat_cypher_channel.cc:482-486` undoes a submission that the driver refuses by resetting the callback context of
  the slot.  That is harmless if and only if no request that is in the hardware and has not timed out shares the slot
  (`CypherChannel.RefuseKeepsIff`, `CypherChannel.AttributedIff`); otherwise the check at line 608 fails when that request
  completes (`CypherChannel.RefusalIsReachable`).
- `src/common/chunk_pool.h:261` destroys a cache, and with it its queue, once no block of it is out.  A thread that has
  linked its node but not yet counted it (`src/common/mpsc_queue.h:82`) may still be about to access that queue.  In a run
  every access of every freeing thread finds what it is made to if and only if no cache is destroyed while a thread is about
  to count on its queue (`CacheProtocol.SafeRunIff`); `CacheProtocol.CountCanBeLate` is a run in which one is.  The thread that
  destroys the cache could tell: somebody is about to count if and only if the queue's own `size_` is not 0
  (`CacheProtocol.EarlyIffUncounted`).
- `src/common/chunk_pool.h:146-151` means to compare the sum of the shares with the total.  It adds them up in an `int` that is
  then extended to 64 bits, and does what it means if and only if they add up to less than 2^31 MB or to one of the last 2^31
  numbers below 2^64 (`Preallocation.ValidationIff`).
- `src/data_flow/data_flow_channel_impl.cc:250-258` removes the timer of every queued request whose record it finds, also of one
  that has expired, whose timer `HandleTimeout` has already released.  Every timer it removes is in the list if and only if no
  queued request with a record has expired (`DataFlow.DiscardIff`) and, whatever the engine completes while it runs, if and only
  if no queued request has expired at all (`DataFlow.DiscardAlwaysIff`).  `DataFlow.StaleTimerIsReachable` is a run in which one
  has.

## Model

| member | source | states |
|---|---|---|
| Gf2Polynomial.ReduceIsRemainder | src/common/checksum_impl.h:35 | 32 coefficients are the remainder of a polynomial on division by the generator if and only if they are the bits of its register |
| Gf2Polynomial.MultIsModular | src/common/checksum_impl.cc:229-249 | the product of registers is the product of their polynomials modulo the generator |
| Gf2Register.MultCommutes | src/common/checksum_impl.cc:229-249 | multiplication is commutative |
| Gf2Register.MultAssoc | src/common/checksum_impl.cc:229-249 | multiplication is associative |
| Gf2Register.MultAdd | src/common/checksum_impl.cc:229-249 | multiplication distributes over xor on both sides |
| CrcMultiply.Crc32Mult | src/common/checksum_impl.cc:229-249 | the bit loop ends for every nonzero first argument and yields the product |
| Crc32cTable.TableIsPowerTable | src/common/checksum_impl.cc:84-125 | entry 64i + n is x^(8 n 64^i), for all 324 entries |
| CrcCombine.XPowOrder | src/common/checksum_impl.cc:133-138 | x^(2^31 - 1) = 1 |
| CrcCombine.XPowPeriod | src/common/checksum_impl.cc:133-138 | powers of x repeat every 2^31 - 1 |
| CrcCombine.FoldPreserves | src/common/checksum_impl.cc:133-138 | folding a length modulo 2^31 - 1 keeps its power of x |
| CrcCombine.FoldBounds | src/common/checksum_impl.cc:133-138 | two folds bring every 64-bit length below 2^31 + 3, and keep it from becoming 0 |
| CrcCombine.DigitInTable | src/common/checksum_impl.cc:142-149 | a digit of a folded length is read from the populated part of the table and is the power it stands for |
| CrcCombine.CombineGen | src/common/checksum_impl.cc:129-151 | x^(8 len) for every 64-bit len |
| CrcStream.ComputeCrc32 | src/common/checksum_impl.cc:34-63 | words of 8 bytes and then the tail give the checksum of the whole buffer: less the initial register advanced past it, the remainder of the buffer times x^32, bytes in memory order and the least significant bit of each first |
| CrcStream.CrcConcat | src/common/checksum_impl.cc:34-63 | the checksum of a concatenation continues from that of the first part, wherever it is split |
| CrcStream.CrcIsRemainder | src/common/checksum_impl.cc:34-63 | the checksum from 0 is the remainder of the message times x^32 |
| CrcStream.ChecksumIff | src/common/checksum_impl.cc:34-63 | a register is the checksum of a buffer, as the instructions consume it, if and only if it is that remainder plus the advanced initial register |
| CrcStream.CombineOp | src/common/checksum_impl.cc:153-155 | advances the first checksum by the given power and adds the second |
| CrcStream.Combine | src/common/checksum_impl.cc:311-320 | the combination for every 64-bit size; the multiplication is always called with a nonzero first argument |
| CrcStream.CombinedIsCrc | src/common/checksum_impl.h:42-51 | combining the checksums of two buffers gives that of their concatenation, for any initial register |
| CrcStream.CombinedAssociates | src/common/checksum_impl.h:42-51 | combination is associative with sizes adding |
| CrcStream.CombinedAssociatesIff | src/common/checksum_impl.h:42-51 | with sizes added in 64 bits it is associative for all checksums if and only if the sum does not wrap |
| CrcStream.CombineThree | src/common/checksum_impl.h:53-60 | the nested combination of three checksums |
| CrcStream.CombinedThreeIsCrc | src/common/checksum_impl.h:53-60 | three checksums from the same initial register combine to that of the three buffers in a row |
| CrcClmul.MultPclmul | src/common/checksum_impl.cc:166-174 | the carry-less multiplication and its reduction give the product of the bit loop, for all registers |
| CrcClmul.NarrowStepFacts | src/common/checksum_impl.cc:195-200 | one of the first two digits: the accumulator grows by 32 bits, stays unreduced and stands for the product |
| CrcClmul.WideStepFacts | src/common/checksum_impl.cc:201-206 | a further digit: the two lanes together multiply by the digit's power and leave 96 bits |
| CrcClmul.FinishNarrow | src/common/checksum_impl.cc:210-214 | the final reduction of 64 bits |
| CrcClmul.FinishWide | src/common/checksum_impl.cc:215-219 | the final reduction of 96 bits |
| CrcClmul.FastForward | src/common/checksum_impl.cc:175-220 | for every register and 64-bit length, the register times x^(8 len) |
| CrcClmul.CombinePclmul | src/common/checksum_impl.cc:311-320 | the fast combination equals the plain one |
| MpscQueue.StepKeepsInv | src/common/mpsc_queue.h:68-140 | every atomic step of producers and consumer keeps the queue's invariant |
| MpscQueue.FirstInFirstOut | src/common/mpsc_queue.h:68-130 | in every interleaving what was popped is a prefix of what was exchanged, and the rest is in the linked nodes in order |
| MpscQueue.PopsWhatWasPushed | src/common/mpsc_queue.h:68-130 | in every run, read off its events: the k-th `Pop` that returns an element returns the one given to the `Push` which made the k-th exchange |
| MpscQueue.EmptyIsExact | src/common/mpsc_queue.h:101-107 | `Empty` answers true, and `Pop` gives up, if and only if all exchanged elements have been popped |
| MpscQueue.PopAfterEmpty | src/common/chunk_pool.cc:454-456 | a `Pop` begun after `Empty` returned false returns an element, the oldest one, whatever producers do meanwhile |
| MpscQueue.DeleteIsSafe | src/common/mpsc_queue.h:68-128 | a node is deleted only when it is not head or tail and no producer owes it a link or holds it; no access is to a deleted node |
| MpscQueue.NeverStuck | src/common/mpsc_queue.h:68-130 | the next access of every thread can be made |
| MpscQueue.SpinEnds | src/common/mpsc_queue.h:112-114 | while the consumer spins, some producer owes exactly the link it waits for |
| MpscQueue.AtRest | src/common/mpsc_queue.h:68-134 | with all threads outside, the nodes are the stub and one per element, fully linked, and the size is the number of elements modulo 2^64 |
| BlockLayout.ClassSizes | src/common/chunk_pool.h:39-49 | each of the ten block sizes gives at least three blocks in a chunk |
| BlockLayout.BlocksApart | src/common/chunk_pool.cc:416-430 | headers and payloads of the blocks of a chunk do not overlap and end within the chunk |
| BlockLayout.BlocksFill | src/common/chunk_pool.cc:416-430 | no further block would fit into a chunk |
| BlockLayout.BlocksDisjoint | src/common/chunk_pool.cc:245-257 | chunks a chunk apart have no block address in common |
| BlockLayout.BlocksMiss | src/common/chunk_pool.cc:416-430 | header and payload of two different blocks do not overlap, in one chunk or in two |
| BlockLayout.BlockIndexIsBestFit | src/common/chunk_pool.cc:442-450 | the bit trick picks the smallest block size that holds the request |
| ChunkPools.Pool.constructor | src/common/chunk_pool.h:137-153 | an empty pool satisfies the invariant |
| ChunkMemory.PushChain | src/common/chunk_pool.cc:538-545 | insertion at the front of a doubly linked list, touching no other chunk |
| ChunkMemory.UnlinkChain | src/common/chunk_pool.cc:550-557 | removal from anywhere in a doubly linked list |
| ChunkMemory.JoinChain | src/common/chunk_pool.cc:300-307 | joining two lists |
| ChunkMemory.CutChain | src/common/chunk_pool.cc:270-278 | cutting off the first n chunks |
| ChunkMemory.AllFree | src/common/chunk_pool.cc:547 | a chunk's count equals its total exactly when every block is in its free list |
| CacheView.PromoteKeeps | src/common/chunk_pool.cc:487-495 | moving the first recyclable chunk keeps all invariants but its place |
| CacheView.TookKeeps | src/common/chunk_pool.cc:498-508 | taking a block keeps lists, places, free lists and counters, and the block was not out |
| CacheView.PutKeeps | src/common/chunk_pool.cc:531-566 | returning a block keeps them, whichever list the chunk moves to |
| CacheView.FetchedKeeps | src/common/chunk_pool.cc:473-485 | so does adding freshly carved chunks |
| CacheView.DroppedKeeps | src/common/chunk_pool.cc:573-580 | so does giving back the recyclable chunks of a class |
| ChunkPools.Pool.SplitRegion | src/common/chunk_pool.cc:244-257 | a region becomes a well-formed central list of exactly its chunks |
| ChunkPools.Pool.GetChunks | src/common/chunk_pool.cc:264-285 | the first n chunks as a list of their own, or null and no change when there are fewer |
| ChunkPools.Pool.PutChunks | src/common/chunk_pool.cc:287-311 | the given list in front of the central one |
| ChunkPools.TlsCache.constructor | src/common/chunk_pool.cc:381-388 | an empty cache satisfies the invariant |
| ChunkPools.TlsCache.CarveChunk | src/common/chunk_pool.cc:418-430 | every block of the chunk is in its free list and knows its chunk; no other block header changes |
| ChunkPools.TlsCache.BuildBlocks | src/common/chunk_pool.cc:416-440 | all chunks of the list are carved and nothing else changes |
| ChunkPools.TlsCache.FetchChunks | src/common/chunk_pool.cc:472-485 | chunks move from the pool to the cache exactly when the pool has enough; none is lost |
| ChunkPools.TlsCache.PromoteChunk | src/common/chunk_pool.cc:487-495 | the first recyclable chunk becomes the one available chunk |
| ChunkPools.TlsCache.TakeBlock | src/common/chunk_pool.cc:497-514 | hands out a block that was not out, of a chunk of the class |
| ChunkPools.TlsCache.FreeBlock | src/common/chunk_pool.cc:531-566 | the block is no longer out; the chunk is in the list its count asks for |
| ChunkPools.TlsCache.RecycleClass | src/common/chunk_pool.cc:574-577 | one class: its chunks without a block out, and no others, move to the pool |
| ChunkPools.TlsCache.Recycle | src/common/chunk_pool.cc:570-582 | above the threshold all chunks without a block out return to the pool, else nothing changes; central plus cached chunks stay the same |
| ChunkPools.TlsCache.PutBlock | src/common/chunk_pool.cc:517-568 | users lose exactly this block; a local free is followed by the recycling that the thresholds ask for and no other; the block of another thread's cache is queued there and nothing else changes |
| ChunkPools.TlsCache.DeferredDeallocate | src/common/chunk_pool.cc:452-458 | the queue is drained and what users hold does not change |
| ChunkPools.TlsCache.Release | src/common/chunk_pool.cc:390-414 | a cache whose two counters agree gives every chunk back to the pool and owns nothing afterwards |
| ChunkPools.TlsCache.Exit | src/common/chunk_pool.h:258-266 | the queue is drained and the thread leaves; the cache is given up, with all its chunks back in the pool, if and only if no user holds a block of it, and else keeps exactly what users hold |
| ChunkPools.TlsCache.GetBlock | src/common/chunk_pool.cc:460-515 | users gain exactly one block of the smallest fitting class, one that nobody held and no queue had; queue and pool are left alone if the class has one in stock, else the queue is drained; null only if then the class has no free block and the pool too few chunks |
| ChunkPools.TlsCache.Allocate | src/common/chunk_pool.cc:110-126 | the same with the refused sizes |
| ChunkPools.RecyclableIsIdle | src/common/chunk_pool.h:227-229 | the two counters agree if and only if no block of the cache is out |
| ChunkPools.IdleClass | src/common/chunk_pool.cc:395-402 | after its recyclable chunks have left, a class with no block out already has the pointers and sizes that `Reset` writes |
| ChunkPools.OtherCacheKeeps | src/common/chunk_pool.cc:460-582 | what one cache does leaves the lists, counters, blocks and chunks of every other cache valid |
| ChunkPools.OwnedApart | src/common/chunk_pool.cc:419 | two caches never own the same chunk, because its header names its owner |
| ChunkPools.TlsCache.AttachThread | src/common/chunk_pool.cc:352-353 | the cache has the thread's id and is otherwise as before |
| ChunkPools.TlsCache.DetachThread | src/common/chunk_pool.cc:375-379 | the cache has no thread |
| Allocation.ChunkInRegion | src/common/chunk_pool.cc:244-257 | every chunk of a registered region is aligned to its size and inside one of its hugepages |
| Allocation.MemoryPool.constructor | src/common/chunk_pool.h:137-153 | an empty pool with no caches is in order |
| Allocation.MemoryPool.RegisterRegion | src/common/chunk_pool.cc:225-231 | all pages of a region are in the table, and no others are new |
| Allocation.MemoryPool.SplitRegions | src/common/chunk_pool.cc:244-257 | exactly the chunks of all regions, all in the central list, each inside a registered hugepage |
| Allocation.MemoryPool.Preallocate | src/common/chunk_pool.cc:212-258 | fails exactly when some page has no physical address, and then makes no chunk; else the same for all regions, and the count of chunks is theirs |
| Allocation.ChunksAsDistributed | src/common/chunk_pool.cc:180-258 | when each batch of pages has become one region, the central list holds exactly the distributed bytes in 2MB chunks, no less than the total and no less than the sum of the shares |
| Allocation.MemoryPool.NewCache | src/common/chunk_pool.h:124-130 | one more cache, all others and all chunks as before |
| Allocation.MemoryPool.Attach | src/common/chunk_pool.h:254-257 | thread ids stay unique; whatever the cache had it keeps |
| Allocation.MemoryPool.Detach | src/common/chunk_pool.h:258-260 | the same |
| Allocation.MemoryPool.Exit | src/common/chunk_pool.h:258-266 | a thread exits: its cache is gone if and only if no user holds a block of it, and then all its chunks are in the central list; else it stays with what users hold; no chunk is lost and no other cache moves |
| Allocation.MemoryPool.ExitFrom | src/common/chunk_pool.h:258-266 | the same before the cache leaves the list |
| Allocation.MemoryPool.RemoveTlsCache | src/common/chunk_pool.cc:322-325 | a cache that owns no chunk leaves the list, and all chunks are still accounted for |
| Allocation.ConservedKeeps | src/common/chunk_pool.cc:264-311 | central chunks and the counts of all caches add up to all chunks, and every chunk is in one of them, before and after |
| Allocation.ConservedWithout | src/common/chunk_pool.cc:407-414 | this stays so when a cache that owns nothing goes |
| Allocation.MemoryPool.BlockIsAlone | src/common/chunk_pool.cc:416-430 | the bytes of a block, header included, meet no other block of any cache, no chunk header and no central chunk |
| Allocation.MemoryPool.BlockIsOnePiece | src/common/memory_pool_helper.cc:370-428 | any stretch of a block's payload is covered by exactly one registered page |
| Allocation.MemoryPool.AllocateFrom | src/common/chunk_pool.cc:460-515 | users gain one block, every other cache is untouched and valid, and chunks are conserved over all caches |
| Allocation.MemoryPool.FreeFrom | src/common/chunk_pool.cc:517-568 | users lose this block; other caches are untouched and valid, and chunks are conserved over all caches |
| Allocation.MemoryPool.Allocate | src/common/chunk_pool.cc:110-126 | the payload fits, nobody had it, it overlaps nothing else, and it is one piece of one hugepage |
| Allocation.MemoryPool.Deallocate | src/common/chunk_pool.cc:128-135 | null changes nothing; else users lose exactly this block, whichever thread frees it; all caches stay valid and chunks are conserved |
| Allocation.MemoryPool.LookUpAddrAcrossBound | src/common/memory_pool_helper.cc:482-487 | on any stretch of an allocated payload it returns 1 |
| CacheProtocol.StepKeepsInv | src/common/chunk_pool.cc:345-582 | every step of every thread keeps the invariant, those of `Push` and of the life of a cache included |
| CacheProtocol.OnePlace | src/common/chunk_pool.cc:452-582 | in every interleaving each block is in exactly one place: free in its chunk, held by one user, or queued once with its owner |
| CacheProtocol.PlaceByEvents | src/common/chunk_pool.cc:452-582 | in every run each block is where the last step that moved it has put it: with the thread that allocated it, was handed it or popped it, in the queue it was exchanged into, or free |
| CacheProtocol.QueueByEvents | src/common/mpsc_queue.h:68-130 | in every run the queue of a cache holds what was exchanged into it and not yet popped, in that order |
| CacheProtocol.OwnerByEvents | src/common/chunk_pool.cc:472-485 | in every run a chunk belongs to the cache that fetched it until it is recycled or that cache destroyed |
| CacheProtocol.FreesWhatItBegan | src/common/chunk_pool.cc:517-532 | what a thread frees is the block it was given or popped; in place if its own cache owns the block, else into the queue of the owner |
| CacheProtocol.NeverHandedOutTwice | src/common/chunk_pool.cc:497-514 | an allocated block is held by nobody and in no queue |
| CacheProtocol.RecyclableIsIdle | src/common/chunk_pool.h:227-229 | a recyclable cache has an empty queue and no block held |
| CacheProtocol.DestroyedOnlyIdle | src/common/chunk_pool.h:258-266 | a cache is destroyed only when none of its blocks is held or queued, no thread has it, and none is about to exchange or link on its queue |
| CacheProtocol.FreeingIsSafe | src/common/chunk_pool.cc:517-535 | the exchange, the link and the return in place always find the queue or chunk they are made to, and a thread its own cache; only the count can be late |
| CacheProtocol.StaysSafeIff | src/common/mpsc_queue.h:68-83 | one step makes some access unsafe if and only if it destroys a cache that a thread is about to count on |
| CacheProtocol.SafeRunIff | src/common/mpsc_queue.h:68-83 | in every run: all accesses of all freeing threads are safe if and only if no cache is destroyed while a thread is about to count on its queue |
| CacheProtocol.EarlyIffUncounted | src/common/mpsc_queue.h:82 | when a cache is destroyed, a thread is about to count on its queue if and only if the queue's size is not 0 |
| CacheProtocol.CountCanBeLate | src/common/chunk_pool.h:258-266 | a run in which a thread exits and destroys its cache before another thread has counted on its queue |
| CacheProtocol.NoCacheLost | src/common/chunk_pool.h:119-135 | every cache is one thread's or an orphan, and every carved chunk has an owner that exists |
| Preallocation.FirstNode | src/common/chunk_pool.cc:192 | the lowest node with pages outstanding |
| Preallocation.Distribute | src/common/chunk_pool.cc:169-242 | the loop ends with each node having exactly its rounded-up share, the rest on any node, and every batch within its limit; lower nodes come first, any node last, and only the last call for a node asks for less than a batch |
| Preallocation.SharesSuffice | src/common/chunk_pool.cc:180-184 | the sum of the rounded shares is at least the rounded sum |
| Preallocation.ValidateSplit | src/common/chunk_pool.h:146-151 | the loop accepts exactly when the sum, wrapped to 32 bits and extended to 64, is 0 or the total |
| Preallocation.ValidationIff | src/common/chunk_pool.h:146-151 | for all totals it accepts exactly no split and splits that add up, if and only if the sum is below 2^31 or one of the last 2^31 numbers below 2^64 |
| Preallocation.ValidatedSplit | src/common/chunk_pool.h:146-151 | a split that passes the validation and adds up to less than 2^31 MB leaves no pages to any node |
| Preallocation.NoSplit | src/common/chunk_pool.cc:169-184 | without a split no page is bound to a node |
| AddressTranslation.AlignFinds | src/common/memory_pool_helper.h:146-151 | aligning an address to a page's size gives the page's start exactly when the page covers the address |
| AddressTranslation.TranslationIsUnique | src/common/memory_pool_helper.cc:342-368 | an address has at most one translation |
| AddressTranslation.TableLookUp | src/common/memory_pool_helper.cc:330-340 | finds a covering page, or there is none of the sizes in the order |
| AddressTranslation.DefaultOrderIsComplete | src/common/memory_pool_helper.cc:343-344 | the default order has every page size |
| AddressTranslation.AddressManager.AddInternalEntry | src/common/memory_pool_helper.cc:276-285 | adds one fresh page; all threads' tables stay parts of the global one |
| AddressTranslation.CollectPages | src/common/memory_pool_helper.cc:302-314 | the pages of all regions in order |
| AddressTranslation.ValidateExternalMemInfo | src/common/memory_pool_helper.cc:430-460 | accepts exactly regions that are not null or empty, of a supported page size, aligned to it and a multiple of it |
| AddressTranslation.AddedRegisters | src/common/memory_pool_helper.cc:302-325 | from the numbers of the regions alone: byte d of a region translates to byte d mod page size of its page, and addresses outside all regions as before |
| AddressTranslation.FillPhysAddr | src/common/memory_pool_helper.cc:462-474 | fails exactly when some physical address is unknown |
| AddressTranslation.AddressManager.AddExternalEntries | src/common/memory_pool_helper.cc:291-328 | every byte of every region translates into its page and everything else as before or, if any region or page is unacceptable, nothing changes |
| AddressTranslation.AddressManager.Resolve | src/common/memory_pool_helper.cc:348-363 | a covering page of the global table, or none covers the address; other threads' tables are untouched |
| AddressTranslation.AddressManager.GetPhysAddr | src/common/memory_pool_helper.cc:342-368 | the translation by the global table, whatever the thread's table holds and for every complete order; 0 if and only if uncovered |
| AddressTranslation.AddressManager.GetPhysAddrBound | src/common/memory_pool_helper.cc:370-428 | while other threads register pages between rounds: a positive result is one segment per page touched, in order, adding up to the length, right for the table at the end; 0 only if at the start the buffer was empty, had an uncovered byte or touched too many pages |
| AddressTranslation.NextPage | src/common/memory_pool_helper.cc:405-419 | a piece that begins at a page boundary adds exactly one page to those touched so far |
| AddressTranslation.PagesStay | src/common/memory_pool_helper.cc:388-404 | registering more pages does not change which pages a covered stretch touches |
| AddressTranslation.SegmentTranslates | src/common/memory_pool_helper.cc:370-428 | each byte of a segment translates as it would alone |
| AddressTranslation.ChunkInPage | src/common/chunk_pool.cc:244-257 | a chunk lies within one page |
| AddressTranslation.BlockIsOneSegment | src/common/memory_pool_helper.cc:370-428 | a stretch of the payload of a block whose chunk is in a hugepage touches exactly that page |
| RingQueue.OwnSlot | src/common/req_ring_queue.h:55-59 | numbers less than a ring apart have different slots |
| RingQueue.Queue.constructor | src/common/req_ring_queue.h:36-38 | an empty ring in which no slot looks completed |
| RingQueue.Queue.NewReq | src/common/req_ring_queue.h:48-53 | the next number, or -1 when the ring is full |
| RingQueue.Queue.PushResult | src/common/req_ring_queue.h:55-59 | the result is kept under its number and no other result is lost |
| RingQueue.Queue.PopResults | src/common/req_ring_queue.h:61-72 | exactly the longest completed prefix that there is room for, in order, each with the result pushed for it |
| TimerManager.Manager.AddTimer | src/common/timer_manager.cc:27-42 | a new last timer; the list stays linked both ways and sorted by deadline |
| TimerManager.Manager.RemoveTimer | src/common/timer_manager.cc:44-65 | exactly that timer leaves, wherever it is |
| TimerManager.Manager.HandleTimeout | src/common/timer_manager.cc:67-88 | exactly the due timers fire, once each and in order; the others stay |
| TimerManager.Manager.ClearAndGetUserArg | src/common/timer_manager.cc:90-97 | everything leaves, in order |
| CypherChannel.WrappedIdSameSlot | src/common/dedicated_pool.h:59-61 | a 32-bit request id has the slot of the unbounded number |
| CypherChannel.RecentMeansFree | src/cypher/qat_cypher_channel.cc:491-509 | if no request in the hardware is a pool size or more behind, the next slot is free |
| CypherChannel.SubmitKeepsIff | src/cypher/qat_cypher_channel.cc:482-511 | a submission keeps the invariant if and only if no request in the hardware shares its slot |
| CypherChannel.RefuseKeepsIff | src/cypher/qat_cypher_channel.cc:374-406 | a refused submission keeps it if and only if no request that still waits in the hardware shares the slot |
| CypherChannel.CompleteKeeps | src/cypher/qat_cypher_channel.cc:597-636 | a completion keeps it, whether in time or late |
| CypherChannel.FireKeeps | src/cypher/qat_cypher_channel.cc:647-657 | a due timer belongs to a valid slot, and its firing keeps the invariant |
| CypherChannel.PopKeeps | src/common/req_ring_queue.h:61-72 | so does handing out a result |
| CypherChannel.StepKeepsInv | src/cypher/qat_cypher_channel.cc:428-657 | submission into a free slot, a refusal that meets no waiting request, completion, timeout and delivery keep the invariant |
| CypherChannel.InOrderExactlyOnce | src/cypher/qat_cypher_channel.cc:428-559 | in every such run: one result per accepted request, in submission order, with its own context; a timeout if its timer has fired, else its own hardware code; a timer exactly while the slot is valid; no check fails |
| CypherChannel.ResultsByEvents | src/cypher/qat_cypher_channel.cc:428-657 | in every such run, read off its events: the r-th result has the context of the r-th accepted submission; it is a timeout if and only if a timer fired for r while it waited, at or after its deadline, and else the code the hardware completed r with |
| CypherChannel.PromptCompletion | src/cypher/qat_cypher_channel.cc:561-627 | a completion in time gives the request, and no other, the code that the hardware reports |
| CypherChannel.LateCompletionIsDropped | src/cypher/qat_cypher_channel.cc:597-627 | a completion after the timeout changes no result, slot or timer |
| CypherChannel.AttributedIff | src/cypher/qat_cypher_channel.cc:578-595 | every completion finds its channel and its own request: after an accepted submission if and only if no request in the hardware shares the slot, after a refused one if and only if none that still waits does |
| CypherChannel.Misattributed | src/cypher/qat_cypher_channel.cc:597-627 | otherwise an old completion becomes the result of a request still in the hardware |
| CypherChannel.SecondAborts | src/cypher/qat_cypher_channel.cc:597-637 | if the earlier request still waited, the completion of the later one finds no channel |
| CypherChannel.LostForever | src/cypher/qat_cypher_channel.cc:491-509 | and whatever happens afterwards the earlier one has no result, and the ring never moves past it |
| CypherChannel.RefusalAborts | src/cypher/qat_cypher_channel.cc:482-486 | after a refusal that met a waiting request, its completion finds no channel |
| CypherChannel.CollisionIsReachable | src/cypher/qat_cypher_channel.cc:428-657 | a run in which the channel accepts such a submission |
| CypherChannel.RefusalIsReachable | src/cypher/qat_cypher_channel.cc:428-637 | a run of two submissions and a completion after which a refused submission does so |
| CypherChannel.FireDueSettles | src/common/timer_manager.cc:67-88 | exactly the requests whose timers are due get a timeout and give up their slots; nothing else changes |
| CypherChannel.CompleteAllReports | src/cypher/qat_cypher_channel.cc:549-554 | every completion that the driver calls back for is recorded with its code, and no other |
| CypherChannel.PopUpToTakes | src/common/req_ring_queue.h:61-72 | results are handed out in order until there is no room or the next request has none |
| CypherChannel.EmptiesIff | src/cypher/qat_cypher_channel.cc:555-558 | firing what is due and handing out results empties the ring if and only if there is room and every request in flight has its result or is due |
| CypherChannel.PollDrains | src/cypher/qat_cypher_channel.cc:521-559 | a poll at or after every deadline, with room, leaves no request and no timer, and one right result for every request ever accepted |
| CypherChannel.Channel.constructor | src/cypher/qat_cypher_channel.cc:56-66 | a new channel is in the initial state |
| CypherChannel.Channel.SubmitAsync | src/cypher/qat_cypher_channel.cc:428-519 | each return code exactly when its cause is there; accepted and refused requests are the two submission steps, anything else changes nothing; the invariant holds afterwards if and only if an accepted request met a free slot and a refused one no waiting request |
| CypherChannel.Channel.Accept | src/cypher/qat_cypher_channel.cc:491-510 | slot, ring number, timer and callback context are taken together, and the slot's timer is known if the slot was free |
| CypherChannel.Channel.CyCallback | src/cypher/qat_cypher_channel.cc:597-636 | given only the context, it is the completion step of the request the hardware finished; its check holds; what that step gives is in `CypherChannel.PromptCompletion` and `CypherChannel.LateCompletionIsDropped` |
| CypherChannel.Channel.Answer | src/cypher/qat_cypher_channel.cc:622-633 | a request that waits: its result is kept, its own timer is removed and its slot is given up |
| CypherChannel.Channel.Intercept | src/cypher/qat_cypher_channel.cc:647-657 | the slot is given up and gets a new context, and its result is a timeout under its own ring number |
| CypherChannel.Channel.HandleTimeouts | src/cypher/qat_cypher_channel.cc:163-170 | exactly the requests whose timers are due are settled, oldest first |
| CypherChannel.Channel.PollInstance | src/cypher/qat_cypher_channel.cc:549-554 | any number of completions, in any order |
| CypherChannel.Channel.Collect | src/cypher/qat_cypher_channel.cc:557-558 | hands out the longest prefix with results, up to the room given |
| CypherChannel.Channel.Poll | src/cypher/qat_cypher_channel.cc:521-559 | completions, then timeouts, then delivery, each result a timeout exactly if its timer has fired and else the hardware's code; after an error of the driver -1 and completions only; a timeout after the last submission, with room, everything has been handed out |
| DataFlow.StepKeepsInv | src/data_flow/data_flow_channel_impl.cc:184-298 | every step of submit, poll and engine keeps the invariant |
| DataFlow.ObjectsArePartitioned | src/data_flow/data_flow_channel_impl.cc:184-298 | in every run each request object is queued, expired or cached, and no cached one is being worked on |
| DataFlow.OnlyIdleIsRebuilt | src/data_flow/data_flow_channel_impl.cc:282-285 | in every run the object that a submission builds is not one the engine still works on |
| DataFlow.ExactlyOneResult | src/data_flow/data_flow_channel_impl.cc:184-248 | in every run each accepted submission is queued or has had one result with its own context; a timeout if its timer has fired, else the one code the engine reported for that very submission; with ordered polling results come in submission order |
| DataFlow.ResultsByEvents | src/data_flow/data_flow_channel_impl.cc:184-298 | in every run, read off its events: a result has the context of its submission; it is a timeout if and only if a timer fired for it while it was queued, at or after its deadline, and else a code the engine completed it with |
| DataFlow.TimerWhileWaiting | src/data_flow/data_flow_channel_impl.cc:37-42 | a live timer exactly while queued and not expired |
| DataFlow.ScanIsComplete | src/data_flow/data_flow_channel_impl.cc:190-230 | whatever the engine completes meanwhile, ordered polling stops early only at a request neither expired nor completed, and unordered polling hands out all that was ready when it began |
| DataFlow.FinishKeeps | src/data_flow/dsa/data_flow_dsa_engine.cc:56-74 | the engine may complete any of what it works on at any time |
| DataFlow.ExpireDueMarks | src/common/timer_manager.cc:67-88 | exactly the requests whose timers are due are marked |
| DataFlow.ReapIsComplete | src/data_flow/data_flow_channel_impl.cc:233-244 | exactly expired objects with a completion record become usable: all that had one before, and no others if the engine is quiet |
| DataFlow.ScanEmptiesIff | src/data_flow/data_flow_channel_impl.cc:190-230 | with the engine quiet the first loop empties the queue if and only if there is room and every queued request has expired or has its record |
| DataFlow.PollMarksAll | src/data_flow/data_flow_channel_impl.cc:184-248 | after a poll at or after every deadline all that is still queued is ready to be handed out |
| DataFlow.TwoPollsDeliverAll | src/data_flow/data_flow_channel_impl.cc:184-248 | that poll and one more with room hand out a result for every submission accepted |
| DataFlow.DiscardIff | src/data_flow/data_flow_channel_impl.cc:250-261 | with the engine quiet every timer that closing removes is in the list if and only if no queued request with a record has expired |
| DataFlow.DiscardAlwaysIff | src/data_flow/data_flow_channel_impl.cc:250-261 | whatever the engine completes meanwhile, if and only if no queued request has expired |
| DataFlow.DiscardSafe | src/data_flow/data_flow_channel_impl.cc:250-261 | then objects stay in one list each, timers stay those of queued requests, and only requests with a record leave the queue |
| DataFlow.StaleTimerIsReachable | src/data_flow/data_flow_channel_impl.cc:250-261 | a run of a new channel after which closing removes a timer that has been released |
| DataFlow.ClosedIsIdle | src/data_flow/data_flow_channel_impl.cc:300-311 | when closing succeeds the engine works on nothing, no timer is left, and all objects are there to be deleted |
| DataFlow.CloseIff | src/data_flow/data_flow_channel_impl.cc:300-311 | with no queued request expired and the engine quiet, closing succeeds if and only if the engine works on nothing |
| DataFlow.Channel.constructor | src/data_flow/data_flow_channel_impl.cc:45-62 | 128 cached objects in the initial state |
| DataFlow.Channel.SubmitRequest | src/data_flow/data_flow_channel_impl.cc:273-298 | busy exactly when nothing is cached; else the submission step, or the refusal step when the engine refuses, with an object the engine does not work on |
| DataFlow.Channel.Start | src/data_flow/data_flow_channel_impl.cc:282-289 | object, record, timer and queue are taken together |
| DataFlow.Channel.PutBack | src/data_flow/data_flow_channel_impl.cc:290-293 | a refused object goes to the back of the cache |
| DataFlow.Channel.EngineRuns | src/data_flow/dsa/data_flow_dsa_engine.cc:56-74 | is the engine step |
| DataFlow.Channel.DeliverAt | src/data_flow/data_flow_channel_impl.cc:193-222 | one result, for a request that has expired or has a record: a timeout exactly if its timer has fired, else what the engine reported for it |
| DataFlow.Channel.Retire | src/data_flow/data_flow_channel_impl.cc:213-214 | a completed request: exactly its own timer is removed and its object is cached |
| DataFlow.Channel.PollQueue | src/data_flow/data_flow_channel_impl.cc:190-230 | the first loop of polling, with the engine completing requests between checks: what was ready has been handed out if there is room |
| DataFlow.Channel.HandleTimeouts | src/data_flow/data_flow_channel_impl.cc:37-42 | exactly the requests whose timers are due are marked |
| DataFlow.Channel.PollExpired | src/data_flow/data_flow_channel_impl.cc:233-244 | the second loop, with the engine completing requests between checks: expired objects with a record become usable again |
| DataFlow.Channel.Poll | src/data_flow/data_flow_channel_impl.cc:184-248 | results, each a timeout exactly if its timer had fired before the poll and else the engine's code for it, then timeouts, then reclaimed objects; a timeout after the last submission all that is queued has an outcome, and what has one is handed out if there is room |
| DataFlow.Channel.PollDiscarded | src/data_flow/data_flow_channel_impl.cc:250-261 | the first loop of closing, each removed timer being in the list |
| DataFlow.Channel.Close | src/data_flow/data_flow_channel_impl.cc:300-311 | succeeds exactly when nothing is queued or expired any more, and then the engine works on nothing and no timer is left |
| ObjectPool.Sizing | src/common/object_pool.h:119-130 | for every admissible object size the chunk is the least one for the objects wanted, at least one object fits and no more than counted, all end within the chunk, and the number fits 16 bits |
| ObjectPool.BaseOfObj | src/common/object_pool.h:218-221 | masking an object's address recovers its chunk |
| ObjectPool.ObjectsApart | src/common/object_pool.h:80-82 | objects lie behind the header, inside their chunk, and do not overlap |
| ObjectPool.NextIsNew | src/common/object_pool.h:80-82 | the next object of a chunk is held by nobody, not cached and not retired |
| ObjectPool.UsedIsSum | src/common/object_pool.h:73-88 | objects handed out = live + cached + freed, for each chunk |
| ObjectPool.AllRetired | src/common/object_pool.h:194-206 | a chunk is reset or released only with no live and no cached object |
| ObjectPool.ChunkInUse | src/common/object_pool.h:162-207 | no chunk is lost: one that is neither current nor spare has an object that is live or cached |
| ObjectPool.TlsObjectPool.constructor | src/common/object_pool.h:119-135 | an empty pool satisfies the invariant |
| ObjectPool.TlsObjectPool.AllocObject | src/common/object_pool.h:80-82 | a new live object of the current chunk |
| ObjectPool.TlsObjectPool.GetOrNewObject | src/common/object_pool.h:162-183 | an object nobody holds; null exactly when cache, current chunk and spare chunks have none and memory is refused, and then nothing changes |
| ObjectPool.TlsObjectPool.ReturnOrFreeObject | src/common/object_pool.h:185-207 | exactly this object is no longer live; it goes to the cache while there is room, else to its chunk; a chunk whose last object is retired starts over, or is gone if it is not current and there are enough spare ones |

## Left out

- CypherChannel.Channel.SubmitAsync: which arguments are bad and which buffers are missing is a parameter.
- DataFlow.Channel.PollQueue: crc outputs and byte counts of a result are not modelled.
- AddressTranslation.AddressManager.AddExternalEntries: the regions overlap neither each other nor registered pages.
- AddressTranslation.AddressManager.AddInternalEntry: registered pages are fresh and do not overlap; re-registration of a page and stale thread tables after a reset are not modelled.
- AddressTranslation.AddressManager.GetPhysAddrBound: addresses and lengths are numbers; buffers that wrap around the end of the address space are not modelled.
- ChunkPools.Pool.GetChunks: `fetch_chunk_num` is at least 1, as the loop of the code needs.
- ChunkPools.Pool.PutChunks: the pool is initialized; chunks returned after a reset are not modelled.
- ChunkPools.TlsCache.PutBlock: one call at a time, with the queue a sequence; interleavings are in `CacheProtocol` and `MpscQueue`.
- CacheProtocol.StepKeepsInv: the steps inside a queue's nodes are those of `MpscQueue`, here one exchange, link and pop.
- TimerManager.Manager.AddTimer: the clock does not run backwards.
- MpscQueue.StepKeepsInv: sequentially consistent memory; the weaker orders of the code and the queue's destructor are not modelled.
- `crc32Mult` with a first argument of 0, for which the bit loop does not end; it is not called with one.
- `TLSCache::Reset` with blocks out and `ChunkPool::Reset`, which drop their lists on purpose.
- DataFlow.Channel.Close: no queued request has expired, the exact condition of `DataFlow.DiscardAlwaysIff`; deleting the objects and the engine's own contexts are not modelled.
- CacheProtocol.EarlyIffUncounted: there are fewer than 2^64 threads, since the counter wraps there.
- ChunkPools.TlsCache.Release: for a cache whose counters agree, the only one that a thread's exit destroys.
- The argument checks of `SubmitMove` and `SubmitCrc`.
- The cypher channel's sessions, buffers and delayed release of user memory; the codec channels.
- Preallocation.Distribute: allocations succeed; the paths that release what was allocated are not modelled.
- The object pool's destructor and `recycle_object`.
- Drivers, `mmap`, NUMA policy, page maps, sockets, logging, metrics, checksums other than CRC32C: foreign or easy.
