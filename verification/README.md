# Zend memory manager, and five smaller cores, in Dafny

This project models the allocator of `Zend/zend_alloc.c` and proves what callers rely on: blocks
never overlap, the bytes of a block stay as they are until their owner changes them, the usage
counters are exact, the collector takes nothing that is in use, and no consistency check fires in
a program that frees only what it holds. Beside it stand the word-array bitsets, the arenas, the
`map_ptr` table, the module sort and startup pass, and the thread resource table.

## The allocator, from the bits up

- `Word`, `PageBitmap`, `Scan`: 64-bit words bit by bit; range set, reset and test; the
  word-at-a-time search.
- `Sizes`, `Labels`: the 30 size classes; packing of the 32-bit page labels.
- `Pages`, `Chunks`: the page map of one chunk as a value (`own[q]` is the first page of the run
  that holds page `q`), and the class with the bitmap and the label array. `PagesOK` says that the
  set bits are exactly the disjoint union of the runs labelled at their first pages, that
  `freePages` counts the clear bits and that no run *starts* at or after `freeTail`. Labels inside
  a large run carry no meaning; growth in place does not raise `freeTail`.
- `Memory`, `FreeLists`: memory as a map from addresses to bytes; links and their shadows as the
  eight bytes the code stores (byte swap, then XOR with key and address).
- `Blocks`, `Live`, `Counting`, `HeapModel`, `HeapState`, `Rings`: one state value for the whole
  heap, its invariant `Sound` (chunks, live blocks, free lists in memory, huge list nodes in memory,
  regions, ring and cache) and `Settled` (no pending counters, no empty chunk but the main one).
- `HeaderTable`, `Heaps`: class `Heap` with the fields of the C struct. Its ghost field `s` is the
  state value; `Tables`, `Fields` and `Money` tie it to the fields. `Ready` holds before and after
  every part of a call, `Consistent` between calls even after one that ran out of memory, and
  `Valid` adds that `size` is the sum of the usable sizes of the live blocks.
- `PageAllocs`, `SmallRuns`, `LargeRuns`, `HugeSteps`, `HeapCalls`, `FreeCalls`, `ReallocCalls`,
  `Writes`: the public calls, each with its effect on every byte of every live block.
- `Collecting`, `GcSpec`, `Sweepings`, `GcResult`, `Collectors`: the two-pass collector.
- `Rekeying`, `Lifecycle`, `Shutdowns`: re-keying at fork, the memory limit, the end of a request.
- `Guarantees`, `Clients`: corollaries for a caller, and the main theorem. `Clients.Run` takes any
  program of allocations, frees, reallocations, stores, collections, limit changes, forks and
  request ends, and shows that the allocator behaves like a map from names to byte strings. A run
  ends early only at an allocation, or a resize that cannot be done in place, for which the heap has
  no free memory and the limit or the operating system gives no more, or at a copy size that is too
  large.
- `Limits`: a heap that goes past its memory limit.

The operating system is an oracle (`OsPick`): it returns any chunk-aligned, zeroed region that the
heap does not hold, or nothing; the ghost field `refusals` counts its refusals, so that a contract
can say when a call must succeed. Random keys are parameters. Running out of memory is a result
(address 0) that leaves the heap consistent, where the code would leave by an error exit.

## The smaller cores

- `Sequences`: reversal, for `Bitsets` and `Modules`.
- `Bitsets`: every operation is stated by members; iteration visits exactly the members in
  ascending or descending order.
- `Arenas`: chains of arenas as linked objects. Releasing a checkpoint restores the pool of the
  checkpoint, whatever was allocated since and however blocks touch. A request so large that
  adding the header wraps around gets a block that is too small; `RoomExactly` says which.
- `MapPtrs`: the table refines a finite map from handles to values, through every kind of growth.
- `Modules`: the sort ends, and keeps its promise, exactly on dependencies without cycles
  (`SortModules` ends where a rank exists, `SortEndsRanked` finds a rank where a run of the loop
  ends); startup keeps exactly the modules whose requirements stay.
- `ResourceLog`, `Tsrm`: one entry per thread, in its own chain; the log of constructor and
  destructor visits never makes or ends an instance twice; blocks given out of one reservation do
  not overlap.

## Where the code and its documentation part

- `zend_set_memory_limit` reports success when it has trimmed the cache to fit, but then leaves the
  limit in force as it was (Zend/zend_alloc.c:3042-3055).
- `zend_mm_alloc_huge` checks the limit before it allocates the list node, so usage may end one
  chunk above the limit (Zend/zend_alloc.c:2064-2101). `HeapCalls.AllocHuge` says exactly when, and
  `Limits.Overshoot` is such a run. A caller who leaves room for one chunk more stays below it.
  Once usage is above the limit, what is left wraps around, and the limit holds nobody back any
  more: `Limits.LimitLost`.
- `erealloc2` with a copy size above the new size: where the block moves, as many bytes are copied
  as the old block has, up to the copy size, even if the new block is smaller
  (Zend/zend_alloc.c:1784, 1935-1942). `ReallocCalls.CopyFits` is the exact condition under which
  the copy stays inside the new block, `CopyOverruns` an input that violates it.
- The comment in `ts_resource_ex` promises that the native blocks of a recycled thread id are never
  destroyed. This holds for a thread that fetches a resource first. A thread that calls
  `ts_free_thread` first is taken for the owner of the stale entry (TSRM/TSRM.c:588-620), and
  destroys them; `Tsrm.Table.FreeThread` has the exact condition, `Tsrm.DestroysDead` the run. Also,
  `ts_free_id` calls the destructor for the native blocks of every thread (TSRM/TSRM.c:623-656);
  `Tsrm.Table.FreeId` says exactly when that hits a dead thread.
- A module that requires itself starts: it is marked as started before its requirements are looked
  at (Zend/zend_API.c:2433-2453); `Modules.SelfRequired` starts one.
- `zend_sort_modules` does not end on modules that depend on each other: `Modules.CycleTurns`
  (Zend/zend_API.c:2484-2516).

## Model

| member | source | states |
|---|---|---|
| `Word.TrailingOnesSpec` | Zend/zend_alloc.c:605-640 | the binary search over halves of a word finds the first zero bit, and 64 when there is none |
| `Word.TrailingZerosSpec` | Zend/zend_bitset.h:46-80 | the portable count of trailing zeros finds the first one bit, and 64 for zero |
| `Word.DropTrailingOnesBit` | Zend/zend_alloc.c:1086-1090 | `w & (w + 1)` clears exactly the trailing ones |
| `Word.FillTrailingZerosBit` | Zend/zend_alloc.c:1114-1123 | `w \| (w - 1)` sets exactly the trailing zeros |
| `PageBitmap.SetRange` | Zend/zend_alloc.c:658-688 | for every start and length over any number of words, marks exactly the pages of the range |
| `PageBitmap.ResetRange` | Zend/zend_alloc.c:690-720 | unmarks exactly the pages of the range |
| `PageBitmap.IsFreeRange` | Zend/zend_alloc.c:722-758 | true exactly when no page of the range is marked |
| `Sizes.BinFacts` | Zend/zend_alloc_sizes.h:22-62 | elements of every class fit in its pages and one more would not |
| `Sizes.BinSizeFormula` | Zend/zend_alloc_sizes.h:29-62 | the class sizes as four steps per power of two |
| `Sizes.SizeToBinFits` | Zend/zend_alloc.c:1311-1368 | the class chosen by shifts is the smallest that holds the request |
| `Labels.FieldsBack` | Zend/zend_alloc.c:189-214 | packed labels give back their kind and fields |
| `Labels.Layout` | Zend/zend_alloc.c:188-214 | kind in the two top bits, page count or bin in the low ones, counter or offset from bit 16 on |
| `Labels.FieldsFit` | Zend/zend_alloc.c:193-208 | every page, element and offset count of the size table fits its label field |
| `Scan.FirstFree` | Zend/zend_alloc.c:1073-1090 | the next free page lies where the trailing ones of the masked word end; the pages before it are used |
| `Scan.FirstUsed` | Zend/zend_alloc.c:1091-1123 | the end of a hole, likewise |
| `Pages.TakePagesOK` | Zend/zend_alloc.c:1207-1214 | marking a run keeps the partition into runs, the free count and the tail mark |
| `Pages.FreePagesOK` | Zend/zend_alloc.c:1279-1291 | so does giving one back |
| `Pages.ShrinkPagesOK` | Zend/zend_alloc.c:1886-1900 | so does cutting a run short in place |
| `Pages.GrowPagesOK` | Zend/zend_alloc.c:1911-1925 | so does growing in place, although the tail mark is not raised |
| `Pages.TakeFreeBack` | Zend/zend_alloc.c:1207-1291 | taking a run and giving it back restores owners and free count; the tail mark drops to its start if the run began or ended at it |
| `Pages.GrowShrinkBack` | Zend/zend_alloc.c:1886-1925 | growing in place and cutting back is no change |
| `Pages.SmallPagesOK` | Zend/zend_alloc.c:1460-1470 | so does labelling a run as small |
| `Pages.PastTail` | Zend/zend_alloc.c:1284-1287 | a used page past the tail mark belongs to a run that began earlier |
| `Pages.TailFree` | Zend/zend_alloc.c:1092-1109 | a free range that reaches the tail mark is free up to the end of the chunk |
| `Pages.FirstRunOK` | Zend/zend_alloc.c:910-925 | writing word 0 alone is enough to take a chunk with a blank bitmap into use |
| `Pages.SweepEnd` | Zend/zend_alloc.c:2323-2345 | a collector that stops at the tail mark has seen every run |
| `Chunks.Chunk.FindPages` | Zend/zend_alloc.c:1013-1126 | the word-wise search returns the lowest-addressed hole of minimal length that fits, and 0 exactly when none fits, despite both early exits |
| `Chunks.Chunk.InitPages` | Zend/zend_alloc.c:910-925 | page part of chunk initialisation, in place |
| `Chunks.Chunk.MarkRun` | Zend/zend_alloc.c:1207-1214 | refines `TakeRun` on bitmap, labels and counters |
| `Chunks.Chunk.ReleaseRun` | Zend/zend_alloc.c:1279-1291 | refines `FreeRun`, clearing one label only |
| `Chunks.Chunk.ShrinkLarge` | Zend/zend_alloc.c:1886-1900 | refines `ShrinkRun` |
| `Chunks.Chunk.GrowLarge` | Zend/zend_alloc.c:1911-1925 | grows exactly when the run stays inside the chunk and the pages behind it are free |
| `Chunks.Chunk.LabelSmall` | Zend/zend_alloc.c:1460-1470 | labels the first page and every further page of a small run |
| `Chunks.Chunk.Sweep` | Zend/zend_alloc.c:2322-2345 | one chunk of the collector's page pass: full runs go, counters are reset, the count of freed pages is returned |
| `Memory.SwapTwice` | Zend/zend_alloc.c:1391-1407 | byte swap is its own inverse |
| `Memory.XorTwice` | Zend/zend_alloc.c:1391-1407 | XOR with key and holder is its own inverse |
| `Memory.DecodeEncode` | Zend/zend_alloc.c:932-951 | a shadow decodes to the link it was made for, under its key and at its address |
| `Memory.NoReplay` | Zend/zend_alloc.c:1391-1412 | a shadow decodes to its link elsewhere or under another key only if the two differences cancel |
| `Memory.LowBytesCaught` | Zend/zend_alloc.c:1391-1440 | overwriting up to four low bytes of a link and of its shadow, with anything, is always detected, because of the byte swap |
| `Memory.StoreLoad` | Zend/zend_alloc.c:1414-1422 | what is stored as eight bytes is read back |
| `FreeLists.CheckPasses` | Zend/zend_alloc.c:1424-1440 | the check of a link against its shadow passes on every well-formed slot |
| `FreeLists.ChainPush` | Zend/zend_alloc.c:1545-1546 | a pushed element heads a well-linked list |
| `FreeLists.ChainUnlink` | Zend/zend_alloc.c:2301-2311 | unlinking an element in memory removes it from the list and leaves the order |
| `Live.ElementsAll` | Zend/zend_alloc.c:1472-1494 | cutting a run into elements yields every element of the run |
| `Live.ElementsNoDup` | Zend/zend_alloc.c:1472-1494 | and yields each once |
| `Rings.InsertLast` | Zend/zend_alloc.c:916-920 | a new chunk enters the circular list before the main chunk |
| `Rings.UnlinkAt` | Zend/zend_alloc.c:1246-1247 | unlinking keeps one circular doubly linked list of the other chunks |
| `Rings.InsertSecond` | Zend/zend_alloc.c:1194-1206 | moving a chunk behind the main chunk keeps the list |
| `Rings.CachedPush` | Zend/zend_alloc.c:953-957 | a cached chunk is linked with a shadow under key and address |
| `HeapState.PopSound` | Zend/zend_alloc.c:1512-1515 | handing out a free element keeps the whole heap invariant; the element was not live |
| `HeapState.PushSound` | Zend/zend_alloc.c:1538-1546 | freeing an element keeps it; no other live byte changes |
| `HeapState.TakeSound` | Zend/zend_alloc.c:1207-1214 | a fresh large run keeps it; its address was not live |
| `HeapState.ReleaseSound` | Zend/zend_alloc.c:1279-1291 | freeing a run keeps it |
| `HeapState.CutSound` | Zend/zend_alloc.c:1460-1494 | turning a run into a small run with a linked list of elements keeps it |
| `HeapState.ShrinkSound` | Zend/zend_alloc.c:1886-1900 | cutting a run short in place keeps it |
| `HeapState.GrowSound` | Zend/zend_alloc.c:1911-1925 | growing in place keeps it |
| `HeapState.DropActiveSound` | Zend/zend_alloc.c:1243-1248 | an empty chunk can leave the ring at any position |
| `HeapState.AttachSound` | Zend/zend_alloc.c:910-925 | a spare chunk can join it |
| `HeapState.MoveSound` | Zend/zend_alloc.c:1194-1206 | reordering the ring keeps the invariant |
| `HeapState.AddHugeSound` | Zend/zend_alloc.c:1967-1982 | entering a huge block, with its node in an element of the same heap, keeps it |
| `HugeSteps.DropHugeSound` | Zend/zend_alloc.c:1984-2006 | taking one out at any position of the list keeps it and leaves its node an ordinary block |
| `HeapState.UnmapSound` | Zend/zend_alloc.c:849-858 | giving an unused region back changes no byte of a live block |
| `Heaps.Heap.constructor` | Zend/zend_alloc.c:2179-2231 | a new heap is valid, with one chunk, nothing live and every counter at its start |
| `Heaps.Heap.OsAlloc` | Zend/zend_alloc.c:837-847 | a region from the operating system is fresh: chunk-aligned and disjoint from all the heap holds |
| `Heaps.Heap.GetNextSlot` | Zend/zend_alloc.c:1424-1440 | following a free-list link never fails its check |
| `Heaps.Heap.GetNextCached` | Zend/zend_alloc.c:959-971 | following a cache link never fails its check, as long as next pointer and encoded shadow are those of the list |
| `Heaps.Heap.PopSlot` | Zend/zend_alloc.c:1512-1515 | fast path of a small allocation, in place |
| `Heaps.Heap.FreeSmall` | Zend/zend_alloc.c:1521-1547 | the freed element heads its list; usage drops by its size; other live bytes stay |
| `Heaps.Heap.UnlinkChunk` | Zend/zend_alloc.c:1243-1247 | in-place unlinking of an empty chunk |
| `Heaps.Heap.CacheChunk` | Zend/zend_alloc.c:1252-1255 | a spare chunk becomes the head of the cache |
| `Heaps.Heap.AddChunk` | Zend/zend_alloc.c:1168-1175 | usage rises by a chunk; the real peak is the larger of the old one and the new usage |
| `Heaps.Heap.DisposeChunk` | Zend/zend_alloc.c:1256-1276 | of the chunk and the head of the cache the one with the larger number goes back, the other heads the cache |
| `Heaps.Heap.DeleteChunk` | Zend/zend_alloc.c:1241-1277 | deleting an empty chunk keeps all live blocks, lists and counters; it is cached exactly if there are fewer chunks than the average or the same number has been reached too often, else it or the head of the cache goes back |
| `Heaps.Heap.RetireChunk` | Zend/zend_alloc.c:1249-1276 | which of the three things happens to a chunk, with cache, usage and the record of deletions exact |
| `PageAllocs.FindInRing` | Zend/zend_alloc.c:1013-1131 | the walk over the ring stops at the first chunk with room and there takes the best hole; otherwise no chunk has room |
| `PageAllocs.MoveToFront` | Zend/zend_alloc.c:1194-1206 | a chunk reached after many steps moves behind the main chunk |
| `PageAllocs.GcAgain` | Zend/zend_alloc.c:1139-1150 | after a collection a second one returns 0, so the retry happens once |
| `PageAllocs.MapChunk` | Zend/zend_alloc.c:1151-1183 | a chunk from the system, with one retry after a collection; it fails exactly when the system has refused twice, or once with nothing to collect, and `refusals` counts each; the real peak is exact |
| `PageAllocs.ObtainChunk` | Zend/zend_alloc.c:1129-1183 | the first cached chunk if there is one, else a new one within the limit; it fails only when none is cached and the limit, with nothing left to collect, or the system forbids one; the real peak is exact |
| `PageAllocs.AllocPages` | Zend/zend_alloc.c:1004-1215 | the new run is at the best place of the first chunk with room or in a further chunk, the first cached one if any, and was not live; the order of the ring, the real peak and the peak of the chunk count are exact; it fails only when no chunk has room, none is cached and no more can be had, and while the heap has either it takes nothing from the system |
| `PageAllocs.ReorderedExactly` | Zend/zend_alloc.c:1194-1206 | a chunk reached after more than two steps for fewer than eight pages becomes the second of the ring, the others keep their order; otherwise none moves |
| `PageAllocs.AttachChunk` | Zend/zend_alloc.c:910-925 | a chunk joins the ring at its end, is numbered after the one before it, and the peak of the chunk count is exact |
| `PageAllocs.RoomWraps` | Zend/zend_alloc.c:1138-1138 | above the limit, the difference of limit and usage wraps around |
| `SmallRuns.BuildList` | Zend/zend_alloc.c:1472-1494 | in-place building of a free list with checked links |
| `SmallRuns.AllocSmallSlow` | Zend/zend_alloc.c:1443-1497 | a fresh run is labelled and cut; its first element is handed out and the others form the free list in the order of their addresses; it fails only when the pages cannot be had |
| `SmallRuns.AllocSmall` | Zend/zend_alloc.c:1499-1519 | the head of the free list whenever there is one; failure only with an empty list and no pages to be had; the class size is counted first in either case; both peaks are exact |
| `LargeRuns.FreePages` | Zend/zend_alloc.c:1279-1296 | the run goes, and its chunk with it when nothing is left |
| `LargeRuns.FreeLarge` | Zend/zend_alloc.c:1298-1303 | the same, with the usage counter |
| `LargeRuns.AllocLarge` | Zend/zend_alloc.c:1217-1239 | the request in whole pages, with `size`, `peak`, the real peak and the peak of the chunk count exact; it succeeds whenever a chunk has room or one is cached |
| `HeapCalls.AddHugeBlock` | Zend/zend_alloc.c:1967-1982 | records a region; the node comes from the heap itself, so it cannot fail while the node class has a free element |
| `HeapCalls.AllocHuge` | Zend/zend_alloc.c:2045-2116 | a huge block apart from everything, of the request rounded up; `realSize` ends above the limit if and only if the list node took a chunk more than was left; failure only for a size that wraps, the limit with nothing left to collect, or a refusal by the system |
| `HeapCalls.AllocHeap` | Zend/zend_alloc.c:1577-1624 | a block of the class or size chosen for the request that no caller held, with exact counters and peaks; or nothing, when no free memory serves it and no more can be had, and then every block is kept; a huge request with one chunk to spare keeps the limit |
| `Limits.Overshoot` | Zend/zend_alloc.c:2064-2101 | a new heap with a limit of two chunks that, unless the system refuses memory, holds a huge block and has `realSize` one chunk above the limit |
| `Limits.FullHeap` | Zend/zend_alloc.c:2086-2092 | with its one chunk filled, the heap has no room for a list node |
| `Limits.LimitLost` | Zend/zend_alloc.c:1138-1143 | a heap above its limit is not stopped by it |
| `FreeCalls.Identify` | Zend/zend_alloc.c:1626-1651 | offset and page label give the true kind and size of every live block |
| `FreeCalls.HugeSize` | Zend/zend_alloc.c:2008-2021 | the list walk finds the recorded size of every huge block |
| `FreeCalls.BlockSize` | Zend/zend_alloc.c:1653-1680 | the usable size of every live block |
| `FreeCalls.DelHugeBlock` | Zend/zend_alloc.c:1984-2006 | unlinks the record at any position and frees its node |
| `FreeCalls.FreeHuge` | Zend/zend_alloc.c:2118-2136 | the block and its region go; counters follow |
| `FreeCalls.FreeHeap` | Zend/zend_alloc.c:1626-1651 | exactly the named block goes; every other block keeps its bytes; the null pointer is ignored |
| `Writes.LiveApart` | Zend/zend_alloc.c:1443-1680 | two live blocks of whatever kinds never overlap |
| `Writes.WriteSound` | Zend/zend_alloc.c:1577-1651 | a caller's store into its own block harms nothing |
| `ReallocCalls.ReallocSlow` | Zend/zend_alloc.c:1682-1698 | allocate, copy, free: the copied bytes arrive, the peak does not count the block twice, the real peak is that of the moment before the old block is freed; whether the copy overran the new block |
| `ReallocCalls.ReallocSmall` | Zend/zend_alloc.c:1826-1853 | moving between classes keeps the first bytes |
| `ReallocCalls.ShrinkInPlace` | Zend/zend_alloc.c:1886-1905 | the block stays where it is and keeps its remaining bytes |
| `ReallocCalls.GrowInPlace` | Zend/zend_alloc.c:1906-1933 | grows where it is exactly when the pages behind are free, and keeps its bytes; otherwise nothing changes |
| `ReallocCalls.ReallocHuge` | Zend/zend_alloc.c:1700-1785 | a huge block stays put exactly when its rounded size does, and then nothing changes; else it moves, for every copy size, and the copy overruns if and only if it is longer than the new block; it fails only when the new block cannot be had |
| `ReallocCalls.AllowGrowth` | Zend/zend_alloc.c:1751-1764 | the limit check for growth, retried after a collection; it fails only over the limit with nothing left to collect |
| `ReallocCalls.ReallocLargeBlock` | Zend/zend_alloc.c:1868-1944 | a large run stays where it is exactly when it is cut, kept or can grow into the pages behind; else it moves |
| `ReallocCalls.ReallocSmallBlock` | Zend/zend_alloc.c:1823-1866 | a small block stays exactly when the request is at most its element and at least that of the class below; moving to a smaller class counts both in the peak, moving to a larger one does not |
| `ReallocCalls.ReallocHeap` | Zend/zend_alloc.c:1787-1944 | the block keeps its address if and only if its class, its pages or its region suit the new size, a run can be cut or the pages behind it are free, and then the call cannot fail and takes no memory; on every path, for every copy size that fits, the first min(old size, new size, copy size) bytes are kept, no byte of another block changes, and new block, both peaks and what is taken from the system are exact; a copy overruns if and only if `CopyFits` fails; failure only for lack of memory, and then nothing is lost |
| `ReallocCalls.StaysExactly` | Zend/zend_alloc.c:1711-1933 | a small block stays if and only if the request is of its class or fills the class below to the byte; a large run if the request is large and fits; a huge block if the request ends in its last page |
| `ReallocCalls.BecameExactly` | Zend/zend_alloc.c:1826-1853 | the block afterwards is that of the request; only a request that fills the class below to the byte leaves the old class |
| `ReallocCalls.ExtraExactly` | Zend/zend_alloc.c:1831-1851 | the peak counts both blocks exactly when a small block moves to a smaller class |
| `ReallocCalls.CopySafe` | Zend/zend_alloc.c:1787-1944 | no overrun for a small block, for a large one that stays above the small sizes, for growth, and for a copy size up to the new size |
| `ReallocCalls.CopyOverruns` | Zend/zend_alloc.c:1784-1784 | a huge block resized to 100 bytes with copy size 5000: 5000 bytes go into an element of 112 |
| `ReallocCalls.CopyAboveSize` | Zend/zend_alloc.c:1711-1720 | copy sizes above the request that fit, by rounding up or because nothing moves |
| `GcSpec.WithoutIdleMembers` | Zend/zend_alloc.c:2284-2317 | a filtered list holds exactly the elements whose run is not fully free |
| `Collectors.CountList` | Zend/zend_alloc.c:2254-2278 | the first pass counts each free element at the head page of its run |
| `Collectors.FilterList` | Zend/zend_alloc.c:2280-2317 | the second pass unlinks exactly the elements of full runs, in memory |
| `Collectors.SweepRing` | Zend/zend_alloc.c:2320-2354 | every chunk is visited once although chunks are unlinked, cached or freed during the walk |
| `Collectors.Gc` | Zend/zend_alloc.c:2233-2357 | releases a small run exactly when all its elements are free, touches no live byte, and returns page size times the pages released |
| `GcResult.WalkedCollected` | Zend/zend_alloc.c:2320-2354 | the three passes together amount to the collector's specification |
| `Guarantees.HeaderUntouched` | Zend/zend_alloc.c:1207-1214 | corollary: no live block touches page 0 of a chunk or leaves its chunk |
| `Guarantees.ElementsSplit` | Zend/zend_alloc.c:1443-1547 | every element of a small run is live or on the free list of its class, once, and never both |
| `Guarantees.ListsAreElements` | Zend/zend_alloc.c:1443-1547 | corollary: every free-list entry is an element of a run of its class in a chunk in use |
| `Guarantees.FreeApart` | Zend/zend_alloc.c:1443-1547 | a free element overlaps no live block |
| `Guarantees.LiveNeverIdle` | Zend/zend_alloc.c:2296-2301 | a run with a live element is never released |
| `Guarantees.LiveSurvives` | Zend/zend_alloc.c:2233-2357 | a collection leaves every live block where and what it was |
| `Guarantees.OrderKept` | Zend/zend_alloc.c:2283-2317 | what stays on a free list keeps its order |
| `Guarantees.SecondGcIdle` | Zend/zend_alloc.c:2233-2357 | an immediate second collection releases nothing and returns 0 |
| `Guarantees.RingWalk` | Zend/zend_alloc.c:1241-1247 | corollary: the links run once through all active chunks and back; none of them is cached |
| `Guarantees.CachedChecks` | Zend/zend_alloc.c:941-971 | corollary: the cache check passes on every cached chunk of a sound heap |
| `Guarantees.SlotChecks` | Zend/zend_alloc.c:1400-1440 | corollary: the free-list check passes on every free element of a sound heap |
| `Rekeying.RekeyLists` | Zend/zend_alloc.c:2155-2170 | every free-list shadow is re-encoded, half-converted heaps included |
| `Rekeying.RekeyCached` | Zend/zend_alloc.c:973-983 | so is every cache link |
| `Rekeying.RefreshKey` | Zend/zend_alloc.c:2149-2177 | the heap is sound under the new key and no live byte changes |
| `Lifecycle.SetMemoryLimit` | Zend/zend_alloc.c:3037-3059 | succeeds exactly when trimming the cache suffices, trims no more than needed and from the head, ends at or below the argument |
| `Shutdowns.FreeHugeList` | Zend/zend_alloc.c:2613-2621 | every huge region is unmapped, the list being read from memory that is about to go |
| `Shutdowns.CacheRing` | Zend/zend_alloc.c:2623-2632 | every chunk but the main one joins the cache |
| `Shutdowns.PushedAt` | Zend/zend_alloc.c:2623-2632 | the order of the cache then: the ring from its end, and behind it what was cached before |
| `Shutdowns.TrimShell` | Zend/zend_alloc.c:2644-2652 | cached chunks beyond the average go back, from the head of the cache, and not one more |
| `Shutdowns.ClearCached` | Zend/zend_alloc.c:2653-2660 | every kept chunk is zeroed and linked again |
| `Shutdowns.Shutdown` | Zend/zend_alloc.c:2566-2702 | from any state between calls, a valid heap with nothing live, one empty chunk, empty lists, every counter at its start and `realSize` equal to the chunks kept; these are as many of the spare chunks as the average allows |
| `Clients.BuffersApart` | Zend/zend_alloc.c:1577-1651 | blocks held by a program never overlap |
| `Clients.Execute` | Zend/zend_alloc.c:1577-1944 | one operation of a program refines one step on named byte strings; it fails only where memory is asked for, by an allocation or by a resize that cannot be done in place, and neither the heap, nor the limit, nor the system has any, or on a copy size that overruns; lack of memory loses no byte of any block |
| `Clients.Run` | Zend/zend_alloc.c:1577-2357 | any run on a new heap keeps it valid, and the blocks of the program read as in a run of the specification; it ends before its last operation only at one that fails as `Execute` says |
| `Bitsets.MembersExact` | Zend/zend_bitset.h:128-131 | the member list is ascending and holds exactly the members |
| `Bitsets.SameBits` | Zend/zend_bitset.h:164-167 | a word is determined by its bits |
| `Bitsets.LeadingZerosSpec` | Zend/zend_bitset.h:82-119 | the count of leading zeros points at the highest one bit of every nonzero word |
| `Bitsets.Len` | Zend/zend_bitset.h:123-126 | just enough words for `n` bits |
| `Bitsets.In` | Zend/zend_bitset.h:128-131 | true exactly for a member |
| `Bitsets.Incl` | Zend/zend_bitset.h:133-136 | adds one member and nothing else |
| `Bitsets.Excl` | Zend/zend_bitset.h:138-141 | removes one member and nothing else |
| `Bitsets.Empty` | Zend/zend_bitset.h:148-157 | true exactly for a set without members |
| `Bitsets.Equal` | Zend/zend_bitset.h:164-167 | true exactly for the same members |
| `Bitsets.Subset` | Zend/zend_bitset.h:219-229 | true exactly when every member is a member of the other set |
| `Bitsets.Clear` | Zend/zend_bitset.h:143-146 | no members left in the range, the rest kept |
| `Bitsets.Fill` | Zend/zend_bitset.h:159-162 | all numbers are members, the rest kept |
| `Bitsets.Copy` | Zend/zend_bitset.h:169-172 | the members of the other set |
| `Bitsets.Intersection` | Zend/zend_bitset.h:174-181 | set intersection in place, also with itself |
| `Bitsets.Union` | Zend/zend_bitset.h:183-190 | set union in place |
| `Bitsets.Difference` | Zend/zend_bitset.h:192-199 | set difference in place |
| `Bitsets.UnionWithIntersection` | Zend/zend_bitset.h:201-208 | three-operand form, also when the result is an operand |
| `Bitsets.UnionWithDifference` | Zend/zend_bitset.h:210-217 | likewise |
| `Bitsets.First` | Zend/zend_bitset.h:231-241 | the head of the member list, or -1 |
| `Bitsets.Last` | Zend/zend_bitset.h:243-260 | the end of the member list, or -1, found by shifting |
| `Bitsets.PopFirst` | Zend/zend_bitset.h:289-295 | removes the head of the member list and returns it |
| `Bitsets.Foreach` | Zend/zend_bitset.h:262-287 | visits exactly the member list |
| `Bitsets.ReverseForeach` | Zend/zend_bitset.h:272-287 | visits exactly the member list backwards |
| `Arenas.RoomExactly` | Zend/zend_arena.h:52-76 | the block returned holds the request exactly when the sums stay inside 64 bits |
| `Arenas.TooLarge` | Zend/zend_arena.h:62-66 | the smallest request whose header sum wraps gets no more room than the last arena had |
| `Arenas.GrowLeast` | Zend/zend_arena.h:61-66 | a new arena is the least that is not smaller than the current one and holds the request |
| `Arenas.AllocatedTight` | Zend/zend_arena.h:52-76 | a block begins where the last one of its arena ended, or at the start of a new arena, and only alignment is lost behind it |
| `Arenas.AllocatedGood` | Zend/zend_arena.h:52-76 | blocks are aligned, inside the used part of an arena and pairwise apart |
| `Arenas.ExtendsTransitive` | Zend/zend_arena.h:93-110 | checkpoints nest |
| `Arenas.DroppedRestores` | Zend/zend_arena.h:98-110 | popping finds the checkpoint's arena, also when blocks touch or the checkpoint is the end of its arena |
| `Arenas.HoldsOnce` | Zend/zend_arena.h:102-108 | at most one arena of a chain holds an address |
| `Arenas.EventKeeps` | Zend/zend_arena.h:33-110 | allocation, checkpoint and release at any depth keep the nesting |
| `Arenas.RunKeeps` | Zend/zend_arena.h:33-110 | over any run, blocks are apart and every checkpoint on the stack can be restored whole |
| `Arenas.Holder.constructor` | Zend/zend_arena.h:33-41 | one arena, unused |
| `Arenas.Holder.Alloc` | Zend/zend_arena.h:52-76 | refines the step of the specification on linked arenas for every size that does not wrap, and says for every size which arenas are left and whether the block holds the request |
| `Arenas.Holder.Checkpoint` | Zend/zend_arena.h:93-96 | the bump pointer of the newest arena |
| `Arenas.Holder.Release` | Zend/zend_arena.h:98-110 | restores the pool of the checkpoint and frees exactly the arenas created since, newest first |
| `Arenas.Holder.Contains` | Zend/zend_arena.h:112-121 | true exactly for header and used bytes of some arena; true for every address of a block handed out |
| `Arenas.Holder.Destroy` | Zend/zend_arena.h:43-50 | gives back every arena once, newest first |
| `MapPtrs.StaticInverse` | Zend/zend_map_ptr.h:74-78 | numbers and positions of static slots determine each other |
| `MapPtrs.StaticWithin` | Zend/zend.c:2143-2143 | the position of a new static slot is its number inside the front chunk |
| `MapPtrs.HandleInverse` | Zend/zend_map_ptr.h:36-39 | handles are odd and no two positions share one |
| `MapPtrs.Prepended` | Zend/zend.c:2133-2142 | a chunk in front and a copy leave every handle with its value |
| `MapPtrs.Table.New` | Zend/zend.c:2112-2126 | one new handle that was not live, null even after a reset; all others as before |
| `MapPtrs.Table.NewStatic` | Zend/zend.c:2128-2147 | likewise for static slots, across growth in front |
| `MapPtrs.Table.Extend` | Zend/zend.c:2149-2164 | the added handles are null, the old ones keep their values |
| `MapPtrs.Table.Remember` | Zend/zend.c:1163-1163 | fixes which dynamic handles a reset keeps; handles and values stay |
| `MapPtrs.Table.Reset` | Zend/zend.c:2107-2110 | exactly the dynamic handles issued since startup end |
| `MapPtrs.Table.Activate` | Zend/zend.c:1377-1379 | dynamic slots become null, static slots stay |
| `MapPtrs.Table.Get` | Zend/zend_map_ptr.h:55-60 | reads the value stored under the handle |
| `MapPtrs.Table.Set` | Zend/zend_map_ptr.h:61-71 | changes the entry of that handle only |
| `MapPtrs.Table.Execute` | Zend/zend.c:2107-2164 | any interleaving refines a run on finite maps, state by state; it stops only at a store under a handle that is not live |
| `MapPtrs.ValueKept` | Zend/zend.c:2107-2164 | over any run, the end of startup included, a handle keeps its value until someone touches it |
| `Modules.SortModules` | Zend/zend_API.c:2484-2516 | on dependencies without cycles the retry loop ends, by turns, with a permutation in which no module still to start precedes one it names |
| `Modules.FindWanted` | Zend/zend_API.c:2495-2513 | the search finds a later dependency if there is one |
| `Modules.OrderedIsRanked` | Zend/zend_API.c:2484-2516 | where the promised order holds, dependencies have no cycle |
| `Modules.OrderNeedsRank` | Zend/zend_API.c:2484-2516 | an arrangement that keeps the promised order gives a rank for the dependencies |
| `Modules.TurnKeeps` | Zend/zend_API.c:2484-2516 | one turn of the loop keeps the modules and what is settled before the cursor, with or without cycles |
| `Modules.SortEndsRanked` | Zend/zend_API.c:2484-2516 | if a run of turns gets to the end, the dependencies have no cycle; on cyclic ones no run ends |
| `Modules.CycleTurns` | Zend/zend_API.c:2484-2516 | two modules that want each other are unsettled in both arrangements, and the swap leads from each to the other |
| `Modules.MutualPair` | Zend/zend_API.c:2484-2516 | such a pair, one module requiring the other and named by it as optional |
| `Modules.SelfRequired` | Zend/zend_API.c:2433-2453 | a module that requires only itself starts |
| `Modules.Registry.StartupModule` | Zend/zend_API.c:2428-2473 | starts exactly if running already or all other requirements run |
| `Modules.Registry.StartupModules` | Zend/zend_API.c:2600-2605 | what stays is what ran before or has all its requirements stay; it runs, in an order that respects requirements, each startup once |
| `Modules.OneSolution` | Zend/zend_API.c:2600-2605 | that rule has one solution |
| `Modules.CollectHandlers` | Zend/zend_API.c:2519-2597 | startup handlers in registry order, the other lists and the class cleanup list in reverse, each ended by a null |
| `Modules.SubExact` | Zend/zend_API.c:2560-2573 | each list holds exactly the modules with the handler, each as often as it is registered |
| `Modules.SubJoin` | Zend/zend_API.c:2560-2573 | in the order of the registry |
| `Modules.CollectClasses` | Zend/zend_API.c:2575-2596 | the internal classes with static members, last first, and a null |
| `ResourceLog.AtMostOnce` | TSRM/TSRM.c:167-189 | no instance is made twice or ended twice, or ended after being passed over |
| `ResourceLog.Monotone` | TSRM/TSRM.c:167-189 | the life of an instance only moves on |
| `Tsrm.Table.constructor` | TSRM/TSRM.c:121-165 | an empty table, nothing reserved |
| `Tsrm.Table.Reserve` | TSRM/TSRM.c:331-335 | the space behind each entry, rounded up, to be given out from its start |
| `Tsrm.Table.ReserveFront` | TSRM/TSRM.c:341-345 | moves a part that is not given out in front of the entry |
| `Tsrm.Table.UpdateActiveThreads` | TSRM/TSRM.c:260-288 | every entry catches up once, in table order, and gets its own blocks |
| `Tsrm.Table.AllocateId` | TSRM/TSRM.c:292-327 | a new id, constructed in every entry |
| `Tsrm.Table.AllocateFastId` | TSRM/TSRM.c:349-365 | refused exactly when the reserved space is too small; the block lies behind the entry, in the reserved space, apart from all given out since it was reserved and from every block in front of the entry |
| `Tsrm.CarvingNew` | TSRM/TSRM.c:358-360 | carving one block more keeps all carved blocks pairwise apart and inside the reserved space |
| `Tsrm.CarvingMore` | TSRM/TSRM.c:292-441 | so does every other registration |
| `Tsrm.Table.AllocateFastIdAt` | TSRM/TSRM.c:368-406 | a new id at a given offset |
| `Tsrm.Table.AllocateTlsId` | TSRM/TSRM.c:409-441 | a new id in native memory, while no other thread has an entry |
| `Tsrm.Table.AllocateNewResource` | TSRM/TSRM.c:450-491 | a new entry with every id that is not freed, in ascending order; freed ids get null |
| `Tsrm.MakesOrder` | TSRM/TSRM.c:467-487 | ids of an entry are made in ascending order, freed ones not, and the constructor is called exactly if the id has one |
| `Tsrm.MakesEvery` | TSRM/TSRM.c:467-487 | every id that is not freed is made |
| `Tsrm.MakesForOrder` | TSRM/TSRM.c:260-288 | a registration does so in every entry, one after the other |
| `Tsrm.MakesForEvery` | TSRM/TSRM.c:260-288 | and leaves out no entry and no new id |
| `Tsrm.FlattenAt` | TSRM/TSRM.c:262-287 | the table is walked bucket by bucket, each chain from its head |
| `Tsrm.Table.FreeResources` | TSRM/TSRM.c:167-189 | ends every instance of the entry, highest id first, native blocks of others excepted |
| `Tsrm.Table.Find` | TSRM/TSRM.c:524-543 | the chain walk finds the thread's entry if it has one |
| `Tsrm.Table.Recycle` | TSRM/TSRM.c:559-576 | a stale entry is freed as foreign and replaced in place |
| `Tsrm.Table.ResourceEx` | TSRM/TSRM.c:494-585 | returns the caller's own block: its native block, the one at the type's offset in its own entry, or the one allocated for that entry and id, and null exactly for a freed id; recursion happens once at most; each case's effect on table and log; never destroys the native block of a dead thread |
| `Tsrm.SlotKinds` | TSRM/TSRM.c:273-278 | what each slot of an entry holds; exactly the blocks allocated one by one are given back |
| `Tsrm.Table.SlotsApart` | TSRM/TSRM.c:260-491 | no two blocks of the table share memory, of two threads or of two ids, unless the ids were given overlapping offsets; ids with space from the reservation never were |
| `Tsrm.Table.FreeThread` | TSRM/TSRM.c:589-620 | the thread's entry goes, with everything it holds, and nothing else; it destroys native blocks of a dead thread if and only if the caller has an entry but no pointer to it, and some native id is not freed |
| `Tsrm.Table.ThreadDies` | TSRM/TSRM.c:545-558 | a thread that goes away leaves its entry and loses its pointer |
| `Tsrm.Table.FreeId` | TSRM/TSRM.c:623-656 | ends one id in every entry that has it and no other instance; its slots are null from then on; it destroys native blocks of a dead thread if and only if the id is native and not freed and that thread has left an entry |
| `Tsrm.Table.Shutdown` | TSRM/TSRM.c:194-247 | every entry left is freed once in table order; nothing stays alive |
| `Tsrm.Table.Execute` | TSRM/TSRM.c:260-656 | any sequence of calls by any threads goes state by state as the calls say, and keeps one entry per thread in its own bucket, full storage, null slots exactly for freed ids, fixed blocks apart and an orderly log; it stops only at a call the source rules out |
| `Tsrm.EndsOrder` | TSRM/TSRM.c:171-186 | ids of an entry are visited in descending order, natives of others passed over |
| `Tsrm.EndsEvery` | TSRM/TSRM.c:171-186 | and every id that is not freed is visited |
| `Tsrm.EndsForOrder` | TSRM/TSRM.c:630-652 | ending an id visits exactly the entries that hold it, calls the destructor exactly if there is one and frees exactly what was allocated one by one |
| `Tsrm.EndsAllOrder` | TSRM/TSRM.c:207-226 | the shutdown visits every entry so, each with its own thread |
| `Tsrm.EndsLife` | TSRM/TSRM.c:167-189 | what freeing an entry does to the life of every instance |
| `Tsrm.StrayFreed` | TSRM/TSRM.c:589-620 | the exact condition under which `ts_free_thread` destroys the native block of a dead thread |
| `Tsrm.StrayFetched` | TSRM/TSRM.c:559-576 | a fetch passes such blocks over |
| `Tsrm.StrayId` | TSRM/TSRM.c:623-656 | what ending an id does to every life, and when it hits native blocks of dead threads |
| `Tsrm.DestroysDead` | TSRM/TSRM.c:589-620 | a run of four calls on a new table: a thread dies, another of the same id frees its resources first, and the native block of the dead one is destroyed |
| `Tsrm.Gone` | TSRM/TSRM.c:167-189 | an instance out of the table was ended, or was native and passed over |

## Left out

- Configuration: 64-bit words, 2 MB chunks, heap protection, statistics and limit on, no debug build, no custom heap or storage; huge blocks are neither truncated nor extended in place, as on a build where those two functions return 0.
- Operating-system memory (mapping calls, huge-page advice, alignment retries), environment parsing, leak reports, the tracking and poisoning heaps.
- Error exits: a call that cannot get memory returns 0 and leaves the heap consistent; what the exit handlers do then is not modelled. `overflow` is a flag nobody sets.
- Full `zend_mm_shutdown`, which gives the heap itself away.
- The random number generator: keys are parameters.
- Counters are unbounded integers; the one subtraction that can wrap (limit minus usage) is taken modulo 2^64. `avg_chunks_count` is a real number.
- The heap structure's own bytes inside the first chunk: its fields are object fields, chunk headers are a table, and only the bytes of blocks and free elements are bytes of memory.
- Page labels are values with fields in the heap model; `Labels` shows that packing loses nothing.
- Calls into the heap from another thread, and interrupts.
- HeapCalls.AllocHuge: does not claim usage within the limit, because the list node is allocated after the check; it claims at most one chunk more, and exactly when.
- ReallocCalls.ReallocHeap: says nothing about the heap after a copy that overran its block.
- Arenas: `zend_arena_calloc`, whose only addition is an overflow check and zeroing; the variant that tracks single allocations.
- Arenas.Holder.Alloc: for a request whose sums wrap around, blocks are not claimed to stay apart; the arenas left and the missing room are stated.
- `map_ptr`: direct pointers in place of handles, copies for new threads, reallocation failure.
- Modules: module globals, the startup function's own effects and its failure, which is fatal; version checks.
- Threads: chains are sequences of entry names rather than linked nodes; mutexes, the unlocked fast-path read as a data race, callbacks that call back, calls that name another thread, allocation failure, debug output, begin and end handlers.
- Tsrm.Table.AllocateTlsId: requires what the source asserts, that no other thread has an entry; without it the code stores the caller's block in foreign entries.
- Tsrm.Table.Reserve: how much memory an entry was allocated with is not recorded; that the space given out lies inside it holds only where the reservation was made before the first entry.
- Tsrm.Table.ReserveFront: requires that the front region fits into what is reserved and not given out; TSRM/TSRM.h:100-102 asks for it right after the reservation.
- Tsrm.Table.AllocateFastIdAt: nothing checks the offset given, so only blocks that end before the entry are apart from the others.
- Tsrm.Table.Shutdown: that only the main thread may do this, and once, is left to the caller.
- Hash tables, strings, objects and the executor, on which the rest of `Zend/zend_API.c` and `Zend/zend.c` rests.
