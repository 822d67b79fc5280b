# A model of the JOS kernel, user library, file server and lwIP buffers

This project models the parts of the system whose correctness rests on invariants
over many operations, and proves those invariants for every input, every run or every
interleaving. All of it is Dafny; `dafny verify dfyconfig.toml` checks the whole project.

| part | files | main results |
|---|---|---|
| virtual memory and page accounting | `Mmu`, `Vm`, `PageTables`, `Kernel` | `Vm.RunKeepsAccounting`, `Vm.FreeEnvEffect`, `Vm.NoNewWriters`, `Kernel.Translated`, `Kernel.Machine.SysPageMap`, `Kernel.Machine.EnvFree`, `Kernel.Machine.Envid2EnvExact` |
| copy-on-write fork | `CowFork`, `CowWrites` | `CowFork.RunRefines`, `CowFork.UnsharedIsolation`, `CowFork.WritersAreAloneInRuns`, `CowFork.SharedMovesIff`, `CowFork.Library.Fork`, `CowWrites.StorableIff`, `CowWrites.ForkGivesAll` |
| lwIP heap | `HeapLayout`, `Heap` | `Heap.Memory.MemMalloc`, `HeapLayout.RunKeepsHeap`, `HeapLayout.LiveDetermines`, `HeapLayout.ReleaseUndoesCarve` |
| file system | `FsLayout`, `FsBitmap`, `FsBlocks`, `FsBytes`, `FsWrite`, `FsRead`, `FsStale`, `FsSpace`, `FileSystem` | `FsStale.WriteIff`, `FsStale.ReadIff`, `FsSpace.WritePanicsIff`, `FsBlocks.GetBlockIff`, `FsBlocks.TruncateExact`, `FileSystem.Volume.FileWrite`, `FileSystem.Volume.WriteThenRead` |
| block cache | `BlockCache`, `FsFlush` | `BlockCache.RunTransparent`, `BlockCache.SyncSurvivesRestart`, `BlockCache.RunPanicsIff`, `FsFlush.FileFlush` |
| pipes | `PipeRing`, `PipeWidth`, `PipeClosed` | `PipeRing.RunIsFifo`, `PipeRing.ReaderDrains`, `PipeWidth.Run32IsFifo`, `PipeClosed.ClosedIsSound`, `PipeClosed.AnswerIff`, `PipeClosed.QuietIsExact` |
| packet buffers | `PbufChain`, `PbufRefs`, `CopyLengths`, `PbufData`, `Pbuf` | `PbufRefs.RunKeepsRefs`, `PbufRefs.FreedExact`, `CopyLengths.CopyIff`, `Pbuf.Pbufs.PbufCopy`, `Pbuf.Pbufs.PbufRealloc` |
| scheduler | `Scheduler` | `Scheduler.Processor.SchedYield`, `Scheduler.Fair`, `Scheduler.Starves` |

Code that updates memory in place is a class whose methods follow the source's
statements and loops. Each method is tied to a function on values (`Vm.Map`,
`HeapLayout.Carve`, `FsBlocks.GetBlock`, `PbufRefs.Freed`, ...), and the promises of the
source are proved about those functions. Protocols that run concurrently (copy-on-write
fork, the pipe's two ends, the closed test) are state machines whose steps are single
system calls or memory accesses, taken in any order. `Common` and `Wrappers` hold what
several parts use.

## How the parts are described

**Virtual memory.** `Vm.State` holds the reference counts, the free list and three flat
maps: page directories, page tables and user pages. `Vm.Inv` says that every unreserved
frame's count is its number of uses and that the free list holds exactly the unused
frames. `Kernel.Machine` holds the words the kernel really has (`pp_ref`, `pp_link`,
page directory and page table entries, the environment table); its ghost field `view` is
the flat state, and `Valid()` says that the words decode to it.

**Copy-on-write fork.** `CowFork.Enabled` and `CowFork.Next` are the steps of memory
writes, page faults, the four stages of `pgfault`, `sys_page_alloc`, `sys_page_unmap`,
`sys_exofork` and the two `sys_page_map` calls of `duppage`. `CowFork.Image` is a machine
that copies every unshared page at once; `CowFork.EventOf` says which eager event each
step stands for, and the copy of a page happens at the step where the parent's own mapping
stops being writable. `CowWrites` is about what must not be lost: that a page can be written,
if need be after a fault, as before.

**Heap.** `HeapLayout.Layout` lists the block starts and their used flags. `Heap.Memory`
has the `next`, `prev` and `used` fields as arrays indexed by offset, and `lfree`.

**File system.** `FsLayout.Fs` holds the free set, the blocks as bytes and the inodes.
`FsLayout.InvBy` names the one owner of every used block; `FsLayout.OneReference` and
`FsLayout.NoneLost` say the same without owners. Words of an indirect block are read from
its bytes, so a stale data block really can be taken for a list of block numbers.
`FsWrite.Write` and `FsRead.ReadFile` are the loops of file_write and file_read on values;
`FsBytes.Roomy` says that the one free block which would become the indirect block of the
file on the way reads as zeros, or that none is needed.

**Packet buffers.** Pbufs live in a store from pointers to records. `PbufChain.Chains`
gives every live pbuf its chain, `PbufRefs.Refs` equates each count with next pointers plus
outside holders.

## Where the code and its documentation differ

The model follows the code.

- `page_lookup` (lab/kern/pmap.c:574) tests `*pte_store` where its comment speaks of
  `pte_store`. `Kernel.Machine.PageLookup` has the value found there as a parameter;
  `page_remove` and `sys_page_map` (lab/kern/syscall.c:285-286) pass an uninitialised
  pointer, taken to be non-null.
- `file_block_walk` is told to clear a block it allocates (lab/fs/fs.c:151) and does not
  (lab/fs/fs.c:172-181). `FsBlocks.GetBlockIff` says exactly when this breaks block
  conservation for one block, and `FsStale.WriteIff` and `FsStale.ReadIff` when whole writes
  and reads break a promise. `FsStale.StaleReached` gets there with a write, a truncation
  and a larger size.
- `ret` is unsigned in `file_block_walk` and `file_get_block` (lab/fs/fs.c:157,
  lab/fs/fs.c:201), so a full disk is not reported but ends in `diskaddr`'s panic. The
  model has that panic as an outcome. `FsBytes.PanicIff` says exactly when one call comes to
  it, with `FsBytes.FullDisk` as an example, and `FsSpace.WritePanicsIff` and
  `FsSpace.ReadPanicsIff` when a whole write or read does.
- The scheduler's scan steps on slot NENV, past the array (lab/kern/sched.c:38,
  lab/kern/sched.c:49-55). That slot is kept with an arbitrary status;
  `Scheduler.OffTheEnd` says exactly when it is chosen.
- `pbuf_free` returns an 8-bit count (lab/net/lwip/core/pbuf.c:456-461), which misleads
  `pbuf_dechain` when exactly a multiple of 256 pbufs is freed (`Pbuf.DechainResult`;
  `Pbuf.DechainMisled` is such a chain).
- `pbuf_cat` adds tot_len fields in 16 bits (lab/net/lwip/core/pbuf.c:581-590), so joining
  chains of more than 65535 bytes breaks the tot_len invariant, and only that does
  (`PbufRefs.CatTotIff`; `PbufRefs.CatOverflows` has two such pbufs).
- `pbuf_copy` takes a pbuf that only empty ones follow for the end of a packet
  (lab/net/lwip/core/pbuf.c:719-730) and gives up there, before its bytes are copied, with
  room enough in the target. `CopyLengths.CopyIff` is the exact condition for chains of any
  lengths, and `Pbuf.CopyRefused` a source of 3, 2 and 0 bytes that stops after 3.
- `_pipeisclosed` compares counts that are equal exactly when one end is gone
  (lab/lib/pipe.c:75-89), as long as every descriptor page has its data page. Fork maps the
  descriptor pages first (lab/lib/fork.c:150-153), one system call at a time, so another
  reader can be told that the pipe is closed while writers are left. `PipeClosed.AnswerIff`
  is the exact condition, and `PipeClosed.ClosedTooSoon` such a run.
- `dup` of a descriptor onto itself does not leave it open: it is closed first, and then there
  is nothing to map (lab/lib/fd.c:184-194). `PipeClosed.Trace.DupAll` has that case.
- The scan starts at environment 0 when the current one has exited (lab/kern/sched.c:33-36), so
  round robin is fair only between environments that do not exit. `Scheduler.Fair` is what
  holds, and `Scheduler.Starves` a run in which one environment never gets its turn.
- PTE_SHARE does not keep a page common if it is also read-only and PTE_COW: the fault
  handler remaps it privately. `CowFork.SharedMovesIff` is the exact condition, and
  `CowFork.ShareCowReached` reaches such a page from boot.
- A heap request within three bytes of 2^32 is rounded to zero and then up to the minimum
  size; `HeapLayout.RoundedFits` says so, and that rounding keeps every other request.
- The positions of a pipe are signed 32-bit numbers (lab/inc/types.h:40) that are only ever
  incremented. `PipeWidth.Run32IsFifo` has the pipe right for the first 2^31 bytes;
  `PipeWidth.StepIff` says exactly which steps go wrong, and `PipeWidth.FallsOff` reaches one.
  Incrementing the largest one, which C leaves undefined, is taken to wrap around.

## Model

| member | source | states |
|---|---|---|
| `Mmu.UserAddressesAreSlots` | lab/inc/mmu.h:30-42 | every page-aligned user address is one directory index and one table index, and different addresses are different pairs |
| `Mmu.LegalPermIs` | lab/kern/syscall.c:221-222 | the permission check of the system calls lets through exactly user read-only and user writable mappings, with any of the three bits left to software |
| `Mmu.BothLevelsEqualTable` | lab/kern/pmap.c:952-964 | if a directory entry's flags cover a table entry's, the check of both levels is the check of the table entry |
| `Vm.RunKeepsAccounting` | lab/kern/pmap.c:379-609 | in every run of env_alloc, sys_page_alloc, sys_page_map, sys_page_unmap and env_free each unreserved frame's count is its number of page table entries, directory entries and directories, the free list is duplicate-free and holds exactly the unreserved frames with count 0, and no reserved frame is free or used |
| `Vm.ApplyKeeps` | lab/kern/syscall.c:207-342 | every one of those operations, also when it fails, keeps the accounting invariant |
| `Vm.PageAllocKeeps` | lab/kern/syscall.c:207-245 | sys_page_alloc fails exactly if there is no free frame for the page, or none besides for a missing table; otherwise it maps a frame nobody used, changes exactly one slot, makes at most its table and keeps every existing one |
| `Vm.PageMapKeeps` | lab/kern/syscall.c:263-316 | sys_page_map fails exactly if the table is missing and no frame is free, also on a page that is mapped already; otherwise it changes exactly one slot to the source's frame and keeps the accounting |
| `Vm.NoNewWriters` | lab/kern/syscall.c:289-300 | no operation gives anybody write access to a frame that is mapped and nowhere writable, until the frame is freed |
| `Vm.UnmapKeeps` | lab/kern/pmap.c:596-609 | removing one page removes exactly that slot and only pushes onto the free list |
| `Vm.MapKeeps` | lab/kern/pmap.c:530-548 | inserting a frame that is neither free nor a table changes exactly one slot and keeps the accounting |
| `Vm.RemapSameFrame` | lab/kern/pmap.c:530-548 | re-inserting the frame already mapped there changes no count and never frees it |
| `Vm.FreeEnvEffect` | lab/kern/env.c:470-518 | env_free leaves no mapping of the environment, frees exactly the frames only it referenced, lowers every other count by its number of uses there and keeps all other address spaces |
| `Vm.ClearTablesEffect` | lab/kern/env.c:488-507 | the two nested loops remove exactly the environment's pages and tables |
| `Kernel.Translated` | lab/kern/pmap.c:952-964 | at every user page the two-level walk gives the frame of the flat map, and a permission bit passes both levels exactly when the flat map grants it |
| `Kernel.CoveredAt` | lab/kern/pmap.c:530-548 | every directory entry's flags cover those of every present table entry under it |
| `Kernel.BootInv` | lab/kern/pmap.c:322-365 | with no environment, a free list of exactly the unreserved frames satisfies the accounting |
| `Kernel.NextIdIsFresh` | lab/kern/env.c:237-241 | environment ids stay positive, carry their slot and never repeat the slot's previous id, also when the generation overflows 32 bits |
| `Kernel.ClaimName` | lab/kern/env.c:237-241 | in a table whose ids carry their slots the new id keeps that, and differs from the slot's last id and from the ids of all other slots |
| `Kernel.Machine.constructor` | lab/kern/pmap.c:322-365 | boot reaches a state with that free list and empty address spaces in which all invariants hold |
| `Kernel.Machine.PageInit` | lab/kern/pmap.c:322-365 | the free list holds exactly base memory but frame 0 and the boot code of the other processors, and extended memory past the kernel, each frame once |
| `Kernel.Machine.EnvInit` | lab/kern/env.c:117-136 | the environment free list is all slots in ascending order |
| `Kernel.Machine.PageAlloc` | lab/kern/pmap.c:379-396 | takes the head of the free list, or fails exactly when it is empty |
| `Kernel.Machine.PageFree` | lab/kern/pmap.c:402-420 | pushes an unused frame on the free list |
| `Kernel.Machine.PageDecref` | lab/kern/pmap.c:426-431 | lowers a count and frees the frame exactly when it reaches 0 |
| `Kernel.Machine.MakeTable` | lab/kern/pmap.c:465-472 | a fresh zeroed frame becomes the table, or none is left and nothing changes; no other frame's words do |
| `Kernel.Machine.PgdirWalk` | lab/kern/pmap.c:455-478 | finds or makes the table of an address; fails exactly when none exists and none may or can be made, and then changes nothing |
| `Kernel.Machine.PageLookup` | lab/kern/pmap.c:561-579 | finds the frame mapped at an address in the flat map, and its entry |
| `Kernel.Machine.PageRemove` | lab/kern/pmap.c:596-609 | the flat map loses exactly that page |
| `Kernel.Machine.CountThenRemove` | lab/kern/pmap.c:530-548 | the new reference is counted before the old mapping goes |
| `Kernel.Machine.SetWords` | lab/kern/pmap.c:530-548 | the two stores into table and directory decode to the flat map with one slot changed |
| `Kernel.Machine.InsertEntry` | lab/kern/pmap.c:530-548 | with a table present, insertion is the flat map's update at one slot |
| `Kernel.Machine.PageInsert` | lab/kern/pmap.c:530-548 | updates exactly one address, or fails for want of a table and changes nothing |
| `Kernel.Machine.EnvSetupVm` | lab/kern/env.c:169-213 | gives an environment an empty user half and the kernel's entries, or fails without a trace |
| `Kernel.Machine.FillDirectory` | lab/kern/env.c:199-210 | the directory's words are an empty user half, the kernel's half and the self-map |
| `Kernel.Machine.EnvAlloc` | lab/kern/env.c:223-285 | takes the first free slot with an id no slot has or had last and an empty address space, or fails without a trace |
| `Kernel.Machine.UnmapAll` | lab/kern/env.c:498-502 | the inner loop of env_free removes exactly one table's pages |
| `Kernel.Machine.FreeTable` | lab/kern/env.c:488-507 | one round of the outer loop also gives back the table |
| `Kernel.Machine.FreeTables` | lab/kern/env.c:488-507 | the outer loop is the flat removal of all pages and tables |
| `Kernel.Machine.FreeDirectory` | lab/kern/env.c:509-512 | the directory is unlinked and its count lowered |
| `Kernel.Machine.FreeSpace` | lab/kern/env.c:470-512 | pages, tables and directory go as in the flat env_free |
| `Kernel.Machine.EnvFree` | lab/kern/env.c:470-518 | the machine's state becomes the flat env_free of it, with exactly the effect FreeEnvEffect states, and the slot returns to the free list |
| `Kernel.Machine.Envid2EnvExact` | lab/kern/env.c:75-109 | a nonzero id finds a slot if and only if that slot is live, has the id and passes the check; every live environment is found by its own id, and no two have the same |
| `Kernel.Machine.AllocInsert` | lab/kern/syscall.c:227-241 | no memory exactly if there is no free frame for the page or a missing table, and then no change; otherwise the first free frame, of zeros, at one slot; every page that was mapped keeps its words |
| `Kernel.Machine.SysPageAlloc` | lab/kern/syscall.c:207-245 | each error code exactly when its condition on arguments, environments and free frames holds; success maps one fresh frame that reads as zeros at one slot, and every page that was mapped keeps its words |
| `Kernel.Machine.LookupInsert` | lab/kern/syscall.c:285-311 | refuses exactly a missing page or a writable mapping of a read-only one; no memory exactly for want of a table, and then no change; otherwise the source's frame at one slot, whatever was there |
| `Kernel.Machine.SysPageMap` | lab/kern/syscall.c:263-316 | each error code exactly when its condition on arguments, environments, the source page and free frames holds; success maps the source's frame at one slot, never writable from a read-only source; every page that was mapped keeps its words |
| `Kernel.Machine.SysPageUnmap` | lab/kern/syscall.c:325-342 | each error code exactly when its condition holds; success removes exactly one slot, and no page's words change |
| `Kernel.Machine.SysExofork` | lab/kern/syscall.c:74-102 | no free environment, no memory or success, each exactly when its condition holds; the child takes the first free slot under a new id, has an empty address space and is not runnable; an error changes nothing |
| `Kernel.Machine.UserStore` | lab/kern/pmap.c:952-964 | a user store faults exactly when the flat map has no writable user page there; otherwise that word of that frame and nothing else changes, and no table or mapping does |
| `HeapLayout.RunKeepsHeap` | lab/net/lwip/core/mem.c:259-605 | in every run of malloc, free and realloc blocks tile the heap in increasing aligned offsets of at least header plus minimum size, and no two neighbours are both free |
| `HeapLayout.CarveKeeps` | lab/net/lwip/core/mem.c:532-593 | allocation keeps the heap well formed |
| `HeapLayout.ReleaseKeeps` | lab/net/lwip/core/mem.c:221-254 | freeing with coalescing on both sides keeps the heap well formed |
| `HeapLayout.ShrinkKeeps` | lab/net/lwip/core/mem.c:355-468 | shrinking keeps the heap well formed |
| `HeapLayout.ReleaseUndoesCarve` | lab/net/lwip/core/mem.c:295-340 | freeing the block just allocated restores the same layout |
| `HeapLayout.CarveLive` | lab/net/lwip/core/mem.c:532-593 | allocation adds one used block and keeps all others; it ends at the request or where the free block ended, with less than a further block to spare, and what is left over stays a free block |
| `HeapLayout.ReleaseLive` | lab/net/lwip/core/mem.c:295-340 | freeing removes exactly the freed block from the used ones |
| `HeapLayout.ShrinkLive` | lab/net/lwip/core/mem.c:355-468 | shrinking moves only the end of its own block: to the request if a free block follows, else so that less than a further block is spare; growing does not move it |
| `HeapLayout.LiveDisjoint` | lab/net/lwip/core/mem.c:479-605 | used blocks never overlap |
| `HeapLayout.LiveDetermines` | lab/net/lwip/core/mem.c:221-254 | a well-formed heap is determined by its used blocks, so what the operations do to those says all they do |
| `HeapLayout.SizesSum` | lab/net/lwip/core/mem.c:259-286 | block sizes always sum to the whole heap |
| `HeapLayout.RoundedFits` | lab/net/lwip/core/mem.c:479-500 | the 32-bit rounding gives the least aligned size of at least the minimum that holds the request, exactly when it does not wrap, and otherwise the minimum block |
| `Heap.NoFitAbove` | lab/net/lwip/core/mem.c:515-519 | the loop guard hides no fitting block |
| `Heap.Memory.constructor` | lab/net/lwip/core/mem.c:259-286 | mem_init makes one free block and the end sentinel |
| `Heap.Memory.PlugHoles` | lab/net/lwip/core/mem.c:221-254 | the headers and lfree become those of merging with both free neighbours |
| `Heap.Memory.ClearUsed` | lab/net/lwip/core/mem.c:319-329 | the block is unused, and lfree is the lowest free block again |
| `Heap.Memory.MemFree` | lab/net/lwip/core/mem.c:294-340 | the arrays become those of the released layout, and lfree its lowest free block; the used blocks are the old ones without this one; NULL and pointers outside the heap change nothing |
| `Heap.Memory.Scan` | lab/net/lwip/core/mem.c:515-533 | starting at lfree finds the lowest fitting block of the whole heap, or ram_end if none fits |
| `Heap.Memory.Advance` | lab/net/lwip/core/mem.c:574-583 | the walk from lfree stops at the lowest free block or at ram_end |
| `Heap.Memory.MemMalloc` | lab/net/lwip/core/mem.c:479-605 | NULL exactly for size 0 or when no free block of the whole heap fits; otherwise the lowest fitting block, cut to the request unless less than a block would be left; the used blocks are the old ones and this one |
| `Heap.Memory.MemRealloc` | lab/net/lwip/core/mem.c:354-468 | fails exactly when asked to grow, and then changes nothing; otherwise the pointer stays and the block ends with less than a further block to spare; pointers outside the heap change nothing |
| `Heap.Memory.MallocThenFree` | lab/net/lwip/core/mem.c:294-605 | freeing what malloc just returned restores the layout and lfree |
| `CowFork.RunRefines` | lab/lib/fork.c:18-169 | in every interleaving of writes, faults and forks by any number of environments, settled pages hold exactly the bytes of the machine that copies eagerly |
| `CowFork.StepRefines` | lab/lib/fork.c:80-112 | each step keeps the invariant and performs the eager event that EventOf names |
| `CowFork.WriteRefines` | lab/lib/fork.c:18-55 | a write to a writable page reaches no other unshared page |
| `CowFork.WritersAreAlone` | lab/lib/fork.c:88-107 | in every state of the invariant a frame that one environment maps writable is mapped by another, runnable one only with PTE_SHARE on both sides |
| `CowFork.WritersAreAloneInRuns` | lab/lib/fork.c:88-107 | so it is in every state of every run from boot |
| `CowFork.UnsharedIsolation` | lab/lib/fork.c:18-55 | no step of any thread changes an unshared page of a runnable environment except its own write, allocation or unmapping of it |
| `CowFork.EagerIsolation` | lab/lib/fork.c:69-79 | in the eager machine a copy starts equal to its source and private pages change only by events on them |
| `CowFork.SharedStays` | lab/lib/fork.c:88-101 | PTE_SHARE pages that are writable or not PTE_COW stay on one frame whatever runs, until their owner reallocates or unmaps them |
| `CowFork.FaultDropsShare` | lab/lib/fork.c:49-52 | the handler's remapping ends on a writable frame no other settled page has, without PTE_SHARE |
| `CowFork.SharedMovesIff` | lab/lib/fork.c:18-101 | some run moves a PTE_SHARE page to another frame, without its owner reallocating or unmapping it, if and only if it is read-only and PTE_COW |
| `CowFork.ShareCowReached` | lab/lib/fork.c:88-101 | a run from boot reaches two environments with one PTE_SHARE page that a write of the first would split |
| `CowFork.DuppageNeverStuck` | lab/lib/fork.c:80-112 | in every interleaving the next system call of duppage is permitted |
| `CowFork.Library.Pgfault` | lab/lib/fork.c:18-67 | the handler is a run of the machine that ends with a private writable copy of the same bytes and every other mapping unchanged |
| `CowFork.Library.Duppage` | lab/lib/fork.c:80-112 | the loop body is a run of the machine after which we and the child both map the page: as it was if it is shared, else read-only, and PTE_COW exactly if it was writable or PTE_COW |
| `CowFork.Library.Fork` | lab/lib/fork.c:130-172 | no permission check stops it; it is a run of the machine that leaves the child all our pages on the same frames with those permissions, a fresh exception stack, and both runnable |
| `CowWrites.StoreIff` | lab/lib/fork.c:33-39 | in a running environment a store goes through or reaches the handler's copy exactly on a page that is writable or PTE_COW |
| `CowWrites.StepStays` | lab/lib/fork.c:88-101 | no step of any thread but the owner's own reallocation or unmapping makes such a page of another or the other way round |
| `CowWrites.RunStays` | lab/lib/fork.c:88-101 | nor does any run of any threads |
| `CowWrites.StorableIff` | lab/lib/fork.c:18-101 | a running environment can come to store to a page it does not replace if and only if the page is writable or PTE_COW, and then after at most one fault |
| `CowWrites.RunMirrors` | lab/lib/fork.c:150-157 | in every state of every run each child in the making has exactly the pages that fork has passed, each as writable as its parent's |
| `CowWrites.ForkGivesAll` | lab/lib/fork.c:130-172 | however a fork was interrupted, the child is made runnable with exactly its parent's pages below the exception stack and one of its own, and can write exactly those its parent can |
| `FsLayout.WordAfter` | lab/fs/fs.c:169-180 | writing one word of a block changes that word only |
| `FsLayout.OneReference` | lab/fs/fs.c:40-85 | no block is in two slots or indirect pointers, and blocks in use are in range and not free |
| `FsLayout.NoneLost` | lab/fs/fs.c:40-85 | every unreserved block that is not free is in some slot or indirect pointer |
| `FsLayout.TakeSlotKeeps` | lab/fs/fs.c:214-227 | a free block put in an empty slot of the file's range keeps conservation |
| `FsLayout.DropSlotKeeps` | lab/fs/fs.c:447-460 | emptying a slot and freeing its block keeps conservation |
| `FsLayout.TakeIndirectKeeps` | lab/fs/fs.c:172-181 | adopting a free block of zeros as the indirect block keeps conservation |
| `FsLayout.DropIndirectKeeps` | lab/fs/fs.c:483-486 | freeing an indirect block without entries keeps conservation |
| `FsBitmap.MarkedSet` | lab/fs/fs.c:40-47 | setting or clearing one bitmap bit adds or removes exactly one free block |
| `FsBitmap.ZeroWordSkips` | lab/fs/fs.c:69-71 | a zero word holds no free block, so skipping 32 is sound |
| `FsBlocks.GetBlockKeeps` | lab/fs/fs.c:196-228 | file_get_block keeps conservation and the bytes of every file when it adopts no stale block |
| `FsBlocks.GetBlockIff` | lab/fs/fs.c:152-228 | it keeps conservation if and only if the block number is below the file's size and the block about to become an indirect block, if any, reads as zeros |
| `FsBlocks.TruncateExact` | lab/fs/fs.c:471-487 | truncation frees exactly the blocks past the new size, plus the indirect block when no longer needed, and keeps all other slots and bytes of all files |
| `FsBlocks.SurplusInUse` | lab/fs/fs.c:447-460 | every block truncation frees was in use |
| `FsBlocks.ResizeKeeps` | lab/fs/fs.c:490-498 | resizing keeps conservation; growing takes no block; shrinking frees exactly the surplus and keeps the slots and bytes below the new size and of all other files |
| `FsBytes.PanicIff` | lab/fs/fs.c:196-228 | file_get_block panics if and only if the slot has no block and the disk is full, or full but for the block that becomes the indirect block, or that block is stale and its entry is past the disk |
| `FsBytes.FullDisk` | lab/fs/fs.c:196-228 | a full volume on which the first block of a file panics |
| `FileSystem.Volume.BlockIsFree` | lab/fs/fs.c:29-37 | the bit test is membership in the free set |
| `FileSystem.Volume.FreeBlock` | lab/fs/fs.c:40-47 | adds one block to the free set and panics exactly for block 0 |
| `FileSystem.Volume.AllocBlock` | lab/fs/fs.c:57-85 | takes the lowest free block, or fails exactly when there is none |
| `FsWrite.WriteRight` | lab/fs/fs.c:421-443 | without a stale block a write of any length keeps its promises: conservation, every byte outside the range, the size, and buf in the range; it is refused exactly past the largest file |
| `FsRead.ReadRight` | lab/fs/fs.c:392-414 | without a stale block a read returns the bytes of the file and changes none, and panics only if a slot in the range has no block |
| `FsStale.WriteIff` | lab/fs/fs.c:152-228 | a completed write keeps its promises if and only if it writes nothing or adopts no stale indirect block, whatever else it stores on the way |
| `FsStale.ReadIff` | lab/fs/fs.c:152-228 | a completed read keeps its promises on exactly that condition |
| `FsStale.StaleReached` | lab/fs/fs.c:172-181 | from a volume of zeros, after a write, a truncation and a larger size, one call of file_get_block breaks conservation and a write and a read of one byte break their promises |
| `FsSpace.WritePanicsIff` | lab/fs/fs.c:421-443 | without a stale block a write panics if and only if there are fewer free blocks than slots without one in its range, plus one for the indirect block if the file has none and needs it |
| `FsSpace.ReadPanicsIff` | lab/fs/fs.c:392-414 | and so does a read |
| `FsSpace.GetTakes` | lab/fs/fs.c:196-228 | file_get_block fills that slot only and takes one block for it and one for a new indirect block |
| `FsStale.DoomedBreaks` | lab/fs/fs.c:152-228 | after the adoption of a stale block there are fewer blocks for the slots visited than slots, so conservation, an old reference or a slot's block is lost |
| `FileSystem.Volume.FileBlockWalk` | lab/fs/fs.c:152-186 | each result exactly when its condition holds; the pointer is the slot of that block number |
| `FileSystem.Volume.FileGetBlock` | lab/fs/fs.c:196-228 | performs GetBlock on the volume's state; a panic without stale blocks leaves no free block |
| `FileSystem.Volume.FileFreeBlock` | lab/fs/fs.c:447-460 | clears one slot and frees its block, and keeps conservation |
| `FileSystem.Volume.FileTruncateBlocks` | lab/fs/fs.c:471-487 | frees exactly the surplus blocks and keeps conservation |
| `FileSystem.Volume.FileSetSize` | lab/fs/fs.c:490-498 | performs Resized on the volume's state, with exactly that effect; growing changes nothing but the size and needs no conservation |
| `FileSystem.Volume.WriteChunk` | lab/fs/fs.c:432-440 | one round performs Round on the volume's state |
| `FileSystem.Volume.FileWrite` | lab/fs/fs.c:421-443 | on any volume performs Write; without a stale block a complete write leaves the range holding buf, the size the maximum of both ends, and every other byte in an allocated block of any file unchanged, and a panic leaves no free block |
| `FileSystem.Volume.ReadChunk` | lab/fs/fs.c:404-411 | one round performs GetBlock and appends that block's bytes |
| `FileSystem.Volume.FileRead` | lab/fs/fs.c:392-414 | on any volume performs ReadFile; without a stale block it returns the file's bytes of the range, as many as the size allows, and changes no byte of any file |
| `FileSystem.Volume.WriteThenRead` | lab/fs/fs.c:392-443 | without a stale block, reading back a complete write returns exactly what was written and needs no block |
| `BlockCache.RunTransparent` | lab/fs/bc.c:30-111 | through any run of loads, stores, flushes and syncs the cache behaves as plain memory, and a mapped clean page always equals its disk block |
| `BlockCache.FaultInKeeps` | lab/fs/bc.c:30-77 | faulting a block in adds that block, clean, and changes no view |
| `BlockCache.FlushKeeps` | lab/fs/bc.c:86-111 | flushing changes no view, puts that block and no other on the disk, and leaves it clean and cached |
| `BlockCache.SyncKeeps` | lab/fs/fs.c:523-529 | syncing from block i puts exactly the blocks from i on on the disk as viewed, and leaves them clean |
| `BlockCache.SyncSurvivesRestart` | lab/fs/fs.c:523-529 | a restart straight after fs_sync loses no store to any block but block 0 |
| `BlockCache.RunPanicsIff` | lab/fs/bc.c:38-76 | a run panics if and only if it comes to the first access to a block that is out of range or free at that time |
| `BlockCache.RunCaches` | lab/fs/bc.c:38-76 | after a run exactly the blocks cached before it and those accessed in it are cached |
| `BlockCache.DiskaddrRoundTrip` | lab/fs/bc.c:5-12 | diskaddr panics exactly for block 0 and past the end, and every address in its page leads back to the block |
| `BlockCache.Cache.BcPgfault` | lab/fs/bc.c:30-77 | keeps the view, panics exactly on a bad address, a missing block or a free block, and adds the page clean |
| `BlockCache.Cache.Write` | lab/fs/bc.c:20-26 | a store is the memory store of the model, with PTE_D set |
| `BlockCache.Cache.FlushBlock` | lab/fs/bc.c:86-111 | the disk gets that block as viewed and no other, the page is clean, and the view stays |
| `BlockCache.Cache.FsSync` | lab/fs/fs.c:523-529 | every block from 1 on is on the disk as it was viewed and clean, and the view stays |
| `FsFlush.FileFlush` | lab/fs/fs.c:504-519 | with a cache that shows the volume's bytes, every block of the file, its inode's block and its indirect block end on the disk with those bytes, and the cache still shows them all |
| `PipeRing.RunIsFifo` | lab/lib/pipe.c:104-172 | in every interleaving of one reader and one writer the pipe holds 0 to 32 bytes and the bytes read are the first bytes written, in order |
| `PipeWidth.StepIff` | lab/lib/pipe.c:104-172 | a step on signed 32-bit positions is the step on unbounded ones if and only if the index is not negative and the writer's unsigned sum has not wrapped alone |
| `PipeWidth.Run32IsFifo` | lab/lib/pipe.c:104-172 | in every interleaving on 32-bit positions the pipe is a FIFO of at most 32 bytes while fewer than 2^31 bytes have been written |
| `PipeWidth.FallsOff` | lab/lib/pipe.c:165-168 | a run from an empty pipe reaches a store before the start of the buffer, after 2^31 + 1 bytes |
| `PipeRing.NothingLost` | lab/lib/pipe.c:104-172 | the ring holds exactly the bytes written and not yet read |
| `PipeRing.WaitsIff` | lab/lib/pipe.c:116-165 | the reader waits exactly at an empty pipe and the writer exactly at a full one |
| `PipeRing.WriteSends` | lab/lib/pipe.c:151-168 | with room in the pipe the writer's next steps append one byte |
| `PipeRing.ReaderDrains` | lab/lib/pipe.c:115-134 | from every reachable state the reader alone gets every byte sent, without waiting |
| `PipeRing.StoreExtends` | lab/lib/pipe.c:165-168 | storing before advancing appends exactly one byte |
| `PipeRing.Pipe.DevpipeRead` | lab/lib/pipe.c:104-137 | a nonempty pipe gives its first min(n, available) bytes without waiting; an empty one gives end of file or a wait |
| `PipeRing.Pipe.DevpipeWrite` | lab/lib/pipe.c:139-172 | appends all bytes if there is room, else fills the pipe and waits, or gives up when no reader is left |
| `PipeClosed.ClosedIsSound` | lab/lib/pipe.c:75-89 | in every interleaving of dup, close, page-by-page fork and destruction the pipe page's count is exactly that of the descriptors with their data page plus the data pages on their own, only a child that cannot run yet lacks a data page, and an answer of closed given when none is lacking means that no descriptor of the other end is open anywhere |
| `PipeClosed.AnswerIff` | lab/lib/pipe.c:75-89 | the answer is closed if and only if the descriptors of the other end and the data pages on their own are as many as the descriptors without their data page, and wrong if and only if that end has some |
| `PipeClosed.ClosedTooSoon` | lab/lib/fork.c:150-153 | a run from pipe() in which a fork is interrupted and a reader is told that the pipe is closed with two writers left |
| `PipeClosed.Trace.ForkAll` | lab/lib/fork.c:150-167 | a fork without interruption gives the child every descriptor with its data page and changes nobody else's |
| `PipeClosed.Trace.DupAll` | lab/lib/fd.c:174-202 | dup without interruption closes the new number and opens it for the same end with its data page if both system calls succeed; otherwise, or onto itself, it leaves it closed; nothing else changes |
| `PipeClosed.Trace.CloseAll` | lab/lib/pipe.c:185-190 | close without interruption unmaps exactly the descriptor and its data page |
| `PipeClosed.Trace.ProbeAll` | lab/lib/pipe.c:74-89 | the test without interruption compares the two counts and changes nothing; it is exact if every descriptor has its data page and every data page its descriptor |
| `PipeClosed.ExitCloses` | lab/kern/env.c:470-518 | destruction unmaps exactly the environment's descriptors and data pages, and an end is then gone if and only if nobody else had it |
| `PipeClosed.GoneStays` | lab/lib/fd.c:174-202 | an end without descriptors never gets one back |
| `PipeClosed.QuietIsExact` | lab/lib/pipe.c:75-89 | with no dup or close under way and no descriptor without its data page the counts are equal if and only if the other end is gone |
| `PipeClosed.OnlyChildrenLack` | lab/lib/fork.c:150-167 | that is so of every descriptor whose environment can run |
| `PipeClosed.CountsIff` | lab/lib/pipe.c:75-89 | what equal counts mean in any state, and that with every data page there they mean that the other end is gone |
| `PipeClosed.NurseryKeeps` | lab/lib/fork.c:150-153 | a page mapped in a child that cannot run yet keeps the invariant |
| `PipeClosed.BornKeeps` | lab/lib/fork.c:166-167 | the child that is made runnable has all its data pages |
| `PipeClosed.CloseKeeps` | lab/lib/pipe.c:185-190 | unmapping descriptor then data keeps every open descriptor backed |
| `PipeClosed.MapKeeps` | lab/lib/fd.c:190-196 | mapping data then descriptor keeps every open descriptor backed |
| `PipeClosed.SwitchKeeps` | lab/kern/env.c:595-604 | a context switch changes env_runs, so counts read before it are never taken for a snapshot |
| `PipeClosed.DescriptorPages` | lab/lib/fd.c:6-33 | fd2num inverts INDEX2FD, and descriptor and data pages of valid numbers never meet |
| `PbufChain.TotIsLength` | lab/net/lwip/include/lwip/pbuf.h:71-78 | under the tot_len invariant every tot_len is the number of bytes to the end of the chain |
| `PbufChain.PokedFlat` | lab/net/lwip/core/pbuf.c:703-703 | a store into one pbuf is a store into the chain's bytes |
| `PbufRefs.RunKeepsRefs` | lab/net/lwip/core/pbuf.c:456-659 | in every run of new, ref, cat, chain, free and dechain each live pbuf's count is its next pointers plus outside holders, and chains never become circular |
| `PbufRefs.StepKeeps` | lab/net/lwip/core/pbuf.c:456-659 | each operation keeps that |
| `PbufRefs.FreedExact` | lab/net/lwip/core/pbuf.c:480-518 | freeing removes exactly the maximal prefix of pbufs with count 1 and takes one count off the next pbuf |
| `PbufRefs.FreedKeeps` | lab/net/lwip/core/pbuf.c:480-518 | along the chain, freeing settles exactly the pointer that was dropped |
| `PbufRefs.CatFlat` | lab/net/lwip/core/pbuf.c:573-595 | the joined chain carries the bytes of both |
| `PbufRefs.CatTotIff` | lab/net/lwip/core/pbuf.c:573-595 | the tot_len invariant survives joining if and only if the total fits in 16 bits |
| `PbufRefs.CatOverflows` | lab/net/lwip/core/pbuf.c:573-595 | two pbufs of 40000 bytes whose chain has a wrong tot_len |
| `CopyLengths.CopyIff` | lab/net/lwip/core/pbuf.c:679-732 | for chains of any lengths with room enough, pbuf_copy succeeds if and only if the source has one pbuf, a last one that is not empty, or two of which the first fits in the target's first with target left; and the target does not end in empty pbufs, or its last full pbuf is not reached, or is the first of two and filled at once |
| `CopyLengths.PlainCopies` | lab/net/lwip/core/pbuf.c:693-731 | from any point of the loop, a source without an empty tail is copied unless the target's last full pbuf is reached with empty ones after it |
| `Pbuf.CopyRefused` | lab/net/lwip/core/pbuf.c:719-723 | chains of 10 and of 3, 2 and 0 bytes on which it stops after 3 |
| `PbufData.GrowIsTrim` | lab/net/lwip/core/pbuf.c:289-300 | adding the negative difference in 16 bits subtracts it |
| `Pbuf.DechainResult` | lab/net/lwip/core/pbuf.c:649-658 | the 8-bit count tells freed from alive exactly when it is not a nonzero multiple of 256 |
| `Pbuf.DechainMisled` | lab/net/lwip/core/pbuf.c:649-658 | a chain of 257 pbufs whose remainder is freed as a whole and returned as alive |
| `Pbuf.FreedAll` | lab/net/lwip/core/pbuf.c:174-181 | a chain of pbufs held once each is freed as a whole |
| `Pbuf.Pbufs.PbufRef` | lab/net/lwip/core/pbuf.c:550-560 | one more holder and one more count, or nothing for NULL |
| `Pbuf.Pbufs.FreeOwed` | lab/net/lwip/core/pbuf.c:477-521 | the loop performs Freed, returns pool elements to the pool and the number freed modulo 256 |
| `Pbuf.Pbufs.PbufFree` | lab/net/lwip/core/pbuf.c:456-522 | a holder gives up the head: performs Freed and keeps all counts right; NULL frees nothing |
| `Pbuf.Pbufs.PbufCat` | lab/net/lwip/core/pbuf.c:572-595 | joins the chains, moves the caller's hold to the link, and passes its own assertion |
| `Pbuf.Pbufs.ChainTail` | lab/net/lwip/core/pbuf.c:613-620 | joins the chains and leaves the caller its hold; a NULL head or tail is joined to nothing |
| `Pbuf.Pbufs.PbufDechain` | lab/net/lwip/core/pbuf.c:630-659 | the head becomes a chain of its own, the rest loses one count, freed pool elements return to the pool, both assertions pass |
| `Pbuf.Pbufs.PbufCopyPartial` | lab/net/lwip/core/pbuf.c:743-779 | exactly the bytes from offset to the smaller of offset + len and the end |
| `Pbuf.Pbufs.PbufCopy` | lab/net/lwip/core/pbuf.c:679-732 | on all chains that share no pbuf: refuses exactly a NULL or too short target; otherwise exactly as many of the source's bytes as the loop on lengths says are at the start of the target, the target keeps its own after them, nothing else changes, and it succeeds exactly when the lengths fit |
| `Pbuf.Pbufs.PbufRealloc` | lab/net/lwip/core/pbuf.c:268-327 | the chain keeps its first new_len bytes and the tot_len invariant in as few of its pbufs as hold them; the rest goes as pbuf_free lets it, pool elements return to the pool, and other pbufs stay |
| `Pbuf.Pbufs.PbufAllocPool` | lab/net/lwip/core/pbuf.c:142-207 | fails exactly when the pool has fewer elements than header room and length fill, and then gives every element back; otherwise a chain of exactly the requested length with the tot_len invariant, every payload inside its element, the first behind the header room, and none but the last with room left |
| `Pbuf.NeededFirst` | lab/net/lwip/core/pbuf.c:160-172 | the number of elements is what header room and length fill together, but at least one |
| `Scheduler.FoundIsFirst` | lab/kern/sched.c:33-57 | the scan picks an environment if and only if it is the first runnable one in circular order after curenv and slot NENV is not in the way |
| `Scheduler.OffTheEnd` | lab/kern/sched.c:41-57 | slot NENV is chosen if and only if it looks runnable and no environment above curenv is |
| `Scheduler.ScanCovers` | lab/kern/sched.c:41-57 | a scan that finds nothing has looked at every environment but curenv |
| `Scheduler.FoundIsChosen` | lab/kern/sched.c:41-57 | what the scan finds is the environment whose turn it is, or slot NENV exactly if that leads the scan astray |
| `Scheduler.NoneIsChosen` | lab/kern/sched.c:58-61 | when it finds nothing, no other environment is runnable and only curenv can go on |
| `Scheduler.Fair` | lab/kern/sched.c:33-61 | an environment that stays runnable until it is chosen is chosen within as many yields as it is places away, at most NENV - 1, if no current environment exits meanwhile |
| `Scheduler.Starves` | lab/kern/sched.c:33-36 | with exits it need not be: for any number of yields, each after an exit, an environment can be runnable throughout and never chosen |
| `Scheduler.Processor.EnvRun` | lab/kern/env.c:573-608 | switches curenv, makes the old one runnable only if it was running, and counts the run |
| `Scheduler.Processor.Scan` | lab/kern/sched.c:33-57 | the loop finds the first runnable slot it visits |
| `Scheduler.Processor.SchedYield` | lab/kern/sched.c:11-61 | runs an environment if and only if it is first in circular order after curenv, or no other is runnable and it is curenv and still running; halts if and only if neither holds of any and slot NENV is not in the way; exactly the switch of env_run happens |

## Left out

- Boot loader, console, IDE, PCI, network card and interrupt controller code: port input and output without visible semantics. The disk is a sequence of blocks.
- Kernel self-tests, user programs, the shell, DHCP, DNS, sockets and the TCP/IP protocols.
- lab/lib/malloc.c, lab/fs/fsformat.c and lab/fs/serv.c: they would add easier members next to the same mechanisms.
- Directory lookup, creation and growth: inodes are a table of records of their own, and their place inside directory blocks is only the `home` argument of `FsFlush.FileFlush`.
- Kernel: reference counts are unbounded where `pp_ref` has 16 bits, permissions are the low 12 bits of an entry, and TLB invalidation, trap frames and ELF loading are not modelled.
- Kernel.Machine.LookupInsert: the pointer that `sys_page_map` leaves uninitialised is taken to be non-null as well.
- Kernel.Machine.PageRemove: the pointer that `page_remove` leaves uninitialised is taken to be non-null; with a null one `page_lookup` stores nothing and the source writes through it.
- Kernel: runs stay on live environments; destruction of an environment running on another processor is not modelled.
- CowFork.RunRefines: sharing pages through sys_page_map or IPC outside of fork is not part of these runs, copying a page in the fault handler is one step, and a run stops where a system call would fail for want of memory.
- CowFork.RunRefines: PFTEMP belongs to the fault handler; programs do not use that page themselves.
- CowFork.Library.Fork: takes the three reads of `uvpt[pn]` in duppage as one read, and is the run without interruption; `CowFork.RunRefines` and `CowFork.DuppageNeverStuck` cover interruption between all later steps.
- Heap: what programs do with the bytes inside their blocks is not modelled, so headers change only through these functions; requests are below 2^32.
- Heap.Memory.MemFree: a pointer into the heap that is not the start of a used block is not passed; the source asserts that.
- Heap.Memory.MemRealloc: the same holds for its pointer.
- FsStale.WriteIff: superblock, bitmap and inodes are not kept in the blocks of `mem`, so a store through a stale entry that names one of those blocks does not act on them here as it would in the source; the only-if half does not speak of such volumes.
- FileSystem.Volume.FileWrite: the same on volumes with such a stale entry; offsets and sizes are natural numbers without 32-bit overflow, and what a panic leaves behind is not specified.
- FileSystem.Volume.FileRead: the same; a read of a hole gets a block whose bytes are unspecified.
- FileSystem.Volume.FileSetSize: its flush of the inode's block is left to the cache model, where a flush never changes the view.
- PipeRing.RunIsFifo: positions are natural numbers; `PipeWidth` relates them to the 32 bits of the source. There is one reader and one writer.
- PipeClosed.ClosedIsSound: starts when pipe() has returned, with descriptor numbers below 32; the error paths of pipe() are not modelled, and a fork ends before a system call of its own fails.
- Pbuf.Pbufs.PbufCopy: for chains that share no pbuf.
- Pbuf.Pbufs.FreeOwed: counts are unbounded where `ref` has 16 bits.
- Pbuf.Pbufs.PbufAllocPool: the pool case only; RAM, ROM and REF pbufs appear as `PbufRefs.New`. Payload bytes of a new pbuf are unspecified in the source and 0 here.
- Pbuf: an LWIP_ASSERT that fails stops this configuration; where one guards an argument the model has the value the function would return next.
- Pbuf: packet queues, pbuf_header and the interrupt protection around counts are not modelled.
- Scheduler.Fair: for stretches in which no current environment exits; `Scheduler.Starves` shows why. There is one processor.
