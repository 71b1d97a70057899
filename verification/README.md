# Memory manager and scheduler of a small x86 kernel

A Dafny model of two cores of the kernel, with proofs about every state and every run.

**The memory manager** (`kernel/memory.c` over `lib/kernel/bitmap.c` and `lib/kernel/list.c`, with the
page directories of `userprog/process.c`). Physical memory is a map from words to values, and the
hardware walk of 32-bit two-level paging (section 4.3 of the Intel SDM, volume 3A) is a function of it.
The page layer is a class whose methods reach directories and tables only through the self-mapping entry
1023, as the source does. Above it, virtual memory is a map of words, the intrusive lists live in those
words, and the arena allocator is a class that reads and writes them.

| file | what it holds |
|---|---|
| `Bitmap.dfy` | `lib/kernel/bitmap.c` over an array of bytes |
| `Paging.dfy` | the hardware walk, `pte_ptr`, `pde_ptr`, what `page_table_add` writes |
| `Agreement.dfy` | bitmaps, page tables and frame pools agree; the updates that keep it |
| `Views.dfy`, `Growth.dfy` | virtual memory as words, and how mapping pages changes it, in every address space |
| `Supply.dfy` | exactly when `malloc_page` has the pages, frames and page tables it needs |
| `Layout.dfy` | `mem_pool_init` |
| `TaskStruct.dfy` | offsets in `struct task_struct` |
| `PageManager.dfy` | the page layer as a class |
| `Frames.dfy` | the three-way agreement and the round trip, without bookkeeping |
| `Lists.dfy` | `lib/kernel/list.c` over words of memory |
| `Heap.dfy`, `HeapSteps.dfy` | the arena invariant and what each kind of step does to it |
| `Accounts.dfy` | which pages the allocator holds and which went to other callers |
| `AllocatorSteps.dfy` | what each stretch of `sys_malloc` and `sys_free` does to words, accounts and clients |
| `Moves.dfy` | what each call does to pages, frames, page tables and free lists, from one state to the next |
| `Allocator.dfy` | `sys_malloc` and `sys_free` as a class |
| `IdealHeap.dfy` | the heap as its clients think of it |
| `Sites.dfy` | the kernel's heap and those of all processes on one page layer do not disturb each other |
| `System.dfy` | whole runs of threads that allocate, free, write, are switched, take pages and create processes |
| `FirstProcess.dfy` | from `mem_init` to the stack of the first process, with the exact amount of memory it takes |

**The scheduler, semaphores and re-entrant locks** (`thread/thread.c`, `thread/sync.c`, the tick handler
of `device/timer.c`), as a transition system for any number of threads and locks. A timer interrupt may
come between any two statements that run with interrupts on; what runs with interrupts off is one step.
A failed ASSERT is a step to nowhere, so a proof that the step exists is a proof that every ASSERT on the
way holds.

| file | what it holds |
|---|---|
| `Sched.dfy` | states, steps and the invariant |
| `SchedInv.dfy` | every step keeps the invariant and passes its ASSERTs, but for the one before `list_pop` at a deadlock |
| `SchedRuns.dfy` | runs, mutual exclusion, lock depth, and lock order |
| `Deadlock.dfy` | the ASSERT before `list_pop` fails exactly at a deadlock, and a run that gets there |
| `SchedTime.dfy` | the waiting bound and round robin |
| `TagLists.dfy` | the ready list, the list of all threads and the waiters of every lock as intrusive lists in memory |
| `SchedMachine.dfy` | the same code as methods that update fields and list words in place |

A memory operation that meets a failed ASSERT or a PANIC returns the reason as a `Stop` value; nothing is
claimed of a stopped kernel. Virtual addresses are word addresses; masks and shifts of unsigned addresses
are written as their quotients and remainders, and `Paging.PtrFields` states the mask form on 32-bit words.

## Where the code and its claims differ

- `bitmap_scan` compares a bit index with the length in bytes and never tests the last window, so its
  contract is about windows with `l + cnt < btmp_bytes_len` (`Bitmaps.Fits`).
- `page_table_add` changes the walk of another address exactly when that address reads the same table
  entry. In the loader's directory entries 0 and 768 share a table, so a mapping at 0xc0000000..0xc03fffff
  shows 3 GB lower too (`Paging.MapPageWalk`, `Paging.BootAlias`).
- `get_a_page` reaches the "PTE REPEAT" panic if and only if the bit of the page is set already and a frame
  is free (`PageManagement.PageStop`); from boot two calls for one page get there
  (`PageManagement.GetAPageTwice`). `malloc_page` cannot.
- The index in `get_a_page` is unsigned and bounded from below only. It lies in the bitmap if and only if the
  address is one of the managed pages (`PageManagement.InBitmap`); otherwise the call sets a bit past the
  bitmap, as `get_a_page(PF_USER, 0x1000)` does in every process (`PageManagement.BelowManaged`).
- `malloc_page` asserts that it did not run out, so the `NULL` returns of its callers are never reached;
  `sys_malloc` returns `NULL` only for a size beyond the pool.
- The ASSERT before `list_pop` in `schedule` can fail. It does if and only if a thread has to wait and none is
  ready, and then the owners of the locks waited for lead round a circle (`SchedRuns.RunKeeps`,
  `Deadlock.StuckIsDeadlock`). Lock order excludes that (`SchedRuns.OrderedRunKeeps`); without it two threads
  and two locks get there in a run from boot (`Deadlock.OutOfOrder`).

## Model

| member | source | states |
|---|---|---|
| Bitmaps.Bitmap.Scan | lib/kernel/bitmap.c:17-34 | returns the least window of clear bits that ends before the byte length, and -1 if and only if there is none |
| Bitmaps.Bitmap.CountFirst | lib/kernel/bitmap.c:21-25 | counts the clear bits of the first window |
| Bitmaps.FitsIs | lib/kernel/bitmap.c:17-34 | a window fits if and only if its bits are clear and it ends before the length in bytes |
| Bitmaps.Slide | lib/kernel/bitmap.c:26-33 | sliding the window keeps the count of its clear bits exact and leaves no earlier window that fits; a count equal to the size is a fit |
| Bitmaps.Bitmap.ScanTest | lib/kernel/bitmap.c:12-16 | reads the bit of the byte-packed view |
| Bitmaps.Bitmap.Set | lib/kernel/bitmap.c:35-44 | changes exactly one bit of the byte-packed view |
| Bitmaps.UnpackUpdate | lib/kernel/bitmap.c:35-44 | or-ing or and-ing one shifted bit into its byte updates that bit alone among all bits |
| Bitmaps.SupplyFits | lib/kernel/bitmap.c:17-34 | the scan finds a single bit if and only if one of the bits it looks at is clear, and taking it leaves one fewer |
| Bitmaps.Bitmap.constructor | lib/kernel/bitmap.c:8-11 | a new bitmap is all clear |
| Paging.SelfMapWalk | kernel/memory.c:75-82 | through entry 1023 the hardware walk of pde_ptr(v) ends at v's directory entry and that of pte_ptr(v) at v's table entry, or faults exactly when v has no table |
| Paging.PtrFields | kernel/memory.c:75-82 | the directory, table and offset fields of both pointers in the masks and shifts of 32-bit words |
| Paging.MapPageWalk | kernel/memory.c:93-117 | after page_table_add v walks to its frame, with or without a new zeroed table, user code may write there unless an older directory entry forbids it, and the walk of w below the window changes if and only if w reads v's entry |
| Paging.BootAlias | boot/loader.S:168-200 | in the loader's directory a kernel mapping in the first 4 MB appears 3 GB lower as well |
| Agreement.MapKKeeps | kernel/memory.c:84-117 | mapping a kernel page to a free frame keeps bitmaps, tables and frame pools in agreement |
| Agreement.MapUKeeps | kernel/memory.c:84-117 | mapping a user page to a free frame keeps the agreement |
| Agreement.AddTableKeeps | kernel/memory.c:108-115 | taking and zeroing a new page table keeps the agreement |
| Agreement.UnmapKKeeps | kernel/memory.c:356-391 | unmapping a kernel page and freeing its frame keeps the agreement |
| Agreement.UnmapUKeeps | kernel/memory.c:356-391 | unmapping a user page and freeing its frame keeps the agreement |
| Agreement.AddSpaceKeeps | userprog/process.c:57-81 | turning a kernel page into the directory of a new process keeps the agreement |
| Agreement.StoreWordKeeps | kernel/memory.c:143-161 | a store to a data frame reaches no directory and no table |
| Agreement.FlagsKeep | kernel/memory.c:93-117 | the accessed and dirty bits that the processor sets are no part of the agreement; the access bits are |
| Frames.BitIffPresent | kernel/memory.c:119-141 | a managed page's bit is set if and only if the hardware finds its entry present |
| Frames.OnePagePerFrame | kernel/memory.c:84-141 | no frame backs two present managed pages, and none of these holds a user page table |
| Frames.FrameBits | kernel/memory.c:84-141 | a frame's bit is set if and only if it backs a present managed page or holds a user page table |
| Frames.KernelHalfShared | userprog/process.c:57-72 | every directory has entries 768..1022 present and walks every kernel address below the window alike |
| Frames.RoundTrip | kernel/memory.c:394-409 | mfree_page after malloc_page restores every bitmap and virtual memory in every address space, but for frames kept as user page tables |
| Views.StoreView | kernel/memory.c:143-161 | virtual memory is flat: a store changes the word at its address and no other, whatever the page tables hold |
| Views.DataWalk | kernel/memory.c:143-161 | the hardware walk of every data page succeeds, at a frame that holds no directory or table |
| Views.UserAccess | kernel/memory.c:93-117 | for every data page of a process below 3 GB the hardware walk for a write by user code, which needs bits 1 and 2 of both entries, succeeds at its frame |
| Growth.GrewTrans | kernel/memory.c:132-139 | mapping adjacent ranges in either order is mapping their union, for bits, frames, words and other address spaces together |
| Growth.ElsewhereSame | kernel/memory.c:93-117 | when the walks of other address spaces and the words of data frames are kept, so is every word of their user halves |
| Supplies.NotEnough | kernel/memory.c:131-139 | a page that finds no frame, or no frame for its page table, shows that the request could not be met from the start |
| Supplies.MissingCounts | kernel/memory.c:93-117 | the page tables to take for a range of pages are as many as directory entries of the range that have none |
| Supplies.AvailableIs | kernel/memory.c:119-141 | in kernel half and user half alike, malloc_page has what it needs if and only if the frames suffice for the pages of the first window and for the page tables it lacks |
| Supplies.AvailableNot | kernel/memory.c:39-73 | and not if there is no window |
| Supplies.SpentNext | kernel/memory.c:93-117 | each page uses one frame, and one more exactly when it is the first to need a page table that was missing |
| Layout.PoolsFit | kernel/memory.c:201-253 | for every memory size the pools do not overlap and lie within memory, every frame a bitmap names is in its pool, and the three bitmaps do not overlap and fit the 0x4000-byte area |
| Layout.PoolsShare | kernel/memory.c:204-224 | up to 258 MB all free pages are in the two pools, shared evenly; beyond, the page count wraps round at 2^16 |
| PageManagement.PageManager.constructor | kernel/memory.c:255-261 | mem_init on the loader's tables establishes the agreement with empty pools |
| PageManagement.PageManager.AddrV2P | kernel/memory.c:195-199 | the entry behind pte_ptr and the offset; for a mapped address what the hardware finds |
| PageManagement.PageManager.Palloc | kernel/memory.c:84-91 | takes the first clear frame bit that the scan looks at, or stops exactly when there is none |
| PageManagement.PageManager.Pfree | kernel/memory.c:356-367 | clears the frame's bit in the pool its address lies in and nothing in the other |
| PageManagement.PageManager.PageTableAdd | kernel/memory.c:93-117 | writes exactly the mapping through the window, takes a table only when the directory entry is absent, panics if and only if the page was mapped, and stops for want of a frame exactly when it needs a table and none is left |
| PageManagement.PageManager.VaddrGet | kernel/memory.c:39-73 | sets exactly the bits of the first window the scan finds, and fails if and only if there is none |
| PageManagement.PageManager.MallocPage | kernel/memory.c:119-141 | succeeds if and only if there is a window of pages and there are frames for them and for the page tables they lack; never panics at "PTE REPEAT"; maps exactly the first such window, keeps the agreement, and leaves all other words, and every word of the user half of every other address space, unchanged |
| PageManagement.PageManager.GetAPage | kernel/memory.c:163-193 | for every address: which of WrongHalf, index 0, overrun, no frame, "PTE REPEAT" and success it ends in, each with its exact condition on the state and the address; on success maps exactly the page of the address |
| PageManagement.PageStops | kernel/memory.c:163-193 | each ending of get_a_page if and only if its condition holds, for kernel threads and processes |
| PageManagement.InBitmap | kernel/memory.c:171-183 | the unsigned index lies in the bitmap if and only if the address is one of the managed pages |
| PageManagement.BelowManaged | kernel/memory.c:172-177 | get_a_page(PF_USER, 0x1000) runs past the bitmap in every process |
| PageManagement.GetAPageTwice | kernel/memory.c:93-117 | from mem_init on, the second get_a_page for a kernel page ends in "PTE REPEAT" |
| PageManagement.PageManager.VaddrRemove | kernel/memory.c:377-391 | clears exactly the bits of the range |
| PageManagement.PageManager.FreePage | kernel/memory.c:370-374 | frees a page's frame and clears the present bit of its entry; read backwards this is a mapping step |
| PageManagement.PageManager.MfreePage | kernel/memory.c:394-409 | unmaps exactly the pages given and keeps the agreement; its ASSERTs fail exactly for no pages or an unaligned address |
| Views.BitIsMapping | kernel/memory.c:39-117 | a managed page is present if and only if its bit is set, so malloc_page finds no entry present |
| PageManagement.PageManager.FillDirectory | userprog/process.c:59-70 | zeroing the page, copying entries 768..1023 and writing the last one gives a directory with the same kernel half and itself at 1023 |
| PageManagement.PageManager.CreatePageDir | userprog/process.c:57-72 | succeeds if and only if there is a kernel page; the new space has no user mapping and the same kernel walks; what the running thread sees, the user halves of all other spaces and the other processes' pools are unchanged |
| PageManagement.PageManager.PageDirActivate | userprog/process.c:36-44 | the directory becomes the frame behind pgdir, or the boot directory for kernel threads |
| Lists.ListInit | lib/kernel/list.c:4-9 | the two sentinels are linked to each other: the list is empty |
| Lists.ListInsertBefore | lib/kernel/list.c:11-18 | the four stores of an insertion |
| Lists.InsertKeeps | lib/kernel/list.c:11-18 | inserting between any two elements inserts into the sequence, with prev and next inverse, and writes words of the list and the element only |
| Lists.UnlinkKeeps | lib/kernel/list.c:25-32 | removing any element removes it from the sequence and writes words of the list only |
| Lists.ListFrame | lib/kernel/list.c:4-79 | a list depends on the words of its own elements only |
| Lists.ListPush | lib/kernel/list.c:19-21 | the element goes to the front |
| Lists.ListAppend | lib/kernel/list.c:22-24 | the element goes to the end |
| Lists.ListRemove | lib/kernel/list.c:25-32 | the element leaves the list wherever it is |
| Lists.ListPop | lib/kernel/list.c:33-39 | returns and removes the first element |
| Lists.ListEmpty | lib/kernel/list.c:41-44 | true exactly for the empty list |
| Lists.ListLen | lib/kernel/list.c:46-56 | terminates with the length |
| Lists.ElemFind | lib/kernel/list.c:70-79 | terminates with membership |
| Heaps.Classes | kernel/memory.c:263-271 | block sizes double from 16 and blocks_per_arena is what fits a page past the 12-byte header |
| Heaps.BlockPlace | kernel/memory.c:273-279 | every block lies in its page past the header, and block2arena and the index recover arena and position |
| Heaps.LiveRegions | kernel/memory.c:281-354 | live regions are pairwise disjoint, hold the requested size, and miss every arena header, every free-list node and the descriptors |
| HeapSteps.ClientWriteStep | kernel/memory.c:281-354 | a client's write inside a live region keeps the allocator's invariant |
| HeapSteps.PopStep | kernel/memory.c:346-352 | popping, clearing and counting out a block keeps the invariant: cnt is the number of free blocks and no arena is left all free |
| HeapSteps.PushStep | kernel/memory.c:430-431 | appending a freed block and counting it in keeps the invariant but for an arena now all free |
| HeapSteps.RefillStep | kernel/memory.c:325-345 | a new arena's blocks are the free list and its cnt is their number |
| HeapSteps.WithoutIsOthers | kernel/memory.c:434-438 | there is only one list that loses an arena's blocks and keeps the others in their order |
| HeapSteps.EvictStep | kernel/memory.c:432-440 | an arena whose blocks are all free leaves the list before its page goes, and no list points into that page |
| HeapSteps.LargeGotStep | kernel/memory.c:305-317 | a large allocation joins the invariant |
| HeapSteps.LargeFreedStep | kernel/memory.c:427-428 | and leaves it |
| Allocation.Allocator.constructor | kernel/memory.c:263-271 | block_desc_init, under the directory of whoever calls it, leaves an empty heap whose invariant holds for the threads of its own directory, and writes the descriptors only |
| Allocation.Memset | kernel/memory.c:309 | zeroes exactly the words of the range |
| Allocation.FillArena | kernel/memory.c:339-343 | every ASSERT that a block is not yet listed holds, and the list ends as blocks 0..n-1 |
| Allocation.Allocator.Refill | kernel/memory.c:325-345 | an empty free list becomes the blocks of a new arena if and only if malloc_page has a page |
| Allocation.Allocator.PopBlock | kernel/memory.c:346-352 | the first free block becomes live and zero |
| Allocation.Allocator.FindClass | kernel/memory.c:320-324 | finds the first class whose blocks hold the size |
| Allocation.Allocator.SysMalloc | kernel/memory.c:281-354 | NULL and no change beyond the pool size; else, if and only if a block of the class is free or malloc_page has the pages, a fresh zeroed region of the first class that fits or of just enough pages; no live region and no word outside the descriptors and the heap's own pages changes; the block is the first of its free list, or of a new arena in the first window, and pages, frames and page tables change by just the pages taken |
| Allocation.EmptyArena | kernel/memory.c:434-438 | every ASSERT that a block is listed holds, and the list loses exactly the arena's blocks, the others in their order |
| Allocation.Allocator.Evict | kernel/memory.c:432-440 | the arena's page goes back and no other live region changes |
| Allocation.Allocator.SysFree | kernel/memory.c:411-443 | stops at NULL; for a live pointer no ASSERT fails, exactly that pointer stops being live, and no other live region and no word outside the descriptors and the heap's own pages changes; the block goes to the end of its free list, and pages go back exactly when the allocation was large or its arena is all free |
| AllocationSteps.ServesSmall | kernel/memory.c:318-345 | a request for a block is served if and only if the first class that holds it has a free block or there is a page |
| AllocationSteps.ServesLarge | kernel/memory.c:303-317 | a larger request is served if and only if there are just enough pages; beyond the pool the answer is NULL |
| AllocationSteps.LiveHeader | kernel/memory.c:427 | desc NULL and large in the header at the page start tell a large region from a block |
| Accounts.NoLeak | kernel/memory.c:411-443 | with nothing live all free lists are empty and the virtual bitmap has exactly the pages that other callers were given |
| Moves.TookStays | kernel/memory.c:93-141 | which frames and page tables a call took is seen from the uses of frames, so later stores to pages in use make no difference |
| Moves.TableOwned | kernel/memory.c:108-115 | a directory has a page table exactly where a frame is in use as that table |
| IdealHeaps.MallocShown | kernel/memory.c:281-354 | sys_malloc does to memory what an ideal heap does: new zeroes, all else kept |
| IdealHeaps.FreeShown | kernel/memory.c:411-443 | sys_free does to memory what an ideal heap does |
| Sites.PrivateApart | kernel/memory.c:281-297 | the descriptors and pages of the heaps of two address spaces have no word in common that both can see |
| Sites.HeapOpKeeps | kernel/memory.c:281-443 | sys_malloc, sys_free or a client's store in one address space keeps the invariant of every other heap and the words it relies on |
| Sites.GrantKeeps | kernel/memory.c:143-193 | pages given by get_kernel_pages, get_user_pages, get_a_page and create_page_dir keep the invariants of all heaps and come from none of them |
| Sites.InitKeeps | userprog/process.c:83-90 | block_desc_init in the PCB of a new process keeps the invariants of all heaps |
| Sites.StoreKeeps | kernel/memory.c:281-443 | so does any store to memory that is not a heap's own |
| Sites.RegionsDiffer | kernel/memory.c:281-354 | no word of a live region is in physical memory a word of another live region, of the same heap or of any other |
| Systems.MemInit | kernel/memory.c:255-261 | after mem_init the system has one address space, an empty kernel heap and no page given |
| Systems.GetPages | kernel/memory.c:143-161 | succeeds if and only if malloc_page has the pages; they are zero and nobody else's |
| Systems.CreatesSteps | userprog/process.c:83-89 | process_execute has room if and only if, in turn, windows of 1, 23 and 1 kernel pages and 25 frames are there |
| Systems.CreatesIs | userprog/process.c:83-89 | that room is 25 frames and windows of 1, 23 and 1 kernel pages |
| Systems.ProcessCount | userprog/process.c:74-89 | a process takes 25 pages, and the 23 of its bitmap hold its bytes with none too many |
| Systems.System.BitmapLength | userprog/process.c:74-81 | the bitmap of every process is as long as these pages hold |
| Systems.ServedIs | kernel/memory.c:119-443 | which acts are served when, act by act |
| Systems.System.HeapsWritable | kernel/memory.c:281-354 | the code of a process may write the words of its live regions |
| Systems.System.OnMalloc | kernel/memory.c:281-354 | sys_malloc by the running thread, kernel thread or process: served if and only if it can be, and all other heaps and clients see nothing |
| Systems.System.OnFree | kernel/memory.c:411-443 | likewise sys_free |
| Systems.System.OnStore | kernel/memory.c:281-443 | a store to a stack, a PCB or any other memory outside the heaps is noticed by no heap and no client |
| Systems.System.SwitchTo | userprog/process.c:36-54 | switching to a thread of another address space keeps every heap, and the directory found from pgdir is that process's |
| Systems.System.TakePages | kernel/memory.c:143-161 | get_kernel_pages or get_user_pages under any directory: new pages, and no heap and no client notices |
| Systems.System.TakeOne | kernel/memory.c:163-193 | likewise get_a_page, with every way it can end |
| Systems.System.Create | userprog/process.c:83-90 | process_execute up to the queues: succeeds if and only if there is room; the new process has an empty heap, its pages are new and the first windows in turn, and no heap and no client notices |
| Systems.System.Do | kernel/memory.c:143-443 | one act of the running thread: it goes on if and only if it can be served, gets what it may, and takes the page layer and the heaps from the state before to the state that `Systems.ActMoves` allows |
| Systems.System.Run | kernel/main.c:36-47 | any run of kernel threads and processes that allocate, free, write, are switched, take pages and create processes, with the trail of states it goes through: in each the heaps read back as their ideal heaps, each act is served and leads to the next state by what its call does, every call gets memory that is nobody else's (zero where the source clears it), and the run stops if and only if the next act cannot be served in the last state of the trail |
| Systems.System.NoOverlap | kernel/memory.c:281-354 | in every state of such a run live regions of all heaps are disjoint in physical memory |
| Systems.System.AllFreed | kernel/memory.c:411-443 | when every allocation of every thread has been freed all free lists are empty, the pages mapped are those handed out by get_kernel_pages, get_user_pages and get_a_page, and the frames in use are theirs and those of user page tables |
| FirstProcesses.FirstRoom | userprog/process.c:83-89 | after mem_init there is room for a process from 26 bytes of kernel bitmap on |
| FirstProcesses.Opening | userprog/process.c:83-89 | process_execute takes 25 kernel frames and no user frame, and the new space has no page and no page table |
| FirstProcesses.FirstProcess | userprog/process.c:13-33 | from mem_init, process_execute, the switch and get_a_page for the stack are all served if and only if the kernel bitmap has 27 bytes, and then the process may write to its stack |
| SchedInvariant.TickKeeps | device/timer.c:28-38 | the tick handler keeps the invariant; its ASSERT on stack_magic and schedule's ASSERTs hold |
| SchedInvariant.ScheduleKeeps | thread/thread.c:86-103 | schedule from the timer keeps exactly one running thread and the ready list a listing of the READY threads |
| SchedInvariant.WaitKeeps | thread/sync.c:19-28 | waiting in sema_down keeps the invariant and passes the ASSERTs of sema_down, thread_block and schedule |
| SchedInvariant.DownKeeps | thread/sync.c:19-32 | every pass of sema_down's loop keeps the invariant, under barging |
| SchedInvariant.UpKeeps | thread/sync.c:34-45 | sema_up keeps the invariant and passes its ASSERTs and thread_unblock's: no wakeup is lost |
| SchedInvariant.BlockingLeavesReady | thread/thread.c:86-103 | whenever a thread blocks some thread is ready, under ranked lock order |
| SchedInvariant.HolderIsCur | thread/sync.c:47-57 | the unlocked test of lock_acquire is true exactly for the thread that holds the lock, wherever other threads are |
| SchedInvariant.AcquiringKeeps | thread/sync.c:47-57 | the branch of lock_acquire keeps the invariant |
| SchedInvariant.HeldKeeps | thread/sync.c:53 | the ASSERT that holder_repeat_nr is 0 holds when the lock is first taken |
| SchedInvariant.MarkingKeeps | thread/sync.c:54 | setting holder_repeat_nr to 1 keeps the invariant, whatever came in between |
| SchedInvariant.ReleasingKeeps | thread/sync.c:62 | the ASSERT on the holder holds for a thread that holds the lock |
| SchedInvariant.TestingKeeps | thread/sync.c:63-67 | the branch on holder_repeat_nr keeps the invariant |
| SchedInvariant.CheckingKeeps | thread/sync.c:68 | the ASSERT that holder_repeat_nr is 1 holds where the branch leads |
| SchedInvariant.ExecuteKeeps | thread/sync.c:19-74 | every statement of lock_acquire and lock_release passes its ASSERTs and keeps the invariant |
| SchedInvariant.StartKeeps | thread/thread.c:68-73 | thread_start up to the ready list keeps the invariant; its ASSERT holds for a new thread |
| SchedInvariant.ListingKeeps | thread/thread.c:74-75 | the append to the list of all threads keeps the invariant and passes its ASSERT, whatever came in between; the thread stands last |
| SchedInvariant.ProcessIsThread | userprog/process.c:91-97 | queueing a process equals thread_start's two appends with no interrupt between them |
| SchedInvariant.ProcessKeeps | userprog/process.c:86-97 | the two appends of process_execute, with interrupts off, keep the invariant and pass both ASSERTs |
| SchedInvariant.StepKeeps | thread/sync.c:19-74 | an enabled step from a state of the invariant exists unless a thread has to wait and none is ready, and keeps the invariant |
| SchedInvariant.RankedKeeps | thread/sync.c:19-74 | steps that take locks in order keep the order |
| SchedRuns.BootKeeps | thread/thread.c:79-112 | the state after thread_init and lock_init, with the main thread at priority 1 and all locks free, satisfies the invariant |
| SchedRuns.RunKeeps | thread/thread.c:86-149 | a run, with a timer interrupt between any two interruptible statements, fails an ASSERT if and only if it comes to a state where a thread has to wait and none is ready |
| SchedRuns.OrderedRunKeeps | thread/thread.c:86-149 | no ASSERT fails in a run that takes locks in order |
| SchedRuns.MutualExclusion | thread/sync.c:19-74 | a semaphore's value plus the number of threads between the end of their sema_down and their sema_up is 1, and a holder is such a thread |
| SchedRuns.NoLostWakeup | thread/sync.c:21-45 | while a lock is free and has waiters, a thread woken from it is running or queued and has still to test the value again |
| SchedRuns.WaitersAreFifo | thread/sync.c:19-45 | a step adds the running thread at the end of a waiter list, or moves its first thread to the front of the ready list, or leaves it |
| SchedRuns.OneList | thread/thread.c:86-149 | a thread's general_tag is in the ready list, in the one waiter list it waits in, or in none, by its status |
| SchedRuns.Settled | thread/sync.c:47-74 | between calls holder is the thread and holder_repeat_nr its nesting depth |
| SchedRuns.DepthSteps | thread/sync.c:47-74 | the depth moves only when lock_acquire or lock_release returns, by one, and for the running thread alone |
| SchedRuns.ReleaseBranches | thread/sync.c:63-74 | lock_release goes on to sema_up exactly at depth 1 |
| Deadlock.StuckIsDeadlock | thread/thread.c:97 | the ASSERT before list_pop fails only at a deadlock: every thread waits for the owner of a lock, and from the one that blocks the owners lead round a circle |
| Deadlock.OutOfOrder | thread/sync.c:19-28 | without lock order a run of two threads from boot gets there |
| SchedTime.TimerLowers | device/timer.c:28-38 | a timer interrupt lowers a queued thread's potential by exactly 1, and at 1 the thread runs |
| SchedTime.ExactWait | device/timer.c:28-38 | with timer interrupts alone a queued thread runs after exactly its potential, and not before |
| SchedTime.TickNIsRun | device/timer.c:28-38 | timer interrupts alone make a run while nobody is on the way out of sema_down |
| SchedTime.BlockWait | thread/thread.c:114-128 | a thread that blocks lowers every other queued thread's potential by what it had left |
| SchedTime.StartWait | thread/thread.c:68-77 | thread_start leaves every potential unchanged |
| SchedTime.ProcessWait | userprog/process.c:91-97 | process_execute leaves every potential unchanged |
| SchedTime.StartBegins | thread/thread.c:41-56 | a new thread has priority and ticks equal to the argument modulo 256, no ticks elapsed, and stands last in the ready list |
| SchedTime.StartsNext | thread/thread.c:68-77 | the thread started next after t waits t's priority + 1 ticks longer than t |
| SchedTime.FirstRound | device/timer.c:28-38 | with timer interrupts alone the first rotation gives a new thread exactly its priority + 1 ticks |
| SchedTime.WakeWait | thread/thread.c:131-149 | a wakeup raises a potential by the woken thread's ticks + 1, at most its priority + 1 |
| SchedTime.StepWait | thread/sync.c:19-74 | no other step raises a potential |
| SchedTime.WaitBound | thread/thread.c:86-149 | in any run a queued thread waits fewer timer interrupts than its potential and what wakeups added |
| SchedTime.RoundRobin | device/timer.c:28-38 | with timer interrupts alone one rotation restores the queue and gives each thread exactly its priority + 1 ticks |
| SchedInvariant.ElapseKeeps | device/timer.c:31-32 | a timer interrupt keeps the sum of elapsed_ticks equal to the global ticks modulo 2^32 |
| SchedTime.TicksAddUp | device/timer.c:28-38 | over any run from boot the elapsed_ticks of all threads add up to the global ticks, and these to the timer interrupts that came, modulo 2^32 |
| TagLists.QueuesApart | thread/thread.h:70-71 | no element of one of the lists shares a word with an element of another, general_tag and all_list_tag of one thread included |
| TagLists.AppendKeeps | lib/kernel/list.c:22-24 | list_append to the ready list, the list of all threads or a lock's waiters appends there and leaves all other lists as they were |
| TagLists.PushKeeps | lib/kernel/list.c:19-21 | list_push puts its thread in front there and leaves all other lists as they were |
| TagLists.PopKeeps | lib/kernel/list.c:33-39 | list_pop takes the first thread out, leaves all other lists as they were, and the tag is in no list then |
| TagLists.TagByStatus | thread/thread.c:86-149 | in memory a general_tag is an element of the ready list if and only if its thread is READY, of a lock's waiters if and only if its thread is BLOCKED on that lock, and of no other list |
| TagLists.SeenEverywhere | userprog/process.c:36-54 | under whatever directory the lists are the same |
| SchedMachine.ListsInit | thread/thread.c:105-109 | list_init of every list leaves each empty and the others alone |
| SchedMachine.Machine.constructor | thread/thread.c:105-112 | thread_init gives the boot state of the transition system, with its lists in memory |
| SchedMachine.Machine.Append | lib/kernel/list.c:22-24 | the ASSERT that the tag is not listed holds, and the stores append it to that list alone |
| SchedMachine.Machine.Push | lib/kernel/list.c:19-21 | the tag is not in the ready list, and the stores put it in front |
| SchedMachine.Machine.Pop | lib/kernel/list.c:33-39 | gives the first thread of the list by elem2entry of its first tag, which is in no list then |
| SchedMachine.Machine.Empty | lib/kernel/list.c:41-44 | true exactly when nobody is queued |
| SchedMachine.Machine.Schedule | thread/thread.c:86-103 | updates the list in memory and the two tasks as the transition system says |
| SchedMachine.Machine.ThreadBlock | thread/thread.c:114-128 | marks the thread and schedules as the transition system says |
| SchedMachine.Machine.ThreadUnblock | thread/thread.c:131-149 | pushes the thread to the front in memory as the transition system says |
| SchedMachine.Machine.SemaDown | thread/sync.c:19-32 | a pass of the loop as the transition system says, with the waiters in memory |
| SchedMachine.Machine.SemaUp | thread/sync.c:34-45 | as the transition system says, with the waiters in memory |
| SchedMachine.Machine.IntrTimerHandler | device/timer.c:28-38 | as the transition system says |
| SchedMachine.Machine.ThreadStart | thread/thread.c:68-73 | init_thread and the first append as the transition system says, with priority and ticks truncated to 8 bits |
| SchedMachine.Machine.ThreadListed | thread/thread.c:74-75 | the second append as the transition system says |
| SchedMachine.Machine.ProcessExecute | userprog/process.c:86-97 | init_thread and both appends as the transition system says |
| SchedMachine.Machine.LockAcquireStatement | thread/sync.c:47-57 | each statement as the transition system says |
| SchedMachine.Machine.LockReleaseStatement | thread/sync.c:60-74 | each statement as the transition system says |
| SchedMachine.Machine.Do | thread/thread.c:86-149 | every enabled step but one into a deadlock keeps the invariant, lands where the transition system says, and leaves the lists of that state in memory |
| SchedMachine.Machine.Run | thread/thread.c:86-149 | so does a whole run that takes locks in order |

## Left out

- Boot code, the context switch itself, interrupt descriptor, segment and task-state tables, port input and output.
- TLB contents and the operand of `invlpg` (`kernel/memory.c:373`); CR3 is the frame of the chosen directory.
- Locks inside the allocator: each of its calls is atomic. The locks alone do not protect the kernel frame
  bitmap, which `page_table_add` reaches from user-side callers too (`kernel/memory.c:109`).
- Systems.System.Run: stores to memory outside the heaps are no acts of a run; `Systems.System.OnStore` shows that
  they may come between any two. What `init_thread` and `thread_create` write in a PCB is such a store.
- Kernel-heap page tables start with their entries absent: the loader does not clear them
  (`boot/loader.S:162-200`), so this is a precondition of the page layer's constructor.
- Systems.System.Create: bitmaps, those of the pools too, are arrays of their own, not words of kernel memory; the
  23 pages of a process's bitmap are taken all the same. Its queues belong to the scheduler (`SchedInvariant.ProcessKeeps`).
- PageManagement.PageManager.GetAPage: an index past the bitmap ends the run; the write behind it is not followed.
- Allocation.Memset: works by words, and every length the allocator passes is a multiple of 4.
- A frame's use is recorded as a history variable (`owner`), and so are the pages given to other callers than
  `sys_malloc` (`taken`); `Frames.dfy` and `Systems.NothingLost` state the results on bitmaps and page tables.
- SchedMachine.Machine.ThreadStart: the page of the PCB is not taken here; the memory manager and the scheduler are two models.
- Semaphores other than those of locks: `sema_up` and `sema_down` assert values 0 and 1, and apart from `device/ide.c`, which is not built, only locks use them.
- Threads block only in `sema_down` of a lock; TASK_WAITING, TASK_HANGING and TASK_DIED are not used.
- SchedMachine.Machine: the words of memory it updates are those of the lists; the other fields of a PCB and of a
  lock are fields of the class. What the threads' PCBs and the locks occupy does not overlap (`TagLists.Sited`).
  `elem_find` in an ASSERT is its result (`Lists.ElemFind`). The directory that `schedule` activates is that of
  `Systems.System.SwitchTo`; the lists are the same under every one.
- Lock depth stays below 2^32, so `holder_repeat_nr` does not wrap.
- `allocate_pid`, `ticks_to_sleep`, `device/ioqueue.c`, `device/keyboard.c`, `device/ide.c`, `device/console.c`,
  `lib/string.c`, `lib/stdio.c` and the system call stubs.
