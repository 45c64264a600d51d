# Keyronex kernel: a verified model of its core

This project models the parts of the Keyronex kernel that keep the most state and proves what
they are meant to guarantee. Objects the kernel updates in place are classes whose methods
carry out the same steps; protocols that run on several processors or threads at once are state
machines, one step for each stretch the kernel does under one lock.

- `VmemSegments`, `VmemIndex`, `Vmem`: the resource arena (segment queue, size-class freelists,
  hash of allocations), with allocation, freeing and adding of spans.
- `ForkCow`, `ForkRefinement`, `ForkAccounting`, `ForkMachine`: anonymous memory under fork.
  Every run of faults, stores, loads, evictions and forks is compared with a machine that copies
  all memory at each fork.
- `Dispatcher`, `DispatcherInvariant`, `DispatcherSafety`, `DispatcherProgress`, `DispatchObject`:
  wait blocks, signals, mutexes, semaphores, run queues, context switches and thread exit.
- `Buddy`, `BuddyRegions`, `BuddyAllocator`: the page-frame database and its buddy lists.
- `PageLedger`, `ResidentPages`: page use and queue counters, reference counts, stealing and
  admission.
- `PageTables`, `PageTableCounts`, `PageTableWalker`, `RangeWalk`, `PageTablePaths`: wiring of page
  tables, their counts, and the sparse walk over an address range.
- `WorkingSet`: the working-set list with its free chain and its hash of shared pages.
- `NameCache`, `NameCacheTree`: the cache of names with its references and LRU queue.
- `Epoll`, `EpollSafety`, `EpollProgress`, `EpollReports`, `Console`: poll watches on the console
  and its input ring.
- `Rcu`, `RcuEarly`, `RcuProgress`: read-copy-update generations and callbacks.
- `Calendar`: dates and weekdays from day numbers.
- `ExecStack`: the stack a program starts on.
- `Numbers`, `Counting`, `Options`, `Queues`: shared arithmetic, sizes of sets, optional values
  and sequences without repetition.

`dafny verify dfyconfig.toml` checks everything.

## What the proofs found

In these places the code does less than its comments or its own assertions ask for. The model
follows the code, and each has a lemma that says exactly when it happens.

- The test `addr + size <= end` in `vmem_xalloc` wraps in 64 bits (`FitsWordExact`,
  `FitsWordWraps`), and an arena can hand out a request it has no room for (`WrapServed`).
- A write to a shared fork page that makes a copy never gives back the reference its entry held
  on the old frame: a frame's count is too high by exactly the number of copies made from it
  (`RunSurplus`; `ForkLeaks` is a run that makes one).
- A fork drops the hardware dirty bit of a written page without recording it in the frame, so a
  later eviction takes the page for clean (`StepMarked`, `ForkForgetsWrite`).
- `page_free` leaves the free mark of the second buddy set when it merges, exactly when the test
  before its first merge passes (`FreePagesAt`). The walk of `vmp_page_unfree` finds the heads of
  all free blocks exactly when no frame inside one is marked (`WalkExact`); after two frees it
  stops at a frame that is on no list (`LeaveMark`). The kernel unfrees frames only at boot, before
  any are freed.
- `page_free` merges a block only if a block of the region once started at its head, as no other
  frame records how far it may grow (`FreePagesAt`). Two buddies freed lower one first stay
  apart, and a block of both cannot be had (`StaysSplit`).
- `nc_retain` takes a name off the LRU queue without lowering the count of inactive names. The
  count stays within its bound all the same, so trimming always finds a name (`Release`,
  `Lookup`); but the queue's room shrinks for good by one with each idle name taken up again
  (`Hold`, `Lookup`), until no idle name is kept at all (`NoRoomLeft`, `LoseRoom`).
- An RCU callback promoted during a generation that another CPU has already gone through, with no
  quiescent point of that CPU since the callback was registered, can be retired before it goes
  through one (`RipeExactly`, `WaitsForAll`, `EarlyRetires`, `Retired`), and a second promotion in
  one generation trips the assertion (`AssertExactly`, `AssertionFails`).
- `civil_from_days` overflows 32-bit integers on the last 719468 days (`CivilInWord`). The kernel
  calls it only with days from a 64-bit count of nanoseconds, which do not reach that far.

## Model

| member | source | states |
|---|---|---|
| VmemSegments.ArenaUnique | kernel/vm/vmem.c:62-75 | two well-formed segment queues (adjacent segments meet, no two free ones adjacent, each span tiled) with the same spans and the same live allocations are equal |
| VmemSegments.SplitKeeps | kernel/vm/vmem.c:339-371 | splitting a free segment keeps the queue well formed, adds exactly one live allocation and its size, and changes no span |
| VmemSegments.CoalesceKeeps | kernel/vm/vmem.c:500-593 | freeing with both merges keeps the queue well formed, removes exactly one live allocation and its size, and changes no span |
| VmemSegments.FreeHoldsNoLive | kernel/vm/vmem.c:412-482 | no live allocation overlaps a free segment, so what an allocation is given is nobody's |
| VmemIndex.FreelistIndexMonotone | kernel/vm/vmem.c:149-174 | size classes are monotone: a search from the request's own class up passes over no large enough segment |
| Vmem.SearchComplete | kernel/vm/vmem.c:437-472 | if no segment on the freelists from the request's class up passes the test, no free segment of the arena that is large enough does |
| Vmem.FitsWordExact | kernel/vm/vmem.c:466-468 | the fit test on 64-bit words agrees with the fit on integers if and only if the end of the request does not wrap to or below the segment's end |
| Vmem.FitsWordWraps | kernel/vm/vmem.c:466-468 | a request that wraps is accepted by a segment ending far below it |
| Vmem.VmemArena.constructor | kernel/vm/vmem.c:300-326 | a new arena is one free span, or empty for size 0, with nothing allocated |
| Vmem.VmemArena.Add | kernel/vm/vmem.c:252-298 | a span that overlaps no other is put in address order and is free as a whole; live allocations and the total stay |
| Vmem.VmemArena.XAlloc | kernel/vm/vmem.c:412-482 | an address inside a free segment with the wanted alignment and bounds, exactly one live allocation more; refused, with nothing changed, only if no free segment has room; misplaced only if some segment's test wraps |
| Vmem.VmemArena.XFree | kernel/vm/vmem.c:500-593 | succeeds exactly for a live base with a matching size (0 matches any), removes just that allocation, and otherwise changes nothing |
| Vmem.VmemArena.ResizeFree | kernel/vm/vmem.c:484-498 | a free segment takes its new bounds and stands on the freelist of its new size class |
| Vmem.SameQueue | kernel/vm/vmem.c:500-593 | arenas with the same spans and live allocations have equal queues and totals, whatever led there |
| Vmem.AllocThenFree | kernel/vm/vmem.c:412-593 | freeing what was just allocated restores the segment queue exactly |
| Vmem.WrapServed | kernel/vm/vmem.c:453-472 | a whole arena whose search accepts a request at the top of the address space that no segment of it can hold |
| Vmem.FreeInEitherOrder | kernel/vm/vmem.c:500-593 | freeing two addresses in either order gives equal queues |
| ForkRefinement.FaultQuiet | kernel/vm/fault.c:558-951 | every fault on anonymous memory keeps the invariant and changes no byte any process reads |
| ForkRefinement.FaultProgress | kernel/vm/fault.c:558-951 | a fault that reports success brings the access nearer: one for a read, at most two for a write to a shared page; a failed one changes nothing |
| ForkRefinement.FaultAnswer | kernel/vm/fault.c:558-951 | a fault fails if and only if the process has no memory there, is fatal if and only if the mapping forbids the write, reports a page shortage if and only if nothing is there yet or a page shared by several is to be written and no frame is to be had, and otherwise succeeds |
| ForkRefinement.TwoFaults | kernel/vm/fault.c:558-951 | with frames to be had, one fault lets a permitted read through and two any permitted access |
| ForkRefinement.StoreSeen | kernel/vm/fault.c:364-415 | a store through a writeable entry is seen by its process at that page and by nobody else |
| ForkRefinement.ForkKeeps | kernel/vm/fork.c:240-297 | a fork trips no assertion, keeps every count, gives the child the parent's memory and changes nobody else's |
| ForkRefinement.StepRefines | kernel/vm/fork.c:145-297 | every operation keeps the invariant and the simulation by the machine that copies at fork |
| ForkRefinement.RunRefines | kernel/vm/fork.c:145-297 | over every run the loads return what the copying machine returns |
| ForkRefinement.ForkRefinesCopying | kernel/vm/fork.c:145-297 | from fresh processes copy-on-write cannot be told from copying, and every fork page's count is the number of entries that refer to it, every process's private count right |
| ForkAccounting.StepSurplus | kernel/vm/fault.c:364-415 | a frame's references beyond its mappings grow by one when it is copied from and at no other step |
| ForkAccounting.RunSurplus | kernel/vm/fault.c:364-415 | over every run they are exactly the number of copies made from the frame |
| ForkAccounting.ForkLeaks | kernel/vm/fault.c:364-415 | a run of a touch, a fork and a write after which a frame has one reference more than mappings |
| ForkAccounting.StepMarked | kernel/vm/fork.c:91-128 | a frame known to be written stays known under every step if and only if the step is not a fork of a process with an unrecorded writeable mapping of it |
| ForkAccounting.ForkForgetsWrite | kernel/vm/fork.c:91-128 | a run after which a written frame is unmapped, unreferenced and not dirty |
| ForkMachine.AddressSpaces.ForkDirtyFault | kernel/vm/fault.c:364-415 | the last sharer takes the page over, any other gets a copy, and without a free frame nothing changes |
| ForkMachine.AddressSpaces.DoFault | kernel/vm/fault.c:558-951 | the in-place fault handler computes the specified fault, and succeeds if and only if the mapping allows the access and no frame is needed that is not to be had |
| ForkCow.CowPrivate | kernel/vm/fork.c:74-128 | converting one private page and giving it to the child keeps every count right up to the parent's, gives the child the page's bytes and changes no other byte anybody reads |
| ForkMachine.AddressSpaces.CowPagesOf | kernel/vm/fork.c:145-238 | the loop over the parent's pages computes the specified pass and fails exactly where the supply of fork pages would run out |
| ForkMachine.AddressSpaces.ForkProcess | kernel/vm/fork.c:240-297 | the in-place fork succeeds, the child reads what the parent reads, all others what they read before |
| ForkMachine.AddressSpaces.EvictPage | kernel/vm/ws.c:355-410 | the page is no longer mapped there, its frame has one reference less and is dirty if it was or the entry was writeable; no other entry changes, and nothing anybody reads |
| DispatcherSafety.StepSafe | kernel/kern/wait.c:12-276 | in every reachable state every step of any thread or processor satisfies the kernel's assertions and keeps the invariant |
| DispatcherSafety.RunKeeps | kernel/kern/wait.c:12-276 | so does every run |
| DispatcherSafety.Conservation | kernel/kern/wait.c:95-119 | over every run the tokens an object starts with and those its releases ask for are left, have ended a wait, or are a thread's that has not returned yet; an unlocked object with tokens has no waiters |
| DispatcherSafety.StepTokens | kernel/kern/semaphore.c:27-56 | a release of n raises the count by n, a release to at most one by one if it is 0 and otherwise not, a mutex release by one; only a wait that returns counts as one ended |
| DispatcherSafety.SleeperAccounted | kernel/kern/wait.c:61-119 | a sleeping waiter is on its object's queue or in exactly one releaser's hands, never both; queued on an unlocked object there is no token for it |
| DispatcherSafety.MutualExclusion | kernel/kern/mutex.c:18-34 | at most one thread has acquired a mutex and not released it; it is the recorded owner and no token is left |
| DispatcherSafety.OnePlace | kernel/kern/sched.c:135-263 | every thread that is not idle is on one processor, or once on one run queue, or on neither because it sleeps, has ended or has not started |
| DispatcherSafety.SwitchOutFirst | kernel/kern/sched.c:155-220 | while a processor still switches away from a thread no other runs, queues or wakes it |
| DispatcherSafety.SleeperReady | kernel/kern/wait.c:12-21 | when a waker has a sleeper's lock the sleeper has finished switching out |
| DispatcherProgress.StepDrops | kernel/kern/wait.c:12-276 | every step that goes on with a wait, a release, a wake-up or a switch under way lowers a bound on the steps left |
| DispatcherProgress.Settles | kernel/kern/wait.c:12-276 | after any run, once nothing new comes in, the dispatcher is at rest within that bound; then every processor runs a thread outside it, and whoever sleeps is queued on an object without tokens |
| DispatcherProgress.RunsInOrder | kernel/kern/sched.c:135-263 | a reschedule puts the running thread at the end of the run queue and takes the first; woken and started threads go to the front; the idle thread runs only if nobody else can |
| DispatcherProgress.ServesInOrder | kernel/kern/wait.c:95-225 | a wait that finds no token joins the end of its object's queue, and a release with a token takes the first |
| DispatchObject.DispatchHeader.TryToSatisfy | kernel/kern/wait.c:61-93 | the two compare-and-swaps answer by the waiter's status and leave it satisfied, its block acquired or deactivated |
| DispatchObject.DispatchHeader.Signal | kernel/kern/wait.c:95-119 | the first waiters, as many as there are tokens, are satisfied in order and given one each; the sleepers among them are returned for waking |
| DispatchObject.DispatchHeader.Release | kernel/kern/semaphore.c:27-40 | tokens added equal tokens left plus waiters served from the head |
| DispatchObject.DispatchHeader.ReleaseMaxOne | kernel/kern/semaphore.c:42-56 | a positive count stays as it is; otherwise the first waiter is given the token, and woken if it sleeps, or the token is left |
| DispatchObject.DispatchHeader.ReleaseMutex | kernel/kern/mutex.c:18-34 | the first waiter becomes the owner, or nobody and the token is back |
| Buddy.Disjoint | kernel/vm/resident.c:212-253 | no two blocks of the frame database overlap |
| Buddy.BuddyIsHead | kernel/vm/resident.c:416-453 | the buddy whose fields a merge reads is never inside another block |
| BuddyRegions.OrderFor | kernel/vm/resident.c:221-233 | the order computed for a frame is the largest that its alignment and the region's end allow |
| BuddyAllocator.FreedBuddy | kernel/vm/resident.c:416-453 | the buddy of a block that may grow is the block after it, and its mark says whether it is free |
| BuddyAllocator.PageFrameDatabase.RegionAdd | kernel/vm/resident.c:212-253 | a region becomes aligned blocks, all its frames free, and the counters grow by its size |
| BuddyAllocator.PageFrameDatabase.FindHead | kernel/vm/resident.c:255-268 | stepping back by recorded orders ends at the head of the free block that holds the page |
| BuddyAllocator.PageFrameDatabase.PageUnfree | kernel/vm/resident.c:255-305 | exactly the aligned page leaves the free frames, wired; every assertion on the way holds |
| BuddyAllocator.PageFrameDatabase.RangeUnfree | kernel/vm/resident.c:307-324 | any free range of an added region is removed, no more and no less, whatever was removed before |
| BuddyAllocator.PageFrameDatabase.AllocPages | kernel/vm/resident.c:354-408 | the top of the first block of the smallest sufficient order leaves the free frames; nothing is given exactly when no free block is large enough; marks stay sound and free memory as little split as before |
| BuddyAllocator.PageFrameDatabase.FreePagesAt | kernel/vm/resident.c:416-476 | exactly the block's frames become free again; it has merged with each buddy that was free in turn, up to the first that was not or to the order its head records, which is 0 where no block of a region started; sound marks stay sound if and only if the test before the first merge fails, and otherwise the buddy stays marked inside the merged block |
| BuddyAllocator.WalkExact | kernel/vm/resident.c:255-268 | the walk back finds the head of every free frame's block if and only if no frame inside a free block is marked |
| BuddyAllocator.LeaveMark | kernel/vm/resident.c:423-453 | two frames allocated and freed leave a marked frame inside a free block, where the walk stops though no list holds it |
| BuddyAllocator.StaysSplit | kernel/vm/resident.c:423-453 | two buddies allocated and freed, the lower one first, are both free and not merged, and a block of both cannot be had |
| PageLedger.ChangeKeeps | kernel/vm/resident.c:48-77 | a change of use, references or dirtiness keeps both ledgers and both queues right |
| PageLedger.TwoLedgers | kernel/vm/resident.c:48-77 | counting by use and counting by state give the same number of frames |
| ResidentPages.ResidentPageManager.Retain | kernel/vm/resident.c:512-536 | one reference more; the page is on no queue, and no other page leaves one |
| ResidentPages.ResidentPageManager.Release | kernel/vm/resident.c:547-597 | one reference less; with the last the page is freed if deleted, and otherwise goes to the end of the modified or of the standby queue by dirtiness; refused if and only if it is the last reference to a page wired by the kernel, to a top-level page table or to a prototype page table |
| ResidentPages.ResidentPageManager.Delete | kernel/vm/resident.c:478-502 | an idle page is freed at once, another marked deleted |
| ResidentPages.ResidentPageManager.StealFirst | kernel/vm/resident.c:729-788 | the first standby page leaves both ledgers and one frame becomes free |
| ResidentPages.ResidentPageManager.Alloc | kernel/vm/resident.c:332-408 | refused exactly when it need not be had and free plus standby pages are very low; a single page is otherwise always had, short of nothing free and nothing to steal |
| ResidentPages.Admission | kernel/vm/vmp_dynamics.h:10-22 | when pages are not very low but free ones are low there is a standby page to steal |
| ResidentPages.LedgersAgree | kernel/vm/resident.c:48-77 | in every state total frames are wired, free, active, modified and standby ones together, the use counters sum to the last three, and exactly the unreferenced pages are queued, by dirtiness |
| ResidentPages.CountersByUse | kernel/vm/resident.c:48-77 | in every state each counter by use is the number of frames in the blocks of exactly the uses it is named for |
| ResidentPages.CountersByState | kernel/vm/resident.c:512-597 | the active, modified and standby counters are the numbers of frames in blocks referred to, unreferenced and dirty, and unreferenced and clean |
| PageTableCounts.WireRestores | kernel/vm/tables.c:195-503 | in every state where counts match entries and wirings, for every address and every mix of valid, transition and missing tables, releasing what was wired restores every entry and count and frees exactly the tables made |
| PageTableCounts.PteDeletedKeeps | kernel/vm/tables.c:107-171 | zeroing an entry keeps every table's counts equal to its entries and wirings; the tables freed, one above the other, are unwired and below the root |
| PageTableCounts.UnmapKeeps | kernel/vm/tables.c:107-171 | after unmapping, every table below the root has an entry or is wired |
| PageTableCounts.WireHolds | kernel/vm/tables.c:240-533 | a wiring that succeeds holds every table on the path, and the plain lookup finds the same leaf table |
| PageTableCounts.MapKeeps | kernel/vm/tables.c:74-94 | a new entry in a wired table, counted, keeps every count right, and zeroing it again restores the tables exactly |
| PageTableWalker.AddressSpace.NoteDeleted | kernel/vm/tables.c:107-171 | the loop up the tables computes the specified cascade |
| PageTableWalker.AddressSpace.ReleaseWiring | kernel/vm/tables.c:196-215 | the loop from the lowest table up computes the specified release |
| PageTableWalker.AddressSpace.WirePte | kernel/vm/tables.c:240-503 | the loop down the levels computes the specified wiring, with the level of a missing entry as its answer |
| RangeWalk.AbsentRange | kernel/vm/amd64/vmp_amd64.h:254-262 | a table missing at a level is missing for the whole range of that level's entry |
| RangeWalk.SkipTo | kernel/vm/fork.c:159-193 | going on at the next address the missing level's entries start at passes over no mapped page |
| RangeWalk.WalkRange | kernel/vm/fork.c:145-238 | the walk visits, in order and once each, exactly the pages of the range that have a leaf table, each with its own entry, and leaves every table as it was |
| PageTablePaths.WireAnswers | kernel/vm/tables.c:240-503 | a wiring ends at the leaf table that is there; where one is missing at level l it needs l - 1 frames, ends at the last table made, and otherwise answers with the level it could not fill |
| PageTablePaths.IndexesTell | kernel/vm/amd64/vmp_amd64.h:254-262 | two addresses are in one page if and only if they have the same index at every level |
| PageTablePaths.OwnEntry | kernel/vm/tables.c:505-533 | different pages have different page-table entries |
| PageTablePaths.VisitsApart | kernel/vm/fork.c:145-238 | a walk of a range visits no page-table entry twice |
| WorkingSet.SomeLive | kernel/vm/ws.c:173-247 | when the free chain does not hold every entry some entry is live, so the victim search ends |
| WorkingSet.WorkingSetList.constructor | kernel/vm/ws.c:51-76 | an empty list with every entry on the free chain |
| WorkingSet.WorkingSetList.HashInsert | kernel/vm/ws.c:78-92 | an entry is hashed if and only if one of its four slots is empty; nothing else changes |
| WorkingSet.WorkingSetList.HashRemove | kernel/vm/ws.c:122-136 | a hashed entry is always found within its four slots |
| WorkingSet.WorkingSetList.HashLookup | kernel/vm/ws.c:94-120 | the hashed search with its fallback finds exactly what a search of the whole list finds |
| WorkingSet.WorkingSetList.Insert | kernel/vm/ws.c:173-247 | the page becomes resident; below the limit, or when it may grow, nothing leaves, otherwise exactly the first page the hand comes to does, and the hand moves past it; no page is in two entries after it if and only if this one was not in the list, or was the one that left |
| WorkingSet.WorkingSetList.Remove | kernel/vm/ws.c:249-277 | exactly that page leaves |
| WorkingSet.WorkingSetList.Trim | kernel/vm/ws.c:303-333 | as many pages as asked for leave, or all; they are those the hand passes, and no other entry changes |
| NameCache.DropKeeps | kernel/vfs/namecache.c:100-130 | dropping a reference keeps counts, places and queue right: an idle node is queued, an idle root freed |
| NameCache.ReleaseKeeps | kernel/vfs/namecache.c:198-202 | releasing a handle keeps the cache right |
| NameCache.TrimKeeps | kernel/vfs/namecache.c:132-164 | trimming a queued node removes it from its directory, keeps the cache right and touches no handle |
| NameCache.TakeKeeps | kernel/vfs/namecache.c:183-196 | taking a reference, to a queued node too, keeps the cache right |
| NameCache.LookupKeeps | kernel/vfs/namecache.c:204-267 | a lookup answers as the file system does, from a positive entry, a negative one or none, and hands out one handle exactly when there is something |
| NameCache.LookupCaches | kernel/vfs/namecache.c:204-267 | the answer is in the cache afterwards, negative or not, under one new node if it was not there and under none if it was |
| NameCache.MakeRootKeeps | kernel/vfs/namecache.c:269-287 | a new root keeps the cache right |
| NameCacheTree.RunKeeps | kernel/vfs/namecache.c:100-287 | in every run each count is the handles plus the cached children, exactly the idle nodes are queued, and every cached answer is the file system's |
| NameCacheTree.TrimLeaves | kernel/vfs/namecache.c:132-164 | what a trim leaves is unchanged; the queue loses that node and may gain its directory at the end |
| NameCacheTree.BusyHeld | kernel/vfs/namecache.c:289-308 | with none of its nodes queued, every node of a file system has a handle at or below it |
| NameCacheTree.NameTree.Hold | kernel/vfs/namecache.c:183-196 | one handle more to that node and to no other, off the queue; the counter drifts by one exactly if it was queued |
| NameCacheTree.NameTree.ReleaseInternal | kernel/vfs/namecache.c:100-130 | the in-place operation computes the specified one |
| NameCacheTree.NameTree.DoTrim | kernel/vfs/namecache.c:132-164 | the in-place operation computes the specified one |
| NameCacheTree.NameTree.TrimLru | kernel/vfs/namecache.c:166-181 | takes names off the front of the queue, the rest keeping their order; brings the counter within its bound if and only if its drift is within it, and otherwise runs out of queue |
| NameCacheTree.NameTree.Release | kernel/vfs/namecache.c:100-130 | gives one handle back, to that node and to no other, and trims, always with success: the counter ends within its bound; what stays is unchanged |
| NameCacheTree.NameTree.Lookup | kernel/vfs/namecache.c:204-267 | gives the file system's answer and trims after a new negative entry, always with success: the counter ends within its bound; a name found queued makes it drift by one |
| NameCacheTree.NoRoomLeft | kernel/vfs/namecache.c:183-196 | once the counter has drifted to its bound no idle name is kept |
| NameCacheTree.LoseRoom | kernel/vfs/namecache.c:183-196 | with the bound of 1 that takes one name looked up, released and looked up again |
| NameCacheTree.NameTree.RemoveVfs | kernel/vfs/namecache.c:289-308 | ends, and leaves of the file system only nodes with a handle at or below them |
| EpollSafety.StepKeeps | kernel/executive/epoll.c:133-262 | every step of a delivery, a watch being added, a scan, a reader or an arriving byte keeps the invariant |
| EpollSafety.NothingMissed | kernel/executive/epoll.c:224-262 | in every run a registered watch that wants input while a byte is unread, or wants output, is on its ready list or an activity is still to put it there, and while the ready lock is free a ready list that is not empty has its event signalled |
| EpollSafety.QuietReady | kernel/executive/epoll.c:366-411 | with every activity through, such a watch is on its ready list and its event is signalled |
| EpollProgress.NoDeadlock | kernel/executive/epoll.c:68-88 | under the documented lock order, if an activity is under way some activity can proceed |
| EpollProgress.Finishes | kernel/executive/epoll.c:133-262 | left to themselves the activities end within a bound, and then every such watch is on its ready list and its event is signalled |
| EpollReports.ReportsHonest | kernel/executive/kconsole.c:186-197 | in every run a report is exactly what the watch wants of what was there when it was polled: input if a byte was unread, and output |
| EpollReports.LeavesUnready | kernel/executive/epoll.c:366-411 | in every run a watch leaves its ready list only after a scan polled it, when it wants no output and no byte was unread or it wants no input |
| EpollReports.EventExact | kernel/executive/epoll.c:366-411 | in every run, while the ready lock is free, the event is signalled if and only if the ready list is not empty |
| EpollReports.RunWatches | kernel/executive/epoll.c:133-181 | in every run there is one watch at most for a file and descriptor, and each is on the pollhead or about to be put there |
| EpollReports.AddExact | kernel/executive/epoll.c:133-181 | a watch is refused if and only if there is one for the same file and descriptor |
| Console.InputRing.Input | kernel/executive/kconsole.c:39-58 | a byte goes to the end of what is unread, or is dropped exactly when 4096 are |
| Console.InputRing.TakeByte | kernel/executive/kconsole.c:89-125 | the oldest unread byte comes out; with Input in any order bytes read are the bytes accepted, in order |
| Console.InputRing.Read | kernel/executive/kconsole.c:89-125 | as many of the oldest bytes as asked for or are there; refused exactly when there are none |
| Console.PollInstance.MakeReady | kernel/executive/epoll.c:170-176 | the watch is on the ready list once and the event is signalled |
| Console.PollInstance.ProcessReady | kernel/executive/epoll.c:366-411 | a front part of the ready list is polled; exactly the watches with something they want are reported, with that and in order, and stay, the others leave; it stops early only at the maximum; the event is cleared exactly when nothing is left |
| Rcu.StepKeeps | kernel/kern/rcu.c:28-154 | every step of any CPU keeps the invariant |
| Rcu.RipeExactly | kernel/kern/rcu.c:76-86 | a current batch may be retired if and only if the CPUs whose bits were set at its promotion have gone through a quiescent point since |
| Rcu.GracePeriod | kernel/kern/rcu.c:42-131 | in every run each CPU's callbacks are its run, past, current and next ones in order of registration, and none but an early one is past or run before every CPU went through a quiescent point since it was registered |
| Rcu.RipeWaited | kernel/kern/rcu.c:76-86 | a batch that waits for all and is retired was waited for by all since its promotion |
| Rcu.WaitsForAll | kernel/kern/rcu.c:88-118 | a callback is not early if and only if it is promoted between generations, or every other CPU is still to go through the one in progress or has gone through a quiescent point since it was registered |
| Rcu.EarlyRetires | kernel/kern/rcu.c:50-118 | an early callback can be retired without the CPU that makes it early going through a quiescent point since it was registered |
| Rcu.OnePlace | kernel/kern/rcu.c:121-154 | in every run a registered callback is at one place of one CPU's lists and at no other |
| Rcu.AssertExactly | kernel/kern/rcu.c:106-112 | the assertion at a promotion holds if and only if nothing was promoted before in the generation in progress |
| Rcu.ClearBitIs | kernel/kern/rcu.c:28-74 | clearing the last bit moves the generation on, by two or more if a batch waits for the one after; clearing another changes nothing but the bit |
| Rcu.RcuDomain.Quiet | kernel/kern/rcu.c:42-119 | the whole pass of one CPU is the three specified steps, stopping exactly where the assertion fails |
| Rcu.RcuDomain.ProcessPast | kernel/kern/rcu.c:121-131 | the past callbacks run once each in order, and nothing else changes |
| RcuProgress.Retires | kernel/kern/rcu.c:42-119 | in every run a callback promoted at one step is retired or run by the time every CPU has gone through a quiescent point since and its own CPU has looked again |
| RcuProgress.PromotesAll | kernel/kern/rcu.c:88-118 | a CPU with no current batch promotes everything registered on it, and another keeps both lists |
| RcuEarly.Retired | kernel/kern/rcu.c:42-119 | a run of three CPUs after which a callback is retired though CPU 0 went through no quiescent point since it was registered |
| RcuEarly.AssertionFails | kernel/kern/rcu.c:106-112 | a run of three CPUs after which the assertion fails |
| Calendar.CivilIsCalendar | kernel/kern/clock.c:174-192 | on every day before or after 1970 the formula gives the date reached by stepping the proleptic Gregorian calendar of section 3.2.1 of ISO 8601:2004 day by day |
| Calendar.CivilNext | kernel/kern/clock.c:174-192 | one day later is the calendar's next date |
| Calendar.CivilInjective | kernel/kern/clock.c:174-192 | different days have different dates |
| Calendar.CivilInWord | kernel/kern/clock.c:174-192 | as a function of 32-bit integers its first sum overflows exactly on the last 719468 days, and otherwise no intermediate value does |
| Calendar.WeekdayAdvances | kernel/kern/clock.c:194-198 | the weekday is 4 on day 0, lies in 0 to 6 and moves on by one modulo 7 each day |
| ExecStack.ImageDecodes | kernel/executive/exec.c:113-169 | the stack image read as section 3.4.1 of the System V AMD64 ABI says gives back the arguments, the environment and the auxiliary vector with tags 5, 4, 3 and 9 |
| ExecStack.UserMemory.CopyoutArgs | kernel/executive/exec.c:113-169 | the words lie at a 16-byte boundary below the strings without overlap, in the ABI's order, and no byte outside the image changes |
| ExecStack.UserMemory.PushPointers | kernel/executive/exec.c:150-164 | the pointer words are the addresses of the strings pushed, in order |
| ExecStack.WordRoundTrip | kernel/executive/exec.c:137-140 | a word stored as little-endian bytes reads back |

## Left out

- Vmem.VmemArena.XAlloc: leaves open what the code does to a segment that the wrapped test lets pass. Imports from a backing source, `vmem_xrealloc`, `vmem_destroy` and the supply of segment tags are not modelled; the address hash is an arbitrary function.
- ForkRefinement.ForkRefinesCopying: anonymous memory only. Object faults, swap, page-in, the busy flag, TLB and cache maintenance are not modelled, and eviction is of anonymous pages.
- DispatcherSafety.StepSafe: waits are for one object without a time-out. Multi-object, zero-timeout and timed waits, `ke_semaphore_reset` and timers are not modelled. A mutex starts without an owner, and preemption happens outside the dispatcher, which raises the interrupt level.
- DispatchObject.DispatchHeader.Signal: the wake queue is a sequence; the reuse of intrusive links is not modelled.
- BuddyAllocator.PageFrameDatabase.RegionAdd: the database's memory is taken to start out zero, and page-frame number 0 belongs to no region.
- BuddyAllocator.PageFrameDatabase.RangeUnfree: asks that no mark is stale, which holds until a free merges (`FreePagesAt`); the kernel unfrees only at boot, before any free.
- ResidentPages.ResidentPageManager.Alloc: blocks of several pages are not for pageable use, which no caller asks for: `vmp_page_steal` counts one page whatever the order, so such a block would be miscounted. Waking of page-shortage waiters and the reserve are not modelled.
- PageTableCounts.WireRestores: tables being paged in, busy tables and swap entries stop a wiring; what happens afterwards is not modelled. Hardware dirty bits of table entries are not modelled.
- RangeWalk.WalkRange: visits entries without changing them; what `cow_pages` and `vmp_unmap_range` do at each is modelled in `ForkCow` and `PageTableCounts`.
- WorkingSet.WorkingSetList.constructor: every hash slot starts out empty. The hash is an arbitrary function, and the index an insertion returns is not modelled.
- WorkingSet.WorkingSetList.Remove: a hint may be wrong but does not name a free or hashed entry.
- NameCache.LookupKeeps: the file system does not change, names are at most 255 bytes, and each operation is one step under its locks.
- EpollSafety.NothingMissed: one watched object, the console, which reports input and output only; removal of watches and teardown of poll instances are not modelled.
- Console.PollInstance.ProcessReady: each watched file gives one answer in a scan, since each watch is polled at most once.
- Rcu.GracePeriod: makes no claim for early callbacks; `Rcu.EarlyRetires` shows that none holds, where the CPUs still to go through the generation are outside their pass. The bitmask is a set, so shifts past the word's width are not modelled, and a promotion whose assertion fails is no step.
- ExecStack.UserMemory.CopyoutArgs: asks for room on the stack, which the code does not test; 64-bit layout only. Copying of a string's bytes is one store.
- Slab allocator, ports, object tables, the unified buffer cache, I/O packets, the file systems and the network stack: not modelled.
- Red-black trees and intrusive queues are maps and sequences.
- Drivers, boot, traps, context-switch assembly, console output and formatting of times: not modelled.
