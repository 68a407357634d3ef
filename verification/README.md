# NVMM shelf allocators: a verified model

NVMM keeps heaps in memory that many processes map at once and that outlives all of them. This project
models its allocators and the protocols around them in Dafny and proves what they are for: no unit of
memory is in two places, none is handed back while somebody may still look at it, and for each kind of crash
exactly which blocks it loses, which of them recovery and the offline collector find again, and which stay
allocated with nobody to free them.

| file | what it models |
|---|---|
| `Dyadic`, `Tiling` | aligned blocks of allocation units, and families of blocks that pack or tile a zone |
| `SizeClass` | from a request in bytes to a level |
| `ZoneEntry` | the packed word of a unit, at the level of bits |
| `ZoneView` | `alloc`, `free` and `merge` as functions on what the tables say; the coarsest tiling |
| `ZoneTables`, `ZoneMerge`, `Bitmaps` | the tables as values, the merge scan pair by pair, the bitmap as words and as bytes |
| `ZoneHeap` | the zone as a class over arrays: lists threaded through the entry table, merge, delayed lists, collector |
| `ZoneCollector` | why one level of the offline collector is right |
| `ZoneProtocol` | the zone under concurrency: clients, one merger, crashes between any two persistent steps |
| `ZoneCalls` | what one call of `alloc` or `free` gives its caller, whatever others do during it |
| `ZoneUndisturbed` | a merge left alone, and one that crashes and is recovered, do to the tables what `ZoneView` says |
| `ZoneRecovery` | from a run of `ZoneProtocol` cut off anywhere, through recovery, to the collector of `ZoneHeap` |
| `LockFreeStack` | the stacks memory access by memory access, refining atomic stacks |
| `StackCalls` | one call of push, pop or swap from begin to return, and lock freedom |
| `EpochReclamation` | the epoch protocol across processes and the five delayed-free lists |
| `EpochLoss` | a run in which a worker's death loses a block |
| `EpochProgress` | when the frontier advances, and that every deferred block can come back |
| `EpochProcess` | the threads of one process behind the distributed-counter lock |
| `ProcessCalls` | what an operation and a heartbeat publish, from begin to return |
| `EpochParticipation` | the two put together: runs of processes with threads are runs of the epoch protocol |
| `PoolMembership` | versioned slots and shelf files under add, remove, recover and crash |
| `PoolCalls` | which files a removal and a recovery leave, and the calls left alone |
| `FixedBlocks` | the fixed block allocator and the free lists on top |
| `FreeListCalls` | puts, gets and allocations from begin to return |
| `TicketLock` | the 64-bit ticket lock with wrapping halves |
| `Ownership` | owner words read in halves, revocation of dead owners |
| `OwnershipCalls` | an item between the death of its owner and its next owner |

Sequential code that updates tables in place is a class with methods; each method is proved to compute a
function on views, and the functions are what the theorems are about. Concurrent code is a step machine, one
step per access to shared memory or to the file system, with any number of threads or processes; theorems
hold in every state of every run. Beside the invariants there are two kinds of results about calls: what a
call that returns has done, over every run and whatever others do meanwhile, and that a call left alone does
return, with the state it leaves.

At seven points the code does less than its names and comments suggest, and the limit is stated exactly:

* rounding a request up wraps above 2^63 bytes: the block fits if and only if the request is at most 2^63
  (`SizeClass.LevelFits`, `SizeClass.OversizedRequestGetsOneUnit`);
* a slot version grows if and only if it is not the last one, 0x7FFF, after which it wraps to 0
  (`PoolMembership.VersionGrowsUnlessLast`);
* a valid slot is sure to keep its shelf file if and only if no version is increased more than 0x7FFF times:
  after that a recovery that still has the last version in mind deletes the new shelf as an old one
  (`PoolMembership.FilesKeptIff`, `PoolMembership.WrapLosesFile`);
* a process id is a pid and a clock tick, and the owner word is read in two halves, so a process that dies
  and two that begin in one tick can cost a live owner its item. That cannot happen if and only if no process
  begins in the same tick as the one before it under a pid used before, once a third pid has been in use
  (`Ownership.OwnersKeptIff`, `Ownership.SharedTickFails`);
* the ticket lock excludes if and only if at most 2^32 threads use it (`TicketLock.OneHolderIff`);
* a merge that dies loses at most one block while it drains its lists, but the whole swapped list between
  the head swap and the status change, until the collector runs (`ZoneProtocol.CrashLoss`);
* deferred blocks are all freed, waiting or in a worker's hands if and only if no process dies between a
  worker's pop of a block and its free (`EpochReclamation.NothingLostIff`, `EpochLoss.DeathLosesBlock`). Each
  worker that dies there costs one block, and no collection gives it back: it is still marked allocated
  (`ZoneRecovery.CollectAfterWorkerDeath`).

## Model

| member | source | states |
|---|---|---|
| Tiling.TilesExactlyOnce | src/shelf_usage/zone.cc:429-560 | a tiled zone has every unit below 2^top in exactly one block and no block beyond it |
| Tiling.SplitRepacks | src/shelf_usage/zone.cc:475-482 | splitting a block into halves kept in different places keeps blocks disjoint and covers the same units |
| Tiling.PairingRepacks | src/shelf_usage/zone.cc:994-1028 | joining the buddies of a level and setting the others apart keeps blocks disjoint and covers the same units |
| SizeClass.IsPow2Means | src/shelf_usage/zone.cc:70-73 | the bit trick accepts exactly the powers of two |
| SizeClass.SmearStep | src/shelf_usage/zone.cc:80-85 | each or-shift doubles the run of ones at the top of the word |
| SizeClass.NextPowerOfTwo | src/shelf_usage/zone.cc:75-88 | the least power of two at or above the size, or 0 above 2^63 |
| SizeClass.PowerOfTwo | src/shelf_usage/zone.cc:54-68 | the exponent of a power of two, 0 for every other number |
| SizeClass.FindLevel | src/shelf_usage/zone.cc:451-454 | the level `alloc` searches from, by rounding up and taking the exponent |
| SizeClass.LevelFits | src/shelf_usage/zone.cc:109-121 | the block of the chosen level holds the request if and only if the request is at most 2^63 bytes |
| SizeClass.LevelIsLeast | src/shelf_usage/zone.cc:109-121 | no smaller level holds the request |
| SizeClass.OversizedRequestGetsOneUnit | src/shelf_usage/zone.cc:75-88 | a request of 2^63 + 1 bytes is given one unit |
| ZoneEntry.WordsAreTriples | src/shelf_usage/zone_entry.h:71-101 | a word carries exactly one triple of allocation bit, level and link, and every triple in range has its word |
| ZoneEntry.Entry.SetAlloc | src/shelf_usage/zone_entry.h:76-81 | changes the allocation bit and neither other field |
| ZoneEntry.Entry.SetLevel | src/shelf_usage/zone_entry.h:88-91 | changes the level and neither other field |
| ZoneEntry.Entry.SetNext | src/shelf_usage/zone_entry.h:98-101 | changes the link and neither other field |
| ZoneEntry.RelinkingKeepsAllocAndLevel | src/shelf_usage/zone_entry_stack.cc:45-56 | an entry linked into any series of lists keeps its allocation bit and level and only the last link |
| ZoneView.TakeAchieves | src/shelf_usage/zone.cc:472-488 | `alloc`'s block was free, is aligned, is not unit 0, and its units are exactly those that stop being free; tiling is kept |
| ZoneView.TakeLevels | src/shelf_usage/zone.cc:474-482 | level by level: the source list loses the block and each level from the wanted one up gains one remainder |
| ZoneView.FirstLevel | src/shelf_usage/zone.cc:463-473 | the first level from the wanted one whose list is not empty |
| ZoneView.ReturnAchieves | src/shelf_usage/zone.cc:537-560 | `free` makes exactly the block's units free; tiling is kept |
| ZoneView.ReturnLevels | src/shelf_usage/zone.cc:552-559 | level by level: the list of the level the block was allocated at gains exactly the block, no other list changes, and exactly that block stops being used |
| ZoneView.AllocUndoesFree | src/shelf_usage/zone.cc:463-559 | allocating the freed block again, at its level, restores the view |
| ZoneView.MergeLevelAchieves | src/shelf_usage/zone.cc:1093-1153 | one level of merging keeps used blocks, free units, disjointness and tiling |
| ZoneView.MergeBelowAchieves | src/shelf_usage/zone.cc:783-814 | after `merge()` no two free buddies are left below the top level |
| ZoneView.RunInOneBlock | src/shelf_usage/zone.cc:783-814 | after a merge every aligned run of free units lies in one free block |
| ZoneView.MergeIsCoarsest | src/shelf_usage/zone.cc:783-814 | the free blocks after `merge()` are exactly the maximal aligned runs of free units |
| ZoneView.MergeDependsOnFreeUnits | src/shelf_usage/zone.cc:783-814 | the result of `merge()` depends only on which units are free |
| ZoneView.FreeUndoesAlloc | src/shelf_usage/zone.cc:429-560 | allocating and freeing a block is invisible after `merge()` |
| ZoneView.AllocFailsOnlyWhenFull | src/shelf_usage/zone.cc:463-529 | right after `merge()`, `alloc` finds nothing if and only if no aligned free run of that size exists |
| ZoneTables.PushLinked | src/shelf_usage/zone_entry_stack.cc:41-65 | pushing an unlisted unit keeps every list threaded through the entry table, with no unit listed twice |
| ZoneTables.PopLinked | src/shelf_usage/zone_entry_stack.cc:67-93 | popping follows one link, and the popped unit is on no list |
| ZoneMerge.PairStep | src/shelf_usage/zone.cc:994-1028 | one pair of bits adds exactly the joined block, the lone block, or nothing |
| ZoneMerge.ScanComplete | src/shelf_usage/zone.cc:980-1032 | past the last pair the two post-merge lists are exactly what merging the level means |
| ZoneMerge.BitmapLengthSuffices | src/shelf_usage/zone.cc:973-980 | scanning whole words up to the computed length stays in the bitmap and covers every pair, also at the levels shorter than a word |
| ZoneMerge.BitIsClear | src/shelf_usage/zone.cc:701-704 | the bit `set_bit` asserts clear is clear for every block of the swapped list |
| Bitmaps.SetBit | src/shelf_usage/zone.cc:693-710 | adds one bit to the bitmap and changes no other |
| Bitmaps.ReadPair | src/shelf_usage/zone.cc:994-1015 | the mask test and the two shift tests read the pair of bits at that position |
| Bitmaps.MaskCoversPair | src/shelf_usage/zone.cc:981-1028 | the mask shifted two bits a round covers the pair the loop stands at |
| Bitmaps.MaskRunsOut | src/shelf_usage/zone.cc:1029-1029 | the mask is 0 after 32 rounds |
| Bitmaps.SetNBits | src/shelf_usage/zone.cc:1279-1289 | sets exactly the n bits from the given one on, across byte boundaries |
| Bitmaps.CheckNBits | src/shelf_usage/zone.cc:1293-1305 | true if and only if all n bits are set |
| ZoneHeap.InitialTiled | src/shelf_usage/zone.cc:380-393 | the reserved unit 0 and one block of each level below the top tile the zone |
| ZoneHeap.RightHalfIsNew | src/shelf_usage/zone.cc:475-482 | the right half pushed by a split is on no list and not allocated |
| ZoneHeap.Zone.constructor | src/shelf_usage/zone.cc:380-393 | a new zone is valid and tiled, unit 0 reserved |
| ZoneHeap.Zone.Push | src/shelf_usage/zone_entry_stack.cc:41-65 | puts the unit on top of one list; allocation bits and levels stay |
| ZoneHeap.Zone.Pop | src/shelf_usage/zone_entry_stack.cc:67-93 | takes the top unit, or returns 0 exactly when the list is empty |
| ZoneHeap.Zone.Split | src/shelf_usage/zone.cc:475-482 | the splitting loop computes the split the view describes |
| ZoneHeap.Zone.Alloc | src/shelf_usage/zone.cc:429-529 | takes a block of the first non-empty level and leaves the view `Take` describes: the unit was on top of that list; 0 exactly when all lists from the wanted level up are empty, and then nothing changes |
| ZoneHeap.Zone.Free | src/shelf_usage/zone.cc:537-560 | the block goes on top of the list of the level it was allocated at; freeing 0 does nothing |
| ZoneHeap.Zone.FreeThenAlloc | src/shelf_usage/zone.cc:429-560 | right after a free, an allocation of the block's level returns that very block and restores the view |
| ZoneHeap.Zone.Park | src/allocator/epoch_zone_heap.cc:932-940 | a block on a delayed list stays allocated at its level |
| ZoneHeap.Zone.Unpark | src/allocator/epoch_zone_heap.cc:1257-1262 | a block popped from a delayed list is still allocated at its level and on no list |
| ZoneHeap.Zone.FreeParked | src/allocator/epoch_zone_heap.cc:1256-1266 | one round frees the newest blocks of the list, at most the budget, each on top of the list of its own level, and nothing else |
| ZoneHeap.Zone.SwapFreelist | src/shelf_usage/zone.cc:855-909 | the level's list is empty and the safe copy leads through all its former blocks |
| ZoneHeap.Zone.CreateMergeBitmap | src/shelf_usage/zone.cc:913-955 | the bitmap has exactly the bits of the blocks of the swapped list |
| ZoneHeap.Zone.ScanBits | src/shelf_usage/zone.cc:981-1029 | the word loop handles the 32 pairs of one word |
| ZoneHeap.Zone.DoMerge | src/shelf_usage/zone.cc:958-1043 | the scan leaves each block once, joined or alone, on the right post-merge list |
| ZoneHeap.Zone.FinishMerge | src/shelf_usage/zone.cc:1046-1091 | both post-merge lists are drained into the free lists of their levels |
| ZoneHeap.Zone.MergeOneLevel | src/shelf_usage/zone.cc:1093-1153 | the four phases compute `MergeLevel`; refused, with no change, while a merge is in progress |
| ZoneHeap.Zone.Merge | src/shelf_usage/zone.cc:783-814 | computes `Merge` of the view, or reports that a merge was in progress |
| ZoneHeap.Zone.CollectGarbage | src/shelf_usage/zone.cc:1319-1416 | from any aligned, disjoint blocks, whatever level and safe copy an abandoned merge has left in the header, to an exact tiling: allocated blocks unchanged, free lists gain exactly the maximal aligned leaked runs, each at its own level, and a zone without leaks is unchanged |
| ZoneCollector.MarkOne | src/shelf_usage/zone.cc:1370-1394 | marking one block keeps the marked set exact and runs of that size uniform |
| ZoneCollector.NoneInHole | src/shelf_usage/zone.cc:1396-1415 | a clear half beside a marked half is touched by no block of any level |
| ZoneCollector.FillPacks | src/shelf_usage/zone.cc:1403-1414 | freeing such a half keeps blocks disjoint, and the zone was not tiled before |
| ZoneCollector.PairsComplete | src/shelf_usage/zone.cc:1396-1416 | after level L each aligned run of 2^(L+1) bits is all set or all clear |
| ZoneCollector.CollectedTiles | src/shelf_usage/zone.cc:1418-1424 | with every level below the top done all bits are set |
| ZoneCollector.LeakedBecomeFree | src/shelf_usage/zone.cc:1319-1350 | after a collection the free units are those free before and those no block covered |
| ZoneCollector.CollectsExactly | src/shelf_usage/zone.cc:1396-1416 | what a collection adds to the free list of each level are exactly the maximal aligned runs of units that no block covered |
| ZoneProtocol.InvKept | src/shelf_usage/zone.cc:429-560 | every step of any client, of the merger, of a crash or of recovery keeps the zone tiled by all places together |
| ZoneProtocol.RunInv | src/shelf_usage/zone.cc:855-1153 | the invariant holds in every state of every run |
| ZoneProtocol.EveryUnitInOnePlace | src/shelf_usage/zone.cc:429-560 | in every state of every run each unit is in exactly one block and that block in exactly one place |
| ZoneProtocol.BitStillClear | src/shelf_usage/zone.cc:693-710 | under concurrency too, the bit about to be set is clear |
| ZoneProtocol.UnitZeroNeverInBitmap | src/shelf_usage/zone.cc:997-1003 | no chunk pointer the scan computes is null |
| ZoneProtocol.CrashLoss | src/shelf_usage/zone.cc:1155-1275 | a merger's crash and recovery lose the whole swapped list between swap and status change, at most one block while draining, and nothing elsewhere |
| ZoneProtocol.OnlyCrashesLose | src/shelf_usage/zone.cc:1207-1222 | no other step loses a block |
| ZoneCalls.AllocGivesLevel | src/shelf_usage/zone.cc:454-487 | over every run: the block a call of `alloc` returns was nobody's, and from then on is allocated at the level the call asked for |
| ZoneCalls.AllocTakesFirst | src/shelf_usage/zone.cc:463-473 | over every run: when a call finds a block, every list from the level asked for up to there has been empty in some state of the call |
| ZoneCalls.AllocFailsOnEmpty | src/shelf_usage/zone.cc:463-528 | over every run: a call that fails has seen every list from the level asked for up to the top empty, and changes nothing |
| ZoneCalls.AllocAlone | src/shelf_usage/zone.cc:463-487 | a call left alone takes the newest block of the first non-empty level, and fails only when there is none |
| ZoneCalls.FreeAlone | src/shelf_usage/zone.cc:545-559 | a free left alone puts the block on top of the list of the level it was allocated at |
| ZoneUndisturbed.UndisturbedMerge | src/shelf_usage/zone.cc:1093-1153 | a merge of a level that nobody disturbs leaves the tables of the sequential `MergeLevel` and a header at rest |
| ZoneUndisturbed.RecoveryCompletesMerge | src/shelf_usage/zone.cc:1207-1252 | a merge that dies with no block in hand, where the header says how far it was: recovery left alone ends with the tables `MergeLevel` gives, and nothing is lost |
| ZoneUndisturbed.RecoveryGivesUp | src/shelf_usage/zone.cc:1198-1222 | a merge that died before its swap without a trustworthy header: recovery frees the lock, leaves the tables as they were and loses nothing |
| ZoneRecovery.RunLeavesPackedTables | src/shelf_usage/zone.cc:1312-1317 | whatever state a run is cut off in, the blocks of its tables are aligned and disjoint |
| ZoneRecovery.RecoveryFinishes | src/shelf_usage/zone.cc:1155-1275 | whatever state a run is cut off in, recovery and the merge it resumes free the merge lock in finitely many steps, and every client keeps its blocks |
| ZoneRecovery.CollectorCanRun | src/shelf_usage/zone.cc:1217-1251 | wherever a run stops with the merge lock free, also after the warning that leaves level and safe copy in the header, a zone with these tables meets all the collector asks for |
| ZoneRecovery.CollectionRestoresZone | src/shelf_usage/zone.cc:1312-1350 | in a tiling that leaves the allocated blocks of a run's tables alone and adds only free ones, a unit is free exactly if some place other than a client held it |
| ZoneRecovery.CollectAfterWorkerDeath | src/allocator/epoch_zone_heap.cc:1258-1265 | a block popped from a delayed list and not freed is on no list, and after a collection still allocated and not free |
| ZoneRecovery.CollectAfterRun | src/shelf_usage/zone.cc:1319-1416 | collecting such a zone tiles it again: clients keep their blocks, and a unit is free exactly if no client held it |
| LockFreeStack.StepSimulated | src/shelf_usage/zone_entry_stack.cc:41-93 | each memory access is a step of the atomic stacks or invisible, with two-load reads, stale samples and overwritten nodes |
| LockFreeStack.SwapTakesList | src/shelf_usage/zone.cc:878-898 | zeroing a head without bumping its counter takes exactly the atomic list |
| LockFreeStack.SwappedChainStays | src/shelf_usage/zone.cc:913-944 | while the thread that swapped a list out only reads, or is dead, the links from the saved head lay out exactly that list, whatever others do |
| LockFreeStack.PcFrame | src/common/fam_atomic_x86.c:215-251 | what a thread has sampled stays usable while others move heads, counters and links |
| LockFreeStack.ChainUnique | src/shelf_usage/stack.cc:39-88 | the links from a head lay out one list |
| LockFreeStack.RunRefinesAtomicStacks | src/shelf_usage/zone_entry_stack.cc:41-93 | the events of every run are the events of a run of atomic stacks, and the links lay out its lists |
| LockFreeStack.PoppedNodeWasListed | src/shelf_usage/zone_entry_stack.cc:67-93 | a popped node was listed, is owned by the popper alone and is on no list afterwards |
| StackCalls.OneEventPerCall | src/shelf_usage/zone_entry_stack.cc:41-93 | over every run: a call that returns has had exactly one event, a push that of its node, a pop that of the top node or of an empty stack |
| StackCalls.OneEventPerSwap | src/shelf_usage/zone.cc:878-898 | over every run: a swap that returns has taken the list exactly once |
| StackCalls.PushAlone | src/shelf_usage/zone_entry_stack.cc:41-65 | a push left alone returns with its node on top |
| StackCalls.PopAlone | src/shelf_usage/zone_entry_stack.cc:67-93 | a pop left alone returns the top node, and nothing only from an empty stack |
| StackCalls.SwapAlone | src/shelf_usage/zone.cc:878-898 | a swap left alone takes the whole list |
| StackCalls.FailureIsPaid | src/shelf_usage/zone_entry_stack.cc:50-64 | lock freedom: a compare-and-store fails only if another thread's operation on the same stack has succeeded since its thread last loaded the head |
| EpochReclamation.InvKept | src/shelf_usage/epoch_manager_impl.cc:143-260 | every step of scanners, joiners, reporters and dying processes keeps the window and the records of waiting blocks |
| EpochReclamation.FrontierWindow | src/shelf_usage/epoch_manager_impl.cc:162-227 | a participant that has finished joining reports the frontier or one less |
| EpochReclamation.FrontierNeverDecreases | src/shelf_usage/epoch_vector.cc:60-64 | the frontier never decreases in a run |
| EpochReclamation.AdvanceIsSafe | src/shelf_usage/epoch_manager_impl.cc:194-227 | a successful advance finds every active participant at the frontier and no joiner behind it |
| EpochReclamation.EpochGap | src/allocator/epoch_zone_heap.cc:932-940 | while an operation that saw a deferral runs, reported epochs stay within -1 and 2 of the deferral's |
| EpochReclamation.TakenEnded | src/allocator/epoch_zone_heap.cc:1240-1262 | a block popped from list e mod 5 has no running operation that saw its deferral |
| EpochReclamation.TakenIsSafe | src/allocator/epoch_zone_heap.cc:1258-1265 | for as long as a worker has a popped block in hand: it was deferred earlier, and every operation then in progress anywhere has ended |
| EpochReclamation.ReclamationSafety | src/allocator/epoch_zone_heap.cc:916-941 | in every run a block handed back to the zone was deferred earlier and every operation then in progress anywhere has ended |
| EpochReclamation.DeferredIsConserved | src/allocator/epoch_zone_heap.cc:1258-1265 | per unit, deferrals are blocks handed back, waiting, in a worker's hands, or lost with a worker that died |
| EpochReclamation.OnlyDeathLoses | src/allocator/epoch_zone_heap.cc:1263-1263 | only a death loses blocks, each dying worker at most the one in its hands |
| EpochReclamation.NothingLostIff | src/allocator/epoch_zone_heap.cc:1263-1263 | deferrals are blocks handed back, waiting or in hand if and only if no process died between a worker's pop of the unit and its free |
| EpochLoss.DeathLosesBlock | src/allocator/epoch_zone_heap.cc:1258-1265 | a run in which a deferred block is neither freed, nor waiting, nor in anybody's hands |
| EpochProgress.ScanVerdict | src/shelf_usage/epoch_manager_impl.cc:177-227 | over every run: a scan looks at each slot once, in order, and advances the frontier if and only if each reported, at that moment, no active epoch or the frontier the scan had read, and that is still the frontier |
| EpochProgress.ScanAlone | src/shelf_usage/epoch_manager_impl.cc:162-227 | with any number of participants: a scan left alone advances the frontier if and only if every participant that is not new reports it |
| EpochProgress.VacatedUnblocks | src/shelf_usage/epoch_vector.cc:121-169 | a slot left or cleared holds no frontier back and can be taken again |
| EpochProgress.Round | src/shelf_usage/epoch_manager_impl.cc:118-227 | when all processes are at rest, their reports and one scan move the frontier on by one |
| EpochProgress.ComeToRest | src/shelf_usage/epoch_manager_impl.cc:118-271 | from every reachable state the processes can finish joining, reporting, scanning and their operations, with nothing lost |
| EpochProgress.EverythingComesBack | src/allocator/epoch_zone_heap.cc:1240-1266 | every run can go on, with no further deferral or death, until every block ever deferred has been handed back as often as it was deferred, but for those that died with their worker |
| EpochProcess.InvKept | src/shelf_usage/dclcrwlock.cc:107-189 | every step of any thread keeps the lock, the count and the reported epoch consistent |
| EpochProcess.LockExcludes | src/shelf_usage/dclcrwlock.cc:107-189 | no reader beside a writer and no two writers, for any threads on any counters |
| EpochProcess.AssertionsHold | src/shelf_usage/epoch_manager_impl.cc:302-315 | the heartbeat's assertion that the count is 0 never fails, and no unlock reports an error |
| EpochProcess.EpochHeldByOps | src/shelf_usage/epoch_manager_impl.cc:123-138 | the reported epoch stays what it was when a running operation began |
| EpochProcess.StepIsParticipantStep | src/shelf_usage/epoch_manager_impl.cc:118-138 | a process reads and publishes an epoch only with no operation running |
| ProcessCalls.FirstInReadsFrontier | src/shelf_usage/epoch_manager_impl.cc:123-130 | over every run: an operation that finds the count 0 runs under a frontier read since then, any other under the epoch reported when it came in |
| ProcessCalls.OperationRuns | src/shelf_usage/dclcrwlock.cc:107-139 | over every run: an operation that was begun and has returned has run |
| ProcessCalls.HeartbeatPublishes | src/shelf_usage/epoch_manager_impl.cc:302-315 | over every run: a heartbeat that returns has published the frontier that it read since it began |
| ProcessCalls.EnterAlone | src/shelf_usage/epoch_manager_impl.cc:123-130 | an operation left alone gets in, counted once, under the frontier if it is the first |
| ProcessCalls.ExitAlone | src/shelf_usage/epoch_manager_impl.cc:133-138 | and gets out, with its counter and the count taken back |
| ProcessCalls.HeartbeatAlone | src/shelf_usage/epoch_manager_impl.cc:302-315 | a heartbeat left alone, with no reader about, publishes the frontier and changes nothing else |
| ProcessCalls.InvalidateAlone | src/shelf_usage/epoch_manager_impl.cc:162-164 | the scanner's exclusive section, left alone, comes and goes without a trace |
| EpochParticipation.ThreadStepMatched | src/shelf_usage/epoch_manager_impl.cc:118-138 | every step of any thread is a step of the process's slot in the epoch protocol, or leaves the shared state alone |
| EpochParticipation.InvKept | src/shelf_usage/epoch_manager_impl.cc:118-138 | every move of any thread of any process, and every joining, scan, deferral, hand-back, death and departure, keeps each slot showing what its process's threads do |
| EpochParticipation.RunProjects | src/shelf_usage/epoch_manager_impl.cc:118-260 | every run of processes with threads is, steps that do not show left out, a run of the epoch protocol |
| EpochParticipation.ThreadsReclaimSafely | src/allocator/epoch_zone_heap.cc:916-941 | in every run of processes with threads, when a block is handed back no thread of any process is still in the operation it was running when the block was deferred |
| EpochParticipation.OthersUnseen | src/shelf_usage/epoch_manager_impl.cc:143-260 | what other processes do, and scans, deferrals and hand-backs, leave the slot showing what the threads do |
| PoolMembership.IncVersionVersion | src/shelf_mgmt/membership.h:545-548 | the version goes up by one, or from the last to 0 |
| PoolMembership.VersionGrowsUnlessLast | src/shelf_mgmt/membership.h:545-548 | the version grows if and only if it is not the last |
| PoolMembership.Membership.GetFreeSlot | src/shelf_mgmt/membership.h:339-368 | a free slot gets the next version and stays free, if and only if no other process changed the word in between; otherwise the word is left alone and returned |
| PoolMembership.Membership.MarkSlotUsed | src/shelf_mgmt/membership.h:377-397 | the slot becomes used at the caller's version if and only if it still holds the caller's value |
| PoolMembership.Membership.MarkSlotFree | src/shelf_mgmt/membership.h:307-329 | a used slot becomes free with the next version, and the caller learns the version removed, if and only if no other process changed the word in between |
| PoolMembership.SlotOfInjective | src/shelf_mgmt/membership.h:545-548 | a word is nothing but its valid bit and its version |
| PoolMembership.ClaimSlot | src/shelf_mgmt/membership.h:339-368 | on the words, `GetFreeSlot` is the adder's claim or its failure in the protocol |
| PoolMembership.UseSlot | src/shelf_mgmt/membership.h:377-397 | on the words, both outcomes of `MarkSlotUsed` are the adder's step in the protocol |
| PoolMembership.FreeSlot | src/shelf_mgmt/membership.h:307-329 | on the words, `MarkSlotFree` is the remover's step or its failure in the protocol |
| PoolMembership.InvKept | src/shelf_mgmt/pool.cc:507-724 | every step of adders, removers, recovery and crashes that leaves the slots within their versions keeps slots, files and history consistent |
| PoolMembership.ValidSlotHasFile | src/shelf_mgmt/pool.cc:358-431 | in every run within the versions, a slot valid at a version has its file of that version on disk, and it is not version 0 |
| PoolMembership.FilesKeptIff | src/shelf_mgmt/pool.cc:834-877 | valid slots have their files in all runs with at most n increases of a version if and only if n is below 0x8000 |
| PoolMembership.WrapLosesFile | src/shelf_mgmt/pool.cc:834-877 | a run of 0x8000 increases in which recovery deletes the file of a valid slot |
| PoolMembership.ClaimedOnce | src/shelf_mgmt/membership.h:339-368 | a version is claimed by one adder, ever, and its file does not exist yet |
| PoolMembership.AddedOnce | src/shelf_mgmt/pool.cc:595-605 | a version is made valid at most once |
| PoolMembership.RemoveUndoesOneAdd | src/shelf_mgmt/pool.cc:659-703 | a successful removal undoes a successful addition no other removal has undone |
| PoolMembership.RenameTargetIsNew | src/shelf_mgmt/pool.cc:586-593 | renaming never overwrites a shelf file |
| PoolMembership.VersionsGrow | src/shelf_mgmt/membership.h:307-397 | versions never decrease, and at one version a slot only turns valid |
| PoolCalls.RemovedFileIsGone | src/shelf_mgmt/pool.cc:675-702 | within the versions, once a removal has returned the file of the version it removed is gone for the rest of the run |
| PoolCalls.RecoveryVisitsAll | src/shelf_mgmt/pool.cc:834-877 | over every run: a recovery that goes on to the next index has deleted every temporary file and every older version that was there when it read the slot |
| PoolCalls.RecoverAlone | src/shelf_mgmt/pool.cc:358-423 | a recovery left alone deletes exactly the temporary files and older versions of the indexes ever used, and changes nothing else |
| PoolCalls.RecoverLeavesCurrent | src/shelf_mgmt/pool.cc:358-423 | after it, in every run within the versions, at most the file of the current version is left of each index ever used, and a valid slot has it |
| PoolCalls.OneVersionPerAdd | src/shelf_mgmt/pool.cc:571-609 | over every run: an addition to one given index uses up at most one version |
| PoolCalls.AddAlone | src/shelf_mgmt/pool.cc:507-609 | an addition left alone to a free slot gives it the next version and the file of that version, and leaves no temporary file |
| PoolCalls.AddElsewhereAlone | src/shelf_mgmt/pool.cc:611-647 | an addition that may choose and finds its slot taken adds to any free index instead |
| PoolCalls.LostRaceGoesOn | src/shelf_mgmt/pool.cc:611-647 | it does so too after losing its version to a removal, and takes its file along |
| PoolCalls.RemoveAlone | src/shelf_mgmt/pool.cc:659-702 | a removal left alone frees the slot under the next version and deletes its file |
| FixedBlocks.BumpLayout | src/shelf_usage/fixed_block_allocator.cc:206-222 | bumping `never_allocated` adds one aligned block that overlaps no other |
| FixedBlocks.InvKept | src/shelf_usage/freelists.cc:200-232 | every step of clients, which pass blocks among them, of puts, gets and crashes keeps layout, places and payloads consistent |
| FixedBlocks.WriteLinkPayloads | src/shelf_usage/stack.cc:48-51 | link words written by a push touch no payload |
| FixedBlocks.EveryBlockInOnePlace | src/shelf_usage/fixed_block_allocator.cc:194-252 | blocks handed out tile the shelf up to `never_allocated`, each with one client, in one thread's hands, on the stack or on one list; only a thread that dies carrying a block loses it |
| FixedBlocks.OnlyGrows | src/shelf_usage/fixed_block_allocator.cc:72-76 | `never_allocated` never decreases |
| FixedBlocks.GetReturnsAPut | src/shelf_usage/freelists.cc:215-232 | `GetPointer(i)` returns the pointer of a completed put on list i not returned before |
| FixedBlocks.EachPutReturnedOnce | src/shelf_usage/freelists.cc:200-232 | no put is returned twice in a run |
| FreeListCalls.EntryIsAPut | src/shelf_usage/freelists.cc:200-213 | over every run: each put on record is a call of `PutPointer` with that list and that pointer |
| FreeListCalls.EntriesApart | src/shelf_usage/freelists.cc:200-213 | different puts on record are different calls |
| FreeListCalls.GetReturnsPut | src/shelf_usage/freelists.cc:215-232 | over every run: a call `GetPointer(i)` returns the pointer that an earlier call of `PutPointer` was given for list i |
| FreeListCalls.GivesUpOnlyWhenFull | src/shelf_usage/fixed_block_allocator.cc:194-226 | over every run: an allocation that ends without a block has found the free stack empty, and the rest of the shelf has no room for one |
| FreeListCalls.PutAlone | src/shelf_usage/freelists.cc:200-213 | a put left alone puts a block with its pointer on top of its list unless the shelf is full |
| FreeListCalls.GetAlone | src/shelf_usage/freelists.cc:215-232 | a get left alone takes the top block, returns the pointer of its put and frees the block; it returns nothing only from an empty list |
| FreeListCalls.GetUndoesPut | src/shelf_usage/freelists.cc:200-232 | a put and then a get on one list return the pointer and restore the list |
| FreeListCalls.ClientFreeAlone | src/shelf_usage/fixed_block_allocator.cc:236-252 | a freed block is the one the next allocation returns |
| TicketLock.WordParts | src/common/fam_atomic_x86.c:680-722 | the 64-bit and 32-bit additions move the two wrapping halves independently |
| TicketLock.FreeMeansEmpty | src/common/fam_atomic_x86.c:702-716 | while one of at most 2^32 threads does not queue, the halves are equal only when nobody does |
| TicketLock.OneHolder | src/common/fam_atomic_x86.c:680-722 | at most one holder in every run of at most 2^32 threads, across wrap-arounds |
| TicketLock.OneHolderIff | src/common/fam_atomic_x86.c:680-700 | all runs of at most n threads have one holder at most if and only if n is at most 2^32 |
| TicketLock.FirstComeFirstServed | src/common/fam_atomic_x86.c:680-722 | threads are served in ticket order and a try-lock never overtakes |
| TicketLock.FrontGetsIn | src/common/fam_atomic_x86.c:690-699 | the thread whose turn it is holds the lock or sees its ticket at the next look |
| TicketLock.TryAlone | src/common/fam_atomic_x86.c:702-716 | a try-lock left alone gets the lock if and only if nobody queues |
| TicketLock.LockAlone | src/common/fam_atomic_x86.c:680-722 | whoever asks for a free lock has it, and gives it back free |
| Ownership.InvKept | src/shelf_usage/ownership.cc:173-274 | every step under safe process ids keeps owner words, what readers have seen and what live processes own in agreement |
| Ownership.OneOwner | src/shelf_usage/ownership.cc:173-194 | under safe ids at most one live process owns or recovers an item, and the owner word names it |
| Ownership.DisplacedOnlyWhenDead | src/shelf_usage/ownership.cc:231-274 | under safe ids a live owner is displaced by nobody but itself, even with owner words read in halves |
| Ownership.OwnersKeptIff | src/common/process_id.cc:62-97 | for any ids that are valid, in the order of the clock and never the same twice: no run under them gives an item to two live processes if and only if no process that begins in the same tick as the one before it has a pid used before, once a third pid has been used |
| Ownership.SharedTickFails | src/common/process_id.cc:62-97 | four processes, the last two begun in one tick, in a run where a live owner loses its item |
| OwnershipCalls.AcquiredAfterRecovery | src/shelf_usage/ownership.cc:173-274 | over every run with safe ids: after the death of its owner nobody acquires an item before a recovery of it has ended well or a process without a recovery function has revoked it |
| OwnershipCalls.FreeAfterRecovery | src/shelf_usage/ownership.cc:211-266 | after either, any process that is alive and idle can acquire the item |
| OwnershipCalls.CheckAlone | src/shelf_usage/ownership.cc:204-247 | a check left alone takes the item of a dead owner, for recovery where wanted, and otherwise changes nothing |
| OwnershipCalls.FailedRecoveryIsFound | src/shelf_usage/ownership.cc:252-258 | after a recovery that fails, the next check left alone finds the dead owner and takes the item over |
| OwnershipCalls.DeadRecovererIsFound | src/shelf_usage/ownership.cc:231-251 | so it does when the recovering process dies |
| OwnershipCalls.ReleaseUndoesAcquire | src/shelf_usage/ownership.cc:173-194 | acquiring a free item and releasing it restores the state |

## Left out

- `Zone::grow` and its recovery: the heap is created with its initial size equal to its maximum, so they never run; the chunk offset they compute is taken from the header pointer (src/shelf_usage/zone.cc:616).
- The collector's iteration at the top level and its final print loop: it inspects a second run past the end of the bitmap (src/shelf_usage/zone.cc:1400-1402), so the theorem is about the levels below the top, which already tile the zone.
- The entry table has one slot more than src/shelf_usage/zone.cc:180-182 sizes it for, because entries are indexed from 1.
- The zone constructor's checks that throw on unusable sizes; `Zone.constructor` takes the level count and unit size they leave.
- ZoneHeap.Zone.Push: the ABA counter is not a field of the class; it matters only under concurrency, and `LockFreeStack` has it.
- ZoneHeap.Zone.CreateMergeBitmap: the class sees entries decoded; `ZoneEntry` proves that packing and unpacking lose nothing.
- The merge bitmap is one region read as words by the merge and as bytes by the collector. The class has an array for each; every phase zeroes the region before using it.
- Offsets are unit numbers in the zone modules; zeroing the contents of a block before it is handed out is not modelled.
- Retry loops of the lock-free code appear as steps of a machine, not as methods. Progress is claimed for calls left alone and, for the stacks, as lock freedom; no scheduler is modelled, so nothing is claimed about how often a call among others retries.
- Pushes and pops are single steps in `ZoneProtocol` and `FixedBlocks`; `LockFreeStack` is the argument that this is sound.
- Weak memory ordering, cache flushes and an ABA counter that wraps: words are read and written in one order, every write is durable, counters are unbounded. Zeroing a bitmap is one step.
- Recovery from a merge starts only when the merging process is dead, and one process recovers at a time. The code cannot tell a live merge from a crashed one, and nothing is claimed about recovery beside a live merge.
- Blocks held by a client that dies stay allocated; nothing in the repository frees them.
- `OfflineFree`, which empties the delayed lists without an operation when its caller is sure that nobody looks at them; a death between its pop and its free loses a block as a worker's does.
- A block handed back is freed in one step in `EpochReclamation`; `ZoneProtocol` has the steps of that free and what a death among them loses.
- A killed process stops at once, and one process clears the slot of a dead one; timeouts and failure callbacks are not modelled.
- `FreeLists::PutPointer` drops its pointer and still returns success when no block can be had; the theorems count the puts that got a block.
- `AddShelf`'s search for another index may give up at any point, temporary names are unique, and file operations are atomic. The contents of shelf files and formatting are not modelled.
- In the class `Membership` the word that other processes leave for a compare-and-store to find is a parameter; their steps are those of the machine in the same file.
- Ownership.InvKept: one activity per process at a time. Process ids that recur after a reboot are not modelled.
- Shelf files, mapping, heap and pool bootstrapping, global pointers and shelf ids, `Resize`, debugging output.
