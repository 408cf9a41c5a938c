# A model of the memory manager, with proofs

The program simulates a virtual memory manager. User threads fault pages in; a trimmer takes valid pages and puts
them on the modified list; a writer copies modified pages to the page file and puts them on the standby list; a fault
either rescues a page that is still in memory or takes a free or standby frame for it. Entries, frames, lists and slots
are shared, and guarded by byte locks that are often only tried for.

The project has four layers.

1. **The protocol.** `VmState` is the state between two atomic steps and the invariant `Inv`; `Steps` has one step for
   each lock-protected region of the three kinds of thread, and single words where pages are copied or filled. A lock that
   a thread blocks on is taken in a step of its own, and what it then finds is looked at in the next; the locks that list
   operations take on neighbouring pages come and go at any time.
   `Preservation` and `Runs` prove that every step keeps `Inv`, so it holds in every state that some interleaving
   reaches. On top of it stand `Transparency` (paging is invisible: every run refines a flat, zero-initialised memory),
   `Safety` (the assertions of the fault handler, exact undo, frame conservation), `Slots` (ownership, conservation and
   capacity of the page file) and `Deadlock`.
2. **The same code in place.** `Vm` holds the tables as arrays. `FaultHandler`, `TrimmerThread` and `WriterThread`
   are the functions of the three source files over it, with their loops. Between any two regions the other threads may
   do anything the protocol allows (`Interleaving.OthersRun`). Each region is proved to make exactly its step, and each
   whole call to be a run of the protocol, so that everything proved of runs holds of it.
3. **The page list.** `PageLists` has the circular list on real nodes, with failing try-locks. `RingProtocol` has several
   threads editing one list, one pointer write at a time. `ListRoutines` shows that each routine may make its edit, with
   what it has read and locked, in whatever state the other threads have left, and that the walk after a splice
   releases the batch. `TemporaryLists` follows a batch from the list it is linked on, page by page, to that walk.
4. **The page file's slots and the words.** `SlotAllocator` is the bitmap with its rotating scan, whole-row exchange and
   stash, with returns by other threads in between. `PteWords` and `PfnWords` are the bit layouts.

`Refinement` ties the third and fourth layer to the first: a ring edit, and a row of slots taken, is a run of the
protocol.

## What the proofs found

- **A store can be lost.** A hard fault maps the address before it fills the frame (`threads/page_fault_handler.c:316`
  against 329 and 341), so another thread can store to a word that is then overwritten. `FillWindow.StoreInWindowIsLost`
  is such a run. `Transparency.StoreIsKeptIff` and `Transparency.RunIsFlatOutsideWindows` show that it is the only way:
  a store is lost exactly when its word is mapped by a hard fault and not yet filled, unless it stores what is there.
- **The writer can block on itself.** The gathering loop releases each page before it removes the next batch
  (`threads/writer.c:50-82`). A page that is rescued and trimmed again in between can be gathered twice; once its first
  copy is committed, the writer keeps its lock and then blocks on it for the second. `GatheredTwice.WriterCanBlockOnItself`
  reaches such a state. `Deadlock.CycleIffSelfBlocked` shows that threads wait for each other in a cycle exactly then,
  `Deadlock.SelfBlockedForever` that it never ends, and `Deadlock.CommitDooms` which duplicates do it: a round is lost
  when a page is committed that is in the rest of the batch. The data stays right in any case (`Safety.MidWriteIsExact`).
- **A soft fault can hold the lock of somebody else's page.** It may get the page's lock only after the page was given
  away, and holds it until it has read its entry again (`threads/page_fault_handler.c:60-74`). `LateWaits.HardFaultCanWait`
  and `LateWaits.TrimmerCanWait` reach states in which a hard fault, and the trimmer with its batch locked, wait for such a
  thread. It blocks on nothing (`Deadlock.PassingIsNotBlocked`), so no cycle comes of it.
- **An entry can name a slot that is already somebody else's.** A hard fault frees the slot before it rewrites the entry
  (`threads/page_fault_handler.c:333` against 349). `Slots.SlotHasOneOwner` counts the entry as owner only until then, and
  `Transparency.ClearIsFlat` and `Transparency.FinishIsFlat` show that no contents are lost: the frame has them.
- **The check at `data_structures/disk.c:61` can fail** though nothing is wrong: a slot's bit is cleared before its return is
  counted, so the allocator can take 64 slots and count them before the counter knows of all of them. By
  `SlotAllocator.PageFile.CountTaken` the result is negative exactly when the uncounted returns outnumber the free slots;
  `SlotAllocator.CountGoesNegative` is a case with one such return.
- Lines 53 to 57 of `threads/page_fault_handler.c` are never reached (`PteWords.OneClassifierHolds`): an entry in transition
  has a frame.

## Model

| member | source | states |
|---|---|---|
| Runs.InitHasInv | threads/initializer.c:182-240 | The state after start-up, whatever the frames contain, satisfies the invariant |
| Runs.UserKeepsInv | threads/page_fault_handler.c:35-363 | Every step of a user thread (stores, soft faults, hard faults, refill, repurposing) keeps the invariant |
| Runs.TrimKeepsInv | threads/trimmer.c:28-112 | Every step of the trimmer keeps the invariant |
| Runs.WriteKeepsInv | threads/writer.c:20-170 | Every step of the writer keeps the invariant |
| Runs.StepKeepsInv | threads/page_fault_handler.c:35-363 | Any step of any thread keeps the invariant, so it holds over all interleavings |
| Runs.ReachableHasInv | threads/page_fault_handler.c:35-363 | The invariant holds in every reachable state |
| Transparency.WriteIsFlat | threads/simulator.c:16-74 | A store changes the stored word of its own page and nothing else, unless it falls in a fill window |
| Transparency.FillIsFlat | threads/page_fault_handler.c:316-342 | Filling one word, from disk or with zero, changes the contents of no page |
| Transparency.ClearIsFlat | threads/page_fault_handler.c:333 | Freeing the slot of a page that was read back changes the contents of no page, though its entry still names the slot |
| Transparency.FinishIsFlat | threads/page_fault_handler.c:349-354 | Making the entry valid changes the contents of no page, whatever its old slot is used for by then |
| Transparency.RepurposeIsFlat | threads/page_fault_handler.c:190-209 | Giving a standby frame away changes the contents of no page: the copy on disk is exact |
| Transparency.RescueIsFlat | threads/page_fault_handler.c:131-139 | Finishing a soft fault changes the contents of no page |
| Transparency.CopyIsFlat | threads/writer.c:114-119 | The writer's copying changes the contents of no page |
| Transparency.MappedIsCurrent | threads/page_fault_handler.c:131-135 | A mapped word that is not in a fill window is the current word of its page |
| Transparency.StepIsFlat | threads/page_fault_handler.c:35-363 | Each step changes the contents of each page exactly as flat memory would, without stores in fill windows |
| Transparency.RunIsFlatOutsideWindows | threads/page_fault_handler.c:35-363 | After any run each word is the last value stored to it outside fill windows, or its old value |
| Transparency.Transparency | threads/page_fault_handler.c:35-363 | After any interleaving from start-up, a mapped word reads as the last value stored to it, or zero, if none of its stores falls in a fill window |
| Transparency.StoreIsKeptIff | threads/page_fault_handler.c:314-342 | A store is kept if and only if its word is not in a fill window or already has that value |
| FillWindow.StoreInWindowIsLost | threads/page_fault_handler.c:316-341 | A run from start-up in which a store made between mapping and filling is lost |
| Safety.EntriesAndFramesAgree | threads/page_fault_handler.c:131-139 | A valid entry's frame is active and points back; an entry in transition names a modified, mid-write or standby frame that points back, or an active one locked by the trimmer |
| Safety.FramesAreNotShared | data_structures/pfn.c:51-76 | A free frame is named by no entry, and no frame by two |
| Safety.RecheckIsComplete | threads/page_fault_handler.c:66-113 | With the page lock taken, the entry is on disk, or in transition to that frame, which is modified, mid-write or standby with its slot's bit set: the assertions at 80, 89 and 113 hold, on the shared list paths (the repository's `Debug Notes` of October 10 report the one at 89 failing, with a negative standby count) |
| Safety.WaitingEntryIsStable | threads/page_fault_handler.c:39-80 | While a soft fault waits for its page or has not read its entry again, over any run of the others, it stays where it is and keeps the entry's lock; the entry is unchanged or went from transition to that frame to disk, and on disk it stays |
| Safety.RepurposingIsSafe | threads/page_fault_handler.c:196-207 | The entry rewritten without its lock is in transition to that frame, and whoever has locked it is a soft fault waiting for that frame |
| Safety.MidWriteIsExact | threads/writer.c:117-149 | A page still mid-write when locked again equals the copy just made; a page taken meanwhile is left as it is |
| Safety.StandbyHasCopy | threads/writer.c:142-145 | Every standby page equals the contents of the slot it names |
| Safety.FrameConservation | data_structures/pfn.c:51-89 | Every frame is in one place, and its status fits the place; so does the holder of its lock, unless a late soft fault or the writer holds it in passing |
| Safety.ThreadFrameConservation | threads/page_fault_handler.c:151-169 | A frame is in a thread's cache, hand, batch or rescue exactly when its place says so |
| Safety.CacheHasRoom | data_structures/page_list.c:36-44 | A hard fault that gives its page back finds room in its own cache of 64 |
| Safety.TrimmerTakesValidPages | threads/trimmer.c:38-69 | The entry the trimmer locked is valid, and its frame resident and so not in the batch yet; its page's lock is free, or held in passing |
| Slots.SetBitHasOwner | data_structures/disk.c:136-173 | A bit other than that of slot zero is set if and only if the stash, the writer, a standby frame or an entry on disk owns the slot; an entry stops owning it when a hard fault has read the page back and freed the slot (`threads/page_fault_handler.c:333`), before it is rewritten |
| Slots.SlotHasOneOwner | threads/writer.c:110-142 | No slot has two owners, and slot zero has none |
| Slots.ClearFindsBitSet | data_structures/disk.c:136-156 | Whenever a step clears a slot, the bit was set, and the bitmap changes nowhere else |
| Slots.NothingElseClears | data_structures/disk.c:136-156 | No other step clears any bit |
| Slots.SlotConservation | data_structures/disk.c:136-173 | Empty slots, stash, the writer's slot, copies of standby pages and pages on disk that still own their slots add up to all slots but slot zero |
| Slots.CounterIsExact | data_structures/disk.c:154-172 | The counter of empty slots is the number of clear bits |
| Slots.EmptySlotsLeft | data_structures/disk.c:9-29 | In every state, frames and slots less one are at most empty slots, stash, the writer's slot, entries, frames without a page and frames with a copy |
| Slots.WriterFindsSlot | threads/writer.c:21-22 | With the writer resting there is an empty slot if entries + stash + 2 + frames without a page + frames with a copy <= frames + slots |
| Deadlock.PassingIsNotBlocked | threads/page_fault_handler.c:60-74 | Whoever holds a page's lock in passing is blocked on nothing |
| Deadlock.WaitsGoDown | data_structures/pfn.c:91-104 | Whoever waits for a lock waits for a thread of lower rank, except the writer waiting for itself; the trimmer and hard faults wait too, and so does a splice, with its whole batch locked, for whoever holds the list's head or last page |
| Deadlock.CycleIffSelfBlocked | threads/writer.c:105-150 | Threads wait for each other in a cycle if and only if the writer is about to lock a page on its own temporary list |
| Deadlock.BlockedWaits | data_structures/pfn.c:91-104 | A thread in the middle of an operation that has no step to make waits for some thread in the wait graph |
| Deadlock.WaitingIsBlocked | data_structures/pfn.c:91-104 | And a thread that waits for a lock has no step to make |
| Deadlock.SomebodyGoesOn | threads/writer.c:105-150 | As long as a thread is in the middle of an operation, some thread can go on, unless the writer waits for itself |
| Deadlock.SelfBlockedMeansDuplicate | threads/writer.c:50-82 | The writer waits for itself only if a page is in its batch twice |
| Deadlock.CommitDooms | threads/writer.c:136-145 | After a page is settled, a page still to be settled is on the temporary list if and only if one was before, or the copy counts and the page is in the rest of the batch |
| Deadlock.DoomedForever | threads/writer.c:105-150 | Once a page still to be settled is on the temporary list, the writer stays in that round after every run |
| Deadlock.SelfBlockedForever | threads/writer.c:121-122 | The writer waiting for itself does so after every run |
| GatheredTwice.WriterCanBlockOnItself | threads/writer.c:50-150 | A state in which the writer waits for itself is reachable |
| LateWaits.HardFaultCanWait | threads/page_fault_handler.c:162-167 | A state in which a hard fault waits for the page it has popped is reachable |
| LateWaits.TrimmerCanWait | threads/trimmer.c:50-54 | A state in which the trimmer waits for a page's lock is reachable |
| Interleaving.OthersKeep | threads/page_fault_handler.c:39-139 | The other threads leave a thread's program point, its cache, the frames it holds, and for the trimmer every valid entry, as they are |
| Interleaving.ReachableOn | threads/page_fault_handler.c:365-413 | An execution from a reachable state ends in a reachable state |
| FaultHandler.TakeEntry | threads/page_fault_handler.c:39-49 | The entry is locked and read: its frame, or nothing with the lock released, and exactly that step |
| FaultHandler.TakeOffList | threads/page_fault_handler.c:93-129 | The locked page is taken off its list, and a standby page's slot is freed |
| FaultHandler.GiveUpPage | threads/page_fault_handler.c:69-74 | A page given away meanwhile is left, and both locks are released |
| FaultHandler.LockPage | threads/page_fault_handler.c:59-60 | The page's lock is taken, and nothing else is known |
| FaultHandler.Recheck | threads/page_fault_handler.c:66-129 | With the page locked the entry read again decides: the page is the fault's own if and only if the entry is still in transition to it |
| FaultHandler.FinishSoftFault | threads/page_fault_handler.c:134-139 | Frame active, entry valid, both locks released |
| FaultHandler.ResolveSoftFault | threads/page_fault_handler.c:35-145 | A call among the other threads is a run of the protocol; it returns with the entry valid and mapped, or not in transition, or waiting for a lock somebody holds |
| FaultHandler.RefillCache | data_structures/page_list.c:75-149 | An empty cache gets all pages of a free list, up to 64; it gets none only if there are none or the try is lost to another thread |
| FaultHandler.TakeStandbyBatch | threads/page_fault_handler.c:175-185 | 16 pages leave the standby list locked; fewer, or none, only if no unlocked one is left or a try is lost |
| FaultHandler.GiveToCache | threads/page_fault_handler.c:196-207 | The old owner's entry goes to disk, the slot to the entry, the frame to the cache |
| FaultHandler.MoveBatch | threads/page_fault_handler.c:171-214 | A call among the other threads is a run of the protocol; it returns true exactly when the cache got pages, and false only if it found no unlocked standby page or lost a try |
| FaultHandler.PopPage | threads/page_fault_handler.c:162-167 | A page of the cache is popped, and only that |
| FaultHandler.EntryTried | threads/page_fault_handler.c:296-316 | A hard fault whose entry is unlocked and on disk or zeroed maps its page and holds the entry; in every other case the page is in the cache again |
| FaultHandler.TryEntry | threads/page_fault_handler.c:296-316 | The page is mapped if and only if the entry's lock is free and the entry is on disk or zeroed; else it is back in the cache and the entry as it was |
| FaultHandler.FillWord | threads/page_fault_handler.c:321-342 | One word is read from the entry's slot, or zeroed |
| FaultHandler.FreeSlot | threads/page_fault_handler.c:333 | The slot of a page that was read back is freed, and nothing else changes |
| FaultHandler.FinishHardFault | threads/page_fault_handler.c:349-354 | The entry is valid and mapped, the frame active, both locks released |
| FaultHandler.FillPage | threads/page_fault_handler.c:321-354 | Filling, freeing the slot and finishing, with stores of other threads and reuse of the slot in between, is a run and ends with the entry valid and mapped |
| FaultHandler.ResolveHardFault | threads/page_fault_handler.c:242-363 | A call among the other threads is a run of the protocol; it returns with the entry valid and mapped, or with the page back in the cache because the entry was locked, valid or in transition when tried, or without a page because the free lists had none and the standby list no unlocked one (or a try was lost), or waiting for a lock somebody holds; each reason holds in a state it passed through |
| FaultHandler.FindPages | threads/page_fault_handler.c:252-266 | An empty cache is refilled from the free lists or else from the standby list; it stays empty only if neither had a page that could be had, or a try was lost |
| FaultHandler.FaultOnce | threads/page_fault_handler.c:389-407 | One turn is a soft fault if and only if the entry was in transition, and a hard fault if and only if it was not and then was on disk or zeroed; its outcome is that fault's |
| ReadBack.StoredWordComesBack | threads/page_fault_handler.c:316-354 | A run in which a stored word goes to disk with its page and is read back into another frame that had other contents |
| FaultHandler.HandleFault | threads/page_fault_handler.c:365-413 | The handler's loop is a run of the protocol, and reports success exactly with the entry valid and the thread done; it gives up only after all its turns, each of which missed for a stated reason: the entry left transition, was locked or no longer faulted, or there was no page |
| TrimmerThread.TakeEntry | threads/trimmer.c:47-48 | The entry's lock is tried for |
| TrimmerThread.AwaitPage | threads/trimmer.c:54 | While the trimmer waits for the page's lock the entry stays valid and as it is, and the batch stays |
| TrimmerThread.TakePage | threads/trimmer.c:54-64 | With the page's lock free, the entry goes to transition and the page, resident so far, into the batch |
| TrimmerThread.TryTrim | threads/trimmer.c:37-69 | An entry seen valid is still valid when locked; it is taken if and only if it was valid with its lock free, or the trimmer still waits for its page; the batch is exactly the pages taken, each once |
| TrimmerThread.Scan | threads/trimmer.c:28-70 | The scan wraps around, ends within 4 * 2048 attempts, stops earlier only with a full batch of 2048, and its batch is exactly what its attempts found takeable, in order |
| TrimmerThread.WrappedIsModulo | threads/trimmer.c:31-35 | The k-th attempt after the cursor c is at entry (c + k) modulo the number of entries |
| TrimmerThread.EachEntryHasOneTurn | threads/trimmer.c:28-35 | In a round of as many attempts as there are entries each entry has exactly one |
| TrimmerThread.RoundTakesAll | threads/trimmer.c:28-70 | In a scan of a whole round every entry that is valid and unlocked at all the attempts is taken |
| TrimmerThread.MarkBatch | threads/trimmer.c:88-99 | Every page of the batch is marked modified, while the others run |
| TrimmerThread.SpliceBatch | threads/trimmer.c:101-103 | Exactly the batch goes to the modified list |
| TrimmerThread.ReleaseBatch | threads/trimmer.c:105-112 | Every page of the batch is unlocked once, in order, and then the trimmer holds none (the links followed are in ListRoutines.WalkReleasesBatch) |
| TrimmerThread.TrimPages | threads/trimmer.c:12-120 | A call among the other threads is a run of the protocol; it takes what its attempts found takeable, leaves no page locked or half trimmed, and advances the cursor to the last attempt if it took a page; or it still waits for a page whose lock somebody holds; a scan of a whole round passes by no entry that is valid and unlocked throughout |
| WriterThread.TopUp | threads/writer.c:29-31 | The stash grows by exactly the slots found clear, each looked at in its turn, and stays below the target only when every slot was looked at |
| WriterThread.TakeBatch | threads/writer.c:53-63 | Pages of the modified list are locked and removed, within the target; if the target is not met and no try is lost, all unlocked ones |
| WriterThread.MarkPage | threads/writer.c:70-76 | A page becomes mid-write, goes into the batch and is unlocked |
| WriterThread.Gather | threads/writer.c:50-82 | Gathering is a run and leaves no page locked; it falls short of the target only after five removals each of which found no unlocked page on the modified list, or lost a try |
| WriterThread.Pop | threads/writer.c:110-111 | The stash has a slot for every page of the batch |
| WriterThread.CopyPage | threads/writer.c:116-119 | The copy is made word by word without the page's lock while the others run |
| WriterThread.Settle | threads/writer.c:127-149 | With the page locked, its status decides: commit with the lock kept, or lock and slot given back and the page left |
| WriterThread.WritePage | threads/writer.c:105-150 | One turn is a run; the writer then holds the page's lock in addition if and only if the page was still mid-write when it was locked |
| WriterThread.WriteAll | threads/writer.c:105-150 | Every page of the batch is settled in order; the writer holds exactly those whose copies count, or waits for a page somebody has locked |
| WriterThread.Splice | threads/writer.c:158-161 | Exactly the written pages go to the standby list |
| WriterThread.ReleaseBatch | threads/writer.c:163-170 | Every written page is unlocked, and then the writer holds none (the order and the links followed are in ListRoutines.SpliceThenUnlock) |
| WriterThread.WritePages | threads/writer.c:7-179 | A call among the other threads is a run of the protocol; with no empty slot it does nothing; else it gathers as many pages as are expected and fit in a batch and in the slots there are, unless five removals got nothing; slots are short only if every one was looked at and those found clear were taken; when done, every page gathered was settled, the count is that of the pages still mid-write, and no page is held |
| PageLists.PageList.constructor | data_structures/page_list.c:157-162 | A new list is an empty ring |
| PageLists.PageList.InsertToTail | data_structures/page_list.c:693-703 | The page is behind the last one, and the ring is well formed in both directions |
| PageLists.PageList.Remove | data_structures/page_list.c:671-680 | The page is off the ring, the others stay in order |
| PageLists.PageList.LockNeighbours | data_structures/page_list.c:206-239 | Both neighbours are locked; or no lock is changed, and then a neighbour was locked or thirty tries were lost |
| PageLists.PageList.RemoveOnSoftFault | data_structures/page_list.c:202-258 | The page is removed and counted; or nothing changes, and then a neighbour was locked or thirty tries were lost; all locks are as before |
| PageLists.PageList.LockPrefix | data_structures/page_list.c:423-470 | Head and first two pages (or the only one) are locked; or no lock is changed, and then the list was empty, one of them was locked, or thirty tries were lost |
| PageLists.PageList.ExtendPrefix | data_structures/page_list.c:483-506 | The lock-ahead loop locks a prefix of the ring, and stops only at the capacity, at the end of the list, before a locked page, or with a lost try |
| PageLists.PageList.RemoveBatch | data_structures/page_list.c:412-527 | The n pages taken are the first n in order, linked from the one returned, locked; every other lock and the rest of the ring are as before; n is the smaller of capacity and length on an unlocked list with no lost try, and is less only because of a locked page or a lost try |
| PageLists.PageList.TryInsert | data_structures/page_list.c:285-330 | One attempt inserts at the tail and counts; or changes nothing, and then the head or the last page was locked or a try was lost |
| PageLists.PageList.TryPop | data_structures/page_list.c:332-397 | The first page is removed and stays locked; or nothing changes, and then the list was empty, one of the first two pages or the head was locked, or a try was lost |
| PageLists.PageList.TrySplice | data_structures/page_list.c:579-638 | One attempt appends the whole temporary list; or changes nothing, and then the head or the last page was locked or a try was lost; the temporary head still leads to its first page |
| PageLists.PageList.ReleaseBatch | threads/trimmer.c:105-112 | The walk from the stale head, on real nodes and with no other thread running, unlocks exactly the batch |
| RingProtocol.StepKeepsInv | data_structures/page_list.c:202-330 | Every link is right or about to be written, at every single pointer write of every interleaving, among them the writes that put held pages on other lists |
| RingProtocol.WritesNeedTheLock | data_structures/page_list.c:671-703 | Whenever a pointer write is made, to a page on the list or off it, the thread that makes it still holds the node's lock; no other step changes a link |
| RingProtocol.LockedLinksStay | data_structures/page_list.c:206-233 | A locked page's flink stays the list's next page, whatever the other threads do |
| RingProtocol.LockedBackLinksStay | data_structures/page_list.c:206-233 | The same for blink |
| RingProtocol.QuiescentListIsEdited | data_structures/page_list.c:214-330 | When no write is outstanding, both directions walk the original list with exactly the run's edits (that the routines make such edits is in ListRoutines) |
| RingProtocol.SizeIsNeverNegative | data_structures/page_list.c:190-200 | list_size is never negative, and exact when nothing is left to count |
| ListRoutines.SoftRemovalIsAllowed | data_structures/page_list.c:206-248 | The neighbours read before the attempts and locked in the end are the page's neighbours, after any steps of the others, and the removal is allowed |
| ListRoutines.LookAhead | data_structures/page_list.c:444-495 | The link read from the last page locked is the head exactly when the whole list is locked |
| ListRoutines.PrefixGrows | data_structures/page_list.c:483-506 | The page read ahead and then locked extends the locked prefix of the list, after any steps of the others |
| ListRoutines.BatchRemovalIsAllowed | data_structures/page_list.c:508-511 | With the first n pages, the head and the page after them locked, or the whole list, the removal of n pages is allowed |
| ListRoutines.LockAheadReaches | data_structures/page_list.c:431-506 | Reading the next page, letting the others run and trying for it, over and over, locks the head and the pages that follow it in order, and the whole list if it comes round |
| ListRoutines.LockAheadStops | data_structures/page_list.c:431-506 | The look-ahead stops only with as many pages as it may lock, at the end of the list, or before a page somebody has locked |
| ListRoutines.BatchRemoval | data_structures/page_list.c:412-527 | The whole routine among the others: what is then removed is exactly the first n pages in order, the removal is allowed, and the pages stay locked, off the list and linked over every later run in which their holder leaves them alone |
| ListRoutines.BatchStaysLinked | data_structures/page_list.c:508-526 | Removed pages stay locked, off the list and linked to each other over any run in which their holder neither releases nor relinks any |
| ListRoutines.SpliceIsAllowed | data_structures/page_list.c:587-630 | The last page, read from the locked head and then locked, is still the last, and a temporary list, or one page, may be put behind it |
| ListRoutines.WalkReleasesBatch | threads/trimmer.c:105-112 | From the page the stale head leads to, reading the next page before each release, the walk releases exactly the batch in order, each page once, while the others append behind it and remove released pages |
| ListRoutines.SpliceThenUnlock | threads/writer.c:158-170 | The same from the splice on, with its pointer writes and the change of the size among steps of the others |
| TemporaryLists.PrivateLinks | data_structures/page_list.c:693-703 | The links of a page held off the list are, after any run, what its holder's own writes make of them |
| TemporaryLists.HeadIsEmptyList | data_structures/page_list.c:157-162 | A head initialised among steps of the others is an empty list |
| TemporaryLists.BuiltInOrder | threads/trimmer.c:83-99 | Held pages inserted one after the other, each behind what the head's blink is read to name, are on the temporary list in that order, linked both ways, with the others running between any two writes |
| TemporaryLists.TemporaryIsChain | data_structures/page_list.c:579-582 | A temporary list's pages are a chain from its head's flink to its head's blink |
| TemporaryLists.TemporaryIsSpliced | data_structures/page_list.c:587-630 | With the list's head locked and then the last page read from it, the whole temporary list may be put behind it, and its own head still leads to its first and last page |
| TemporaryLists.StaleHeadLeadsToBatch | threads/writer.c:158-170 | After the splice the temporary head still leads to the first page of the batch, and the walk from there releases exactly the batch in order |
| Refinement.LockRefines | data_structures/page_list.c:214-239 | A lock taken on a page of a list is the protocol's neighbour lock |
| Refinement.GatheringRefines | threads/writer.c:53-63 | Removing the first n pages of the modified list's ring is a run of the protocol that takes exactly these pages for the writer |
| Refinement.RepurposingRefines | threads/page_fault_handler.c:175-185 | The same for the standby list and a user thread |
| Refinement.TrimSpliceRefines | threads/trimmer.c:101-103 | Putting the trimmer's batch, in any order, behind the last page is the protocol's splice |
| Refinement.WriteSpliceRefines | threads/writer.c:158-161 | The same for the writer's temporary list |
| Refinement.RescueRefines | threads/page_fault_handler.c:93-129 | Removing the one page a soft fault has locked is the protocol's rescue |
| Refinement.RowRefines | data_structures/disk.c:35-81 | The clear slots of a row, as the bit-by-bit scan or the exchange takes them, are taken by a run of single allocations; the row is then full and the stash larger by as many |
| SlotAllocator.ClearInIsExact | data_structures/disk.c:66-80 | The slots listed for a row are its clear bits, each once, in order |
| SlotAllocator.EachRowHasOneTurn | data_structures/disk.c:97-104 | Stepping with wrap-around visits every row exactly once |
| SlotAllocator.PageFile.constructor | data_structures/disk.c:9-29 | Only slot zero is in use, and the counter agrees |
| SlotAllocator.PageFile.ClearBit | data_structures/disk.c:136-152 | The bit is found set, and is clear afterwards |
| SlotAllocator.PageFile.SetBit | data_structures/disk.c:158-169 | The bit is found clear, and is set afterwards |
| SlotAllocator.PageFile.CountTaken | data_structures/disk.c:60-61 | The count after taking slots is the free slots less the returns not counted yet, so it is negative exactly when those are more |
| SlotAllocator.CountGoesNegative | data_structures/disk.c:53-61 | A page file of 128 slots in which taking a whole row makes the counter -1, with one return whose bit is clear and not counted |
| SlotAllocator.PageFile.Push | data_structures/disk.c:83-86 | The slot is on top of the stash, which stays without repetition |
| SlotAllocator.PageFile.Pop | data_structures/disk.c:88-92 | The top of the stash is returned, in use and no longer stashed |
| SlotAllocator.PageFile.ExchangeRow | data_structures/disk.c:47-54 | The exchange succeeds exactly on an empty row, and takes its 64 slots |
| SlotAllocator.PageFile.PushEmptyRow | data_structures/disk.c:44-64 | An empty row is always taken, with the outcome of the bit-by-bit scan |
| SlotAllocator.PageFile.PushBits | data_structures/disk.c:66-80 | Every bit clear in the snapshot is still clear when set, whatever is returned meanwhile; its slot is pushed in order |
| SlotAllocator.PageFile.PushRow | data_structures/disk.c:35-81 | Either path pushes exactly the row's slots that were clear at the start, in order |
| SlotAllocator.PageFile.SetAndAddSlots | data_structures/disk.c:95-121 | If the target is not met, every row was visited and all that is free was returned meanwhile; at most target + 63 slots are stashed, each once |
| SlotAllocator.PageFile.TopUp | threads/writer.c:20-38 | The stack never overflows, the writer's budget is covered by the stash, and it is short only when every slot is taken |
| PteWords.Entry.SetToTransition | data_structures/pte.c:45-58 | The word keeps all but its two low bits, which are cleared |
| PteWords.Entry.SetToValid | data_structures/pte.c:60-74 | The word is valid, has the frame number, and keeps the other bits |
| PteWords.Entry.MapToDisk | data_structures/pte.c:76-93 | The word is on disk, has the slot, and keeps the other bits |
| PteWords.OneClassifierHolds | data_structures/pte.h:73-76 | Of a word the setters make, exactly one classifier holds, and it has no frame exactly when it is on disk |
| PteWords.WordsAreEntries | data_structures/pte.c:45-93 | After any sequence of setters from zero the word stands for the entry that the same changes make; frame and slot read back, the other bits are zero |
| PfnWords.WrittenFields | data_structures/pfn.c:51-89 | Every setter keeps the lock bits and leaves exactly its status and disk index |
| PfnWords.Descriptor.SetActive | data_structures/pfn.c:51-62 | The word is rebuilt with status active and no disk index, and points at the entry |
| PfnWords.Descriptor.SetFree | data_structures/pfn.c:64-76 | The same with status free and no entry |
| PfnWords.Descriptor.SetStandby | data_structures/pfn.c:78-89 | The same with status standby and the slot; the entry stays |
| PfnWords.Descriptor.SetMidWrite | data_structures/pfn.c:147-155 | The same with status mid-write and the disk index kept |
| PfnWords.Descriptor.SetModified | data_structures/pfn.h:38 | Only the status changes: lock bits and disk index are kept |
| PfnWords.NoUpdateIsLost | data_structures/locks.c:11-47 | Over every interleaving of lock instructions, reads and writes, no setter's store undoes a lock operation: the lock bits tell the holder, status and disk index are those of the last setters |
| PfnWords.OneStatusHolds | data_structures/pfn.h:30-35 | Of the word each setter writes exactly one of the six status macros holds, its own, and the word decodes to its status and slot |
| PfnWords.WordsAreStatuses | data_structures/pfn.c:51-154 | Over every interleaving of lock instructions, reads and writes the word stands for the protocol's status last set |

## Left out

- Exclusive fallbacks (`data_structures/page_list.c:260-265` and 473-476): the first edits neighbours without their locks, the second runs without the lock it assumes; thirty failed attempts count as a removal of nothing.
- PageLists.PageList.RemoveOnSoftFault: returns without removing after thirty attempts, because the fallback that follows in the code is left out; two soft faults on adjacent pages can fail for as long as both wait.
- PageLists.PageList.TrySplice: one attempt of the endless retry; so is PageLists.PageList.TryInsert.
- PageLists methods run alone on the list; what other threads may do to it meanwhile is in RingProtocol and ListRoutines, on node numbers.
- In the protocol a list operation is one step, and the locks it takes on neighbours are those of an unnamed holder, `Listing`, which never blocks: `data_structures/page_list.c:214-258` and 420-515 only try for locks, a bounded number of times. A splice retries without bound, and `Deadlock` counts that as a wait; that its attempts could fail for ever though nobody blocks is not excluded. A list's own lock is held exclusively on the left-out fallbacks only.
- Safety.RecheckIsComplete: on the shared list paths only; with the exclusive fallback of line 260 a list can be corrupted, and what then happens is not covered.
- In the protocol the lists have no order: a frame's place says which list it is on, removals take any unlocked frames of it (Vm.Vm.Collect goes by frame number), and the writer's walk over a batch takes its pages in any order. The order is in PageLists and ListRoutines, and `Refinement` relates the two.
- Refinement.GatheringRefines: relates one edit of one list at a time, with locks as taken or free; which thread holds one is not matched between the layers. So do Refinement.RepurposingRefines, Refinement.TrimSpliceRefines, Refinement.WriteSpliceRefines and Refinement.RescueRefines.
- Refinement.RowRefines: the returns of other threads during the scan are left to the runs around it.
- FaultHandler.RefillCache: the free lists are one pool and a refill is one step; they are under their own bit locks and no page on them is ever contended. How many pages the list found has is given from outside.
- Which try-locks of list operations are lost to other threads is given from outside, as a parameter (`lost`); PageLists also has the locks that are taken.
- FaultHandler.ResolveSoftFault: waits a given number of spins for a lock, where the code waits for ever; so do FaultHandler.ResolveHardFault, TrimmerThread.TrimPages and WriterThread.WritePages.
- FaultHandler.HandleFault: makes a given number of turns, where the code's loop has no bound.
- Interleaving.OthersRun: has a body that does nothing; the other threads are in its contract, which allows every run without steps of the calling thread. So is SlotAllocator.PageFile.Yield.
- WriterThread.TopUp: takes slots in the order of the bitmap, one atomic step each; the rotating scan, the row exchange and the separate counting are in SlotAllocator.
- Slots.CounterIsExact: takes a bit and its count as one step; SlotAllocator has them apart.
- A frame is filled, and a page copied, word by word; words are 64 bits and their stores atomic.
- Slots.WriterFindsSlot: the bound is a sufficient one; the default configuration's ratio of 0.91 (`utils/config.h:111`) is arithmetic on reals left out.
- Entries' accessed bits and ageing (`data_structures/pte.c:117-142`): the compare-exchange there is given addresses instead of values.
- The pruner, which is compiled out.
- Statistics, events, wake-ups, timing predictions and the waiting of a fault that finds no page: what is proved is safety, and that somebody can go on.
- The kernel's views of pages (`kernel_va_index`, mapping and unmapping calls): a copy or a fill goes to the frame directly.
- The arithmetic between addresses, entries and frames, random addresses, start-up and shut-down.
- Lock words as semaphores are in PfnWords; elsewhere a lock is its holder. Debug builds use critical sections instead, which is not part of this model.
- Assumed: one writer and one trimmer thread, a page file of a positive multiple of 64 slots, no frame number zero, frames and slots below 2^40.
