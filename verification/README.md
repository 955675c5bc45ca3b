# xv6 for RISC-V: logging, caching, scheduling, memory and files

A Dafny model of the parts of this xv6 kernel whose correctness depends on order, on sharing
or on counting, and proofs of what they promise over whole runs.

- **Crash consistency** (`LogDisk`, `LogSystem`, `LogProtocol`): the redo log of kernel/log.c.
  Concurrent operations, group commit, sync, crashes between any two block writes, and
  crashes during recovery.
- **Buffer cache** (`Bcache`, `CachedLog`, `BufferedLog`, `FullCache`): the LRU list of kernel/bio.c, and
  the log working through it while processes read and write buffers. `CachedLog` is the
  machine and carries the state of `LogProtocol` along; `BufferedLog` is the code.
- **Virtio disk** (`Virtio`): driver and device, each loop turn and each visible store a step.
- **Processes and sleeping** (`ProcProtocol`): the lock handed over across a context switch,
  sleep_prepare/sleep/wakeup, sleep locks, wait and exit, on any number of CPUs.
- **Scheduling** (`Schedulers`): round robin, static priority and multi-level feedback queue.
- **Virtual memory** (`PageTable`, `PageBudget`, `Vm`, `UserMemory`, `Processes`): page allocator,
  three-level page tables, address spaces, fork, sbrk, page faults and reaping.
- **File system** (`FsImage`, `Files`, `Directories`): the block bitmap, direct and indirect
  blocks, reading and writing, and link counts.
- **User allocator** (`Umalloc`): the Kernighan and Ritchie free list of user/umalloc.c.

Table sizes (NPROC, NCPU, NBUF, MAXOPBLOCKS, ring size and so on) are symbolic constants, so
nothing depends on a particular value. State machines are given by `Enabled` and `Do` (or
`Next`) on a datatype of steps, and theorems are about every `Path`; code that updates memory
in place is a class whose methods are proved to take those steps or to compute those functions.

Some larger predicates are kept folded: a predicate counts down a symbolic constant `DEPTH`
before it says what it means, and a lemma `Unfold...` opens it. That only keeps proofs short.

## Findings

Four promises do not hold of the code as it is. Each is kept as the code has it, with the
exact condition.

- **A full log panics on a block that needs no room.** log_write tests for a full log before
  it looks for the block (kernel/log.c:229-237). Three operations that each log exactly
  MAXOPBLOCKS new blocks fill the log; if one of them then writes one of its blocks again, the
  kernel panics although the write would be absorbed. `LogProtocol.FullLogReachable` builds
  the state; `LogProtocol.PanicExactlyWhenAbsorbedIntoFullLog` proves that an operation within
  its budget panics if and only if the log is full and the block is already in it.
- **The commit of a full log finds no buffer.** NBUF equals LOGBLOCKS (kernel/param.h:10-11).
  Every logged block is pinned in a buffer of its own, so a full log leaves no buffer for the
  log block that write_log reads first, and bget panics (kernel/log.c:194, kernel/bio.c:87).
  `FullCache.FullCacheReachable` builds the run; `BufferedLog.CachedKernel.Commit` proves that
  a commit with NBUF blocks logged never succeeds, and that with no other process at the cache
  it succeeds if and only if fewer are logged.
- **malloc of more than 2^31 - 32 bytes does not fail.** morecore passes a 32-bit product to
  sbrk's int (user/umalloc.c:47-61). The request comes out negative or as 0 or 16 bytes, sbrk
  agrees, and a header is written, at the old break, for units the process does not have. If
  the break was at a page boundary the store faults and the process is killed; otherwise the
  free list claims memory past the break. `Umalloc.RequestNegative` and `Umalloc.RequestTiny`
  give the two ways it wraps; `Umalloc.Heap.Malloc` proves that the allocator keeps to memory
  the process has if and only if the size fits, or sbrk refuses, or a free block is large enough.
- **A change of policy breaks the MLFQ time slice.** rr_on_yield and priority_on_yield set the
  remaining slice to 1 and leave the level alone (kernel/sched_rr.c:41-44), so the slice that
  follows can be longer or shorter than the level's. `Schedulers.DemotedLate` gives an input;
  `Schedulers.SliceAfterOther` proves that the slice is right after the change if and only if
  one tick of it was left.

## Model

| member | source | states |
|---|---|---|
| LogDisk.CrashAtomicity | kernel/log.c:203-212 | Whatever single block write of commit the machine stops after, and however often recovery itself is cut short, a completed recovery leaves every home block as before the transaction if the header had not been written and as the transaction left it if it had, with an empty log. |
| LogDisk.RecoveryStable | kernel/log.c:119-125 | Any number of interrupted recoveries, each stopped after any write, end with the same home blocks as one uninterrupted recovery. |
| LogDisk.CommitPointRecovers | kernel/log.c:105-116 | From the header write on, recovery gives every logged block its logged value and leaves the others alone. |
| LogSystem.Log.WriteHead | kernel/log.c:105-116 | One block write: count and block numbers replaced, the other words of the header kept. |
| LogSystem.Log.ReadHead | kernel/log.c:89-99 | The header in memory becomes the one on disk. |
| LogSystem.Log.InstallTrans | kernel/log.c:68-85 | The successive disks are exactly those of installing one logged block after the other; blocks are unpinned unless recovering. |
| LogSystem.Log.RecoverFromLog | kernel/log.c:119-125 | The successive disks are those of `RecoverTrace`, about which atomicity is proved; the log ends empty. |
| LogSystem.Log.WriteLog | kernel/log.c:188-200 | The successive disks are those of copying one logged block after the other into the log. |
| LogSystem.Log.Commit | kernel/log.c:203-212 | The successive disks are those of `CommitTrace`, or none if nothing is logged; the log ends empty. |
| LogSystem.CommitKeepsViews | kernel/log.c:203-212 | A commit does not change what a read of any home block returns. |
| LogSystem.Log.LogWrite | kernel/log.c:224-244 | Absorbs a listed block, appends and pins a new one; fails exactly when the log is full or no operation is under way, and then changes nothing. |
| LogSystem.Log.BeginOp | kernel/log.c:129-150 | Admits exactly when no commit runs and MAXOPBLOCKS blocks are left for this and every outstanding operation. |
| LogSystem.Log.EndOp | kernel/log.c:155-184 | Starts the commit exactly when the last operation ends; panics exactly if a commit was running. |
| LogProtocol.ReachableInv | kernel/log.c:128-244 | Every state of every interleaving of begin_op, log_write, end_op, single block writes of commit, sync, crashes and single block writes of recovery satisfies the invariant that ties the disk to the history of logged writes. |
| LogProtocol.CrashConsistency | kernel/log.c:118-212 | In every reachable state a crash followed by recovery leaves exactly the effect of the committed log_writes, in order. |
| LogProtocol.OperationsCommitWhole | kernel/log.c:10-30 | No operation is split by the commit line, and only operations that have ended are before it. |
| LogProtocol.SyncDurability | kernel/log.c:247-261 | When sys_sync returns, every write of every operation that had ended before the call is committed; when it does not wait, everything is. |
| LogProtocol.CommittedWhenQuiet | kernel/log.c:10-22 | In every run, what is committed is everything that was logged up to some earlier moment at which no operation was under way. |
| LogProtocol.CrashToQuietMoment | kernel/log.c:10-22 | In every run, a crash and recovery take the home blocks back to such a moment. |
| LogProtocol.InvariantSurvives | kernel/log.c:10-22 | So any invariant of the home blocks that holds whenever no operation is under way holds after a crash at any time. |
| LogProtocol.CommitTakesSteps | kernel/log.c:203-212 | Each block write of `LogSystem`'s commit is one step of the state machine. |
| LogProtocol.RecoverTakesSteps | kernel/log.c:119-125 | Each block write of `LogSystem`'s recovery is one step of the state machine. |
| LogProtocol.PanicExactlyWhenAbsorbedIntoFullLog | kernel/log.c:229-242 | For an operation within its budget the "too big a transaction" panic happens if and only if the log is full and the block is already in it. |
| LogProtocol.FullLogReachable | kernel/log.c:229-242 | That state is reachable with three operations that use exactly their budgets. |
| Bcache.Cache.constructor | kernel/bio.c:36-52 | All buffers are in the list, unused, and what a read returns is what is on disk. |
| Bcache.Cache.Find | kernel/bio.c:65-72 | The buffer that caches the block, or none exactly if no buffer does. |
| Bcache.Cache.Oldest | kernel/bio.c:76-86 | An unused buffer after which no unused one comes in the list, or none exactly if all are in use. |
| Bcache.Cache.Bget | kernel/bio.c:58-88 | One more reference to the one buffer that caches the block, or the least recently used free buffer recycled; panics exactly if the block is not cached and every buffer is in use. |
| Bcache.Cache.Fill | kernel/bio.c:92-102 | The buffer holds the latest contents of its block. |
| Bcache.Cache.Bwrite | kernel/bio.c:107-112 | The disk gets the buffer's contents, after which they do not differ. |
| Bcache.Cache.Brelse | kernel/bio.c:117-137 | One reference less; the last one moves the buffer to the front, the order of the others being kept. |
| Bcache.Cache.Bpin | kernel/bio.c:140-145 | One pin more. |
| Bcache.Cache.Bunpin | kernel/bio.c:148-153 | One pin less. |
| Bcache.CachedOnce | kernel/bio.c:58-88 | No two buffers cache the same block. |
| Bcache.RecycledOk | kernel/bio.c:76-86 | Giving an unreferenced buffer to another block loses nothing. |
| CachedLog.StepKeeps | kernel/log.c:68-244 | Every step of the log over the cache, with processes getting, locking, changing and releasing buffers in between, keeps the invariant; among it: a buffer has exactly one pin if its block is logged and not yet installed and none otherwise. |
| CachedLog.ReleaseSafe | kernel/bio.c:117-137 | What `Brelse` demands follows from the invariant: a buffer released unchanged that differs from the disk is pinned. |
| CachedLog.LoggedNeverRecycled | kernel/log.c:214-222 | In every run, from being logged to being installed, a block stays in the same buffer, pinned exactly once. |
| CachedLog.ReadsLatest | kernel/bio.c:92-102 | In every run, whoever locks a buffer finds the latest contents of its block: for a home block what was logged last, or the disk's contents if it is not logged. |
| CachedLog.ReadsWhatWasWritten | kernel/bio.c:1-14 | In every run a read returns what was last put into the block, through any commits, evictions and reads in between, short of a crash. |
| CachedLog.CrashConsistent | kernel/log.c:118-212 | Crash consistency holds of the disk that the cached code writes. |
| BufferedLog.CachedKernel.LogWrite | kernel/log.c:224-244 | log_write with bpin is one step of `CachedLog`; it panics exactly if the log is full, and then nothing has changed. |
| BufferedLog.CachedKernel.WriteLog | kernel/log.c:188-200 | write_log with bread, memmove, bwrite and brelse, other processes acting in between, is n block writes of `LogProtocol`, and ends holding no buffer. It needs fewer than NBUF logged blocks, and fails only with every buffer in use; with no other process at the cache, only if NBUF blocks are logged. |
| BufferedLog.CachedKernel.InstallTrans | kernel/log.c:68-85 | install_trans, for both values of `recovering`, is n block writes of `LogProtocol`; committing, every block is unpinned after its write. It fails only with every buffer in use; with no other process at the cache, only if all NBUF are pinned or, recovering, there is only one. |
| BufferedLog.CachedKernel.WriteHead | kernel/log.c:105-116 | write_head is one block write of `LogProtocol`; it fails only with every buffer in use, and with no other process at the cache only if all are pinned. |
| BufferedLog.CachedKernel.FetchHead | kernel/log.c:89-99 | read_head finds the header that `LogProtocol` recovers from; it fails only with every buffer in use by others. |
| BufferedLog.CachedKernel.RecoverFromLog | kernel/log.c:119-125 | Recovery through the cache runs to the end of `LogProtocol`'s recovery, or stops in bget with every buffer in use. With no other process at the cache it succeeds if and only if there are two buffers or nothing to install. |
| BufferedLog.CachedKernel.Commit | kernel/log.c:203-212 | Commit through the cache, other processes reading meanwhile, runs to the end of `LogProtocol`'s commit, or stops in bget with every buffer in use. It never succeeds with NBUF blocks logged, and with no other process at the cache it succeeds if and only if fewer are. |
| BufferedLog.EmptyLogCommitted | kernel/log.c:203-212 | After that every logged write is committed. |
| FullCache.NoBufferLeft | kernel/bio.c:76-87 | With NBUF blocks pinned, a block that is not logged is not cached and every buffer is in use, so bget panics. |
| FullCache.FullCacheReachable | kernel/log.c:188-200 | With NBUF equal to LOGBLOCKS, as in kernel/param.h, a run of three operations that use exactly their budgets reaches a commit whose first bread has no buffer, although no process holds one. |
| Virtio.DescriptorsPartitioned | kernel/virtio_disk.c:156-213 | In every state of every interleaving of driver and device steps each descriptor is free, or held by the driver step in progress, or one of the three of one request: exactly one of these. |
| Virtio.NoSlotReuse | kernel/virtio_disk.c:274-329 | No ring entry is overwritten before its reader has consumed it, wherever the 16-bit indices stand. |
| Virtio.CompletionClearsSubmitter | kernel/virtio_disk.c:301-333 | A step that clears a buffer's flag clears no other, and the request it completes was announced for that buffer, handed back by the device after that, and in flight for it all the time. |
| Virtio.Disk.AllocDesc | kernel/virtio_disk.c:157-166 | The first free descriptor, or none. |
| Virtio.Disk.FreeDesc | kernel/virtio_disk.c:170-182 | The descriptor is zeroed and free; it was in use, so there is no panic. |
| Virtio.Disk.AllocStep | kernel/virtio_disk.c:202-213 | One turn of alloc3_desc's loop is one step of the machine. |
| Virtio.Disk.UndoStep | kernel/virtio_disk.c:207-209 | One turn of its undoing loop. |
| Virtio.Disk.WriteStep | kernel/virtio_disk.c:241-282 | One store that formats, records or publishes the request. |
| Virtio.Disk.CheckStep | kernel/virtio_disk.c:318-318 | The interrupt loop's test of the used index. |
| Virtio.Disk.IntrStep | kernel/virtio_disk.c:319-329 | One turn of the interrupt loop; the status is 0, so there is no panic. |
| Virtio.Disk.WakeStep | kernel/virtio_disk.c:286-295 | The waiting process finds its flag cleared. |
| Virtio.Disk.FreeStep | kernel/virtio_disk.c:186-197 | One turn of free_chain's loop. |
| ProcProtocol.RunsExecuteSingly | kernel/proc.c:547-615 | In every run, a process whose lock is free is RUNNING exactly when it is the current process of a CPU, and of one only. |
| ProcProtocol.LockAcrossSwitch | kernel/proc.c:590-615 | A switch is made, in either direction, holding the process's lock, and the lock is released on the other side by the CPU that holds it. |
| ProcProtocol.RunsKeepLockOnCpu | kernel/proc.c:547-615 | The same in every run. |
| ProcProtocol.WakeupIsNotLost | kernel/proc.c:666-720 | In every run, if a process registers on a channel and a wakeup on it comes to that process later, wherever it is by then, the process does not sleep after that unless it registers again. |
| ProcProtocol.NoSleepOnFreeLock | kernel/sleeplock.c:22-44 | In every run, while the inner lock is free, whoever sleeps on a sleep lock sleeps on a locked one. |
| ProcProtocol.NoSleepWithZombieChild | kernel/proc.c:425-537 | In every run, while wait_lock is free, no process sleeps in wait while it has a zombie child, reparented ones included. |
| Schedulers.Kernel.RrSelect | kernel/sched_rr.c:15-32 | When nothing else happens meanwhile: the first runnable process in cyclic order from the CPU's cursor, which moves behind it; none exactly if none is runnable. |
| Schedulers.Kernel.PrioritySelect | kernel/sched_priority.c:16-53 | When nothing else happens meanwhile: the first runnable process of highest priority in cyclic order. |
| Schedulers.Kernel.MlfqSelect | kernel/sched_mlfq.c:57-96 | When nothing else happens meanwhile: all processes aged, then the first runnable process of lowest level in cyclic order. |
| Schedulers.PickIsFirst | kernel/sched_rr.c:20-29 | The scan finds the first acceptable slot in cyclic order, and finds one if there is one. |
| Schedulers.Kernel.OnYield | kernel/sched_mlfq.c:107-120 | The hooks of yield under each policy. |
| Schedulers.Kernel.ShouldPreempt | kernel/sched_mlfq.c:133-150 | True exactly for a used-up slice or a runnable process on a better level. |
| Schedulers.Kernel.Tick | kernel/trap.c:85-89 | A timer interrupt, on CPU 0 or another, does what `TickEvent` does. |
| Schedulers.Kernel.Wakeup | kernel/sched_mlfq.c:123-130 | Wakeup does what `WakeupEvent` does. |
| Schedulers.Kernel.StartProc | kernel/sched.c:103-121 | A new process gets the initial scheduling fields. |
| Schedulers.Kernel.Look | kernel/sched_mlfq.c:67-80 | One turn of a scan, under any policy, is one `LookEvent`; other CPUs act between the turns. |
| Schedulers.Kernel.Choose | kernel/sched_mlfq.c:82-95 | The end of a scan, with the candidate checked again under its lock and a new scan if it is no longer good, is one `ChooseEvent`. |
| Schedulers.Kernel.AgeLocked | kernel/sched_mlfq.c:40-54 | A process ready for 8 ticks goes up a level and gets that level's slice. |
| Schedulers.RoundRobinFair | kernel/sched_rr.c:15-32 | In every run, whatever the other CPUs do between the turns of a scan, while a process stays runnable a CPU runs at most NPROC - 1 others, one more if it was in the middle of a scan. |
| Schedulers.PriorityFair | kernel/sched_priority.c:16-53 | The same for a process that keeps its priority, while no runnable one has a higher. |
| Schedulers.SlicesHold | kernel/sched_mlfq.c:17-120 | In every MLFQ run, on any number of CPUs, the ticks a process has run since its slice was refilled and the slice left add up to the time slice of its level. |
| Schedulers.DemotedAfterWholeSlice | kernel/sched_mlfq.c:107-120 | In every MLFQ run a process is demoted, by one level, only by the tick that uses up its whole slice. |
| Schedulers.SliceAfterOther | kernel/sched_rr.c:41-44 | After a tick under another policy and a change to MLFQ, used and remaining slice make up the level's slice if and only if one tick of it was left. |
| Schedulers.DemotedLate | kernel/sched.c:59-66 | A process on level 0 that ran a tick under round robin is demoted by its second tick, not its first. |
| Schedulers.MlfqStarvationFree | kernel/sched_mlfq.c:40-54 | In every MLFQ run a process that stays runnable is on level 0 after two complete scans, by any CPUs, 8 ticks apart, and from then on every CPU runs at most NPROC - 1 others, one more if it is in the middle of a scan. |
| PageTable.EntryRoundTrip | kernel/riscv.h:402-406 | A page-table entry gives back the page number and the flags it was made of. |
| Vm.Physical.Kalloc | kernel/kalloc.c:69-82 | The head of the free list, or 0 exactly if it is empty. |
| Vm.Physical.Kfree | kernel/kalloc.c:47-63 | The page is filled, linked and at the head. |
| Vm.Physical.Freerange | kernel/kalloc.c:34-40 | Exactly the pages of the range become free. |
| Vm.Physical.Walk | kernel/vm.c:99-116 | The table and the slot of the address; without `alloc` they exist exactly if the tables do; with it, the missing tables are made from free pages, one each, and nothing else changes, and it fails if and only if there are fewer free pages than missing tables. |
| Vm.SlotsDistinct | kernel/vm.c:99-116 | Distinct pages, in one address space or in two, have distinct slots. |
| PageBudget.TopIsTwo | kernel/proc.c:195-224 | Trampoline and trapframe together take two tables besides the root. |
| Vm.Physical.Mappages | kernel/vm.c:147-175 | Exactly the pages of the range become mapped, to exactly the given pages and flags, or exactly a prefix; all of them if and only if there are free pages for the missing tables. |
| Vm.Physical.Uvmunmap | kernel/vm.c:194-213 | Exactly the translations of the range go away, and exactly the user pages behind them become free. |
| UserMemory.Uvmalloc | kernel/vm.c:218-242 | Zeroed pages for exactly the new range, or none at all: a failure leaves at most more tables. It succeeds if and only if there are free pages for them and for the tables they miss. |
| UserMemory.Uvmdealloc | kernel/vm.c:249-260 | Exactly the pages above the new size go; nothing happens if it is not smaller. |
| UserMemory.Freewalk | kernel/vm.c:265-280 | Every table below goes back to the free list and none other. |
| UserMemory.Uvmfree | kernel/vm.c:285-290 | Every page the address space had, data and tables, is free; nothing else changed. |
| UserMemory.Uvmcopy | kernel/vm.c:299-326 | The child gets every page of the parent, with the same flags and contents in new pages, or none; it succeeds if and only if there are free pages for them and for the tables they miss. |
| UserMemory.Vmfault | kernel/vm.c:459-478 | A zeroed page if and only if the address is below the size, has no page, and there are free pages for it and for the tables it misses. |
| UserMemory.Ismapped | kernel/vm.c:481-491 | True exactly if the page is mapped. |
| UserMemory.ProcPagetable | kernel/proc.c:195-224 | A page table with exactly trampoline and trapframe, or everything as before; the former if and only if there are free pages for the root and the tables of those two pages. |
| UserMemory.ProcFreepagetable | kernel/proc.c:229-234 | Everything the table referred to is free, trampoline and trapframe excepted. |
| Processes.Machine.Growproc | kernel/proc.c:256-274 | Grows or shrinks exactly that process, all or nothing; growing succeeds if and only if the addresses and the free pages are there; no other process sees a difference. |
| Processes.Machine.Sbrk | kernel/sysproc.c:41-66 | Returns the old size or -1; eager growth fails exactly as growproc does, lazy growth exactly for lack of addresses; no other process sees a difference. |
| Processes.Machine.Fault | kernel/vm.c:459-478 | A page fault changes at most the faulting page of that process, and gives it a page exactly when vmfault does. |
| Processes.Machine.Allocproc | kernel/proc.c:112-153 | A trapframe and a page table, or everything as before; the former if and only if four pages are free. |
| Processes.Machine.Freeproc | kernel/proc.c:159-190 | Every page the process had is free. |
| Processes.Machine.Userinit | kernel/proc.c:238-251 | The first process has an empty memory; it is made if and only if four pages are free. |
| Processes.Machine.Fork | kernel/proc.c:375-422 | The child sees exactly what the parent sees, every process sees what it saw, and a failure leaves no trace. It succeeds if and only if there are four free pages and those that the copies and their tables take. |
| Processes.Machine.Reap | kernel/proc.c:488-537 | Exactly the pages of the reaped process become free; every other process sees what it saw. |
| Processes.Machine.Run | kernel/proc.c:112-537 | Over any sequence of init, fork, sbrk, fault and reap, a process on which none of them acts keeps its size, pages and contents, and no page of memory appears or disappears. |
| Processes.EveryPageUsedOnce | kernel/kalloc.c:1-3 | Every page is on the free list at one place, or a page table, user page or trapframe of one process at one place, or kept by the kernel: exactly one of these. |
| FsImage.WordRoundTrip | kernel/fs.c:438-457 | An entry of an indirect block reads back as stored, and the others are unchanged. |
| FsImage.MarkedUse | kernel/fs.c:68-90 | Marking a block sets its bit of the free map and no other. |
| Files.Fs.Balloc | kernel/fs.c:68-90 | The first free block, marked and zeroed; 0 exactly if every block is in use. |
| Files.Fs.Bfree | kernel/fs.c:94-107 | Exactly that block's bit is cleared; it was set, so there is no panic. |
| Files.Fs.Bmap | kernel/fs.c:421-459 | The block behind a file block, allocated if there is none, directly or behind the indirect block; 0 only on a full disk; logs at most the blocks counted by `Logged`. |
| Files.Fs.Itrunc | kernel/fs.c:464-491 | The file is empty and its blocks, and no others, are free; exactly their bitmap blocks and the inode's block are logged. |
| Files.TruncBound | kernel/fs.c:464-491 | That is at most all bitmap blocks and one more, which fits one transaction on every disk with fewer than MAXOPBLOCKS bitmap blocks. |
| Files.Fs.Readi | kernel/fs.c:510-534 | Exactly the bytes of the file from the offset on, clipped to its size and to what the destination takes; nothing is allocated or logged. |
| Files.Fs.Writei | kernel/fs.c:544-579 | The file's bytes are overwritten from the offset on by a prefix of the source, grown if needed; the whole of it unless the disk is full or the source ends; every other file keeps its bytes; the blocks logged are bounded. |
| Files.Fs.Filewrite | kernel/file.c:135-179 | Across its transactions, none of which logs more than MAXOPBLOCKS blocks, the file gets a prefix of the source; the offset tells how much. It returns the length only if the range is good and the source is there, and -1 only if not or if the disk is full. |
| Files.Fs.WriteChunk | kernel/file.c:149-172 | One transaction of a write logs at most MAXOPBLOCKS blocks; it fails exactly for a bad range, and stops short only if the disk is full or the source ends. |
| Files.Fs.Run | kernel/fs.c:464-579 | Over any sequence of reads, writes and truncations every file behaves as one byte sequence and every result is the right one: a read returns exactly the bytes there, clipped; a write fails exactly for a bad range and stops short only if the disk is full or the source ends. |
| Files.ReadsBack | kernel/fs.c:510-579 | In every such run, a read returns what a completed write of the same range stored, whatever happens to other files in between. |
| Files.HeldOnce | kernel/fs.c:410-419 | A block is marked in use exactly if it is metadata or one slot of one inode holds it, and no two slots do. |
| Directories.Names.Dirlookup | kernel/fs.c:592-615 | The first used entry with the name. |
| Directories.Names.Dirlink | kernel/fs.c:620-646 | Fails exactly if the name is there or the entry cannot be written; otherwise the first free entry gets it and nothing else changes. |
| Directories.Names.Isdirempty | kernel/sysfile.c:187-199 | True exactly if nothing but "." and ".." is left. |
| Directories.Names.LinkStart | kernel/sysfile.c:124-153 | The count is raised and a link is pending, unless the inode is a directory or has the largest count. |
| Directories.Names.LinkEnd | kernel/sysfile.c:155-170 | The pending link becomes an entry, or stays pending. |
| Directories.Names.LinkAbort | kernel/sysfile.c:176-183 | The count of a pending link is lowered again. |
| Directories.Names.Unlink | kernel/sysfile.c:202-256 | Removes the entry, and the parent's count for a directory, exactly when allowed; otherwise nothing changes. |
| Directories.Names.Ialloc | kernel/fs.c:201-221 | The first free inode, or 0 exactly if there is none. |
| Directories.Names.Create | kernel/sysfile.c:259-326 | An existing file or device, or a new inode with its entry, with "." and ".." and the parent's count for a directory; 0 exactly otherwise, with at most a freed inode changed. |
| Directories.Names.Reclaim | kernel/fs.c:350-378 | An inode without links that nobody refers to is free. |
| Directories.Names.Run | kernel/sysfile.c:124-326 | Over any interleaving of operations, with links pending in between, every link count is the number of entries that name the inode plus the pending links. |
| Umalloc.Heap.Malloc | user/umalloc.c:64-90 | First fit: a new block of exactly the units needed, disjoint from every other, or 0 exactly if there is no room and sbrk refuses. The units the allocator takes for its own stay inside the process if and only if the request fits sbrk's int, or is refused, or is not made because there is room. |
| Umalloc.Heap.Free | user/umalloc.c:25-44 | The search terminates, the block's units are free again, the list stays one cycle in address order with no two blocks touching, and no other live block is touched. |
| Umalloc.Heap.Morecore | user/umalloc.c:47-61 | sbrk is asked for at least 4096 units, truncated to an int, and a header for all of them is freed into the list. |
| Umalloc.RequestExact | user/umalloc.c:52-55 | sbrk is asked for exactly the bytes of the block if and only if nbytes <= 2^31 - 32. |
| Umalloc.RequestNegative | user/umalloc.c:52-58 | Above that up to 2^32 - 32 the request is negative: the break does not rise, and the header goes at or past it. |
| Umalloc.RequestTiny | user/umalloc.c:52-58 | Above that the request is for 0 or 16 bytes, and the header claims 2^28 units or more. |
| Umalloc.BlocksDisjoint | user/umalloc.c:25-90 | No unit belongs to two blocks, free or live. |
| Umalloc.BlocksCover | user/umalloc.c:25-90 | Every unit obtained belongs to a block. |

## Left out

Not modelled:

- copyin, copyout, copyinstr (kernel/vm.c:345-452): only that they may fault a page in.
- kexec (kernel/exec.c), pipes (kernel/pipe.c), the console, the UART, the PLIC and traps
  other than the timer.
- Path names (kernel/fs.c:663-741), file descriptors and the open-file table.
- The inode cache: iget, ilock and iput's reference counts (kernel/fs.c:249-386). `Directories`
  takes it that an inode without links is reclaimed when nobody refers to it.
- Process identifiers, the ps and statistics system calls, and runs in which the policy changes,
  beyond the one step described above (kernel/sched.c:59-94).
- Kernel stacks and the kernel's own page table.

Assumptions and simplifications:

- Interleavings are of critical sections and single stores in program order; weak memory and
  the fences that deal with it are not modelled.
- CachedLog.StepKeeps: the steps take it that file-system code changes a buffer only while it
  holds it and inside an operation, logs it before it releases it, and releases its buffers
  before it ends the operation; kernel/fs.c is not composed with the cache and the log, so that a
  crash in the middle of a file operation leaves a well-formed image is stated only for whatever
  invariant holds between operations (`LogProtocol.InvariantSurvives`).
- BufferedLog.CachedKernel.Commit: what happens after a panic is not modelled; a process that
  holds a buffer the log waits for lets go of it, which is liveness of that process.
- BufferedLog.CachedKernel.LogWrite: the caller is in an operation that has not used up its
  budget; the panic outside of an operation is in `LogSystem.Log.LogWrite`.
- LogSystem.Log.InstallTrans: works on a disk with pinned blocks over it; that a read through
  the cache returns that view is `CachedLog.ReadsLatest`.
- Virtio.Disk.IntrStep: the device never fails, so the status it writes is 0; virtio_disk_init
  is not modelled; a request is one block.
- ProcProtocol.NoSleepWithZombieChild: the time slices, the file table and the memory of a
  process have no part in this machine.
- Schedulers.MlfqStarvationFree: the 32-bit tick counter is unbounded, so the wrap-around after
  2^32 ticks is not modelled; that CPUs go on scanning and that the clock goes on are premises.
- Schedulers.PriorityFair: a process whose priority changes meanwhile is not covered.
- Vm.Physical.Mappages: the panics on an unaligned range, an empty range and a page that is
  already mapped are excluded by what it requires; addresses are page numbers.
- Vm.Physical.Kfree: the panic on a bad address is excluded by what it requires.
- UserMemory.Freewalk: the panic on a leaf is excluded by what it requires, which its callers
  are proved to meet.
- Files.Fs.Filewrite: MAXOPBLOCKS is at least 6 (10 in the source), without which a transaction
  could not hold a single block; the log itself is `LogProtocol`.
- Files.Fs.Writei: the bytes that can be fetched from the source are a parameter.
- Directories.Names.Create: whether the disk has room for an entry is a parameter.
- Processes.Machine.Fork: the file table, the name and the scheduling fields are not copied here.
- Umalloc.Heap.Malloc: the 32-bit `size` field is an unbounded number; the sizes that occur are
  below 2^29. What a program does through a block that is not backed by memory is not modelled.
