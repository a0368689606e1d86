# VIMIX in Dafny

VIMIX is a small SMP Unix kernel in C. This project models the parts of it in which
correctness is hardest to see from the code, and proves for-all statements about them: over
every input, every run or every interleaving.

| part | files | form |
|---|---|---|
| virtio block driver | VirtioRing, VirtioProtocol, VirtioDriver | steps of threads, device and interrupt over shared rings; the driver's loops over its arrays |
| dentry cache and path walk | DentryTree, DentryCache, PathNames, PathSpec, PathThread, PathRace, PathWalk | an object with mutually recursive put and drain; any number of threads walking paths as steps; one of them followed through its code while the others run between its locked regions |
| block buffer cache | BioCache, BioBuffers, BioProtocol | an object with scanning loops; any number of clients as steps |
| sleep locks, scheduler, exit and wait | SleepLock, Scheduler, ExitWait, ProcessTable | a program counter per process or CPU; the loops over the process list |
| quicksort | QSortOrder, QSort | in place on a byte array |
| early page table | PageTables, EarlyPgtable | an object over physical pages |
| pipe | Pipe | an object with a ring array |
| reader/writer spin lock | RwSpinLock | one step for each atomic access |
| 64-bit division | Div64 | a loop and a recursion on integers |

Conventions:

- A concurrent part is a state machine: a `State`, a `Step` for each access to shared state,
  `Enabled` and `Apply` (in PathRace the relation `Next`, because what a put evicts is left to
  the cache), an invariant proved step by step, and theorems over every `Run`.
  Spinning is not being enabled. Steps are sequentially consistent.
- Where one thread is followed through its code (PathWalk), the others are threads of the
  state machine in PathRace, and `Interfere` runs any number of their steps between two locked
  regions. References are exact: those of this thread, those of the others and the two of the
  cache are all there are.
- Common holds what several parts share.
- Lists are sequences, objects are named by numbers, and the fields of dentries and buffers
  are maps from those names. A panic is a result value, or is shown not to be reached.
- Machine integers are written out where they matter: 16-bit ring indices, the 32-bit sector
  product, word-size pipe counters, 64-bit remainders.

Facts the proofs brought out:

- The sector of a block is computed in 32 bits; it is right exactly for block numbers below
  2^31 (`SectorIsExact`).
- The comment in the partition loop at kernel/lib/qsort_impl.c:102 has the comparison the
  wrong way round; the model follows the code.
- kernel/kernel/bio.h:54 says that a release moves the buffer to the head of the most recently used list; the code
  moves it to the tail, which is what makes the first unused buffer the oldest one.
- A byte that cannot be copied out of a pipe is consumed all the same.
- `dentry_cache_drain_lru` ends exactly at its target as long as that is within the limit of
  the list; no caller asks for more. Above the limit the puts inside it may drain further,
  down to the limit (`DrainLru`).
- A ready process can be passed over once by a process behind it in the list, and only one that
  has just yielded: its lock is held until the context switch is over, and a scan may go past it
  meanwhile (`LatePick`, `LateOrigin`). It is never passed over twice before it
  is picked (`Fairness`, `PickedInTime`), and a woken or forked process never is (`WokenFairness`), because wakeups and
  forks exclude a scan by the read and write lock of the process list.
- `pipe_close` relies on its caller for closing each end once: a second close of an end changes
  nothing while the other end is open, and would free the pipe again after that (`Close`).
  Its one caller, `file_close` (kernel/kernel/file.c:213-239), calls it once for each file, when
  the last reference to the file goes, so no present caller does that.

## Model

| member | source | states |
|---|---|---|
| `VirtioRing.NoDupBound` | kernel/drivers/virtio_disk.c:349-357 | distinct descriptor numbers below n are at most n, which is why the eight slots of a ring always have room for one more head |
| `VirtioRing.WindowPop` | kernel/drivers/virtio_disk.c:421-436 | taking the oldest unconsumed ring entry leaves the window of the others, also where the 16-bit index wraps |
| `VirtioRing.WindowSlot` | kernel/drivers/virtio_disk.c:349-350 | writing the slot at the index changes nothing the other side has yet to consume |
| `VirtioRing.WindowPush` | kernel/drivers/virtio_disk.c:354-355 | bumping the 16-bit index appends exactly the head in that slot |
| `VirtioProtocol.Alloc3Exact` | kernel/drivers/virtio_disk.c:200-269 | an allocation succeeds if and only if three descriptors are free, and then takes the three lowest |
| `VirtioProtocol.HeadsAreDistinct` | kernel/drivers/virtio_disk.c:349-369 | a head in flight is in exactly one of the avail window, the hands of the device and the used window, any other number in none, and neither window exceeds eight |
| `VirtioProtocol.FreeChainOfThree` | kernel/drivers/virtio_disk.c:214-250 | freeing a formatted chain frees exactly its three descriptors, clears them, and does not reach the double-free or range panic |
| `VirtioProtocol.DecodesToRequest` | kernel/drivers/virtio_disk.c:304-347 | what the device reads from the descriptors of a published head is the request the thread made: direction, sector, length and buffer |
| `VirtioProtocol.StepInv` | kernel/drivers/virtio_disk.c:271-439 | every step of requesters, device and interrupt handler keeps the invariant: free descriptors and in-flight chains partition the table, and unconsumed avail and used slots name distinct in-flight heads |
| `VirtioProtocol.RunSafe` | kernel/drivers/virtio_disk.c:271-439 | in every interleaving from the initial state the invariant holds and no panic has been reached, after any number of index wraps |
| `VirtioProtocol.StepRefines` | kernel/drivers/virtio_disk.c:271-439 | each step is a step, or a stutter, of the four-phase specification submit, perform, return, finish; the transfer happens once, at perform, between the right sectors and the right buffer |
| `VirtioProtocol.SpecBalance` | kernel/drivers/virtio_disk.c:345-369 | in the specification a request outstanding afterwards is one outstanding before, plus a submission, minus a hand-back |
| `VirtioProtocol.HandedBackOnce` | kernel/drivers/virtio_disk.c:345-369 | over every run the requests a thread submitted are those handed back to it plus the one outstanding, so each buffer is handed back exactly once |
| `VirtioProtocol.SectorIsExact` | kernel/drivers/virtio_disk.c:273-278 | the sector computed in 32-bit arithmetic is twice the block number if and only if the block number is below 2^31 |
| `VirtioDriver.Disk.AllocDesc` | kernel/drivers/virtio_disk.c:200-212 | takes the lowest free descriptor, or none when all are busy |
| `VirtioDriver.Disk.FreeDescriptor` | kernel/drivers/virtio_disk.c:214-231 | clears and frees a busy descriptor; panics exactly for an index out of range or a free descriptor |
| `VirtioDriver.Disk.FreeChainFrom` | kernel/drivers/virtio_disk.c:233-250 | the loop over the array computes FreeChain, panics included |
| `VirtioDriver.Disk.GiveBack` | kernel/drivers/virtio_disk.c:261-264 | the roll-back restores the free table |
| `VirtioDriver.Disk.Alloc3Desc` | kernel/drivers/virtio_disk.c:252-269 | the loop with its roll-back computes Alloc3: three descriptors, or none and an unchanged table |
| `VirtioDriver.Disk.Submit` | kernel/drivers/virtio_disk.c:304-355 | the arrays afterwards are those of the protocol's steps Format, Slot and Publish of that thread; no other descriptor is touched |
| `VirtioDriver.Disk.FormatChain` | kernel/drivers/virtio_disk.c:304-345 | the three descriptors, the header and the record of the request, exactly as the protocol formats them |
| `VirtioDriver.Disk.Interrupt` | kernel/drivers/virtio_disk.c:416-436 | consumes the used window in order and gives back exactly its buffers; panics if and only if an entry of it has a bad status |
| `DentryTree.CountZeroIsLeaf` | kernel/fs/dentry.c:70-104 | a count of 0 means a leaf and no outstanding handle |
| `DentryCache.QuietMeans` | kernel/fs/dentry.c:160-207 | between calls each count is handles plus children, a count of 0 is a leaf, the linked zero-count entries outside the unlinked root are exactly the LRU list, and no live entry has been freed |
| `DentryCache.AgesTrans` | kernel/fs/dentry_cache.c:57-117 | eviction from the old end and insertion at the young end compose: the LRU order is never shuffled |
| `DentryCache.EvolvesTrans` | kernel/fs/dentry_cache.c:57-117 | what one put or drain may do to the rest of the cache (entries only disappear, all of them freed, once) composes over a cascade |
| `DentryCache.EvictOk` | kernel/fs/dentry_cache.c:72-97 | taking the oldest entry off the list and out of the tree keeps all counts, the parent reference passing to the drain |
| `DentryCache.Cache.constructor` | kernel/fs/dentry_cache.c:18-48 | an empty cache with its two roots satisfies the invariant |
| `DentryCache.Cache.Get` | kernel/fs/dentry.c:160-177 | one more reference; an entry with count 0 leaves the LRU list |
| `DentryCache.Cache.Put` | kernel/fs/dentry.c:179-207 | one reference less; the last one frees an orphan, detaches and frees an unlinked entry, and makes any other the youngest of the LRU list before draining it; the whole cascade only removes idle entries, each freed once, oldest first, orphaning no child |
| `DentryCache.Cache.Free` | kernel/fs/dentry.c:137-158 | an entry with count 0 and no parent is removed once |
| `DentryCache.Cache.RemoveFromUnlinked` | kernel/fs/dentry_cache.c:206-223 | the entry is detached and the unlinked root loses the reference it had through it |
| `DentryCache.Cache.MoveToLru` | kernel/fs/dentry_cache.c:119-130 | the entry becomes the youngest and the list ends within its limit |
| `DentryCache.Cache.DrainLru` | kernel/fs/dentry_cache.c:57-117 | terminates in spite of the cascading puts and frees what it takes, oldest first; a list within the target is untouched, any other ends exactly at the target, or, where the target is above the limit of the list, between the two |
| `DentryCache.Cache.DetachBatch` | kernel/fs/dentry_cache.c:67-97 | one locked round detaches the oldest entries, at most 32, and keeps the counts, each parent reference in the hands of the drain |
| `DentryCache.Cache.EvictOne` | kernel/fs/dentry_cache.c:74-96 | the oldest entry leaves list and tree |
| `DentryCache.Cache.PutAndFree` | kernel/fs/dentry_cache.c:107-115 | every parent is put and every victim freed, with whatever further draining that causes, and nothing is left over |
| `DentryCache.Cache.AllocOrphan` | kernel/fs/dentry.c:37-68 | a fresh entry with one reference, no parent and no children |
| `DentryCache.Cache.Register` | kernel/fs/dentry.c:70-82 | the child hangs below its parent, which it holds by a reference |
| `DentryCache.Cache.Unregister` | kernel/fs/dentry.c:84-104 | undoes a registration, counts included |
| `DentryCache.Cache.SwitchChildren` | kernel/fs/dentry.c:122-135 | the new entry takes the place of the old one; the reference on the parent moves, no count changes |
| `DentryCache.Cache.Lookup` | kernel/fs/dentry_cache.c:132-149 | the child of that name with one more reference, or none exactly when there is no such child |
| `DentryCache.Cache.AddLocked` | kernel/fs/dentry_cache.c:172-193 | the entry already there wins and the new one is freed at once; otherwise the new one is registered, exactly when no child had the name; names stay unique |
| `DentryCache.Cache.Add` | kernel/fs/dentry_cache.c:162-197 | an entry of that name below the parent with one reference for the caller, new exactly when there was none; names stay unique |
| `DentryCache.Cache.SetMaxLru` | kernel/fs/dentry_cache.c:225-235 | sets the limit and drains to it |
| `DentryCache.Cache.ClearLru` | kernel/fs/dentry_cache.c:237-241 | empties the LRU list; handles and held entries are untouched |
| `DentryCache.UniqueAttach` | kernel/fs/dentry_cache.c:183-193 | registering after a search that found no such name keeps names unique in every directory |
| `DentryCache.UniqueShrinks` | kernel/fs/dentry_cache.c:57-117 | eviction never makes two names clash |
| `PathNames.SkipLead` | kernel/fs/fs_lookup.c:26-41 | what is left starts with neither a slash nor "./" |
| `PathNames.ElemLen` | kernel/fs/fs_lookup.c:48-53 | the element reaches up to the first slash or the end |
| `PathNames.Skip` | kernel/fs/fs_lookup.c:24-71 | each element consumes part of the path |
| `PathNames.SkipElem` | kernel/fs/fs_lookup.c:24-71 | the pointer loops of skipelem compute Skip |
| `PathNames.ComponentsAreSegments` | kernel/fs/fs_lookup.c:12-71 | calling skipelem until it stops yields the segments between slashes, in order, without empty ones and without "." except at the end, up to one that is too long |
| `PathSpec.WalkByElement` | kernel/fs/fs_lookup.c:106-141 | one element of the path decides how the walk without a cache goes on, checks in the order of the source |
| `PathSpec.GetSound` | kernel/fs/dentry.c:160-177 | a get keeps the cache sound and its references exact, and changes nothing other threads rely on |
| `PathSpec.PutSound` | kernel/fs/dentry.c:179-207 | a put with its evictions keeps the cache sound, its names unique, its entries coherent and its references exact, and changes nothing other threads rely on |
| `PathSpec.AllocSound` | kernel/fs/fs_lookup.c:173-178 | so does a new orphan |
| `PathSpec.FillSound` | kernel/fs/fs_lookup.c:180-182 | filling in the inode of an entry only one thread holds keeps the cache coherent for all |
| `PathSpec.RegisterSound` | kernel/fs/fs_lookup.c:200-204 | registering an entry the file system has filled in keeps positive and negative entries coherent and names unique |
| `PathSpec.LimitSound` | kernel/fs/dentry_cache.c:225-235 | changing the LRU limit evicts nothing a thread holds |
| `PathSpec.SoleReference` | kernel/fs/fs_lookup.c:173-206 | an entry whose one reference is this thread's is held by no other thread |
| `PathSpec.EffectSound` | kernel/fs/fs_lookup.c:168-209 | every locked region of any thread keeps the cache sound, leaves exactly the references held before plus those it took minus those it gave back, and changes nothing the others rely on |
| `PathSpec.KeepsTrans` | kernel/fs/fs_lookup.c:168-209 | what two regions leave alone they leave alone together, because identifiers of freed entries are never used again |
| `PathSpec.PlaceStays` | kernel/fs/fs_lookup.c:106-211 | what other threads do between two locked regions moves no held entry to another place |
| `PathThread.ChildNamedFacts` | kernel/fs/dentry_cache.c:132-149 | the search finds the entry of that name below the directory, if there is one |
| `PathThread.NeverStuck` | kernel/fs/fs_lookup.c:104-214 | a thread on its way always has a next region |
| `PathThread.ThreadStays` | kernel/fs/fs_lookup.c:104-214 | a region of one thread leaves every other thread where it is, its orphan an orphan and its place the same |
| `PathThread.PlanAllowed` | kernel/fs/fs_lookup.c:73-214 | at every point of its walk a thread's next region is one EffectSound covers: it fills and registers only an orphan of its own, under a name no child has |
| `PathThread.PlanBalance` | kernel/fs/fs_lookup.c:73-214 | what a thread holds after a region is what it held, plus what the region took, minus what it gave back |
| `PathThread.PlanAfter` | kernel/fs/fs_lookup.c:73-214 | after its own region a thread is where the walk without a cache would be |
| `PathThread.NextPlace` | kernel/fs/fs_lookup.c:143-170 | ".", ".." and the name of a cached child lead where they lead in the file system |
| `PathThread.LostAfter` | kernel/fs/fs_lookup.c:185-197 | the entry another thread has registered meanwhile is where the name leads |
| `PathThread.RegisterAfter` | kernel/fs/fs_lookup.c:198-205 | the own entry, registered, is where the name leads |
| `PathRace.StepInv` | kernel/fs/fs_lookup.c:73-214 | every region of every thread, and every first thread, fork and change of the LRU limit, keeps the invariant for all threads and changes nothing others hold |
| `PathRace.RunInv` | kernel/fs/fs_lookup.c:73-214 | the invariant holds throughout every interleaving |
| `PathRace.RunSafe` | kernel/fs/fs_lookup.c:168-206 | in every run from the initial cache no directory has two entries of one name, no entry disagrees with the file system, and the references to entries are exactly those the threads hold and the two of the cache |
| `PathRace.WalkResult` | kernel/fs/fs_lookup.c:73-214 | in every run a finished walk has the entry or error of walking the file system without a cache, and its thread holds exactly one reference more, or exactly what it held |
| `PathRace.WalkShortens` | kernel/fs/fs_lookup.c:106-211 | every region brings a walk nearer its end, whatever the others do |
| `PathRace.WinnerIsFound` | kernel/fs/fs_lookup.c:184-197 | the second search finds the entry another thread has registered |
| `PathRace.LoserEnds` | kernel/fs/fs_lookup.c:187-197 | the thread that lost the race holds the registered entry of that name; its own has been freed |
| `PathRace.RaceResult` | kernel/fs/fs_lookup.c:168-206 | of two threads that miss one name the first to register wins: as long as its entry is cached the other one ends with it, whatever runs between |
| `PathRace.RunKeeps` | kernel/fs/fs_lookup.c:73-214 | over any part of any run an entry that stays keeps its parent, its name and its inode |
| `PathWalk.OwnRegion` | kernel/fs/fs_lookup.c:73-214 | a locked region of this thread changes this thread's references by what it took and gave back and leaves the other threads where they are |
| `PathWalk.Kernel.Apply` | kernel/fs/fs_lookup.c:73-214 | the methods of the cache do to it what the regions of the state machine do |
| `PathWalk.Kernel.Perform` | kernel/fs/fs_lookup.c:73-214 | one step of another thread is a step of the state machine and keeps what this thread holds |
| `PathWalk.Kernel.Interfere` | kernel/fs/fs_lookup.c:134-184 | any number of steps of any of the other threads keep what this thread holds |
| `PathWalk.Kernel.FindCached` | kernel/fs/fs_lookup.c:168-170 | a cached child is at the place the name leads to, with one reference; finding none changes nothing and means there is none |
| `PathWalk.Kernel.UseWinner` | kernel/fs/fs_lookup.c:187-197 | a thread that lost the race holds the winner's entry; its own has been freed |
| `PathWalk.Kernel.LinkNew` | kernel/fs/fs_lookup.c:198-205 | the new entry is registered, at the place the name leads to |
| `PathWalk.Kernel.NextEntry` | kernel/fs/fs_lookup.c:166-207 | whatever other threads do during the unlocked look-up, the entry returned is the one of that name below the directory, with exactly one reference more |
| `PathWalk.Kernel.StepTo` | kernel/fs/fs_lookup.c:143-210 | one component: exactly the reference to the directory is exchanged for one to the entry for ".", ".." or the name |
| `PathWalk.Kernel.WalkElement` | kernel/fs/fs_lookup.c:106-141 | the checks in the order of the source, other threads running between them, each failing with its own error and with no reference left over |
| `PathWalk.Kernel.StartAtCwd` | kernel/fs/fs_lookup.c:90-102 | a removed current directory is refused and its reference given back |
| `PathWalk.Kernel.WalkFrom` | kernel/fs/fs_lookup.c:104-214 | the loop ends where the walk without a cache ends, with exactly one reference, or none on an error |
| `PathWalk.Kernel.DentryFromPath` | kernel/fs/fs_lookup.c:73-214 | for every path, every cache content and every interference the result is the inode or error of walking the file system without a cache, with exactly one new reference on success and none on failure |
| `BioCache.AcquireOk` | kernel/kernel/bio.c:37-84 | the buffer found, recycled or made is for the block asked for, with one reference more; nobody's referenced buffer changes its block; counters and bounds stay exact and keys unique |
| `BioCache.ReleaseOk` | kernel/kernel/bio.c:144-180 | one reference less; only an unreferenced buffer can disappear; the number of buffers stays at the minimum or above, and above it at most one unused buffer more than allowed is kept |
| `BioCache.AcquireQueue` | kernel/kernel/bio.c:47-83 | a miss with unused buffers takes the first of the queue |
| `BioCache.ReleaseQueue` | kernel/kernel/bio.c:144-180 | the last release appends the buffer to the queue, or frees it, exactly when there are more buffers than the minimum and more unused ones than allowed |
| `BioCache.CounterOk` | kernel/kernel/bio.c:182-194 | bio_get and bio_put of a held buffer keep the invariant as long as the count stays positive |
| `BioCache.GrowOk` | kernel/kernel/buf.c:19-28 | a new buffer at the head of the list keeps the counters exact; unused it is first in the queue |
| `BioCache.TrimOk` | kernel/kernel/bio.c:196-212 | afterwards there are not too many buffers and nothing was freed that was allowed to stay; a prefix of the queue, the oldest, is gone, and every referenced buffer is untouched |
| `BioCache.PlaceholdersOk` | kernel/kernel/bio.c:222-232 | the buffers added are unused placeholders in front of the queue, up to the minimum |
| `BioBuffers.BufferCache.constructor` | kernel/kernel/bio.c:16-30 | 16 unused placeholders and the invariant |
| `BioBuffers.BufferCache.GetFromCache` | kernel/kernel/bio.c:37-84 | the scan computes the buffer and cache of the specification; a recycled buffer is an unused one released no later than any other, never-used ones first; the cache grows only when every buffer is in use |
| `BioBuffers.BufferCache.Release` | kernel/kernel/bio.c:144-180 | the specification's release; unused buffers stay ordered by their last release |
| `BioBuffers.BufferCache.Get` | kernel/kernel/bio.c:182-187 | one reference more on a held buffer |
| `BioBuffers.BufferCache.Put` | kernel/kernel/bio.c:189-194 | one reference less where another remains |
| `BioBuffers.BufferCache.FreeExtraBuffers` | kernel/kernel/bio.c:196-212 | the scan frees unused buffers, oldest first, until there are not too many |
| `BioBuffers.BufferCache.SetMinBuffers` | kernel/kernel/bio.c:214-236 | refuses less than three; otherwise grows to the new minimum or trims |
| `BioBuffers.BufferCache.SetMaxFreeBuffers` | kernel/kernel/bio.c:238-249 | refuses a negative number; otherwise trims |
| `BioProtocol.AcquireKeepsKeys` | kernel/kernel/buf.c:30-37 | recycling never takes a buffer somebody references |
| `BioProtocol.StepInv` | kernel/kernel/bio.c:37-194 | every step of any client keeps the invariant: counts are references plus pins, valid buffers have the latest contents, and the disk lags only where a changed buffer is locked by its changer or pinned |
| `BioProtocol.OverwriteContents` | kernel/fs/vimixfs/log.c:88-92 | a client that overwrites a buffer without reading it leaves contents, locks and the record of unwritten blocks in order |
| `BioProtocol.RunInv` | kernel/kernel/bio.c:37-194 | the invariant holds throughout every run of clients that keep to the contract |
| `BioProtocol.ReadsLatest` | kernel/kernel/bio.c:91-109 | between bio_read and bio_release a client sees the latest contents of the block it asked for, and no other client has that block |
| `BioProtocol.KeyStable` | kernel/kernel/bio.c:85-88 | from its reference to its release, waiting for the lock included, a client's buffer is in the cache for the block it asked for |
| `BioProtocol.StoreStep` | kernel/kernel/bio.c:37-194 | what cache and disk store for a block changes only when a client writes it; recycling, trimming, reading and writing back leave every block alone |
| `BioProtocol.StoredIsLatest` | kernel/kernel/bio.c:91-127 | the valid buffer of a block, or else the disk, has what was last written to it |
| `BioProtocol.NothingLost` | kernel/kernel/bio.c:111-127 | with every client idle and nothing pinned the disk has the latest contents of every block |
| `BioProtocol.StepsDefined` | kernel/kernel/bio.c:91-194 | no client is ever at a buffer that is gone, uncounted or without contents where it needs them |
| `SleepLock.NoLostElsewhere` | kernel/kernel/proc.c:550-583 | going to sleep, waking up, locking and trying leave every sleeper its wakeup |
| `SleepLock.NoLostScan` | kernel/kernel/proc.c:585-610 | the wakeup scan moves past a process only when that process does not sleep |
| `SleepLock.ScannedProcess` | kernel/kernel/proc.c:598-608 | a process whose lock the scan holds is not on its way to sleep |
| `SleepLock.StepInv` | kernel/lib/sleeplock.c:21-82 | every step keeps the invariant, among it: whoever sleeps on the lock, or has decided to, has its release or its wakeup still ahead |
| `SleepLock.RunInv` | kernel/lib/sleeplock.c:21-82 | the invariant holds throughout every interleaving |
| `SleepLock.MutualExclusion` | kernel/lib/sleeplock.c:21-82 | at most one process owns the lock, from setting it to clearing it |
| `SleepLock.WakeupAhead` | kernel/lib/sleeplock.c:73-82 | a process asleep on the lock: the lock is taken, or its releaser is inside the wakeup scan and has not passed that process |
| `SleepLock.NobodyLeftAsleep` | kernel/lib/sleeplock.c:73-82 | nobody sleeps on a lock that is free and that nobody is releasing |
| `Scheduler.StateChange` | kernel/kernel/proc.c:446-483 | whoever holds a process's lock may change its state without contradicting any CPU |
| `Scheduler.StepInv` | kernel/kernel/scheduler.c:61-113 | every step on any CPU keeps the invariant: each process lock is held by the CPU on its side of the context switch, and a context is in memory exactly when no CPU executes it |
| `Scheduler.RunInv` | kernel/kernel/scheduler.c:61-113 | the invariant holds throughout every run of schedule, yield, sleep, wakeup, fork, exit and wait |
| `Scheduler.OneCpu` | kernel/kernel/scheduler.c:76-97 | no two CPUs ever execute one process |
| `Scheduler.FreeMeansOff` | kernel/kernel/proc.c:446-473 | a process that is not running and whose lock is free is on no CPU and its context is complete |
| `Scheduler.LoadsSavedContext` | kernel/kernel/scheduler.c:86-91 | the context switched to was stored completely and no other CPU executes it |
| `Scheduler.ReapsOffCpu` | kernel/kernel/proc.c:386-424 | wait frees a process only when no CPU executes it or is still inside its last context switch |
| `Scheduler.Patience` | kernel/kernel/scheduler.c:14-38 | a process that stays ready never falls back in the list and moves up with every pick of another, but for one pick of a scan that went past it while it was locked |
| `Scheduler.Fairness` | kernel/kernel/scheduler.c:14-38 | while a process is ready, that is runnable and locked by nobody but perhaps a waker looking at it, there are at most as many picks as processes were ahead of it, and one more if a scan in progress had gone past it, whatever is forked, reaped or woken meanwhile |
| `Scheduler.OnlyTaken` | kernel/kernel/scheduler.c:14-38 | a ready process stops being ready only when a scan locks it to pick it; wakers that look at it, forks, exits and other picks leave it ready |
| `Scheduler.PickedInTime` | kernel/kernel/scheduler.c:14-38 | from the moment a process is ready, once there have been more picks than processes were ahead of it, and one more if a scan had gone past it, the process itself has been picked |
| `Scheduler.PickMovesUp` | kernel/kernel/scheduler.c:14-38 | a pick of another process moves a ready one up by exactly one place if and only if the scan had not gone past it, and otherwise leaves it where it was |
| `Scheduler.BecomesReady` | kernel/kernel/proc.c:585-619 | a process becomes ready only by being woken from its sleep, by its fork, or by the CPU it yielded on giving up its lock; only in the last case can a scan be past it, and then it was before |
| `Scheduler.LateOrigin` | kernel/kernel/scheduler.c:14-38 | whenever a scan is past a ready process, the process had yielded and its lock was given up while a scan was past it; it has been ready, with a scan past it, ever since |
| `Scheduler.WokenFairness` | kernel/kernel/scheduler.c:14-38 | from the moment a process is woken, forked or ready from the start there are at most as many picks as processes were ahead of it |
| `Scheduler.LatePick` | kernel/kernel/proc.c:477-483 | a run in which a yielding process, ready at the head of the list, sees one other process picked first: a scan found it still locked by its context switch |
| `ExitWait.StepInv` | kernel/kernel/proc.c:285-437 | every step of fork, exit and wait keeps the invariant on tree, zombies, locks and sleepers |
| `ExitWait.RunInv` | kernel/kernel/proc.c:285-437 | the invariant holds throughout every interleaving |
| `ExitWait.ParentsAlive` | kernel/kernel/proc.c:285-367 | every listed process but init has a listed parent that is no zombie, and no zombie has children |
| `ExitWait.NoMissedExit` | kernel/kernel/proc.c:346-367 | with the wait lock free a process asleep in wait has no zombie child |
| `ExitWait.ReapedOnce` | kernel/kernel/proc.c:386-424 | each process is reaped at most once and is then gone |
| `ExitWait.ReapsTheDead` | kernel/kernel/proc.c:388-421 | only a process that is done with exit and off its CPU is reaped, and it has no children |
| `ExitWait.WokenStaysAwake` | kernel/kernel/proc.c:351-362 | a parent or init woken under the wait lock cannot be on its way to sleep |
| `ProcessTable.Processes.Wakeup` | kernel/kernel/proc.c:585-610 | wakes every sleeper on the channel but the caller, and nobody else |
| `ProcessTable.Processes.Reparent` | kernel/kernel/proc.c:300-314 | every listed child now belongs to init, other parents are untouched, and init is awake if there was one |
| `ProcessTable.Processes.ScanForZombie` | kernel/kernel/proc.c:377-424 | a zombie child if there is one, else whether there are children |
| `ProcessTable.Processes.Unlist` | kernel/kernel/proc.c:410-411 | takes the process off the list and keeps the others |
| `ProcessTable.Processes.NextRunnable` | kernel/kernel/scheduler.c:14-38 | the first runnable process whose lock is free, moved behind all others; none exactly when there is no such process |
| `QSort.SwapBytes` | kernel/lib/qsort_impl.c:157-165 | exchanges two blocks and touches nothing else, also when they are one block |
| `QSort.RotateThree` | kernel/lib/qsort_impl.c:171-183 | rotates three blocks, a swap when the second and third are one |
| `QSort.Swap` | kernel/lib/qsort_impl.c:157-165 | the byte loop exchanges two elements |
| `QSort.Rotate` | kernel/lib/qsort_impl.c:171-183 | the byte loop rotates elements, the aliased case included |
| `QSort.LeftStep` | kernel/lib/qsort_impl.c:72-87 | the top of the loop: one element of the left side is classified, or there is nothing to do there |
| `QSort.RightStep` | kernel/lib/qsort_impl.c:89-150 | from the label loop_right: one element is classified and the two sides come closer, or the partition is complete |
| `QSort.Partition` | kernel/lib/qsort_impl.c:61-151 | the loop terminates with the range permuted into below, equal to and above the pivot |
| `QSort.Round` | kernel/lib/qsort_impl.c:61-145 | the nested call gets the smaller side, the loop goes on with the other |
| `QSort.QsPartition` | kernel/lib/qsort_impl.c:54-152 | the range is sorted in place, a permutation of what it was; 2^depth of nested calls is at most one more than the number of elements |
| `QSort.Qsort` | kernel/lib/qsort_impl.c:42-49 | for every array, element size and total preorder the result is a sorted permutation, and the nested depth d satisfies 2^d <= n + 1 |
| `QSort.MiddleOffset` | kernel/lib/qsort_impl.c:61-64 | the byte offset of the pivot is that of element n / 2 |
| `QSortOrder.ShrinkLeft` | kernel/lib/qsort_impl.c:120-135 | with the right side of a partition sorted only the left side remains to be sorted |
| `QSortOrder.ShrinkRight` | kernel/lib/qsort_impl.c:136-143 | with the left side sorted only the right side remains |
| `PageTables.DescendPlace` | kernel/init/early_pgtable.c:90-108 | a walk of the table ends at the page whose place is the indices followed, so no table page is shared |
| `PageTables.CreatedInv` | kernel/init/early_pgtable.c:98-103 | a new table page gets a place of its own |
| `PageTables.CreatedTranslate` | kernel/init/early_pgtable.c:98-103 | creating an empty table changes no translation |
| `PageTables.SetTranslate` | kernel/init/early_pgtable.c:124-126 | a leaf entry changes the translation of its own page and no other |
| `EarlyPgtable.IndicesInjective` | kernel/include/kernel/pgtable.h:20-24 | two pages less than the whole space apart have different indices |
| `EarlyPgtable.IndicesAlias` | kernel/include/kernel/pgtable.h:20-24 | pages a whole space apart share their entry: only the index bits of an address count |
| `EarlyPgtable.IndicesIff` | kernel/include/kernel/pgtable.h:20-24 | two pages share their entry if and only if they are a multiple of the whole space apart |
| `EarlyPgtable.FormatsAgree` | kernel/arch/riscv/asm/pgtable-bits.h:41-55 | for Sv39 and Sv32 the indices are the shifts and masks of the format |
| `EarlyPgtable.Builder.constructor` | kernel/init/early_pgtable.c:142-145 | a zeroed root table and a pool of zeroed pages refine the empty map |
| `EarlyPgtable.Builder.AllocPage` | kernel/init/early_pgtable.c:76-88 | the next page of the pool, or a halt when it is empty |
| `EarlyPgtable.Builder.Walk` | kernel/init/early_pgtable.c:90-108 | the last-level table for the address, existing or made, without changing any translation; pages used plus pages free stay constant |
| `EarlyPgtable.Builder.Map` | kernel/init/early_pgtable.c:110-128 | the table refines the flat map with exactly the pages of the region added, flags V, A and D included; it halts only on a misaligned address or size or without pages |
| `EarlyPgtable.Builder.MapRegions` | kernel/init/early_pgtable.c:226-241 | if no two pages of the wanted regions are a multiple of the whole space apart, the tables translate every page of every wanted region to its physical page and flags; pages of no region translate as before |
| `EarlyPgtable.EveryPageMapped` | kernel/init/early_pgtable.c:226-241 | for disjoint regions every page translates to exactly its region's physical page and flags, whatever was mapped after it |
| `EarlyPgtable.SpreadIsDisjoint` | kernel/init/early_pgtable.c:226-241 | that no two pages are a multiple of the whole space apart is exactly that no two share an entry |
| `EarlyPgtable.WindowSpread` | kernel/init/early_pgtable.c:226-241 | regions that do not overlap and lie within one window of the size of the space meet that condition |
| `EarlyPgtable.OutsideUnchanged` | kernel/init/early_pgtable.c:226-241 | pages of no region keep their translation |
| `Pipe.WrapApart` | kernel/ipc/pipe.c:12-20 | counters less than a word apart wrap to the same value only if they are equal |
| `Pipe.WrappedPlace` | kernel/ipc/pipe.c:115-116 | a wrapped counter still gives the place in the ring |
| `Pipe.Ring.EmptyAndFull` | kernel/ipc/pipe.c:12-20 | the two tests mean what they say in spite of the wrap |
| `Pipe.Ring.constructor` | kernel/ipc/pipe.c:34-49 | an empty pipe with both ends open |
| `Pipe.Ring.Put` | kernel/ipc/pipe.c:115-116 | one byte more at the end; occupancy stays at most 512 |
| `Pipe.Ring.Take` | kernel/ipc/pipe.c:150-151 | the oldest byte, in order |
| `Pipe.Ring.Write` | kernel/ipc/pipe.c:88-124 | appends a prefix of the caller's remaining bytes and stops exactly when done, full, unreadable or broken |
| `Pipe.Ring.ReadBytes` | kernel/ipc/pipe.c:126-162 | hands out the next bytes in order, all that were asked for or all there are; a byte that cannot be copied out is consumed |
| `Pipe.Ring.Close` | kernel/ipc/pipe.c:64-86 | the pipe is freed by whoever closes the second end; it stays freed once if and only if an end was still open at the call |
| `RwSpinLock.StepInv` | kernel/lib/rwspinlock.c:46-118 | every atomic step keeps the invariant |
| `RwSpinLock.RunInv` | kernel/lib/rwspinlock.c:46-118 | the invariant holds throughout every interleaving |
| `RwSpinLock.WriterExcludes` | kernel/lib/rwspinlock.c:65-85 | a writer inside excludes every reader and every other writer, and the counter is the number of readers |
| `RwSpinLock.ReaderCanLeave` | kernel/lib/rwspinlock.c:87-100 | the counter never underflows |
| `RwSpinLock.ReadersOnlyLeave` | kernel/lib/rwspinlock.c:71-82 | once a writer has the flag the readers inside only leave |
| `Div64.DivU64` | kernel/lib/div64.c:9-29 | n = d * q + r with r < d for every 64-bit n and d > 0, every partial remainder within 64 bits; d = 0 gives all ones and n |
| `Div64.Div` | kernel/lib/div64.c:37-67 | Euclidean division for every nonzero divisor, remainder never negative, result within 64 bits |
| `Div64.EuclideanUnique` | kernel/lib/div64.c:37-67 | quotient and remainder are the only ones that satisfy the law |

## Left out

- Device bring-up, MMIO, UART, PLIC, RTC, device tree parsing: register plumbing without a deep invariant.
- Virtio initialisation, and devices that complete a chain twice, out of range or with an error: the protocol assumes a device that completes each chain once with status 0; the driver's class covers the error branches.
- VirtioDriver.Disk.Interrupt: reads the device's index once per call, while the source reads it again on every turn; the protocol's handler step does read it again.
- Memory ordering weaker than sequential consistency, and failure of memory allocation.
- Inode reference counts, mounts, file systems, exec, files: they depend on code outside this model.
- System calls that change the name space while a path is walked: PathWalk keeps the file system fixed and lets other threads look up, register, evict, get and put.
- Changing the current directory and exit of a thread in PathRace: a thread keeps the current directory it was started with.
- Path strings contain no NUL character; names are compared as sequences of characters.
- DentryCache.Cache.Unregister: clears the parent pointer before the put instead of after it, which nobody can see because the caller holds the parent.
- DentryCache.Cache.Register: covers dentry_cache_add_to_unlinked and dentry_alloc_init too, which are calls of it.
- BioBuffers.BufferCache.GetFromCache: ends before the sleep lock is taken; the lock is a step of BioProtocol.
- Block requests for device 0 in BioProtocol: the source panics for them because there is no such device.
- Pointer aliasing between dentries, buffers and processes: SleepLock, Scheduler, ExitWait, BioProtocol and the record fields of the classes are values, not heap objects.
- SleepLock.StepInv: does not model g_wait_lock inside wakeup, which only keeps other wakeups out; sleep_lock_2 is a sequence of trylocks and unlocks and has no step of its own.
- Scheduler.StepInv: takes the whole of fork's publication, and of wait's removal of a zombie, as one step under the list's write lock; a waker has the list's read lock while it holds another process's lock, and the source keeps it in between as well, so the model has more runs.
- ExitWait.StepInv: a wakeup of a process's own channel is one step, because only that process sleeps on it; ProcessTable.Processes.Wakeup has the loop. Killing, file closing and exit codes are left out.
- Liveness beyond fairness of picks: spin locks may starve, and a writer killed inside a pipe write wakes nobody.
- Pipe.Ring.Write: one call is what happens between two sleeps; sleeping and waking are not modelled. The same holds for Pipe.Ring.ReadBytes.
- QSort.Qsort: the null-pointer checks of base and compare have no counterpart.
- EarlyPgtable.Builder.Map: entries are a page number and a set of flags, so that building one and reading its address back are inverses; low bits of a physical address are dropped as in the source.
- EarlyPgtable.Builder.MapRegions: the list of regions is given; how early_pgtable_init computes it is left out.
- Div64.Div: operands of -2^63 are excluded, because negating them overflows; the division by zero the source forces is the result None.
- Bitmap, circular buffer, formatted printing, random device, permission checks: easier cousins of the parts above.
