# Verification of the FreeBSD emulation layer

This project models the hard cores of the layer that lets FreeBSD ISDN and USB drivers run in a NetBSD
kernel, and proves properties of them for every input, every run and every reachable state.
`dafny verify dfyconfig.toml` checks all of it.

| files | core |
|---|---|
| `Basics.dfy` | optional values and lists without some elements, used by the other files |
| `Ticks.dfy`, `Callout*.dfy` | the callout scheduler: one worker, any number of clients, two levels of locks, 32-bit ticks |
| `DevTable*.dfy`, `DevConf.dfy`, `DevGiven.dfy` | the device table, reference counts, generations and aliases |
| `DevPath.dfy`, `DevMount.dfy`, `DevMirror.dfy` | the directory tree of a mount, paths in it, and the table and all trees together |
| `Readdir.dfy` | listing a directory page by page |
| `RecursiveMutex.dfy` | the recursive mutex over a non-recursive one, at single field accesses |
| `Spl*.dfy` | the mutex built on one nesting counter and the interrupt level, with any number of threads |
| `Device*.dfy` | the device tree, unit slots, driver matching, softc memory |
| `Sysinit.dfy` | the SYSINIT ordering engine and the module loader |
| `TailQueue.dfy` | the TAILQ macros on a heap of link cells |
| `DmaPages.dfy`, `DmaAlloc.dfy` | DMA page look-up, alignment, tags, and the order of clean-up |

Concurrent code is a step system (`State`, `Step`, `Enabled`, `Apply`), and its theorems quantify over every
sequence of steps from an initial state. Code that updates fields in place is a class whose methods are
proved against functions or relations on a value `View()` of the object. Driver methods, callbacks, sleeps,
`uiomove` and memory exhaustion are parameters, so the results hold for whatever they return.
Every lemma switches automatic induction off: proofs by induction are written out.

Results that say where the code does not do what one would hope, each with the exact condition:

- A reset 2^31 or more ticks ahead is invoked before its deadline; `EarlyIff` says that these are the only ones.
- A reset made after the worker has selected the callout is taken off the list and never invoked (`LateResetIsDropped`);
  `DroppedIff` and `LostForGood` say exactly when.
- A drain without the client mutex that overlaps a reset can make the callback run without its argument, and one that
  overlaps a callback past its tests can make the worker call NULL (`DrainOverResetLosesArgument`,
  `DrainOverCallbackCallsNull`); without such an overlap invocations are right, and they are right again after the next stop
  with the mutex held (`FireSafety`).
- Drains can wait forever: when a client that drains holds the mutex which the worker, or a callback that dropped it, needs
  to be done with the callout, and when a callback drains its own callout; everybody else who drains that callout waits
  with them (`LockedDrainWedges`, `BorrowedMutexWedges`, `OwnDrainWedges`). `ReturnsIff` says that these are all: in any
  other reachable state every drain under way still has a schedule in which it returns.
- A callback that re-arms itself 2^31 or more ticks ahead keeps `usb_callout_process` in its loop
  (`FarRearmNeverEnds`).
- The counter of the version 4 mutexes is right after every step if and only if every thread enters and leaves `msleep`
  while no other thread outside `msleep` owns or waits for anything (`CounterIff`); otherwise counts are lost and the
  kernel can panic (`LostCount`).
- A contended version 4 mutex leaves its first owner at the raised interrupt level (`MixedLevels`); `LevelIff` says that the
  level of a thread is right after every step if and only if every step of the thread is safe, a condition on the counter,
  the saved level and the thread's own reasons before the step.
- A buffer that holds the next directory record but not an earlier one sends the reader back to the start
  (`SmallBufferStartsOver`, `ProgressIff`).
- The alignment loop accepts a value that wrapped around 2^32 (`WrappedAlignmentAccepted`); `TrueAlignmentIff`
  says exactly when it does not.
- A device name with a `.` or `..` component, or running through a device, leads populate into an entry that
  is no directory (`DotsNeverClear`; `Walk` fails exactly then).

## Model

| member | source | states |
|---|---|---|
| `CalloutTheorems.ExecInv` | module/freebsd_kern_timeout.c:79-205 | every interleaving of the worker and the clients keeps the list, lock, drain, overlap and firing invariants |
| `CalloutCalls.CallReturns` | module/freebsd_kern_timeout.c:152-205 | in every run, when a call has returned its thread has logged exactly: for stop, that the callout was stopped; for reset, that it was stopped, is being stored, and was armed with the function, argument and to_ticks given, counted from a time during the call; for drain, that it was stopped and that the drain is over |
| `CalloutCalls.ArmedWasOrdered` | module/freebsd_kern_timeout.c:152-168 | in every run, what is armed was ordered by a call of reset with that function, argument and to_ticks |
| `CalloutCalls.StopLeaves` | module/freebsd_kern_timeout.c:171-190 | in every run, when the stop of a stop or reset call ends, the callout is off the list without function and argument, and cannot be invoked before it is armed again |
| `CalloutCalls.StopIsFinal` | module/freebsd_kern_timeout.c:171-190 | in every run, nothing is invoked between a stop made with the mutex held and the next arming of that callout |
| `CalloutCalls.ResetLinks` | module/freebsd_kern_timeout.c:152-168 | in every run, when a reset links an unspoiled callout, it is at the head of the list with the function, argument and timeout given to the call |
| `CalloutCalls.StopUninterrupted` | module/freebsd_kern_timeout.c:171-190 | a stop that nobody interrupts, in any state of any run, comes to its end in one way; the whole state at the end |
| `CalloutCalls.ResetUninterrupted` | module/freebsd_kern_timeout.c:152-168 | a reset that nobody interrupts, likewise |
| `CalloutWorker.ScanUninterrupted` | module/freebsd_kern_timeout.c:102-138 | a scan that nobody interrupts selects the first callout on the list that tests as expired, or ends with curr_callout NULL if there is none |
| `CalloutWorker.CallbackCalls` | module/freebsd_kern_timeout.c:79-100 | an uninterrupted callback that is not cancelled takes the callout off the list and calls its function with its argument, with the mutex taken once |
| `CalloutWorker.CancelledCallback` | module/freebsd_kern_timeout.c:91-94 | a cancelled one takes the callout off the list and leaves all locks as they were |
| `CalloutWorker.CallbackReturns` | module/freebsd_kern_timeout.c:95-99 | after the function has returned the mutex is given back once, unless CALLOUT_RETURNUNLOCKED is set |
| `CalloutTheorems.FireSafety` | module/freebsd_kern_timeout.c:79-138 | an invocation happens with the client mutex held by the worker; unless a drain without the mutex overlapped lines 160-165 of a reset or a callback past its cancel test since the last proper stop, it is the latest reset's function and argument, with no stop, reset or other invocation since; it was selected after its deadline if and only if that was less than 2^31 ticks ahead, so always if to_ticks was |
| `CalloutRuns.EarlyIff` | module/freebsd_kern_timeout.c:113-163 | some run invokes a reset of to_ticks n before its deadline if and only if n is 2^31 or more |
| `CalloutWatch.StepKeepsWatch` | module/freebsd_kern_timeout.c:79-205 | the log tells exactly which threads are in the stop of a drain without the mutex and whether the worker is past its cancel test, and covers every reset under way |
| `CalloutWatch.LockedDrainsDoNotSpoil` | module/freebsd_kern_timeout.c:192-205 | drains that hold the mutex never invalidate the firing theorem |
| `CalloutFire.StepKeepsFire` | module/freebsd_kern_timeout.c:79-205 | stored fields, list, status and cancel flag of an unspoiled callout agree after every step, and a stop with the mutex held makes a spoiled one right again |
| `CalloutRuns.DrainOverResetLosesArgument` | module/freebsd_kern_timeout.c:152-205 | there is a run in which a drain without the mutex that overlaps a reset makes the callback run without its argument |
| `CalloutRuns.DrainOverCallbackCallsNull` | module/freebsd_kern_timeout.c:91-97 | there is a run in which such a drain that overlaps only the callback makes the worker call NULL |
| `CalloutTheorems.PendingMeans` | module/freebsd_kern_timeout.c:152-190 | the monitored status "pending" is the existence of a reset with nothing about that callout after it, both ways |
| `CalloutTheorems.TakenMeans` | module/freebsd_kern_timeout.c:102-138 | the status "taken" is the existence of such a reset and one later selection with nothing in between or after, both ways |
| `CalloutTheorems.ListDiscipline` | module/freebsd_kern_timeout.c:79-190 | in every run a callout is on the list exactly when le_prev is set, never twice, and a timeout is written only while its callout is off the list by a thread holding its mutex |
| `CalloutTheorems.PendingAnswer` | module/freebsd_kern_timeout.c:207-219 | an unspoiled callout reported as pending has a reset in force whose function, argument and deadline are the stored ones; and a reset in force that the worker has not selected is reported as pending if and only if it is not lost |
| `CalloutTheorems.DroppedIff` | module/freebsd_kern_timeout.c:85-96 | when the worker comes to unlink a callout, curr_cancel is set if and only if the reset in force came after the selection; that reset is taken off the list, while a selected one goes on to its invocation |
| `CalloutTheorems.LostForGood` | module/freebsd_kern_timeout.c:85-96 | a dropped reset is never invoked, whatever follows, unless the callout is armed again |

| `CalloutRuns.LateResetIsDropped` | module/freebsd_kern_timeout.c:85-96 | there is a run in which a reset is dropped although no stop followed it |
| `CalloutTheorems.DrainSafety` | module/freebsd_kern_timeout.c:192-205 | when a drain returns no callback of that callout is running, and a later one was armed after the drain began |
| `CalloutReturns.ReturnsIff` | module/freebsd_kern_timeout.c:79-205 | in every run, a drain of c under way, by any thread and however far it has come, returns in some continuation if and only if the state is not hopeless: curr_callout is c, and the callback of c drains c, or a client inside a drain of c holds the mutex that the worker still needs to be done with c |
| `CalloutReturns.HopelessForever` | module/freebsd_kern_timeout.c:192-205 | in a hopeless state no drain of that callout returns in any continuation |
| `CalloutReturns.HoldsIffEntered` | module/freebsd_kern_timeout.c:192-205 | a thread inside a drain holds the mutex if and only if it entered the drain with it |
| `CalloutRuns.LockedDrainWedges` | module/freebsd_kern_timeout.c:79-205 | there is a run in which a drain with the mutex held waits for a worker that waits for it, and a second drain without the mutex waits with it |
| `CalloutRuns.BorrowedMutexWedges` | module/freebsd_kern_timeout.c:79-205 | there is a run in which a callback drops its mutex and a client that takes it drains the callout, so that neither comes back |
| `CalloutRuns.OwnDrainWedges` | module/freebsd_kern_timeout.c:79-205 | there is a run in which a callback drains its own callout and a client waits for it |
| `CalloutProcess.Scheduler.Process` | module/freebsd_kern_timeout.c:102-138 | with ticks fixed the scan ends; nothing listed is expired; 1 <= delay <= max(1, hz/16) and <= max(1, remaining) for all listed, and one of these bounds is met unless a callback re-armed or stopped something; what was due and not touched by a callback fired exactly once, the rest is as before |
| `CalloutProcess.Scheduler.Callback` | module/freebsd_kern_timeout.c:79-100 | the callout leaves the list, then its function's resets and stops take effect; the set of expired callouts shrinks |
| `Ticks.SignedTestIsTrueComparison` | module/freebsd_kern_timeout.c:113-131 | the signed 32-bit difference test agrees with the true comparison if and only if the distance is within 2^31 |
| `Ticks.WrapDifference` | module/freebsd_kern_timeout.c:163-163 | a difference of wrapped tick counts is the wrapped difference of the true ones |
| `CalloutProcess.OperateAllEffect` | module/freebsd_kern_timeout.c:152-190 | any sequence of resets and stops removes exactly the callouts it touches from the expired ones and leaves the others alone |
| `CalloutProcess.OperateLast` | module/freebsd_kern_timeout.c:152-190 | the last of several operations on a callout decides: after a reset it is listed with the new timeout and function, after a stop it is not listed |
| `CalloutProcess.FarRearmNeverEnds` | module/freebsd_kern_timeout.c:102-138 | a callback that re-arms itself is expired again in every round if and only if it does so 2^31 or more ticks ahead |
| `DevTableSafety.StepKeepsInv` | module/freebsd_devfs_devs.c:186-307 | creation, aliases, one level of destruction, references and populate on one slot keep the whole invariant, for any number of mounts, operations and destroyers |
| `DevTableSafety.ExecInv` | module/freebsd_kern_conf.c:80-121 | every run keeps it |
| `DevTableSafety.ReferencesAreExact` | module/freebsd_kern_conf.c:80-121 | si_refcount is one until the creation reference is dropped, plus the mounts with an entry, plus the operations in flight, and positive while the cdev exists |
| `DevTableSafety.EntriesAreNotStale` | module/freebsd_devfs_devs.c:204-266 | a mount's entry at i belongs to the unfreed cdev now in slot i: no slot is reused under a stale entry |
| `DevTableSafety.EarlyReturnIsSafe` | module/freebsd_devfs_devs.c:200-203 | a mount with the current generation and no populate running has an entry exactly for the slots with a live cdev |
| `DevTableSafety.FreedExactlyAtZero` | module/freebsd_kern_conf.c:88-108 | a step frees a cdev exactly with its last reference, and clears its slot exactly when it frees it |
| `DevTableSafety.AliasParentIsThere` | module/freebsd_devfs_devs.c:245-254 | the parent of a live alias is not freed, so its name may be read |
| `DevTableSafety.OperationHolds` | module/freebsd_kern_conf.c:88-130 | an operation on a live device holds one reference from its beginning to its end and leaves nothing behind; on a dead one none |
| `DevConf.Devices.DevfsCreate` | module/freebsd_devfs_devs.c:278-301 | from any cursor the first free slot of 3..N-1 going round is taken, the generation rises exactly then, and a full table leaves everything but the cursor as it was |
| `DevConf.Devices.MakeDev` | module/freebsd_kern_conf.c:205-300 | a new live cdev with one reference, under the name given cut to 63 characters, in the first free slot met from the cursor; every other cdev as before |
| `DevConf.Devices.MakeDevAlias` | module/freebsd_kern_conf.c:302-344 | likewise, as an alias of the parent given, at the head of the parent's list of children |
| `DevConf.Devices.RefCdevsw` | module/freebsd_kern_conf.c:110-121 | a reference is taken exactly on a live cdev |
| `DevConf.Devices.Rel` | module/freebsd_kern_conf.c:88-108 | the last reference clears the slot and frees the cdev |
| `DevConf.Devices.Populate` | module/freebsd_devfs_devs.c:186-270 | undisturbed, it leaves the mount in step with the table and every live cdev, other mount and the generation as they were |
| `DevConf.Devices.PopulateAt` | module/freebsd_devfs_devs.c:204-266 | one round of its loop does what the step system's populate step does |
| `DevConf.Devices.DestroyDevl` | module/freebsd_kern_conf.c:346-385 | it ends on any alias forest; everything below is dead, off all children lists and has lost its creation reference exactly once; all else is untouched |
| `DevConf.NoneLeft` | module/freebsd_kern_conf.c:346-385 | with the children list empty no alias below the device is left |
| `DevConf.AliasGoesToo` | module/freebsd_kern_conf.c:346-385 | an alias made of a device is freed when that device is destroyed |
| `DevGiven.NamesAreGiven` | module/freebsd_kern_conf.c:263-344 | in every run each cdev was made by a call of make_dev or make_dev_alias in the run, has the name given to it, and while it lives is an alias exactly if make_dev_alias made it, of the parent given |
| `DevGiven.LivingStep` | module/freebsd_kern_conf.c:263-385 | the set of live cdevs gains the one made, loses the one destroyed and then its aliases one by one, and changes in no other step |
| `DevMount.Mount.Enter` | module/freebsd_devfs_devs.c:227-266 | populate enters a device exactly if its name leads through directories only; then the new entry's path is si_name, and all other entries keep their paths and inode numbers |
| `DevMount.Mount.Walk` | module/freebsd_devfs_devs.c:229-243 | the directory reached has the path before the last component; missing directories are made, nothing else changes |
| `DevMount.Mount.Leave` | module/freebsd_devfs_devs.c:211-219 | dropping an entry keeps the tree, the paths and the numbers of all others |
| `DevMount.Mount.FindEntry` | module/freebsd_devfs_devs.c:78-91 | the first entry of that name in the list, or none if there is none |
| `DevMount.Mount.Fqpn` | module/freebsd_devfs_vnops.c:687-720 | NULL if and only if the path does not fit; otherwise the buffer ends in directory path, name and NUL, nothing before it and nothing beyond len is changed |
| `DevMount.RoundTrip` | module/freebsd_devfs_vnops.c:687-720 | for every device with an entry, devfs_fqpn on its directory and name gives back si_name, within SPECNAMELEN + 1 characters |
| `DevMount.GoodNameIsClear` | module/freebsd_devfs_devs.c:229-243 | a name without "." or ".." components of which no device name is a path prefix can always be entered |
| `DevMount.DotsNeverClear` | module/freebsd_devfs_devs.c:229-243 | a name with "." or ".." before its last component never can, in any tree |
| `DevMirror.InodesInEveryRun` | module/freebsd_devfs_vfsops.c:129-133 | in every run of the table with any number of mounts all inode numbers that a mount shows are distinct |
| `DevMirror.ShowsLiveNames` | module/freebsd_devfs_devs.c:186-270 | in every such run a mount in step with the table shows, as full paths, exactly the names of the live cdevs |
| `DevMirror.ShowsGivenNames` | module/freebsd_devfs_devs.c:186-270 | in every such run the paths shown are the names given to make_dev and make_dev_alias, of those cdevs that live and found a slot |
| `DevMirror.Round` | module/freebsd_devfs_devs.c:205-266 | one round of the loop on table and tree is the joint step, unless a live device's name leads through something that is no directory |
| `DevMirror.Populate` | module/freebsd_devfs_devs.c:186-270 | populate leaves the mount showing exactly the names of the live cdevs, or has come to such a device; live devices and other mounts are as before |
| `DevMirror.StepKeepsInv` | module/freebsd_devfs_devs.c:186-307 | every step keeps table and trees in agreement |
| `DevPath.MkDirKeeps` | module/freebsd_devfs_devs.c:119-150 | a new directory starts with "." and ".." for itself and its parent, has the parent's path plus its name, and keeps all other paths |
| `DevPath.AddDevKeeps` | module/freebsd_devfs_devs.c:244-266 | a new entry has the directory's path plus its name |
| `DevPath.AddDevNumbers` | module/freebsd_devfs_devs.c:245-256 | slot numbers for devices and mount numbers for aliases stay distinct |
| `DevPath.RemoveKeeps` | module/freebsd_devfs_devs.c:152-166 | removing an entry keeps every directory and every other entry |
| `Readdir.List` | module/freebsd_devfs_vnops.c:980-1059 | error paths, the records returned with their names and file numbers, the offset left and the cookies, for any offset, buffer and uiomove results |
| `Readdir.VisibleAt` | module/freebsd_devfs_vnops.c:1015-1018 | the listing is the directory without its whiteouts, in order |
| `Readdir.Scan` | module/freebsd_devfs_vnops.c:1012-1037 | the loop starts at the first record not before the offset and stops at the first that does not fit, skipped ones included, or fails |
| `Readdir.OneOutcome` | module/freebsd_devfs_vnops.c:1012-1037 | that description determines the outcome |
| `Readdir.ProgressIff` | module/freebsd_devfs_vnops.c:1012-1037 | from a boundary a call returns something if and only if every record up to the next fits the buffer, and goes back if and only if an earlier one does not |
| `Readdir.PagingIsComplete` | module/freebsd_devfs_vnops.c:1012-1057 | any session with buffers of at least the largest record returns an initial part of the visible entries, in order and each once, leaves a record boundary, and is complete after as many calls as entries |
| `Readdir.EmptyPageMeansEnd` | module/freebsd_devfs_vnops.c:1012-1057 | such a call returns nothing if and only if everything has been returned |
| `Readdir.CookieResumes` | module/freebsd_devfs_vnops.c:1039-1055 | reading on from a cookie continues behind its record |
| `Readdir.SmallBufferStartsOver` | module/freebsd_devfs_vnops.c:1012-1057 | a smaller buffer can send the reader back to offset 0 |
| `RecursiveMutex.StepKeepsInv` | module/freebsd_kern_mutex_v5.c:118-211 | at single field accesses owner_td names a thread only while it holds the real mutex |
| `RecursiveMutex.StepRefines` | module/freebsd_kern_mutex_v5.c:118-211 | every access is invisible or one action of an abstract recursive lock, if and only if the 32-bit counter does not wrap in it |
| `RecursiveMutex.RunRefines` | module/freebsd_kern_mutex_v5.c:118-211 | every run is a run of the abstract lock |
| `RecursiveMutex.CallReturns` | module/freebsd_kern_mutex_v5.c:118-211 | in every run, when a call returns: lock has taken the lock once more (modulo 2^32); trylock has done so and returned 1, or was refused because another thread had it and returned 0; unlock has given it back once; msleep has dropped it, taken it back and holds it as often as before |
| `RecursiveMutex.CallBlocksIff` | module/freebsd_kern_mutex_v5.c:118-211 | a call under way can go on, except that lock and msleep wait exactly while another thread has the lock, and that unlock and msleep panic without it |
| `RecursiveMutex.GoAdvances` | module/freebsd_kern_mutex_v5.c:118-211 | every statement of a call brings it closer to its end |
| `RecursiveMutex.HeldTestIsRight` | module/freebsd_kern_mutex_v5.c:63-70 | the unsynchronised owner test is right for the thread that makes it, and nobody waits for a mutex it holds |
| `RecursiveMutex.BetweenCalls` | module/freebsd_kern_mutex_v5.c:150-166 | between calls mtx_recurse is the depth minus one; unlock and sleep panic exactly for a thread that does not own the mutex |
| `RecursiveMutex.SleepRestoresDepth` | module/freebsd_kern_mutex_v5.c:184-211 | msleep returns at the depth at which it was entered |
| `SplTheorems.CounterIff` | module/freebsd_kern_mutex_v4.c:53-310 | in every run of any number of threads the counter is the mutexes owned by threads outside msleep plus the waiters inside mtx_lock plus the outstanding atomic_locks after every step, if and only if every thread gives up and takes back its mutex in msleep while no other thread outside msleep has any of these |
| `SplTheorems.Conservation` | module/freebsd_kern_mutex_v4.c:53-310 | in every run whatsoever the counter, the counts put aside in msleep and the counts overwritten by its returns add up to all reasons |
| `SplTheorems.PanicIff` | module/freebsd_kern_mutex_v4.c:53-103 | in a balanced state a call panics exactly at the counter's limit or on an uninitialised mutex |
| `SplTheorems.LevelIff` | module/freebsd_kern_mutex_v4.c:53-310 | in every run with a right counter, the level of a thread is raised exactly while it has a reason and is its first one otherwise, after every step, if and only if every step of the thread is safe |
| `SplTheorems.OwnLevelIff` | module/freebsd_kern_mutex_v4.c:53-310 | one step: asking for a first reason is safe while the counter is zero or the saved level is the thread's own, another call without a reason only while the counter is zero, giving up the last reason only while the counter is one |
| `SplTheorems.AloneIsSafe` | module/freebsd_kern_mutex_v4.c:53-310 | what a thread does while no other thread outside msleep has a reason is safe |
| `SplTheorems.SleepRestores` | module/freebsd_kern_mutex_v4.c:261-310 | whatever others do meanwhile, msleep returns with the mutex at the same depth, counter and other mutexes as before, and saved level and level as before or, where nothing was counted, both at the caller's own level |
| `SplDepth.RecurseCounts` | module/freebsd_kern_mutex_v4.c:152-310 | in every run mtx_recurse + 1, also while msleep keeps it, is the number of lock and trylock requests granted to the owner less its unlocks, modulo 2^32; a thread with a count left owns the mutex or sleeps on it |
| `SplDepth.FreesIff` | module/freebsd_kern_mutex_v4.c:215-243 | in every run an unlock by the owner frees the mutex if and only if it undoes the first request counted |
| `SplTheorems.ReturnBalance` | module/freebsd_kern_mutex_v4.c:294-307 | taking the mutex back keeps the count if and only if the counter is zero at that point |
| `SplKernel.Kernel.AtomicLock` | module/freebsd_kern_mutex_v4.c:53-71 | one more count, level raised, the level before the outermost lock remembered; panic at 0xFFFFFFFF |
| `SplKernel.Kernel.AtomicUnlock` | module/freebsd_kern_mutex_v4.c:73-88 | one count less; the level returns with the last; panic at zero |
| `SplKernel.Kernel.MtxLock` | module/freebsd_kern_mutex_v4.c:152-183 | the lock step: granted exactly if the mutex is free or the caller's; otherwise a thread waits, counted once, and an interrupt handler gives up |
| `SplKernel.Kernel.LockResumes` | module/freebsd_kern_mutex_v4.c:168-182 | a waiter takes the mutex exactly when it is free |
| `SplKernel.Kernel.MtxTrylock` | module/freebsd_kern_mutex_v4.c:185-213 | the lock step without waiting: granted exactly if the mutex is free or the caller's |
| `SplKernel.Kernel.MtxUnlock` | module/freebsd_kern_mutex_v4.c:215-243 | the unlock step, in any state; only the outermost unlock frees the mutex |
| `SplKernel.Kernel.MsleepBegins` | module/freebsd_kern_mutex_v4.c:261-290 | an owner puts its count aside and frees the mutex; without the mutex nothing changes |
| `SplKernel.Kernel.MsleepResumes` | module/freebsd_kern_mutex_v4.c:292-309 | the mutex is taken back when free, with depth, counter and saved level |
| `SplKernel.MixedLevels` | module/freebsd_kern_mutex_v4.c:53-88 | two threads at level 0 use one mutex, the second waits for it; afterwards nothing is owned and the first is left at the raised level |
| `SplKernel.LostCount` | module/freebsd_kern_mutex_v4.c:152-310 | two threads and two mutexes lead to a panic in unlock, because a waiter's count is overwritten |
| `DeviceRuns.SlotsInEveryRun` | module/freebsd_kern_bus.c:848-905 | after any sequence of calls on a new bus a slot names a device of that unit and class, a device with a driver is in its slot, none is in two slots, and no lazily allocated softc is shared or freed twice |
| `DeviceRuns.CallKeeps` | module/freebsd_kern_bus.c:848-1262 | every call keeps the tables well-formed and the devices an ordered forest |
| `DeviceBus.Bus.DeleteDevice` | module/freebsd_kern_bus.c:997-1025 | deletion applies to any device of the bus, with the outcome below for its tree |
| `DeviceBus.Bus.DeleteChild` | module/freebsd_kern_bus.c:997-1025 | it ends on any tree and detaches in post-order; on success the subtree is off its list, out of every slot and its softcs freed, on the first error exactly what comes earlier in post-order is; all else is unchanged |
| `DeviceBus.Bus.DetachDevice` | module/freebsd_kern_bus.c:1202-1225 | an attached device's driver is asked and its error returned, and then nothing changes; otherwise the device is not attached, and softc and, without a fixed class, the slot are given back; well-formed tables stay so |
| `DeviceBus.Bus.DeleteSlot` | module/freebsd_kern_bus.c:893-905 | afterwards no slot names the device and every other slot is as before |
| `DeviceBus.Bus.SetSoftc` | module/freebsd_kern_bus.c:1227-1238 | the memory lazily allocated for the device, and nothing else, is freed, once; well-formed tables stay so |
| `DeviceProbe.SetThenGet` | module/freebsd_kern_bus.c:1227-1262 | what is set is what is got, without an allocation |
| `DeviceBus.Bus.GetSoftc` | module/freebsd_kern_bus.c:1240-1262 | memory is allocated exactly if no softc is set and the device has a driver that asks for some; it is new and unfreed, nothing is freed, and asking again changes nothing |
| `DeviceProbe.GetTwice` | module/freebsd_kern_bus.c:1240-1262 | a second call returns the same pointer, which belongs to no other device |
| `DeviceDelete.LeafEffect` | module/freebsd_kern_bus.c:1014-1020 | detach and removal of a childless device remove exactly that device |
| `DeviceDelete.RemovedKeepsInv` | module/freebsd_kern_bus.c:997-1025 | deletion keeps slots, units and the softc ledger right |
| `DeviceForest.DeletionApplies` | module/freebsd_kern_bus.c:955-1025 | the devices form a forest, so any device can be deleted through its parent |
| `DeviceForest.RemovedKeepsForest` | module/freebsd_kern_bus.c:997-1025 | deletion keeps the forest and the order of every list |
| `DeviceBus.Bus.ProbeAndAttach` | module/freebsd_kern_bus.c:1140-1200 | an attached device is left alone, a fixed class asks only its driver, otherwise the first entry for the bus named after the parent's driver, or for "unknown", that has a free unit and whose driver probes and attaches gets the device, and ENODEV is returned exactly if there is none; the tables stay well-formed |
| `DeviceProbe.FirstDriverTakesIt` | module/freebsd_kern_bus.c:1166-1194 | on success the device is in exactly one slot, the wired or lowest free unit of the first accepting entry, and all other slots are as before |
| `DeviceProbe.NoDriverTakesIt` | module/freebsd_kern_bus.c:1166-1200 | on failure no entry accepts, the device is in no slot, all slots and other devices are as before, and every softc allocated on the way is freed exactly once |
| `DeviceProbe.DetachUndoes` | module/freebsd_kern_bus.c:1188-1193 | undoing an attempt restores every slot |
| `DeviceBus.Bus.AddDevice` | module/freebsd_kern_bus.c:848-891 | it fails exactly without a class or a unit on offer; otherwise the wired or lowest free unit is taken |
| `DeviceBus.Bus.FindCreate` | module/freebsd_kern_bus.c:829-846 | the first entry of that name that has a class |
| `DeviceBus.Bus.MakeDevice` | module/freebsd_kern_bus.c:907-953 | a fresh device, wired to the unit if one is given, and in a slot of the first class of that name if a name is given; or none and every slot as before |
| `DeviceBus.Bus.AddChildOrdered` | module/freebsd_kern_bus.c:955-989 | the child goes behind all children of smaller or equal order, so every list stays sorted; the tables stay a well-formed forest |
| `Sysinit.DoSysinit` | module/freebsd_i4b_mod.c:140-202 | the calls are the stable sort by subsystem and order of exactly the entries in range, each once |
| `Sysinit.StableSortIsSort` | module/freebsd_i4b_mod.c:140-202 | that sort is what an insertion sort computes, both ways |
| `Sysinit.SplitRange` | module/freebsd_i4b_mod.c:260-301 | running [a, m] and [m + 1, b] calls what running [a, b] calls |
| `Sysinit.DoModule` | module/freebsd_i4b_mod.c:204-247 | each distinct callback once in table order, up to and including the first error |
| `Sysinit.LoadModule` | module/freebsd_i4b_mod.c:249-320 | loading runs both halves of the full order around the loaders, or undoes everything after a failed loader |
| `TailQueue.FirstElement` | src.port/bsd_module_queue.h:402-404 | the first element, NULL exactly on an empty queue |
| `TailQueue.Last` | src.port/bsd_module_queue.h:480-481 | the double dereference gives the last element, NULL on an empty queue |
| `TailQueue.Prev` | src.port/bsd_module_queue.h:485-486 | and the element before, NULL for the first |
| `TailQueue.InsertHead` | src.port/bsd_module_queue.h:457-468 | sequence insertion at the front, well-formed again |
| `TailQueue.InsertTail` | src.port/bsd_module_queue.h:470-478 | at the end |
| `TailQueue.InsertAfter` | src.port/bsd_module_queue.h:432-445 | behind any element |
| `TailQueue.InsertBefore` | src.port/bsd_module_queue.h:447-455 | in front of any element, without the head |
| `TailQueue.Remove` | src.port/bsd_module_queue.h:488-502 | removal of any element |
| `TailQueue.Concat` | src.port/bsd_module_queue.h:391-400 | concatenation, the second queue becomes empty |
| `DmaPages.PageCache.Load` | module/freebsd_kern_bus.c:1475-1515 | the pages and the first offset are those of the segments; on error nothing changes |
| `DmaPages.PageCache.GetPage` | module/freebsd_kern_bus.c:1682-1731 | the physical address of the byte asked for and a length up to which addresses are consecutive, for buffers loaded page by page or as one segment; plain I/O when nothing is loaded |
| `DmaPages.LookupIsRight` | module/freebsd_kern_bus.c:1682-1731 | for every byte of a page-wise buffer the look-up gives its physical address, and the length up to which the addresses are consecutive |
| `DmaPages.WalkVisitsSegments` | module/freebsd_kern_bus.c:1702-1712 | stepping by the returned length visits the segments in order, each at its first byte, and covers the buffer exactly at the last |
| `DmaPages.EnoughRoom` | module/freebsd_kern_bus.c:1344-1365 | a page-wise buffer has at most 2 + size / page size segments |
| `DmaPages.RoomIsNeeded` | module/freebsd_kern_bus.c:1344-1365 | and two bytes can need all of them |
| `DmaPages.RightUpTo32Bits` | module/freebsd_kern_bus.c:1700-1712 | with distinct pages the look-up is right for the whole buffer if and only if first offset plus size is at most 2^32 |
| `DmaAlloc.FitAlign` | module/freebsd_kern_bus.c:1538-1550 | the loop ends within 32 doublings, at the first value that is large enough, or at zero |
| `DmaAlloc.TrueAlignmentIff` | module/freebsd_kern_bus.c:1538-1550 | the result is a true doubling of the request if and only if one of sufficient size fits 32 bits, and then it is the least |
| `DmaAlloc.PowerOfTwoFailsIff` | module/freebsd_kern_bus.c:1538-1550 | for powers of two it gives up if and only if the size exceeds 2^31 |
| `DmaAlloc.WrappedAlignmentAccepted` | module/freebsd_kern_bus.c:1538-1550 | a wrapped value can be accepted |
| `DmaAlloc.TagFind` | module/freebsd_kern_bus.c:1380-1406 | one tag for each pair of size and alignment, the same again for the same request; NULL exactly when the table is full or memory lacks |
| `DmaAlloc.Buffer.AllocMem` | module/freebsd_kern_bus.c:1526-1624 | it fails exactly if a call fails, the alignment cannot be doubled to fit, or no tag can be had; then everything taken has been given back, nothing twice, nothing while still needed, and the page cache is reset; on success all is held with a tag of that size and the page cache is loaded with the segments |
| `DmaAlloc.Buffer.FreeMem` | module/freebsd_kern_bus.c:1630-1643 | gives back all that a successful allocation holds |

## Left out

- Callout liveness: no claim that a reset fires eventually.
- CalloutReturns.ReturnsIff: that a drain can return means that some schedule of the threads and of the clock lets it; which schedules a kernel produces is not modelled. A callback without CALLOUT_RETURNUNLOCKED returns with its mutex held.
- Callers of `usb_callout_stop` and `usb_callout_reset` hold the client mutex; the source's assertion only prints.
- CalloutTheorems.FireSafety: function and argument are stated while no drain without the mutex overlaps the part of a reset that stores and links, or a callback past its cancel test, because otherwise the property is false (`CalloutRuns.DrainOverResetLosesArgument`, `CalloutRuns.DrainOverCallbackCallsNull`); that the worker holds the mutex is stated without this condition.
- CalloutProcess.Scheduler.Process: a single caller with ticks fixed and re-arm distances below 2^31, since beyond that distance the loop need not end (`CalloutProcess.FarRearmNeverEnds`).
- Vnode references: device operations are abstract paired holders of a reference.
- Unmounting, `devfs_purge` and `devfs_remove`.
- DevTableSafety.StepKeepsInv: the work of populate on one slot and the release of a last reference are one step each; generations are unbounded numbers; a driver destroys a device once and makes aliases only of devices it has not destroyed.
- DevMount.Mount.Enter: a walk into an entry that is no directory is reported as a failure; the source writes through a NULL pointer there, and what follows is not modelled. The inode counter of a mount is unbounded.
- DevMount.Mount.Walk: likewise.
- DevMirror.ShowsLiveNames: a run ends where populate would fail in that way; the table has at most 2^25 slots.
- DevMount.Mount.Fqpn: needs a buffer of at least one character, as its only caller provides.
- Readdir.PagingIsComplete: the directory does not change during the session.
- SplTheorems.CounterIff: a step is what a thread does between two points at which others may run, and any awake thread may be next; that a raised level keeps others from running is not used. Waiters may wait forever.
- SplTheorems.LevelIff: for runs in which every thread enters and leaves msleep alone, which are those with a right counter (`SplTheorems.CounterIff`).
- SplTheorems.SleepRestores: a NULL mutex stands for Giant.
- DeviceBus.Bus.ProbeAndAttach: driver methods return a result and use the softc of their device, but do not edit the tree.
- DmaPages.LookupIsRight: offset plus first page offset stays below 2^32 (`DmaPages.RightUpTo32Bits` shows that this is needed).
- DmaAlloc.Buffer.AllocMem: the calls into bus_dma are oracles that succeed or fail, and give segments for which the caller's array has room.
- Formatting of device names: make_dev and make_dev_alias are given the formatted name.
- The fields `dev_nameunit`, descriptions, permissions, time stamps and link counts.
- Bus resources, interrupts, PCI and ISA access, and event handlers: foreign calls and I/O.
- Module unloading and the second copy of the bus code in src.port/kern/freebsd_bus.c.
- The LIST, SLIST and STAILQ macros, minor and unit number packing, ioctl numbers, the simulator: easier members only.
