# Verified models of the scull drivers and the short interrupt driver

A Dafny model of the character drivers in this repository that share state between callers:

- **scullpipe**, a circular byte buffer shared by any number of readers and writers, with a semaphore that is dropped around sleeps and two wait queues that are tested without it;
- **scull** and **scullc**, two implementations of one sparse store, a linked list of arrays of byte blocks that grows on demand and is freed by trim;
- **scullsingle**, **sculluid**, **scullwuid** and **scullpriv**, four ways to share a device at open;
- the interrupt side of **short**, a page of text lines written by interrupt handlers and drained by readers, and a ring of 512 times that a bottom half prints.

`dafny verify dfyconfig.toml` checks everything.

## How it is organised

| files | content |
|---|---|
| `Common` | bytes, options, results, `copy_from_user` |
| `PipeRing`, `PipeDevice` | the ring as a value and its queue; `struct scull_pipe` as a class over a byte array |
| `PipeProtocol`, `PipeSafety`, `PipeWakeups`, `PipeStranding` | the pipe as a step system: a program counter per task, the semaphore, both wait queues; what every run keeps |
| `PipeCalls`, `PipeAlone` | when each call on the pipe returns and with what, that it does so once, and what a call does that is left alone |
| `StoreAddress`, `Store`, `StoreBytes`, `StoreHistory` | the two-level address; the calls of both drivers on the store as a value; what they do to a flat file; what a run's calls and results say the file must hold |
| `LoopingCaller`, `StoreRoundTrip` | a caller that loops over partial writes and reads |
| `ScullProtocol`, `ScullSerial`, `ScullCalls` | concurrent calls of scull as a step system: every test, allocation, dereference and `kfree` under the semaphore |
| `ScullAlone`, `ScullUnlocked`, `ScullSingle` | the unlocked trim of the access devices: when it is safe, how many tasks break it, and why scullsingle is safe |
| `ScullMemory`, `SparseDevice`, `ScullDevice`, `ScullcDevice`, `DriverRuns` | the list, arrays and quanta as heap objects; each call proved to compute, in place, the function of the same name in `Store`; whole runs in memory |
| `AccessSingle`, `AccessUid`, `AccessUidCalls`, `AccessClones` | the open-time protocols, how their calls end, and the clone list |
| `ShortFormat`, `ShortText`, `ShortDevice` | the printed lines; the text ring as a value; the two rings as arrays with their handlers |
| `ShortProtocol`, `ShortReads`, `ShortHalves` | a reader and the handler that prints, step by step, and how reads end; top and bottom halves step by step |

Three modelling conventions run through it.

*Step systems.* In `PipeProtocol`, `ScullProtocol`, `AccessSingle`, `AccessUid`, `ShortProtocol` and `ShortHalves` accesses to shared variables that another task can come between are separate steps, `wait_event_interruptible`, `prepare_to_wait` and the load and store of a `++` included; where one step stands for several accesses, "Left out" says so. `ScullSingle` puts two of these systems together. `Next` is total, so a run is any sequence of choices, with the task that makes each, and a theorem about `Run(schedule)` holds of every interleaving of any number of tasks. Steps are sequentially consistent. Beside what every interleaving keeps, each system has theorems on single calls: when a call ends and with what result, in every run, and what a call comes to that, from any reachable state on, no other task interferes with.

*Failure.* Whether an allocation succeeds, whether a user copy fails and how much it had overwritten, whether a signal arrives, and what an allocated block holds are parameters of each call. `kmalloc`ed memory holds arbitrary bytes; `scull_write` does not clear it and `scullc_write` does, and so do the models.

*Memory.* `SparseDev` keeps the set of blocks allocated and not yet freed. Its invariant says that these are exactly the list items, arrays and quanta reachable from the device, each from one place. `kfree` is a method that requires its block to be live, and trim reads blocks only through methods that require the same, so a double free, a read after free or a leak would not verify.

Where the code does not do what its comments or its callers expect, the code was followed and the exact condition proved:

- Every successful open of scullpipe empties the ring and wakes nobody, so a writer can sleep on an empty ring for good (`AnOpenStrandsAWriter`), or go to sleep on a measure that an open has made stale (`AStaleMeasureStrandsAWriter`); the steps that cause this are characterised exactly (`WhatStrandsAWriter`).
- The opens of the access devices trim without the semaphore. Then any two tasks can make a write copy into a quantum that has been freed (`AnUnlockedTrimPullsABlockAway`), and a set of tasks cannot touch a freed block if and only if it has at most one member (`HowManyTasksAreSafe`). An unlocked trim does no harm in a run where it always finds the semaphore free and nobody else trimming (`UnlockedIsSafeAlone`); the counter of scullsingle sees to that for any number of tasks (`TheCounterProtectsTrim`). The other three devices let a user's second open in, and have no such guard.
- `scull_s_open` may return -EBUSY although no handle is open (`BusyWhileFree`); it succeeds exactly when no handle is open and no failed open is still to restore the counter (`WhenOpenSucceeds`).
- `scullc_read` tests `>` where `scull_read` tests `>=`, so a read appends one empty list item exactly when it is at the end of the file and the list does not reach that far (`ScullcReadReadsBytes`, with a run in `AReadGainsAnItem`); no caller can tell (`DriversAreEquivalent`).
- The text ring of short keeps no slot free: with exactly PAGE_SIZE - 16 characters unread, one more line makes it look empty (`AppendNeedsRoom`), as PAGE_SIZE / 16 interrupts without a read do (`APageOfLinesIsLost`).
- `short_do_tasklet` is a do-while, so it also prints when no time is pending. That happens: an interrupt during a bottom half is printed by it and still queues another (`AnOverlapPrintsAStaleTime`). Uninterrupted, it prints exactly the pending times when there are 1 to 512 of them (`DoTasklet`); in any run, times are printed once and in order if and only if no bottom half prints with none pending and no time is stored with 512 pending (`TimesAreInOrder`). 513 interrupts before a bottom half leave one to print (`TooManyAreLost`).
- `short_do_tasklet` loads the count and zeroes it in two accesses, and `short_wq_count++` is a load and a store. The counts printed and waiting differ from the interrupts by exactly those zeroed unseen (`AnInterruptIsForgotten`) and those stored back after they were announced (`AnInterruptIsCountedTwice`), and by nothing else (`CountsAddUp`, `WhenCountsGoWrong`).
- A write of no bytes still extends the device to its position (`WriteEffect` in `ScullWriteEffect`, with a count of 0).

## Model

| member | source | states |
|---|---|---|
| PipeRing.SpaceIsComplement | higher_scull/high_scull/pipe.c:170-175 | `spacefree` and the queue's length add up to the size less one, and the ring tests empty exactly when the queue is |
| PipeRing.ReadTakesFront | higher_scull/high_scull/pipe.c:127-137 | the bytes a read copies are the front of the queue, and moving `rp`, with its wrap, leaves the rest |
| PipeRing.FreeRegionIsDisjoint | higher_scull/high_scull/pipe.c:192-201 | whatever a copy leaves in the region a write may fill, the queue, wrapped or not, is unchanged |
| PipeRing.WriteAppends | higher_scull/high_scull/pipe.c:192-204 | a write of any permitted length appends to the queue and never makes a non-empty ring look empty |
| PipeRing.WriteProgress | higher_scull/high_scull/pipe.c:192-196 | a write takes all it is offered unless it fills the ring or reaches the array's end, and something of any offer |
| PipeRing.TwoReadsDrain | higher_scull/high_scull/pipe.c:127-137 | two large enough reads drain any ring, in order |
| PipeRing.TwoWritesFill | higher_scull/high_scull/pipe.c:192-204 | two large enough writes fill any ring, behind what it held |
| PipeDevice.ScullPipe.Open | higher_scull/high_scull/pipe.c:50-79 | a successful open empties the ring and counts the handle by mode; a failed allocation changes nothing |
| PipeDevice.ScullPipe.Release | higher_scull/high_scull/pipe.c:83-100 | the last handle frees the buffer, any other leaves the bytes |
| PipeDevice.ScullPipe.Read | higher_scull/high_scull/pipe.c:107-144 | returned bytes followed by the new contents are the old contents; -EAGAIN exactly on an empty ring; -EFAULT changes nothing; short only at the ring's or the array's end |
| PipeDevice.ScullPipe.Write | higher_scull/high_scull/pipe.c:148-215 | appends a prefix of the data; -EAGAIN exactly on a full ring; -EFAULT leaves the contents although it overwrote array bytes |
| PipeSafety.AtMostOneInside | higher_scull/high_scull/pipe.c:57-205 | in every run at most one task is in a critical section, the semaphore's holder is the task that is, and no task that has returned or sleeps holds it |
| PipeSafety.HandlesAreCounted | higher_scull/high_scull/pipe.c:59-98 | in every run `nreaders` and `nwriters` are the numbers of open handles by mode, and the buffer exists while any is open and throughout every read and write, and is gone when none is and no open is under way |
| PipeSafety.BytesAreConserved | higher_scull/high_scull/pipe.c:50-215 | in every run the accepted bytes are, in order, those that left the ring followed by those in it |
| PipeSafety.DropsExactly | higher_scull/high_scull/pipe.c:67-97 | a step drops bytes if and only if it is an open, or the close of the last handle, of a ring with bytes in it |
| PipeSafety.FifoBetweenOpens | higher_scull/high_scull/pipe.c:50-215 | from any reachable state, under any interleaving of opens, closes, reads and writes in which no open and no last close meets bytes in the ring, the earlier contents followed by what writers put in are what readers got, in critical-section order, followed by the contents now |
| PipeSafety.HolderGetsOut | higher_scull/high_scull/pipe.c:50-215 | in every reachable state the semaphore's holder can take a step towards releasing it: no missing buffer, no pointer out of place |
| PipeCalls.WhatCallsReturn | higher_scull/high_scull/pipe.c:50-215 | in every run a call ends, by a step of its task, if and only if: a signal comes while it waits for the semaphore or sleeps (-ERESTARTSYS); it has O_NONBLOCK and finds nothing to read or no room (-EAGAIN); its copy fails (-EFAULT); it has moved its bytes and woken the other side (their number); an open finds no memory (-ENOMEM) or has its handle; a close has lost its own. A failed call moves no byte and no handle; a test leads to the copy if and only if there is something to read, or room, and to a wait if and only if there is not and the call may block |
| PipeCalls.OnlyBlockingCallsWait | higher_scull/high_scull/pipe.c:115-160 | in every run only calls without O_NONBLOCK wait, and only waiting tasks are on a queue |
| PipeCalls.WhatAReadTakes | higher_scull/high_scull/pipe.c:127-137 | in every run a read takes the front of the ring: as much as it wants, or all there is, or all up to the end of the array |
| PipeCalls.WhatAWritePuts | higher_scull/high_scull/pipe.c:191-204 | in every run a write appends the front of its data: all of it, or as much as fills the ring, or as much as fits up to the end of the array |
| PipeCalls.WhatIsReturnedWasMoved | higher_scull/high_scull/pipe.c:107-215 | in every run, for each task, the bytes its steps took from the ring are, in order, those its reads returned and those the current one has in hand; likewise the bytes it put in and the counts its writes returned |
| PipeCalls.CallsReturnOnce | higher_scull/high_scull/pipe.c:50-215 | in every run the calls a task has begun are, in order, those that have returned and the one it is in |
| PipeAlone.AReadAlone | higher_scull/high_scull/pipe.c:107-144 | from any reachable state with nobody inside, a read left alone returns the front of the ring and wakes the writers; on an empty ring it returns -EAGAIN with O_NONBLOCK and sleeps without; it changes nothing else |
| PipeAlone.AWokenReadGoesOn | higher_scull/high_scull/pipe.c:119-144 | a woken reader left alone comes to the same |
| PipeAlone.AWriteAlone | higher_scull/high_scull/pipe.c:148-215 | from any reachable state with nobody inside, a write left alone appends what there is room for and wakes the readers; on a full ring it returns -EAGAIN with O_NONBLOCK and sleeps without; it changes nothing else |
| PipeAlone.AWokenWriteGoesOn | higher_scull/high_scull/pipe.c:157-215 | a woken writer left alone comes to the same |
| PipeWakeups.NoReaderIsLost | higher_scull/high_scull/pipe.c:115-125 | in every run a reader asleep and not woken means an empty ring or a writer that still owes its wake-up |
| PipeWakeups.NoWriterIsLostButByOpen | higher_scull/high_scull/pipe.c:148-167 | in every run a writer asleep and not woken means a full ring, a reader that still owes its wake-up, or an open that reset the ring since the writer queued |
| PipeWakeups.WhatStrandsAWriter | higher_scull/high_scull/pipe.c:67-69 | from a reachable state with nobody stranded, a step strands a sleeping writer if and only if no wake-up is owed and it is an open making room under a sleeper or a writer going to sleep on a measure taken before one |
| PipeStranding.AnOpenStrandsAWriter | higher_scull/high_scull/pipe.c:67-69 | a run at whose end everyone else has returned, the ring is empty and a writer sleeps with nobody to wake it |
| PipeStranding.AStaleMeasureStrandsAWriter | higher_scull/high_scull/pipe.c:157-160 | a run in which a writer has loaded `rp`, an open resets the ring, and the writer's next step strands it |
| StoreAddress.LocateInvertsPosition | higher_scull/high_scull/main.c:254-257 | every (item, slot, offset) inside the shape is the address of the position it stands for |
| StoreAddress.PositionInvertsLocate | higher_scull/high_scull/main.c:254-257 | every position has an address inside the shape, which stands for it |
| StoreAddress.LocateIsFlat | higher_scull/high_scull/main.c:254-257 | the two-level address is quantum pos / quantum, offset pos % quantum |
| StoreAddress.SameSlot | higher_scull/high_scull/main.c:292-295 | two positions share a block if and only if they share a quantum |
| Store.FollowGrows | higher_scull/high_scull/main.c:139-163 | following the list keeps its items, adds empty ones up to the one wanted, and fails exactly when the allocator has too few blocks |
| Store.WriteSteps | higher_scull/high_scull/main.c:301-325 | a write into a hole is the write that follows once the missing array or quantum is there |
| StoreBytes.HolesAreWhole | higher_scull/high_scull/main.c:262-263 | two positions in one quantum are both in a hole or both not |
| StoreBytes.ScullReadReadsBytes | higher_scull/high_scull/main.c:239-280 | a read returns the stored bytes, exactly as many as size, quantum and hole allow, and never changes the store, so its allocating call never allocates |
| StoreBytes.ScullcReadReadsBytes | alloc_mem/code/scullslab/main.c:152-196 | the same bytes and counts; the store gains one empty item if and only if the read is at exactly the size and the list does not reach that far, and is otherwise unchanged |
| StoreHistory.AReadGainsAnItem | alloc_mem/code/scullslab/main.c:164-174 | a run of one write and one read at the end of the file that reaches that case, in which scull's store does not change |
| StoreBytes.ScullWriteEffect | higher_scull/high_scull/main.c:281-330 | success changes exactly [pos, pos + n) and the size; -ENOMEM comes if and only if the allocator has fewer blocks than the write needs, and then no byte and no size changes; -EFAULT touches only its span; a new quantum shows what the allocator handed out |
| StoreBytes.ScullcWriteEffect | alloc_mem/code/scullslab/main.c:200-251 | the same with every new quantum cleared |
| StoreHistory.RunAgrees | higher_scull/high_scull/main.c:196-330 | after any run of opens, reads and writes, with any failures, of either driver: the size is the furthest end written, a position is allocated if and only if a write reached its quantum, and it holds the byte last written there |
| StoreHistory.ReadReturnsLastWritten | higher_scull/high_scull/main.c:239-280 | after any such run a read returns nothing in a hole or past the size, otherwise as much as size and quantum allow, with the last byte written at each written position |
| StoreHistory.DriversAreEquivalent | alloc_mem/code/scullslab/main.c:135-251 | with no failures, scull and scullc answer the same calls with the same results, sizes and bytes at written positions |
| StoreRoundTrip.CallsAreQuanta | higher_scull/high_scull/main.c:312-314 | looping over n bytes from pos takes (pos + n - 1) / quantum - pos / quantum + 1 calls |
| StoreRoundTrip.DriversServe | higher_scull/high_scull/main.c:239-330 | both drivers are files whose single calls stop at the end of a quantum |
| StoreRoundTrip.RoundTrip | higher_scull/high_scull/main.c:239-330 | after any run, n bytes written by a looping caller read back unchanged, writing and reading each taking exactly that many calls |
| ScullSerial.ConcurrentCallsAreSerial | higher_scull/high_scull/main.c:222-330 | in every run of concurrent opens, reads and writes the replies are those of the same calls made one by one in the order they left the device, and whenever nobody is inside the store is what they leave and exactly its blocks are live; those calls are the ones each task began, once each and in its own order, but for the one it is in |
| ScullSerial.NoDeadBlockIsTouched | higher_scull/high_scull/main.c:196-330 | in every run at most one task is inside, no dead block is dereferenced or freed, and the `quantum` and `qset` a call copied before the semaphore are the device's |
| ScullSerial.HolderGetsOut | higher_scull/high_scull/main.c:222-330 | in every run each step of the task inside brings it nearer to leaving, by a bound on its remaining steps |
| ScullCalls.ACallAlone | higher_scull/high_scull/main.c:222-330 | from any reachable state with nobody inside, a call left alone returns, with the reply and the store that the same call gives on the store as it was |
| ScullAlone.UnlockedIsSafeAlone | higher_scull/high_scull/access.c:121-122 | in every run with the unlocked trim in which whoever trims always finds the semaphore free and nobody else trimming, no dead block is touched and the calls act as if made one by one |
| ScullUnlocked.AnUnlockedTrimPullsABlockAway | higher_scull/high_scull/access.c:189-190 | any two tasks have a run in which one's trim without the semaphore frees the quantum the other's write is about to copy into |
| ScullUnlocked.HowManyTasksAreSafe | higher_scull/high_scull/access.c:292-293 | with the unlocked trim, no run of the tasks in a set touches a dead block, whatever the shape, if and only if there is at most one task in it |
| ScullUnlocked.WhatTheSemaphoreIsFor | higher_scull/high_scull/main.c:229-234 | with any number of tasks, no run touches a dead block if and only if trim takes the semaphore |
| ScullSingle.TheCounterProtectsTrim | higher_scull/high_scull/access.c:52-72 | in every run of opens, reads, writes and releases of scullsingle, a handle being shared by any number of tasks, no dead block is touched, the calls act as if made one by one, and no other task is in a call while an open trims |
| ScullSingle.AnOpenEmptiesTheDevice | higher_scull/high_scull/access.c:52-66 | in every run a write-only open of a device nobody has open, left alone, empties it, frees every block and gets its handle |
| ScullSingle.AnOpenForReading | higher_scull/high_scull/access.c:52-66 | any other open of such a device gets its handle and leaves the store alone |
| ScullSingle.AnOpenIsRefused | higher_scull/high_scull/access.c:56-59 | an open of a device that is not free gives up and leaves handles, counter and store as they were |
| ScullSingle.ACallIsAnswered | higher_scull/high_scull/access.c:78-86 | a read or write through an open handle, left alone, is answered as by itself |
| ScullSingle.ACloseFreesTheDevice | higher_scull/high_scull/access.c:68-72 | a handle with no call on it closes, and then none is open |
| ScullMemory.QuantumSet | higher_scull/high_scull/main.c:306-316 | putting one block of bytes into its slot changes that slot of the store and keeps every block owned by one place |
| ScullMemory.SlotFreed | higher_scull/high_scull/main.c:203-205 | a slot's quantum has not been freed before, and is the only block that goes with the slot |
| ScullMemory.ItemFreed | higher_scull/high_scull/main.c:202-210 | once its slots are done, an item's array is the only block left of it, and has not been freed before |
| SparseDevice.SparseDev.Link | higher_scull/high_scull/main.c:144-158 | linking a new item appends an empty one to list and store, keeping the list acyclic |
| SparseDevice.SparseDev.NewArray | higher_scull/high_scull/main.c:301-306 | a new array of null pointers, owned by its item |
| SparseDevice.SparseDev.NewQuantum | higher_scull/high_scull/main.c:307-311 | a new quantum holding what the allocator handed out, owned by its slot |
| SparseDevice.SparseDev.WriteItem | higher_scull/high_scull/main.c:301-325 | from the item on, a write computes `WriteFound` in place; it frees nothing and allocates only fresh blocks |
| SparseDevice.SparseDev.FreeSlots | higher_scull/high_scull/main.c:202-207 | the inner loop of trim frees each of an item's quanta once, and then its array |
| ScullDevice.FollowList | higher_scull/high_scull/main.c:139-163 | the loop computes `Follow` in place and returns the item at that index, or null if an allocation failed |
| ScullDevice.Read | higher_scull/high_scull/main.c:239-280 | computes `ScullRead` in place |
| ScullDevice.Write | higher_scull/high_scull/main.c:281-330 | computes `ScullWrite` in place, with exactly the reachable blocks live whatever failed, none freed and only fresh ones added |
| ScullDevice.Trim | higher_scull/high_scull/main.c:196-219 | terminates having freed each block once, read none after freeing it, and left none |
| ScullDevice.Open | higher_scull/high_scull/main.c:222-237 | a write-only open trims, any other changes nothing |
| ScullcDevice.FollowList | alloc_mem/code/scullslab/main.c:135-146 | the loop over the list whose first item is the device computes `Follow` in place |
| ScullcDevice.Read | alloc_mem/code/scullslab/main.c:152-196 | computes `ScullcRead` in place |
| ScullcDevice.Write | alloc_mem/code/scullslab/main.c:200-251 | computes `ScullcWrite` in place |
| ScullcDevice.Trim | alloc_mem/code/scullslab/main.c:459-485 | frees each block once but for the first item, which stays, emptied |
| ScullcDevice.Open | alloc_mem/code/scullslab/main.c:106-125 | a write-only open trims, any other changes nothing |
| DriverRuns.RunCalls | higher_scull/high_scull/main.c:139-330 | any run of calls on a device in memory gives the replies and the store that `StoreHistory.Run` says, and ends with exactly the reachable blocks live |
| AccessSingle.CounterCounts | higher_scull/high_scull/access.c:50-72 | in every run the counter is 1 less open handles less failed opens yet to restore it, and at most one handle is open |
| AccessSingle.WhenOpenSucceeds | higher_scull/high_scull/access.c:56-59 | an open succeeds if and only if no handle is open and no failed open is yet to restore the counter |
| AccessSingle.WhatOpensComeTo | higher_scull/high_scull/access.c:52-72 | in every run: an open goes on to trim, to its handle, or to -EBUSY, by whether the device is free and the open write-only; a trim ends in a handle; a handle lasts until its close; a close and a failed open raise the counter by one; a free device has it at 1 |
| AccessSingle.BusyWhileFree | higher_scull/high_scull/access.c:56-59 | a run after which an open is refused although no handle is open |
| AccessUid.OwnerLetsThemIn | higher_scull/high_scull/access.c:104-133 | in every run the count is the number of open handles, and while positive the owner is the user who took it from 0 and matches every holder by uid, euid or capability |
| AccessUid.UsersDoNotShare | higher_scull/high_scull/access.c:162-193 | in no run do two users, neither privileged nor acting for another, hold the device together |
| AccessUid.NoOpenerIsLost | higher_scull/high_scull/access.c:175-206 | in every run a task asleep on `scull_w_wait` and not woken cannot open now, or a close that brought the count to 0 still owes its wake-up |
| AccessUid.WhoIsLetIn | higher_scull/high_scull/access.c:104-111 | in every run an open is let in if and only if no handle is open or the user who took the device matches; otherwise sculluid, and scullwuid with O_NONBLOCK, gives up and scullwuid waits, each without the lock and without changing anything |
| AccessUidCalls.WhatEndsAnOpen | higher_scull/high_scull/access.c:171-193 | in every run an open ends if and only if it has its handle, is interrupted asleep, or is refused and must not wait; it waits if and only if it is refused and may; and a waiting task leaves the queue to try again if and only if what it looks at says it could open the device |
| AccessUidCalls.AnOpenAlone | higher_scull/high_scull/access.c:171-193 | from any reachable state with the lock free, an open left alone gets its handle if no handle is open or the founder matches, becoming owner in the first case; otherwise it gives up or sleeps; it changes nothing else |
| AccessUidCalls.AWokenOpenGoesOn | higher_scull/high_scull/access.c:177-193 | a woken opener left alone gets its handle, or sleeps again |
| AccessUidCalls.ACloseAlone | higher_scull/high_scull/access.c:195-207 | a close left alone takes its handle away; on scullwuid the last one wakes everyone on the queue |
| AccessClones.CloneList.LookFor | higher_scull/high_scull/access.c:246-270 | returns the one item with the key, adding an empty one first if there is none, or null exactly if that allocation fails |
| AccessClones.CloneList.Open | higher_scull/high_scull/access.c:272-296 | -EINVAL without a terminal; -ENOMEM if and only if the terminal is new and there is no memory; otherwise success, and the terminal's device is new and empty, or emptied by a write-only open, or as it was; no other terminal's device changes; equal keys give the same item |
| AccessClones.CloneList.OneItemPerKey | higher_scull/high_scull/access.c:250-253 | equal keys, one device |
| AccessClones.CloneList.Use | higher_scull/high_scull/access.c:312-320 | a read or write on a handle is scull's, on that handle's device and no other |
| AccessClones.TerminalsAreIsolated | higher_scull/high_scull/access.c:246-305 | in every run what a terminal finds in its device, and how its opens, reads and writes end, are what they would be if it were alone |
| AccessClones.TerminalHasAScull | higher_scull/high_scull/access.c:246-320 | in every run each terminal's device and replies are those of a scull device that has had the terminal's own calls |
| AccessClones.WhenEventsSucceed | higher_scull/high_scull/access.c:246-295 | in every run an open with a terminal succeeds if and only if it finds memory or an earlier open of that terminal did, and a read or write is answered if and only if one did |
| AccessClones.RunEvents | higher_scull/high_scull/access.c:246-320 | in any run on the list, opens with equal keys are given the same item however far apart, opens with different keys different items; devices and outcomes are those of the run on the map, and events succeed exactly when `WhenEventsSucceed` says |
| ShortFormat.TimeLineIs16 | IO_port/copy/short.c:344-346 | a time line has 16 characters if and only if the wrapped seconds are not negative and the microseconds are in [0, 10^6) |
| ShortFormat.CountLineIs16 | IO_port/copy/short.c:393-394 | a count line has 16 characters if and only if the count is below 10^6 |
| ShortFormat.TimeLineReadsBack | IO_port/copy/short.c:344-345 | a time line determines the wrapped seconds and the microseconds |
| ShortFormat.TimeLineShows | IO_port/copy/short.c:344-345 | for any seconds and microseconds the line is two fields of decimal digits that stand for what C's conversions make of them |
| ShortFormat.LineOf | IO_port/copy/short.c:341-346 | the line of a clock time has 16 characters, its seconds and its microseconds |
| ShortFormat.CountLineReadsBack | IO_port/copy/short.c:393 | a count line is `bh after `, spaces and the digits of the count, right-aligned in six places or longer |
| ShortText.AppendNeedsRoom | IO_port/copy/short.c:344-347 | an append adds its line to what is unread if and only if fewer than PAGE_SIZE - 16 characters were |
| ShortText.AppendLength | IO_port/copy/short.c:96-101 | otherwise the ring is a page shorter than it should be |
| ShortText.ReadTakesFront | IO_port/copy/short.c:294-303 | a read takes from the front and leaves the rest, across the page's end |
| ShortText.ReadableIsAll | IO_port/copy/short.c:294-297 | what can be read at once is all that is unread, or all up to the end of the page |
| ShortText.AppendAllNeedsRoom | IO_port/copy/short.c:392-407 | several lines are all there to be read if and only if there was room for all |
| ShortProtocol.LinesAreConserved | IO_port/copy/short.c:281-410 | in every run in which no line was printed over unread characters and the head never moved without room, with an interrupt's line or a bottom half's several lines printed between any two of the reader's steps and copied characters, what the reader was given followed by what is unread is what was printed; in every run at all the head is 16-aligned and both pointers are inside the page |
| ShortProtocol.WhenTheHeadCatchesUp | IO_port/copy/short.c:347 | after any such run, moving the head past a line keeps that so if and only if fewer than PAGE_SIZE - 16 characters are unread at that moment |
| ShortProtocol.WhenPrintingOverwrites | IO_port/copy/short.c:344-345 | printing a line leaves what is unread as it was, whatever the line, if and only if at most PAGE_SIZE - 16 characters are unread |
| ShortProtocol.NoReaderIsLost | IO_port/copy/short.c:286-293 | in every run a reader asleep and not woken has nothing to read, or a handler is at work that will wake it |
| ShortReads.WhatAReadReturns | IO_port/copy/short.c:281-304 | in every run a read ends if and only if a signal is pending once it has left the queue (-ERESTARTSYS), its copy fails (-EFAULT), or it has copied as many characters as it wanted, or all that were unread, or all up to the page's end; it waits if and only if nothing is unread, and looks again when woken |
| ShortReads.AReadAlone | IO_port/copy/short.c:281-304 | in every run a read that meets no handler returns the front of what is unread, or sleeps; it changes nothing else |
| ShortReads.AWokenReadGoesOn | IO_port/copy/short.c:286-304 | a reader that has been woken and not interrupted comes to the same |
| ShortReads.WhatIsPrinted | IO_port/copy/short.c:336-410 | in every run the text appended, and what the handler at work has still to append, is in order an interrupt's time, or a bottom half's count and times, for each handler that started |
| ShortProtocol.APageOfLinesIsLost | IO_port/copy/short.c:343-348 | on every page, PAGE_SIZE / 16 interrupts without a read leave nothing to read, and any fewer leave everything |
| ShortHalves.TimesAreInOrder | IO_port/copy/short.c:357-438 | in every run of top and bottom halves, each recorded time has at every moment been printed once and in order or is still in the ring, if and only if no bottom half has printed with none pending and no time has been stored with 512 pending |
| ShortHalves.WhenTimesGoWrong | IO_port/copy/short.c:401-417 | from a reachable state where that holds, exactly those two steps end it |
| ShortHalves.NoTimeIsLeftBehind | IO_port/copy/short.c:413-438 | in every run in which that holds, a time that is pending has a bottom half at work or queued, or a handler about to queue one |
| ShortHalves.ABottomHalfPrintsAll | IO_port/copy/short.c:382-410 | from any such state with 1 to 512 times pending, a bottom half that meets no interrupt announces the count, prints them all in order and ends |
| ShortHalves.CountsAddUp | IO_port/copy/short.c:384-436 | in every run the counts printed and the count waiting are the interrupts, less those zeroed without having been loaded, plus those an interrupt's store brought back after they had been loaded and zeroed |
| ShortHalves.WhenCountsGoWrong | IO_port/copy/short.c:384-436 | the first changes exactly when a bottom half zeroes a count that is no longer the one it loaded, the second exactly when a handler stores onto such a count |
| ShortHalves.AnInterruptIsCountedTwice | IO_port/copy/short.c:422 | a run of two interrupts, both printed, with three announced or waiting |
| ShortHalves.AnOverlapPrintsAStaleTime | IO_port/copy/short.c:401-422 | a run in which an interrupt during a bottom half makes the next one print a time that nobody recorded |
| ShortHalves.AnInterruptIsForgotten | IO_port/copy/short.c:384-385 | a run that prints two times and announces one interrupt |
| ShortHalves.TooManyAreLost | IO_port/copy/short.c:413-438 | a run that announces 513 interrupts and prints one time |
| ShortDevice.ShortDev.Interrupt | IO_port/copy/short.c:336-350 | prints the line into the page in place |
| ShortDevice.ShortDev.Read | IO_port/copy/short.c:294-304 | returned text followed by what is unread is what was unread, as much as is wanted, or all, or all up to the page's end; a failed copy changes nothing |
| ShortDevice.ShortDev.TopHalf | IO_port/copy/short.c:413-438 | records one more pending time at the head; up to 512 pending times are all in the ring, in order |
| ShortDevice.ShortDev.PrintTimes | IO_port/copy/short.c:401-407 | the do-while prints the times from the tail round to the head, once round if they meet, and ends with them equal |
| ShortDevice.ShortDev.DoTasklet | IO_port/copy/short.c:382-410 | prints a line that shows the count and those times in order, which are the pending interrupts if and only if there were 1 to 512 of them, all readable if and only if there was room; the count becomes 0 and the tail the head |
| ShortDevice.DrainedIsPending | IO_port/copy/short.c:372-407 | the entries from tail to head are the pending times if and only if there are 1 to 512 |

## Left out

- Module initialisation and cleanup, cdev and region registration, `/proc` and seq files, `printk`, poll and fasync: plumbing around the code modelled here.
- The driver copies in `simple_basic/code/main.c` and `test_kernel/code/main.c`: the same store code.
- `scullc_ioctl`, the asynchronous and `llseek` wrappers, and `alloc_mem/code/scullslab/mmap.c`: ioctl is in no operations table, the wrappers have one branch, and the fault handler is not hooked up. scullc is modelled with no active mapping, so its trim never answers -EBUSY.
- Concurrent callers of scullc: `ScullProtocol` models scull; scullc takes its semaphore in the same places.
- Inside the semaphore, the write of `size` is one step with the user copy, and the last four assignments of trim are one step; nobody else can see between them.
- Changes of `scull_quantum` and `scull_qset` while the module is loaded: nothing in the driver makes one, as `scull_ioctl` is a stub.
- The trim in the opens of sculluid, scullwuid and scullpriv is not a step of `AccessUid` or a race in `AccessClones`; what it does without the semaphore is in `ScullUnlocked`. For scullsingle the two protocols are composed, in `ScullSingle`; that a handle is released only when no call on it is under way is the kernel's doing and taken as given.
- `spacefree` loads `rp` and `wp` twice each; in `PipeProtocol` the two loads of either are one step.
- Text of short is counted as unread until the reader moves `short_tail`, also while it is being copied: a line printed over characters already copied counts as an overrun.
- sculluid differs from scullwuid only in that it never waits and returns -EBUSY: one step system models both, with a flag.
- The file position: an explicit argument, as `scull_llseek` does nothing. Positions, counts and sizes are unbounded naturals.
- ScullcDevice.FollowList: allocation is taken to succeed, there and only there, because `scullc_follow` does not test for failure.
- Other outcomes of a user copy: a failing copy is a prefix of the span it was given, overwritten with any bytes.
- A clone's device: `AccessClones` holds it as a `Store` value; its blocks are modelled in `SparseDevice`.
- Concurrent opens of scullpriv: the look-up runs under a spin lock and is one call here.
- Several readers of the interrupt device at once: `short_i_read` takes no lock, and the model has one reader.
- The NUL that `sprintf` stores after each line of short: only the 16 characters are modelled.
- Port input and output, probing and installing the interrupt, and the shared handler of short: hardware access.
- ShortDevice.ShortDev.DoTasklet: a count of a million or more is excluded: its line has more than 16 characters (`CountLineIs16`), against what the code assumes of every line, and `sprintf` may then run past the page. `ShortProtocol` starts no bottom half with such a count either. Interrupts while the bottom half runs are in `ShortHalves`, and readers in `ShortProtocol`.
- The bottom half in `ShortHalves` and the handler in `ShortProtocol` are separate systems: the first says which times are printed, the second what becomes of any lines that are.
- ShortDevice.ShortDev.Read: the call where the ring is not empty; waiting is in ShortProtocol.
- PipeDevice.ScullPipe.Read: one uninterrupted call with O_NONBLOCK; waiting and interleaving are in PipeProtocol.
- PipeDevice.ScullPipe.Write: the same.
- USB, PCI, timers, work queues, the tasklet demonstrations and the data-size programs: thin uses of kernel calls.
