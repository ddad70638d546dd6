# A verified model of the kernel's processes, page tables and page allocator

The kernel is a small RISC-V teaching kernel. This project states in Dafny what its process
table, its locks, its Sv39 page tables and its page allocator do, and proves what they keep.
`dafny verify dfyconfig.toml` checks everything.

## What is modelled, and how

**Processes and locks** (`kernel/proc.c`, `kernel/spinlock.c`, the timer path of `kernel/trap.c`).
This code is concurrent, so it is a transition system (`ProcModel`): a state holds the process
table, a program point for every process thread, for every scheduler loop and for a timer
interrupt on top of either, the holder of every lock, and `noff`, `intena` and the interrupt
flag of every CPU. One step is one lock operation, one `swtch`, or one local move, together
with the unsynchronised code up to the next such point. The functions `SchedCode`,
`CreateCode`, `ExitCode`, `WaitCode`, `YieldCode` and `TrapCode` say, program point by program
point, what is written and which lock is taken or dropped. A timer interrupt may come
before any step of a CPU whose interrupts are on. A thread function is arbitrary: at every
moment it may call `yield`, `create_process`, `exit_process`, `wait_process`, `intr_on` or
`intr_off`, or return. Every panic of `acquire`, `release`, `pop_off` and `sched` is an outcome of its own.
**The number of CPUs and of slots is arbitrary**, and so is the choice of which CPU moves.
`Boot` is the state when `main` calls `scheduler`: init in slot 0, further processes without a
parent, everything else UNUSED.

* `ProcInvariants` defines the inductive invariant, `ProcStatements` what each statement of
  the code guarantees, `ProcEffects` what a step changes, `ProcPreservation`, `ProcFamily`,
  `ProcLocal`, `ProcStep`, `ProcSleep`, `ProcHistory` and `ProcFlags` that each part survives every
  step; `ProcInduction` puts them together over runs.
* `ProcTheorems` holds the results about every reachable state, `ProcOutcomes` what a step may lead to:
  when the kernel panics, what a call begins, and the life of a process as a small automaton.
* `ProcCalls`, `ProcYields` and `ProcCreations` say over whole runs what a caller of `wait_process`,
  `exit_process`, `yield` and `create_process` gets, told by what has happened between the call and its
  return, and `ProcBounds` how many steps that can take. `ProcRuns` is bounded bypass, `ProcWakeups` about
  sleep channels and the reasons for a wakeup.
* `ProcExits` ties what is reaped to the calls of `exit_process`, `ProcPreemption` is about
  interrupt flags and preemption, `ProcOrphans` about the processes of `main`, `ProcDeadlock` about
  spinlocks on several CPUs.
* `ProcScenarios` and `ProcReached` give five runs from boot, statement by statement, that show
  that a deadlock, an orphan ZOMBIE, a preempted process, a yield to another process and a sleep in
  `wait_process` are reached.
* `Interrupts` holds `push_off`, `pop_off`, `acquire` and `release` a second time, as methods of
  objects whose fields they update; their contracts use the very functions the transition system uses.

**Memory** (`kernel/mm/kalloc.c`, `kernel/mm/vm.c`, and the memory side of `kernel/proc.c`).
`PhysMem.Ram` is one mutable store, a map from page address to 512 words, in which free-list links, page
tables and data lie side by side. Ghost fields say who owns each page and where the tables of
each tree are; `View()` is the resulting value (`Heap.Heap`), and `Heap.HeapOk` its
invariant: the list is acyclic and holds exactly the free pages, every tree is a tree of pages it owns
alone. `PageTree` gives the abstract meaning of a tree, a partial map from 27-bit page
number to entry, and the hardware's walk. `AddressSpace` and `PageLists` specify mapping
one page and a list of pages, `KernelMap`, `KernelSpace` and `KernelStacks` are `kvmmap`,
`kvminit` and `procinit`, `KernelTranslation` and `KernelAccess` are what the hardware makes of the result,
`Destroy` and `DestroyTree` are `destroy_pagetable`, and `ProcPages`, `ProcMemory` and `ProcPool` are
the pages of processes. `ProcJoint` runs the protocol and the memory together: at the write that
allocates or frees a slot, memory changes as the contracts of `alloc_process` and
`free_process` say, and that the latter may be called there is proved. A panic is the outcome
`Panicked`, after which nothing is claimed about memory.

**Printing** (`kernel/printf.c`): `PrintInt` is `printint`, with its buffer.

Shifts and masks are written as divisions and remainders, and 64-bit wrap-around is
explicit (`Word`, `% TWO64`, `NextPageAddr`).

## Where the code and its comments differ

* The comment at `kernel/proc.c:196` says that the trapframe page is mapped just below the
  trampoline. The call maps physical address `PGSIZE` there (`kernel/proc.c:198`), and the model
  follows the call (`ProcPages.ProcMapping`). So no process ever reaches its trapframe at that
  address: `ProcJoint.NoProcessSeesItsTrapframe`.
* `note.txt:18` warns that `kvmmap` may loop for ever when its arithmetic overflows. It cannot:
  `KernelMap.KvmMap` ends for all arguments, because the walk sees 27 bits of a page number and a
  range that comes round to its beginning meets its own first mapping (`KernelMap.RangeFresh`).
  What overflow does do is map one page instead of all (`KernelMap.RangeCovers`).
* `note.txt:12` speaks of time slices. There are none: the scheduler turns interrupts off before it
  takes the first lock (`kernel/proc.c:114-118`), so the release in `forkret` leaves them off
  (`kernel/proc.c:152`), and none of the thread functions turns them on. Only the scheduler takes a
  tick, and a process runs until it gives up the CPU itself: `ProcPreemption.NeverPreempted`. The
  yield at `kernel/trap.c:136-137` is reached only once some thread function has called `intr_on`,
  and then it is (`ProcReached.PreemptionIsReached`).
* `create_process` takes `wait_lock` while it holds the new slot's lock
  (`kernel/proc.c:301-308`), the other way round than `exit_process` and `wait_process`. With more
  than one CPU this can deadlock (`ProcReached.DeadlockIsReached`), and no other deadlock on the
  locks of the process protocol is possible (`ProcDeadlock.DeadlockIff`). The kernel is configured
  for one CPU (`include/param.h:2`), where no lock ever spins (`ProcTheorems.OneCpuNeverSpins`).
* `alloc_page` has a comment that it returns 0 on failure (`kernel/mm/kalloc.c:71`); it panics one line
  before, so the null checks of its callers are dead code.
* `free_page` has no check against double frees (`note.txt:17`). Memory is valid after it if and only if the
  page was in use as data (`Heap.FreedIff`); if it was on the list already, the list never ends any more
  (`Heap.DoubleFree`). None happens in the life of a process: `ProcJoint.FreeIsReady`.
* A process that `main` creates has no parent (`kernel/proc.c:306-311`). When it exits nobody
  may reap it, and its slot is lost (`ProcReached.OrphanIsReached`); these are exactly the processes with a
  pid below the value of `nextpid` when `main` called `scheduler`: `ProcOrphans.ReapableIffCreatedByProcess`.
* `map_page` does not look at its permissions. An entry without R and X, or with W alone, is
  valid for `walk_lookup` and faults in the hardware: `KernelTranslation.HardwareSeesPage`. An entry without
  R, W and X looks like a link to a table, and `destroy_pagetable` would walk the page it maps:
  `DestroyTree.PermissionlessIsTable`.

## Model

| member | source | states |
|---|---|---|
| Interrupts.NestingKeepsFlag | kernel/spinlock.c:84-113 | any sequence of push_off and pop_off panics exactly when some call pops more than was pushed before, and otherwise the flag seen outside all critical sections comes back with the depth |
| Interrupts.Cpu.constructor | include/proc.h:22-27 | a CPU starts with no nesting and the given interrupt flag |
| Interrupts.Cpu.IntrOn | include/riscv.h:329-334 | sets the flag and nothing else |
| Interrupts.Cpu.IntrOff | include/riscv.h:336-341 | clears the flag and nothing else |
| Interrupts.Cpu.PushOff | kernel/spinlock.c:88-100 | the new interrupt state; interrupts off inside, the outer flag remembered |
| Interrupts.Cpu.PopOff | kernel/spinlock.c:102-113 | panics if and only if interrupts are on or nothing was pushed; otherwise the outer flag is kept |
| Interrupts.Spinlock.constructor | kernel/spinlock.c:11-17 | the lock starts free |
| Interrupts.Spinlock.TestAndSet | kernel/spinlock.c:28-33 | atomically sets the lock bit and returns what it was |
| Interrupts.Spinlock.Acquire | kernel/spinlock.c:21-43 | panics if and only if this CPU holds the lock already; otherwise, given that a rival releases the lock after `rivals` turns of the loop (the parameter stands for the rival, whose release is carried out inside the loop), this CPU holds it, one level deeper |
| Interrupts.Spinlock.Release | kernel/spinlock.c:46-72 | panics if and only if this CPU does not hold the lock or pop_off panics; otherwise the lock is free and the nesting undone |
| Interrupts.CrossedSections | kernel/spinlock.c:84-86 | two locks given back in the order they were taken still restore depth and flag |
| ProcStatements.CreateStatement | kernel/proc.c:238-329 | every statement of create_process, alloc_process and allocpid takes and drops exactly the locks its program points claim, and writes a slot only under the locks that protect it; which slot it takes and when it panics is ProcCreations |
| ProcStatements.ExitStatement | kernel/proc.c:371-441 | the same for exit_process with wakeup; ZOMBIE is written only when no child is left and the parent is awake, and a ZOMBIE handed to init starts a wakeup of init |
| ProcStatements.WaitStatement | kernel/proc.c:333-367 | the same for wait_process and the sleep it calls; a slot is freed only under both locks, as a ZOMBIE child of the caller |
| ProcStatements.YieldStatement | kernel/proc.c:508-515 | the same for yield, and for the release with which forkret starts a thread; that a yield gets there is ProcYields.YieldReturns |
| ProcStatements.CallStatement | kernel/proc.c:389-412 | the same for entering the calls a thread may make, and for intr_on and intr_off called by it; which call leads where is ProcOutcomes.CallOutcome |
| ProcStatements.TrapStatement | kernel/trap.c:40-48 | the same for the timer interrupt of a process, with its wakeup and its yield; one comes only after some thread function has called intr_on (ProcPreemption.NeverPreempted) |
| ProcStatements.SchedStatement | kernel/proc.c:100-142 | the same for the scheduler; it enters a slot only if it is RUNNABLE and makes it RUNNING |
| ProcStatements.SchedTrapStatement | kernel/trap.c:136-143 | a timer interrupt of the scheduler wakes sleepers and never yields |
| ProcInduction.BootInv | kernel/main.c:54-57 | the invariant holds when main calls scheduler |
| ProcInduction.KeepsInv | kernel/proc.c:52-515 | every step of every CPU keeps the invariant |
| ProcTheorems.LockingNeverPanics | kernel/spinlock.c:21-113 | no interleaving, on any number of CPUs, reaches a panic of acquire, release, pop_off or sched |
| ProcTheorems.SpinsOnlyForOthers | kernel/spinlock.c:28-33 | a CPU that spins waits for another CPU, which holds the lock at its present program point |
| ProcTheorems.OneCpuNeverSpins | kernel/spinlock.c:28-33 | on one CPU every test-and-set succeeds at once, so there is no deadlock on locks |
| ProcOutcomes.PanicsIff | kernel/proc.c:162-394 | in every reachable state a CPU panics if and only if init calls exit_process, a thread function returns, or create_process has come to the end of the table; the panics of the locking code, of sched and behind the last sched of exit_process never happen |
| ProcOutcomes.CallOutcome | kernel/proc.c:388-404 | every call is accepted, whatever its argument: it panics if and only if it is exit_process by init, spins if and only if the lock it begins with is taken, and otherwise the process is in that call, with that status, and intr_on and intr_off have set the flag |
| ProcOutcomes.LifeCycle | kernel/proc.c:144-515 | every process lives as a small automaton says: it starts in its thread function, each call it chooses begins, goes on or returns to it, exit_process never does, and only creation and reaping happen to it from outside |
| ProcOutcomes.GoesOn | kernel/proc.c:100-515 | outside thread functions a CPU always has a step, unless it spins on a lock or create_process has found the table full |
| ProcOutcomes.InterruptTaken | kernel/trap.c:94-106 | a timer interrupt is taken if and only if interrupts are on and none is being handled, and turns them off, on a process and on the scheduler alike |
| ProcTheorems.InterruptsOffUnderLocks | kernel/spinlock.c:84-113 | noff is the number of locks a CPU holds, and interrupts are off while it holds one |
| ProcTheorems.HandOver | kernel/proc.c:117-136 | whenever a slot's lock is free, the slot is RUNNING if and only if some CPU, and then exactly one, has it as c->proc |
| ProcTheorems.OneCpuPerStack | kernel/proc.c:52-70 | no kernel stack is in use on two CPUs |
| ProcTheorems.NoStackTakenAway | kernel/proc.c:465-484 | a slot is dispatched, allocated or reaped only while no CPU executes on its stack |
| ProcTheorems.NoLostWakeup | kernel/proc.c:411-441 | at every moment, a process asleep in wait_process has a child, and if one of its children is a ZOMBIE the holder of wait_lock is in a wakeup loop that has not passed the sleeper yet; so while wait_lock is free none is |
| ProcTheorems.WaitersHaveWorkers | kernel/proc.c:449-502 | at every moment, whoever holds wait_lock, some descendant of a waiting process can run; found by following children with growing pids |
| ProcTheorems.NoDeadlockAmongWaiters | kernel/proc.c:449-502 | processes never wait for each other in a ring: in every reachable state, some descendant of every sleeper is RUNNABLE or RUNNING |
| ProcTheorems.WaitFindsChildren | kernel/proc.c:459-496 | at the end of its scan wait_process knows whether its caller has a child, and that no child is a ZOMBIE; what it does then is ProcCalls.WaitReturns |
| ProcCalls.WaitGoesOn | kernel/proc.c:465-500 | a step from wait_process back to its caller comes after a reap, or the caller has no child, before and after it |
| ProcCalls.WaitReturns | kernel/proc.c:450-501 | over every run: between a call of wait_process and its return the caller has reaped exactly one child, or none, and then it has no child at the return |
| ProcReached.SleepIsReached | kernel/proc.c:493-500 | a process that waits while its only child is RUNNABLE sleeps: a run from boot gets there |
| ProcWakeups.OnlySleepersHaveChannels | kernel/proc.c:352-358 | at every moment of every run, a slot has a channel, itself, if and only if its process is inside sleep |
| ProcWakeups.WokenForAReason | kernel/proc.c:415-427 | in every step of every run that ends a sleep, the sleeper has a child that is a ZOMBIE, or the child that wakes it is on its way out |
| ProcTheorems.ExactlyOnceReaping | kernel/proc.c:433-484 | over every run: no pid exits twice or is reaped twice, every reaped pair of pid and status is on the record of exits, and exits are reaps plus present ZOMBIEs |
| ProcTheorems.ReapsOwnChild | kernel/proc.c:463-484 | what wait_process hands out is the pid and status of a ZOMBIE child of its caller |
| ProcTheorems.ExitReportsStatus | kernel/proc.c:430-434 | an exit is recorded by the exiting process itself, with the status it carries |
| ProcTheorems.ExitCarriesStatus | kernel/proc.c:388-441 | that status is the argument of the call, unchanged from the first statement to the last |
| ProcCalls.ExitNeverReturns | kernel/proc.c:389-443 | over every run: once exit_process has begun, its process is in it, with the status given, as long as it has its pid |
| ProcExits.ReapedWasPassed | kernel/proc.c:388-484 | in every run, whatever pid and status wait_process has handed out, the process with that pid called exit_process with that status at an earlier step |
| ProcTheorems.OnlyWakeupWakes | kernel/proc.c:371-385 | a sleeper leaves SLEEPING only as RUNNABLE, with nothing else changed, through a wakeup on its own channel by an exiting process; ticks wake nobody who waits |
| ProcTheorems.OrphanZombieStays | kernel/proc.c:306-311 | a step leaves a ZOMBIE without parent exactly as it is |
| ProcTheorems.ProcessForest | kernel/proc.c:417-424 | a parent is never UNUSED, USED or ZOMBIE and has a smaller pid than its child, so parent links form a forest |
| ProcTheorems.PidsAreUnique | kernel/proc.c:238-248 | slots in use have different positive pids below nextpid |
| ProcTheorems.CreateReturnsItsPid | kernel/proc.c:321-328 | create_process returns the pid it assigned although it reads it after dropping the lock |
| ProcCreations.CreatePanics | kernel/proc.c:255-302 | over every run: a call of create_process that panics has seen every slot of the table in use, each while it held the slot's lock |
| ProcCreations.CreateTakesFirst | kernel/proc.c:255-269 | over every run: the slot it takes is UNUSED, all lower slots have been in use when it held their locks, and the pid is the next one |
| ProcCreations.CreateReturns | kernel/proc.c:295-328 | over every run: when it returns it has taken such a slot, has made it RUNNABLE as a child of the caller, and returns the pid it gave it |
| ProcDeadlock.SpinsIff | kernel/spinlock.c:28-33 | a CPU spins if and only if another CPU holds the lock it wants, at its present program point |
| ProcDeadlock.CreateAndExitBlock | kernel/proc.c:301-310 | a CPU in create_process about to take wait_lock and one in exit_process whose wakeup is about to take the lock of the new slot wait for each other, and neither has a step |
| ProcDeadlock.SpinningLeadsOut | kernel/proc.c:371-385 | from any CPU that spins, at most five lock holders on there is a CPU that can take a step, or one of such a pair; for any number of CPUs |
| ProcDeadlock.DeadlockContains | kernel/proc.c:411-431 | every group of CPUs that wait for locks held within the group contains such a pair |
| ProcDeadlock.DeadlockIff | kernel/proc.c:301-310 | some CPUs are deadlocked on spinlocks if and only if two of them are at these two program points |
| ProcDeadlock.DeadlockForever | kernel/proc.c:301-310 | such a pair stays as it is for the rest of the run |
| ProcReached.DeadlockIsReached | kernel/proc.c:301-310 | it does occur: a run from boot with two CPUs and three slots ends in such a state, in which no CPU has a step |
| ProcPreemption.InterruptFlagBelongsToThread | kernel/proc.c:67-69 | whenever a thread function executes, on whatever CPU, interrupts are as they were whenever it did so before, unless it has called intr_on or intr_off itself since |
| ProcPreemption.CallsKeepFlag | kernel/proc.c:508-515 | yield, wait_process, create_process and a timer interrupt return with the interrupt flag they were called with, on or off |
| ProcPreemption.NeverPreempted | kernel/proc.c:107-141 | until some thread function calls intr_on, interrupts are off whenever a process runs, and no process is in a timer interrupt or was switched out by one |
| ProcReached.PreemptionIsReached | kernel/trap.c:136-143 | once one has, a process is switched out by the yield in kerneltrap in some run |
| ProcOrphans.ParentIffCreatedByProcess | kernel/proc.c:303-311 | at every moment of every run, a process past its creation has a parent if and only if its pid is not below nextpid at the call of scheduler, that is, if a process created it |
| ProcOrphans.ReapableIffCreatedByProcess | kernel/proc.c:459-484 | a ZOMBIE has a live parent if and only if its pid is not below that value; otherwise its slot stays a ZOMBIE, unchanged, to the end of every run |
| ProcOrphans.NoReapOfOrphans | kernel/proc.c:468-484 | no run ever reaps a pid that main created |
| ProcOrphans.OrphanZombieForever | kernel/proc.c:306-311 | a ZOMBIE without a parent is still there at the end of every longer run |
| ProcReached.OrphanIsReached | kernel/proc.c:389-441 | there is one: a run from boot in which a process of main exits |
| ProcRuns.BoundedBypass | kernel/proc.c:107-141 | between two dispatches of a slot by one CPU, every other slot that was RUNNABLE at the first is dispatched |
| ProcYields.YieldReturns | kernel/proc.c:508-515 | over every run: between a call of yield and its return there is a step after which the caller is RUNNABLE and the CPU that ran it is in its scheduler |
| ProcYields.TickReturns | kernel/trap.c:136-137 | the same for a timer interrupt of a process: it does not end before such a step |
| ProcYields.YieldServesOthers | kernel/proc.c:107-141 | on one CPU, every other process that is RUNNABLE when yield is called is dispatched before it returns |
| ProcReached.YieldIsReached | kernel/proc.c:508-515 | there is a run from boot in which a process has yielded, is RUNNABLE, and its CPU runs another one |
| ProcBounds.CallIsShort | kernel/proc.c:295-515 | with n slots, a call is over, or asleep, after at most so many steps of its process: 3 for yield, 2n+7 for create_process, 2n+5 for wait_process, n(2n+3)+2n+7 for exit_process, whatever happens in between |
| ProcBounds.WakeIsShort | kernel/proc.c:358-500 | the same after a wakeup: at most 2n+5 steps until wait_process returns or sleeps again |
| ProcBounds.TickIsShort | kernel/trap.c:40-48 | a timer interrupt of a process takes at most 2n+6 steps of its handler |
| ProcBounds.PassIsShort | kernel/proc.c:107-141 | a pass of the scheduler over the table takes at most 4n+2 of its steps |
| ProcPreemption.SchedulerListens | kernel/proc.c:113-114 | in every pass the scheduler comes by a point at which interrupts are on |
| Riscv.LeafValid | kernel/mm/vm.c:67 | the bitwise or of PA2PTE(pa), perm and PTE_V is valid for every address and every int perm |
| Riscv.LeafParts | kernel/mm/vm.c:67 | which page number and which flags the entry consists of, for every address and every int perm |
| Riscv.LeafSum | kernel/mm/vm.c:67 | for permissions within the ten flag bits the bitwise or is a sum: address and flags do not mix |
| Riscv.PteRoundTrip | include/riscv.h:265-270 | such an entry gives back its page and its flags, for every 64-bit address |
| Riscv.PointerIsNoLeaf | kernel/mm/vm.c:37 | an entry that points to a table is valid, grants nothing, and leads to that table |
| Riscv.MaskIsIndex | include/riscv.h:262-263 | VPN_MASK is the index into the page number that the hardware uses |
| PageTree.TreeFrame | kernel/mm/vm.c:12-23 | memory outside the tables does not matter for a tree |
| PageTree.EmptyTree | kernel/mm/vm.c:72-79 | a zeroed page is a tree that maps nothing |
| PageTree.GrownTree | kernel/mm/vm.c:28-40 | hanging a zeroed table into a tree changes no translation |
| PageTree.LeafWritten | kernel/mm/vm.c:64-68 | writing a last-level entry changes the translation of one page and of no other |
| PageTree.HardwareAgrees | kernel/mm/vm.c:12-23 | at every address below MAXVA the Sv39 walk finds what the abstract table says, or faults on an illegal entry |
| PageTree.HardwareAgreesIff | kernel/mm/vm.c:67 | hardware and abstract table agree everywhere if and only if all entries below MAXVA are legal |
| Heap.FreedOk | kernel/mm/kalloc.c:36-54 | freeing a data page keeps list, trees and all translations |
| Heap.FreedIff | kernel/mm/kalloc.c:36-54 | for every page of the allocator: memory is in order after free_page if and only if the page was in use and not as a table |
| Heap.DoubleFree | kernel/mm/kalloc.c:36-54 | after a page that is free is freed again, no finite list is the free list: it runs in a circle |
| Heap.PagesFilled | kernel/mm/kalloc.c:36-72 | an allocated page consists of bytes 5, a freed one of bytes 1 behind the link to the next page |
| Heap.AllocatedOk | kernel/mm/kalloc.c:56-72 | so does allocating, and the new head is the link read from the old one |
| Heap.CreatedOk | kernel/mm/vm.c:71-79 | a new tree maps nothing and disturbs no other |
| Heap.GrowOk | kernel/mm/vm.c:30-38 | a table taken from the list joins its tree, and nothing else changes for anyone |
| AddressSpace.WriteLeafOk | kernel/mm/vm.c:64-68 | a written entry changes one translation of one tree |
| AddressSpace.WalkedOk | kernel/mm/vm.c:25-43 | walk_create changes no translation, even if it stops half-way |
| AddressSpace.WalkedCost | kernel/mm/vm.c:25-43 | it takes one page per missing table, and reaches the last level if and only if there are that many |
| PhysMem.Ram.constructor | kernel/mm/kalloc.c:12-15 | memory before pmm_init: an empty list |
| PhysMem.Ram.FreePage | kernel/mm/kalloc.c:36-54 | panics if and only if the page is misaligned or outside [end, PHYSTOP); otherwise, also if it is free already or a table, it becomes the head of the list, and memory is valid afterwards if and only if it was in use as data |
| PhysMem.Ram.AllocPage | kernel/mm/kalloc.c:56-72 | panics if and only if the list is empty; otherwise it takes the head |
| PhysMem.Ram.PmmInit | kernel/mm/kalloc.c:20-25 | afterwards the list runs from the highest page down and holds every page from PGROUNDUP(end) to PHYSTOP once |
| PhysMem.Ram.FreeRange | kernel/mm/kalloc.c:27-34 | for any range, the pointer wrapping round at 2^64 included, whose pages in use are data: panics if and only if free_page refuses one of its whole pages; otherwise exactly these pages are now free, the last one in front of the list |
| PhysMem.Ram.CreatePagetable | kernel/mm/vm.c:71-79 | an empty tree on the first free page |
| PhysMem.Ram.WalkLookup | kernel/mm/vm.c:12-23 | null if and only if there is no last-level table for the address; otherwise the address of its entry |
| PhysMem.Ram.WalkCreate | kernel/mm/vm.c:25-43 | the loop ends in the state WalkedOk and WalkedCost are about, at the right entry |
| PhysMem.Ram.MapPage | kernel/mm/vm.c:57-69 | for every int perm: -1 and no change for unaligned addresses; otherwise it returns if and only if the page is unmapped and there are pages for the missing tables, and then exactly one translation of one tree has changed |
| PhysMem.Ram.UnmapPage | kernel/mm/vm.c:133-145 | panics if and only if the page is not mapped; otherwise exactly this translation is gone and no page is freed |
| PageLists.CanMapNext | kernel/mm/vm.c:123-130 | after some pages of a list, the next one can be mapped if and only if the longer list could be from the start |
| PageLists.MapsNext | kernel/mm/vm.c:123-130 | one more mapped page is one more page of the list, and of nothing else |
| PageLists.CanMapJoin | kernel/mm/vm.c:153-166 | whether a second list fits after a first is whether both together fit |
| PageLists.MapsJoin | kernel/mm/vm.c:153-166 | the two together map the joined list at the joined price |
| KernelMap.KvmMap | kernel/mm/vm.c:113-131 | for all arguments: it ends, and returns if and only if the physical address is aligned, no page of the range is mapped and there are pages for all missing tables; then exactly the range is mapped |
| KernelMap.RangeEntered | kernel/mm/vm.c:121-130 | that is: each page of the range at a fixed distance, all else as before |
| KernelMap.RangeFresh | kernel/mm/vm.c:121-130 | a range longer than the 27-bit page numbers always meets itself |
| KernelMap.RangeCovers | kernel/mm/vm.c:121-122 | the pages of the range are those that hold one of the bytes va .. va + sz - 1, counted in 64 bits, if and only if va % PGSIZE + sz is at most 2^64 |
| KernelSpace.KvmInit | kernel/mm/vm.c:152-166 | needs exactly 68 pages, and makes a tree that is KernelMapping: text with PTE_R and PTE_X, the rest of memory and the UART with PTE_R and PTE_W, all at their own addresses; what that lets the kernel do is KernelAccess |
| KernelStacks.ProcInit | kernel/proc.c:72-90 | needs exactly 66 pages, puts every stack on its own page at KSTACK(p) and changes nothing else |
| KernelStacks.StacksMapped | kernel/proc.c:81-88 | which pages are mapped afterwards, and to what |
| KernelStacks.GuardPages | include/memlayout.h:46-48 | the pages above and below every stack are not mapped |
| KernelStacks.BootMemory | kernel/main.c:33-54 | pmm_init, kvminit and procinit need exactly 134 pages; afterwards every page is free, a kernel table or a stack |
| PageTree.LegalLeafIff | kernel/mm/vm.c:67 | for every address and every int perm: the entry that map_page writes is legal if and only if perm has R or X, not W without R, none of the bits from 54 up, and pa is below 2^56 |
| KernelTranslation.HardwareSeesPage | kernel/mm/vm.c:57-69 | for every int perm: the hardware uses the entry that map_page writes if and only if the arguments are legal, and faults otherwise; it leads to the page of pa or'ed with the bits of perm above the flags, which is that of pa if there are none |
| KernelTranslation.WriteOnlyIsIllegal | kernel/mm/vm.c:64-67 | an entry for writing alone, or for nothing, is valid and illegal for every address |
| KernelTranslation.HardwareSeesKernel | kernel/mm/vm.c:147-166 | the hardware then translates every address below MAXVA to itself, into a stack page, or not at all |
| KernelAccess.KernelRights | kernel/mm/vm.c:158-165 | after boot, in the bits of section 4.3.1 of the privileged architecture: every mapped page may be loaded from, it may be fetched from if and only if it is text, and stored to if and only if it is not |
| KernelAccess.KernelAccesses | kernel/mm/vm.c:152-166 | so a fetch succeeds exactly on text, a store exactly on data, UART and stacks, a load on all of them, and each goes where it should, at every address below MAXVA |
| KernelAccess.ProcAccesses | kernel/proc.c:185-202 | under the page table of a process: the trampoline page can be loaded and fetched from, the page at TRAPFRAME loaded from and stored to, in physical page 1, and nothing else is accessible |
| Destroy.DestroyNode | kernel/mm/vm.c:81-94 | the recursion from any table ends, and frees exactly the pages below that table; it panics if and only if one of them is not a page of the allocator |
| Destroy.EntryRead | kernel/mm/vm.c:82-84 | at every turn of its loop, the table it reads has not been freed yet, and the entry is the one that was there at the beginning |
| DestroyTree.DestroyPagetable | kernel/mm/vm.c:81-94 | the same for a whole tree without permissionless leaves, which is gone afterwards |
| DestroyTree.MapPageKeepsPermits | kernel/mm/vm.c:57-69 | map_page leaves a tree without permissionless leaves if and only if its perm contains R, W or X |
| DestroyTree.PermissionlessIsTable | kernel/mm/vm.c:84-89 | an entry for nothing is valid, grants nothing, and so reads as a link to a table in the page it maps |
| DestroyTree.TreeFreedOnce | kernel/mm/vm.c:81-94 | every table and every mapped page is on the list once, after the pages that were free before |
| DestroyTree.OtherTreesStay | kernel/mm/vm.c:81-94 | no translation of another tree changes |
| ProcPages.ProcPagetable | kernel/proc.c:177-205 | needs three pages and maps the trampoline and the trapframe address; with an unaligned trampoline it returns null and every page is back |
| ProcPages.ProcFreePagetable | kernel/proc.c:207-213 | frees the tables of the process and nothing that they mapped |
| ProcMemory.AllocProcess | kernel/proc.c:265-290 | needs four pages, the trapframe and three tables; with an unaligned trampoline two, it returns null, and the same pages are free as before |
| ProcMemory.TookPages | kernel/proc.c:265-290 | exactly these pages have left the free list |
| ProcMemory.TrapframeMissed | kernel/proc.c:196-202 | with that page table TRAPFRAME leads to physical page 1, and never to the trapframe |
| ProcMemory.FreeProcess | kernel/proc.c:218-226 | gives back exactly the pages behind trapframe and pagetable |
| ProcPool.GivesBack | kernel/proc.c:218-226 | for a live slot these are the four pages it owns |
| ProcPool.FreeIffUnowned | kernel/proc.c:218-290 | a page is free if and only if neither the kernel nor a live slot owns it |
| ProcPool.OneOwner | kernel/proc.c:218-290 | no page belongs to two slots, or to a slot and the kernel |
| ProcPool.SameOwnersNoLoss | kernel/proc.c:218-290 | if every slot has the same pages at two moments, or none, the same pages are free |
| ProcPool.ProcTable.constructor | kernel/proc.c:72-90 | a table without processes next to a kernel that owns its tree and its stacks |
| ProcPool.ProcTable.AllocSlot | kernel/proc.c:250-291 | takes the first slot that is not in use, and the free pages lose exactly the pages of the slot; it returns null if and only if there is none or the trampoline is unaligned, and then the slots are as before and the same pages are free; keeps the partition of memory |
| ProcPool.ProcTable.FreeSlot | kernel/proc.c:218-235 | keeps the partition of memory; the free pages gain exactly the pages of the slot, none if its fields are null |
| ProcJoint.FreeIsReady | kernel/proc.c:468-484 | whenever wait_process calls free_process, in whatever interleaving, the slot owns the pages behind its fields: no page is freed twice |
| ProcJoint.KeepsJoint | kernel/proc.c:218-290 | every step of every CPU keeps the partition of memory, and that a slot has pages exactly while it is not UNUSED; the page work of one alloc_process or free_process is one step |
| ProcJoint.FreePagesByUse | kernel/proc.c:265-290 | at every moment of every run the free pages are a constant minus four for every slot in use |
| ProcJoint.ReapGivesBack | kernel/proc.c:463-484 | a reap puts exactly four pages on the free list, and none of them was free before |
| ProcJoint.CyclesLoseNothing | kernel/proc.c:465-484 | however many processes are created, exit and are reaped in between: the same pages are free again |
| ProcJoint.NoProcessSeesItsTrapframe | kernel/proc.c:196-202 | at no moment of any run does the address TRAPFRAME of a process lead to its trapframe |
| ProcJoint.CreateFirst | kernel/main.c:54-57 | the processes that main creates need four pages each, and leave memory as these runs require |
| PrintInt.PrintInt | kernel/printf.c:11-33 | the characters are Printed, and the buffer of 20 is never overrun |
| PrintInt.PrintedRoundTrip | kernel/printf.c:18-26 | they parse back to the value, for every 64-bit value, base 10 or 16, with or without sign |
| PrintInt.NoLeadingZero | kernel/printf.c:24-26 | a leading 0 is the only digit |
| PrintInt.PrintedInjective | kernel/printf.c:11-33 | two values never print alike |
| PrintInt.FitsBuffer | kernel/printf.c:14 | 20 characters suffice |
| PrintInt.FillsBuffer | kernel/printf.c:14 | and exactly these values need all 20, so the bound is tight |

## Left out

- ProcRuns.BoundedBypass: is about two dispatches by the same CPU; with several CPUs the order among them is left open, and no fairness of preemption is claimed.
- ProcYields.YieldServesOthers: is about one CPU; on several, another CPU may dispatch the caller again before its turn in the first one's pass.
- Interrupts.Spinlock.Acquire: the release by another CPU is a parameter that says how often the loop spins; memory-ordering fences are left out, lock operations are sequentially consistent.
- DestroyTree.DestroyPagetable: trees with leaves without R, W and X are excluded, since `destroy_pagetable` takes the
  pages these map for tables and what it does next depends on their contents; `map_page` writes such a leaf only for a
  perm without R, W and X, which no caller passes. Pages of the allocator that the tree maps are in use as data, and
  mapped once.
- PrintInt.PrintInt: bases other than 10 and 16 are left out, since printf passes no others.
- The allocator's lock and the printing lock are leaf locks held for a few statements; they are not part of the process protocol, and memory operations are modelled one after the other.
- ProcJoint.KeepsJoint: the page work of one alloc_process or free_process is a single step next to the write that
  changes the slot; the calls of the allocator of different CPUs are not interleaved with each other, and the
  contents of stacks and trapframes are left alone.
- pids and noff are unbounded numbers; `int` overflow after 2^31 processes is not modelled.
- killed, sz, name, open files, the context registers other than the choice of the thread function: never set to anything that matters here.
- exit_process by init, a thread function that returns, and create_process without a free slot panic by design; they are outcomes of the model, not excluded (ProcOutcomes.PanicsIff).
- alloc_pages (unlocked and unused), kernel/mm/spinlock.c (not linked), dump_pagetable (prints only).
- The console, UART, PLIC and timer devices, wfi, satp and sfence; the assembly files, where swtch is a transfer of control between a thread and the scheduler; user mode, which the kernel does not reach.
- The format loop of printf and printptr: they emit characters one by one.
