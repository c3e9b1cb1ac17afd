# Verified model of the kernel's scheduler, locks, queues and memory manager

This project models the parts of a small 32-bit x86 kernel in which one wrong step is fatal and
hard to see: the single-CPU scheduler with its semaphores, recursive locks and bounded queues,
the context switch, and the virtual memory manager with its recursively mapped page tables. It
proves what holds in every state such a kernel can reach.

`dafny verify dfyconfig.toml` checks the whole project.

## How the model is built

**Threads.** `KernelState` is one transition system. A section that runs with interrupts off is one
atomic step; where interrupts are on, every load and store of shared data is a step of its own, and
a timer or keyboard interrupt may come between any two. Each thread has a program counter inside
`lock_acquire`, `lock_release`, `ioq_getchar` and `ioq_putchar`, so that a thread that has the
semaphore's unit but is not yet named as holder, or one that was taken off a waiter list but has not
yet looked at the value again, is a state of its own. Waking is Mesa style, as in the code: the
woken thread looks again and may lose the race. A failing `ASSERT` or `PANIC` sets the flag
`halted`. `KernelInv` is the inductive invariant; `KernelSteps`, `KernelSwitches` and `KernelRuns`
show that every step keeps it, and `KernelTheorems`, `KernelOrder`, `KernelReader`, `KernelTimer`,
`KernelTurns`, `KernelCalls` and `KernelStrand` draw the conclusions: `KernelTurns` about every turn
a thread ever gets, `KernelCalls` about what threads called and what came of it. `KernelAsserts`
lists every check of the source with the exact condition on which it stops the machine.
`KernelMeaning` says of each kernel function what a call does to lists, locks and queues without
repeating its statements. Threads may call anything in any order, subject to `Disciplined`: a thread
releases only a lock it holds, calls the queue functions with interrupts off (the code asserts it),
does not nest one lock 2^32 deep, and the first thread never waits (the first thread of
`kernel/main.c` spins for ever). `ReleaseHaltsIff`, `NestingHaltsIff` and `BlockingHaltsIff` show
that each of these is needed, and `KernelPaths` builds the legal runs from boot that lead to the
last two.

**The same as code.** `KernelCode` has the kernel's functions as methods. The ready list and the
waiter lists are linked lists of `general_tag` nodes (`IntrusiveList`, `ThreadLists`) and the queues'
buffers are circular arrays (`Rings`); `Kernel.Abs` reads the transition system's state out of them,
and every method is proved to leave all lists well linked and without a common node, to make exactly
the step of the transition system, and to do what `KernelMeaning` says. That a node about to be
linked is in no list is not assumed: it follows from the invariant.

**Memory.** `Paging` has physical memory as 32-bit words, the MMU's walk (Intel SDM volume 3A,
"32-Bit Paging") as a function, and `page_table_add` as code that reaches tables only through the
recursive mapping. `VirtualMemory` has the allocator and the address spaces, `MemoryInv` the
invariant, `MemorySteps` to `MemoryOps` its preservation, `MemoryTheorems`, `MemoryRights` and
`MemorySupply` the conclusions over whole runs, and `Boot` the state the loader and `mem_pool_init`
leave. `MemoryCode` has the same operations as loops and assignments; there the pools, the heap and
every process keep their bitmaps as arrays of bytes of their own, and each method is proved to
refine its function on bits and to do what the theorems promise. `PallocRace` and `PallocSteps` look
inside allocations that overlap. Bitmaps are seen as sequences of bits ending in the *guard bit*,
the bit just past the bitmap, because `bitmap_scan` looks at it for runs longer than one; `Bitmap`
proves the byte-level loops equal to that view.

**Context switch.** `ContextSwitch` has registers and stack words. Between switches a thread may
change any register, its own page, and the fields other than `self_kstack` in other PCBs.

**Lists.** `IntrusiveList` has the pointer structure with sentinels; every operation acts on the
sequence of nodes as expected and touches no other list. `Words` holds the types all modules share.

Results that are not what one might expect:

- `get_kernel_pages` takes no lock, and `page_table_add` takes kernel frames without the kernel
  pool's lock. For any number of threads, the frames handed out are all different exactly when no
  scan of the bitmap falls between another thread's scan and its mark
  (`PallocRace.DistinctIffSerial`; `PallocRace.SameFrameTwice` is an input on which they are not).
  The theorems about frames are therefore about runs in which each call is atomic. Where only the
  part from the decision to the store is undisturbed, a scan overtaken by the marks of others can
  still run past its byte and take a frame outside the pool (`PallocSteps.SoundIffTidy`,
  `PallocSteps.RunsPast`).
- A reader can be left waiting beside unread bytes. In every reachable state, a reader that finds
  the buffer empty can be stranded at some moment of the wait it is about to begin exactly when it
  finds the queue's lock taken (`KernelStrand.StrandableIff`): having waited for the lock it does not
  look at the buffer again, while a reader that entered beside an empty buffer is taken out of the
  slot by the first byte. `KernelStrand.SecondReaderStranded` is the run from boot. With one reader and
  the keyboard handler, the kernel's own use, it cannot happen
  (`KernelReader.NoStrandedReaderFromBoot`).
- Every entry the loader and the kernel write is writable and for user mode, in the kernel half too, so
  user mode may read and write whatever is mapped (`MemoryRights.UserRights`). The comment at
  `userprog/process.c:75` puts directories into kernel space to keep programs from them; the entries do
  not do that. The model follows the code.
- The pools lie inside memory exactly when there are at least 2 MB (`Boot.PoolsInsideIff`); below
  that the subtraction wraps.
- The comment at `kernel/memory.c:15-19` promises 512 MB. The page count has 16 bits, so memory
  beyond 258 MB is lost (`Boot.PoolsCoverIff`); the pools stay sound.
- A run of pages found by `bitmap_scan` can end in the guard bit (`Bitmap.RunLeaves`). It lies
  inside the bitmap exactly when the bitmap without the guard bit has a free run of that length
  (`Bitmap.RunStaysInsideIff`). For a process it always does once its stack page is taken; for the
  kernel heap the model follows the code and maps the page.
- `get_a_page` does not check its index against the bitmap: `Boot.HeapBitOutside` and
  `Boot.UserBitOutside` say which byte it changes. `MemoryTheorems.Legal` asks callers for an address inside the bitmap.
- The comments at `lib/bitmap.c:20` and `kernel/memory.c:83` promise -1 and NULL when nothing is
  free; the `ASSERT` at `lib/bitmap.c:27` stops the machine first. The model follows the code.

## Model

| member | source | states |
|---|---|---|
| KernelTheorems.MutualExclusion | thread/sync.c:21-74 | in every reachable state the semaphore value and the threads between its decrement and its increment add up to one, a named holder is that thread, and outside the two lock functions the count is its nesting depth |
| KernelTheorems.NoAssertFires | thread/thread.c:116-176 | no ASSERT or PANIC of the modelled functions fires in any run of well-bracketed callers, the one on an empty ready list included |
| KernelAsserts.HaltsIff | thread/thread.c:92-168 | in any state, reachable or not, a step stops the machine exactly where the ASSERT or PANIC of the source fails, written out check by check |
| KernelAsserts.ChecksHold | device/ioqueue.c:20-65 | along every run from boot none of these checks fails, and interrupts are off wherever the queue's functions look at the buffer |
| KernelTheorems.NoLostWakeup | thread/sync.c:21-48 | while a lock is free and its waiter list is not empty, some thread off that list stands in sema_down's loop, ready or running |
| KernelTheorems.ThreadConservation | thread/thread.c:86-176 | every thread is in exactly one of: the CPU, the ready list, one waiter list, one queue slot; at most once in a list; with the status that names the place |
| KernelTheorems.ReleaseHaltsIff | thread/sync.c:63-64 | lock_release stops the machine exactly when the caller does not hold the lock |
| KernelTheorems.NestingHaltsIff | thread/sync.c:57-69 | a nested acquisition and its release go wrong exactly when the 32-bit count wraps to zero |
| KernelPaths.NestingHalts | thread/sync.c:57-69 | such a state is reachable from boot by a legal run, by induction to depth 2^32 - 1, and the next acquisition and its release stop the machine |
| KernelTheorems.BlockingHaltsIff | thread/thread.c:129 | a blocking step stops the machine exactly when no other thread is ready |
| KernelPaths.MainAloneHalts | device/ioqueue.c:44-50 | such a state is reachable from boot: the first thread alone reads an empty queue and the next step stops the machine |
| KernelTheorems.QueueIsFifo | device/ioqueue.c:15-76 | for any number of producers and consumers the bytes put are the bytes got followed by the buffer in order, never more than 1023 of 1024, with both indices in range |
| KernelCalls.CallsFromBoot | device/ioqueue.c:44-76 | from boot, for every run: what ioq_getchar handed out is, in order, the first of the bytes that returned calls of ioq_putchar and accepted keys gave, as many as calls of ioq_getchar returned, and the buffer holds the rest; a lock's nesting depth is the acquisitions that returned less the releases |
| KernelCalls.CallsExplainRuns | device/ioqueue.c:44-76 | along every run each thread is outside the modelled functions or at a point of the call it began, with the queue and the byte it gave, until that call returns; the bytes put and got and every depth change by what the returned calls say and nothing else; every function leaves interrupts as its caller had them |
| KernelCalls.StepExplained | thread/sync.c:21-74 | the same for one step of any kind |
| KernelCalls.ContinueMoves | device/ioqueue.c:63-76 | a call that waited goes on with its own queue and byte; ioq_putchar returns with exactly its byte appended, ioq_getchar only with one byte taken, lock_acquire and lock_release with the depth one more or less |
| KernelTheorems.RingFacts | device/ioqueue.c:15-28 | what full and empty mean for the contents |
| KernelOrder.WaitersAreFifo | thread/sync.c:21-48 | after any run of any actions a lock's waiters are those that were there followed by those that joined, in order, less as many from the front as were woken |
| KernelOrder.WokenInOrder | thread/sync.c:38-48 | when a waiter has been woken, there was a moment at which every waiter before it had been woken and it had not |
| KernelOrder.WokenRunsNext | thread/thread.c:164-176 | an unblocked thread is the one the next switch goes to, and the preempted one goes last |
| KernelReader.NoStrandedReader | device/ioqueue.c:31-76 | with one reader and a producer that puts only when not full, the slot is taken only while the buffer is empty and the queue's lock has no waiters |
| KernelReader.NoStrandedReaderFromBoot | device/keyboard.c:161-164 | the same from the initial state, for every run |
| KernelParked.ReachableParks | device/ioqueue.c:44-76 | in every reachable state a thread off the CPU is outside the modelled functions, was preempted in those of a kernel lock, waits for a lock, or is in a queue's slot |
| KernelRotate.RunUntil | thread/thread.c:116-143 | whatever the other threads are doing, a ready thread that owns a queue's lock or is idle comes to the CPU by some legal run that leaves the queue alone but for threads joining the lock's waiters |
| KernelStrand.NeverStrandedWhenFree | device/ioqueue.c:44-50 | a reader that finds the buffer empty and the lock free is in the slot beside the empty buffer before anything else happens, and at no moment of that wait is a byte unread beside it, whoever else reads and writes |
| KernelStrand.SlotStep | device/ioqueue.c:70-75 | while a reader is in the slot beside an empty buffer, every step leaves the buffer empty or takes the reader out of the slot |
| KernelStrand.StrandableWhenTaken | device/ioqueue.c:44-50 | with the lock taken, for any number of readers and producers in line and any state of the other threads, some legal run puts the reader into the slot beside unread bytes |
| KernelStrand.StrandableIff | thread/sync.c:23 | in every reachable state a reader at an empty buffer can be in the slot beside unread bytes at some moment of its next wait exactly when the lock's value is 0 |
| KernelStrand.SecondReaderStranded | device/ioqueue.c:31-50 | a state with a stranded second reader is reachable from boot |
| KernelTimer.RoundRobin | device/timer.c:32-44 | the i-th ready thread runs at each interrupt from the sum of the (ticks + 1) of the threads before it to the end of its own slice |
| KernelTimer.DispatchIsExact | device/timer.c:32-44 | it is dispatched at exactly that interrupt, and its predecessor runs at the one before |
| KernelTimer.RoundRobinRun | thread/thread.c:116-143 | the same with any non-blocking, non-waking steps between the interrupts |
| KernelTurns.RoundRobinForEver | thread/thread.c:119-124 | under timer interrupts alone, in every lap after the first, the i-th thread in line has the CPU for exactly priority + 1 interrupts, from the sum of the laps and of the (priority + 1) of the threads before it |
| KernelTurns.RoundRobinRunForEver | device/timer.c:32-44 | the same with any non-blocking, non-waking steps between the interrupts |
| KernelTurns.PreemptedTurn | thread/thread.c:119-124 | whatever legal run lies between, the next turn of a preempted thread lasts exactly priority + 1 interrupts |
| KernelTurns.SpawnedTurn | thread/thread.c:66-99 | however late, the first turn of a thread started with priority prio lasts exactly prio + 1 interrupts |
| KernelTurns.FirstTurn | thread/thread.c:104-107 | from boot the first thread runs through 31 interrupts and loses the CPU at the 32nd |
| KernelTurns.PrioritiesForEver | thread/thread.c:66-84 | along every run a thread's priority is the one it was created with, cut to eight bits |
| KernelTurns.PrioritiesFromBoot | thread/thread.c:76-79 | the same from boot, with 31 for the first thread |
| KernelTurns.StepSlices | device/timer.c:39-43 | only the timer changes a slice or a counter, and only those of the running thread; a new thread has the slice and priority asked for |
| KernelTimer.TickAccounting | device/timer.c:36-43 | along every run ticks never exceeds priority and the elapsed ticks of all threads sum to the global count modulo 2^32 |
| KernelTimer.TickAccountingFromBoot | thread/thread.c:66-84 | the same from the initial state |
| KernelRuns.StepKeeps | thread/sync.c:21-74 | every enabled step of well-bracketed callers keeps the invariant and halts nothing |
| KernelRuns.RunKeeps | thread/thread.c:116-176 | so does every run |
| KernelRuns.InitInv | thread/thread.c:104-110 | the state after thread_init satisfies the invariant |
| KernelRuns.SpawnKeeps | thread/thread.c:86-102 | a new thread joins the two lists once and disturbs nothing |
| KernelRuns.TimerKeeps | device/timer.c:32-44 | preemption at any point keeps the invariant |
| KernelSteps.BlockEffect | thread/thread.c:154-162 | thread_block takes exactly the running thread off the CPU |
| KernelSteps.UnblockEffect | thread/thread.c:164-176 | thread_unblock makes exactly one blocked thread ready |
| KernelSteps.RequeueDispatchEffect | thread/thread.c:116-143 | schedule of a running thread keeps every thread's place but those of the two it exchanges |
| KernelSteps.AcquireKeeps | thread/sync.c:51-60 | each statement of lock_acquire behind sema_down keeps the invariant and passes its ASSERT |
| KernelSteps.ReleaseKeeps | thread/sync.c:63-71 | each statement of lock_release before sema_up keeps the invariant and passes its ASSERTs |
| KernelSwitches.TakeKeeps | thread/sync.c:32-34 | taking the unit keeps the invariant |
| KernelSwitches.SleepKeeps | thread/sync.c:23-31 | joining the waiters and blocking keeps the invariant |
| KernelSwitches.UpKeeps | thread/sync.c:38-48 | sema_up keeps the invariant and blocks nobody |
| KernelSwitches.WakeEffect | thread/sync.c:41-44 | exactly the first waiter becomes ready |
| KernelSwitches.RingPutKeeps | device/ioqueue.c:70-71 | a put appends one byte to the contents |
| KernelSwitches.RingGetKeeps | device/ioqueue.c:52-53 | a get removes the oldest byte |
| KernelSwitches.PutByteKeeps | device/ioqueue.c:70-75 | storing a byte and waking the consumer keeps the invariant |
| KernelSwitches.GetByteKeeps | device/ioqueue.c:52-57 | taking a byte and waking the producer keeps the invariant |
| KernelSwitches.SlotsFree | device/ioqueue.c:31-32 | a thread about to wait finds both slots empty, so the ASSERT holds |
| KernelSwitches.WaitKeeps | device/ioqueue.c:31-35 | waiting in a slot keeps the invariant |
| KernelMeaning.ScheduleIs | thread/thread.c:116-143 | schedule of a running thread rotates the line of running and ready threads by one, gives the thread that leaves its full slice, and changes no other slice, no priority and no counter; nobody blocks or wakes |
| KernelMeaning.BlockIs | thread/thread.c:154-162 | for each of the three waiting statuses the caller takes that status and the first ready thread runs, with every other thread and list as it was; the machine stops exactly if nobody is ready, and on any other status; with BLOCKED the invariant of the lists is kept |
| KernelMeaning.UnblockIs | thread/thread.c:164-176 | a blocked thread goes to the front of the ready list and nothing else moves; any other thread stops the machine |
| KernelMeaning.TimerIs | device/timer.c:32-44 | the invariant is kept, nobody is blocked or woken, and the slices and counters change as TickIs says |
| KernelMeaning.TickIs | device/timer.c:36-43 | preemption exactly when the slice is used up, with a full slice for the preempted thread; one tick less otherwise; the running thread's counter and the global one advance by one, modulo 2^32 |
| KernelMeaning.StartIs | thread/thread.c:86-102 | one thread more, last in both lists, with ticks and priority the argument cut to eight bits and no time used; no other thread, lock or queue changes and the invariant is kept; a thread already in the lists stops the machine |
| KernelMeaning.DownIs | thread/sync.c:21-35 | the caller becomes the lock's only owner if it is free and otherwise its last waiter, with the next ready thread running; its next point is named; the machine stops exactly if there is none to run |
| KernelMeaning.UpIs | thread/sync.c:38-48 | the lock is free and without owner, its first waiter, if any, is next to run, and the caller goes on behind its call: a program at its next statement, ioq_getchar and ioq_putchar at the head of their loops with their queue and byte |
| KernelMeaning.AcquireIs | thread/sync.c:51-60 | no ASSERT fires at any statement, and behind the last one the caller holds the lock one level deeper, by holder, count and depth, and goes on behind its call, in the queue's functions at ioq_wait with its queue and byte |
| KernelMeaning.ReleaseIs | thread/sync.c:63-74 | no ASSERT fires at any statement, one level of nesting goes, and the caller goes on where UpIs says |
| KernelMeaning.PutIs | device/ioqueue.c:70-75 | the bytes grow by one at the end, exactly the thread in the consumer slot leaves it and is next to run, and no other thread, lock or queue changes |
| KernelMeaning.GetIs | device/ioqueue.c:52-57 | the oldest byte is taken and returned, exactly the thread in the producer slot leaves it and is next to run, and no other thread, lock or queue changes |
| KernelMeaning.GetLoopIs | device/ioqueue.c:44-60 | with a byte there the call takes the oldest and returns with it, otherwise only the thread's point moves, to the lock |
| KernelMeaning.PutLoopIs | device/ioqueue.c:63-76 | with room the call stores the byte and returns, otherwise only the thread's point moves, to the lock |
| KernelMeaning.WaitConsumerIs | device/ioqueue.c:31-35 | the reader sleeps in its slot, still the only owner of the queue's lock, with the bytes as they were; the machine stops exactly if nobody is ready |
| KernelMeaning.WaitProducerIs | device/ioqueue.c:31-35 | the same for a producer |
| KernelMeaning.InitKeeps | thread/sync.c:9-18 | initialising a lock or queue nobody has used changes nothing that any lock or queue shows and keeps the invariant |
| KernelCode.Kernel.constructor | thread/thread.c:145-152 | on a ready list of linked nodes and no buffer: the first thread runs alone, which is the initial state of the transition system |
| KernelCode.Kernel.ThreadInit | thread/thread.c:145-152 | builds the empty ready list, the first thread's tag and that state, which satisfies the invariant |
| KernelCode.Kernel.InitLock | thread/sync.c:9-18 | a free lock with a waiter list of its own, apart from all other lists; nothing shown changes and the invariant is kept |
| KernelCode.Kernel.InitQueue | device/ioqueue.c:9-13 | a queue with a buffer of its own, empty slots and a free lock; nothing shown changes and the invariant is kept |
| KernelCode.Kernel.Schedule | thread/thread.c:116-143 | by list_append and list_pop on the linked ready list: the line of running and ready threads rotates by one, the thread that leaves has its full slice and no other counter changes, nobody blocks or wakes, all lists stay well linked and apart, and both ASSERTs are as in the transition system |
| KernelCode.Kernel.ThreadBlock | thread/thread.c:154-162 | the caller alone takes the given waiting status and the thread at the head of the linked list runs; the machine stops exactly if the list is empty or the status is not a waiting one |
| KernelCode.Kernel.ThreadUnblock | thread/thread.c:164-176 | a blocked thread's node is linked at the head of the ready list and nothing else moves; any other thread stops the machine |
| KernelCode.Kernel.ThreadStart | thread/thread.c:86-102 | a new tag is linked at the end of the ready list, the thread joins the list of all threads with ticks and priority the argument cut to eight bits, nothing else changes and the invariant is kept |
| KernelCode.Kernel.TimerHandler | device/timer.c:32-44 | both 32-bit counters advance; the linked ready list rotates, with a full slice for the preempted thread, exactly when the slice is used up; the invariant is kept |
| KernelCode.Kernel.SemaDown | thread/sync.c:21-35 | one pass of the loop on the linked waiter list: the caller becomes the only owner of a free lock, or the last waiter of a taken one and blocked |
| KernelCode.Kernel.SemaUp | thread/sync.c:38-48 | the first node moves from the waiter list to the head of the ready list, then the 8-bit value returns; the lock is left without owner and the caller goes on behind its call |
| KernelCode.Kernel.AcquireStep | thread/sync.c:51-60 | one statement between two points of possible preemption: the invariant is kept, no ASSERT fires, and behind the last the lock is held one level deeper |
| KernelCode.Kernel.ReleaseStep | thread/sync.c:63-74 | one statement between two points of possible preemption: the invariant is kept, no ASSERT fires, and one level of nesting goes |
| KernelCode.Kernel.StoreByte | device/ioqueue.c:70-75 | the byte is written into the circular array, the bytes grow by it, and exactly the thread in the consumer slot is linked at the head of the ready list |
| KernelCode.Kernel.FetchByte | device/ioqueue.c:52-57 | the oldest byte is read from the circular array and returned, and exactly the thread in the producer slot is linked at the head of the ready list |
| KernelCode.Kernel.GetStep | device/ioqueue.c:44-60 | one look at the array: with a byte there the call takes the oldest and returns it, otherwise only the thread's point moves, to the lock |
| KernelCode.Kernel.PutStep | device/ioqueue.c:63-76 | one look at the array: with room the call stores the byte and returns, otherwise only the thread's point moves, to the lock |
| KernelCode.Kernel.IoqWaitConsumer | device/ioqueue.c:31-35 | the reader sleeps in its slot, still the only owner of the lock, and the head of the linked ready list runs; a taken slot or an empty list stops the machine |
| KernelCode.Kernel.IoqWaitProducer | device/ioqueue.c:31-35 | the same for the producer slot |
| KernelCode.Kernel.Step | thread/thread.c:116-176 | any step of well-bracketed callers leaves all lists well linked and apart, makes the transition, keeps the invariant and halts nothing |
| ThreadLists.TagLists.Apply | lib/kernel/list.c:27-48 | append, push or pop on one of any number of linked lists that share no node: that list changes as its sequence of threads says and all others keep theirs |
| ThreadLists.TagLists.Find | lib/kernel/list.c:50-59 | finds a thread's tag in a linked list exactly if the list has that thread |
| ThreadLists.TagLists.IsEmpty | lib/kernel/list.c:85-87 | true exactly if the list has no thread |
| ThreadLists.TagLists.AddList | lib/kernel/list.c:7-12 | a new empty list, apart from all others |
| ThreadLists.TagLists.AddThread | thread/thread.c:66-84 | a new tag, in no list |
| Rings.Store.Add | device/ioqueue.c:9-13 | a new empty buffer, apart from all others |
| Rings.Store.Put | device/ioqueue.c:70-71 | one buffer gets the byte and the others keep theirs |
| Rings.Store.Get | device/ioqueue.c:52-53 | one buffer gives its oldest byte and the others keep theirs |
| Rings.Buffer.Put | device/ioqueue.c:70-71 | on the circular array: the contents grow by the byte |
| Rings.Buffer.Get | device/ioqueue.c:52-53 | on the circular array: the oldest byte is returned and removed |
| Rings.Buffer.Full | device/ioqueue.c:20-23 | true exactly with 1023 bytes inside |
| Rings.Buffer.Empty | device/ioqueue.c:25-28 | true exactly with no byte inside |
| ContextSwitch.ContextPreserved | thread/switch.S:4-21 | over any run of switches a thread resumes behind its call with its stack pointer (the arguments still pushed), ebp, ebx, esi, edi, return address and stack contents |
| ContextSwitch.FirstResume | thread/thread.c:52-63 | however late, the first switch to a new thread enters kernel_thread with function and argument in place and zero registers |
| ContextSwitch.RunningThreadIsCurrent | thread/thread.c:24-28 | the page of esp is the scheduler's current thread after every run |
| ContextSwitch.SwitchEffect | thread/switch.S:4-21 | which words a switch writes, and that saving and restoring are inverse |
| ContextSwitch.SwitchToSelf | thread/thread.c:116-143 | a switch from a thread to itself is a call that returns |
| ContextSwitch.SuspendedKept | thread/switch.S:4-21 | nothing a suspended thread needs changes until it is switched to |
| ContextSwitch.NewStackInside | thread/thread.c:54-57 | the frame lies 432 bytes below the end of the page, inside it |
| ContextSwitch.FirstThread | thread/thread.c:104-106 | the boot stack satisfies the invariant |
| ContextSwitch.Processor.RunSwitchTo | thread/switch.S:4-21 | instruction by instruction equal to the whole switch |
| ContextSwitch.Processor.ThreadCreate | thread/thread.c:52-63 | the code that moves self_kstack and fills the frame |
| IntrusiveList.List.InsertBefore | lib/kernel/list.c:15-25 | inserts one node at that place of the sequence |
| IntrusiveList.List.Push | lib/kernel/list.c:27-29 | prepends |
| IntrusiveList.List.Append | lib/kernel/list.c:31-33 | appends |
| IntrusiveList.List.Remove | lib/kernel/list.c:35-42 | removes exactly that node |
| IntrusiveList.List.Pop | lib/kernel/list.c:44-48 | removes and returns the first node |
| IntrusiveList.List.ElemFind | lib/kernel/list.c:50-59 | terminates and answers membership |
| IntrusiveList.List.Len | lib/kernel/list.c:75-83 | terminates with the length modulo 2^32 |
| IntrusiveList.List.IsEmpty | lib/kernel/list.c:85-87 | true exactly for no nodes |
| IntrusiveList.List.constructor | lib/kernel/list.c:7-12 | the empty list |
| Bitmap.ScanIsFirstFit | lib/bitmap.c:21-62 | halts exactly on a full bitmap, finds nothing exactly when no run exists among the bits examined, else the least start |
| Bitmap.RunStaysInsideIff | lib/bitmap.c:43-59 | the run found lies inside the bitmap exactly when the bitmap without the guard bit has a free run of that length |
| Bitmap.RunLeaves | lib/bitmap.c:43-59 | a bitmap on which it does not |
| Bitmap.RunStaysInside | lib/bitmap.c:43-59 | with the guard bit or the last bit of the bitmap set, or one bit asked for, the run lies inside the bitmap |
| Bitmap.FirstRunIsFirst | lib/bitmap.c:48-60 | the reference search is sound, complete and least |
| Bitmap.Map.FindFree | lib/bitmap.c:21-62 | the byte and bit loops compute that first fit, and for a request of no bits the place behind the first set bit that follows the first clear one |
| Bitmap.Map.FirstClear | lib/bitmap.c:24-36 | the first clear bit, or a halt |
| Bitmap.Map.RunAfter | lib/bitmap.c:43-61 | the counting loop, guard bit included, for any count but one |
| Bitmap.ClearBit | lib/bitmap.c:31-36 | the lowest clear bit of a byte |
| Bitmap.Map.Set | lib/bitmap.c:65-75 | changes exactly one bit |
| Bitmap.Map.Init | lib/bitmap.c:9-11 | clears the bitmap and not the guard bit |
| Paging.SelfMapCorrect | kernel/memory.c:68-81 | pde_ptr and pte_ptr name exactly the words the MMU reads, in every self-mapped directory |
| Paging.AddrV2PCorrect | kernel/memory.c:196-200 | addr_v2p equals the walk on every mapped address |
| Paging.PtePtr | kernel/memory.c:68-74 | the indices the pointer walks through |
| Paging.PdePtr | kernel/memory.c:77-81 | the indices the pointer walks through |
| Paging.EntryBits | kernel/memory.h:17-22 | the attribute bits of every entry written: present, writable, for user mode, and no other |
| Paging.PallocEffect | kernel/memory.c:84-92 | the lowest free frame, exactly one bit set and one free frame less, a stop exactly when the pool is full |
| Paging.AddToTable | kernel/memory.c:100-108 | with a table present one word changes, or the repeat ASSERT fires exactly on a present entry |
| Paging.AddNewTable | kernel/memory.c:109-116 | without one a frame is taken, linked, cleared and given one entry |
| Paging.AddToTableWalk | kernel/memory.c:94-108 | the address then walks to the frame; in every directory others walk as before unless they end in the same word |
| Paging.AddNewTableWalk | kernel/memory.c:109-116 | the same for a new table, whose other entries stay unmapped |
| Paging.AddRights | kernel/memory.c:99-116 | user mode may read and write at the added address exactly as far as the directory entry in place permits, and always with a new table |
| VirtualMemory.SetRun | kernel/memory.c:49-51 | sets exactly the bits of the run |
| VirtualMemory.VaddrGetIs | kernel/memory.c:41-65 | the first run that fits is marked, bit by bit, and answered; a full bitmap, no run, and for a process a run that begins at the stack page or behind it are the other cases, each exact |
| VirtualMemory.UserSpaceNumbers | userprog/process.c:93-101 | user space, its stack page, its bitmap of 23 whole pages, rounded up, and the 25 frames of a process, as numbers of the code |
| MemoryInv.KernelHalfShared | userprog/process.c:73-91 | under the invariant every directory maps kernel addresses as the boot directory does |
| MemoryTheorems.KernelHalfForEver | userprog/process.c:73-91 | for every process ever created, in every later state, kernel addresses below the window walk as in the boot directory, and a mapping never changes |
| MemoryTheorems.Cr3IsCurrent | userprog/process.c:46-57 | CR3 is the current thread's directory in every reachable state |
| MemoryRights.UserRights | kernel/memory.c:103-115 | in every reachable state, in every directory, user mode may read and write exactly the addresses that are mapped, those of the kernel and of the window included |
| MemoryTheorems.FrameUniqueness | kernel/memory.c:84-148 | no frame is used twice, each comes from the right pool, none overlaps the boot tables, and every marked frame is used |
| MemoryTheorems.UserPagesApart | kernel/memory.c:128-148 | different user pages, of one process or two, never share a frame |
| MemoryTheorems.ProcessIsolation | kernel/memory.c:94-193 | a step leaves the user half of every other process unchanged |
| MemoryTheorems.BitmapsAreExact | kernel/memory.c:41-65 | a page is mapped exactly when its bit is set |
| MemoryTheorems.StepKeeps | kernel/memory.c:128-193 | every legal call keeps the invariant and all mappings; an allocation stops exactly on the conditions of malloc_page or get_a_page, process_execute only on a bad count or exhaustion |
| MemoryTheorems.RunKeeps | kernel/memory.c:128-193 | so does every run |
| MemoryTheorems.InitMMInv | kernel/memory.c:203-260 | the initial state satisfies the invariant |
| MemorySupply.KernelPageIff | kernel/memory.c:150-156 | in every reachable state one more kernel page is given exactly while a kernel frame is free; otherwise the machine stops, and null is never answered |
| MemorySupply.FullHeap | kernel/memory.c:255 | a full heap means a full kernel pool, because the heap has a page for every frame: addresses never run out first |
| MemorySupply.KernelPagesFromBoot | kernel/memory.c:203-260 | for every memory size, after boot exactly as many single kernel pages can be had as the kernel pool has frames, which is as many as the heap has pages |
| MemorySupply.ExecuteIff | userprog/process.c:93-128 | process_execute makes a process exactly if 25 kernel frames are free and 23 heap pages in a row are, once the first free one is taken |
| MemorySteps.MapKernelKeeps | kernel/memory.c:138-146 | mapping one kernel page keeps the invariant and adds one use |
| MemorySteps.MapUserKeeps | kernel/memory.c:138-146 | mapping one user page keeps it and adds the page, and a table where there was none |
| MemoryRuns.MapKernelRun | kernel/memory.c:135-147 | the loop for kernel pages: fresh mappings and exactly cnt frames, or a stop only with fewer than cnt frames free |
| MemoryRuns.MapUserRun | kernel/memory.c:135-147 | the loop for user pages: cnt user frames and one kernel frame per missing table, or a stop only with too few of either |
| MemoryCalls.MallocKernel | kernel/memory.c:128-148 | a fresh contiguous run at the first fit, cnt kernel frames, no repeated entry; BadCount, NoSpace, null and PoolFull each exactly on its condition: the count, a full bitmap, no run, fewer free frames than cnt |
| MemoryCalls.MallocUser | kernel/memory.c:128-148 | a fresh contiguous run below the stack at the first fit, cnt user frames and one kernel frame per 4 MB region lacking a table, no repeated entry; BadCount, NoSpace, null and PoolFull each exactly on its condition, the last one too few user frames or too few kernel frames for the missing tables |
| MemoryCalls.DataWriteKeeps | kernel/memory.c:150-156 | writing a data page disturbs no mapping |
| MemoryOps.GetPagesKeeps | kernel/memory.c:150-165 | the pages returned are fresh, contiguous and zero, and every stop and the null answer come exactly on the conditions of malloc_page |
| MemoryOps.GetAPageKernel | kernel/memory.c:168-193 | the page is mapped, with exactly one kernel frame more, exactly when the arguments are good, the page is not in use and a frame is free; each stop exactly on its own condition |
| MemoryOps.GetAPageUser | kernel/memory.c:168-193 | the same for a process, with one user frame more and one kernel frame exactly if the region had no table |
| MemoryOps.CreatePageDirKeeps | userprog/process.c:73-91 | the new directory shares the kernel half, maps itself and no user page |
| MemoryOps.ProcessExecuteKeeps | userprog/process.c:108-128 | a new process keeps the invariant and every mapping, and takes exactly 25 kernel frames and no user frame |
| MemoryOps.ActivateKeeps | userprog/process.c:46-57 | whichever directory is active, CR3 becomes the next thread's own |
| Boot.Loader.SetupPage | boot/loader.S:207-252 | the loops write nothing but the directory and the low table, and the boot tables come out right exactly when the words left alone were zero |
| Boot.Loader.CreateDirectory | boot/loader.S:208-230 | the cleared directory with entries 0, 768 and 1023 |
| Boot.Loader.CreateLowTable | boot/loader.S:231-239 | 256 entries for the low megabyte |
| Boot.Loader.CreateKernelEntries | boot/loader.S:240-252 | entries 769 to 1022 |
| Boot.BootWalk | boot/loader.S:216-252 | the low megabyte is seen at 0 and at 0xc0000000 and nothing else below the window |
| Boot.KernelNumbers | include/boot.inc:12 | the frame and page numbers of the model against the addresses of the code |
| Boot.PoolLayoutBounds | kernel/memory.c:203-260 | for every memory size: pools from 2 MB on and apart, every bit a whole frame, bitmaps one after another from 0xc009a000 and below 0xc009e000, the heap at 0xc0100000 with exactly as many pages as the kernel pool has frames and below 0xffc00000 |
| Boot.PoolsInsideIff | kernel/memory.c:209-230 | the pools are inside memory exactly from 2 MB on |
| Boot.PoolsCoverIff | kernel/memory.c:209-230 | given 2 MB, all memory but less than a page is in the pools exactly up to 258 MB, because page counts have 16 bits; beyond that a multiple of 256 MB is lost |
| Boot.FramesInside | kernel/memory.c:221-230 | then every frame of a pool is |
| Boot.BitmapsMapped | kernel/memory.c:236-257 | the bitmaps lie in the mapped low megabyte, away from the pools |
| Boot.HeapBitOutside | kernel/memory.c:179-182 | the index lies in the heap's bitmap exactly if the address is in the heap; otherwise the byte get_a_page changes lies behind the bitmap, up to 128 KB from its start |
| Boot.UserBitOutside | kernel/memory.c:174-177 | for a process the bit lies in its bitmap exactly if the address is a user address from 0x8048000 on; otherwise the byte lies behind the bitmap, up to nine pages behind the pages it was given |
| Boot.BootIsInit | kernel/memory.c:203-273 | what boot leaves is an initial state of the memory manager |
| MemoryCode.Manager.constructor | kernel/memory.c:203-260 | mem_pool_init's arithmetic and three cleared byte arrays yield that state, with the invariant |
| MemoryCode.PallocBytes | kernel/memory.c:84-92 | palloc on the bytes of a bitmap equals palloc on its bits |
| MemoryCode.VaddrGetBytes | kernel/memory.c:41-65 | vaddr_get on the bytes, with its setting loop, equals vaddr_get on the bits |
| MemoryCode.AddIs | kernel/memory.c:94-116 | page_table_add as the MMU sees it: when it stops, where the address leads, and that no other walk in any directory changes beyond the word written or the new table |
| MemoryCode.Manager.PageTableAdd | kernel/memory.c:94-116 | on the bytes of the kernel pool and the words of memory: it stops exactly on a mapped page, or on a full pool with the table missing; otherwise the address walks to the frame, user mode may read and write there as far as the directory entry permits, and every other walk in every directory is as before but for the named ones |
| MemoryCode.Manager.MapPages | kernel/memory.c:135-147 | the loop maps page after page as the recursive account does and touches no address bitmap |
| MemoryCode.Manager.MallocPage | kernel/memory.c:128-148 | on the bytes of the bitmaps: a fresh run of pages in a row at the first fit with exactly the frames the theorems count, null, or a stop, each exactly on its condition; the invariant is kept |
| MemoryCode.Manager.GetPages | kernel/memory.c:150-165 | the same, and every page returned is zero |
| MemoryCode.Manager.GetAPage | kernel/memory.c:168-193 | one page at a chosen address with its bit set in the byte array, its frames counted, readable and writable from user mode, or a stop exactly for the named reason |
| MemoryCode.Manager.CopyKernelEntries | userprog/process.c:84 | the copying loop transfers entries 768 to 1023 of the active directory |
| MemoryCode.Manager.CreatePageDir | userprog/process.c:73-91 | a fresh page that shares the kernel half, maps itself and no user page; the invariant is kept |
| MemoryCode.Manager.ProcessExecute | userprog/process.c:108-128 | one process more, with a byte bitmap of its own in which no page is taken; exactly 25 kernel frames fewer, every old mapping stays, new ones are kernel pages, and the invariant is kept |
| MemoryCode.Manager.Activate | userprog/process.c:46-57 | CR3 is the directory of the next thread, whichever was active, and every mapping stays |
| MemoryCode.Manager.Do | kernel/memory.c:128-193 | any legal call keeps the invariant, every mapping and every bitmap's bytes to itself, and stops only for the named reasons |
| PallocRace.DistinctIffSerial | kernel/memory.c:84-92 | with scan and mark as steps, for any number of threads and any completed run, the frames handed out are all different exactly when no scan falls between another thread's scan and its mark |
| PallocRace.SerialIffNoGap | kernel/memory.c:84-92 | that condition in two forms: every scan is followed at once by its mark; no scan lies between a scan and the mark that belongs to it |
| PallocRace.SameFrameTwice | kernel/memory.c:84-92 | a run of two threads that hands out one frame twice with three free |
| PallocSteps.SoundIffTidy | lib/bitmap.c:24-36 | with every look at a byte or bit, load and store as a step, and nobody deciding, loading or storing between another's decision and its store: every frame handed out was free, in the pool and handed out once exactly when no scan runs past the eighth bit of its byte onto a bit that is set or behind the bitmap |
| PallocSteps.RunsPast | lib/bitmap.c:33-35 | such a run in which an overtaken scan does run past and takes a frame outside the pool |
| PallocSteps.CallAlone | lib/bitmap.c:24-40 | a call nobody disturbs takes, step by step, the bit that the scan as a whole answers |

## Left out

- PallocRace.DistinctIffSerial: scan and mark are each one step; PallocSteps.SoundIffTidy has the smaller steps.
- MemoryTheorems.FrameUniqueness: each call of the memory manager is atomic, which the code's locks do not ensure; PallocRace.DistinctIffSerial says when overlapping calls go wrong.
- MemoryTheorems.StepKeeps: each call is atomic, and get_a_page is called for an address inside the caller's bitmap; Boot.HeapBitOutside and Boot.UserBitOutside say what the code does otherwise. A process allocates pages only after start_process took its stack page, which the code does before user code runs.
- MemoryTheorems.RunKeeps: about runs of such calls.
- MemoryCode.Manager.Do: about such calls.
- KernelRuns.SpawnKeeps: thread_start's two list insertions and its checks are one atomic step.
- KernelMeaning.StartIs: the same.
- KernelStrand.StrandableWhenTaken: needs one thread that goes on outside the modelled functions, as the endless loop of the first thread does; it is the thread that takes the keyboard interrupts of the run.
- KernelStrand.StrandableIff: the same, for the half that says a reader can be stranded.
- MemoryOps.GetAPageKernel: an index outside the bitmap ends the model; the code would set a bit of whatever memory lies there.
- MemoryOps.GetAPageUser: the same.
- MemoryCode.Manager.GetAPage: the same.
- MemoryCode.Manager.ProcessExecute: a missing page for the PCB, bitmap or directory is a stop; the code goes on with a null pointer.
- MemoryCode.Manager.MallocPage: the bitmaps are kept apart from the words of physical memory they lie in, and one bitmap's guard byte apart from the next bitmap; single-bit scans never use it.
- Boot.Loader.SetupPage: clears the directory by words, not bytes.
- KernelCode.Kernel.ThreadStart: the list of all threads, which nothing ever removes from or walks but the check before an insertion, is a sequence of threads; the ready and waiter lists are linked.
- KernelCode.Kernel.Step: locks and queues are found by name; that two names are two objects in memory is part of the model.
- ContextSwitch.ContextPreserved: only kernel stacks; the stack of a process in user mode and the interrupt frame are not modelled.
- ContextSwitch.Processor.ThreadCreate: only self_kstack and the frame; the other PCB fields are in the scheduler's model.
- Masks and shifts on addresses are written as division and remainder by powers of two.
- The TLB, and access and dirty bits. Access rights are those of user mode; with CR0.WP clear, as the loader leaves it, the kernel itself may use every present entry.
- The queue with producers and consumers that both block: apart from the stranded reader only safety is claimed, since the shared lock is held while waiting.
- pid allocation: next_pid is read after its lock is released, so uniqueness is not guaranteed by the code.
- start_process, the interrupt frame it builds and the switch to user mode, apart from its request for the stack page.
- The stack_magic check, thread names and screen output.
- Keyboard decoding, console, port output, interrupt controller and descriptor tables, TSS, system calls: routine code.
- lib/string.c and list_traversal: routine loops.
- Memory detection, disk loading and mode switching in the boot code.
