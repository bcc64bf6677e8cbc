# MoltOS kernel core: model and proofs

A Dafny model of the parts of the MoltOS kernel whose correctness spans many functions, with proofs over
every input, every run or every reachable state. Nothing was executed: every statement below is what the
verifier has established about the model. `dafny verify dfyconfig.toml` checks the whole project.

What is modelled, in the system's own terms:

- **Threads, scheduler and sleeping mutex** (`KernelMachine`, `KernelCpu`, `KernelQueue`, `KernelMutex`,
  `KernelSafety`, `KernelTheorems`, `KernelBoot`, `KernelFifo`, `KernelWedge`, `KernelEevdf`). One single-core step machine: interrupt
  flag, SCHEDULER spinlock, `waiters` spinlocks, the program point of every thread, context slots, timer and
  keyboard interrupts before any step, threads spawned at any time. The invariant `KernelSafety.Inv` is kept
  by every step; the theorems are about all runs of any number of threads and mutexes under any selection
  policy, and `KernelEevdf` shows that every run of the kernel with the real EEVDF scheduler is one of those runs,
  step by step and with its lock discipline.
- **EEVDF** (`Eevdf`, `EevdfFairness`, `EevdfStarvation`, `EevdfLaws`, `EevdfLedger`, `RoundRobin`, `Scheduling`). Selection,
  charging and blocking as functions; the scheduler object, with a loop for each of the source's iterator chains,
  proved against them; then starvation and spread bounds, the exact condition for fairness, conservation of
  charged time, absence of overflow, and refinement of round robin.
- **Context switching** (`Context`, `Suspension`). The two assembly routines and `irq_preempt` as register and
  memory moves, and a suspend/resume round trip of registers and stack over every run of preemptions and yields.
- **Allocators** (`Alignment`, `ByteMemory`, `FreeList`, `LinkedList`, `SizeClass`, `FixedSizeBlock`, `CHeap`).
  The first-fit list whose nodes live in the free memory, the size-class lists over a fallback heap, and the
  C heap with size headers on top, all over a byte memory.
- **CXFS** (`Cxfs`). Archive writer, chunked disk loader and reader, end to end.
- **Async sleep** (`AsyncSleep`). Wake tokens of sleeping tasks under the executor.
- **C integer printing and parsing** (`Stdio`, `Strtol`), and the exact relation of `strtol` to C11.

Modelling conventions. Arithmetic is unbounded unless the width matters; where it does (`u64` in the
scheduler, `usize` and `size_t` in the allocators, `u32` in CXFS, `long` in `strtol`) the bound, the wrap or
the overflow is explicit. Overflow in the scheduler is the panic of a debug build. A C expression whose signed
overflow is undefined is an explicit `Overflow` result, and a copy that would leave its block an `Overrun`. The
clock, the fallback heap's answers, the error of a failed disk read and what it leaves in the buffer, and what an
interrupt handler writes below its frame are parameters.

Where the code and its comments disagree the model follows the code:

- The comment at src/thread/schedulers/eevdf.rs:17 says vruntime grows slower for heavier threads; by line 105
  it never does, and grows faster exactly when the added weight carries the product over a multiple of the sum
  (`EevdfFairness.ChargeGrowsWithWeight`, `EevdfFairness.HeavierGrowsFaster`; at one input,
  `EevdfFairness.DoubleWeightDoubleCharge`).
- The comment at src/thread/schedulers/eevdf.rs:103 says the scale factor prevents a zero charge; it does not
  when a weight is below a 1024th of the sum, and then other threads starve (`EevdfStarvation.DeltaOne`,
  `EevdfStarvation.FairExactly`; at one input, `EevdfStarvation.HeavyStarves`).
- The comment at src/thread/stack.rs:40 promises an aligned stack top; line 44 clears only bit 4, so the top is
  aligned exactly when the end of the storage is (`Suspension.TopAligned`; at one input, `Suspension.TopMisaligned`).
- The comment at src/ata.rs:96 says loading stops at an all-zero sector; how far loading goes does not depend on the
  contents (`Cxfs.LoadIgnoresContents`; at one input, `Cxfs.EmptySectorsLoad`).
- The comment at src/sync.rs:181 says the drop cannot deadlock against SCHEDULER; that is so, but it holds
  `waiters` with interrupts on, and a slow-path `lock` can then spin on `waiters` for ever with interrupts off
  (`KernelTheorems.StuckExactly`, `KernelWedge.WedgeHappens`).
- src/fs.rs:42 translates NoDrive, but loading never returns it: a missing drive loads as nothing and is reported
  as bad magic (`Cxfs.MountOf`, `Cxfs.EndToEnd`).
- `strtol` returns what section 7.22.1.4 of C11 prescribes exactly for the texts and bases `Strtol.Exactly` names.
  It departs on a `0x` prefix with base 16, a bare `0x` with base 0, a text without a number that does not start
  at once, and letters beyond f in bases above 16 (`Strtol.PrefixDeparts`, `Strtol.BarePrefixDeparts`,
  `Strtol.BlanksDepart`, `Strtol.LetterDeparts`).

## Model

| member | source | states |
|---|---|---|
| KernelSafety.InvStep | src/sync.rs:38-187 | every step of lock, drop, enter_scheduler and the interrupt handlers, every interrupt and every spawn keeps the whole kernel invariant: flags and spinlocks agree with program points, queues with blocked marks, guards with `locked`, pending wakeups with waiters, data with completed increments |
| KernelSafety.InvInit | src/thread/scheduler.rs:20-45 | the booted kernel with any number of free mutexes satisfies the invariant |
| KernelTheorems.Reached | src/sync.rs:38-187 | every state any run reaches satisfies the invariant |
| KernelTheorems.NoLostWakeup | src/sync.rs:117-187 | in every reachable state a mutex with waiters is locked, or a scheduled thread that can run is inside its drop after the store or has been woken from its wait and is still in its lock loop; queued ids are distinct across all queues; at interruptible points a thread is blocked exactly when it is queued or popped and about to be unblocked |
| KernelTheorems.RunningHelper | src/sync.rs:177-186 | names that thread: never the bootstrap context, never blocked |
| KernelTheorems.BootNeverReturns | src/thread/schedulers/eevdf.rs:153-161 | once switched away from, the bootstrap context never executes again in any continuation of the run |
| KernelSafety.QuietStep | src/thread/mod.rs:19-42 | every step keeps all wait queues empty while the bootstrap context runs, and the CPU never goes back to it |
| KernelBoot.WakersAreThreads | src/sync.rs:117-187 | from the first switch on the bootstrap context holds exactly what it held then; every locked mutex has a scheduled thread as owner if and only if that was nothing; any other mutex with waiters is owned by a scheduled thread or seen to by one that can run; and whoever waits for what the bootstrap context holds still waits in every later state |
| KernelBoot.BootKeepsGuards | src/sync.rs:176-187 | after the first switch no continuation of the run changes the guards of the bootstrap context |
| KernelBoot.StrandedForEver | src/sync.rs:183-185 | no waiter is ever removed from the queue of a mutex the bootstrap context holds |
| KernelBoot.OwnersExactly | src/sync.rs:95-103 | in a state with the invariant all locked mutexes are owned by scheduled threads if and only if the bootstrap context holds none |
| KernelBoot.BootFirstStep | src/thread/mod.rs:19-42 | every step keeps that no thread has run before the first switch and that no thread ever drops a mutex the bootstrap context holds |
| KernelWedge.BootStrandsThread | src/sync.rs:117-155 | a concrete run in which a thread ends up waiting for a mutex the bootstrap context holds |
| KernelTheorems.BlockedExactly | src/thread/schedulers/eevdf.rs:78-85 | both directions of blocked if and only if queued or popped, for one thread of a state with the invariant |
| KernelTheorems.MutualExclusion | src/sync.rs:95-187 | in every reachable state at most one live guard per mutex, and `locked` exactly while one exists |
| KernelFifo.FirstComeFirstServed | src/sync.rs:117-187 | over every run from boot the threads that ever queued on a mutex, in the order in which they queued, are those already unblocked, in the order in which they were, then the one being woken, then the queue: waiters are served strictly first come, first served |
| KernelFifo.WokenInOrder | src/sync.rs:136-187 | the same from any state with the invariant: who waits there, followed by who queues later, is unblocked in that order |
| KernelFifo.LineStep | src/sync.rs:138-184 | every step appends to the line of a mutex who queues, takes from its front who is unblocked, and otherwise leaves it alone |
| KernelFifo.OneInFlight | src/sync.rs:180-185 | at most one waiter of a mutex is popped and not yet unblocked |
| KernelFifo.LockReturnsGuard | src/sync.rs:117-164 | a call of lock ends only by giving its caller the guard of that mutex, and never takes or gives another |
| KernelFifo.UncontendedLock | src/sync.rs:117-123 | locking a free mutex takes one step, which sets `locked`, gives the guard and changes nothing else |
| KernelFifo.RetryTakes | src/sync.rs:118-163 | a woken waiter that finds the mutex free has the guard two steps later |
| KernelFifo.DropGivesUp | src/sync.rs:176-187 | a drop gives up its guard and frees the mutex with its first step, takes away no other guard and returns without it |
| KernelTheorems.NoLostUpdates | tests/kmutex_concurrent.rs:33-60 | with the increment split into its read and write and interrupts in between, the data equals the sum of all completed increments of all actors |
| KernelTheorems.CurrentIsRunning | src/sync.rs:129-155 | with interrupts enabled `current` is the thread on the CPU and SCHEDULER is free, so a handler never spins on it; a pending switch saves into the running thread's own slot; no suspended slot is overwritten |
| KernelTheorems.SwitchesProperly | src/interrupts.rs:196-260 | whenever a step changes the thread on the CPU it goes to `current`, the old thread is saved in its own slot, and interrupts are on afterwards |
| KernelTheorems.StuckExactly | src/sync.rs:136-145 | a reachable state has no possible event if and only if the CPU spins with interrupts off on a `waiters` lock that is held; and then a suspended drop holds it |
| KernelTheorems.WedgeHolder | src/sync.rs:177-186 | who holds the lock in that state, and that not even an interrupt is possible |
| KernelWedge.WedgeHappens | src/sync.rs:177-186 | a concrete run of three threads on one mutex that reaches the stuck state, so unconditional progress is false |
| KernelTheorems.NoDeadlock | src/sync.rs:136-155 | the DEADLOCK branch is unreachable in every run in which only scheduled threads lock, each in strictly increasing rank |
| KernelTheorems.DeadlockExactly | src/sync.rs:139-155 | a step from outside the DEADLOCK branch enters it if and only if it is the block step of the last thread that was not blocked |
| KernelWedge.RelockDeadlocks | src/sync.rs:136-155 | the discipline cannot be dropped: a concrete run in which a lone thread locking a mutex twice ends in the DEADLOCK branch |
| KernelWedge.QueueToDead | src/sync.rs:136-155 | any thread that finds its mutex locked while every other thread is blocked ends in the DEADLOCK branch |
| KernelTheorems.SomeoneRuns | src/sync.rs:136-155 | following owners upwards in rank from a wanted mutex always ends at a thread that can run |
| KernelTheorems.BlockIsSafe | src/thread/schedulers/eevdf.rs:166-177 | a disciplined thread that blocks leaves some other thread runnable |
| KernelCpu.CpuStep | src/sync.rs:44-89 | every step keeps the agreement of interrupt flag, SCHEDULER spinlock, `current` and context slots with what the CPU executes |
| KernelCpu.SwitchKeeps | src/thread/context.rs:56-103 | a prepared switch moves the CPU to the new `current` and leaves every other slot alone |
| KernelQueue.QueuePush | src/sync.rs:138-138 | queueing its own id keeps all queue entries distinct and consistent with who waits where |
| KernelQueue.QueueBlock | src/sync.rs:139-139 | marking the queued current thread keeps blocked marks and queues in agreement |
| KernelQueue.QueuePop | src/sync.rs:183-183 | the popped waiter is blocked in its context switch, out of every queue, and popped by one drop only |
| KernelQueue.QueueWake | src/sync.rs:184-184 | unblocking the popped waiter keeps every other blocked thread accounted for |
| KernelMutex.OwnAcquire | src/sync.rs:120-133 | a successful compare_exchange creates the only guard of the mutex |
| KernelMutex.OwnStore | src/sync.rs:179-179 | the store in drop ends the only guard of the mutex |
| KernelMutex.WakeStore | src/sync.rs:177-179 | unlocking a mutex with waiters leaves the unlocking thread inside a drop that is bound to wake one; the bootstrap context can only unlock one without waiters |
| KernelMutex.WakeWake | src/sync.rs:183-185 | after the wake the woken thread, not the drop, is bound to see to the remaining waiters |
| KernelMutex.DataInc | tests/kmutex_concurrent.rs:33-60 | under mutual exclusion the write of a split increment adds exactly one |
| KernelEevdf.TickIsAPick | src/thread/schedulers/eevdf.rs:89-162 | every non-panicking EEVDF decision is one the machine's selection policy allows, with the same current thread, the same pair of slots and the same blocked marks |
| KernelEevdf.AskIsAStep | src/thread/scheduler.rs:59-67 | every call of the scheduler by lock, enter_scheduler or a handler is a machine step |
| KernelEevdf.KernelRefinesMachine | src/thread/scheduler.rs:20-67 | every run of the kernel with the EEVDF scheduler is a run of the machine that makes the same steps through the same states, so what holds of all machine runs holds of it |
| KernelEevdf.DisciplineCarries | src/sync.rs:117-165 | a kernel run in which only scheduled threads lock, in increasing rank, is a disciplined machine run |
| KernelEevdf.NoDeadlockUnderEevdf | src/sync.rs:136-155 | so the kernel with EEVDF never reaches the DEADLOCK branch under that discipline |
| Eevdf.MinVruntimeIsMin | src/thread/schedulers/eevdf.rs:110-115 | the minimum exists exactly when a thread is runnable, is attained, and bounds every runnable thread |
| Eevdf.EarliestIsFirstMin | src/thread/schedulers/eevdf.rs:120-128 | the chosen thread has the least deadline of the eligible ones and the least index among those |
| Eevdf.FirstRunnableFinds | src/thread/schedulers/eevdf.rs:129-135 | the fallback search finds a runnable thread or there is none |
| Eevdf.ChoiceIsEarliest | src/thread/schedulers/eevdf.rs:110-135 | some thread is eligible if and only if some thread is runnable, so the fallback search never supplies the choice |
| Eevdf.TickSelects | src/thread/schedulers/eevdf.rs:89-162 | every non-panicking call moves to, or stays on, the lowest-index earliest-deadline eligible thread |
| EevdfLaws.DeadlineExactly | src/thread/schedulers/eevdf.rs:30-33 | the deadline lies past the vruntime by exactly slice times 1024 times the weight sum divided by the weight, rounded down, as two inequalities |
| EevdfLaws.ChargeExactly | src/thread/schedulers/eevdf.rs:98-108 | the charge is exactly the ticks since the last switch, at least one, times 1024 times the weight divided by the weight sum, rounded down, as two inequalities |
| EevdfLaws.EligibleExactly | src/thread/schedulers/eevdf.rs:110-125 | a runnable thread is eligible if and only if its vruntime exceeds that of no runnable thread by more than the weight sum |
| EevdfLaws.StaysExactly | src/thread/schedulers/eevdf.rs:137-151 | a call makes no switch if and only if nothing is runnable, or the earliest eligible thread is the current one and the tick is not zero and not past the last switch |
| EevdfLaws.KeptExactly | src/thread/schedulers/eevdf.rs:89-162 | for two threads of any weights from the fresh state: exactly how many one-tick calls in a row pick the first thread, as a formula in the two weights, and that the next call picks the second |
| EevdfLaws.PairRun | src/thread/schedulers/eevdf.rs:98-162 | while the first thread keeps the CPU its vruntime is the number of charges times the one-tick charge and the other thread has none |
| EevdfLaws.KeptAtOnePoint | src/thread/schedulers/eevdf.rs:89-162 | one input: weights 2048 and 512 give four such calls |
| Eevdf.BlockSwitchesAway | src/thread/schedulers/eevdf.rs:166-177 | no switch if and only if nothing else can run; otherwise source and target slots differ, the blocked thread is marked and no other thread is charged |
| Eevdf.AllBlockedStays | src/thread/schedulers/eevdf.rs:137-140 | with every thread blocked the scheduler is unchanged |
| EevdfFairness.TickFrame | src/thread/schedulers/eevdf.rs:89-162 | a call keeps ids, weights, blocked marks and their sum; afterwards min_vruntime is the attained minimum and the picked thread is within the lag tolerance of it |
| EevdfFairness.TickCharges | src/thread/schedulers/eevdf.rs:98-108 | exactly the thread switched away from is charged, by the full delta |
| EevdfFairness.DeltaPositive | src/thread/schedulers/eevdf.rs:105-105 | the charge is positive when the weight is at least a 1024th of the sum |
| EevdfFairness.ChargeGrowsWithWeight | src/thread/schedulers/eevdf.rs:105-105 | the charge never falls as the weight rises, and rises exactly when the added weight carries the product over a multiple of the sum |
| EevdfFairness.HeavierGrowsFaster | src/thread/schedulers/eevdf.rs:98-108 | in any state the heavier of two runnable threads would have gained at least as much vruntime |
| EevdfFairness.DoubleWeightDoubleCharge | src/thread/schedulers/eevdf.rs:13-19 | one input: default weight 341, twice that weight 682 for the same tick |
| EevdfStarvation.DeltaOne | src/thread/schedulers/eevdf.rs:103-105 | the one-tick charge is zero exactly when the weight is below a 1024th of the sum |
| EevdfFairness.StarvationBound | src/thread/schedulers/eevdf.rs:92-135 | a waiting runnable thread is picked within one call more than the sum over the others of how far they are below its vruntime plus the weight sum plus one, for all ticks, when every runnable weight is at least a 1024th of the sum |
| EevdfFairness.ZeroChargeStarvesOthers | src/thread/schedulers/eevdf.rs:98-108 | a thread whose one-tick charge rounds to zero and that is picked once is picked at every later one-tick call |
| EevdfStarvation.FairExactly | src/thread/schedulers/eevdf.rs:89-162 | the exact condition: over a long enough run of one-tick calls every waiting runnable thread is picked within its bound from every point of the run if and only if no runnable weight is below a 1024th of the sum |
| EevdfStarvation.FairIfChargeable | src/thread/schedulers/eevdf.rs:92-135 | one direction, for runs of any length |
| EevdfStarvation.LightPicked | src/thread/schedulers/eevdf.rs:98-135 | if some runnable weight is below a 1024th of the sum, a thread with such a weight has the CPU within one call more than the backlog in front of it |
| EevdfStarvation.UnfairOtherwise | src/thread/schedulers/eevdf.rs:98-135 | the other direction: it then keeps the CPU and some waiting runnable thread is not picked within its bound |
| EevdfStarvation.HeavyStarves | src/thread/schedulers/eevdf.rs:55-67 | a concrete case from the spawned state: of threads with weights 2048 and 1 the light one has the CPU after four calls and the heavy one is never picked again, without overflow, for as long as ticks last |
| EevdfFairness.SpreadBound | src/thread/schedulers/eevdf.rs:99-135 | from a fresh state with a fixed runnable set and slices at most T, the vruntime spread never exceeds the weight sum plus 1024 T, and min_vruntime never decreases |
| EevdfLedger.StepBalances | src/thread/schedulers/eevdf.rs:55-177 | spawn, tick, block and unblock each keep every vruntime equal to the sum of the charges recorded for it and the slices equal to the elapsed ticks |
| EevdfLedger.TimeIsConserved | src/thread/schedulers/eevdf.rs:89-177 | over any run of spawns, ticks, blocks and unblocks from the empty scheduler charged time is conserved, up to one extra tick per call that found no elapsed tick |
| EevdfLedger.NoOverflow | src/thread/schedulers/eevdf.rs:30-33 | no arithmetic overflow in any run whose last tick, length and total weight satisfy one explicit product bound |
| EevdfLedger.UnblockClears | src/thread/schedulers/eevdf.rs:78-85 | unblocking clears the mark of exactly the thread with that id |
| RoundRobin.RoundRobinScheduler.Spawn | src/thread/schedulers/round_robin.rs:24-27 | the thread is appended |
| RoundRobin.RoundRobinScheduler.TickPrepare | src/thread/schedulers/round_robin.rs:43-62 | the next slot in cyclic order, from the bootstrap slot the first time |
| RoundRobin.RefinesRoundRobin | src/thread/schedulers/round_robin.rs:43-62 | with up to 1024 threads of one weight and one-tick slices every EEVDF call up to an overflow returns round robin's pair of slots |
| RoundRobin.FollowsRoundRobin | src/thread/schedulers/round_robin.rs:43-62 | under one explicit bound on total weight and number of calls there is no overflow and every call switches exactly as round robin does |
| RoundRobin.LeavesRoundRobin | src/thread/schedulers/eevdf.rs:105-105 | with more than 1024 threads the second call already differs, so the bound 1024 is exact |
| Scheduling.EevdfScheduler.constructor | src/thread/schedulers/eevdf.rs:45-53 | the empty scheduler |
| Scheduling.EevdfScheduler.Spawn | src/thread/schedulers/eevdf.rs:55-59 | appends a thread of vruntime 0 and weight 1024, not blocked, and changes nothing else |
| Scheduling.EevdfScheduler.SpawnWithWeight | src/thread/schedulers/eevdf.rs:61-67 | the same with the given weight, zero becoming one |
| Scheduling.EevdfScheduler.CurrentThreadId | src/thread/schedulers/eevdf.rs:73-75 | the id of the current thread, or none exactly when there is none |
| Scheduling.EevdfScheduler.UnblockThread | src/thread/schedulers/eevdf.rs:78-85 | the search loop clears the mark of exactly the thread with that id and leaves every other thread alone |
| Scheduling.EevdfScheduler.TickPrepare | src/thread/schedulers/eevdf.rs:89-162 | charging, the minimum, the weight sum, the deadline search and the fallback search, each a loop over the metadata, together give exactly the decision, the panics and the next state of the specification |
| Scheduling.EevdfScheduler.Charge | src/thread/schedulers/eevdf.rs:98-108 | the thread switched away from is charged as specified, or an overflow is reported exactly when the specification has one |
| Scheduling.RunnableWeight | src/thread/schedulers/eevdf.rs:117-117 | the summing loop: the weight of the runnable threads, or overflow exactly when it exceeds 64 bits |
| Scheduling.LeastVruntime | src/thread/schedulers/eevdf.rs:110-115 | the minimum loop, keeping the old value when no thread is runnable |
| Scheduling.VirtualDeadline | src/thread/schedulers/eevdf.rs:30-33 | the deadline, which the weight times its distance from the vruntime ties to slice, sum and 1024 by two inequalities; or overflow exactly when it or its product exceeds 64 bits |
| Scheduling.FindEarliest | src/thread/schedulers/eevdf.rs:120-128 | the filter and pairwise comparison loop finds the first eligible thread of least deadline, and overflows exactly when two threads are eligible and some eligible deadline does |
| Scheduling.FindRunnable | src/thread/schedulers/eevdf.rs:129-135 | the fallback loop finds the first runnable thread |
| Scheduling.EevdfScheduler.BlockCurrentAndPrepareSwitch | src/thread/schedulers/eevdf.rs:166-177 | marking then deciding is exactly the specification's block |
| Context.FlagRoundTrip | src/thread/context.rs:97-101 | clearing the interrupt bit for popfq and setting it again gives back any saved flags that had it set |
| Context.FlagExactly | src/thread/context.rs:97-101 | the flag tested, cleared and set is the bit worth 512, whatever the other bits, which never change |
| Context.Cpu.RestoreFrom | src/thread/context.rs:77-103 | the restoring half loads every register of the context, enables interrupts and continues at the word on the new stack |
| Context.Cpu.ContextSwitchTo | src/thread/context.rs:106-130 | the same for the routine used by interrupt handlers |
| Context.Cpu.ContextSwitch | src/thread/context.rs:56-103 | saves callee-saved registers, stack pointer, return address and flags of the caller into its own context only, then restores the other |
| Context.Cpu.IrqPreempt | src/interrupts.rs:132-170 | copies all fifteen registers, rip and rflags out of the frame, writes the resume address below the interrupted stack pointer, and switches |
| Context.PushAllLoads | src/interrupts.rs:104-127 | pushed words are found in order below the starting address and nothing else in memory changes |
| Suspension.FrameHasRegs | src/interrupts.rs:104-194 | every interrupted register is found in the frame at the offset the frame layout gives it |
| Suspension.FrameLayout | src/interrupts.rs:96-194 | memory at the frame holds rax, rcx, rdx, rbx, rbp, rsi, rdi, r8 to r15, rip, cs, rflags, rsp and ss in this order, eight bytes each |
| Suspension.FrameAligned | src/interrupts.rs:103-127 | the frame is 16-aligned and begins 160 to 175 bytes below the interrupted stack pointer |
| Suspension.TopAligned | src/thread/stack.rs:42-45 | the stack top is 16-aligned if and only if the end of the storage is |
| Suspension.TopExactly | src/thread/stack.rs:42-45 | the top is 16 below the end of the storage if that is less than 16 past a multiple of 32, and 32 below it otherwise |
| Suspension.TopMisaligned | src/thread/stack.rs:42-45 | one input: storage ending at 0x1008 has its top at 0xFF8 |
| Suspension.FreshHolds | src/thread/stack.rs:49-57 | a thread that has never run resumes at its entry point with zeroed registers and flags 514, on every stack of at least 40 bytes |
| Suspension.RestoreResumes | src/thread/context.rs:77-130 | either restore routine gives a suspended thread exactly the registers it must find: everything if preempted, callee-saved registers, return address and rsp if it yielded (section 3.2.1 of the System V AMD64 ABI) |
| Suspension.PreemptOk | src/interrupts.rs:132-170 | preempting leaves the interrupted thread resumable as interrupted, with its stack from the interrupted stack pointer up as it was, and every other thread undisturbed |
| Suspension.YieldOk | src/thread/context.rs:56-103 | yielding leaves the caller resumable at its return address with its stack as it was, and every other thread undisturbed |
| Suspension.BootedOk | src/thread/stack.rs:49-57 | after creating any number of threads on disjoint stacks every one of them is resumable |
| Suspension.StepOk | src/interrupts.rs:132-194 | every event keeps all suspended threads and their stacks resumable and resumes its target exactly |
| Suspension.RoundTrips | src/thread/context.rs:56-130 | over every run of work, interrupts, preemptions and yields each resumed thread finds its registers and the whole of its stack as it left them, and an interrupt without a switch changes neither |
| Alignment.AlignUpRounds | src/allocator.rs:70-72 | the bit expression gives the least multiple of a power of two at or above the address |
| ByteMemory.LoadStore | src/allocator/linked_list.rs:9-17 | a word stored little-endian in bytes is read back |
| FreeList.SizeAlignRounds | src/allocator/linked_list.rs:70-75 | rounded sizes hold the request and a list node, and alignment never drops |
| FreeList.SizeAlignExactly | src/allocator/linked_list.rs:70-75 | rounding panics exactly when the size plus the larger of 8 and the alignment exceeds 2^63; otherwise it gives the larger of 16 and the least multiple of that alignment that holds the size |
| FreeList.FirstFitFinds | src/allocator/linked_list.rs:46-58 | the first region that fits, or none fits |
| FreeList.FitIsInside | src/allocator/linked_list.rs:60-67 | a fitting block is aligned, inside its region, and what is left over can hold a node |
| FreeList.FitExactly | src/allocator/linked_list.rs:60-67 | a region serves a request at an address if and only if that is the least aligned address in it, the block ends within it, and what is left over is nothing or at least 16 bytes |
| FreeList.AllocExactly | src/allocator/linked_list.rs:46-92 | allocation fails if and only if no region serves; otherwise the first region that does is cut: the bytes before the block are lost, those behind it become the first free region, all others remain |
| FreeList.AllocKeeps | src/allocator/linked_list.rs:79-92 | allocation keeps all free and live blocks disjoint and inside the heap, conserves bytes, returns an aligned block of free memory, and changes nothing on failure |
| FreeList.DeallocKeeps | src/allocator/linked_list.rs:94-97 | deallocation keeps that and conserves bytes |
| FreeList.DeallocAllocInverse | src/allocator/linked_list.rs:79-97 | freeing a block and allocating its layout again returns the same address and the same free list |
| FreeList.RunConserves | src/allocator/linked_list.rs:30-98 | after any permitted run free plus live bytes never exceed the heap, and equal it when no alignment exceeds 8 |
| LinkedList.PushNode | src/allocator/linked_list.rs:34-44 | writing a node in a fresh region and making it head gives a list with that region first and touches no other byte |
| LinkedList.Unlink | src/allocator/linked_list.rs:46-58 | taking a region out leaves the other nodes linked in order |
| LinkedList.AddrIsAligned | src/allocator/linked_list.rs:35-35 | the alignment assertion holds exactly for addresses that are multiples of 8 |
| LinkedList.LinkedListAllocator.constructor | src/allocator/linked_list.rs:25-32 | one free region, the whole heap |
| LinkedList.LinkedListAllocator.AddFreeRegion | src/allocator/linked_list.rs:34-44 | the nodes in memory are the old list with the region in front; only the node's bytes change |
| LinkedList.LinkedListAllocator.FindRegion | src/allocator/linked_list.rs:46-58 | the walk over nodes in memory takes out exactly the first fitting region, or changes nothing |
| LinkedList.LinkedListAllocator.Alloc | src/allocator/linked_list.rs:79-92 | panics exactly when size plus the larger of 8 and the alignment exceeds 2^63; returns null if and only if no free region serves the rounded layout; otherwise the block is cut from the first that does, has the requested alignment, and every live block keeps its bytes |
| LinkedList.LinkedListAllocator.Dealloc | src/allocator/linked_list.rs:94-97 | refines deallocation on lists and every other live block keeps its bytes |
| LinkedList.LinkedListAllocator.ClientWrite | src/allocator/linked_list.rs:78-98 | a client writing in its own block leaves the list intact |
| LinkedList.Exec | src/allocator/linked_list.rs:24-98 | after any sequence of allocations, deallocations and client writes the nodes in memory still form the specified disjoint list |
| SizeClass.Position | src/allocator/fixed_size_block.rs:51-54 | the first class at least as large as required, or every class is smaller |
| SizeClass.ClassExactly | src/allocator/fixed_size_block.rs:51-54 | a class is chosen if and only if size and alignment are at most 2048; its block size is the least power of two from 8 on that holds both |
| SizeClass.ClassServes | src/allocator/fixed_size_block.rs:51-54 | a block of a class serves every layout the class is chosen for, in size and in alignment |
| SizeClass.PopList | src/allocator/fixed_size_block.rs:60-63 | taking the head keeps every list exactly the free blocks of its class, each once, linked in memory |
| SizeClass.PushList | src/allocator/fixed_size_block.rs:78-87 | writing the node into the freed block keeps that too |
| SizeClass.NewBlock | src/allocator/fixed_size_block.rs:65-72 | a block from the fallback heap is disjoint from all others and leaves every list as it was |
| SizeClass.DropBlock | src/allocator/fixed_size_block.rs:88-91 | a block given back to the fallback heap leaves every list as it was |
| FixedSizeBlock.FixedSizeBlockAllocator.constructor | src/allocator/fixed_size_block.rs:29-41 | every list empty |
| FixedSizeBlock.FixedSizeBlockAllocator.FallbackWrites | src/allocator/fixed_size_block.rs:43-48 | whatever the fallback heap writes outside the blocks it has handed out, the lists stay intact |
| FixedSizeBlock.FixedSizeBlockAllocator.Alloc | src/allocator/fixed_size_block.rs:57-74 | the head of the class list, which is the block freed last, else the answer of the fallback; null if and only if no block of the class is free and the fallback has none; the block was not live, is large enough and aligned, and every other block keeps its bytes |
| FixedSizeBlock.FixedSizeBlockAllocator.Dealloc | src/allocator/fixed_size_block.rs:76-93 | the block joins the list of its class or goes back to the fallback; every other block keeps its bytes |
| FixedSizeBlock.FixedSizeBlockAllocator.Reuse | src/allocator/fixed_size_block.rs:57-93 | freeing a block and allocating any layout of its class returns that block |
| FixedSizeBlock.FixedSizeBlockAllocator.Copy | src/allocator/fixed_size_block.rs:105-105 | the source and destination blocks are distinct and the bytes arrive |
| FixedSizeBlock.FixedSizeBlockAllocator.Realloc | src/allocator/fixed_size_block.rs:97-110 | null exactly when the new layout is invalid or can be served neither from its list nor by the fallback, and then nothing changed; on success the first min(old, new) bytes are in the new block although the old one was overwritten, and every other live block keeps its bytes |
| CHeap.HeaderBlock | src/ffi/stubs.c:31-40 | a header block is 16-aligned, has room for its header, and holds the requested bytes if and only if adding the header did not wrap |
| CHeap.Malloc.Alloc | src/ffi/stubs.c:33-40 | panics exactly when the wrapped total exceeds 2^63 - 16; null, with nothing changed, if and only if no block of its class is free and the fallback has none; otherwise 16 past the head of the class list or past the fallback's answer, aligned, an allocation of its own whose room is as large as asked exactly when the size did not wrap |
| CHeap.Malloc.Free | src/ffi/stubs.c:42-47 | the layout handed back is the one the block was allocated with, for every size malloc accepts, so the block heads the list of its class or goes back to the fallback; every other allocation keeps its bytes and header |
| CHeap.Malloc.Write | src/ffi/stubs.c:25-40 | a client writing any byte it asked for disturbs neither its header nor any other allocation, so what free and realloc promise holds for programs that use their memory |
| CHeap.Malloc.FallbackWrites | src/allocator/fixed_size_block.rs:43-48 | what the fallback heap writes outside all blocks between C calls disturbs no allocation and no header |
| CHeap.Malloc.Realloc | src/ffi/stubs.c:56-66 | null acts as malloc, size zero as free; panic, failure and the new address exactly as malloc would have them; a failure leaves everything as it was; success keeps the first min(old, new) bytes and every other allocation; the copy leaves its block exactly when one of the sizes wrapped with its header and a new block was obtained |
| Cxfs.Le4RoundTrip | tools/mkcxfs.py:53-56 | a little-endian word is read back |
| Cxfs.Build | tools/mkcxfs.py:37-64 | the writer produces the image of exactly the file lists it can represent and fails on all others |
| Cxfs.PackableExactly | tools/mkcxfs.py:31-56 | what it can represent: names of at most 31 bytes from 1 to 127, and fewer than 2^32 files, bytes in each and bytes before each |
| Cxfs.FormatHead | tools/mkcxfs.py:51-62 | the image begins with the four letters CXFS and the number of files, and ends on a sector boundary after fewer than 512 zeros |
| Cxfs.FormatEntry | tools/mkcxfs.py:31-56 | entry i, at byte 8 + 40 i, is the name padded with zeros to 32 bytes, then the offset of the data, which is 8 plus 40 per file plus all data before it, then its size; and the data is at that offset |
| Cxfs.Collect | tools/mkcxfs.py:38-49 | running offsets: each file begins where the header and the files before it end |
| Cxfs.WriteTable | tools/mkcxfs.py:54-56 | the table of the whole list, or failure at the first file that cannot be represented |
| Cxfs.Device.Read | src/ata.rs:62-93 | the abstract disk: sectors arrive or, exactly past the end or beyond 256 sectors, the read fails with the error of that read |
| Cxfs.Singles | src/ata.rs:113-122 | one sector at a time reaches exactly the end of the disk |
| Cxfs.ReadAll | src/ata.rs:97-129 | for every disk, limit and error reply: which sectors are loaded, to the end of the disk, to the limit, or to the last whole chunk when the reply is NoDrive; DiskError exactly when the first chunk is cut short with any other reply |
| Cxfs.LoadIgnoresContents | src/ata.rs:95-129 | two disks of one length load equally far whatever their sectors contain |
| Cxfs.LimitCovers | src/ata.rs:97-129 | a disk that is long enough is loaded from the limit rounded up to a whole sector, no more and no less |
| Cxfs.NoDriveStops | src/ata.rs:105-125 | with the error NoDrive exactly the whole chunks of 65536 bytes are loaded |
| Cxfs.OtherErrors | src/ata.rs:105-125 | with any other error a disk of 65536 bytes or more is loaded to its last whole sector, a smaller one not at all |
| Cxfs.EmptySectorsLoad | src/ata.rs:95-129 | one input: 200 all-zero sectors are loaded to the end |
| Cxfs.FileSystem.Init | src/fs.rs:37-52 | mounts exactly what loads and starts with the magic, names the error otherwise, never NoDrive; the first mount stays |
| Cxfs.MountOf | src/fs.rs:39-52 | no load is ever reported as NoDrive |
| Cxfs.FileSystem.Open | src/fs.rs:54-71 | the search loop over the mounted bytes computes the search whose results `Cxfs.OpenExactly` gives for any archive |
| Cxfs.OpenExactly | src/fs.rs:54-71 | for any bytes, well formed or not: after any number of entries whose names are text and do not match, the search finds nothing if there are no more or the next name is not UTF-8, panics if the next entry is cut off, and on a match returns the bytes its offset and size name or panics if they are not all there |
| Cxfs.SameNameExactly | src/fs.rs:63-65 | two names match if and only if they have the same length and each pair of bytes is equal or differs by 32 with the smaller from 65 to 90 |
| Cxfs.FirstNamedMatches | src/fs.rs:58-70 | the match is the first file whose name differs at most in the case of its ASCII letters, and there is none if no name does |
| Cxfs.EncodedIsUtf8 | src/fs.rs:62-62 | every concatenation of encodings of Unicode scalar values is accepted as text |
| Cxfs.Utf8IsEncoded | src/fs.rs:62-62 | and nothing else is |
| Cxfs.EntryRoundTrip | src/fs.rs:59-65 | the reader gets back the name, offset and size an entry was packed from |
| Cxfs.ImageEntry | tools/mkcxfs.py:31-64 | entry and data of every file are where the reader looks for them |
| Cxfs.SearchFinds | src/fs.rs:58-70 | in any loaded prefix that holds the table the search returns the first case-insensitive match, not found, or a panic exactly when the match is cut off |
| Cxfs.ImageLoads | src/ata.rs:97-129 | exactly which prefix of an image is loaded, for every error reply |
| Cxfs.PresentLoads | src/ata.rs:105-125 | a disk that never answers NoDrive loads if and only if it has at least 128 sectors, and then up to its end or 6 MiB |
| Cxfs.EndToEnd | src/fs.rs:37-71 | build, load, open, for every representable list and every error reply: a disk error exactly when nothing could be loaded, bad magic exactly when the drive seemed missing, otherwise the first case-insensitive match wherever it was loaded; on a disk that is present every image of 65536 to 6291456 bytes is served completely: the data of the first file whose name differs only in the case of letters, not found if there is none |
| AsyncSleep.WakeConserves | src/task/sleep.rs:12-24 | waking moves tokens from SLEEPERS to the ready queue and neither makes nor loses one |
| AsyncSleep.WakeSplits | src/task/sleep.rs:16-23 | what stays is exactly what is not due and what leaves is exactly what is |
| AsyncSleep.WakeOrder | src/task/sleep.rs:16-23 | by index: each due entry comes out after exactly the due entries before it, and each other entry stays after exactly those before it that stay |
| AsyncSleep.TotalTime | src/task/sleep.rs:32-54 | over a sequence of sleeps the last end is at least the requested ticks in all after the first start whenever that sum is below 2^64 |
| AsyncSleep.SleepOver | src/task/sleep.rs:41-54 | a sleep that was due has completed once every live task dozes beyond that tick |
| AsyncSleep.OverDue | src/task/sleep.rs:34-47 | a sleep is due exactly when its length of ticks has passed since its start, or the clock is at its last value |
| AsyncSleep.Executor.Spawn | src/task/executor.rs:28-34 | panics exactly when 100 tokens are in the queue, never with fewer than 100 live tasks |
| AsyncSleep.Executor.Sift | src/task/sleep.rs:15-23 | removal in place during the walk yields exactly the due entries in order; panics exactly when they exceed the queue's room |
| AsyncSleep.Executor.WakeSleepers | src/task/sleep.rs:12-24 | keeps one token per live task; the queue-full panic is unreachable with at most 100 live tasks |
| AsyncSleep.Executor.PollFuture | src/task/sleep.rs:44-53 | a poll after the entry was consumed always completes that sleep; a pending poll registers exactly one entry, for a tick still to come |
| AsyncSleep.Executor.RunOne | src/task/executor.rs:41-56 | the consumed token returns to SLEEPERS unless its future is over, and no other task, live or finished, changes |
| AsyncSleep.Executor.RunReadyTasks | src/task/executor.rs:36-58 | the pop loop ends with the queue empty, every live task dozing and every task accounted for |
| AsyncSleep.Executor.RunOnce | src/task/executor.rs:60-66 | every sleep that began at least its length of ticks before the turn began completes in that turn, without a panic while at most 100 tasks live; the count of turns that began with every sleep due goes up exactly then |
| AsyncSleep.TurnAdvances | src/task/executor.rs:60-66 | a turn sets no task back, and brings every live task one sleep further when it began with every sleep due |
| AsyncSleep.TurnNears | src/task/executor.rs:60-66 | on such a clock every turn brings every live task one turn nearer to its computed end |
| AsyncSleep.NotDueYet | src/task/sleep.rs:45-47 | a sleep not yet due began fewer readings ago than its length takes on such a clock |
| AsyncSleep.Executor.Run | src/task/executor.rs:60-66 | over any number of turns no panic, no lost task, and every finished task slept through its program in order, each sleep from start to end at least as many ticks as asked whenever start plus ticks is below 2^64, and so in all; no task is live once more turns began with every sleep due than any program is long; and on a clock that gains a tick every so many readings no task is live after a number of turns computed from the programs beforehand |
| Stdio.DigitsDenote | src/ffi/stubs.c:234-238 | the digits of a number denote it, in every base up to 16 and either case |
| Stdio.DigitTable | src/ffi/stubs.c:234-234 | the sixteen digit characters of either case, and that exactly these are read back as digits |
| Stdio.TextExactly | src/ffi/stubs.c:234-246 | the text is as long as the width or as sign and digits, whichever is more; it ends in the digits of the number without a leading zero and only in the letters of its case; before them the sign and then zeros with the zero flag, blanks and then the sign without |
| Stdio.WordLength | src/ffi/stubs.c:236-238 | a 64-bit number has at most 20 digits in base 10 or 16 |
| Stdio.Convert | src/ffi/stubs.c:236-238 | the digit buffer holds the digits least significant first and never more than 20 |
| Stdio.PrintInteger | src/ffi/stubs.c:223-249 | the text of `Stdio.TextExactly`, all of it if it is shorter than the buffer and all but the last place of the buffer otherwise, then the terminator |
| Stdio.Strtol | src/ffi/stubs.c:149-172 | blanks, sign, base detection and the longest run of digits, overflowing exactly when the number does not fit a long |
| Stdio.StartExactly | src/ffi/stubs.c:151-153 | for any blanks and tabs, any of no sign, minus and plus, and any rest: reading starts behind the sign and is negative exactly after a minus |
| Stdio.Accumulate | src/ffi/stubs.c:159-169 | the digit loop computes the number the run denotes, or overflows exactly when that exceeds a long |
| Strtol.Exactly | src/ffi/stubs.c:149-172 | for every text and every base C11 defines, the value and end of section 7.22.1.4 are returned if and only if the text meets a condition on its prefix, its first digit and the letter after its digits, and the value is in range |
| Strtol.HexPrefixStops | src/ffi/stubs.c:154-169 | with base 16 given, every text with 0x after any blanks, tabs and either sign parses to zero, stopping before the x |
| Strtol.PlainExactly | src/ffi/stubs.c:159-169 | the exact condition where no prefix is involved |
| Strtol.Hex0Exactly | src/ffi/stubs.c:154-158 | the exact condition for a prefix with base 0 |
| Strtol.PrefixDeparts | src/ffi/stubs.c:154-169 | one input: 0x1f with base 16 gives zero where C11 gives 31 |
| Strtol.BarePrefixDeparts | src/ffi/stubs.c:155-155 | one input: 0x with base 0 ends after the x where C11 ends before it |
| Strtol.BlanksDepart | src/ffi/stubs.c:151-170 | one input: blanks alone end after the blanks where C11 ends at the start |
| Strtol.LetterDeparts | src/ffi/stubs.c:161-166 | one input: z with base 36 is no digit where C11 gives 35 |
| Stdio.TextParses | src/ffi/stubs.c:149-172 | what an integer directive prints is read back by strtol in the same base if and only if its magnitude fits a long, for every width and flag |
| Stdio.PrintParse | src/ffi/stubs.c:185-251 | printing any long but the smallest with `%ld` and any width and flag into a buffer with room, then strtol in base 10, returns the value |

## Left out

- Weight-proportional CPU share: the charge grows with the weight (`EevdfFairness.ChargeGrowsWithWeight`), so the documented share does not follow from the code; weights are general in the bounds that do hold.
- Unconditional progress of KMutex: false, as `KernelWedge.WedgeHappens` shows; `KernelTheorems.StuckExactly` gives the exact stuck states.
- `block_and_yield`, the PICS lock and the allocator's own spinlock inside `push_back` are not steps of the kernel machine.
- Spawning a thread is one atomic step of the kernel machine.
- Memory ordering: one core, so every access to shared state is one step in program order.
- KernelTheorems.NoDeadlock: the rank discipline is sufficient and, by `KernelWedge.RelockDeadlocks`, not removable; the exact step into the branch is in `KernelTheorems.DeadlockExactly`.
- RoundRobin.RefinesRoundRobin: speaks of calls up to the first arithmetic overflow; `RoundRobin.FollowsRoundRobin` says when there is none.
- RoundRobin.LeavesRoundRobin: for weights small enough that the second call does not overflow.
- EevdfStarvation.FairExactly: for runs of one-tick calls without overflow panics; other spacings have the bound but no converse.
- EevdfLaws.KeptExactly: for weights for which 1025 times their sum plus 2048 fits in 64 bits, so that no product of the run overflows.
- EevdfFairness.StarvationBound: for runs without overflow panics, which `EevdfLedger.NoOverflow` bounds.
- Context.Cpu.ContextSwitch: registers are unbounded integers and memory is addressed by words, so partial overlap of words is not modelled.
- Suspension.RoundTrips: threads keep their stack pointer inside their own stack with room for an interrupt frame; stack overflow and the canary are not modelled.
- FixedSizeBlock.FixedSizeBlockAllocator.Alloc: the fallback heap is `linked_list_allocator::Heap`; it is taken to return aligned memory of the asked size disjoint from what it has handed out.
- CHeap.Malloc.Realloc: says nothing of the heap after an `Overrun`, which C leaves undefined.
- `calloc`, `strdup` and the other string functions of src/ffi/stubs.c.
- Cxfs.EndToEnd: says what opening returns only when the whole entry table was loaded.
- Cxfs.ReadAll: LBA28 addressing and errors in the middle of the disk are not modelled; reads fail exactly past the end.
- Cxfs.Build: file names are given as byte strings; path handling and the summary it prints are not modelled.
- Strtol.Exactly: white space is blanks and tabs, as this code takes it; the other white-space characters of C11 and the results C11 prescribes out of range are not compared.
- AsyncSleep.Executor.Run: tasks await only sleeps; keyboard wakers and halting when idle are not modelled, and the program of each is finite.
- Stdio.PrintInteger: one integer directive with width and zero flag; literal text, strings, characters, precision and the parsing of the format are not modelled.
- Bump allocator, key ring and boot frame allocator: they would only add easy members.
- Port I/O, PIC, PIT, GDT, IDT, paging, VGA, serial, shell, keyboard decoding and the Doom callbacks.
