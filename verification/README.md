# BSprakt kernel: a Dafny model

BSprakt is a small ARMv7-A teaching kernel: a preemptive scheduler for up to 32 user threads in 8
address spaces, memory protection by page tables, character input and timed waiting. This project
models the parts in which everything else rests on bookkeeping over long runs, and proves what they
are meant to guarantee.

The model has two layers.

- **Values.** `Model` has every scheduler list as a sequence of thread numbers and every operation as
  a function of the whole state; `Machine` adds system calls, exceptions, interrupts and the passing
  of time, and runs of them. `Invariant` and `Preservation` hold the invariant every step keeps, over
  any number of address spaces up to 8 and of slots up to 4. The statements about runs are in `Boot`,
  `Reachable`, `FairQueue`, `TimeSlices`, `InputMatching`, `WakeUp`, `Deadlines`, `Halting`,
  `ContextSwitch`, `IdleThread`, `AddressSpaces`, `AccessRights`, `Stacks`, `Creation`, `Endings`, `Answers`
  and `Disclosure`; `Scenarios` has short runs from power-on that show how it starts and what can go wrong.
- **Memory.** `IntrusiveList` works on `previous` and `next` pointers, `ListGroup` keeps several rings
  over one table of nodes apart, `RingBuffer` and `SysTimer` work on indices and registers, and
  `Store` puts these together with the control blocks, the page table and physical memory into one
  object with a value (`Abs`). `Scheduler`, `Syscalls`, `Interrupts` and `Startup` are the kernel's
  functions over that object. Each is proved to compute the corresponding function on values, up to
  `Interrupts.Execute` for whole runs, so what is proved about runs holds of the pointer version. In
  what state a machine halts is left open: the two layers agree on whether it does.
  `Steps` states functions of `Model` as sequences of the smaller operations that compute them.

`Mmu` covers descriptors and page tables. `KMath`, `KFraction`, `KTiming` and `KPrintf` are the
kernel's arithmetic and number formatting. `Words` has 32-bit words and bytes.

Descriptors follow the short-descriptor format of the ARMv7-A Architecture Reference Manual
(ARM DDI 0406C, section B3.5.1; access permissions in section B3.7.1).

## What comes from outside

`Env` and `Platform` stand for what the kernel's code does not determine: how many ticks pass before
each reading of the counter, before the write that acts on it and between the interrupt handler's looks
at the two timer interrupts, what lies behind the last row of `process_stack_handles` (read when the
idle thread is switched in), the address of `sys$exit_thread`, and the contents of memory at power-on.
An event carries the registers the interrupted code had and a received character. The argument bytes of a
creating call are read from memory through the caller's pointer; only for what lies in device registers,
in the kernel's own variables and in its stacks, which the model does not keep, does the event carry
arbitrary bytes.
Statements about the alarm hold while the 32-bit counter is still 20 ticks or more from its end; the
number of ticks is kept without bound beside the counter. `WakeUp` says what happens at the end.

## Where the code differs from what is written about it

- A stall call whose duration cannot be converted is documented to return an error. The code switches
  threads first and then writes the error code to the registers of the thread just switched in
  (kernel/syscall_impl.c:94-99). The first such duration is 1100032 ms; see
  `ContextSwitch.FailedStallAnswersAnother` and `ContextSwitch.EighteenMinutes`.
- Sorted insertion puts an element smaller than the first one at the end (kernel/lib/kintrusive_list.c:117-127),
  and the integrity check of a later switch then halts the kernel, unless wake-ups have emptied the list
  that far before. `Halting.StallKeepsOrderExactlyWhen` says when the order is lost,
  `Halting.RunHaltsExactlyWhen` when a run halts, and `Scenarios.ShorterStallSecondHalts` gives one.
- The creating calls copy their arguments through the caller's pointer without looking at it. A null
  pointer fails a VERIFY (kernel/lib/kstring.c:19) and an unmapped one is a data abort in kernel code
  (kernel/interrupt.c:84): either halts the kernel; see `Halting.CreateHalts` and `Scenarios.NullPointerHalts`.
- Exiting leaves the thread's stack handle in the row of its process. When the control block is used
  again in another process, the old process can store into its stack; see
  `Stacks.StoreReachesOtherExactlyWhen`, `Stacks.RowNamesOther` and `Scenarios.FirstProcessReachesSecond`.
- Deadlines are compared as plain numbers. A stall whose deadline lies beyond the end of the 32-bit
  counter does not wait, and a thread due in the counter's last 20 ticks can be left asleep for another
  round of the counter; see `WakeUp.WrappingStallDoesNotWait` and `WakeUp.OverdueIsLeftExactlyWhen`.
- Creating a thread is documented to fail with `-EBUSY` when no threads are available. What decides is a
  free slot in the caller's process; see `Creation.CreateThreadOutcome`. A successful call leaves the
  caller's r0 as it was.
- The argument size check admits sizes whose block reaches into the guard page;
  see `Stacks.ArgumentsReadableExactlyWhen`.
- A thread created into the running process may first run with the stack entry its slot had before. If that
  maps nothing, its first push ends it (`Scenarios.FirstThreadDies`); if it maps the stack of a thread that
  is by now live in another process, the new thread runs on that one's stack, and so do all stores of its
  process through the slot, although the slot is in use and its row is right
  (`Scenarios.ThreadRunsOnOthersStack`). `Stacks.HandedOutSlotStillReaches` and
  `Stacks.FreshThreadMayMissItsStack` give the exact conditions.
- The creating calls copy arguments with the kernel's rights, so a thread can be handed bytes its creator
  may not read, another process's data among them; see `AccessRights.KernelReadsMoreExactlyWhen` and
  `Disclosure.ThreadGetsOthersData`.
- The time call is documented to return the lower 32 bits of the timer; the code converts them to milliseconds,
  rounding some readings by up to the factor two and taking those from 2^31 ticks on, about 36 minutes, for
  negative; see `Answers.TimeAnswers`.
- Zero-padding a prefixed decimal number gives one character less than the width asked for; see `KPrintf.FieldLength`.
- Exiting is documented to reset the control block. The code frees the slot and moves the block, and
  leaves its contents.

## Model

| member | source | states |
|---|---|---|
| Boot.EveryReachableState | kernel/scheduler.c:239-287 | in every state of every run from power-on each user thread is on exactly one scheduler list, once; at most one thread runs; the idle thread waits on no list; space lists describe exactly the live threads; a slot is used exactly while one live thread has it, never two |
| Reachable.ExactlyOneRuns | kernel/scheduler.c:360-396 | over any run from power-on exactly one thread runs from the first switch on, and none before it |
| FairQueue.OneRunsOnceSwitched | kernel/scheduler.c:360-396 | the same from any state: a switch leaves exactly one thread running, and no step takes it away |
| Machine.Run | kernel/interrupt.c:29-105 | every run of traps, aborts, interrupts, stores and clock ticks keeps the invariant |
| Machine.Step | kernel/interrupt.c:29-105 | every single step keeps the invariant, from whatever state that has it |
| Interrupts.Execute | kernel/interrupt.c:29-105 | any run of the handlers over linked rings, tables and devices computes `Machine.Run`: both halt or neither does, and if neither does the whole state agrees; argument bytes are copied through the page tables one by one |
| Startup.Initialise | kernel/scheduler.c:91-116 | the lists, tables and control blocks that are built have the value `Boot.Initial`, from which all runs start |
| Scenarios.FirstProcessStarts | kernel/scheduler.c:111-116 | the first switch after power-on starts the first process at `user_main` with its stack pointer and r0 at the end of the first stack window, and in its data window it finds the image |
| IdleThread.SwitchToIdle | kernel/scheduler.c:366-383 | a switch runs the idle thread if and only if nobody is ready |
| IdleThread.StepIdle | kernel/scheduler.c:377-396 | no step changes the registers idle resumes with, and a step that gives it the processor resumes with them, but for the code of a failed stall in r0 |
| IdleThread.IdleHalts | kernel/scheduler.c:82-89 | from power-on, idle always gets the processor at `halt_cpu` in system mode with its own stack pointer, 123 MiB |
| Invariant.FreeSlotMeansFreeThread | kernel/scheduler.c:190-192 | pigeonhole: while a process has a free slot the finished list is not empty, so the VERIFY of thread creation cannot fire |
| Invariant.EmptySpaceMeansFreeThread | kernel/scheduler.c:152-154 | pigeonhole: while an address space is empty the finished list is not, and all slots of that space are free |
| Invariant.FullHouse | kernel/scheduler.c:42-70 | with no thread finished, every slot of every process is taken |
| FairQueue.RunsAtItsTurn | kernel/scheduler.c:366-396 | exact first-come-first-served: a thread at position k of the ready list is switched in by exactly the (k+1)-th switch, whatever else happens |
| FairQueue.WaitsItsTurn | kernel/scheduler.c:366-396 | until then it stays on the ready list, one place further forward for each switch |
| FairQueue.StepQueue | kernel/scheduler.c:360-405 | a step that does not switch only adds threads at the end of the ready list; one that does removes exactly the first and runs it |
| InputMatching.RunBalances | kernel/interrupt.c:98-104 | over any run, readers and accepted characters are paired off in order or still waiting; none is lost, doubled or reordered |
| InputMatching.InOrder | kernel/interrupt.c:102-104 | started with nobody waiting, the i-th delivery hands the i-th accepted character to the i-th thread that asked |
| InputMatching.NobodyWaitsInVain | kernel/interrupt.c:102-104 | after an interrupt the wait list or the input buffer is empty, unless the kernel has halted |
| InputMatching.AcceptsExactlyWhen | arch/bsp/pl001.c:21-24 | a step accepts the character that comes with it if and only if it is an interrupt that does not end halted and fewer than 128 characters are buffered before it; no other step accepts anything |
| InputMatching.RunAccepts | arch/bsp/pl001.c:21-24 | over any run the accepted characters are the sequence of those that arrive, without exactly the ones that find no room or a halted kernel |
| InputMatching.DeliverLists | kernel/interrupt.c:102-104 | the delivery loop serves as many as it can, first waiter first, and appends them to the ready list in that order |
| InputMatching.DeliverBlocks | kernel/scheduler.c:323-327 | a delivery writes r0 of the thread it is for, and of no other |
| Reachable.CharactersInOrder | kernel/interrupt.c:98-104 | from power-on: the i-th delivery hands the i-th accepted character to the i-th reader, and the accepted characters are those that arrived without exactly the ones that found no room |
| WakeUp.NoLostWakeUp | kernel/scheduler.c:305-358 | over any run before the counter wraps, C3 holds the deadline of the first stalled thread and its interrupt is pending or still ahead; unsorted insertions included |
| Reachable.AlarmAlwaysStands | kernel/scheduler.c:305-358 | the same from power-on |
| WakeUp.UnblockOverdueWakesPrefix | kernel/scheduler.c:338-348 | whatever the clock does, the wake-up loop moves exactly a prefix of the stall list, in order, to the end of the ready list, and nothing else |
| WakeUp.WokenExactlyWhen | kernel/scheduler.c:338-348 | whatever the clock does, the thread at position j is woken if and only if at every turn up to its own reading plus pad had reached the deadline of that turn, each by its own reading |
| WakeUp.NobodyWokenEarly | kernel/scheduler.c:338-348 | so nobody is woken more than the pad of 20 ticks before the deadline, by the reading of the own turn |
| WakeUp.UnblockOverdueAcknowledges | kernel/scheduler.c:350-358 | once the loop has emptied the stall list the alarm is acknowledged |
| Deadlines.AwaitTimerDeadlines | kernel/scheduler.c:305-319 | on any stall list the caller gets as deadline the reading of the clock plus its ticks, modulo the word size, and no other thread's deadline changes |
| Deadlines.AwaitTimerEnters | kernel/scheduler.c:310-313 | on a list that is not empty the caller takes its place by the sorted insertion, and nobody is woken and the alarm is not touched |
| Deadlines.StepDeadlines | kernel/syscall_impl.c:82-103 | over all events: deadlines change in stall calls that enter the list only, for the caller only, to the reading the call takes plus the ticks it asks for |
| Deadlines.IrqWakesExactlyWhen | kernel/interrupt.c:89-91 | an interrupt takes a thread off the stall list if and only if the alarm is pending and every turn of the loop up to its own has reached its deadline; it is then ready or runs |
| Deadlines.StalledStays | kernel/scheduler.c:338-348 | nothing but an interrupt takes a thread off the stall list |
| Deadlines.RunLeavesInTime | kernel/scheduler.c:338-348 | before the counter wraps, no run takes a stalled thread off the list before the clock plus 20 ticks has reached its deadline |
| Deadlines.StallLasts | kernel/scheduler.c:305-319 | a stall lasts, whoever else stalls: before the counter wraps, its caller is not off the list, in the call or any time later, before the clock plus 20 ticks has reached the reading of the call plus the ticks asked for |
| WakeUp.OverdueIsLeftExactlyWhen | arch/bsp/systimer.c:32-41 | a thread that is due is left asleep by the wake-up loop if and only if reading plus pad wraps to less than its deadline: in the last 20 ticks the alarm is armed for the past |
| WakeUp.StallWaitsExactlyWhen | kernel/scheduler.c:305-319 | a stall on an empty list waits if and only if at one of two readings its deadline, modulo the word size, lies past the pad; otherwise the caller stays on the ready list |
| WakeUp.WrappingStallDoesNotWait | kernel/scheduler.c:308-308 | so a stall whose deadline passes the end of the counter does not wait at all |
| WakeUp.UnblockOverdueGuards | kernel/scheduler.c:338-358 | however it is entered, the loop leaves the alarm set for whoever is first then, whose deadline was more than the pad away at the last look at the clock |
| WakeUp.NobodyOverdueRemains | kernel/scheduler.c:338-348 | on a sorted list nobody is left who was due within the pad at the last look at the clock |
| WakeUp.InsertionKeepsOrder | kernel/lib/kintrusive_list.c:108-128 | insertion into a sorted list keeps it sorted if and only if the list is empty or the newcomer is not due before the first element |
| WakeUp.InsertionPlace | kernel/lib/kintrusive_list.c:117-127 | otherwise the result is the old list followed by the newcomer; the first element never changes |
| WakeUp.InsertionIsStable | kernel/lib/kintrusive_list.c:108-128 | in the sorted case the newcomer goes behind everything due no later and before everything due later |
| Halting.StepHaltsExactlyWhen | kernel/scheduler.c:239-287 | a step ends halted if and only if the machine was halted, the exception came out of kernel code, a creating call got as far as copying arguments the kernel cannot read, or a switch found the stall list out of order |
| Halting.RunHaltsExactlyWhen | kernel/scheduler.c:239-287 | a run ends halted if and only if it started so or one of its steps meets that condition |
| Halting.StallKeepsOrderExactlyWhen | kernel/syscall_impl.c:82-103 | a stall call keeps the stall list sorted if and only if it does not get as far as entering the list, the list is empty, or the new deadline is not before the first one |
| Halting.SwitchHaltsExactlyWhenUnsorted | kernel/scheduler.c:276-283 | the integrity check of a switch fails if and only if the stall list is out of order |
| Halting.CreateHalts | kernel/lib/kstring.c:16-20 | a creating call halts the machine if and only if its size fits a stack, there is room for the thread, and its argument pointer is null with a size above zero or has a byte the kernel cannot read |
| Halting.NullArgumentsHalt | kernel/lib/kstring.c:16-20 | the null pointer with a positive size is such a case in every state with room |
| Halting.PunctualRunsDoNotHalt | kernel/scheduler.c:239-287 | a run without those causes and without a stall call due before the first stalled thread never halts the kernel |
| Reachable.PunctualKernelsDoNotHalt | kernel/scheduler.c:239-287 | the same from power-on |
| Halting.UnpunctualCallUnsorts | kernel/lib/kintrusive_list.c:117-127 | a stall call due before the first stalled thread leaves the list out of order without halting yet |
| Scenarios.ShorterStallSecondHalts | kernel/syscall_impl.c:82-103 | a run from power-on that halts so: stalls of 2 and then 1 seconds by two threads, and the exit of a third, on any machine whose single delays are at most a millisecond |
| Scenarios.NullPointerHalts | kernel/scheduler.c:218-218 | a run from power-on that halts on a null argument pointer |
| ContextSwitch.ResumesWhereItStopped | kernel/scheduler.c:118-150 | a thread interrupted with certain registers resumes, however much later, with exactly those, but for r0 when a character was delivered to it or the stall call that switched to it failed |
| ContextSwitch.AwayKeepsContext | kernel/scheduler.c:118-150 | while a live thread does not run, its saved registers change only by deliveries to it |
| ContextSwitch.StallThreadContext | kernel/syscall_impl.c:94-99 | a stall call that cannot convert its duration leaves its error code in r0 of the thread switched in |
| ContextSwitch.FailedStallExactlyWhen | kernel/syscall_impl.c:87-99 | a stall call fails if and only if the stall list is in order at its switch and its duration, halved down to whole seconds, has a tick count outside the range of a long |
| ContextSwitch.FailedStallAnswersAnother | kernel/syscall_impl.c:87-99 | the whole outcome: the thread switched in has the error code in its r0, the caller waits at the end of the ready list with its registers as they were, and nobody stalls |
| ContextSwitch.EighteenMinutes | kernel/syscall_impl.c:94-99 | no stall of less than 1100032 ms fails, and one of exactly that long does |
| Scenarios.ErrorGoesToNextThread | kernel/syscall_impl.c:94-99 | a run from power-on in which a thread that has never run starts with that error code in r0 |
| ContextSwitch.StepSaves | kernel/scheduler.c:377-383 | a thread that loses the processor has the registers it came with in its control block |
| AddressSpaces.WindowFollowsRunning | kernel/scheduler.c:385-389 | in every state with a running user thread the data window maps 6 MiB onto (6 + pid + 1) MiB, although the reload is skipped on same-process switches |
| AddressSpaces.StoreStaysInUserMemory | kernel/mmu.c:104-141 | a user store that the tables permit reaches the data frame of the running process or the stack that the entry of its megabyte maps, nothing else |
| AddressSpaces.StoreWrites | kernel/mmu.c:104-141 | a store the tables permit changes exactly the byte it reaches, and nothing else in the whole state |
| AddressSpaces.StepMemory | kernel/scheduler.c:152-218 | a step changes a megabyte frame of memory in three ways only: the frame of a process it creates becomes a copy of the image, the stack of a thread it starts gets arguments, and the running thread may store to it |
| AddressSpaces.ImageNeverChanges | kernel/scheduler.c:156-158 | over any run the pristine image at 6 MiB is unchanged |
| AddressSpaces.DataIsPrivate | kernel/scheduler.c:385-396 | over any run in which a process neither stores to its data nor is created, its data is unchanged |
| AddressSpaces.CopyImageMemory | kernel/scheduler.c:156-158 | creating a process copies the image into its frame and touches no other frame |
| Stacks.UsedSlotIsOwn | kernel/scheduler.c:385-394 | through a used slot that is not stale a process stores to the stack of its own live thread in that slot |
| Stacks.StoreThroughSlot | kernel/mmu.c:38-58 | through any slot a store reaches exactly the byte of the stack the slot's entry maps, or faults in the guard page or on an empty entry |
| Stacks.StoreReachesOtherExactlyWhen | kernel/mmu.c:38-58 | a store anywhere reaches the stack of a live thread of another process if and only if it misses the guard page and the entry of its megabyte maps such a stack |
| Stacks.RowNamesOther | kernel/scheduler.c:227-236 | the entry of a slot that is not stale maps such a stack if and only if the row of the process still holds that thread's handle |
| Stacks.UsedSlotHasNoLeftover | kernel/scheduler.c:202-203 | no slot in use has such a handle in its row, and while it is not stale its entry maps no stack of another process either |
| Stacks.HandedOutSlotStillReaches | kernel/scheduler.c:202-203 | a slot handed out to a new thread of the running process is in use and its row is right, but stores through it go on reaching whoever they reached before: another process if and only if the row had a handle left over before the call |
| Stacks.StackIsPrivate | kernel/scheduler.c:385-394 | over any run in which nobody stores through an entry that maps a thread's stack and the thread is not started, its stack is unchanged |
| Stacks.NextThreadInheritsStack | kernel/scheduler.c:227-236 | the thread started next after an exit has the control block and stack of the one that ended, and the handle left behind reaches it if and only if it starts in another process |
| Scenarios.FirstProcessReachesSecond | kernel/scheduler.c:227-236 | a run from power-on after which the first process can store into the stack of the second process's only thread |
| Scenarios.ThreadRunsOnOthersStack | kernel/scheduler.c:202-218 | a run from power-on in which a thread is created in a slot whose entry still maps the stack of another process's live thread: stores through the slot in use reach that stack, and the new thread then runs on it |
| Stacks.ArgumentsAreStored | kernel/scheduler.c:209-218 | the argument bytes lie at the top of the new thread's own stack frame, no other byte of memory changes, and sp and r0 are their virtual address |
| Creation.ArgumentsAreTheCallers | kernel/lib/kstring.c:22-27 | each byte handed over is the one in memory behind the caller's pointer, as long as that memory and the new stack do not overlap |
| AccessRights.KernelReadsMoreExactlyWhen | kernel/mmu.c:104-141 | the addresses arguments are copied from although the caller may not read there are exactly the megabytes only the kernel maps: kernel, all processes' data, image, devices and stacks |
| Disclosure.ThreadGetsOthersData | kernel/scheduler.c:216-218 | a creating call that names the kernel's mapping of any process's data as the place of its arguments hands that data to the new thread, byte for byte |
| Store.CopyThroughTables | kernel/lib/kstring.c:16-29 | the copy loop, byte by byte through the page tables, fails if and only if the pointer is null with a positive size or a byte is unreadable; otherwise it stores exactly `Fetched` |
| Stacks.MappingsAgree | kernel/mmu.c:38-58 | through the two-level walk a thread reads, byte for byte, what the kernel wrote through its own mapping, except in the guard page |
| Stacks.ArgumentsReadableExactlyWhen | kernel/syscall_impl.c:46-49 | all arguments are readable if and only if their size, rounded up to 8, leaves the guard page free; the size check lets larger ones through |
| Stacks.SwitchInShowsOwnStack | kernel/scheduler.c:385-394 | a thread switched in sees its own stack if and only if the switch loads the entries, its slot was handed out before they were last loaded, or the old entry happens to map it; without a load it sees whatever stack the old entry maps |
| Stacks.FreshThreadMayMissItsStack | kernel/scheduler.c:202-218 | a thread created by a lone running thread runs on the stack the entry mapped before the call: its own if and only if the row named that stack, and the one of a live thread of another process if and only if that one's handle was left over in the row |
| Scenarios.FirstThreadDies | kernel/scheduler.c:202-218 | a run from power-on: the first process creates a thread while alone and yields; the thread runs without a stack, and its first store there ends it |
| Creation.CreateThreadOutcome | kernel/syscall_impl.c:61-80 | a thread is created if and only if its arguments fit a stack, its process has a free slot and the kernel can read the arguments; without the first two only r0 changes, to the right code, and unreadable arguments halt the machine; exactly one more thread is live, at the end of the ready list, with its registers, seat and stack handle as given; every other slot and block is as before |
| Creation.CreateProcessOutcome | kernel/syscall_impl.c:41-59 | the same for processes, with the first address space without threads |
| Creation.ExitGivesBack | kernel/scheduler.c:227-236 | exiting ends the caller and nobody else and frees exactly the seat its creation took; the stack handle stays in its row |
| Endings.EndsExactlyWhen | kernel/interrupt.c:29-86 | a step ends a thread if and only if the running user thread calls exit or a number that is no call, faults, or stores where the tables do not permit it; then exactly it ends and its seat is free |
| IntrusiveList.RemoveNode | kernel/lib/kintrusive_list.c:64-83 | unlinking deletes exactly one element from the ring and leaves the node linked to itself |
| IntrusiveList.AppendNode | kernel/lib/kintrusive_list.c:86-106 | appending to a head prepends, appending to a node inserts behind it |
| IntrusiveList.InsertSorted | kernel/lib/kintrusive_list.c:108-128 | the walk computes `SortedInsert`, stopping after at most one lap |
| IntrusiveList.BypassRing | kernel/lib/kintrusive_list.c:74-80 | bypassing one position of a ring leaves the ring without it |
| IntrusiveList.SpliceRing | kernel/lib/kintrusive_list.c:100-104 | linking a node in leaves the ring with it at that place |
| IntrusiveList.LeadingCount | kernel/lib/kintrusive_list.c:117-121 | the walk passes exactly the leading elements ordered before or level with the newcomer |
| IntrusiveList.LastNode | kernel/lib/kintrusive_list.c:48-53 | the predecessor of the first node is the last element |
| IntrusiveList.CheckLinks | kernel/scheduler.c:256-271 | on a valid ring whose blocks are unseen no structural VERIFY fails, and exactly its blocks become seen |
| IntrusiveList.CheckSorted | kernel/scheduler.c:276-283 | the neighbour-by-neighbour walk decides whether the list is in order |
| ListGroup.Group.TransferLast | kernel/lib/kintrusive_list.c:130-133 | a transfer moves one block from one list to the end of another and leaves every other ring as it was |
| ListGroup.Group.TransferFirst | kernel/lib/kintrusive_list.c:130-133 | a transfer to a head puts the block first |
| ListGroup.Group.InsertInOrder | kernel/lib/kintrusive_list.c:108-128 | sorted insertion into one list leaves every other ring as it was |
| ListGroup.LinkRing | kernel/scheduler.c:92-95 | the initialisation loop links the first n nodes into one ring |
| Store.CheckLists | kernel/scheduler.c:239-287 | over all five lists the check succeeds if and only if the stall list is sorted |
| Scheduler.RoundRobin | kernel/scheduler.c:360-405 | the pointer version computes `Model.RoundRobin`, early return and skipped reload included |
| Scheduler.Preempt | kernel/scheduler.c:375-383 | the running thread leaves the processor; a user thread is saved and put last |
| Store.Kernel.LoadWindows | kernel/scheduler.c:385-394 | the reload sets the data window and one stack entry per slot and nothing else; for idle the entries are arbitrary |
| Scheduler.StartThread | kernel/scheduler.c:190-225 | computes `Model.StartThread` on the bytes read through the caller's pointer, or fails exactly when they cannot be read |
| Scheduler.CreateProcess | kernel/scheduler.c:152-188 | the same after the image has been copied |
| Scheduler.FindFirstEmptyAddressSpace | kernel/scheduler.c:50-59 | finds the first address space without threads, or that there is none |
| Scheduler.FindFirstEmptySlot | kernel/scheduler.c:61-70 | finds the first unused slot of a process, or that there is none |
| Model.FirstEmptySpace | kernel/scheduler.c:50-59 | the least index whose list is empty, or none if no list is |
| Model.FirstEmptySlot | kernel/scheduler.c:61-70 | the least index whose slot is unused, or none if all are used |
| Scheduler.CleanupThread | kernel/scheduler.c:227-236 | computes `Model.CleanupThread` |
| Scheduler.AwaitInput | kernel/scheduler.c:290-298 | computes `Model.AwaitInput`: the thread at the end of the ready list becomes the last one waiting for input |
| Scheduler.UnblockFirstInput | kernel/scheduler.c:323-336 | computes `Model.UnblockFirstInput` |
| Scheduler.AdjustStallTimer | kernel/scheduler.c:350-358 | computes `Model.AdjustStallTimer` |
| Scheduler.UnblockOverdue | kernel/scheduler.c:338-348 | the loop terminates and computes `Model.UnblockOverdue` |
| Scheduler.AwaitTimer | kernel/scheduler.c:305-319 | computes `Model.AwaitTimer` |
| Preservation.RoundRobinMoves | kernel/scheduler.c:375-396 | a switch leaves every user thread on as many lists as before |
| Preservation.RoundRobinKeepsInv | kernel/scheduler.c:360-405 | a switch keeps the invariant; a forced one needs a running user thread |
| Preservation.StartThreadKeepsInv | kernel/scheduler.c:190-225 | starting a thread in a free slot keeps the invariant |
| Preservation.CleanupKeepsInv | kernel/scheduler.c:227-236 | ending the running thread keeps the invariant |
| Preservation.AwaitTimerKeepsInv | kernel/scheduler.c:305-319 | entering the stall list keeps the invariant |
| Preservation.UnblockOverdueKeepsInv | kernel/scheduler.c:338-348 | the wake-up loop keeps the invariant |
| Boot.UnpopulatedInv | kernel/scheduler.c:91-113 | the lists as initialised satisfy the invariant |
| Syscalls.ReadCharacter | kernel/syscall_impl.c:28-34 | computes `Machine.ReadCharacterCall` |
| Syscalls.CreateProcess | kernel/syscall_impl.c:41-59 | computes `Machine.CreateProcessSyscall`, or halts when that does |
| Syscalls.CreateThread | kernel/syscall_impl.c:61-80 | computes `Machine.CreateThreadSyscall`, or halts when that does |
| Syscalls.StallThread | kernel/syscall_impl.c:82-103 | computes `Machine.StallThreadCall` |
| Syscalls.ExitThread | kernel/syscall_impl.c:105-110 | computes `Machine.ExitThreadCall` |
| Syscalls.GetTime | kernel/syscall_impl.c:112-115 | computes `Machine.GetTimeCall` |
| Answers.TimeAnswers | kernel/syscall_impl.c:112-115 | trap 7 from any state: the caller goes on with the reading divided by 1000 in r0, exactly for readings up to 2147483 and of whole seconds, within the whole seconds and twice the time for others below 2^31, and with the negative time above; nothing else but the clock changes |
| Answers.OutputAnswers | kernel/syscall_impl.c:36-39 | trap 2 changes nothing that is kept |
| Answers.ThreadIdAnswers | kernel/syscall_impl.c:117-120 | trap 8 gives the caller its own number in r0 and changes nothing else |
| Interrupts.DispatchSyscall | kernel/syscall_impl.c:26-124 | computes `Machine.Dispatch` |
| Interrupts.SoftwareInterrupt | kernel/interrupt.c:49-66 | computes the trap step: kernel code halts the machine, an unknown call ends the thread |
| Interrupts.IrqInterrupt | kernel/interrupt.c:88-105 | computes the interrupt step in the order wake-up, time slice, input |
| Interrupts.DeliverInput | kernel/interrupt.c:102-104 | the delivery loop terminates and computes `Machine.Deliver` |
| Interrupts.FromUserMode | kernel/interrupt.c:51-51 | the mode an exception came from is user mode exactly while a user thread runs |
| RingBuffer.FirstInFirstOut | kernel/lib/kringbuffer.c:62-98 | over any history of writes, reads and peeks what was there and went in is what came out followed by what is left, and the bound holds |
| RingBuffer.PeekShowsNewest | kernel/lib/kringbuffer.c:62-72 | after any history a peek shows, in order, the newest of all the bytes that went in, as far as they are left |
| RingBuffer.Execute | kernel/lib/kringbuffer.c:62-98 | a buffer put through any list of operations takes, gives out, shows and keeps exactly what that history says |
| RingBuffer.Buffer.Write | kernel/lib/kringbuffer.c:87-98 | appends the longest prefix that fits, across the end of the storage and the wrap-around of the indices |
| RingBuffer.Buffer.Read | kernel/lib/kringbuffer.c:74-85 | removes and returns the longest available prefix |
| RingBuffer.Buffer.Empty | kernel/lib/kringbuffer.c:54-56 | true exactly when nothing is stored |
| RingBuffer.Buffer.Full | kernel/lib/kringbuffer.c:58-60 | true exactly when the storage is used up |
| RingBuffer.Buffer.PeekNewest | kernel/lib/kringbuffer.c:62-72 | returns the newest bytes in order and removes nothing |
| RingBuffer.Buffer.ReadWithOffset | kernel/lib/kringbuffer.c:26-33 | the split copy reads a segment around the end of the storage |
| RingBuffer.Buffer.WriteWithOffset | kernel/lib/kringbuffer.c:35-42 | the split copy overwrites a segment around the end of the storage |
| RingBuffer.Buffer.AdvanceSlot | kernel/lib/kringbuffer.c:18-24 | advancing a free-running 32-bit index, wrap-around included, advances the masked slot around the storage |
| Words.MaskIsRemainder | kernel/lib/kringbuffer.c:27-29 | masking with a power of two less one is the remainder |
| Words.PowerOfTwoTest | kernel/lib/kringbuffer.c:44-52 | the test x & (x - 1) == 0 accepts exactly the powers of two |
| Store.Kernel.ReceiveCharacter | arch/bsp/pl001.c:21-24 | a received character is appended to the buffered input, or dropped when that is full |
| Store.Kernel.ReadCharacter | arch/bsp/pl001.c:36-40 | takes the oldest buffered character; its VERIFY cannot fire when there is one |
| SysTimer.ArmedIsDue | arch/bsp/systimer.c:32-41 | arming succeeds exactly when more than the pad is left, and then the interrupt is still to come when C3 is written |
| SysTimer.ElapseKeepsDue | arch/bsp/systimer.c:22-41 | time alone never loses the interrupt |
| SysTimer.PassesMeansMeets | arch/bsp/systimer.c:22-24 | the pending bit is set exactly when the running counter meets the compare value |
| SysTimer.Device.StallInterruptAt | arch/bsp/systimer.c:32-41 | the register accesses compute `InterruptAt` |
| SysTimer.Device.Reset | arch/bsp/systimer.c:15-18 | the register accesses compute `Restart` |
| SysTimer.ArmingAcknowledges | arch/bsp/systimer.c:32-41 | after arming the alarm is pending only if the old compare value has been met meanwhile |
| TimeSlices.ElapseMeets | arch/bsp/systimer.c:11-18 | time alone makes the slice interrupt pending as soon as the ticks left to C1 have passed, wherever the counter wraps |
| TimeSlices.RestartArms | arch/bsp/systimer.c:15-18 | a restart whose write is quicker than an interval leaves exactly one million ticks, from the reading on, to the next slice interrupt, which is not pending unless the old compare value has been met |
| TimeSlices.TimePasses | arch/bsp/systimer.c:22-24 | a tick event advances the counter and both pending bits and changes nothing else |
| TimeSlices.StepTimer | kernel/interrupt.c:93-96 | a step restarts the slice timer if it switches, or meets the end of a slice with nobody else ready, without halting; any other step leaves C1 alone while time goes on |
| TimeSlices.SliceEnds | kernel/interrupt.c:93-96 | over any run after a restart: once a million ticks have passed since its reading the slice interrupt is pending or the timer has been restarted, and the next interrupt with anybody ready switches |
| TimeSlices.NoStarvation | kernel/scheduler.c:360-396 | with interrupts taken within a lag, a thread with k others before it on the ready list has the processor before k further intervals and lags have passed after the end of the current slice, whatever the threads do |
| Mmu.InitialiseL1Table | kernel/mmu.c:77-142 | the two loops over the range table build the memory map, section by section |
| Mmu.InitialiseL2StackTables | kernel/mmu.c:38-58 | each stack table holds a guard page and then the frames of its own stack |
| Mmu.InitialMap | kernel/mmu.c:78-141 | the range table with its reused template describes the piecewise memory map |
| Mmu.AccessBitsGrant | kernel/mmu.c:168-185 | the AP bits grant exactly the requested reads and writes, under the architecture's reading of them |
| Mmu.SectionGrants | kernel/mmu.c:203-232 | a section grants each level reading, writing and execution as asked for, with reading added to execution, except that code the kernel may execute and users may read is not closed to users |
| Mmu.PageGrants | kernel/mmu.c:239-270 | the same for small pages, which cannot keep the kernel from executing what users may |
| Mmu.InitialExecutes | kernel/mmu.c:77-142 | in the table that is built user code may execute in megabyte 4 alone and the kernel in megabyte 1 alone; no stack page is executable |
| Mmu.KernelStackWindow | kernel/mmu.c:38-58 | the kernel stacks are mapped onto themselves but for their guard pages, for the kernel only |
| AccessRights.UserRights | kernel/mmu.c:104-141 | in every state with a running user thread: it reads text, constants, data and its open stack windows, writes data and the windows, and executes text alone |
| AccessRights.KernelRights | kernel/mmu.c:104-141 | what the kernel may write, for every address |
| AccessRights.MapsOntoItself | kernel/mmu.c:80-141 | outside the windows everything mapped is mapped onto itself, but for the second view of the image |
| Mmu.WalkReadsPackedL1 | kernel/mmu.c:203-232 | a hardware first-level walk reads a packed descriptor back as the entry it was made from |
| Mmu.WalkReadsPackedL2 | kernel/mmu.c:239-270 | the same for second-level descriptors |
| Mmu.StackWindow | kernel/mmu.c:38-58 | a stack handle maps its megabyte onto the stack's own frame, all but the guard page |
| KMath.GreatestCommonDivisor | kernel/lib/kmath.c:38-49 | Euclid's loop terminates with the greatest common divisor |
| KMath.GcdIsGreatest | kernel/lib/kmath.c:38-49 | it divides both numbers and every common divisor divides it |
| KMath.LeastCommonMultiple | kernel/lib/kmath.c:51-53 | the quotient times the other number is a common multiple that divides all others, when it fits a long; it is zero exactly beside a zero |
| KMath.LcmLeast | kernel/lib/kmath.c:51-53 | every common multiple is a multiple of it |
| KMath.ModuloAdd | kernel/lib/kmath.c:9-21 | a cyclic step forward in the range from min to max, by at most one lap |
| KMath.ModuloSub | kernel/lib/kmath.c:23-36 | a cyclic step back |
| KMath.CyclicInverse | kernel/lib/kmath.c:9-36 | steps forward and back cancel |
| Model.Align8IsLeast | kernel/lib/kmath.c:60-63 | the result is a multiple of 8, not below the argument, and the least such |
| KFraction.CompactIsLowest | kernel/lib/kfraction.c:29-33 | compacting divides both parts exactly, keeps the value and leaves lowest terms |
| KFraction.DowncastHalves | kernel/lib/kfraction.c:35-52 | giving up precision at least halves both parts, after rounding an odd numerator down |
| KFraction.Multiply | kernel/lib/kfraction.c:115-131 | the retry loop terminates, settling on the operands `Settled` describes |
| KFraction.MultiplyIsExact | kernel/lib/kfraction.c:115-131 | when the first products fit the result is the exact product in lowest terms |
| KFraction.FailsExactlyWhen | kernel/lib/kfraction.c:120-126 | an error is reported if and only if both operands halved down to whole numbers still have too large a product |
| KFraction.LessThan | kernel/lib/kfraction.c:54-59 | agrees with the order of the rational numbers, for denominators of either sign, when the scaled numerators fit |
| KFraction.Equal | kernel/lib/kfraction.c:61-66 | agrees with equality of the rational numbers, for denominators of either sign, when the scaled numerators fit |
| KFraction.Add | kernel/lib/kfraction.c:68-99 | the exact sum in lowest terms when the common denominator, the scaled numerators and their sum fit |
| KTiming.MillisecondsToHertz | kernel/lib/ktiming.c:10-21 | for every word computes `Ticks`: the conversion of the argument read as a long, or the error |
| KTiming.HertzToMilliseconds | kernel/lib/ktiming.c:24-30 | for every word computes `Milliseconds`; where the ignored error occurs these are whole seconds |
| KTiming.ConvertsExactly | kernel/lib/ktiming.c:10-30 | when no product overflows, conversion is exact integer division |
| KTiming.StallFailsExactlyWhen | kernel/lib/ktiming.c:15-18 | a stall duration is refused if and only if, read as a long and halved down to whole seconds, it lies outside -2147 to 2147 |
| KTiming.ShorterStallsAreAccepted | kernel/lib/ktiming.c:15-18 | no duration below 1100032 ms is refused |
| KTiming.FirstRefused | kernel/lib/ktiming.c:15-18 | 1100032 ms are refused |
| KTiming.LongerStallsAreRefused | kernel/lib/ktiming.c:15-18 | every duration from 2148 seconds up to the largest long is refused |
| KFraction.WholeAtMost | kernel/lib/kfraction.c:35-52 | halving a fraction down to a whole number less than doubles it, the less so the larger its denominator |
| KFraction.WholeAtLeast | kernel/lib/kfraction.c:35-52 | and keeps every whole number it has reached |
| KTiming.ShortStallsAreExact | kernel/lib/ktiming.c:10-21 | up to 2147 milliseconds or whole seconds the number of ticks is exact |
| KTiming.TicksBounds | kernel/lib/ktiming.c:10-21 | for every duration up to the largest long that is not refused the ticks cover the whole seconds and are at most twice the exact number |
| KTiming.ConvertedBounds | kernel/lib/ktiming.c:10-30 | whatever is rounded, a conversion keeps the whole seconds and gives at most twice the exact value |
| KTiming.MillisecondsAreExact | kernel/lib/ktiming.c:24-30 | up to 2147483 ticks on either side of zero, and for whole seconds, the time in milliseconds is exact; readings above the largest long count as negative |
| KFraction.SettledBounds | kernel/lib/kfraction.c:115-131 | the operands the retry loop settles on keep whole numbers reached and grow by less than a factor of two in all |
| KPrintf.FormatRoundTrip | kernel/lib/kprintf.c:80-132 | reading back the formatted characters gives the number and its sign, whatever the flags and the width; they are what is sent whenever the buffer holds them |
| KPrintf.SentInOrder | kernel/lib/kprintf.c:93-124 | what is sent is spaces, sign, prefix, zeros and digits in this order; what sign, prefix and digits leave of the field of at most 32 is all zeros under the zero flag and all spaces otherwise |
| KPrintf.FieldLength | kernel/lib/kprintf.c:93-131 | the length is the larger of the field and of sign, prefix and digits; the field is one less for a zero-padded prefixed number in a base without a mark |
| KPrintf.FormatAndOutputNumber | kernel/lib/kprintf.c:80-132 | sends the reversed buffer and returns the number of characters sent, as long as all stores stay inside the buffer; for a base above 16 it sends nothing and the length is a wrapped error code |
| KPrintf.BufferSufficesExactlyWhen | kernel/lib/kprintf.c:88-122 | the stores stay inside the buffer of 32 in bases 10 and 16 and for unprefixed binary; prefixed binary overflows it exactly from 2^30 on |
| KPrintf.ToAscii | kernel/lib/kprintf.c:65-76 | the digits are those of the number, least significant first, cut at the end of the buffer |
| KPrintf.NumeralValue | kernel/lib/kprintf.c:65-76 | the digits, reversed, have the value they came from |
| KPrintf.NumeralLength | kernel/lib/kprintf.c:65-76 | a number has at most k digits exactly when it is below the k-th power of the base |
| KPrintf.SetPadWidth | kernel/lib/kprintf.c:228-244 | consumes all decimal digits and gives their value, or an error exactly when it does not fit a byte |

## Left out

- Inline assembly, the vector table, the entry code and the register check: an exception hands over and takes back an abstract record of r0-r12, sp, lr and the return address.
- CPSR condition flags: the code does not save them.
- Device registers other than the timer's, the UART's transmit polling, cache and TLB maintenance. The TLB is flushed at every switch, so the walk always uses the current tables.
- The characters that `SYSCALL_OUTPUT_CHARACTER` sends: the call changes nothing else.
- Logging, register dumps, fault and mode name tables, colours and the Jenkins hash: output only.
- The library copies under user/lib: the same code again.
- Fetching the system call number from the trapping instruction: it is a parameter of the trap event.
- Side effects of reading a device register through an argument pointer: only the bytes read are arbitrary.
- User instructions other than stores, and alignment or domain faults: reads change nothing, and every abort acts alike.
- `k_project_long_onto_range`, flooring and rounding of fractions: their multiples can overflow without a check.
- The format loop of `kprintf` and strings: only number formatting and width parsing are modelled.
- KFraction.Add: covers the case in which nothing overflows; it does not model the retry loops, which otherwise rescale and can overflow in `k_lcm` unchecked.
- KFraction.Multiply: positive denominators, as in the unit conversions; numerators may be negative.
- KMath.LeastCommonMultiple: does not model the product overflowing a long, which is undefined in C.
- KTiming.MillisecondsToHertz: for the argument 2147483648 the code negates the least long, which is undefined in C; the model takes its absolute value.
- KTiming.HertzToMilliseconds: the same.
- KPrintf.FormatAndOutputNumber: when the buffer overflows it says only that it does.
- KMath.ModuloAdd: says nothing for arguments outside the range or steps of more than one lap, for which the result is not cyclic.
- KMath.ModuloSub: the same.
- Reachable.AlarmAlwaysStands: assumes that the write to C3 follows the reading of the counter within the pad, and stops short of the counter's wrap-around.
- WakeUp.NoLostWakeUp: the same.
- Mmu.InitialiseL1Table: linker and memory map constants are those of the default configuration.
