# Proofs about the ossim simulator

A Dafny 4.11 model of the three stateful cores of the operating-system simulator, with proofs of what
each promises and of what they promise together.

* **Paged heap.** Each process owns a byte heap `[0, sbrk)`. A region allocator carves it up (lowest
  address that fits over an unordered free list, coalescing on free, growth by whole pages); pages are
  mapped to frames popped from one RAM that all processes share; an access goes from address to page,
  page-table entry, frame and byte. The main result is that any interleaving of any number of processes
  behaves as if each had a private flat array of bytes, so a process cannot observe the others; it is
  proved on values and carried to objects updated in place. A second machine lets processes touch any
  address: pages fault, frames and swap slots are never lost or shared, and inside live regions it is
  the first machine.
* **Time-slot barrier.** The timer and the device threads meet once per slot through two mutexes, two
  condition variables and a `done`/`fsh` pair per device. The model is a machine whose steps are the
  critical sections; waiting joins a wait set, a signal takes the waiter out, spurious wakeups are steps
  too. The results are safety, absence of lost wakeups and deadlock, and a bound on the steps of a slot.
* **Scheduler, CPUs and loader.** 140 level queues with budgets, and the CPU and loader threads as
  machines on top of the scheduler and the barrier. The results are shares, starvation bounds,
  conservation of processes, exact quanta, one instruction per slot, the exact load schedule, absence of
  deadlock and a bound on the steps of a slot for all threads together. How the machine ends is proved
  too: every run settles by a time computed from the configuration, and then the machine stops if and
  only if no CPU is idle; processes left on a queue when the last CPU stops are never run.

Code that updates things in place is modelled by classes whose methods are proved equal to functions on
values; the theorems are about those functions. Threads are modelled as state machines over their steps,
and the critical sections of the timer also as methods on the objects they update.

| file | models |
|---|---|
| `Word.dfy`, `Pte.dfy` | `include/bitops.h` and the page-table-entry and address macros of `include/mm.h`, on 32-bit vectors |
| `Regions.dfy` | the region allocator on values |
| `Paging.dfy` | devices, page tables, growth and page faults on values |
| `FlatStore.dfy`, `Refinement.dfy`, `Runs.dfy` | the flat reference store, the refinement step by step, and whole runs |
| `Memphy.dfy`, `Libmem.dfy`, `Cpu.dfy` | the storage device, the memory library and one instruction, in place |
| `Interleaving.dfy` | several process objects on one RAM, executing instructions in any order |
| `Faults.dfy`, `FaultRuns.dfy`, `NoFaults.dfy` | one fault; whole runs in which pages fault; runs inside live regions as a case of them |
| `Barrier.dfy`, `Timer.dfy` | the barrier machine; the critical sections in place |
| `Queue.dfy`, `Sched.dfy`, `Scheduler.dfy` | the bounded queue; the policy on values; the scheduler in place |
| `Parts.dfy`, `Os.dfy`, `OsProofs.dfy`, `Progress.dfy` | counting over places; the composed machine; its invariant and results; its progress |
| `Ending.dfy`, `EndingRuns.dfy` | how the machine ends; a run that leaves a process behind and one that leaves a CPU waiting for ever |
| `WorkConserving.dfy` | no CPU wastes a slot |
| `Composed.dfy` | the machine together with the paged memory: what each process reads |

## Conditions

These are what the code needs. They are `requires` clauses or the `Enabled` predicates of the machines.

* The fit test of `get_free_vmrg_area` (`src/libmem.c:613`) is one byte too generous. The model keeps it.
  `Regions.Hazard` is the exact condition under which it goes wrong, `Regions.AllocKeepsHeapExactly`
  proves that it is exact, and `Regions.HazardWitness` gives a run of two calls that hits it.
* A slot that still holds a live region is overwritten by `__alloc` (`src/libmem.c:78-79`, `94-95`), and
  its bytes are lost; `Regions.AllocKeepsHeapExactly` covers this too. Slot numbers are 0..29; slot 30
  passes the check of `get_symrg_byid` (`src/libmem.c:54`) and would read past the table.
* A request has `size >= 1` where it is compared with first fit on a set of bytes
  (`Regions.AllocIsFirstFit` and the refinement): a request for no bytes gets the start of the lowest
  node, empty or not, which the set does not determine. The heap invariant does not need this.
* Growth finds enough free frames and stays below 4 MB; RAM has at most 2^13 frames and swap at most
  2^21, which are the field widths. Fresh `malloc` memory counts as zero. Devices are in random mode.
* Each `liballoc`, `libfree`, `libread` and `libwrite` is one atomic step, as `mmvm_lock` is never taken.
* Priorities are below 140, `time_slot` is at least 1, and a put on a level queue finds room: `enqueue`
  drops silently when a queue holds ten processes. `Sched.PutKeepsExactly` says that this is exact,
  `Sched.DroppedPutWitness` gives a run that loses a process, and `OsProofs.PutFindsRoom` says that the
  condition holds by itself when at most ten processes share each priority.
* A fault finds a queued page, a free swap frame and frames in range for its two copies, and growth maps
  pages that no access past the break has brought in before. `FaultRuns.FaultWitness` is a run that faults.

Where comments and code differ the model follows the code: the variable `best_fit` holds the lowest
eligible node and not the best fitting one (`src/libmem.c:615`); `dequeue` takes the first process of
least priority number (`src/queue.c:29`), which on a level queue is first in, first out;
`pte_set_swap` leaves the PRESENT flag set (`src/mm.c:56`).

## Model

| member | source | states |
|---|---|---|
| Word.GenMaskBits | include/bitops.h:27-28 | `GENMASK(h, l)` has exactly the bits l to h, for all h, l below 32 |
| Word.NBitsIsLog | include/bitops.h:30-35 | for every non-zero 32-bit word, shifting right by `NBITS` leaves exactly 1: it is the floor of the base-2 logarithm; of zero it is 0 |
| Word.DivRoundUpIsCeiling | include/bitops.h:8-8 | `DIV_ROUND_UP(n, d)` is the least q with n <= q * d |
| Word.AnyWord | include/mm.h:84-87 | a number turned into a word has its value modulo 2^32 |
| Pte.SetFpnReadsBack | src/mm.c:70-78 | from any prior entry, the frame reads back for all frames below 2^13, the page is present and not swapped, all other bits are untouched |
| Pte.SetSwapReadsBack | src/mm.c:54-63 | from any prior entry, slot (below 2^21) and type read back, both flags are set, all bits outside the fields are untouched |
| Pte.SwappedEntryFrame | include/mm.h:40-47 | the frame field of a swapped-out entry reads as 32 times the slot, cut to 13 bits |
| Pte.FieldWidths | include/mm.h:40-59 | the limits of the model are the widths of the fields: 2^13 frames, 2^21 slots, 2^14 pages of 256 bytes |
| Pte.EntryFields | include/mm.h:40-59 | of any entry the frame is its value modulo 2^13, the device modulo 32, the slot its value divided by 32 modulo 2^21 |
| Pte.EntryFlags | include/mm.h:25-38 | PRESENT and SWAPPED are the two highest binary digits of the entry |
| Pte.AnyAddress | include/mm.h:84-95 | of any number used as an address the page is addr / 256 modulo 2^14 and the offset addr modulo 256 |
| Pte.AddressSplit | include/mm.h:84-87 | below 2^22, page number and offset are quotient and remainder by 256 and put the address together again |
| Pte.PageAlignRoundsUp | include/mm.h:17 | page alignment is the next multiple of 256 and fixes multiples |
| Regions.InitHeapOk | src/mm.c:245-269 | a fresh area satisfies the heap invariant: coalesced, tiled exactly, break at the end, list not empty |
| Regions.HazardIsShortPick | src/libmem.c:611-621 | the scan settles on a node one byte short exactly when a node of length size - 1 lies below every node that fits |
| Regions.AllocIsFirstFit | src/libmem.c:602-631 | away from the hazard, the address returned is the least one from which `size` bytes are free, whatever the list order; with no such run it is the old break |
| Regions.AllocBytes | src/libmem.c:68-132 | an allocation takes exactly its own bytes from the free set, which first gains exactly the new pages |
| Regions.GrowthBreak | src/mm-vm.c:102-127 | growth moves `vm_end` and `sbrk` up by the page-aligned size, the overlap check never refuses it, and the rest of the new pages becomes one node |
| Regions.AllocKeepsHeap | src/libmem.c:68-132 | allocation keeps the exact tiling of `[0, sbrk)`, the pairwise disjoint closed intervals of all nodes (empty ones too), page alignment and the non-empty list |
| Regions.AllocKeepsHeapExactly | src/libmem.c:68-97 | for a request of any size, it does so if and only if the slot was empty and no hazard was met |
| Regions.HazardTakesForeignByte | src/libmem.c:611-628 | in a hazard every byte of the region but the last was free, and the last, right behind the node, was not |
| Regions.AllocNothing | src/libmem.c:602-631 | a request for no bytes gets the start of the lowest node and changes no node |
| Regions.OverlapsExactly | src/mm-vm.c:79-94 | the overlap test refuses exactly the intervals that begin below the end of the area, but for the empty one at 0 |
| Regions.HazardWitness | src/libmem.c:613-618 | a concrete run: 255 bytes, then 1 byte, of a fresh process hand out byte 0 twice |
| Regions.CoalesceKeeps | src/libmem.c:159-187 | one unordered pass is enough: the merged node is apart from every node left, and the nodes left stay coalesced and come from the list |
| Regions.CoalesceLeavesUntouched | src/libmem.c:159-187 | the pass leaves exactly the nodes that touch the freed region at neither end, empty ones included, in their order |
| Regions.CoalesceBytes | src/libmem.c:159-187 | the pass neither loses nor invents a free byte |
| Regions.FreeExactly | src/libmem.c:141-196 | freeing puts one node covering the region in front of the nodes that touch it nowhere and clears the slot; anything but a live region in slots 0 to 29 is refused with -1 and no change |
| Regions.FreeBytes | src/libmem.c:141-196 | freeing adds back exactly the region's bytes |
| Regions.FreeKeepsHeap | src/libmem.c:141-196 | freeing any slot number, valid or not, keeps the heap invariant |
| Paging.MapPagesDecoded | src/mm.c:83-127 | mapping frames above the known pages appends them to the decoded table, marks exactly those pages resident and touches no other entry |
| Paging.MapPagesQueue | src/mm.c:118-118 | the newly mapped pages are queued newest first, in front of the old queue |
| Paging.RegisterKeepsByte | src/sys_mem.c:32-38 | a signed byte passed through an unsigned register and back comes out unchanged |
| Paging.RegisterByte | src/libmem.c:505-510 | the byte stored of any unsigned value is the signed byte equal to it modulo 256 |
| Paging.RegisterWord | src/sys_mem.c:32-38 | a byte loaded into a register is its value modulo 2^32 |
| Paging.CopyPageBytes | src/mm.c:222-238 | byte by byte: the whole frame is copied and no other byte of the target changes |
| Refinement.InitSysOk | src/mm-memphy.c:178-190 | a formatted RAM with no process satisfies the system invariant |
| Refinement.FrameHasOneOwner | src/mm-memphy.c:134-149 | every frame is on the free list or mapped by exactly one page of exactly one process |
| Refinement.AccessInBounds | src/libmem.c:356-388 | every access below the break finds its page present, so no fault occurs, and its physical address is below `maxsz` and is the one the decoded table gives |
| Refinement.DistinctBytes | src/libmem.c:397-430 | distinct bytes of the heaps of any processes lie at distinct physical addresses |
| Refinement.NewFramesClosedForm | src/mm.c:145-170 | growing by n pages after m frames went to all processes maps the i-th new page to frame m + n - 1 - i |
| Refinement.AllocTable | src/mm-vm.c:102-127 | an allocation appends exactly those frames to the page table, keeps pages resident exactly below the break, and takes the first n frames off the free list |
| Refinement.AllocPicksFirstRun | src/libmem.c:602-631 | the list allocator picks the address that searching the flat store's set of free bytes picks |
| Refinement.AllocStep | src/libmem.c:68-132 | an allocation keeps the system invariant, does to the caller's flat store what the reference allocation does (new pages read zero), and changes no other store |
| Refinement.FreeStep | src/libmem.c:141-196 | the same for freeing, with the same return code |
| Refinement.ReadStep | src/libmem.c:440-451 | a read inside a live region returns the flat store's byte and changes nothing |
| Refinement.WriteStep | src/libmem.c:491-502 | a write inside a live region changes exactly one byte of the caller's store and none of any other process's |
| Refinement.SpawnStep | src/mm.c:245-269 | a new process starts with an empty flat store and disturbs nobody |
| Refinement.StepRefines | src/sys_mem.c:17-45 | every call keeps the system invariant and makes the flat store's step with the same outcome |
| Runs.RunRefinesFlat | src/libmem.c:204-534 | over any interleaving of any processes, each gets the outcomes, and ends in the store, it would get alone on a private flat store |
| Runs.Isolation | src/libmem.c:204-534 | two runs in which a process makes the same calls give it the same outcomes, whatever the others do, the interleaving and the RAM size |
| Runs.CallKeepsContent | src/libmem.c:491-502 | one call changes the byte behind (process, region, offset) only by writing exactly there |
| Runs.ReadReturnsLastWrite | src/libmem.c:440-502 | as long as a region is not freed, a read returns the last byte written at that (process, region, offset), over whole runs |
| MemphyDevice.Memphy.constructor | src/mm-memphy.c:178-190 | a new device is the formatted device of the model |
| MemphyDevice.Memphy.Format | src/mm-memphy.c:108-132 | the free list becomes 0, 1, 2, ... up to the number of whole frames; with none, -1 and no change |
| MemphyDevice.Memphy.GetFreefp | src/mm-memphy.c:134-149 | the head of the free list is popped; -1 when empty |
| MemphyDevice.Memphy.Read | src/mm-memphy.c:54-64 | random mode reads the byte; any other device refuses, as the sequential path does |
| MemphyDevice.Memphy.Write | src/mm-memphy.c:92-102 | random mode stores exactly one byte; any other device refuses and keeps its contents |
| MemphyDevice.SwapCpPage | src/mm.c:222-238 | the target frame becomes a copy of the source frame and no other byte changes |
| Libmem.Pcb.constructor | src/mm.c:245-269 | a new process is the model's initial memory |
| Libmem.Pcb.GetFreeVmrgArea | src/libmem.c:602-631 | the loop finds the model's node and cuts the region off its front in place, or fails and changes nothing |
| Libmem.Pcb.EnlistVmFreergList | src/libmem.c:32-45 | a non-empty region goes to the front of the list, an empty one is refused |
| Libmem.Pcb.FreeRegion | src/libmem.c:141-196 | the loop over the free list computes the model's free, heap and return code |
| Libmem.Pcb.ValidateOverlapVmArea | src/mm-vm.c:79-94 | against the one area there is, the test refuses exactly the overlaps of the model |
| Libmem.Pcb.AllocPagesRange | src/mm.c:136-172 | given enough frames, exactly the first n leave the free list and come back in reverse order |
| Libmem.Pcb.VmapPageRange | src/mm.c:83-127 | the loop writes the entries and queues the pages as the model does, for as many frames as there are, and returns -1 when they run out |
| Libmem.Pcb.IncVmaLimit | src/mm-vm.c:102-127 | area, page table, queue and free list after growth are the model's |
| Libmem.Pcb.SysMemmap | src/sys_mem.c:17-45 | each operation code does exactly its operation and nothing else, and the call always returns 0 |
| Libmem.Pcb.AllocRegion | src/libmem.c:68-132 | the code computes the model's allocation: memory, free list and address |
| Libmem.Pcb.FindVictimPage | src/libmem.c:570-594 | the last page of the queue is unlinked and returned; -1 when empty |
| Libmem.Pcb.PgGetpage | src/libmem.c:276-348 | present pages cost nothing; a fault does exactly the model's two copies, two entry updates and queue changes |
| Libmem.Pcb.PgGetval | src/libmem.c:356-389 | the byte behind frame and offset is returned and RAM is unchanged |
| Libmem.Pcb.PgSetval | src/libmem.c:397-430 | exactly the byte behind frame and offset is stored |
| Libmem.Pcb.ReadRegion | src/libmem.c:440-451 | a bad slot number gives -1 and no change; else the byte at start plus offset |
| Libmem.Pcb.WriteRegion | src/libmem.c:491-502 | a bad slot number gives -1 and no change; else exactly that byte is stored |
| Cpu.AccessIsStep | src/libmem.c:276-280 | inside a live region the page lookup changes nothing and the physical address is the system step's |
| Cpu.Liballoc | src/libmem.c:204-233 | against any system the process is part of, the effect is the system's allocation step |
| Cpu.Libfree | src/libmem.c:241-267 | the same for freeing, with its return code |
| Cpu.Libread | src/libmem.c:454-481 | the value reported is the system's read step's, and nothing changes |
| Cpu.Libwrite | src/libmem.c:505-534 | the effect is the system's write step |
| Interleaving.TurnsMakeText | src/cpu.c:59-101 | in n turns a program makes the operations of the next n instructions of its text, each once, in order and none past the end; each kind of instruction names its operation, region, size and offset |
| Interleaving.CounterIs | src/cpu.c:59-66 | after n turns the program counter is n further on, or at the end of the program |
| Interleaving.ProgramReadsWhatItWrote | src/cpu.c:82-96 | read after write on program text: a later read of the place a WRITE named, with no FREE of the region and no other WRITE there between, reports the low byte of the datum, in every interleaving |
| Cpu.Execute | src/cpu.c:68-101 | each memory instruction does the system's step for its operation and reports its outcome |
| Cpu.Run | src/cpu.c:57-107 | the program counter moves by one exactly when an instruction is left, and the process is then part of the system after that instruction |
| Interleaving.Turn | src/cpu.c:57-107 | an instruction of one process leaves every other process object on the same RAM what it was, in the system after the step |
| Interleaving.RunInterleaved | src/os.c:83-97 | instructions of any processes in any order: the objects end as the processes of the system after the run of their memory calls, and the bytes read are those of that run; each counter ends where its number of turns takes it |
| Interleaving.ProgramsArePrivate | src/libmem.c:204-534 | the bytes a process reads depend on its own program and its number of turns only: they are those of its program alone on a flat store |
| Interleaving.FreshSysOk | src/mm.c:245-269 | any number of fresh processes on a formatted RAM satisfy the system invariant |
| Faults.FaultDecoded | src/libmem.c:280-343 | in a fault the oldest queued page goes to the swap slot popped, the wanted page takes over its frame, every other entry is untouched |
| Faults.FaultBytes | src/libmem.c:303-335 | the bytes of a fault: the victim's frame goes to the swap slot popped, then the frame named by the old entry goes over the swap frame numbered like the victim's; no other byte of swap changes |
| Faults.FaultFrame | src/libmem.c:318-345 | the access that faulted goes to the frame the victim had |
| Faults.FaultKeepsBook | src/libmem.c:276-348 | a fault keeps the bookkeeping invariant, RAM's free list and every other process |
| Faults.FaultKeepsResidentFrames | src/libmem.c:276-348 | a fault leaves the process with the same set of frames in RAM |
| Faults.VictimIsNotBroughtBack | src/libmem.c:311-311 | a later access to the victim does not fault: it goes to frame 32 times its swap slot, modulo 2^13 |
| Faults.MapKeepsBook | src/mm.c:83-172 | new mappings onto absent pages keep the bookkeeping invariant |
| FaultRuns.AllocateIsMapNew | src/libmem.c:68-132 | an allocation changes page table, queue and free list exactly as the mapping of its new pages does, and otherwise only the heap |
| FaultRuns.TouchIsFault | src/libmem.c:276-280 | an access faults exactly when its page is absent, and else changes no page table |
| FaultRuns.StoreBytes | src/libmem.c:397-430 | a write faults as a read of the same address does and changes one byte of RAM, at the address's offset in its page's frame; a read changes none |
| FaultRuns.DoKeepsRunInv | src/libmem.c:68-502 | every start, allocation, free, read and write, faulting or not, keeps the bookkeeping, the account of frames and slots, and every heap's tiling |
| FaultRuns.EveryFaultRun | src/libmem.c:570-594 | from fresh devices, in every run of any processes: each queue holds every resident page once; the victims are the oldest mappings in mapping order; every frame and every swap slot is on its free list or holds exactly one page of one process; every heap is tiled |
| FaultRuns.FaultWitness | src/libmem.c:280-343 | a concrete run of three actions in which a page is swapped out |
| NoFaults.RegionRunsNeverFault | src/libmem.c:276-280 | a run with its accesses inside live regions is a run of the faulting machine: same memory, no victim, swap device untouched |
| Barrier.NextKeepsInv | src/timer.c:21-93 | every step keeps the invariant: arrivals of an attached device are `_time + done` in the wait phase and the matching form in the release phase |
| Barrier.NoDeviceRunsAhead | src/timer.c:29-53 | no device works in a slot that an attached device has not reached; attached devices are within one slot of each other |
| Barrier.TimeIsExact | src/timer.c:79-81 | a working device reads as the time the number of slots it has ended |
| Barrier.NoArrivalIsWiped | src/timer.c:48-53 | the release loop clears only arrivals for the slot just ended; an arrival for the new slot is behind it |
| Barrier.TickWaitsForAll | src/timer.c:29-45 | when the time moves on every device has ended the slot or detached |
| Barrier.NoLostWakeup | src/timer.c:31-36 | a thread asleep with no wakeup pending has a false guard |
| Barrier.NoDeadlock | src/timer.c:21-93 | some thread can step without a spurious wakeup until all devices have detached and the timer has exited |
| Barrier.TimerExitsLast | src/timer.c:54-56 | the timer breaks or exits only with every device detached |
| Barrier.TimerExitsExactly | src/timer.c:22-57 | the timer leaves its loop exactly when told to at its head, which takes no time, or when every device seen in the slot had detached |
| Barrier.SlotEnds | src/timer.c:22-57 | no run of more than 11n + 5 steps, spurious wakeups apart, leaves the time where it was |
| Barrier.RunKeepsInv | src/timer.c:21-93 | every run keeps the invariant and the time never goes back |
| Timer.Clock.AttachEvent | src/timer.c:95-118 | before the start a fresh device joins at the front and the state is the barrier's initial one; afterwards NULL |
| Timer.Clock.NextSlotArrive | src/timer.c:63-66 | the section does the machine's arrival step on the shared state |
| Timer.Clock.NextSlotRecheck | src/timer.c:69-76 | one look at the guard does the machine's recheck step |
| Timer.Clock.DetachEvent | src/timer.c:88-93 | the section does the machine's detach step |
| Timer.Clock.TimerLook | src/timer.c:30-41 | one look at a device does the machine's look step and reports what was seen |
| Timer.Clock.TimerRelease | src/timer.c:49-52 | the section does the machine's release step |
| Timer.Clock.TimerStep | src/timer.c:21-57 | each step of the timer loop, counters and break test included, is the machine's |
| ReadyQueue.HighestIsFirstLeast | src/queue.c:27-34 | the scan finds the first process of the least priority number, and none exactly when all are 140 or more |
| ReadyQueue.LevelQueueIsFifo | src/queue.c:19-43 | on a level queue dequeue is first in, first out |
| ReadyQueue.Queue.EnqueueTask | src/queue.c:10-17 | the process goes to the back, or is dropped when ten are there |
| ReadyQueue.Queue.DequeueTask | src/queue.c:19-43 | the entry found is returned and removed with the others in order; NULL when empty |
| ReadyQueue.Queue.IsEmpty | src/queue.c:5-8 | true exactly when no process is queued |
| Sched.GetDispatches | src/sched.c:62-68 | the least ready level gives its oldest process at the cost of one unit; all else is untouched |
| Sched.GetNothingExactly | src/sched.c:56-76 | nothing is returned exactly when every waiting level has spent its budget; budgets are reset exactly if some process waits |
| Sched.PutKeepsExactly | src/sched.c:82-92 | a put adds exactly its process at the back if and only if there is room |
| Sched.ServedWithinBudget | src/sched.c:49-92 | index i of a level with more than i units left is returned within the budgets above plus i + 1 gets, whatever puts interleave |
| Sched.ServedWithinRounds | src/sched.c:49-92 | a process that needs e resets is returned within the budgets left plus 9871 gets per reset |
| Sched.NoStarvation | src/sched.c:49-92 | from any state, index i of level p is returned within (1 + ceil((i+1)/(140-p))) * 9871 gets |
| Sched.ShareOfEachEpoch | src/sched.c:28-76 | over any run budgets stay in 0..140-p, each level was dispatched exactly 140-p-slot[p] times since the last reset, and a reset finds every waiting level with its full share |
| Sched.DroppedPutWitness | src/queue.c:12-15 | a concrete run: of eleven processes of one priority put on a fresh scheduler the last is lost |
| Scheduler.MlqScheduler.constructor | src/sched.c:28-40 | queues empty, budgets full |
| Scheduler.MlqScheduler.QueueEmpty | src/sched.c:18-26 | -1 exactly when some level has a process |
| Scheduler.MlqScheduler.GetMlqProc | src/sched.c:49-80 | the loops compute the model's get: queues, budgets and result |
| Scheduler.MlqScheduler.PutMlqProc | src/sched.c:82-92 | the process goes onto the queue of its priority as in the model |
| OsProofs.NextKeepsInv | src/os.c:47-141 | every step of any CPU, the loader, the timer or a wakeup keeps the composed invariant |
| OsProofs.ProcessInOnePlace | src/os.c:53-98 | each loaded process is in exactly one place, once: one level queue, one CPU, or finished |
| OsProofs.QueuedAtOwnLevel | src/sched.c:82-92 | a waiting process waits at the level of its own priority |
| OsProofs.PutFindsRoom | src/queue.c:10-17 | if at most ten configured processes share each priority, every put of every reachable state finds room, so no process is ever dropped |
| OsProofs.LoadTimeIsLatest | src/os.c:114-135 | the load schedule is the maximum over j <= i of start_j + i - j |
| OsProofs.AllStepsKeepInv | src/os.c:47-141 | every run keeps the composed invariant |
| OsProofs.EveryRun | src/os.c:47-141 | from the start, in every run: no process and no CPU executes twice in a slot; process i is loaded at max(start_i, L_{i-1} + 1); a finished process of n instructions finished in the slot after its last turn, at load time plus n or later, and, if n >= 1, was run exactly n times in exactly ceil(n / time_slot) dispatches; time left is 0 without a process |
| WorkConserving.TakesTheNext | src/os.c:55-75 | whatever `done` is, a CPU without a process, with a finished one, or that has just put one back takes the oldest process of the least level that has one and budget, if there is such a level; else nothing, and waiting levels get their budgets back |
| WorkConserving.NoSlotWasted | src/os.c:53-98 | in every run, each slot a CPU has ended is one in which it executed an instruction or looked for a process when no level had both a process and budget |
| Progress.NoDeadlock | src/os.c:47-141 | until every CPU and the loader have stopped and the timer has exited, some thread can step without a spurious wakeup |
| Progress.StepUsesRank | src/os.c:47-141 | every step of a CPU, the loader or the timer that does not move the time on uses up some of the slot's rank |
| Progress.SlotEnds | src/os.c:47-141 | no run of more than 48n + 66 steps of n CPUs, loader and timer, spurious wakeups apart, leaves the time where it was |
| Ending.DoneInTime | src/os.c:114-140 | the loader is done by the slot after the last load |
| Ending.EveryRunSettles | src/os.c:47-141 | from the start, in every run: past the loader's last slot plus two slots for each instruction, empty process and CPU, no CPU holds a process, each is stopping, stopped or idle, and if one is idle nothing waits |
| Ending.IdleMeansFinished | src/os.c:53-82 | settled with an idle CPU left, every process is finished |
| Ending.FinishedOrAbandoned | src/os.c:53-82 | settled, each process is finished or waits on its level queue, and not both |
| Ending.SettledRun | src/os.c:53-98 | from then on the queues never change and a CPU is idle for ever or never: what waits is abandoned |
| Ending.StopsExactly | src/os.c:55-82 | once the time has moved on from a settled state, a CPU has stopped if and only if it was not idle there |
| Ending.MachineStopsExactly | src/os.c:55-82 | from a settled state the runs of real steps are bounded if and only if no CPU is idle |
| Ending.SettledCanStep | src/os.c:47-141 | a settled machine can always take a real step until everyone has stopped |
| Ending.LongRunsIdle | src/os.c:47-141 | every run of real steps from the start longer than a bound computed from the configuration ends with an idle CPU and every process finished: there is no other way to go on |
| Ending.IdleCpuNeverStops | src/os.c:55-62 | with all processes loaded, none waiting, and those on CPUs in their last quantum, an idle CPU waits for ever in every run, and the timer never exits |
| Ending.IdleFromStart | src/os.c:55-62 | with no process configured every CPU is in that state from the start |
| Ending.StopsAfterPutExactly | src/os.c:73-82 | a CPU that puts its process back and goes on stops if and only if the loader is done and every level with a process has spent its budget; the processes stay queued |
| EndingRuns.AbandonWitness | src/sched.c:70-76 | a concrete run: one CPU stops for good with a half-run process on its queue |
| EndingRuns.IdleWitness | src/os.c:55-62 | a concrete run of two CPUs and one process in which one CPU is lost while the other still works |
| Composed.TurnsFromStart | src/os.c:93-97 | in every run each process had as many instructions executed in its name as its own count says |
| Composed.CounterAgrees | src/cpu.c:59-66 | the counter the machine keeps for a process is the one its program reaches in as many turns: no instruction is skipped or repeated |
| Composed.MachineReadsWhatItWrote | src/os.c:93-97 | read after write on program text, in every run of the machine |
| Composed.EachReadsItsOwn | src/os.c:93-97 | in every run of the machine with its memory, the bytes a process has read are those its own program reads in as many turns alone, and once it is finished those its whole program reads alone |

## Left out

- Contents of pages after a swap-out: a swapped entry keeps its PRESENT flag and the second copy of a fault also goes from RAM to swap, so reading back through swap is not claimed; only the bookkeeping is, the bytes each fault copies (`Faults.FaultBytes`), and where a later access goes (`Faults.VictimIsNotBroughtBack`).
- Faults.FaultKeepsBook: does not speak about the bytes copied; `Faults.FaultBytes` states them.
- Libmem.Pcb.AllocPagesRange: requires enough free frames, because the shortage branch dereferences a null list.
- Libmem.Pcb.ReadRegion: excludes slot 30, which the code accepts and reads past its table.
- Libmem.Pcb.WriteRegion: excludes slot 30 for the same reason.
- Libmem.Pcb.FreeRegion: the free list is a sequence, so the relinking of `prev` and `rg_next` (`src/libmem.c:164-180`) appears as the removal of an element.
- Libmem.Pcb.ValidateOverlapVmArea: the walk over the list of areas is one test, because a process has one area.
- ReadyQueue.Queue.DequeueTask: excludes a non-empty queue whose priorities are all 140 or more, where the code would index entry -1.
- Scheduler.MlqScheduler.QueueEmpty: says only when the result is -1; the other result comes from the side queues, and no caller looks at it.
- Cpu.Run: has no raw system-call instruction.
- Os.Next: an instruction is its program counter only; its effect on memory is `Cpu.Run`, and `Composed.dfy` joins the two for runs whose memory calls are in order.
- Barrier.Next: critical sections are atomic steps; the mutexes themselves and the memory model of unlocked reads of `_time` and `done` are not modelled.
- `__sys_killall` and `free_pcb_memph`, whose present test is inverted, so that frame ownership does not hold after them.
- Sequential devices, `init_pte`, and more than one memory area.
- The side queues `ready_queue`, `run_queue` and `running_list`, which no decision depends on, and the scheduler without levels.
- Parsing of processes and configurations, printing and dumps, the obsolete `src/mem.c` and `src/paging.c`, and `ganttchart.py`.
