# OS scheduler simulation: verified model

The repository simulates an operating system in C: a process generator admits processes into a buddy-allocated
memory, and a scheduler runs them under HPF, SRTN or round robin. This project models the three parts, proves the
C data structures and loops against specifications on values, and proves properties of whole runs of the allocator,
of the scheduler and of the composed system. `System.Program` puts the objects together: on any input file it ends,
having made a run of the composed system that finishes every process exactly once.

## What is modelled

| Files | Content |
|---|---|
| `Blocks.dfy`, `FirstFit.dfy`, `WholeSubtree.dfy` | aligned intervals `Blk(k, j)` of size 2^k; the allocator as a function of the set of live blocks; runs of requests and exits; the usage check over the whole subtree, for comparison |
| `BlockCells.dfy`, `CellRuns.dfy`, `SplitsAndMerges.dfy`, `BuddyAllocator.dfy`, `Representation.dfy` | `memory_manager.c`: the mutable tree with parent pointers, method by method; splitting and merging as functions of what the blocks record, and which blocks they leave; whole runs of requests and exits |
| `Overlaps.dfy`, `SafeSizes.dfy`, `JobSizes.dfy`, `LostBlock.dfy` | which request sizes can make blocks overlap, in the allocator and in the whole system, and runs of both that lose a block |
| `Processes.dfy`, `PcbQueue.dfy`, `HeapOrder.dfy`, `ReadyHeap.dfy`, `ArrivalQueue.dfy` | control blocks, the ring buffer, the ready heap of pointers and the arrival heap |
| `SchedulerModel.dfy`, `SchedulerInvariant.dfy` | `scheduler.c` as a state machine: arrival, tick, run step with completion, SIGUSR1; what every step keeps |
| `SchedulerChoices.dfy`, `SchedulerTheorems.dfy`, `SchedulerWaiting.dfy`, `SchedulerUtilisation.dfy`, `RoundRobin.dfy`, `SchedulerWork.dfy` | who gets the processor, when, and with what in its control block; properties of every run of the scheduler |
| `Scheduler.dfy` | `scheduler.c` with its globals as fields and its functions as methods; each method makes a step of the state machine |
| `Admission.dfy`, `ProcessGenerator.dfy` | the waiting queue, the release loop and the deallocation of `process_generator.c` |
| `Simulation.dfy`, `SimulationInvariant.dfy`, `SimulationLoops.dfy`, `SimulationTheorems.dfy`, `Progress.dfy`, `Drain.dfy`, `SystemRuns.dfy`, `SystemChoices.dfy` | generator, allocator, message queue, scheduler and exits as one machine: its paths against the loops of the program, conservation, no deadlock, drain, and what the theorems about the scheduler say of it and of the input file |
| `System.dfy` | the generator object and the scheduler object side by side: a tick of both, the exit it causes, the main loops and the whole program |

The abstract state of a class is a ghost field or function (`Allocator.Live`, `Queue.Contents`, `Scheduler.sys`).
A step that a heap may take in more than one way, because the comparators leave ties open, is a relation.
`Sys.phase` says whether the scheduler's loop still has to look at the current clock reading. One run step is
atomic: the clock goes up by one, the shared remaining time of the signalled process goes down by one, and a
completion is delivered before the loop reads the clock again.

Assumed of the surroundings: process ids are distinct and not -1, requests are at least one byte and at most 2^30
(so that the rounding loop stays inside a 32-bit int), the memory size is a power of two, pids are positive and no
two processes share one, execution times are at least 1, `quantum` is positive, and fewer than 1024 processes are
ready at once under HPF and SRTN. `allocate_memory` and the `update_id` after it are one admission, as both callers
make them. An exit is seen before the generator serves the waiting queue in the next tick.

## What the proofs show about the code

- **The usage check of the allocator looks only at two spines.** `get_used_space` walks the left children of the left
  child and the right children of the right child. A live block in the interior is not seen, and a larger block can
  be placed over it: two requests of 64 bytes, an exit of the first, and a request of 256 bytes do so
  (`Overlaps.SpineCheckMissesInnerBlock`; inside the limits of README.md:124). Over a run of the tree live blocks stay
  disjoint exactly when no request meets an *interior hit*, a live block inside the lowest candidate whose two ends are
  clear (`TreeSafeIff`), and exactly then the run goes through the states of one that counts the whole subtree
  (`TreeFollowsIff`). A set of request sizes is safe for every run if and only if any two of them that fit round to
  the same or to adjacent powers of two (`SizesSafeIff`). A refusal is always justified.
- **An exit can then take away another process's block.** Merging makes a block whole by dropping everything below it.
  On 1024 bytes: requests of 64, 64 and 256 bytes by processes 1, 2 and 3, exits of 3 and 1, a request of 256 by 4,
  placed over the block of 2, and the exit of 4, which merges with the free half beside it and drops the block of 2
  (`ExitCostsAnotherBlock`, for any two sizes two powers apart of which the larger fits into half of the memory).
  `Deallocate` removes exactly the block of the pid if and only if no other live block lies below the block that
  merging makes whole; without overlaps that is always so. No run of requests of given sizes ever loses a block if and
  only if those that fit into half of the memory round to at most twice any other (`SizesHarmlessIff`). In the whole
  system the owners of memory are the processes admitted and not yet reaped, at every step so far, if and only if every
  exit so far was of that kind (`OwnersAreHoldersIff`), and for every run of every input file with given sizes if and
  only if the sizes meet the condition above (`JobSizesDecideOwners`); `LostBlock` is a run under HPF in which a ready
  process ends up owning nothing.
- **An exit can also change what comes after it without anyone noticing.** Two runs can lead to the same live blocks
  and then be answered differently, because one tree remembers a split the other never made
  (`SameLiveOtherAnswers`). Trees with the same live blocks answer alike while exits remove only their own blocks
  (`TwoTreesAgree`), and so whenever first fit on those blocks never overlaps (`SafeTreesAgree`).
- **A completion costs a tick.** `handle_process_completion` sets `clockValue` to the clock, so the loop skips
  `run_algorithm` at that tick unless a message has arrived since (src/scheduler.log:8-9 shows such a gap). The
  bound on waiting under round robin is (k + 1) * quantum scheduling rounds, and (k + 1) * (quantum + 1) ticks.
- **SRTN reads a stale clock.** `receive_new_process` runs the algorithm before `clockValue` is refreshed, so a process
  that preempts on arrival is started a tick too early, and the one it displaces is stamped a tick too early. A process
  dispatched by the completion handler is not signalled until the next tick. The recorded wait equals the accumulated
  one under HPF and RR. Under SRTN it does not: with processes of 3 and 1 ticks arriving at 0 and 1 the second records
  a wait of 0 and its control block says -1 (`WaitsDiffer`). The two agree exactly when the process was preempted as
  often as it displaced another on arrival (at most once) and was handed the processor by a completion handler (at
  most once). Over all processes the recorded waits exceed the accumulated ones by the number of hand-overs.
- **The scheduler's loop never exits early.** Whenever its exit test passes in a run of the system, every process of the
  input file has finished exactly once (`ExitMeansDrained`), and it passes by the last arrival plus twice the total
  execution time (`DrainedByDeadline`).
- **The policies do what they are named for, on the numbers of the input file.** Every copy of a process keeps its row
  (`CopiesAreTrue`). Under HPF the processor only ever goes to a process of least priority number among those sent and
  unfinished, which then keeps it to the end (`SystemHpf`, `SystemHpfKeeps`). Under SRTN a shortest process is current
  at every step (`SystemPreemptions`). Under RR nobody loses the processor before a whole quantum (`SystemRrFullQuantum`).
- The tie-break by process id of README.md:125 is not in the comparators (src/DS/comparators.c:4-15); nothing is
  proved about ties.

## Model

| member | source | states |
|---|---|---|
| BuddyAllocator.HighestPowerOf2 | src/memory_manager.c:57-62 | the loop returns the least power of two that holds the request, without overflow up to 2^30 |
| BuddyAllocator.Allocator.constructor | src/memory_manager.c:3-17 | one free root block of the given size; nothing is live |
| BuddyAllocator.Allocator.GetUsedSpace | src/memory_manager.c:35-55 | the two loops return the bytes live on the two outer spines of the live set, whatever blocks have been created |
| BuddyAllocator.Allocator.Traverse | src/memory_manager.c:64-87 | the search that creates children as it goes returns the position the abstract search finds, and adds exactly the blocks that search visits, free (which ones these are: `SplitsAndMerges.VisitedExactly`) |
| BuddyAllocator.Allocator.IsInSubtree | src/memory_manager.c:127-131 | pointer search below a node succeeds exactly when the interval lies inside the node's |
| BuddyAllocator.Allocator.GetBlockAddress | src/memory_manager.c:89-125 | terminates and returns the first and last address of the block's interval, and -1, -1 for a block that is not in the tree |
| BuddyAllocator.Allocator.GetSegment | src/memory_manager.c:162-173 | finds a block with the id or pid below the node, or there is none |
| BuddyAllocator.Allocator.Allocate | src/memory_manager.c:133-160 | marks the block first fit chooses, or refuses; the blocks of the tree afterwards are those before and exactly those split off on the way; until update_id the live set is unchanged |
| BuddyAllocator.Allocator.UpdateId | src/memory_manager.c:175-181 | the block that carries the id, if any, gets the pid and nothing else changes; an unknown id changes nothing |
| BuddyAllocator.Allocator.Admit | src/process_generator.c:160-162 | allocate_memory and update_id together add one live block at the first-fit address, or none; the tree changes as one request does |
| BuddyAllocator.Allocator.MergeBuddyBlocks | src/memory_manager.c:183-204 | the recursion over pointers leaves what level-by-level merging leaves (how far that goes: `SplitsAndMerges.MergedAsFarAsPossible`) |
| BuddyAllocator.Allocator.Deallocate | src/memory_manager.c:206-226 | succeeds exactly for a known pid, reports its interval, merges as far as it can and no further, and removes exactly its block if and only if no other live block lies below the block made whole; always so without overlaps |
| BlockCells.MergedInOneCut | src/memory_manager.c:191-202 | however many levels merge, the effect is to drop everything below one block, or nothing |
| BlockCells.MergeLosesNothingIff | src/memory_manager.c:191-202 | merging keeps the live set exactly when nothing live lies strictly below the block it makes whole |
| BlockCells.FreeingLosesNothingIff | src/memory_manager.c:220-223 | the same for clearing a pid's block and then merging |
| BlockCells.CoveredBlockIsLost | src/memory_manager.c:191-202 | a live block inside a freed one whose buddy is a free leaf is dropped |
| CellRuns.VisitedUpTo | src/memory_manager.c:64-87 | a search that succeeds creates nothing to the right of the block it grants and nothing below it |
| SplitsAndMerges.VisitedExactly | src/memory_manager.c:64-87 | the search creates both halves of every block large enough that no live block covers, up to what it finds, and nothing else |
| SplitsAndMerges.RequestLeaves | src/memory_manager.c:64-160 | block by block, what a request leaves: the blocks there were, unchanged, those split off, free, and the one found, marked |
| SplitsAndMerges.MergedAsFarAsPossible | src/memory_manager.c:191-202 | the highest block made whole is the whole memory or has no free leaf beside it that is left |
| SplitsAndMerges.MergedNoFurther | src/memory_manager.c:191-202 | every block merged on the way had a free leaf as buddy |
| SplitsAndMerges.ExitLeaves | src/memory_manager.c:206-226 | what an exit leaves is exactly the one set of blocks in which the freed block has been merged as far as possible and no further |
| CellRuns.SafeCoversNothing | src/memory_manager.c:183-226 | while live blocks are disjoint an exit removes only its own, for every tree of blocks |
| CellRuns.ExitedBooks | src/memory_manager.c:206-226 | an exit keeps ids and pids unique, never adds or moves a block, and removes exactly its own if and only if nothing is covered |
| CellRuns.RunKeepsTree | src/memory_manager.c:64-226 | over every run, overlapping or not, the blocks form a tree inside the root, an id or pid names at most one of them, and each live block is the least power of two that holds its bytes |
| CellRuns.DistinctNamesAreProper | src/memory_manager.c:64-226 | a run in which no id and no pid is asked for twice is one the theorems about runs speak of |
| CellRuns.TreeSafeFromLive | src/memory_manager.c:64-226 | whether live blocks stay disjoint over a run of the tree is decided by the live blocks at its start |
| CellRuns.TreeSafeIff | src/memory_manager.c:64-226 | live blocks stay disjoint over a run of the tree exactly when no request of it meets an interior hit |
| CellRuns.TreeHiddenIff | src/memory_manager.c:64-226 | over every run the live blocks are those of first fit on the live blocks alone exactly when every exit removes only its own block |
| Representation.Replay | src/memory_manager.c:64-226 | over any run, overlapping or not, the pointer code gives the answers and leaves the blocks that the functions on what the blocks record give |
| Representation.TwoTreesAgree | src/memory_manager.c:64-226 | two trees that show the same live blocks, however split or merged, answer a run alike and show the same live blocks after it, if its exits remove only their own blocks in both |
| Representation.SafeTreesAgree | src/memory_manager.c:64-226 | so they do whenever first fit on the common live blocks never overlaps |
| Representation.SameLiveOtherAnswers | src/memory_manager.c:64-226 | the condition is needed: two runs from empty memory lead to the same live blocks, and the same two exits are then answered differently |
| Blocks.CeilLog | src/memory_manager.c:57-62 | the exponent is least: the power holds the request and half of it does not |
| Blocks.NestedOrDisjoint | src/memory_manager.c:89-131 | two block intervals are nested or disjoint, and nested exactly when one position lies below the other |
| FirstFit.UsedSpaceZero | src/memory_manager.c:35-55 | the spine sum is zero exactly when no live block inside touches an end of the candidate |
| FirstFit.FindIsFirstFit | src/memory_manager.c:64-87 | the search returns the lowest block with clear ends, and fails only when there is none |
| FirstFit.RefusesOnlyWhenNothingFits | src/memory_manager.c:64-87 | a refusal means no free aligned interval of the rounded size exists, for every well-formed live set |
| FirstFit.GrantIsLowestFreeIff | src/memory_manager.c:64-87 | the granted block is free and the lowest free one exactly when there is no interior hit |
| FirstFit.AdmitSafeIff | src/memory_manager.c:133-160 | an admission keeps live blocks disjoint exactly when there is no interior hit |
| FirstFit.HalfSizedNeighboursAreSafe | src/memory_manager.c:35-55 | no interior hit when every live block is at least half the rounded request |
| SafeSizes.SizesSafeIff | src/memory_manager.c:64-226 | a set of request sizes never makes blocks overlap, over any run of the tree from empty memory, exactly when any two that fit round to the same or adjacent powers of two |
| SafeSizes.SizesHarmlessIff | src/memory_manager.c:64-226 | and never lets an exit take away another process's block exactly when those that fit into half of the memory round to at most twice any other |
| Overlaps.SizesApartOverlap | src/memory_manager.c:35-226 | a run of the tree from empty memory, two requests of one size, an exit and a request at least two powers larger, leaves one live block inside another, for all such sizes that fit |
| Overlaps.SpineCheckMissesInnerBlock | src/memory_manager.c:35-226 | within the documented limits: 64, 64, exit, 256 on 1024 bytes |
| Overlaps.ExitCostsAnotherBlock | src/memory_manager.c:183-226 | a run from empty memory whose last exit drops the block of a process that has not exited, for any two sizes two powers apart of which the larger fits into half of the memory |
| Overlaps.ExitCostsAnotherBlockHere | src/memory_manager.c:183-226 | within the documented limits: sizes 64 and 256 on 1024 bytes |
| FirstFit.RefusalIsMonotone | src/process_generator.c:362-378 | a request that failed keeps failing while blocks are only added |
| FirstFit.EmptyGrantsAtZero | src/memory_manager.c:64-87 | with nothing live any request up to the memory size is placed at address 0 |
| FirstFit.CapacityBound | src/memory_manager.c:57-87 | disjoint live blocks sum to at most the memory size, and to less than twice the bytes asked for |
| WholeSubtree.FindFreeIsFirstFit | src/memory_manager.c:64-87 | with the whole subtree counted the search is lowest-free-interval first fit, without condition |
| WholeSubtree.SpinesSufficeIff | src/memory_manager.c:35-87 | the search as written and the one counting the whole subtree agree exactly when there is no interior hit |
| WholeSubtree.RunFreeSafe | src/memory_manager.c:64-226 | with the whole subtree counted no run ever overlaps |
| WholeSubtree.TreeFollowsIff | src/memory_manager.c:64-226 | a run of the tree goes through the very states of the run that counts the whole subtree exactly when no request of it meets an interior hit |
| PcbQueue.Queue.Resize | src/DS/Queue.c:35-49 | growing keeps the contents in order |
| PcbQueue.Queue.Enqueue | src/DS/Queue.c:51-67 | appends at the end, growing when full |
| PcbQueue.Queue.Dequeue | src/DS/Queue.c:90-100 | drops the oldest entry, or does nothing when empty |
| HeapOrder.RootIsLeast | src/DS/minHeap.c:112-129 | in a heap the root is least |
| HeapOrder.ChangedEntryLeavesHole | src/DS/minHeap.c:132-145 | one changed key leaves everything in order around it |
| ReadyHeap.Heap.HeapifyUp | src/DS/minHeap.c:46-53 | after an arbitrary change at i, either order is restored or only the part below i is still open; entries are permuted |
| ReadyHeap.Heap.HeapifyDown | src/DS/minHeap.c:23-43 | restores heap order below i; entries are permuted |
| ReadyHeap.Heap.Insert | src/DS/minHeap.c:95-109 | keeps heap order and adds one pointer; a full heap drops it |
| ReadyHeap.Heap.ExtractMin | src/DS/minHeap.c:112-129 | returns a pointer least under the comparator and removes exactly it, keeping heap order |
| ReadyHeap.Heap.UpdateProcess | src/DS/minHeap.c:132-145 | heapify_up then heapify_down restores the heap after the key of one pid changed either way |
| ArrivalQueue.PriorityQueue.Resize | src/DS/priorityQueue.c:24-30 | growing keeps the contents |
| ArrivalQueue.PriorityQueue.Push | src/DS/priorityQueue.c:43-59 | the hole-based sift keeps heap order and adds one entry |
| ArrivalQueue.PriorityQueue.Top | src/DS/priorityQueue.c:61-63 | the top is least under the comparator |
| ArrivalQueue.PriorityQueue.Pop | src/DS/priorityQueue.c:65-91 | removes exactly the top, keeping heap order |
| SchedulerInvariant.PlacedOnce | src/scheduler.c:275-313 | nobody is ready, current and finished more than once; process_count is the sum of the three |
| SchedulerInvariant.ArriveInv | src/scheduler.c:275-345 | an arrival, with the SRTN call inside receive_new_process, keeps places, time accounts and clock relations |
| SchedulerInvariant.SchedTickInv | src/scheduler.c:113-134 | so does the tick's work, skipped or not |
| SchedulerInvariant.RunTickInv | src/scheduler.c:507-550 | so does a run step, a stall and a completion with its dispatch |
| SchedulerInvariant.RunInv | src/scheduler.c:100-138 | so does every run |
| SchedulerTheorems.EveryProcessInOnePlace | src/scheduler.c:275-550 | at every point of every run each arrived process is ready, current or finished, exactly once |
| SchedulerChoices.IdleTakesUp | src/scheduler.c:113-134 | the tick's work, when not skipped, takes an idle processor up with a ready process if there is one, and signals it |
| SchedulerChoices.ArrivalsAreTakenUp | src/scheduler.c:331-345 | messages that find the processor idle are acted on in the same tick, also right after a completion |
| SchedulerChoices.HpfDispatchesBest | src/scheduler.c:269-273 | under HPF the process dispatched has the least priority number of all that are ready |
| SchedulerChoices.HpfKeepsRunning | src/scheduler.c:269-273 | and keeps the processor until it has finished, through every step |
| SchedulerChoices.HandOverIff | src/scheduler.c:547-549 | a completion hands the processor over exactly under SRTN, when the generator is done and a process is ready |
| SchedulerChoices.HandOver | src/scheduler.c:431-505 | to a process with the least remaining time, started or resumed on the new clock, but not signalled in that tick |
| SchedulerChoices.HandOverHappens | src/scheduler.c:507-550 | a run in which it happens: two processes of 1 and 3 ticks, the second started at clock 1 with a wait of 1 |
| SchedulerChoices.RrGivesWayIff | src/scheduler.c:242-253 | in a tick under RR the current process goes to the end of the queue, and its front becomes current, exactly when the slice is used up and somebody waits |
| SchedulerChoices.RrFullQuantum | src/scheduler.c:242-253 | over every run, whoever loses the processor to another has run for at least a quantum since it got it |
| SchedulerChoices.DispatchStamps | src/scheduler.c:359-409 | a dispatch in a tick sets the start on the first one, and the wait to the time since arrival or adds the time since the last preemption |
| SchedulerChoices.PreemptionStamps | src/scheduler.c:411-429 | the process that gives way is ready, stamped with the clock, its remaining time brought up to date |
| SchedulerChoices.TickRefreshes | src/scheduler.c:128-131 | after the tick's work the current process shows its true remaining time |
| SchedulerChoices.CompletionRecords | src/scheduler.c:507-531 | a process completes exactly in the run step that uses up its last unit, with the turnaround up to the end of that tick and the wait that leaves |
| SchedulerTheorems.SrtnRestoresOrder | src/scheduler.c:255-267 | after run_SRTN_Algorithm the current process is shortest; it preempts only for a strictly shorter ready process |
| SchedulerTheorems.PreemptionBound | src/scheduler.c:255-267 | over every run the current process is a shortest one; SRTN preempts at most once per arrival, HPF never |
| SchedulerTheorems.OnlyArrivalsPreempt | src/scheduler.c:331-345 | under SRTN only a message preempts, only for the process it carries, which is strictly shorter |
| SchedulerTheorems.ArrivalPreempts | src/scheduler.c:338-340 | that process is started on the clock of the tick before, its wait being one too small |
| SchedulerWaiting.NextCounted | src/scheduler.c:331-550 | every SRTN step changes the three clock errors of each process by exactly its events in that step: displacing another on arrival, being preempted, being handed the processor; and a preemption is one of each of the first two |
| SchedulerWaiting.RecordedWait | src/scheduler.c:507-531 | the recorded wait, turnaround less execution time, is the accumulated waiting_time under HPF and RR; under SRTN they differ by the times the process displaced another, was handed the processor (each at most once) and was preempted, and agree exactly when these balance |
| SchedulerWaiting.WaitsDiffer | src/scheduler.c:331-390 | a run under SRTN in which a process records a wait of 0 while its control block holds -1 |
| SchedulerWaiting.TotalWaits | src/scheduler.c:145-175 | when the loop exits under SRTN the recorded waits sum to the accumulated ones plus the number of processes a completion handler dispatched |
| SchedulerUtilisation.UtilisationAtMostOne | src/scheduler.c:140-143 | when the loop exits all have finished, active_cpu_time is the sum of all execution times and at most clockValue - start_time |
| RoundRobin.WaitingMovesUp | src/scheduler.c:242-253 | while a process waits its index never grows and its deadline never moves back |
| RoundRobin.BoundedWaiting | src/scheduler.c:242-253 | a process at index k becomes current within (k + 1) * (quantum + 1) ticks, whatever else happens |
| RoundRobin.BoundedRounds | src/scheduler.c:242-253 | and within (k + 1) * quantum ticks in which run_algorithm runs, from any point of a tick on |
| RoundRobin.CompletionSkipsARound | src/scheduler.c:507-508 | a completion without a new message leaves the processor idle for a tick |
| SchedulerWork.PolicyWork | src/scheduler.c:347-357 | choosing a process changes no remaining time and no identity |
| SchedulerWork.AdvanceWork | src/process.c:60-102 | a run step charges one tick to the signalled process alone, and only that process may finish |
| Scheduler.LabelsFollow | src/DS/minHeap.c:15-53 | permuting the pointers of the heap permutes the ids they show |
| Scheduler.PolicyUpToOrder | src/scheduler.c:255-267 | what SRTN may choose does not depend on the order inside the heap |
| Scheduler.Scheduler.constructor | src/scheduler.c:57-98 | the globals at the start of the loop are an initial state |
| Scheduler.Scheduler.UpdateRemainingTime | src/scheduler.c:232-240 | copies the shared remaining time into the control block |
| Scheduler.Scheduler.StartProcess | src/scheduler.c:359-390 | sets start and wait from clockValue, counts the execution time once, opens a slice |
| Scheduler.Scheduler.ResumeProcess | src/scheduler.c:392-409 | adds the time since the last preemption to the wait, opens a slice |
| Scheduler.Scheduler.PreemptProcess | src/scheduler.c:411-429 | refreshes the remaining time and stamps the preemption |
| Scheduler.Scheduler.MakeCurrent | src/scheduler.c:485-504 | dispatches the process taken, as the state machine does, without disturbing the heap |
| Scheduler.Scheduler.PutBack | src/scheduler.c:440-448 | preempts the current process and requeues it, the ready heap staying ordered although the pointer's key changed |
| Scheduler.Scheduler.ContextSwitching | src/scheduler.c:431-505 | is a context switch of the state machine, for both ready structures |
| Scheduler.Scheduler.RootDecides | src/scheduler.c:260-266 | comparing with the heap root decides whether any ready process is shorter |
| Scheduler.Scheduler.RunHpf | src/scheduler.c:269-273 | dispatches only when idle, and then as the state machine does (by priority: `SchedulerChoices.HpfDispatchesBest`) |
| Scheduler.Scheduler.RunSrtn | src/scheduler.c:255-267 | is the SRTN step |
| Scheduler.Scheduler.RunRr | src/scheduler.c:242-253 | is the round robin step |
| Scheduler.Scheduler.HandleArrival | src/scheduler.c:275-313 | counts the process and adds it to the ready structure with fresh fields |
| Scheduler.Scheduler.ReceiveProcess | src/scheduler.c:336-344 | one message is one arrival of the state machine |
| Scheduler.Scheduler.ReceiveNewProcess | src/scheduler.c:331-345 | the loop makes one arrival per message, in order |
| Scheduler.Scheduler.Tick | src/scheduler.c:111-134 | one pass of the main loop is the tick step, skipped when clockValue shows the clock |
| Scheduler.Scheduler.HandleCompletion | src/scheduler.c:507-550 | is the completion step (`SchedulerChoices.HandOver` and `CompletionRecords` say what that does); without a current process only clockValue is refreshed |
| Scheduler.Scheduler.Advance | src/process.c:54-102 | the signalled process uses its tick and completes when nothing remains |
| Scheduler.Scheduler.GeneratorFinished | src/scheduler.c:227-230 | the handler of SIGUSR1 makes that step of the state machine |
| Scheduler.Scheduler.Finished | src/scheduler.c:100-106 | the exit test of the main loop, on the concrete structures |
| Admission.OfferAllDeals | src/process_generator.c:354-385 | the processes offered are the sent and the left interleaved, both in their order |
| Admission.DealtKeepsAll | src/process_generator.c:354-385 | no process is lost or duplicated |
| Admission.DealtKeepsOrder | src/process_generator.c:354-385 | those left keep their relative order and are unchanged |
| Admission.NobodyLeftFits | src/process_generator.c:354-385 | nobody left would fit in the final memory state |
| Admission.StuckMeansOccupied | src/process_generator.c:354-385 | a line that is refused as a whole means some block is live |
| ProcessGenerator.Generator.ReadProcesses | src/process_generator.c:267-290 | the arrival heap holds the jobs read, each as often as it was read |
| ProcessGenerator.Generator.Admit | src/process_generator.c:160-182 | on success exactly one block and one message are added, the message carrying the pid |
| ProcessGenerator.Generator.ServeWaitingQueue | src/process_generator.c:354-385 | both loops together offer everyone once, in order, and line the refused up again |
| ProcessGenerator.Generator.ReleaseArrivals | src/process_generator.c:120-188 | releases exactly the processes with arrival time up to now, in nondecreasing order of arrival, each sent or lined up (with its fields: `SimulationTheorems.CopiesAreTrue`) |
| ProcessGenerator.Generator.Reap | src/process_generator.c:292-309 | an exit leaves the tree that the exit of its pid leaves, and gives back exactly its memory if and only if no other live block lies below the block made whole |
| ProcessGenerator.Generator.NoMoreProcesses | src/process_generator.c:194 | the test before SIGUSR1: nothing is left to arrive or waiting |
| SimulationInvariant.StepKeeps | src/process_generator.c:114-202 | every step of the composed system keeps jobs in one place, copies true to the input, memory with its holders |
| SimulationLoops.ServingIsAPath | src/process_generator.c:354-385 | what serve_waiting_queue computes is reached by steps of the composed system |
| SimulationLoops.ReleasePath | src/process_generator.c:120-188 | so is what the release loop computes for the jobs due, in order of arrival |
| SimulationLoops.TickIsAPath | src/process_generator.c:114-191 | and the work of a whole tick: serve, release, receive every message, schedule |
| SimulationTheorems.EachJobInOnePlace | src/process_generator.c:120-188 | at every step each input process is in exactly one of arrival heap, waiting line, message queue, ready structure, processor, finished |
| SimulationTheorems.CopiesAreTrue | src/process_generator.c:123-131 | at every step every copy of a process, waiting, sent or with the scheduler, has the arrival, execution time, priority and memory size of the input file, and the pid its process was given |
| JobSizes.BlocksAreTrue | src/process_generator.c:160-162 | at every step every live block is recorded for the memory size and the pid of the process whose id it carries |
| SimulationTheorems.OnlyHoldersOwnMemory | src/process_generator.c:292-309 | every live block belongs to a process admitted and not yet known to have exited, one block each |
| SimulationTheorems.ReapOwnsIff | src/process_generator.c:292-309 | seeing an exit leaves every process admitted and not yet reaped its block exactly when the exit removes only its own |
| SimulationTheorems.OwnersAreHoldersIff | src/process_generator.c:292-309 | over every run the owners of memory have been exactly the processes admitted and not yet reaped, at every step so far, if and only if every exit so far removed only its own block |
| SimulationTheorems.OwnersAreHolders | src/process_generator.c:292-309 | so it is as long as blocks have not overlapped |
| JobSizes.SimilarJobsNeverOverlap | src/process_generator.c:114-309 | if any two sizes of the input file that fit round to the same or adjacent powers of two, live blocks never overlap in any run of the system |
| JobSizes.JobSizesDecideOwners | src/process_generator.c:114-309 | memory is owned by exactly the processes admitted and not yet reaped, at every point of every run of every input file with given sizes, exactly when those that fit into half of the memory round to at most twice any other |
| LostBlock.AdmittedProcessLosesItsBlock | src/process_generator.c:114-309 | a run of the whole system under HPF after which a ready process that has yet to run owns no memory, for any two sizes two powers apart of which the larger fits into half of the memory |
| SimulationTheorems.NobodyWaitingFits | src/process_generator.c:117-188 | after the line was served nobody waiting would fit, until an exit is seen |
| SystemRuns.SchedulerRun | src/scheduler.c:100-138 | the scheduler's states behind any number of steps of the system are a run of the scheduler machine from an initial state, each step of the system matched by none, one, or SIGUSR1 and one |
| SystemRuns.SchedulerRunBetween | src/scheduler.c:100-138 | between any two points of a run of the system the scheduler makes a run of its own |
| SystemRuns.ExitMeansDrained | src/scheduler.c:100-106 | the scheduler's loop exits only when every process of the input has finished exactly once |
| SystemRuns.SystemUtilisation | src/scheduler.c:140-143 | when the loop exits active_cpu_time is the total execution time of the input and at most the time since the first start |
| SystemRuns.SystemWaits | src/scheduler.c:507-531 | every record, at any point of a run of the system, is of an input process, with its execution time; under HPF and RR its wait is the accumulated one, under SRTN the two differ by the events the run of the system shows |
| SystemRuns.SystemTotalWaits | src/scheduler.c:145-151 | when the loop exits under SRTN the recorded waits sum to the accumulated ones plus the number of hand-overs in that run of the system |
| SystemRuns.SystemPreemptions | src/scheduler.c:255-267 | at every step of every system run a shortest process is current under SRTN, which preempts at most once per input process; HPF never preempts |
| SystemRuns.SystemBoundedWaiting | src/scheduler.c:242-253 | from any point of a run of the system under round robin a process at index k becomes current within (k + 1) * (quantum + 1) ticks |
| SystemRuns.SystemBoundedRounds | src/scheduler.c:242-253 | and within (k + 1) * quantum ticks in which run_algorithm runs |
| SystemChoices.SystemHpf | src/scheduler.c:269-273 | in every run of the system under HPF, whenever the processor goes to a process, that has the least priority number in the input file of all processes the scheduler has been sent and that have not finished |
| SystemChoices.SystemHpfKeeps | src/scheduler.c:269-273 | and it keeps the processor until it has finished |
| SystemChoices.SystemHandOver | src/scheduler.c:547-549 | in every run of the system under SRTN, once nothing is left to arrive or to be admitted, the last run step of a process hands the processor to a ready one with the least remaining time, on the new clock |
| SystemChoices.SystemRrFullQuantum | src/scheduler.c:242-253 | in every run of the system under RR, a process that loses the processor to another has run for at least a quantum since it got it |
| SystemRuns.DrainedEnd | src/process_generator.c:114-202 | from every start there is a run of the system that drains |
| System.PathKeeps | src/process_generator.c:114-202 | whatever path the objects take, what every step keeps holds at its end |
| System.Generate | src/process_generator.c:119-188 | the generator's turn, on objects that show a state of the system, leaves objects that show the state its path leads to, and touches nothing else |
| System.OneTick | src/process_generator.c:114-202 | a tick of both programs goes along a path of the system and leaves objects that show its end, the clock one further and at most one exit pending |
| System.ReapExit | src/process_generator.c:292-309 | the handler's work on the objects is the step of the system that reaps the exit |
| System.Simulate | src/scheduler.c:100-138 | the main loops, from objects that show any start, end and have made a run of the system that has drained |
| System.Program | src/process_generator.c:47-204 | the whole program, from the jobs of the input file: it ends, has made a run of the system that has drained, and reports one turnaround and one wait per process and the total execution time as active_cpu_time |
| Progress.CanTake | src/scheduler.c:450-483 | a non-empty ready structure always yields a process |
| Progress.NeverStuck | src/process_generator.c:114-202 | no reachable state of the system is stuck |
| Drain.IdleMeansFinished | src/process_generator.c:354-385 | after the last arrival the scheduler is only idle when every process has finished |
| Drain.StepDeadline | src/scheduler.c:100-138 | clock, remaining time and pending idle tick combine to a deadline that no step moves back |
| Drain.DrainedByDeadline | src/process_generator.c:114-202 | once the clock is past the last arrival plus twice the total execution time, every process has finished exactly once and the scheduler's loop exits |
| Drain.EveryRunDrains | src/process_generator.c:114-202 | every run longer than an explicit number of steps has drained, under each policy |

## Left out

- The physical release of dropped children and of copied control blocks, and `malloc` failure: only what is reachable is modelled.
- Which of several blocks `get_Process_Memory_Segment` would find first: ids and pids name at most one.
- A completion that reaches the scheduler after it has read the clock of the tick: it would save the idle tick.
- fork, exec, signals, shared memory, message queues, semaphores and sleeping: replaced by atomic steps. A handler that interrupts `context_switching`, and a SIGUSR1 that overtakes a message, are outside the model.
- The recovery branches for a non-positive `sync_semid`: the generator only sends positive ones (src/process_generator.c:133-148).
- The fixed arrays for 100 finished processes: sequences without a bound.
- Weighted turnaround, averages and standard deviation: floating point.
- Log files, progress bars, argument and input parsing, `clk.c`, `semaphores.c`, `logger.c`: input and output.
- The `find_` lookups, printing and freeing functions of the data structures.
