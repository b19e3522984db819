# F-Order: a verified model of its runtime and its benchmarks

F-Order is a Cilk Plus runtime with suspendable deques and futures, together with the divide-and-conquer
programs that are run on it. This project models the parts of both that are hard to get right and proves what
the code and its comments promise of them.

* **The THE protocol** (`the_protocol.dfy`). One worker's deque of frames and the deque of future fibers beside
  it, as a state machine whose steps are the single loads and stores of the owner and of any number of thieves.
  The owner's slow path and its restart are those of `scheduler.c`. An inductive invariant gives exactly-once
  claiming, the lock-step of the two deques, safety of the unlocked pops and absence of deadlock over every run.
* **Suspending and resuming deques** (`suspend_resume.dfy`, `deque_pool.dfy`). The life of one deque between the
  worker that suspends it, the one that makes it resumable, and the thieves that drain or mug it, as a state
  machine; and the pools of deques as a class with in-place vectors and back-pointers.
* **Multisort** (`sorting.dfy`, `cilksort.dfy`, `quick_tasks.dfy`, `sort_tasks.dfy`, `sort_futures.dfy`). The sort on
  arrays, with the three sizes as parameters, proved against the one sorted arrangement of the input; the same
  recursion as tasks that any schedule may interleave, loop turn by loop turn; and with its futures' handles.
* **Matrix multiplication** (`morton.dfy`, `block_layout.dfy`, `matrices.dfy`, `base_case.dfy`, `z_multiply.dfy`,
  `strassen.dfy`, `matmul.dfy`, `matmul_rm.dfy`, `row_major_tasks.dfy`, `matrix_tasks.dfy`, `matrix_futures.dfy`,
  `strassen_tasks.dfy`, `strassen_futures.dfy`). The Z-order layout, the unrolled base case with walking pointers,
  divide and conquer, Strassen-Winograd with products stored in the output, the row-major version with strides; all
  of these as parallel tasks, and those that use futures with their handles.
* **Schedules** (`fork_join.dfy`, `futures.dfy`). What the tasks share: a fork-join program whose parallel parts do
  not conflict has the serial result and the serial number of steps under every interleaving; and a program that
  creates any number of futures and waits for their handles refines such a fork-join program.
* **Accounting, splitting, merging** (`fiber_pool.dfy`, `cilk_for.dfy`, `exceptions.dfy`). Fiber pools and their
  counters, range splitting of `cilk_for`, and merging of pending exceptions.

Methods work on arrays and fields where the source does; what they compute is stated by functions, and the laws
are lemmas about these.

Where the code and its comments disagree the model follows the code:

* `deque.c` lines 53-84 say H <= T; the owner's decrement can go one below, even below the start of the buffer
  (`HeadCanPassTail`, `TailCanPassStart`, `HeadExcTail`).
* A new future's fiber is stored before `__cilkrts_detach` asserts that there is room for its frame, so the store
  can run past the end of the fiber buffer (`FiberStoreCanOverrun`). An exception that returns to a stolen parent
  leaves the fiber deque uncleared, and then the store can run past the end beside a nearly empty frame deque
  (`FiberStoreCanOverrunEarly`; the exact condition is `FiberStoreInRange`).
* `binsplit`'s comment asks for a cut right of equal elements; the code cuts to their left (`BinSplit`).
* `MATMUL_THRESH` is said to be 64x64; it is 16 times the base case.
* `except-gcc.cpp` says that an active exception excludes a rethrow request; merging can bring both together
  (`NotAlwaysExclusive`, `WhenExclusive`).
* `cilk_for_recursive` relies on grain >= 1, which `grainsize` does not guarantee for counts at the end of their
  type's range (`GrainIsPositive`, `LoopEnds`).
* `random_steal` asserts that a drained deque is not resumable, and its last store assumes that nobody has taken
  it since; neither need be so (`DrainAssertionCanFail`, `FrameCanNameTheWrongWorker`, with the exact conditions
  beside them).
* `deallocate_self` needs a pool that can hold something (`RoomForOne`).

## Model

| member | source | states |
|---|---|---|
| `TheProtocol.EveryFrameExactlyOnce` | cilkrtssuspend/runtime/deque.c:117-227 | In every interleaving of the owner and any number of thieves, each published parent frame is, at every moment, exactly one of: popped by the owner, stolen by one thief, or in an unclaimed slot of the deque |
| `TheProtocol.NoFrameClaimedTwice` | cilkrtssuspend/runtime/cilk-abi.c:202-237 | No two claims, by pops or by steals, name the same frame, and every claim names a frame that was published |
| `TheProtocol.HeadExcTail` | cilkrtssuspend/runtime/deque.c:53-84 | With the worker lock free, E = H; always 0 <= H <= E, and E is at most one ahead of H outside the restart; H <= T except by one during the owner's pending decrement (and while it restarts an emptied deque), and T is before the buffer's start only during such a decrement on a deque emptied by thieves |
| `TheProtocol.HeadCanPassTail` | cilkrtssuspend/runtime/deque.c:53-84 | The comment's unconditional H <= T is false: a run from any initial state ends with T < H |
| `TheProtocol.TailCanPassStart` | cilkrtssuspend/runtime/cilk-abi.c:217-237 | Returning on an empty deque, as every stolen strand does in the end, puts T one before the start of the buffer |
| `TheProtocol.OldestStolenYoungestPopped` | cilkrtssuspend/runtime/deque.c:207-240 | A thief takes the oldest unclaimed frame; a pop that succeeds takes the youngest |
| `TheProtocol.FiberDequeInLockStep` | cilkrtssuspend/runtime/cilk_future_fiber_deque.cpp:15-68 | The fibers between fiber_head and fiber_tail are, in order, those of the future parents still on the frame deque, with at most one more in transit at the tail, exceptional returns and restarts included; after a lost pop both deques are empty |
| `TheProtocol.NoAccessOutOfBounds` | cilkrtssuspend/runtime/cilk_future_fiber_deque.cpp:27-68 | The claim that the unlocked pops are always safe: neither end of the fiber deque is ever popped when empty, and no access of either buffer is out of range but the store of a new fiber |
| `TheProtocol.FiberStoreInRange` | cilkrtssuspend/runtime/cilk-abi-future_utils.cpp:44-71 | That store precedes the only check for room: it is in range if and only if the place the fiber deque stood at when the current strand started, plus the number of future parents pushed since, is below the size of the buffer; without an exceptional return that place is the start |
| `TheProtocol.RoomUnlessThrown` | cilkrtssuspend/runtime/cilk_future_fiber_deque.cpp:15-22 | As long as no exception was returned to a stolen parent, the store is in range if and only if the frame deque has a free slot or an ordinary frame was pushed since the last restart |
| `TheProtocol.FiberStoreCanOverrun` | cilkrtssuspend/runtime/cilk_future_fiber_deque.cpp:15-22 | For every size of the buffers a run of nested futures that stores one fiber past the end |
| `TheProtocol.FiberStoreCanOverrunEarly` | cilkrtssuspend/runtime/scheduler.c:2624-2642 | An exception returned to a stolen parent leaves the fiber deque where it is: for every size from two on a run that stores a fiber past the end with only one frame on the frame deque |
| `TheProtocol.PopReturnsTheRunningFiber` | cilkrtssuspend/runtime/cilk-abi-future_utils.cpp:22-42 | The fiber popped from the tail when a future returns is the one the future ran on, and the worker is then back on the fiber it was spawned from |
| `TheProtocol.EachStolenFutureGetsItsFiber` | cilkrtssuspend/runtime/deque.c:289-308 | The thieves hand out exactly the fibers of the future parents they stole, in order and each once |
| `TheProtocol.NoFiberUsedTwice` | cilkrtssuspend/runtime/cilk-abi-future_utils.cpp:22-71 | No fiber is at two places at once among the owner's stack, the fibers in its hand and the worker's cache of future fibers |
| `TheProtocol.EveryFiberAccountedFor` | cilkrtssuspend/runtime/cilk-abi-future_utils.cpp:22-71 | Over any run and for every fiber: it was allocated for a future as often as it was freed because 128 were cached, plus once if it is in the cache, in the owner's hand or under an unclaimed frame, plus as often as it went to a thief |
| `TheProtocol.ReturnedFiberIsCached` | cilkrtssuspend/runtime/cilk-abi-future_utils.cpp:22-42 | At most 128 fibers are cached, and the fiber a returning future leaves is among them unless there are 128 |
| `TheProtocol.OnlyTheLockBlocks` | cilkrtssuspend/runtime/scheduler.c:2519-2621 | Owner and thieves wait for the worker lock and for nothing else: each has an enabled step in every state of every run unless it is about to take a lock that is held, or the owner has stopped |
| `TheProtocol.UserCodeIsFree` | cilkrtssuspend/runtime/cilk-abi.c:174-240 | In user code the owner may spawn (if there is room), create a future, return, or throw out of an ordinary child, whatever a thief is doing |
| `TheProtocol.LockOnlyWhenContested` | cilkrtssuspend/runtime/cilk-abi.c:217-237 | A pop goes for the lock if and only if its frame was stolen, or it is the last one and a thief has announced itself |
| `TheProtocol.ThiefTakesWhatIsThere` | cilkrtssuspend/runtime/deque.c:117-227 | At its first and its second look a thief goes on if and only if there is a frame between head and tail |
| `TheProtocol.NoDeadlock` | cilkrtssuspend/runtime/scheduler.c:2519-2621 | Whenever the owner is past user code or a thief is past idling, somebody can take a step, unless the owner overran the fiber buffer or fails the assertion of detach |
| `TheProtocol.StepKeepsInv` | cilkrtssuspend/runtime/cilk-abi-future.cpp:31-92 | Every single load or store of spawning, returning, the slow path, exceptional returns, restarting and stealing keeps the inductive invariant |
| `SuspendResume.AfterSpin` | cilkrtssuspend/runtime/deque_pool.c:89-113 | Once make_resumable's spin on the fiber ends, the suspending worker is off the deque, which is in one suspended pool, being drained, or free, and never active; no thief has mugged it |
| `SuspendResume.ResumerAsserts` | cilkrtssuspend/runtime/deque_pool.c:113-151 | The assertions of make_resumable and resume_suspended hold in every interleaving |
| `SuspendResume.OnePoolAtATime` | cilkrtssuspend/runtime/deque_pool.c:319-330 | The deque is in at most one pool of one worker, named by d->worker, of the kind its resumable flag says; its self index says pooled exactly then |
| `SuspendResume.EntersExactlyOnce` | cilkrtssuspend/runtime/deque_pool.c:89-151 | Between two runs the deque enters a resumable pool at most once, and when the resumer is done without taking it over it has entered exactly one, is flagged resumable and is there until one mugger takes it |
| `SuspendResume.PoolsChangeUnderTheirLock` | cilkrtssuspend/runtime/deque_pool.c:101-117 | A worker's pool gains or loses the deque only while that worker's lock was free to be taken, and make_resumable moves it from a worker's suspended pool to the same worker's resumable pool |
| `SuspendResume.TakerRunsIt` | cilkrtssuspend/runtime/scheduler.c:720-768 | Whoever takes the deque, out of a resumable pool or free by its resumer, is the one that runs it, and nobody else has it until it is left suspended again |
| `SuspendResume.ResumerGetsWhatItCalledFor` | cilkrtssuspend/runtime/deque_pool.c:89-151 | make_resumable ends with the deque in a resumable pool, resume_suspended with the deque running on the resumer, however drains and thieves interfere |
| `SuspendResume.OnlyLocksAndTheFiberBlock` | cilkrtssuspend/runtime/deque_pool.c:89-151 | Owner, resumer and mugger each wait for one lock at most, the last two also for the fiber to be left, and for nothing else |
| `SuspendResume.OthersAreFree` | cilkrtssuspend/runtime/deque.c:443-560 | At any time the running strand may suspend either way, with or without frames to steal; drains go on to their end; other locks are taken and released; and the deque is mugged from any worker's pool |
| `SuspendResume.MuggerAndOwnerAsserts` | cilkrtssuspend/runtime/scheduler.c:720-768 | What jump_to_suspended_fiber asserts of a deque found in a resumable pool holds, and what deque_suspend asserts of the running one |
| `SuspendResume.FiberLeftBeforeResumed` | cilkrtssuspend/runtime/cilk_fiber.cpp:859-910 | While the suspending worker is still on the deque's fiber, no mugger and no resumer can get to it |
| `SuspendResume.NeverLost` | cilkrtssuspend/runtime/deque.c:443-630 | A suspended deque is never lost: with no lock held there is always an enabled next move, and it brings the deque nearer to running |
| `SuspendResume.DrainAssertionCanFail` | cilkrtssuspend/runtime/scheduler.c:1062-1070 | The assertion !d->resumable after a drain can fail: a concrete run with the resumer passing between the drain's two stores |
| `SuspendResume.DrainAssertionHolds` | cilkrtssuspend/runtime/scheduler.c:1062-1070 | When a drain clears d->worker: whatever anybody does from there, its assertion will hold, if and only if the resumer has read d->worker already and so waits for the drain's lock |
| `SuspendResume.FrameCanNameTheWrongWorker` | cilkrtssuspend/runtime/scheduler.c:1062-1070 | A drain's last store can leave call_stack->worker naming a worker that does not run the deque |
| `SuspendResume.FrameNamesItsWorker` | cilkrtssuspend/runtime/scheduler.c:1062-1070 | When a worker takes the deque: its frame names it for as long as it keeps the deque if and only if no other worker's drain still has its store to make |
| `DequePool.Pool.Resize` | cilkrtssuspend/runtime/deque_pool.c:14-29 | A new array of the asked capacity with the same entries in the same slots |
| `DequePool.Pool.Add` | cilkrtssuspend/runtime/deque_pool.c:263-286 | Appends the deque, growing when full; afterwards every entry knows its slot, its worker and its kind |
| `DequePool.Pool.Remove` | cilkrtssuspend/runtime/deque_pool.c:288-317 | Takes the deque out by moving the last one into its slot, marks it invalid and ownerless; the index invariant is kept |
| `DequePool.WithoutDeletes` | cilkrtssuspend/runtime/deque_pool.c:288-317 | Swap-with-last is set deletion: no duplicates arise and exactly the one entry goes |
| `DequePool.NoDequeTwice` | cilkrtssuspend/runtime/deque_pool.c:319-330 | Over all pools of all workers, no deque is in two slots or two pools |
| `DequePool.AddTo` | cilkrtssuspend/runtime/deque_pool.c:263-286 | Adding to one of many pools leaves the others alone and all of them valid |
| `DequePool.RemoveFrom` | cilkrtssuspend/runtime/deque_pool.c:288-317 | Removing from one of many pools deletes exactly that deque there and leaves the others alone |
| `DequePool.MakeResumable` | cilkrtssuspend/runtime/deque_pool.c:120-151 | The locked section moves the deque from its worker's suspended pool to its resumable pool and flips the flag; all pools stay valid |
| `CilkSort.SeqPart` | benchmarks/future-bench/cilksort.cpp:104-171 | Hoare partition with a median-of-three pivot never leaves its range, permutes it, returns a cut with everything up to it <= pivot <= everything after it; the fallback its author doubts is taken exactly for a single element |
| `CilkSort.InsertionSort` | benchmarks/future-bench/cilksort.cpp:181-192 | Sorts the segment in place: sorted, a permutation, nothing else changed |
| `CilkSort.SeqQuick` | benchmarks/future-bench/cilksort.cpp:197-208 | Tail-recursive quicksort sorts the segment in place for every INSERTIONSIZE >= 1, and terminates |
| `CilkSort.SeqMerge` | benchmarks/future-bench/cilksort.cpp:210-282 | The two-speed merge writes exactly the stable merge of its two ranges, empty or not, and nothing else |
| `CilkSort.BinSplit` | benchmarks/future-bench/cilksort.cpp:292-312 | The cut lies in [low-1, high], everything up to it is <= val and everything after it >= val; the comment's stricter wording holds exactly if val <= a[low] or val does not occur |
| `CilkSort.SplitMerge` | benchmarks/future-bench/cilksort.cpp:352-372 | Splitting around the middle element of the larger range: the merge is the lower halves' merge, that element, and the upper halves' merge |
| `CilkSort.NoEmptyMerge` | benchmarks/future-bench/cilksort.cpp:338-347 | The branch for two empty ranges is unreachable from larger merges whatever the cut if and only if MERGESIZE >= 2 |
| `CilkSort.CilkMerge` | benchmarks/future-bench/cilksort.cpp:314-375 | Writes exactly the sorted merge of its two ranges to the n1 + n2 cells from lowdest, and nothing else |
| `CilkSort.CilkSort` | benchmarks/future-bench/cilksort.cpp:377-418 | For every array, size and MERGESIZE >= 2, QUICKSIZE >= 4, INSERTIONSIZE >= 1: the segment ends sorted with the same elements, nothing outside the segment and its scratch changes, and it terminates |
| `Sorting.SortedIsSortOf` | benchmarks/future-bench/cilksort.cpp:377-418 | Sorted with the same elements determines the outcome: there is one sorted arrangement |
| `Sorting.MergeIsSortOf` | benchmarks/future-bench/cilksort.cpp:210-282 | Merging two sorted sequences is sorting them together |
| `ForkJoin.StepIsSerial` | benchmarks/future-bench/cilksort.cpp:363-415 | One step of any processor anywhere in a race-free fork-join program leaves the serial result unchanged and one step nearer |
| `ForkJoin.NextRuns` | benchmarks/future-bench/cilksort.cpp:363-415 | Whatever is not behind a join can be run next, whatever else is running |
| `ForkJoin.Determinate` | benchmarks/future-bench/cilksort.cpp:363-415 | Every complete schedule of a race-free program ends with the serial memory after the serial number of steps |
| `ForkJoin.NeverLonger` | benchmarks/future-bench/cilksort.cpp:363-415 | No schedule runs for ever or gets stuck: it is over exactly after the serial number of steps |
| `SortTasks.SortIsSound` | benchmarks/future-bench/cilksort.cpp:314-418 | The tasks of cilkmerge and cilksort write only the cells they own, depend only on the cells they read, and sibling tasks never conflict |
| `SortTasks.MergeMerges` | benchmarks/future-bench/cilksort.cpp:314-375 | cilkmerge as tasks writes exactly the sorted merge from lowdest |
| `SortTasks.SortSorts` | benchmarks/future-bench/cilksort.cpp:377-418 | cilksort as tasks, run serially, sorts its array and touches only it and its scratch |
| `SortTasks.EveryScheduleSorts` | benchmarks/future-bench/cilksort.cpp:314-418 | However many processors interleave the tasks between spawn and sync, one turn of a loop at a time down to the scans of seqpart, the array ends sorted, only it and the scratch change, and every schedule completes |
| `SortTasks.SpawnedSideBySide` | benchmarks/future-bench/cilksort.cpp:363-415 | From QUICKSIZE elements on any of the four sorts can go first, after them either merge; a merge both of whose ranges exceed MERGESIZE is split, and either half can go first |
| `SortTasks.LeavesAreSmall` | benchmarks/future-bench/cilksort.cpp:314-418 | No schedule comes upon a quicksort of QUICKSIZE or more elements, an insertion sort of more than INSERTIONSIZE, or a sequential merge both of whose ranges exceed MERGESIZE |
| `QuickTasks.QuickIsSortOf` | benchmarks/future-bench/cilksort.cpp:104-208 | Turn by turn on shared memory, seqquick with seqpart and insertion_sort sorts its segment and changes nothing else; no scan leaves the segment and every cut leaves something on both sides |
| `QuickTasks.RunStays` | benchmarks/future-bench/cilksort.cpp:104-208 | Whatever memory holds, a turn writes only the segment and what it leaves to do is smaller and stays inside it |
| `Morton.ZConvertInterleaves` | benchmarks/future-bench/strassen.cpp:140-164 | The bit-twiddling on 32-bit words equals recursive bit interleaving for coordinates below 65536 |
| `Morton.Deinterleave` | benchmarks/future-bench/strassen.cpp:140-164 | Taking every other bit undoes the interleaving |
| `Morton.Reinterleave` | benchmarks/future-bench/strassen.cpp:140-164 | Every number is the interleaving of its odd and even bits |
| `Morton.InterleaveQuarter` | benchmarks/future-bench/strassen.cpp:140-164 | Coordinates below 2^k fill exactly 4^k positions and one more bit of each picks the quarter |
| `BlockLayout.BlockConvertIsIndex` | benchmarks/future-bench/strassen.cpp:167-172 | The shifts and masks compute blocks in Z order and row-major cells within a block |
| `BlockLayout.IndexInRange` | benchmarks/future-bench/strassen.cpp:167-172 | The n x n cells and no others lie below n * n |
| `BlockLayout.BlockConvertBijection` | benchmarks/future-bench/strassen.cpp:167-172 | block_convert is a bijection from [0,n) x [0,n) onto [0,n*n), with its inverse, and every offset fits an int |
| `BlockLayout.BlockConvertQuadrant` | benchmarks/future-bench/strassen.cpp:42-46 | The quadrant law the partition macro rests on: each quadrant is a contiguous quarter laid out the same way |
| `Matrices.ProductIsPlain` | benchmarks/future-bench/strassen.cpp:259-270 | The product on the layout is, entry by entry, row times column |
| `Matrices.ProductQuadrant` | benchmarks/future-bench/strassen.cpp:410-441 | Each quadrant of the product is the sum of the two quadrant products |
| `Matrices.StrassenWinograd` | benchmarks/future-bench/strassen.cpp:489-611 | The seven products of the eight sums recombine, in every cell, to the four quadrant sums |
| `BaseCase.EightColumns` | benchmarks/future-bench/strassen.cpp:352-407 | Eight unrolled columns accumulate eight dot products; the walking pointers end where the commented assertions say |
| `BaseCase.MmBase` | benchmarks/future-bench/strassen.cpp:352-407 | For n divisible by 8, C becomes the plain dot-product matrix in its n * n cells and nothing else changes |
| `BaseCase.MmAdditiveBase` | benchmarks/future-bench/strassen.cpp:279-330 | The same, added to the old C |
| `ZMultiply.TwoRounds` | benchmarks/future-bench/strassen.cpp:410-441 | Two rounds of four quadrant products, the second accumulating, make (add ? C : 0) + A * B |
| `ZMultiply.MmDacZ` | benchmarks/future-bench/strassen.cpp:410-441 | For n = 2^k at least the base: C becomes (add ? C : 0) + A * B, in place, and nothing else changes |
| `Strassen.SetupAdd` | benchmarks/future-bench/strassen.cpp:496-545 | The eight sums are written cell by cell through the quadrant recursion, and nothing else changes |
| `Strassen.FinalAdd` | benchmarks/future-bench/strassen.cpp:443-487 | The in-place final additions combine the four output quadrants with M2, M5 and T1 as computed from their old values |
| `Strassen.FinalIsProduct` | benchmarks/future-bench/strassen.cpp:588-611 | Four products stored in the output quadrants, then combined in place, are the quadrants of A * B |
| `Strassen.StrassenZ` | benchmarks/future-bench/strassen.cpp:553-611 | For every integer matrix with n a power of two no smaller than the base case: C becomes exactly A * B and nothing else changes, at every level of the recursion |
| `Matmul.IterMatmul` | benchmarks/future-bench/matmul.cpp:159-171 | The iterative loops through block_convert compute the same product |
| `Matmul.MatMulPar` | benchmarks/future-bench/matmul.cpp:229-275 | Adds exactly A * B to C on the Z layout, and changes nothing else |
| `MatmulRowMajor.IterMatmulRm` | benchmarks/future-bench/matmul.cpp:174-186 | The row-major loops compute row times column in every cell |
| `MatmulRowMajor.EightParts` | benchmarks/future-bench/matmul.cpp:296-325 | What a window gains is the sum of what its eight half-size multiplications add |
| `MatmulRowMajor.MatMulParRm` | benchmarks/future-bench/matmul.cpp:278-326 | On windows of matrices orig_n wide: exactly the n x n cells of C's window gain exactly the product; every other cell is as before |
| `RowMajorTasks.RowMajorIsSound` | benchmarks/future-bench/matmul.cpp:278-326 | Windows of one row-major memory, interleaved row by row: tasks write and read only what they say, and the four that run side by side never conflict |
| `RowMajorTasks.SpawnedSideBySide` | benchmarks/future-bench/matmul.cpp:313-325 | Above the base case any of a round's four products can go first |
| `RowMajorTasks.JobDone` | benchmarks/future-bench/matmul.cpp:278-326 | A task at any depth, run serially, adds exactly the product to exactly its window |
| `RowMajorTasks.EveryScheduleMultiplies` | benchmarks/future-bench/matmul.cpp:313-325 | Every schedule of the two rounds of four spawns ends with the n x n cells of C's window increased by exactly the product and every other cell as before, and every schedule completes |
| `MatrixTasks.MatrixIsSound` | benchmarks/future-bench/matmul-future.cpp:247-335 | With syncs, or with each quadrant's second product sequenced behind its first: tasks write and read only what they say, and tasks on different quadrants never conflict |
| `MatrixTasks.SpawnedSideBySide` | benchmarks/future-bench/strassen-future.cpp:444-496 | Above the base case any product of a round can go first; with futures, the first product of any quadrant |
| `MatrixTasks.JobDone` | benchmarks/future-bench/strassen-future.cpp:444-496 | A multiplication task at any depth, run serially, writes (add ? C : 0) + A * B and nothing else |
| `MatrixTasks.EveryScheduleMultiplies` | benchmarks/future-bench/strassen-future.cpp:444-496 | Every schedule that respects the syncs, or fhandles[i] and stages[i], ends with C = (add ? C : 0) + A * B, and every schedule completes |
| `Futures.MovesRefine` | benchmarks/future-bench/strassen-future.cpp:444-496 | Creating any number of futures, calling in between, getting their handles upwards or downwards and going on; or creating four, spawning four calls that start with get, and returning: every step is a number of steps of the fork-join program in which waiting is sequencing, or the strand's own next instruction |
| `Futures.LanesMoveFreely` | benchmarks/future-bench/matmul-future.cpp:287-330 | Whatever the other handles hold: a created future moves, a call's wait ends once its own future has finished, and the strand goes on creating and spawning |
| `Futures.BranchesMoveFreely` | benchmarks/future-bench/cilksort-future.cpp:370-476 | Whatever the others do: a future moves from its creation on, the strand's own call in its turn, and the strand creates, waits and goes on as soon as it itself can |
| `Futures.NextMoves` | benchmarks/future-bench/strassen-future.cpp:444-496 | Every task that is behind no wait can be run next |
| `Futures.EveryMoveIsSerial` | benchmarks/future-bench/matmul-future.cpp:247-335 | No schedule of a program with handles changes the outcome, none runs longer than a bound known at its start, and no call gets past its get before the future has finished |
| `Futures.CanMove` | benchmarks/future-bench/strassen-future.cpp:444-448 | Whoever waits in get waits for something that can move: no schedule is stuck before the end |
| `Futures.EverySchedule` | benchmarks/future-bench/cilksort-future.cpp:370-476 | Any schedule of any such program: what is in memory at its end is what one processor makes of the fork-join program, before its end it can go on, and its length has a bound known at its start |
| `SortFutures.HandlesAreFaithful` | benchmarks/future-bench/cilksort-future.cpp:370-476 | sort_futures[3], got from the last to the first, and the two handles m amount to running side by side and joining |
| `SortFutures.FuturesSideBySide` | benchmarks/future-bench/cilksort-future.cpp:370-476 | The three futures are created without waiting for anything, and then any of the four sorts can be next; likewise the two merges, and the halves of a merge |
| `SortFutures.EveryHandleScheduleSorts` | benchmarks/future-bench/cilksort-future.cpp:410-480 | With the handles and their waits as steps, every schedule ends with the array sorted, only it and the scratch changed, and gets to its end |
| `MatrixFutures.HandlesAreFaithful` | benchmarks/future-bench/strassen-future.cpp:468-493 | fhandles[i], and stages[i], order exactly the two accumulations of one quadrant |
| `MatrixFutures.FuturesSideBySide` | benchmarks/future-bench/matmul-future.cpp:287-330 | All four futures are created and all four calls spawned without waiting for anything, and from the fourth on the first products of all quadrants can be next |
| `MatrixFutures.EveryHandleScheduleMultiplies` | benchmarks/future-bench/matmul-future.cpp:287-330 | With the handles and their waits as steps, every schedule ends with C = (add ? C : 0) + A * B, nothing else changed, and gets to its end |
| `StrassenTasks.SubSiblings` | benchmarks/future-bench/strassen.cpp:597-605 | Any two of the seven spawned products do not conflict: neither's output or allocated scratch space is touched by the other |
| `StrassenTasks.StrassenIsSound` | benchmarks/future-bench/strassen.cpp:443-611 | The tasks of setup_add, strassen_z, final_add and mm_dac_z write and read only what they say, and whatever runs side by side does not conflict |
| `StrassenTasks.SpawnedSideBySide` | benchmarks/future-bench/strassen.cpp:443-611 | Strassen above sixteen times the base case, mm_dac_z at it and below; any of the seven products can go first once the sums are there, and any part of the sums and of the final additions down to the base case |
| `StrassenTasks.LiftSerial` | benchmarks/future-bench/strassen.cpp:555-558 | Below the threshold mm_dac_z's tasks do inside this program what they do on their own |
| `StrassenTasks.MultiplyDone` | benchmarks/future-bench/strassen.cpp:553-611 | A call at any depth, run serially, leaves exactly A * B in its output and touches nothing but that and what it allocates |
| `StrassenTasks.EveryScheduleIsTheProduct` | benchmarks/future-bench/strassen.cpp:553-611 | Every schedule of the sums, the seven spawned products and the final additions, with the syncs between, ends with C = A * B, nothing but C and the scratch changed, and every schedule completes |
| `StrassenFutures.HandlesAreFaithful` | benchmarks/future-bench/strassen-future.cpp:633-735 | fhandles[7], created after setup_add and got by final_add before it spawns, and the fhandles of mm_dac_z below the threshold, order what the syncs order, or less where a quadrant waits only for its own first product |
| `StrassenFutures.ProductsSideBySide` | benchmarks/future-bench/strassen-future.cpp:690-735 | Once the sums are there all seven futures are created without waiting for anything, and then any product can be next |
| `StrassenFutures.EveryHandleScheduleIsTheProduct` | benchmarks/future-bench/strassen-future.cpp:498-735 | With all handles and their waits as steps, every schedule ends with C = A * B, nothing but C and the scratch changed, and gets to its end |
| `FiberPools.Pool.constructor` | cilkrtssuspend/runtime/cilk_fiber_pool.cpp:164-213 | A new pool holds the preallocated half and quarter of its fibers, with both counters at zero |
| `FiberPools.Pool.FreeBatch` | cilkrtssuspend/runtime/cilk_fiber_pool.cpp:46-111 | One batch under the lock: what exceeds num_to_keep but at most ten fibers is taken out and counted off, the topmost ones, each once; the returned fiber is put back if the batch is the last |
| `FiberPools.Pool.FreeFibers` | cilkrtssuspend/runtime/cilk_fiber_pool.cpp:46-111 | Batch after batch, and it terminates: the lowest num_to_keep fibers stay, every other one is freed once and counted off, the returned fiber is on top |
| `FiberPools.Pool.MoveToParent` | cilkrtssuspend/runtime/cilk_fiber_pool.cpp:124-160 | Moves fibers up while the parent has room, and a negative total with them |
| `FiberPools.MovedKeeps` | cilkrtssuspend/runtime/cilk_fiber_pool.cpp:124-160 | Moving loses no fiber, duplicates none, keeps both bounds and the sum of the totals |
| `FiberPools.MovesAsFar` | cilkrtssuspend/runtime/cilk_fiber_pool.cpp:124-160 | A move ends with the parent full or no more than num_to_keep fibers left; the topmost fibers arrive from the top down; nothing moves to a full parent, and a child whose parent had room is left no negative total |
| `FiberPools.Pool.Deallocate` | cilkrtssuspend/runtime/cilk_fiber.cpp:956-1010 | A fiber handed back ends on top of the pool; a full pool frees exactly one first; a pool of size zero fails the assertion |
| `FiberPools.Pool.Destroy` | cilkrtssuspend/runtime/cilk_fiber_pool.cpp:215-243 | What the parent has room for goes there, the rest is freed: every fiber goes one of the two ways |
| `FiberPools.RoomForOne` | cilkrtssuspend/runtime/cilk_fiber.cpp:956-1010 | Freeing down to max_size - 1 makes room in a full pool if and only if it can hold anything at all |
| `FiberPools.Allocate` | cilkrtssuspend/runtime/cilk_fiber.cpp:633-729 | Asks the pool, then the heap on its account, then the parent, and so on up |
| `FiberPools.AllocatedByHelper` | cilkrtssuspend/runtime/cilk_fiber.cpp:633-729 | The first pool on the way up that has a fiber, or whose heap request succeeds, gives it; those before it end with the totals they had, those after it are not asked |
| `FiberPools.AllocationBalances` | cilkrtssuspend/runtime/cilk_fiber.cpp:633-729 | However far up it has to ask: sizes less totals go down by one exactly if a fiber came out, and every pool keeps its bounds |
| `FiberPools.AllocationMoves` | cilkrtssuspend/runtime/cilk_fiber.cpp:633-729 | The fiber that comes out has left the pools, or is the heap's and the pools hold what they held |
| `FiberPools.SectionKeepsInv` | cilkrtssuspend/runtime/cilk_fiber_pool.cpp:27-243 | Every locked section of every worker keeps the books: each live fiber once in one pool or once in use, and as many as the counters say |
| `FiberPools.FibersConserved` | cilkrtssuspend/runtime/cilk_fiber_pool.cpp:27-243 | Over any run on any number of pools: sum of sizes + fibers handed out = preallocated + sum of totals, less those the heap has still to deliver; no fiber is in two places |
| `FiberPools.HighWaterIsMostEver` | cilkrtssuspend/runtime/cilk_fiber_pool.cpp:27-44 | Over any run a pool's high_water is the largest total it ever had |
| `FiberPools.PoolsKeepBounds` | cilkrtssuspend/runtime/cilk_fiber_pool.cpp:27-243 | Always 0 <= size <= max_size and total <= high_water |
| `CilkFor.GrainIsPositive` | cilkrtssuspend/runtime/cilk-abi-cilk-for.cpp:79-117 | The computed grain size is at least 1 if and only if count + 8P - 1 does not wrap |
| `CilkFor.EightGrainsEach` | cilkrtssuspend/runtime/cilk-abi-cilk-for.cpp:105-116 | The grain size is the least that leaves each worker at most eight grains, capped at 2048 |
| `CilkFor.CilkForRecursive` | cilkrtssuspend/runtime/cilk-abi-cilk-for.cpp:271-321 | The spawning loop makes exactly the calls of the halving recursion, left to right, and terminates |
| `CilkFor.PiecesTile` | cilkrtssuspend/runtime/cilk-abi-cilk-for.cpp:271-321 | The pieces are contiguous, non-empty, tile the range, none larger than the grain and, if there are several, none smaller than half of it |
| `CilkFor.TilesOnce` | cilkrtssuspend/runtime/cilk-abi-cilk-for.cpp:271-321 | Every index of the range is in exactly one piece |
| `CilkFor.CilkFor` | cilkrtssuspend/runtime/cilk-abi-cilk-for.cpp:337-345 | A whole cilk_for: each iteration once; a positive requested grain size is the largest piece and at least half of it the smallest; single iterations under a tool; else at most 16P pieces below 2048 * 8P iterations |
| `CilkFor.NotTooMany` | cilkrtssuspend/runtime/cilk-abi-cilk-for.cpp:105-116 | At most 16P pieces for count <= 2048 * 8P; beyond it between one per 2048 iterations and two |
| `CilkFor.LoopEnds` | cilkrtssuspend/runtime/cilk-abi-cilk-for.cpp:79-117 | The loop terminates if and only if its grain size computation does not wrap, and then with exactly the pieces |
| `CilkFor.SomeLoopNeverEnds` | cilkrtssuspend/runtime/cilk-abi-cilk-for.cpp:109 | A concrete 32-bit loop on one worker for which the sum wraps, the grain size is zero and no recursion depth suffices |
| `Exceptions.MergePendingExceptions` | cilkrtssuspend/runtime/except-gcc.cpp:373-474 | The in-place merge of two records, null pointers, both assertions, unsigned count, deletions and freeing included |
| `Exceptions.SetupForExecution` | cilkrtssuspend/runtime/except-gcc.cpp:500-559 | The resumed strand gets the record's state and exception, and the record is empty afterwards |
| `Exceptions.AnyBracketing` | cilkrtssuspend/runtime/except-gcc.cpp:352-371 | Any bracketing of a sequence of records: an assertion fails if and only if two of them have caught chains, otherwise the result is the leftmost active exception, the one chain with its rethrow flag, and the summed count |
| `Exceptions.BracketingsAgree` | cilkrtssuspend/runtime/except-gcc.cpp:373-474 | Two bracketings of the same records give the same record and destroy the same exceptions |
| `Exceptions.AllButTheLeftmost` | cilkrtssuspend/runtime/except-gcc.cpp:446-460 | Exactly the active exceptions other than the leftmost are destroyed, each once |
| `Exceptions.NothingLost` | cilkrtssuspend/runtime/except-gcc.cpp:313-337 | Every exception object that went in is in the result or was destroyed, once |
| `Exceptions.CountIsExact` | cilkrtssuspend/runtime/except-gcc.cpp:81-85 | If the counts fit, the merged count is the sum less the destroyed actives, and check() holds again if and only if the count fits an int or nothing is active |
| `Exceptions.WhenExclusive` | cilkrtssuspend/runtime/except-gcc.cpp:357-371 | A merge brings together an active exception and a rethrow request exactly if one record has the one and the other the other |
| `Exceptions.NotAlwaysExclusive` | cilkrtssuspend/runtime/except-gcc.cpp:357-371 | The comment that an active exception excludes rethrow is false of merged records: two concrete records, in either order |
| `Exceptions.WhenAllExclusive` | cilkrtssuspend/runtime/except-gcc.cpp:357-371 | Over any bracketing the comment holds of the result if and only if no record is active or none asks to rethrow |
| `Exceptions.BracketingCanMatter` | cilkrtssuspend/runtime/except-gcc.cpp:430-440 | Without the assumption that only a record with a caught chain asks to rethrow, bracketings differ: three concrete records |
| `Exceptions.SyncRaises` | cilkrtssuspend/runtime/except-gcc.cpp:500-559 | After a sync the strand raises exactly if some record had an active exception or a rethrow request, and then the leftmost active one |

## Left out

- TheProtocol: steps are sequentially consistent, as the fences intend; the weak memory model is left out.
- TheProtocol: thieves act only under the worker lock, so one thief program counter stands for all; which thief it is is kept in the lock.
- TheProtocol: a run says nothing more of the owner once it has stored a fiber past the end of the buffer, and a failed assertion of `__cilkrts_detach` is a push that cannot happen.
- TheProtocol: the fiber cache holds 128 fibers, and `protected_tail` stays at the limit; EXC_INFINITY is not used.
- TheProtocol: the fiber deque of `deque.c` is modelled with the frame deque it belongs to, for a deque that stays with its worker.
- TheProtocol: an exception is assumed not to leave a future's own function, whose helper has no cleanup for it. A strand stops at a sync, or returns from a call to a caller elsewhere, with head and tail at the start of the buffer: it still has its frame, so nothing was stolen since it was set up.
- TheProtocol: what unwinding an exception does beyond the pop under the lock is left out; merging what was thrown is in Exceptions.
- TheProtocol: as a protocol between threads it is a state machine on values, not a class; aliasing between worker structs is not captured.
- SuspendResume: one deque is followed; the others appear only as locks that are held. A section under one lock is one step where nobody can see inside it.
- SuspendResume.NeverLost: says that the next move exists and leads nearer to running, not that a scheduler takes it.
- DequePool.Pool.Remove: the pool's lock is left out; what other threads see between its two stores is in SuspendResume.
- CilkSort.CilkSort: the spawned calls run in program order; that every other order gives the same is EveryScheduleSorts.
- SortTasks.EveryScheduleSorts: a turn of a loop is one step: seqpart's choice of the pivot, its exchange, one move of an insertion, one cell of a merge.
- MatrixTasks.EveryScheduleMultiplies: a base case computes one output cell a step.
- RowMajorTasks.EveryScheduleMultiplies: a base case computes one output cell a step.
- Futures.EveryMoveIsSerial: handles are waited for, once each, by the strand that created them or by the calls of its block, as in these programs; in a block the last call is spawned like the others and joined at the return, and a sync waits for its children one after the other.
- Strassen.StrassenZ: the spawned products run in program order; that every other order gives the same is EveryScheduleIsTheProduct.
- StrassenTasks.EveryScheduleIsTheProduct: what calls allocate is laid out in one stretch of memory ahead of time, one call's stretch apart from all others; freeing it and using it again is left out. A block of setup_add or final_add does one cell of all its matrices a step.
- Strassen.StrassenZ: matrix elements are integers, a ring, so floating-point rounding is left out; the 64 bytes of padding between scratch matrices are any stride that is long enough.
- BaseCase.MmBase: mm_base and mm_additive_base share their loop over rows; the unrolling macros are eight lanes of one sequence.
- BaseCase.MmBase: pointers are offsets into arrays; that offsets fit an int is BlockConvertBijection, for n up to 32768.
- MatmulRowMajor.MatMulParRm: base cases use the iterative loops, as there; int overflow of strided offsets is left out.
- FiberPools.FibersConserved: `alloc_max` is not assumed, because the check of it is commented out; NUMA queries and stack guards are left out.
- CilkFor.CilkFor: the pedigree bookkeeping and the spurious first spawn are left out; the pieces are listed in serial order.
- Futures.NextMoves: says that the task can run, not that a scheduler picks it.
- CilkFor.CilkFor: asks that the grain computation does not wrap; LoopEnds says what happens if it does.
- Exceptions.AnyBracketing: assumes that a record asks to rethrow only with a caught chain; BracketingCanMatter says why.
- Full frames, join counters, reducers, record and replay, and the race detector's hooks.
- Context switches themselves (assembly, setjmp, stack pointers) and memory mapping.
- Random victim selection, which is any choice here; the batcher; Windows and TBB code; command lines and timing.
