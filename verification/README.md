# A verified model of the quiet_flow engine

quiet_flow runs the nodes of a dependency graph on worker threads. Workers take ready nodes
from a shared queue, run them, count down the wait counters of the nodes downstream, and go
on with a node they have made ready. This project models the protocols underneath and proves
what they promise.

Each concurrent protocol is written twice. A *state machine* (datatypes `State` and `Action`,
functions `Enabled` and `Apply`) has one action per atomic operation of a thread, with the
thread's locals in its program point; a run is any interleaving of any number of threads, and
an invariant is shown to be kept by every action. A *class* has the fields of the program
(64-bit words, arrays, vectors, mutex flags) and one method per atomic operation; its ghost
state is the state machine, `Valid()` ties the two together and says that the ghost state is
reachable, and each method is proved to perform exactly one action. So a statement about
reachable states is a statement about every object after every sequence of operations the
methods admit. On machine words the methods of the lock-free queue admit a check only while
what it loaded is fresh (`FreeLockStale`); the other classes require counters to stay within
their widths.

The engine as a whole is `Dispatch`: the edge protocol and the slots of limited graphs, step
for step, with the calls of `ready`, the loops of `Graph::finish`, the shared queue, the
workers and tasks that wait. Its main result says exactly which states complete, that is,
run every created node exactly once whatever the threads do (`DispatchSafe.CompletesIff`):
those with a rank that falls from each node to what it requires and from each waiting task to
its helper, such that for every node of a limited graph not taken up yet fewer tasks of that
graph than it has slots wait without ranking below it. (Such states always complete; that
no others do is for engines without edges between limited graphs, and new nodes and waits
during the run are not counted in.) `DispatchWaits` shows that the waits
the cycle check lets through have a rank, and `DispatchExamples` has runs that get stuck.

| files | protocol |
|---|---|
| `FreeLockGate`, `FreeLockQueue`, `FreeLockProgress`, `FreeLockRefusal` | the lock-free bounded queue: admission, tickets, slot versions, FIFO, progress, when a call may be refused |
| `FreeLockWords`, `FreeLockStale`, `FreeLockOverrun`, `FreeLockMachine` | its wrapping comparisons, how stale what a call has loaded may be and what becomes of the queue beyond that, its fields |
| `TaskQueue`, `TaskQueueDecisions`, `TaskQueueMachine` | parking and waking of consumers: the accounting, who decides what, the fields |
| `Edges`, `EdgesProof`, `EdgesSteps`, `EdgesTheorems`, `EdgesOrder`, `EdgesFinite`, `EdgesMachine` | dependency edges added while the upstream node may be finishing |
| `ParallelLimit`, `GraphFinish`, `GraphWaiters` | limited parallelism, dispatch of notified nodes, nodes that wait for a graph |
| `Dispatch`, `DispatchInv`, `DispatchEdges`, `DispatchSteps`, `DispatchCalls`, `DispatchDeal`, `DispatchRuns` | the whole engine from a node made ready to a node run, and its invariant |
| `DispatchTheorems`, `DispatchFinite`, `DispatchReturns`, `DispatchSafe`, `DispatchWaits`, `DispatchLimit`, `DispatchExamples` | what it guarantees: one place, progress, what a worker goes on with, completion and exactly when, the limit; runs that get stuck |
| `CycleCheck`, `WaitRelation` | the search for cycles, and the wait-for relation it keeps free of them |
| `YieldHandshake`, `YieldProof`, `YieldStatus`, `YieldMachine` | a task gives up its context and gets it back |
| `ErrorRate`, `LockQueue`, `BitMap`, `Bits`, `Common` | the error window, the queues under a mutex, bit maps, words, counting |

Things the proofs bring out about the program:

- With one slot the lock-free queue can hand a reader an empty slot (`FreeLockProgress.CapacityOneCrashes`); with two or more it never does.
- The admission checks compare a counter with a `missed` loaded earlier. A call that sleeps while 2^32 - 1 others miss finds room in a full queue and draws a ticket more than a capacity ahead (`FreeLockOverrun.LateCallOverruns`). At a full queue each check is right exactly in a range of misses and undecided calls (`FreeLockOverrun.SecondCheckRightIff` and its siblings), and as long as every check is fresh the queue on words is the exact one (`FreeLockOverrun.FreshNeverOverruns`).
- The reader's version is kept in an `int`, so a reader of ticket 2^31 never leaves its wait (`FreeLockWords.ReaderTestIs`).
- `align_size` shifts an `int` and is right exactly up to 2^30 (`BitMap.IntAlignExactIff`).
- A limited graph with parallelism 0 holds its first ready node for ever (`ParallelLimit.NoneStrandedIffSlots`, and in the whole engine `DispatchExamples.CompleteIffSlots`).
- A task that waits keeps the slot of its graph. All may wait for ever if it waits for a node of its own graph (`DispatchExamples.WaitsForItsSlot`), or if tasks of two graphs wait for held nodes of each other's (`DispatchExamples.GraphsBlockEachOther`). The cycle check sees neither: it does not know of slots. `DispatchSafe.CompletesIff` says exactly when it cannot happen.
- An edge from a limited graph to another limited graph can start a node without a slot (`GraphFinish.ReturnedHasSlotIff` says exactly when) and exceed the limit (`DispatchExamples.CrossingOverruns`). Such a node still counts itself off when it finishes, so each one raises the limit for good (`ParallelLimit.LimitStaysRaised`). Without such edges the limit holds (`DispatchLimit.NoCrossKeepsLimit`).
- A finisher delayed between its decrement and the lock can release a later waiter early, exactly if its sweep was due when the waiter registered (`GraphWaiters.TimelyIffNoSweepDue`).
- The cycle search keeps no visited set and ends exactly if it meets its goal or no chain from the checked nodes repeats a node (`CycleCheck.EndsIff`). A node that lists itself among its upstreams makes it run for ever (`WaitRelation.SelfListedNodeHangsSearch`). With the flag off only direct self-waits are refused (`WaitRelation.FlagOffMissesCycle`).
- The error rate divides by 128 whatever the window (`ErrorRate.RateIsOfWindow`), and windows of up to 32 bits have no storage (`ErrorRate.WindowWords`).
- The size counter of the unbounded queue lags behind the queue and can wrap below zero (`LockQueue.LagExact`); readers that trust it see an empty queue too early, which is why `TaskQueue` here lets a dequeue fail for no reason.

## Model

| member | source | states |
|---|---|---|
| FreeLockQueue.StepKeeps | src/queue/free_lock.cpp:56-154 | every atomic operation of any call keeps the whole invariant of the queue: fates of the admission numbers, ticket owners, slot turns and versions, items |
| FreeLockQueue.NeverOverOrUnderrun | src/queue/free_lock.cpp:56-69 | in every state of every run `read <= write <= read + capacity`, although admission uses a stale `missed` and a separate `ahead` number; on words this needs the loads to be fresh, see FreeLockStale |
| FreeLockQueue.NeverEmptyRead | src/queue/free_lock.cpp:84-92 | a reader that has left its wait finds the item of the writer with its ticket in the slot |
| FreeLockQueue.NeverOverwrites | src/queue/free_lock.cpp:131-142 | a writer that has left its wait finds the slot empty |
| FreeLockGate.GateStepKeeps | src/queue/free_lock.cpp:57-69 | every operation at a gate keeps: each admitted number a has a + 1 less the lost numbers below a within the limit, although the `missed` it was compared with may be stale |
| FreeLockProgress.StepRefinesFifo | src/queue/free_lock.cpp:107-154 | every operation is a step of a bounded FIFO queue or changes nothing in it: an enqueue takes effect when the write ticket is drawn, a dequeue when the read ticket is drawn |
| FreeLockProgress.DequeueReturnsItsTicket | src/queue/free_lock.cpp:69-99 | a dequeue with ticket t returns the item of the enqueue with ticket t |
| FreeLockProgress.NothingLost | src/queue/free_lock.cpp:56-154 | with no call under way `ahead = ticket + missed` on both ends, every drawn ticket was completed with its item, and the unread items are in their slots |
| FreeLockProgress.SlotExclusion | src/queue/free_lock.cpp:84-93 | at most one call at a time is between leaving its wait and publishing a version on a slot |
| FreeLockProgress.VersionSchedule | src/queue/free_lock.cpp:89-93 | the version of slot i only moves i-capacity+1, i, i+1, i+capacity, ...: writer and reader alternate |
| FreeLockProgress.NoDeadlock | src/queue/free_lock.cpp:72-84 | as long as a call has not returned, some call can perform its next operation |
| FreeLockProgress.WriterChain | src/queue/free_lock.cpp:118-131 | whoever holds a write ticket uncompleted, going down the tickets of its slot, writer before reader, leads to a call that can step |
| FreeLockProgress.StepWorks | src/queue/free_lock.cpp:56-154 | every operation of a call uses up some of the work left |
| FreeLockProgress.AllReturn | src/queue/free_lock.cpp:56-154 | from every reachable state the outstanding calls can be run until all have returned |
| FreeLockProgress.RunsAreFinite | src/queue/free_lock.cpp:56-154 | a run of the outstanding calls is no longer than the work at its start |
| FreeLockProgress.CapacityOneCrashes | src/queue/free_lock.cpp:89-91 | with one slot a run exists in which the assertion on a null item fires |
| FreeLockProgress.TwoSlotsNeverCrash | src/queue/free_lock.cpp:89-91 | with two or more slots no run makes it fire |
| FreeLockProgress.NullCheckHoldsIffTwoSlots | src/queue/free_lock.cpp:89-91 | the assertion holds in all runs if and only if there are at least two slots |
| FreeLockRefusal.SecondFullIff | src/queue/free_lock.cpp:113-116 | the second check of try_enqueue refuses a number if and only if the numbers let in, the calls that have one and no decision and the misses since its load of `missed` are together at least the tickets the readers have drawn, the capacity and the numbers drawn from its own on: an uncontended call at a queue with room is let in |
| FreeLockRefusal.FirstFullIff | src/queue/free_lock.cpp:108-111 | and the first check if and only if they are at least the loaded `read` and the capacity |
| FreeLockRefusal.SecondEmptyIff | src/queue/free_lock.cpp:62-69 | the same for the second check of try_dequeue and the tickets the writers have drawn |
| FreeLockRefusal.FirstEmptyIff | src/queue/free_lock.cpp:57-60 | and for its first check |
| FreeLockRefusal.RefusedOnlyIfFull | src/queue/free_lock.cpp:108-116 | in every run: a call of try_enqueue is refused only if all slots free when it began are spoken for, by tickets given out, undecided calls and misses since it began; at the second check, all slots free by then and more |
| FreeLockRefusal.RefusedOnlyIfEmpty | src/queue/free_lock.cpp:57-69 | and one of try_dequeue only if all items written when it began are |
| FreeLockWords.IsEmptyExact | head/queue/free_lock.h:29-33 | the emptiness test on wrapped counters agrees with the true comparison exactly while the difference is in [2^32 - 1 - 2^64, 2^32 - 1) |
| FreeLockWords.IsFullExact | head/queue/free_lock.h:34-38 | the same for the fullness test |
| FreeLockWords.FullTest | src/queue/free_lock.cpp:108-115 | the admission test of try_enqueue on wrapped words is the comparison of the true counters, in the window |
| FreeLockWords.EmptyTest | src/queue/free_lock.cpp:57-64 | the admission test of try_dequeue likewise |
| Bits.IndexIsSlot | src/queue/free_lock.cpp:117 | masking a wrapped ticket with capacity - 1 gives the ticket modulo the capacity |
| FreeLockWords.ReaderTestIs | src/queue/free_lock.cpp:71-76 | the reader's comparison through an `int` succeeds exactly on the version of its ticket, if the ticket survives the narrowing: not from 2^31 to 2^64 - 2^31 |
| FreeLockStale.RecheckBounds | src/queue/free_lock.cpp:113-115 | the second check exceeds the limit by less than the misses since its load of `missed` plus the calls that have a number and no decision |
| FreeLockStale.LoadBounds | src/queue/free_lock.cpp:108-111 | the first check likewise |
| FreeLockStale.EnqRecheckWindow | src/queue/free_lock.cpp:113-115 | so with fewer than 2^32 - 1 of these the second check of try_enqueue is in the window where the word test is exact |
| FreeLockStale.DeqRecheckWindow | src/queue/free_lock.cpp:62-64 | and that of try_dequeue |
| FreeLockStale.EnqFirstWindow | src/queue/free_lock.cpp:108-111 | the first check of try_enqueue |
| FreeLockStale.DeqFirstWindow | src/queue/free_lock.cpp:57-60 | the first check of try_dequeue |
| FreeLockOverrun.SecondCheckRightIff | src/queue/free_lock.cpp:113-116 | at a full queue the second check, which decides about the ticket, refuses on words if and only if the misses since its load plus the undecided calls are fewer than 2^32 - 1 plus the numbers drawn since its own |
| FreeLockOverrun.FirstCheckRightIff | src/queue/free_lock.cpp:108-111 | and the first check if and only if its loads are fresh |
| FreeLockOverrun.SecondEmptyRightIff | src/queue/free_lock.cpp:62-69 | the same for the second check of try_dequeue at a queue with nothing to take |
| FreeLockOverrun.FirstEmptyRightIff | src/queue/free_lock.cpp:57-60 | and for its first check |
| FreeLockOverrun.FullRefuses | src/queue/free_lock.cpp:114-115 | at a full queue the exact second check refuses whatever number the call has |
| FreeLockOverrun.WordAgrees | src/queue/free_lock.cpp:56-154 | a fresh operation with its test on words is the exact operation |
| FreeLockOverrun.FreshNeverOverruns | src/queue/free_lock.cpp:56-154 | in a run with the tests on words in which every check is fresh `read <= write <= read + capacity` holds in every state |
| FreeLockOverrun.LateCallOverruns | src/queue/free_lock.cpp:108-116 | a run with the tests on words in which a call that slept over 2^32 - 1 misses passes both checks of a full queue and draws the ticket: write = read + capacity + 1 |
| FreeLockStale.LagIsCalls | src/queue/free_lock.cpp:70-84 | the version a waiting call looks at is behind its ticket by at most a capacity per call under way, and one more |
| FreeLockWords.WriterTestExact | src/queue/free_lock.cpp:118-124 | the writer's 64-bit comparison with its target version is exact |
| FreeLockMachine.LimitQueue.constructor | src/queue/free_lock.cpp:18-38 | the arrays and counters of a new queue represent the initial state, with the aligned capacity |
| FreeLockMachine.LimitQueue.EnqFirstCheck | src/queue/free_lock.cpp:108-111 | the first check performs one action of the machine and says whether the call goes on |
| FreeLockMachine.LimitQueue.EnqFetchAhead | src/queue/free_lock.cpp:113 | draws an admission number |
| FreeLockMachine.LimitQueue.EnqRecheck | src/queue/free_lock.cpp:114-115 | the second check decides between a ticket and a miss |
| FreeLockMachine.LimitQueue.EnqTakeTicket | src/queue/free_lock.cpp:116 | draws the write ticket |
| FreeLockMachine.LimitQueue.EnqMiss | src/queue/free_lock.cpp:150 | gives the number up |
| FreeLockMachine.LimitQueue.EnqPoll | src/queue/free_lock.cpp:117-130 | one look at the version: the call leaves the wait exactly when the machine lets it |
| FreeLockMachine.LimitQueue.EnqStore | src/queue/free_lock.cpp:136 | stores the item |
| FreeLockMachine.LimitQueue.EnqPublish | src/queue/free_lock.cpp:142 | publishes the version: hands the slot to the reader |
| FreeLockMachine.LimitQueue.DeqFirstCheck | src/queue/free_lock.cpp:57-60 | the first check of try_dequeue |
| FreeLockMachine.LimitQueue.DeqRecheck | src/queue/free_lock.cpp:63-64 | its second check |
| FreeLockMachine.LimitQueue.DeqTakeTicket | src/queue/free_lock.cpp:69 | draws the read ticket |
| FreeLockMachine.LimitQueue.DeqPoll | src/queue/free_lock.cpp:70-83 | one look at the version, narrowed to an `int`: the call leaves the wait exactly when the machine lets it and its ticket survives |
| FreeLockMachine.LimitQueue.DeqLoad | src/queue/free_lock.cpp:89-91 | loads the item of its ticket; the null assertion holds |
| FreeLockMachine.LimitQueue.DeqClear | src/queue/free_lock.cpp:92 | clears the slot |
| FreeLockMachine.LimitQueue.DeqPublish | src/queue/free_lock.cpp:93 | publishes the version: hands the slot to the writer one round later |
| FreeLockMachine.LimitQueue.TryEnqueue | src/queue/free_lock.cpp:107-154 | alone, it fails exactly when the queue is full and appends the item otherwise |
| FreeLockMachine.LimitQueue.TryDequeue | src/queue/free_lock.cpp:56-105 | alone, it fails exactly when the queue is empty and takes the first item otherwise |
| FreeLockMachine.LimitQueue.SizeApprox | src/queue/free_lock.cpp:45-54 | with no call under way it is the number of items |
| TaskQueue.StepKeeps | src/queue/task.cpp:28-128 | every operation of every producer and consumer keeps the accounting identities and the coverage of outstanding signals |
| TaskQueue.CounterIdentity | src/queue/task.cpp:28-29 | `m_count` is the number of registered consumers outside `wait` minus (signals sent minus items taken), in every reachable state; nothing is lost or taken twice |
| TaskQueue.NoStrandedWork | src/queue/task.cpp:80-128 | when no producer or spinner is under way, a sleeping consumer means the queue is empty |
| TaskQueue.SomeoneActs | src/queue/task.cpp:28-65 | while signalled work waits and somebody sleeps, some thread is under way and its next action is enabled: a wake, an attempt, or a step towards one |
| TaskQueue.SettlesSoon | src/queue/task.cpp:28-128 | after at most seven operations of its own a thread sleeps, attempts a dequeue, wakes a sleeper or is done |
| TaskQueue.SleepsOnlyIfCovered | src/queue/task.cpp:89-91 | a consumer goes to sleep exactly if the registered consumers cover all outstanding signals |
| TaskQueueDecisions.ReleasesIff | src/queue/task.cpp:28-31 | a producer looks for sleepers exactly if the signals before its own already take all registered consumers |
| TaskQueueDecisions.DefersIff | src/queue/task.cpp:32 | and leaves the wake to the spinners exactly if there are some |
| TaskQueueDecisions.WakesIff | src/queue/task.cpp:36-38 | and wakes one sleeper exactly if more signals are outstanding than consumers registered |
| TaskQueueDecisions.LooksIffLast | src/queue/task.cpp:45-52 | of the spinners exactly the last one looks at the counter |
| TaskQueueDecisions.WakesOwed | src/queue/task.cpp:52-63 | it owes a wake for each outstanding signal beyond the registered consumers and itself, no more and no fewer, and never sleeps itself |
| TaskQueueDecisions.WakesSent | src/queue/task.cpp:60 | in every run a thread sends exactly the wakes it owes, unless it finds nobody asleep, and then goes on |
| TaskQueueDecisions.WithdrawsIff | src/queue/task.cpp:80-88 | in wait() a consumer withdraws exactly if the registered ones cover all outstanding signals, and else goes back to try |
| TaskQueueDecisions.SleepsIff | src/queue/task.cpp:89-91 | and sleeps exactly if they still do |
| TaskQueueDecisions.TriesBeforeWait | src/queue/task.cpp:109-128 | in every run a consumer comes to wait() after exactly as many failed attempts as the spin cycle and one more, and from then on after each |
| TaskQueueDecisions.RegistersAfterHold | src/queue/task.cpp:109-112 | in every run it is registered only after it went through spin_hold |
| TaskQueueDecisions.IdleConsumerSleeps | src/queue/task.cpp:80-91 | of two consumers that come to wait() on an idle queue, operations that put one to sleep |
| TaskQueueMachine.NarrowExact | src/queue/task.cpp:29 | reading the counter through an `int32_t` is exact exactly for values of 32 bits |
| TaskQueueMachine.HighWordExact | src/queue/task.cpp:25 | the high word is zero, so that a consumer may sleep, exactly while the counter is in [0, 2^32) |
| TaskQueueMachine.Queue.SignalFetchSub | src/queue/task.cpp:29-31 | the decrement of a producer and its decision |
| TaskQueueMachine.Queue.SignalLoadSpin | src/queue/task.cpp:32 | a producer defers to a spinner exactly if there is one |
| TaskQueueMachine.Queue.SignalLoadCount | src/queue/task.cpp:36-38 | and wakes a sleeper exactly if the counter is negative |
| TaskQueueMachine.Queue.HoldFetchSub | src/queue/task.cpp:51-52 | the last spinner is told that it is |
| TaskQueueMachine.Queue.HoldLoadCount | src/queue/task.cpp:54-61 | how many sleepers the last spinner wakes for the signals deferred to it |
| TaskQueueMachine.Queue.WaitFetchSub | src/queue/task.cpp:81-88 | a consumer withdraws, unless there are signals it would miss |
| TaskQueueMachine.Queue.FutexWait | src/queue/task.cpp:89-91 | the kernel's comparison and the sleep are one action |
| TaskQueueMachine.Queue.Attempt | src/queue/task.cpp:113-121 | an attempt to dequeue, which may fail for no reason |
| EdgesSteps.StepKeeps | src/graph.cpp:408-465 | every operation of create_edges, add_downstream and finish keeps the invariant of the edges |
| EdgesSteps.MakeKeeps | src/graph.cpp:315-330 | in particular every operation of create_edges and add_downstream |
| EdgesSteps.FinBitKeeps | src/node.cpp:136-143 | a bit of the snapshot stands for an open edge of the node with that id, and counting it off keeps the invariant |
| EdgesSteps.FinListKeeps | src/node.cpp:147-154 | so does an entry of the list |
| EdgesTheorems.DischargeHitsOpen | src/graph.cpp:409-446 | no operation counts off an edge that is not open |
| EdgesTheorems.DischargedExactlyOnce | src/node.cpp:120-157 | in every run an edge is counted off exactly once if it is closed and never while it is open, whichever of the status, duplicate, snapshot and list paths does it |
| EdgesTheorems.WaitCountIsOpenEdges | src/node.cpp:112-118 | the wait count is the number of open edges; the node has been made ready once if it is zero, and not otherwise |
| EdgesTheorems.ReadyOnlyWhenRequiredFinished | src/graph.cpp:315-330 | a node that was made ready or run has every required node, other than null and itself, at Finish or beyond |
| EdgesTheorems.TargetsExist | src/graph.cpp:216-225 | the ids in a snapshot and the entries of a list lead to created nodes |
| EdgesTheorems.LockedCanMove | src/graph.cpp:453-462 | whoever holds the lock of a node can move |
| EdgesTheorems.NoDeadlock | src/graph.cpp:408-465 | while create_edges is under way or a ready node is not through with finish, something can move |
| EdgesTheorems.StuckMeansFinished | src/graph.cpp:315-330 | of the edges alone, with every ready node started: if nothing can move and the required nodes are created and form no cycle, every created node has finished, was made ready once and has no open edge; with the dispatch of ready nodes see DispatchTheorems.StuckMeansComplete |
| EdgesOrder.FirstTestDecides | src/graph.cpp:408-421 | an edge for a null, for the node itself or for a finished node is counted off in two operations that touch no other node; any other one is not |
| EdgesOrder.PathIs | src/graph.cpp:423-433 | through the bitmap exactly for a node of the same graph with an id below 63: the bit is set, or found set and the edge a duplicate; else through the list |
| EdgesOrder.BitmapHasOne | src/graph.cpp:423-450 | of all edges of a created node to an unfinished earlier one of its graph, with an id below 63, exactly one is open, the bitmap has that one, and the list none |
| EdgesOrder.ListHasAll | src/graph.cpp:453-462 | of another graph, or with a greater id, all are open and in the list |
| EdgesFinite.MoveLess | src/graph.cpp:408-465 | every operation uses up some of the work left |
| EdgesFinite.RunsAreFinite | src/graph.cpp:408-465 | a run of the operations on the edges that creates no node is no longer than the work at its start |
| EdgesMachine.SnapshotFlagExact | src/node.cpp:15 | a stored snapshot never looks like the initial value 2^63, so the test for it tells exactly whether there is one |
| EdgesMachine.Engine.Register | src/graph.cpp:299-313 | the new node gets the next id of its graph |
| EdgesMachine.Engine.AddWaitCount | src/graph.cpp:315-330 | raises the wait count by the number of required nodes; with none the node is ready |
| EdgesMachine.Engine.TestUpstream | src/graph.cpp:409-421 | the null, self and status tests |
| EdgesMachine.Engine.TestAndSetBit | src/graph.cpp:423-433 | the choice of path, the duplicate test and the bit |
| EdgesMachine.Engine.SubWaitCount | src/graph.cpp:410-412 | who sees 1 makes the node ready |
| EdgesMachine.Engine.ReadSnapshot | src/graph.cpp:435-449 | leaves the edge to the finisher exactly if there is no snapshot or the bit is in it |
| EdgesMachine.Engine.TestUpstreamLocked | src/graph.cpp:453-455 | the status test under the lock |
| EdgesMachine.Engine.PushDownstream | src/graph.cpp:461-462 | appends to the list and unlocks |
| EdgesMachine.Engine.SetFinish | src/node.cpp:121-122 | publishes the status |
| EdgesMachine.Engine.LoadBits | src/node.cpp:133 | loads the bitmap into a register |
| EdgesMachine.Engine.StoreSnapshot | src/node.cpp:133-137 | stores it, unlocks, and lists exactly the ids in it, each once |
| EdgesMachine.Engine.CountBit | src/node.cpp:138-143 | counts one id off |
| EdgesMachine.Engine.CountEntry | src/node.cpp:149-153 | counts one entry of the list off |
| ParallelLimit.StepKeeps | src/graph.cpp:22-38 | every operation on the counter and the queue of a limited graph, and every node that bypasses them, keeps the accounting of slots |
| ParallelLimit.AtMostParallel | src/graph.cpp:46-51 | at most `parallel` nodes are dispatched and unfinished, slots on the way to a held node included, and one more for each node that ever bypassed the counter |
| ParallelLimit.BoundIsMet | src/graph.cpp:130-134 | this bound is reached for every parallelism and every number of nodes that bypass, while these run |
| ParallelLimit.LimitStaysRaised | src/graph.cpp:31-38 | and for good: for every n a run in which n nodes bypass and finish, and then as many nodes as `parallel` + n that all asked the counter are dispatched |
| ParallelLimit.HeldOnlyWhileFull | src/graph.cpp:22-29 | more nodes are held than are about to be taken exactly while the counter is positive, and only while every slot is in use |
| ParallelLimit.OfferedIsSomewhere | src/graph.cpp:101-134 | a node made ready is dispatched, held or finished, and exactly one of these |
| ParallelLimit.PopperFindsOne | src/graph.cpp:31-36 | a finisher that must take a held node finds one queued or about to be |
| ParallelLimit.NoneStrandedIffSlots | src/graph.cpp:17-38 | no node stays held once nothing of the graph runs, if and only if parallelism is at least 1 |
| ParallelLimit.SelfQueue.EnqueueFetchAdd | src/graph.cpp:22-25 | the decision between holding and dispatching |
| ParallelLimit.SelfQueue.DequeueFetchSub | src/graph.cpp:31-33 | the decision between passing the slot on and freeing it |
| ParallelLimit.SelfQueue.DequeuePop | src/graph.cpp:34-35 | one round of the loop around the queue; it fails only while the node is still on its way in |
| GraphFinish.PassOn | src/graph.cpp:71-86 | the two index loops: of the nodes after the first, the first preferred one is returned, and the others are passed on in their order |
| GraphFinish.Finish | src/graph.cpp:64-134 | returned, readied and held nodes are the notified nodes plus at most one from the graph's own queue, each as often as it came, in both modes; a limited graph passes its slot on or gives it back, never both; in every case the whole result: the first preferred node after the first, without one the first if it is preferred, without that what the queue says, and what is passed on in which order |
| GraphFinish.ReturnedHasSlotIff | src/graph.cpp:101-134 | a returned node of a limited graph runs in a slot unless, exactly, the first notified node is of another limited graph, none is of the own one and the own queue gives none |
| GraphFinish.RunWithoutSlot | src/graph.cpp:101-134 | a call in which it does |
| DispatchRuns.StepKeeps | src/graph.cpp:46-135 | every operation of creation, ready, finish, the queues, the workers and waiting tasks keeps the invariant of the engine |
| DispatchTheorems.ExactlyOnePlace | src/graph.cpp:46-135 | a node made ready is in exactly one place: its maker's hand, one finisher's, the shared queue, one limit queue, with a worker, or over; no other node is anywhere |
| DispatchTheorems.RunsAtMostOnce | src/schedule.cpp:204-228 | no node is run twice, and one that is over was run once and finished |
| DispatchTheorems.TakenIsFresh | src/schedule.cpp:214 | the assertion of run_task holds: what a worker takes has status Initing and can be started |
| DispatchReturns.WorkerGoesOnWith | src/graph.cpp:64-134 | in every run, of the nodes a node has made ready its worker goes on with the first wanted one after the first of all: of the node's own limited graph, or of no limited graph if it is of none; without one with the first of all, if that is wanted, and if not with that or a held node of the own limited graph |
| DispatchReturns.AtMostWorkers | src/schedule.cpp:204-242 | never more tasks run, finish or are about to be run by a worker than there are workers, whatever waits and is resumed |
| DispatchTheorems.AtMostParallel | src/graph.cpp:22-38 | the nodes in use of a limited graph are those its slots say, at most `parallel` and one more for each that ever bypassed the counter |
| DispatchLimit.NoCrossKeepsLimit | src/graph.cpp:101-134 | while no edge leads from one limited graph to another, at most `parallel` nodes of a limited graph are dispatched and unfinished |
| DispatchExamples.CrossingOverruns | src/graph.cpp:130-134 | a run over such an edge to two dispatched nodes in a graph with one slot |
| DispatchTheorems.StirringCanMove | src/schedule.cpp:204-242 | as long as a node is in somebody's hands, in the shared queue or with a worker, something can move |
| DispatchTheorems.PopperCanMove | src/graph.cpp:31-36 | a finisher that waits at a limit queue finds a node there, or a push on its way can go on |
| DispatchTheorems.HeldCanMove | src/graph.cpp:22-38 | while a node is held and the graph has a dispatched node that does not wait for others, something can move |
| DispatchTheorems.HeldMeansFull | src/graph.cpp:22-38 | while more nodes are held than finishers are about to take, every slot is in use or about to be passed on |
| DispatchTheorems.StuckHeld | src/graph.cpp:22-38 | when nothing can move, a graph that holds a node has all its slots taken by tasks that wait for others |
| DispatchTheorems.StuckCompleteIff | src/graph.cpp:292-335 | when nothing can move and the waits have no cycle, every created node was run exactly once and finished if and only if no graph holds a node |
| DispatchTheorems.StuckCompleteIffUnblocked | src/graph.cpp:292-335 | and if and only if every held node finds one of lower rank among those that have the slots of its graph |
| DispatchTheorems.RoomUnblocks | src/graph.cpp:22-38 | it does if the waiting tasks of its graph that do not rank below it are fewer than the slots |
| DispatchTheorems.StuckMeansComplete | src/graph.cpp:292-335 | so a stuck engine with such room for every node not taken up is complete |
| DispatchTheorems.FedHasRoom | src/graph.cpp:17-38 | there is room, whatever the ranks, if every limited graph has a slot and only tasks of graphs without a limit wait |
| DispatchFinite.MoveLess | src/schedule.cpp:204-242 | every operation uses up some of the work left |
| DispatchFinite.RunsAreFinite | src/schedule.cpp:204-242 | a run without new nodes and new waits is no longer than the work at its start |
| DispatchFinite.EveryRunCompletes | src/schedule.cpp:204-242 | from any reachable state with a rank and room, whatever the threads do, a run has at most as many operations as the work at its start, and once nothing can move every created node was run exactly once |
| DispatchFinite.RunToTheEnd | src/schedule.cpp:204-242 | and from every reachable state a run leads to where nothing is left to do |
| DispatchSafe.EndRankIsSafe | src/schedule.cpp:204-242 | if a run completes, the order in which nodes end is a rank with room |
| DispatchSafe.CompletesIff | src/schedule.cpp:204-242 | without edges between limited graphs: some run from a reachable state completes if and only if all do, and if and only if there is a rank with room |
| DispatchWaits.StepKeepsLayers | src/aspect.cpp:107-148 | every operation keeps a rank along the waits of the engine, if create_edges requires no node that waits for the new one and the cycle check lets the wait through |
| DispatchWaits.RankIsLayered | src/aspect.cpp:73-105 | such a rank is one completion can use |
| DispatchWaits.CheckedRunCompletes | src/aspect.cpp:129-148 | so from any state of such a run in which limited graphs are fed the engine completes, whatever the threads do |
| DispatchExamples.CompleteIffSlots | src/graph.cpp:17-38 | all stuck states of runs without waiting tasks in limited graphs are complete if and only if such graphs have a slot |
| DispatchExamples.WaitsForItsSlot | src/aspect.cpp:129-148 | a run to a stuck state: whoever has the only slot waits for a node of its own graph, which is held |
| DispatchExamples.GraphsBlockEachOther | src/aspect.cpp:129-148 | a run to a stuck state of two graphs with one slot each: whoever has the slot of one waits for a held node of the other |
| GraphWaiters.StepKeeps | src/graph.cpp:53-62 | every operation of creation, finish, sweep and registration keeps the invariant of the waiters |
| GraphWaiters.ReleasedAtMostOnce | src/graph.cpp:53-62 | a waiter is never released twice, although the list is never cleared and the count may rise and fall again |
| GraphWaiters.NoWaiterLost | src/graph.cpp:277-288 | at count zero with no sweep due every registered waiter has been released |
| GraphWaiters.TimelyIffNoSweepDue | src/graph.cpp:277-288 | when a waiter finds the graph unfinished under the lock, every continuation releases it in time if and only if no sweep is due at that moment |
| GraphWaiters.DueReleasesEarly | src/graph.cpp:53-62 | from any state with a sweep due and an earlier node unfinished, operations that lead to an early release |
| GraphWaiters.ReleaseIsTimely | src/graph.cpp:277-288 | a waiter registered while no sweep was due is released only when all nodes created before have finished |
| GraphWaiters.ReadyIffFinished | src/graph.cpp:277-288 | either test lets the waiter be ready exactly if all nodes of the graph have finished |
| GraphWaiters.SweepDueIff | src/graph.cpp:53-62 | a finish makes a sweep due exactly if it leaves no node unfinished |
| GraphWaiters.EarlyRelease | src/graph.cpp:53-62 | a run in which a late sweep releases a waiter before such a node has finished |
| GraphWaiters.GraphCell.FinishFetchSub | src/graph.cpp:54 | who brings the count to zero has to sweep |
| GraphWaiters.GraphCell.CountWaiterOff | src/graph.cpp:56-60 | counts a waiter off; true for the one count that releases it |
| GraphWaiters.GraphCell.TestCount | src/graph.cpp:277-282 | either test of the count: the waiter is ready at once exactly if it is zero |
| GraphWaiters.GraphCell.PushWaiter | src/graph.cpp:284-285 | raises the waiter's count and appends it |
| CycleCheck.FrontierIsPaths | src/aspect.cpp:73-105 | the frontier after k rounds is what chains of k waits between unfinished nodes lead to |
| CycleCheck.EndsIff | src/aspect.cpp:73-105 | the search, which keeps no visited set, ends if and only if the current node can be reached from the checked ones or no chain from them comes to a node twice |
| CycleCheck.AcyclicEnds | src/aspect.cpp:73-105 | so in an acyclic relation it always ends |
| CycleCheck.DoCheckCircle | src/aspect.cpp:73-105 | when it ends, it returns whether the current node is reachable from the checked ones through unfinished nodes |
| CycleCheck.UpstreamsOf | src/aspect.cpp:91-101 | the inner loops of a round compute the next frontier |
| CycleCheck.TrapNeverEmpties | src/aspect.cpp:83-102 | while every node of a set waits for one of the set, the frontier keeps a node of it |
| CycleCheck.CheckCircle | src/aspect.cpp:60-71 | the node itself, or with the flag on, reachability |
| CycleCheck.AcyclicIff | src/aspect.cpp:129 | a relation without cycles of several nodes is acyclic exactly if no unfinished node lists itself |
| WaitRelation.StepKeeps | src/aspect.cpp:107-141 | allocation, creation with any required nodes that do not wait for the new one, finishing, checked waits and waits for a graph close no cycle of several nodes |
| WaitRelation.RunIsAcyclicIff | src/aspect.cpp:107-141 | so in such runs a state is acyclic exactly if no unfinished node lists itself |
| WaitRelation.CreateIsExact | src/graph.cpp:318-321 | create_edges closes a cycle of several nodes exactly if another required node waits for the new one already |
| WaitRelation.FreshIsHarmless | src/graph.cpp:318-321 | which is never so while nobody waits for the new node |
| WaitRelation.CheckIsExact | src/aspect.cpp:129-141 | a wait may go ahead if and only if no cycle comes of it: the check refuses nothing harmless |
| WaitRelation.SelfListedNodeHangsSearch | src/graph.cpp:318-321 | a run to a state in which a node lists itself and a check of it never ends |
| WaitRelation.FlagOffMissesCycle | src/aspect.cpp:67-69 | a run to a state in which, with the flag off, a wait that closes a cycle of two nodes goes ahead |
| WaitRelation.RequireAddsHelperIff | src/aspect.cpp:110-142 | a wait that goes ahead adds a helper that notes the nodes, and notes it, if and only if one of them is unfinished; else the task notes the nodes themselves |
| WaitRelation.CreateNotes | src/graph.cpp:315-332 | create_edges notes the required nodes that are not null, and the flag after them |
| WaitRelation.OthersNote | src/aspect.cpp:161-185 | a wait for a graph adds a helper that notes no node, and notes it; a new node notes none, and finishing changes no note |
| WaitRelation.Assistant.RequireNode | src/aspect.cpp:107-141 | on the upstream lists: nothing to wait for exactly if all nodes have finished, refused exactly if the task is among them or waited for by one, else a new helper node; with the whole new lists |
| YieldProof.StepKeeps | src/aspect.cpp:37-57 | every operation of every worker keeps the invariant of the contexts |
| YieldProof.ExecutedByOne | src/executor.cpp:119-139 | no context is executed by two workers, nor after it was deleted |
| YieldProof.JumpsIntoSaved | src/aspect.cpp:44-56 | a helper jumps only into a context whose registers are saved and that nobody executes |
| YieldProof.ResumedOncePerYield | src/aspect.cpp:131-158 | each time a context is left it is entered again at most once |
| YieldProof.OneHelperPerContext | src/aspect.cpp:131-142 | at most one unfinished helper refers to a context |
| YieldProof.DeletedOnce | src/aspect.cpp:155-157 | a context is deleted at most once, and nothing refers to it then |
| YieldProof.NoneLeaks | src/executor.cpp:97-103 | a context that is not deleted is executed, has a helper or a thread, or is about to be deleted |
| YieldProof.SpinIsShort | src/aspect.cpp:44-46 | a worker waiting for a context to be yielded waits for another one that can go on |
| YieldProof.OnlySpinBlocks | src/schedule.cpp:180-202 | nothing else blocks a worker |
| YieldStatus.StatusIs | src/schedule.cpp:180-188 | the status of every context that is not deleted: running while a worker executes it past its entry, initial or ready before, still running when it was left until who left it says so, then yielded, and running again from the mark of its helper on |
| YieldStatus.YieldedIsFree | src/aspect.cpp:44-46 | a context that says it is yielded, and has a helper, is saved and executed by nobody |
| YieldStatus.TasksRunInRunning | src/schedule.cpp:180-202 | tasks run in contexts marked running |
| YieldMachine.Threads.SwapNewContext | src/executor.cpp:119-131 | the swap remembers the context left and enters a fresh one |
| YieldMachine.Threads.MarkEntered | src/schedule.cpp:180-182 | the fresh context is marked running |
| YieldMachine.Threads.MarkLeftContext | src/schedule.cpp:183-186 | only then the context left is marked yielded |
| YieldMachine.Threads.PollYield | src/aspect.cpp:44-46 | a helper goes on exactly when its context is marked yielded |
| YieldMachine.Threads.SetContext | src/executor.cpp:133-139 | the jump into a saved context remembers the one abandoned |
| YieldMachine.Threads.DeletePre | src/aspect.cpp:155-157 | the abandoned context is deleted, for the first time |
| YieldMachine.Threads.JoinThread | src/executor.cpp:97-103 | the last two contexts of a thread are deleted |
| ErrorRate.FastIsPop | src/error_rate.cpp:13-31 | the table holds the number of ones of every byte |
| ErrorRate.Position | src/error_rate.cpp:43-44 | word and bit of a record are its number modulo the window, also after the counter has wrapped |
| ErrorRate.RingErrors | src/error_rate.cpp:42-51 | for every history the ring holds as many errors as the last window-many records |
| ErrorRate.OnesAreErrors | src/error_rate.cpp:53-61 | the ones of the words are the errors of the ring |
| ErrorRate.LocalErrorRate.RecordError | src/error_rate.cpp:42-46 | records an error |
| ErrorRate.LocalErrorRate.RecordSuccess | src/error_rate.cpp:47-51 | records a success |
| ErrorRate.LocalErrorRate.ErrorCnt | src/error_rate.cpp:53-61 | returns the number of errors among the last `bit_size` records, for every history |
| ErrorRate.RateIsOfWindow | head/error_rate.h:18 | the rate is that of the window exactly if the window is 128 or there is no error |
| ErrorRate.WindowWords | src/error_rate.cpp:36-39 | a window has at least one word exactly if more than 32 bits were asked for |
| LockQueue.TestsExact | head/queue/lock.h:25-30 | the wrapping tests and the difference tell the true state from any equal start, wrapped or not |
| LockQueue.HoldsPush | src/queue/lock.cpp:49-51 | writing after the last item appends to the ring's contents and disturbs none; no other slot has an item |
| LockQueue.HoldsPop | src/queue/lock.cpp:35-38 | clearing the first slot removes the first item only; no slot keeps an item that was taken |
| LockQueue.LimitQueue.TryEnqueue | src/queue/lock.cpp:43-54 | refuses exactly when full, else appends |
| LockQueue.LimitQueue.TryDequeue | src/queue/lock.cpp:29-41 | empty exactly when there is nothing, else the first item |
| LockQueue.LimitQueue.SizeApprox | src/queue/lock.cpp:14-20 | the number of items |
| LockQueue.UnLimitQueue.Pop | src/queue/lock.cpp:63-72 | takes the first item; the counter is owed one |
| LockQueue.UnLimitQueue.CountDown | src/queue/lock.cpp:73 | settles it |
| LockQueue.LagExact | src/queue/lock.cpp:77-83 | the approximate size is right exactly when as many calls owe the counter one up as one down |
| BitMap.BitMapSet | src/util.cpp:20-27 | sets exactly that bit; ignores a bit beyond the size; refuses sizes of 64 and more |
| BitMap.BitMapGet | src/util.cpp:29-37 | tells whether the bit is set |
| BitMap.BitMapIdx | src/util.cpp:5-18 | lists exactly the set bits below the size, increasing |
| BitMap.AlignSizeIsLeast | src/util.cpp:39-42 | on numbers without bound, the least power of two not below the size |
| BitMap.IntAlignExactIff | src/util.cpp:39-42 | the shift of an `int` gives it exactly for sizes up to 2^30 |
| Bits.MaskIsRemainder | src/queue/lock.cpp:36 | masking with a power of two less one is the remainder |
| Cyclic.Gap | src/queue/free_lock.cpp:70 | two different tickets of the same slot are at least a capacity apart |

## Left out

- Weak memory: operations interleave in one sequentially consistent order; fences and memory orders are not modelled.
- Futex system calls: a slot wait is an operation that is disabled until the version matches; `TaskQueue` sleeps if the high word is zero and a wake of n is n single wakes; EINTR and the 32-bit comparison of a 64-bit version are not modelled.
- Counter widths: `m_count` of `TaskQueue` and of a limited graph and `wait_count` are taken to stay within 32 bits; the methods on the fields require it.
- FreeLockQueue.NeverOverOrUnderrun: is about counters without bound; on words it holds as long as every check is fresh (`FreeLockOverrun.FreshNeverOverruns`), and `FreeLockOverrun.LateCallOverruns` shows that it needs to be.
- FreeLockMachine.LimitQueue.constructor: sizes from 2 to 2^30; above that `align_size` is wrong (`BitMap.IntAlignExactIff`), and one slot is covered by `CapacityOneCrashes` on the state machine only.
- FreeLockMachine.LimitQueue.EnqFirstCheck: requires fresh loads: misses since the load of `missed`, dequeues since the load of `read` and calls with a number and no decision, together fewer than 2^32 - 1.
- FreeLockMachine.LimitQueue.EnqRecheck: requires at most 2^32 - 1 misses since the load of `missed` and calls with a number and no decision together, and fewer than about 2^64 numbers drawn since its own.
- FreeLockMachine.LimitQueue.DeqFirstCheck: requires the same as EnqFirstCheck at the other end.
- FreeLockMachine.LimitQueue.DeqRecheck: requires the same as EnqRecheck at the other end.
- FreeLockMachine.LimitQueue.EnqPoll: requires the version to be behind the ticket by less than 2^64, which by `FreeLockStale.LagIsCalls` is so with fewer calls under way than 2^64 over the capacity.
- FreeLockMachine.LimitQueue.DeqPoll: requires the version to be behind by less than 2^32, likewise.
- FreeLockMachine.LimitQueue.TryEnqueue: one whole call with no other call under way; calls in each other's way are the methods for its operations.
- FreeLockMachine.LimitQueue.TryDequeue: likewise, and of a ticket that survives the narrowing to an `int`.
- FreeLockMachine.LimitQueue.SizeApprox: says nothing while calls are under way, when the program promises an estimate only.
- TaskQueueMachine.Queue.SignalFetchSub: requires the counter to stay within 32 bits, as its low half is read through an `int32_t`; `NarrowExact` says what happens otherwise.
- TaskQueueMachine.Queue.WaitFetchSub: likewise; so do the methods that raise the counter.
- EdgesMachine.Engine.TestAndSetBit: test and set of the bitmap are one step, so calls of add_downstream on one upstream node are taken to be serialised with each other; they race freely with its finish.
- EdgesMachine.Engine.PushDownstream: append and unlock are one step, as nobody else reads the list without the lock.
- Node statuses Ready and Yield are folded into Running, a helper stays Running where the program sets Recoverable, and the worker's metrics and its idle and ready counters are not modelled.
- The shared queue of `Dispatch` is a multiset from which an idle worker takes any node, as `TaskQueue` shows that a dequeue succeeds while signalled work waits; `enqueue` and `wait_dequeue` are one operation there.
- DispatchRuns.StepKeeps: helpers of `wait_graph` and nodes that wait for a graph are the subject of `GraphWaiters` and not in `Dispatch`, so completion says nothing of tasks that wait for a graph; the wait count of a graph is not there either. Creating nodes from within a running node and outside of one are the same action, and the code of a running node is taken to return.
- DispatchFinite.EveryRunCompletes: assumes that no node is created and no task begins to wait during the run; both may happen before it.
- A node is passed to create_edges once. Null entries make the search dereference null and are not modelled there.
- WaitRelation.Assistant.RequireNode: no null entries, and only calls whose search ends (`CycleCheck.EndsIff` says which do); a call whose search does not end never returns.
- The cycle check and the append of the helper are one step; `loose_get_status` may be older in the program.
- ParallelLimit.SelfQueue.EnqueueFetchAdd: the counter is below 2^31 - 1; the queue behind it is taken large enough, and its try_enqueue not to fail for no reason, as the program asserts.
- ParallelLimit.SelfQueue.DequeueFetchSub: the counter is above -2^31.
- Graphs with parallelism of 30 and more leave the limit flag unset in one constructor branch; only limited and unlimited graphs are modelled.
- Lifetimes: destructors, `clear_graph`, ghost nodes, the pool of reusable nodes, `Schedule::destroy`, shared pointers.
- Coroutine assembly, stacks, `madvise` and the stack pool: a context is an owned token, and saving it is one step.
- Fairness: no thread is promised a turn; progress is stated as "something can move" with a bound on all runs.
- The error window is used by one thread at a time; the division of the rate is over real numbers.
- Graph dumps, metrics, debug names, flags, timing, the future adapter, benchmarks and demos.
