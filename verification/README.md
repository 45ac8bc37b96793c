# miniruntime: a verified model of the concurrent runtime

This project models the concurrent core of miniruntime and proves what it guarantees: the lock-free queue
together with the hazard pointers that recycle its nodes, the bounded blocking queue, the self-resizing thread
pool, futures, the event loop with its handles, cancellation in the task scheduler, and the logger.

## How the model works

Code that threads run against each other is a state machine. A state holds what the threads share and one program
counter per thread with its local variables; a step makes one shared access (a load, a store, a CAS, a critical
section, a notification or a system call). A run is any sequence of enabled steps from an initial state, so a
statement about every state of every run covers every interleaving. Dafny methods execute without interruption, so
this code is modelled by step functions and not by methods. The operations that the source performs on its own
lists and handles without interruption are classes with methods and loops (`RetiredList.Reclaimer`,
`Handles.Kernel`, `Handles.EventLoop`, `Handles.Handle`).

History variables (the order in which nodes were linked, which values were accepted, how often an attempt failed)
are fields that steps write and never read.

| modules | source |
|---|---|
| `MichaelScott`, `MichaelScottInvariant`, `AtomicQueue`, `MichaelScottTheorems`, `MichaelScottClosing`, `MichaelScottAlone` | the lock-free queue over nodes that are never reused |
| `Reclamation`, `ReclamationInvariant`, `ReclamationProof`, `ReclamationSteps`, `ReclamationSystem`, `ReclamationTheorems` | the same program over addresses that are reused: slots, scans, retired lists, orphans, the pool |
| `ReclamationSolo`, `ReclamationMask`, `ReclamationEmpties`, `ReclamationNeedsH`, `ReclamationBreaks` | threads that run alone, and until the queue is empty; that hypothesis H is exact; the run that breaks it |
| `ReclamationGarbage`, `ReclamationExit` | how much garbage is left when slots move during scans; the nodes of a thread that ends, and draining |
| `RecordList`, `RecordRefinement`, `RetiredList` | the announcement list, and that the scans above walk along it; the sequential code of the reclaimer |
| `BlockingQueue`, `BlockingQueueTheorems`, `BlockingQueueClosing` | the monitor with two condition variables |
| `AtomicBoundedQueue`, `BlockingQueueHistory`, `BlockingQueueCalls` | that its runs are histories of an atomic bounded queue; what becomes of each value; what uninterrupted calls do |
| `ThreadPool`, `ThreadPoolTheorems`, `ThreadPoolShutdown` | workers, clients, destructor, the zombie slot |
| `ThreadPoolTasks`, `ThreadPoolResizing` | what becomes of each task; when the pool grows and shrinks, and that it can be destroyed |
| `Futures` | promise and future |
| `EventLoop`, `EventLoopDispatch`, `Handles` | event loop, its dispatch of a whole batch, handles |
| `Scheduler`, `SchedulerTheorems`, `SchedulerCancelled` | `schedule`, `cancel` and the cleaner |
| `SchedulerOrigins`, `SchedulerAlone` | that only `cancel` closes a future; the life of a timer without interference |
| `Logger`, `LoggerTheorems`, `LoggerFlush`, `LoggerShutdown`, `LoggerCalls` | the logger on top of the blocking queue |
| `Counting` | counting elements of a sequence, the larger of two numbers |

Assumptions. Memory is sequentially consistent and a CAS fails only on a mismatch. Time-outs may strike at any
moment. Constructors, moves and allocations do not throw. A system call succeeds. Counters are unbounded except the
queue's size counter, which wraps at 2^64.

**Hypothesis H.** `emplace` drops its hazard at line 147 and moves tail only at line 150. The results on recycled
nodes assume that the pool does not hand out the node a producer linked after while that producer is between its
CAS of line 144 and its CAS of line 150 (`Reclamation.RespectsH`); holding the slot until after line 150 would
ensure it. H is exact: in every state that a run with H can reach, a possible move respects H if and only if, whatever
happens afterwards with H respected, the pointer tail addresses the last or the second-to-last node of the list that
one meets by following addresses from head (`ReclamationNeedsH.HIsExact`).
And it does not hold by itself: for every retire threshold, the code's 1024 included, there is a run with one
allocation that breaks H and at whose end tail is behind head and points into the pool
(`ReclamationBreaks.TailIsReclaimed`). The retire threshold is a parameter of this part of the model.

## Where the code does less than its comments say

Each of these is shown by a run of the model, together with the exact condition under which the promise is kept.

- `MichaelScottQueue::pop` may return nullopt while a value is in the queue (`NothingWithAValueInside`). A consumer that
  has seen the queue empty and is about to test the flag is sure to return nullopt only from a closed and drained queue
  exactly when the queue is closed and empty already and no producer is between lines 116 and 144
  (`NothingIsTrueIff`). The same condition says when a closed and empty queue stays so (`DrainedForGoodIff`).
- `BoundedBlockingQueue::close` sets its flag outside the mutex and can miss a waiter (`MissesTheWakeUp`), which then
  sleeps until another notification or a spurious wake-up. It wakes a waiter exactly when that waiter is not between
  testing its condition and blocking (`CloseWakesIff`), and all waiters exactly when none is (`CloseWakesAllIff`).
- `Logger::shutdown` can wait for a writer that sleeps, for as long as there is no other shutdown and no spurious
  wake-up (`ShutdownHangs`, `StuckForever`). It is sure to wake the writer exactly when the writer is not about to
  block as the flag is set (`ShutdownWakesIff`).
- A Ready future can become Closed and a Closed one Ready (`ClosedReplacesReady`, `CancelledYetReady`). Closed is final
  exactly when the claimer has come and gone (`ClosedForGoodIff`), Ready exactly when nobody is inside `close` and
  nobody calls it (`ReadyForGoodIff`).
- `TaskScheduler::cancel` returns true for every registered timer. It prevents the task exactly when the loop has not
  copied the callback yet (`CancelPreventsIff`). The future it has closed stays Closed exactly when its promise was
  claimed and nobody still delivers, or it is unclaimed and the task is neither in the loop's hand nor queued nor with
  a worker (`SchedulerCancelled.ClosedForGoodIff`).
- `Logger::flush` may return before a message accepted earlier is written (`FlushMissesAMessage`), because messages are
  counted after they are pushed. It waits for all messages accepted before the call exactly when, at the call, all of
  them had been counted or all of them had been written (`FlushIsCompleteIff`).
- The event loop looks events up by descriptor number. A callback can start although its own descriptor never became
  ready (`StartsWithoutBeingReady`): exactly when the descriptor that was ready has been closed since and its number
  used again (`PicksItsOwnIff`).
- A pool accepts a floor of no workers (`hardware_concurrency`, its default, may be 0). The first task then
  stays in the queue until there is another call, because its own size reading, taken before its push, finds no more
  tasks than twice the number of threads, namely none (`NeverRuns`). Tasks can always be brought to their end without
  further calls exactly when the floor is at least one and the queue can hold something (`TasksCanFinishIff`).
- Registering a raw descriptor anew and assigning the handle to the old handle's variable removes the new registration,
  exactly when the old handle was valid for the same descriptor (`Handles.Reassign`).

## Model

| member | source | states |
|---|---|---|
| `MichaelScottTheorems.RunKeepsInv` | include/miniruntime/task/michaelscottqueue.h:114-225 | In every state of every run of `emplace`, `pop`, `timeoutPop` and `close` the invariant holds: one chain in link order, each thread's pointers were head or tail when it says so, every unlinked node has one owner. |
| `MichaelScottInvariant.StepKeepsInv` | include/miniruntime/task/michaelscottqueue.h:114-225 | One step of any thread at any program point keeps the invariant for that thread and for all others. |
| `MichaelScottTheorems.StepRefines` | include/miniruntime/task/michaelscottqueue.h:114-225 | Each step is a step of an atomic queue or invisible to it: a push takes effect at the CAS of line 144, a pop at the CAS of line 213, Empty at the load of line 188. |
| `MichaelScottTheorems.Linearizable` | include/miniruntime/task/michaelscottqueue.h:69-225 | Every run is a history of the atomic FIFO queue in which each call takes effect once, between its invocation and its return, with the result it returns. |
| `AtomicQueue.FifoExactlyOnce` | include/miniruntime/task/michaelscottqueue.h:64-69 | In every history of the atomic queue the values sent are the values received followed by the contents: first in first out, nothing lost, nothing twice. |
| `MichaelScottTheorems.DeliveredInLinkOrder` | include/miniruntime/task/michaelscottqueue.h:144-220 | The same for every run of the lock-free queue: values leave in the order in which their nodes were linked, each exactly once. |
| `MichaelScottTheorems.OneAcyclicChain` | include/miniruntime/task/michaelscottqueue.h:126-158 | Following `next` from head visits distinct nodes and ends; tail is the last or the second-to-last of them; there is one more node than values. |
| `MichaelScottTheorems.NextIsWrittenOnce` | include/miniruntime/task/michaelscottqueue.h:144-151 | A `next` field that is set never changes again; head and tail only move forward. |
| `MichaelScottTheorems.FailureHasACause` | include/miniruntime/task/michaelscottqueue.h:126-158 | An attempt of `emplace` or `tryPop` fails only if a CAS on head, tail or a `next` field succeeded since it began. |
| `MichaelScottTheorems.FailuresAreBounded` | include/miniruntime/task/michaelscottqueue.h:179-225 | No thread fails more often than three times the number of values ever linked. |
| `MichaelScottTheorems.RunKeepsSize` | include/miniruntime/task/michaelscottqueue.h:144-154 | The size counter is the chain's length, minus pushes linked but not counted, plus pops unlinked but not counted, modulo 2^64. |
| `MichaelScottTheorems.SizeAtRest` | include/miniruntime/task/michaelscottqueue.h:213-216 | With nobody inside, the counter is exact. |
| `MichaelScottClosing.AloneLinks` | include/miniruntime/task/michaelscottqueue.h:126-158 | Obstruction freedom: a producer that runs alone, from any reachable point, links within a bounded number of steps. |
| `MichaelScottAlone.ReturnsAlone` | include/miniruntime/task/michaelscottqueue.h:69-225 | Obstruction freedom of every call: from any reachable point a thread left alone returns within a bounded number of steps, unless it pops from an empty and open queue. A push has appended its value or was refused by a closed queue; a pop returns the oldest value and takes just it, or nothing from a closed queue that it finds or had found empty. |
| `MichaelScottClosing.NothingIsTrueIff` | include/miniruntime/task/michaelscottqueue.h:66-77 | Over everything the others can do before a consumer that has seen the queue empty tests the flag: finding it set implies that the queue is drained, if and only if the queue is closed and empty now and no producer is committed (another thread being idle). |
| `MichaelScottClosing.DrainedForGoodIff` | include/miniruntime/task/michaelscottqueue.h:161-164 | A closed and empty queue stays so in every continuation if and only if no producer is between the test of the flag and its link. |
| `MichaelScottClosing.NothingWithAValueInside` | include/miniruntime/task/michaelscottqueue.h:69-81 | A run in which `pop` returns nullopt with a value in the queue. |
| `ReclamationTheorems.SystemRunKeepsInv` | include/miniruntime/task/hazardpointers.h:54-150 | Under H, the invariant of the queue and of the reclaimer holds in every state of every run with reused nodes, scans in progress, thread exits and drains. |
| `ReclamationTheorems.MoveKeeps` | include/miniruntime/task/hazardpointers.h:54-181 | Each step that respects H keeps it: protect, unprotect, allocate, retire, every read of a scan, orphan scan, thread exit, drain. |
| `ReclamationTheorems.HeldNodesAreNotReclaimed` | include/miniruntime/task/hazardpointers.h:233-259 | A node that a thread holds after its re-check is in one of its slots, is still the node it was, is not in the pool and is nobody's new node, although scans read the slots one by one. |
| `ReclamationSystem.NobodyHolds` | include/miniruntime/task/hazardpointers.h:233-242 | When a walk over the records has come to its end without a hit, no thread holds the node, whatever moved during the walk. |
| `ReclamationTheorems.DereferencesAreSafe` | include/miniruntime/task/michaelscottqueue.h:135-215 | Whatever a thread dereferences is the node it means, and not in the pool; it reads what it would read if nodes were never reused. |
| `ReclamationInvariant.StepAgrees` | include/miniruntime/task/michaelscottqueue.h:114-225 | A step on reused addresses does what the step on never-reused nodes does: no comparison of pointers is fooled. |
| `ReclamationTheorems.MoveRefines` | include/miniruntime/task/michaelscottqueue.h:114-225 | Each step of the combined system is a step of the atomic queue, or invisible to it. |
| `ReclamationTheorems.LinearizableWithReuse` | include/miniruntime/task/michaelscottqueue.h:69-225 | Under H, every run with reused nodes is a history of the atomic FIFO queue. |
| `ReclamationTheorems.FailuresAreBoundedWithReuse` | include/miniruntime/task/michaelscottqueue.h:126-225 | The bound on failed attempts also holds with reused nodes. |
| `ReclamationTheorems.EachNodeIsInOnePlace` | include/miniruntime/task/hazardpointers.h:81-181 | Every allocated node is in exactly one place: with a producer, in the chain, with the consumer that detached it, on one retired list, on the orphan list, or in the pool; and on no list twice. |
| `ReclamationTheorems.NodesMoveInOrder` | include/miniruntime/task/hazardpointers.h:81-181 | Every move, thread exit and drain included, moves a node only along its life, and only the mover's own or an orphan. |
| `ReclamationExit.ExitedKeepsNothing` | include/miniruntime/task/hazardpointers.h:164-181 | In every run no node is on the retired list of a thread that has ended, or waits for its scan. |
| `ReclamationExit.ExitOrphans` | include/miniruntime/task/hazardpointers.h:164-181 | When a thread ends exactly its retired nodes join the orphans; every other node stays where it is. |
| `ReclamationExit.DrainReclaims` | include/miniruntime/task/hazardpointers.h:114-122 | After a drain with nobody inside, the pool has gained exactly the orphans and the caller's retired nodes, and neither kind is left. |
| `ReclamationSteps.FreeSlot` | include/miniruntime/task/hazardpointers.h:54-64 | `protect` always finds a free slot, the first or the second: it never throws in the queue. |
| `ReclamationNeedsH.OneAcyclicChainWithReuse` | include/miniruntime/task/michaelscottqueue.h:126-158 | With reused nodes, following addresses from head meets no address twice and ends; tail addresses the last or the second-to-last; there is one more address than values. |
| `ReclamationNeedsH.HIsExact` | include/miniruntime/task/michaelscottqueue.h:144-151 | A possible move respects H if and only if in every continuation with H tail addresses the last or second-to-last node from head on. |
| `ReclamationNeedsH.HIsExactInRuns` | include/miniruntime/task/michaelscottqueue.h:144-151 | The same at the end of every run that respects H. |
| `ReclamationNeedsH.BreaksWithoutH` | include/miniruntime/task/michaelscottqueue.h:118-151 | After any allocation that breaks H, the allocating thread, with help where it waits for the orphan lock, and one CAS of the paused producer bring tail to an address that is not on the list. |
| `ReclamationBreaks.TailIsReclaimed` | include/miniruntime/task/michaelscottqueue.h:144-151 | For every retire threshold there is a run with one allocation that breaks H at whose end tail is behind head, off the list, and its address in the pool. |
| `ReclamationSolo.PushesAlone` | include/miniruntime/task/michaelscottqueue.h:126-155 | With reused nodes, a push that runs alone from any point after its allocation links its node last, moves tail onto it and returns. |
| `ReclamationSolo.DetachesAlone` | include/miniruntime/task/michaelscottqueue.h:179-214 | With reused nodes, a pop that runs alone on a queue that is not empty moves head on by one. |
| `ReclamationSolo.ScansAlone` | include/miniruntime/task/hazardpointers.h:91-106 | A scan that runs alone, with nothing announced and no orphans, puts the whole list into the pool, in its order, and returns. |
| `ReclamationEmpties.LockIsFreed` | include/miniruntime/task/hazardpointers.h:201-259 | Whoever waits for the orphan lock can have it: its holder scans to the end, whatever the slots announce, and releases it. |
| `ReclamationEmpties.Empties` | include/miniruntime/task/michaelscottqueue.h:179-225 | A thread that pops, whatever the others hold or announce, can go on until one node is left. |
| `ReclamationGarbage.MoveValues` | include/miniruntime/task/hazardpointers.h:54-64 | No move gives a thread a pointer to announce to a retired node that it did not have before. |
| `ReclamationGarbage.MoveTidies` | include/miniruntime/task/hazardpointers.h:81-106 | During a scan, nodes kept plus pointers into the rest of the list never exceed two per announcement record. |
| `ReclamationGarbage.GarbageIsBoundedInRuns` | include/miniruntime/task/hazardpointers.h:38-106 | In every run, with slots that move during scans, a thread that is not scanning its list has at most max(threshold, two per record) nodes on it. |
| `RecordList.RunKeepsInv` | include/miniruntime/task/hazardpointers.h:218-230 | Under concurrent publication every published record leads to the one published before it, and a walk has seen the newest part of the records that were there when it began. |
| `RecordList.ListIsAcyclic` | include/miniruntime/task/hazardpointers.h:218-242 | Following the links from the head, however far, meets every published record once, newest first. |
| `RecordList.OnlyGrowsAtTheHead` | include/miniruntime/task/hazardpointers.h:224-228 | The list at an earlier moment is the older part of the list at any later moment. |
| `RecordList.WalkVisitsEveryOlderRecord` | include/miniruntime/task/hazardpointers.h:235-241 | A walk ends after as many steps as there were records when it began, and has then visited exactly those. |
| `RecordList.FailuresAreBounded` | include/miniruntime/task/hazardpointers.h:224-228 | A publisher's CAS fails at most as often as records have been published. |
| `RecordList.PublishesAlone` | include/miniruntime/task/hazardpointers.h:218-230 | A publisher left alone publishes within five steps, from wherever it is: its record becomes the newest, leads to the one before, and no other link changes. |
| `RecordList.WalksAlone` | include/miniruntime/task/hazardpointers.h:235-241 | A walk left alone comes to its end, after one step for each record not yet visited, having visited all that were there when it began. |
| `RecordRefinement.PublicationRefines` | include/miniruntime/task/hazardpointers.h:218-230 | The successful CAS of `initRecord` is the step in which the combined system publishes the thread's record, at the same place in the order; its other accesses change nothing there. |
| `RecordRefinement.WalkRefines` | include/miniruntime/task/hazardpointers.h:235-241 | A walk along the links visits, at each position, the record that a scan of the combined system reads at that position. |
| `RetiredList.Reclaimer.IsProtected` | include/miniruntime/task/hazardpointers.h:233-242 | True if and only if some slot of some record holds the pointer. |
| `RetiredList.Reclaimer.Sift` | include/miniruntime/task/hazardpointers.h:97-102 | Exactly the unprotected pointers go to the pool, the protected ones survive, both in their order. |
| `RetiredList.Reclaimer.Scan` | include/miniruntime/task/hazardpointers.h:91-106 | After a scan the own list and the orphans are their protected parts, the rest is in the pool, and no node is lost or added. |
| `RetiredList.Reclaimer.ScanOrphaned` | include/miniruntime/task/hazardpointers.h:245-259 | The same for the orphan list alone. |
| `RetiredList.Reclaimer.Retire` | include/miniruntime/task/hazardpointers.h:81-85 | The new list and the nodes in care; with no duplicate, at most max(1024, four per record) remain. |
| `RetiredList.Reclaimer.Drain` | include/miniruntime/task/hazardpointers.h:114-122 | The own list goes to the pool unexamined, the orphans examined; nothing is lost. |
| `RetiredList.Reclaimer.EndThread` | include/miniruntime/task/hazardpointers.h:164-181 | A thread's remaining nodes become orphans, behind those already there. |
| `RetiredList.Reclaimer.Allocate` | include/miniruntime/task/hazardpointers.h:129-139 | The node deallocated last, or null exactly when the pool is empty. |
| `RetiredList.SplitConserves` | include/miniruntime/task/hazardpointers.h:97-103 | Survivors and freed nodes together are the list, as multisets. |
| `RetiredList.SurvivorsAreBounded` | include/miniruntime/task/hazardpointers.h:91-106 | Pigeonhole: a duplicate-free list has at most four survivors per record. |
| `RetiredList.GarbageIsBounded` | include/miniruntime/task/hazardpointers.h:81-106 | After any retire the list has at most max(1024, four per record) nodes. |
| `RetiredList.GarbageStaysBounded` | include/miniruntime/task/hazardpointers.h:38-106 | The bound after any number of retires, with slots that change between them and nodes that come back. |
| `BlockingQueueTheorems.RunKeepsInv` | include/miniruntime/task/boundedblockingqueue.h:49-117 | In every state: the mutex has one holder, and while a consumer sleeps the queue's length is at most the consumers awake plus the notifications on their way; likewise for producers and free slots until `close`. |
| `BlockingQueueTheorems.NoItemIsOverlooked` | include/miniruntime/task/boundedblockingqueue.h:49-107 | If a consumer sleeps and the queue is not empty, some thread is awake to take the item or to wake it. |
| `BlockingQueueTheorems.NeverBothAsleep` | include/miniruntime/task/boundedblockingqueue.h:49-107 | With a capacity of at least 1 and before `close`, a consumer and a producer never both sleep with no wake-up on its way. |
| `BlockingQueueTheorems.FifoAndBounded` | include/miniruntime/task/boundedblockingqueue.h:49-107 | Accepted values are those taken out followed by the contents, and the length never exceeds the capacity. That each value taken out reaches its caller is `BlockingQueueHistory.TakenIsReturned`. |
| `BlockingQueueHistory.Linearizable` | include/miniruntime/task/boundedblockingqueue.h:49-117 | Every run of the monitor, time-outs and spurious wake-ups included, is a history of the atomic bounded queue: each call takes effect in one event and returns what that event gave it, a timed pop its value too. |
| `BlockingQueueHistory.TakenIsReturned` | include/miniruntime/task/boundedblockingqueue.h:49-88 | In every run, a call, timed or not, during which its thread took a value out returns that value and nothing else. |
| `BlockingQueueHistory.TakenAreGiven` | include/miniruntime/task/boundedblockingqueue.h:49-88 | In every run the values taken out are, as multisets, the values that calls have returned and those of calls about to return. |
| `BlockingQueueHistory.ValuesAreConserved` | include/miniruntime/task/boundedblockingqueue.h:49-107 | Read off the calls and their results: every value ever pushed waits with its caller, was refused, is in the deque, is about to be returned, or was returned, once. |
| `BlockingQueueCalls.PopsAlone` | include/miniruntime/task/boundedblockingqueue.h:49-88 | An uninterrupted pop of a nonempty queue, timed or not, open or closed, returns the oldest value and takes just it. |
| `BlockingQueueCalls.FindsNothingAlone` | include/miniruntime/task/boundedblockingqueue.h:49-88 | An uninterrupted pop of an empty queue changes nothing and returns nullopt if the queue is closed or its time is up; otherwise it sleeps. |
| `BlockingQueueCalls.PushesAlone` | include/miniruntime/task/boundedblockingqueue.h:97-107 | An uninterrupted push appends and returns true if there is room, returns false if the queue is closed, and sleeps otherwise. |
| `BlockingQueueCalls.ClosesAlone` | include/miniruntime/task/boundedblockingqueue.h:112-117 | A lone `close` sets the flag, returns, and changes nothing else of the queue. |
| `BlockingQueueTheorems.PopTakesTheOldest` | include/miniruntime/task/boundedblockingqueue.h:57-58 | A pop never meets an empty deque and takes the oldest value not yet delivered. |
| `BlockingQueueTheorems.NothingMeansFinished` | include/miniruntime/task/boundedblockingqueue.h:51-56 | When `pop` returns nullopt, the queue is closed and empty and no producer is about to store. |
| `BlockingQueueTheorems.FinishedForever` | include/miniruntime/task/boundedblockingqueue.h:97-107 | A finished queue stays so and accepts and delivers nothing. |
| `BlockingQueueClosing.FinishedInRun` | include/miniruntime/task/boundedblockingqueue.h:49-117 | The same between any two moments of a run. |
| `BlockingQueueClosing.LaterPushIsRefused` | include/miniruntime/task/boundedblockingqueue.h:97-107 | A push that is called after the queue is finished stores nothing and, if it has returned, has returned false. |
| `BlockingQueueClosing.CloseWakesIff` | include/miniruntime/task/boundedblockingqueue.h:112-117 | `close` is sure to wake a given waiter if and only if that waiter is not about to block when the flag is set. |
| `BlockingQueueClosing.CloseWakesAllIff` | include/miniruntime/task/boundedblockingqueue.h:112-117 | `close` leaves nobody asleep, whatever the schedule, if and only if nobody is about to block when the flag is set. |
| `BlockingQueueClosing.MissesTheWakeUp` | include/miniruntime/task/boundedblockingqueue.h:112-117 | For every capacity, a run from a new queue after which `close` has returned and a consumer sleeps on a closed queue. |
| `ThreadPoolTheorems.RunKeepsInv` | src/task/dynamicthreadpool.cpp:49-168 | The invariant of workers, vector, zombie slot, mutex, tasks and destructor holds in every state of every run. |
| `ThreadPoolTheorems.WorkerKeepsInv` | src/task/dynamicthreadpool.cpp:49-93 | Each step of a worker keeps it: pop, run, retire through the zombie slot, stop. |
| `ThreadPoolTheorems.JoinedHasExited` | src/task/dynamicthreadpool.cpp:83-86 | A retiring worker joins another thread, never itself, and that thread has ended. |
| `ThreadPoolShutdown.ThreadsAreConserved` | src/task/dynamicthreadpool.cpp:49-118 | The number of workers is between the floor and max(floor, cap); every thread ever spawned is in exactly one of vector, zombie slot and joined; a joined thread has ended. |
| `ThreadPoolShutdown.TasksAreConserved` | src/task/dynamicthreadpool.cpp:54-64 | Tasks that the queue accepted are the queued, the running and the finished ones: retiring a worker never drops a task; tasks start in order. That every call is accepted is `ThreadPoolTasks.CalledTasksAreConserved`. |
| `ThreadPoolTasks.CalledTasksAreConserved` | src/task/dynamicthreadpool.cpp:161-168 | In every run the tasks ever passed to `enqueue` are, as multisets, those with clients still inside, the queued, the running and the finished ones. |
| `ThreadPoolTasks.CalledCanFinish` | src/task/dynamicthreadpool.cpp:49-118 | With a floor of at least one and a queue that can hold something: from every reachable state before the destruction some continuation, without further calls, finishes exactly the tasks called so far. |
| `ThreadPoolTasks.TasksCanFinishIff` | src/task/dynamicthreadpool.cpp:102-118 | That holds for a pool if and only if its floor is at least one worker and its queue can hold something. |
| `ThreadPoolTasks.NeverRuns` | src/task/dynamicthreadpool.cpp:102-118 | Otherwise a run with a single call that ends in a stuck state: its task is untouched, and no step of clients or workers leads out. |
| `ThreadPoolResizing.GrowsByOne` | src/task/dynamicthreadpool.cpp:104-118 | A client adds one thread, and touches nobody else, if and only if the size it reads exceeds twice the threads and these are below the cap. |
| `ThreadPoolResizing.RetiresAboveTheFloor` | src/task/dynamicthreadpool.cpp:65-90 | An idle worker above the floor that gets the mutex can be brought to its end; the pool is then smaller by just that worker, and the mutex free. |
| `ThreadPoolResizing.StaysAtTheFloor` | src/task/dynamicthreadpool.cpp:70-73 | At the floor it gives the mutex back and goes on, and nothing else changes. |
| `ThreadPoolResizing.CanBeDestroyed` | src/task/dynamicthreadpool.cpp:141-159 | With nobody inside `enqueue` the destruction can be brought to its end from any reachable state, by steps of the destructor and the workers. |
| `ThreadPoolShutdown.ZombieCanMove` | src/task/dynamicthreadpool.cpp:83-90 | The thread that the holder of the mutex joins needs the mutex no more and can move. |
| `ThreadPoolShutdown.DestructionIsNeverStuck` | src/task/dynamicthreadpool.cpp:141-159 | From its start to its end, the destructor can move or some worker can. |
| `ThreadPoolShutdown.EveryStepDescends` | src/task/dynamicthreadpool.cpp:49-93 | After the stop requests every step of anyone brings the end nearer by a measure. |
| `ThreadPoolShutdown.ShutdownTerminates` | src/task/dynamicthreadpool.cpp:141-159 | After the stop requests at most seven steps per thread and a few more are left, with no assumption on the scheduler, and a run that can go no further has ended the destructor. |
| `ThreadPoolShutdown.AtMostOneMoreTask` | src/task/dynamicthreadpool.cpp:54-64 | After the stop requests no worker starts two tasks. |
| `ThreadPoolShutdown.AfterDestruction` | src/task/dynamicthreadpool.cpp:141-159 | When the vector is joined nobody needs the mutex; at the end all threads are joined, all started tasks finished, and the dropped tasks are those never started. |
| `Futures.RunKeepsInv` | include/miniruntime/asyncresult/detail/future.h:100-131 | In every state at most one thread has claimed, and only it touches the result. |
| `Futures.RunSettles` | include/miniruntime/asyncresult/detail/future.h:100-122 | The status never returns to Pending, a claim stands, and a complete result is never rewritten. |
| `Futures.ReadyIsFinalResult` | include/miniruntime/asyncresult/future.h:85-95 | Ready shows the single claimer's complete result, the same at any later moment. |
| `Futures.AnswersAgree` | include/miniruntime/asyncresult/future.h:30-42 | Every `get` that has come back returned nothing or the claimer's outcome, never a half-written one. |
| `Futures.GetReturns` | include/miniruntime/asyncresult/future.h:30-42 | A `get` of a decided future comes back within three steps of its own: with nothing exactly if the future is Closed, claimed or not, and with the claimer's outcome if it is Ready. |
| `Futures.GetReturnsIff` | include/miniruntime/asyncresult/future.h:32-41 | A waiting `get` can come back without help if and only if the future is decided. |
| `Futures.SetsAlone` | include/miniruntime/asyncresult/future.h:85-95 | The first `setValue` or `setException`, left alone, makes the future Ready with its outcome; a later one changes nothing. |
| `Futures.ClosesAlone` | include/miniruntime/asyncresult/detail/future.h:118-122 | `close` makes the future Closed whatever it was, and leaves flag and result alone. |
| `Futures.ReadyForGoodIff` | include/miniruntime/asyncresult/detail/future.h:118-122 | Short of new calls of `close`, Ready is final if and only if no thread is inside `close`. |
| `Futures.ClosedForGoodIff` | include/miniruntime/asyncresult/detail/future.h:118-131 | Closed is final if and only if the claimer has come and gone. |
| `Futures.ClosedReplacesReady` | include/miniruntime/asyncresult/detail/future.h:118-122 | A run in which one `get` returns the value and a later one nothing. |
| `EventLoop.RunKeepsInv` | src/event/eventloop.cpp:58-80 | In every run of create, move, release and dispatch: registrations, open descriptors and handles agree. |
| `EventLoop.LiveHandlesOwnDistinctDescriptors` | src/event/handle.cpp:27-56 | Live handles own distinct descriptors, open and registered with their own callback; no close hits a descriptor that is not open. |
| `EventLoop.EachDescriptorIsClosedOnce` | src/event/handle.cpp:49-56 | Every descriptor ever opened belongs to a handle and was never closed, or was closed exactly once. |
| `EventLoop.MoveThenRelease` | src/event/handle.cpp:27-56 | After a move only the target can be released, and releasing it unregisters and closes exactly the descriptor that the source had. |
| `EventLoop.AtMostOnceMore` | src/event/eventloop.cpp:233-270 | After its release a registration's callback starts at most once more, and only if the loop had copied it already. |
| `EventLoop.PicksItsOwnIff` | src/event/eventloop.cpp:233-243 | For the next event whose number is registered, the callback picked is that of the registration that became ready if and only if that one has not been closed since. |
| `EventLoopDispatch.DispatchesAlone` | src/event/eventloop.cpp:222-246 | If nobody interferes, a poll is followed by the start of the callback of every reported descriptor, once each, in the order of the report, and the loop polls again. |
| `EventLoopDispatch.EachEventIsDispatched` | src/event/eventloop.cpp:222-246 | Under any interference between one poll and the next, every reported event is looked up exactly once, in order, and the callbacks started are exactly those registered for its number at each look-up. |
| `EventLoop.StartsWithoutBeingReady` | src/event/eventloop.cpp:233-245 | A run in which a callback starts although its descriptor never became ready. |
| `Handles.EventLoop.Create` | src/event/eventloop.cpp:135-153 | A new owning handle; all handles stay consistent. |
| `Handles.EventLoop.CreateRaw` | src/event/eventloop.cpp:122-133 | A handle that does not own its descriptor; the registration is added or replaced. |
| `Handles.Handle.Release` | src/event/handle.cpp:49-56 | Unregisters and, if it owns it, closes the descriptor, once; a second call does nothing. |
| `Handles.Handle.From` | src/event/handle.cpp:27-29 | The new handle has what the old one had, and the old one is empty. |
| `Handles.Handle.Assign` | src/event/handle.cpp:31-38 | Releases what it held and takes over the other's, of the same loop or another, unless assigned to itself. |
| `Handles.ReleaseOne` | src/event/handle.cpp:45-56 | Releasing a handle leaves every other handle's registration and descriptor alone. |
| `Handles.AssignOne` | src/event/handle.cpp:31-38 | Assignment, to itself too, keeps owning handles consistent, and every live registration unchanged. |
| `Handles.MoveOne` | src/event/handle.cpp:27-29 | A move construction keeps owning handles consistent. |
| `Handles.Reassign` | src/event/handle.cpp:31-36 | Re-registering a raw descriptor and assigning the handle keeps the new registration if and only if the old handle was not valid for the same descriptor. |
| `SchedulerTheorems.RunKeepsInv` | src/scheduler/taskscheduler.cpp:96-139 | In every run of schedule, cancel, cleaner, loop and workers: each handle has one owner, and besides `onCancel` only started callbacks reach the promise. |
| `SchedulerOrigins.OnlyCancelCancels` | src/scheduler/taskscheduler.cpp:75-119 | In every run, an `onCancel` that has run or is to run goes back to an earlier `cancel` that found that very timer: the cleaner never runs one. |
| `SchedulerOrigins.UncancelledIsNeverClosed` | src/scheduler/taskscheduler.cpp:75-119 | A future whose timer no `cancel` has found is never Closed, and once Ready stays Ready in every later state, cleaner steps included. |
| `SchedulerOrigins.StaysUntilFired` | src/scheduler/taskscheduler.cpp:82-85 | A timer that has not fired and is not cancelled stays in the registry, its descriptor open and registered for its own callback. |
| `SchedulerAlone.StartedTasksArePooled` | src/scheduler/taskscheduler.cpp:127-130 | In every run each started callback has put its task into the pool, once and in order, the workers take them in that order, and the timers that count as fired are those started. |
| `SchedulerAlone.SchedulesAlone` | src/scheduler/taskscheduler.cpp:123-139 | An uninterrupted `schedule` adds one entry under the next number, with an open, registered descriptor and a fresh promise, and changes nothing else. |
| `SchedulerAlone.FiresAlone` | src/event/eventloop.cpp:222-246 | A reported timer's task is queued behind the others and the timer counts as fired; nothing else changes. |
| `SchedulerAlone.DeliversAlone` | include/miniruntime/asyncresult/future.h:85-95 | A worker left alone with the oldest task makes its future Ready with the outcome, unless the promise was claimed; no other future is touched. |
| `SchedulerAlone.CancelsAlone` | src/scheduler/taskscheduler.cpp:96-119 | An uninterrupted `cancel` removes just its timer, closes the descriptor and the future, and touches no other. |
| `SchedulerAlone.CleansAlone` | src/scheduler/taskscheduler.cpp:78-88 | The cleaner removes a fired timer and closes its descriptor, and touches no future. |
| `SchedulerTheorems.ClientsCanMove` | src/scheduler/taskscheduler.cpp:96-139 | Whoever schedules, cancels or cleans finds its handle in the state it needs. |
| `SchedulerTheorems.CancelPrevents` | src/scheduler/taskscheduler.cpp:96-119 | If `cancel` erases a timer before the loop copied its callback, the task never enters the pool and the future is Closed in every state after `cancel`, with descriptors reused in any way. |
| `SchedulerTheorems.CancelPreventsIff` | src/event/eventloop.cpp:233-245 | The erasure prevents the callback in every continuation if and only if the loop had not copied it. |
| `SchedulerTheorems.CancelCloses` | src/scheduler/taskscheduler.cpp:117-118 | When a `cancel` that found the timer has returned, `onCancel` has run. |
| `SchedulerTheorems.CancelledYetReady` | include/miniruntime/scheduler/taskscheduler.h:105-121 | A run in which a future that `cancel` closed becomes Ready. |
| `SchedulerCancelled.ClosedForGoodIff` | include/miniruntime/scheduler/taskscheduler.h:105-121 | The Closed future of a released timer stays Closed in every continuation if and only if its promise was claimed and no worker delivers, or it is unclaimed and the task is not in hand, not queued and not with a worker (the pool having a worker). |
| `LoggerTheorems.RunKeepsInv` | src/logger/logger.cpp:36-118 | In every run: what left the queue is written or in the writer's hand, the counters are exact up to the callers between push and count. |
| `LoggerTheorems.WrittenIsAPrefix` | src/logger/logger.cpp:36-43 | Written messages are always a prefix of the accepted ones, in order. |
| `LoggerFlush.FlushWaits` | src/logger/logger.cpp:90-96 | When `flush` returns at least as many messages are written as were counted when it was called, in order. |
| `LoggerFlush.FlushIsCompleteIff` | src/logger/logger.cpp:89-96 | All messages accepted before the call are written at every return if and only if at the call all were counted or all were written. |
| `LoggerFlush.AllCountedIff` | src/logger/logger.cpp:107-117 | All accepted messages are counted if and only if no caller is between its push and its count. |
| `LoggerFlush.CountsOneMore` | src/logger/logger.cpp:36-43 | As long as an accepted message is not counted as processed, the writer can be brought to count one more, whoever holds the mutex and without a spurious wake-up. |
| `LoggerFlush.FlushMissesAMessage` | src/logger/logger.cpp:107-117 | A run in which `flush` returns and a message accepted before it was called is not written. |
| `LoggerTheorems.NothingIsLost` | src/logger/logger.cpp:98-103 | When the writer has ended every accepted message is written, and none is accepted or written later. |
| `LoggerCalls.LoggedAreKept` | src/logger/logger.cpp:107-118 | Read off the calls: every message ever logged waits with its caller, was refused, or was accepted, and the accepted ones are written in the end. |
| `LoggerCalls.LeavesAlone` | src/logger/logger.cpp:107-118 | A caller back from its push counts its message if and only if it was accepted, and leaves. |
| `LoggerCalls.WriterEnds` | src/logger/logger.cpp:36-43 | Once the queue is closed, a writer that is neither asleep nor about to be can be brought to its end, and has then written everything accepted. |
| `LoggerCalls.ShutdownCanReturn` | src/logger/logger.cpp:98-103 | Every `shutdown` can be brought to return, wherever the writer is when it begins; the writer has then ended and everything accepted is written. |
| `LoggerShutdown.ShutdownHangs` | src/logger/logger.cpp:98-103 | A run whose `shutdown` joins a writer that sleeps, with nobody on the way to wake it. |
| `LoggerShutdown.StuckForever` | src/logger/logger.cpp:98-103 | From there, without another shutdown and without a spurious wake-up, the writer sleeps and the join waits in every later state. |
| `LoggerShutdown.ShutdownWakesIff` | src/logger/logger.cpp:98-103 | Once `close` has returned the writer is awake in every continuation if and only if it was not about to block when the flag was set. |

## Left out

- Weak memory: `protect` publishes with release only; the model is sequentially consistent, and a CAS does not fail spuriously.
- Several queues that share one reclaimer: the model has one queue; `drain` is allowed when no thread is inside it, and deleting the chain's nodes in the queue's destructor is not modelled.
- Static destruction, `drainPool`, and the return of memory to the system.
- Update in place for the interleaved code: states are values and steps are functions, so aliasing between C++ objects is expressed by node identities, addresses and descriptor numbers, not by references.
- Liveness under every scheduler of waiters on condition variables after `close`, and of a destructor that waits for the mutex before its stop requests are out: the code gives no bound without a fair scheduler. That a schedule to the end always exists is proved (`ThreadPoolResizing.CanBeDestroyed`, `LoggerCalls.ShutdownCanReturn`).
- Task bodies that call into their own pool: a body blocked in `enqueue` while the destructor joins its thread would not end; the model's tasks are single steps that end.
- The pool's queue inside `ThreadPool`: a FIFO whose size a client may read arbitrarily when it is the lock-free one; the two queues have their own models.
- The pool's constructor while it spawns its first workers; runs start when it has returned.
- Time: deadlines, timer periods, `resetInterval` and the split of milliseconds into seconds and nanoseconds.
- Failing system calls, exceptions thrown by values, tasks' bodies or allocation, and the retry on EINTR.
- Event loops that end before their handles: every loop is live. `EventLoop` has one loop; `Handles` any number.
- RetiredList.Reclaimer.IsProtected: the slots do not change during one call; walks over moving slots are in `Reclamation` (`ReclamationSystem.NobodyHolds`).
- RetiredList.Reclaimer.Sift: the slots do not change during one call; see `ReclamationGarbage`.
- RetiredList.Reclaimer.Scan: the slots do not change during one call; see `ReclamationGarbage`.
- RetiredList.Reclaimer.ScanOrphaned: the slots do not change during one call; see `ReclamationGarbage`.
- RetiredList.Reclaimer.Retire: the slots do not change during one call; the bound for moving slots is `ReclamationGarbage.GarbageIsBoundedInRuns`.
- RetiredList.GarbageStaysBounded: slots change between calls only, and no node is retired while still on the list; `ReclamationGarbage.GarbageIsBoundedInRuns` needs neither.
- ThreadPoolShutdown.DestructionIsNeverStuck: states that someone can move, not that the scheduler lets it; before the stop requests idle workers may go round their loop.
- The cleaner's own thread: in `Scheduler` any client may clean at any moment, which includes what the loop's thread does; a callback's enqueue and its fired flag are one step.
- Recurring intervals and `SharedValue`: an interval's release is that of any handle; one lock and one slot would add easy members.
- `setId` and `getId`, the void specialisations of Promise and Future (the same protocol without the write), `isReady`, `isClosed`.
- Log levels, formatting, output streams, source locations and the logging macros.
- Templates, concepts, perfect forwarding.
