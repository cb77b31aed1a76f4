# cosync, modelled and proved in Dafny

`cosync` runs parameterized async tasks on one thread.  Its executor is a vendored and modified
`FuturesUnordered`: a doubly linked list of all tasks, overlaid with a lock-free ready queue that wakers on any
thread may push to, and a polling cycle that polls every task once.  On top of it sit two schedulers, `Cosync` and
`SerialCosync`.  This project models all of it, in two ways.

**As protocols among threads.**  The parts that threads share are state machines whose actions are single accesses to
shared memory, interleaved in any order, with any number of threads:

- `MpscQueue.dfy`: the ready queue, producers against one consumer.
- `AtomicWakerProtocol.dfy`: registrars and wakers around one cell and two bits.
- `AllListProtocol.dfy`: threads that insert into the list of all tasks, iterators that walk it meanwhile, and `unlink`
  in between, which leaves the lengths stored behind the head stale.
- `NoLostWakeup.dfy`: any number of calls of `run` and `run_blocking`, the first two protocols, the `queued` flags and
  the park token together.  `Parking.dfy`: when run_blocking parks, what ends a park, where poll_next ends and when a
  call returns, in all its runs, and runs that lead there.  `Ownership.dfy`: who holds a task's reference.
  `RequeueWindow.dfy`: the two writes of a flag that `NoLostWakeup` takes as one action, and runs that lead there.

**As the imperative code one thread runs.**  The classes have the fields of the source and change them in place; each
method is proved against a function on lists, and the theorems are about those functions:

- `Task.dfy`, `ReadyToRunQueue.dfy`, `Inbox.dfy`, `FuturesUnordered.dfy`, `Iter.dfy`, `Cosync.dfy`, `SerialCosync.dfy`:
  the classes.  `FuturesUnordered.Valid` says that the list is a doubly linked list with its length at the head, that
  the ready queue is a queue, and that every task ever pushed is owned by exactly one of the list, the caller, and the
  ready queue, or has been freed with its future gone.
- `Programs.dfy`: a task's body is the list of what it still has to do (updates of the parameter, spawns, sleeps,
  yields, wakes, and plain suspensions that wake nobody); `PollBody` runs it up to the first await that is not ready.
- `PollCycle.dfy`: one call of `poll_next` on a list.  `Step` is one round of the loop; `Finish` is the loop.
- `PoolCycle.dfy`: what that call does, as part of a run.
- `Scheduling.dfy`: `Run` and `RunBlocking` on lists.  `SerialScheduling.dfy`: the same for the serial scheduler, and
  the reference it refines, `Sequentially`.
- `Sleeping.dfy`: `Run` for any tasks, also those that break the waking contract: who falls asleep, when a run returns,
  and when `run_blocking` does.
- `History.dfy`: whole histories of runs, blocking runs, queueing, unqueueing, stopping and clearing.  `Removal.dfy`:
  what unqueue_task and the clears take away, and what they leave as it was.  `SleepingHistory.dfy`: histories in which
  tasks fall asleep, are woken, stopped and cleared; `SleeperList.dfy` ties them to the methods of the class.

The two ways meet at the ready queue: `QueueAgreement.dfy` proves that, while every other thread stands still, the
protocol and the contracts of the class allow the same calls with the same answers.

So `Cosync.Run`, pointers and flags and all, does what `Sleeping.MixedRun` says for any tasks, and what
`Scheduling.Run` says for those that keep the waking contract; and what that is, is in `MixedRunPolls`,
`ExactlyOncePerRun`, `RotationLaw`, `SleepTiming`, `TasksAccountedFor` and the other lemmas.

## Assumptions

- Atomic accesses are sequentially consistent.
- Where `poll_next` requeues a task it has already polled, it clears `queued`, sets it again without looking at the old
  value, and enqueues (src/futures/futures_unordered.rs:443-451).  `NoLostWakeup` takes the two writes as one action;
  `RequeueWindowMustBeAtomic` shows that a wake in between would enqueue the task twice.
- `Scheduling` and `History` are about tasks that keep the waking contract: a poll that returns `Pending` has called its
  own waker, as `sleep_ticks` and `yield_now` do.  README.md:89 asks for a wake "at some point".  Without the contract
  `PollCycle`, `Sleeping` and `SleepingHistories` say what happens, and exactly when `poll_next` (`StopsExactly`), a run
  (`RunReturnsExactly`) and `run_blocking` (`BlockingReturnsExactly`) return.
- `poll_counter` is unbounded.  Ids are modulo 2^64; lemmas that need them distinct say so.
- During a run of the classes, nobody outside queues, and nobody outside wakes (the protocol files have the wakes).
- In `NoLostWakeup` one thread makes all calls on the `Cosync`, as `&mut self` and the thread's own waker have it.
- User code is a list of operations; whatever it does to the parameter is an arbitrary function.

## Where the code and its documentation part

- README.md:93: `Cosync` "will always do work on the first queued task" first.  Within one run it does.  From one run
  to the next it need not: the list of survivors is rotated by one in every call of `poll_next`, and a run makes one
  such call for each generation of tasks, the first for the tasks it finds and the next ones for what the generation
  before has spawned (`RotationLaw`, for every run).  The first survivor is first again exactly if these rotations bring
  it back to the front, and the whole order is kept exactly if they bring every survivor back to its place; the bodies
  tell both before the run (`FirstAgainExactly`, `OrderKeptExactly`).  When no poll spawns, that is exactly if at most
  one task is left (`OrderKeptWithoutSpawns`).  Two tasks that yield change places (`FirstQueuedIsNotFirstNextRun`), and
  do not if one of them spawns a task on the way (`SpawnTurnsBack`).
- src/lib.rs:37-38: tasks are done in the order they are queued.  `Cosync::queue` goes straight to the pool and
  overtakes what handles have queued: the order is that of queueing exactly when no direct `queue` comes after one
  through a handle (`QueuedOrderExactly`, `QueueOvertakesHandle`).
- README.md:83: a tick is a call of `run` or `run_blocking`.  A call of `run` is one tick.  A call of `run_blocking` is
  as many as it needs: a sleep of any length ends within one call (`BlockingSleepsThrough`, and `TicksInOneBlockingRun`
  for two ticks).  A task with some ticks to go is still asleep after a history of calls if and only if there is no
  blocking run among them and there are at most that many runs (`SleepsExactly`).
- README.md:89: a task may wake its waker later.  If the first pending task has not been woken while another one is,
  `poll_next` spins until it is (`StopsExactly`, `SpinsForever`); a run returns exactly if, in the first generation that
  leaves a task awake, the first survivor is awake (`RunReturnsExactly`).
- `Dequeue::Inconsistent` looks as if it meant that an enqueue is under way.  It may be returned when every enqueue
  has finished, if one did so between the consumer's reads (`InconsistentWithNothingInFlight`); the enqueue next in
  line is half done exactly if the tail's next pointer is still null (`InconsistentExactly`).

## Model

| member | source | states |
|---|---|---|
| MpscQueue.StepInv | src/futures/ready_to_run_queue.rs:35-89 | every shared access of every enqueue and of the consumer keeps the queue's invariant: from tail to head, each node points to the next one or is waiting for the one enqueue that will link it |
| MpscQueue.FifoRefinement | src/futures/ready_to_run_queue.rs:35-89 | over every run, the nodes returned are a prefix of the nodes swapped in, in that order; the rest is what the queue holds, each node (the stub too) at most once; the stub is never returned |
| MpscQueue.ConsumeEffect | src/futures/ready_to_run_queue.rs:53-89 | one access of the consumer removes from the queue exactly the node it returns, or nothing |
| MpscQueue.DataIsSafe | src/futures/ready_to_run_queue.rs:53-89 | a returned node is the oldest one not yet returned, has left the queue, and no enqueue can still write its next pointer |
| MpscQueue.EmptyMeans | src/futures/ready_to_run_queue.rs:58-61 | Empty is returned only if nothing is queued or the oldest enqueue has not linked yet |
| MpscQueue.InconsistentMeans | src/futures/ready_to_run_queue.rs:74-88 | Inconsistent is returned only if the enqueue next in line has swapped and not linked, or some enqueue linked during this very call |
| MpscQueue.InconsistentExactly | src/futures/ready_to_run_queue.rs:74-88 | of these two cases, it is the first if and only if the tail's next pointer is still null |
| MpscQueue.InconsistentWithNothingInFlight | src/futures/ready_to_run_queue.rs:74-76 | a reachable state in which Inconsistent is returned although no enqueue is in flight |
| MpscQueue.DequeueAlone | src/futures/ready_to_run_queue.rs:53-89 | with no enqueue in flight, dequeue is the head and tail of a list, Empty exactly if the list is empty, never Inconsistent, and leaves a reachable state |
| QueueAgreement.PutAgrees | src/futures/ready_to_run_queue.rs:35-47 | while no other thread enqueues, the class accepts an enqueue exactly if the protocol does, and both then hold the same tasks |
| QueueAgreement.TakeAgrees | src/futures/ready_to_run_queue.rs:53-89 | while no other thread enqueues, the class and the protocol answer a dequeue alike, and then hold the same tasks |
| QueueAgreement.QueueAgrees | src/futures/ready_to_run_queue.rs:35-89 | for every sequence of enqueues and dequeues with their answers: the contracts of the class allow it if and only if the protocol does |
| AtomicWakerProtocol.StepExclusive | src/futures/atomic_waker.rs:171-304 | every access keeps: the holder of the cell is the only thread in it, the bits say what it does, no assertion and no unwrap fails |
| AtomicWakerProtocol.MutualExclusion | src/futures/atomic_waker.rs:171-304 | over every run with any number of registrars and wakers: at most one thread is in the cell, the bits are WAITING exactly if none is, they tell a registrar from a waker, and nobody has aborted |
| AtomicWakerProtocol.ReleaseRestoresWaiting | src/futures/atomic_waker.rs:192-217 | a thread that leaves the cell leaves the state at WAITING |
| AtomicWakerProtocol.CommitmentStays | src/futures/atomic_waker.rs:192-303 | a thread that is bound to wake a waker stays so whatever other threads do |
| AtomicWakerProtocol.CommitmentAdvances | src/futures/atomic_waker.rs:192-303 | its own next access keeps it bound, or has woken that waker |
| AtomicWakerProtocol.NotifyDelivers | src/futures/atomic_waker.rs:278-303 | a wake's fetch_or makes the delivery to the last waker registered certain, whether it finds the cell free, a registrar in it, or another waker |
| AtomicWakerProtocol.WakeIsDelivered | src/futures/atomic_waker.rs:171-304 | over every run with one registrar at a time: a wake whose fetch_or follows the start of a register and precedes the next one gets the waker of that register woken |
| AtomicWakerProtocol.RegisterTakesEffect | src/futures/atomic_waker.rs:171-240 | a call of register takes effect if and only if no other registration is in the cell, so always if they do not overlap, also while a wake is going on |
| AtomicWakerProtocol.WokenIsRegistered | src/futures/atomic_waker.rs:171-304 | over every run, registrars racing or not: the waker that a thread is going to wake is the one handed to the registration of that epoch |
| AllListProtocol.StepInv | src/futures/futures_unordered.rs:210-338 | every access of every inserting thread and of every reader, and every unlink between them, keeps the list's invariant |
| AllListProtocol.UnlinkInv | src/futures/futures_unordered.rs:305-338 | unlink of any node, with nobody inserting, takes exactly that node out and leaves all others in their order, in a list linked both ways with its length at the head |
| AllListProtocol.CompleteNodeHeadsChain | src/futures/futures_unordered.rs:265-299 | a node whose next_all is no longer pending heads a complete null-terminated chain, none of it pending; its len_all is the length of that chain if it was the head at the last unlink or has been inserted since |
| AllListProtocol.LenIsOffByUnlinks | src/futures/futures_unordered.rs:265-338 | over every run: len_all of a complete node exceeds the length of its chain by the number of older nodes unlinked since it was written, so it is right if and only if there are none |
| AllListProtocol.UnlinkLeavesStaleLen | src/futures/futures_unordered.rs:331-334 | the condition on len_all is needed: unlink of the oldest of three nodes or more leaves the next one with a length of 2 for a chain of 1 |
| AllListProtocol.SomeInserterAdvances | src/futures/task.rs:98-105 | while anybody is inserting, some inserter's next access makes progress: the waits are no deadlock |
| AllListProtocol.InsertAlone | src/futures/futures_unordered.rs:265-299 | in every reachable state with no insertion under way, a thread that inserts alone comes to the end, and its node is the newest of the list |
| AllListProtocol.ThreeInserted | src/futures/futures_unordered.rs:265-338 | a run that builds a list of three, on which unlink leaves a stale length |
| AllListProtocol.IteratorYieldsSnapshot | src/futures/iter.rs:75-92 | an iterator, or len, started at any moment on a list with any past: whatever other threads do after that, its snapshot is the list at the moment it loaded the head; len is exact all the way, and it yields exactly those nodes, newest first |
| AllListProtocol.ReaderAdvances | src/futures/futures_unordered.rs:210-222 | a reader waits for nothing but the head it loaded to be complete; every other access of its own brings it nearer to the end |
| AllListProtocol.QuiescentListIsDoublyLinked | src/futures/futures_unordered.rs:265-299 | with nobody inserting, the list is a doubly linked list of everything inserted and not unlinked, with its length at the head |
| NoLostWakeup.StepInv | src/lib.rs:374-394 | every action of the executor, within and between any number of calls of run and run_blocking, and of every waker thread keeps the composite invariant of queue, flags, AtomicWaker and park token |
| NoLostWakeup.NoLostWakeup | src/lib.rs:377-393 | in any call, whatever earlier calls have left behind: if run_blocking is blocked in park with no token and nobody is in the middle of a wake, no task is in the ready queue and no live task is marked as woken |
| NoLostWakeup.WakesCoalesce | src/futures/task.rs:73-77 | in every run the flag of a live task is set exactly while the task is in the ready queue or being put there, so no node is enqueued twice and the assertion after dequeue never fails |
| NoLostWakeup.EnqueuesMatchDequeues | src/futures/task.rs:73-77 | over every run, a task has been enqueued exactly as often as it has been dequeued, and once more if it is in the queue, however many wakes it gets |
| NoLostWakeup.WokenUntilDequeued | src/futures/task.rs:73-77 | over every run in which a woken task is not dequeued, it stays flagged and in the queue and no enqueue of it begins |
| Parking.GoesOnExactly | src/lib.rs:377-393 | in every reachable state between a Pending of poll_pool and the next poll_pool: with no further wake the thread gets to poll again, the wakeup used up, if and only if a wake has set `unparked` since it was last cleared, or a park token is there or on its way |
| Parking.StaysBlocked | src/lib.rs:382-392 | otherwise it stays blocked, whatever other threads do and however long, until a wake reaches it or park returns by itself |
| Parking.TokensAreSpent | src/lib.rs:387 | over every run, park returns at most as often because of a token as tokens are given |
| Parking.WakesUnparkOnce | src/lib.rs:695-707 | over every run and however many wakes, unpark is called once at most between two moments at which the executor uses up a wakeup |
| Parking.WakeEndsPark | src/futures/task.rs:53-78 | from every reachable state in which the executor is parked and nobody is in the middle of a wake: one thread that wakes any task of the set, acting alone, puts it in the ready queue and lets the executor go on |
| Parking.ParkIsReached | src/lib.rs:377-393 | a run that ends parked, with no token and a live task that nobody has woken |
| Parking.LeaveIsReached | src/lib.rs:402-428 | a run in which a call of run returns and leaves a task asleep |
| Parking.ReturnIsReached | src/lib.rs:377-380 | a run in which poll_pool is Ready and run_blocking returns |
| Parking.ReadyMeansNoneLeft | src/futures/futures_unordered.rs:388-402 | over every run, poll_next is Ready only if no task is left; if it is Pending, a task is left or the thread has been told to poll again |
| Parking.PolledOncePerCycle | src/futures/futures_unordered.rs:446-467 | over every run, however often other threads wake a task, it is polled at most once in each poll_pool, and every poll_pool but the first of a call has taken a wakeup or a return of park |
| Parking.PollNextEndsAtFirst | src/futures/futures_unordered.rs:453-465 | whatever other threads do meanwhile: having put back a task already polled, poll_next returns if and only if that task is the first that this very call has left in the set |
| RequeueWindow.RequeueWindowMustBeAtomic | src/futures/futures_unordered.rs:443-451 | in every state where an already polled task is dequeued, a wake between the two writes of its flag leads to a second enqueue of a node that is still inside |
| RequeueWindow.PolledTaskComesBack | src/futures/futures_unordered.rs:443-451 | a run that leads to such a state: a task is pushed, polled, woken meanwhile, pends, and is dequeued again |
| RequeueWindow.ReleaseMeetsEnqueue | src/futures/futures_unordered.rs:236-261 | a run in which a poll ends while another thread has set the flag of its task and not enqueued it yet |
| Ownership.FlagTellsHolder | src/futures/futures_unordered.rs:234-261 | whenever a task is released, after its poll or by clear, the flag that release_task reads is set exactly if the task is in the ready queue or another thread is putting it there; so the reference is left to the ready queue or dropped |
| Ownership.HolderMoves | src/futures/futures_unordered.rs:227-262 | whatever thread makes the next access, a task's reference stays with its one holder or goes where it may: from the list to poll_next and back, on release to the ready queue or away, from the ready queue away when it is dequeued |
| Ownership.DroppedExactlyOnce | src/futures/futures_unordered.rs:410-436 | over every run with any number of waker threads: the reference has been dropped once if the task is released and out of the ready queue, and never before |
| Ownership.ReleasedForGood | src/futures/futures_unordered.rs:248-261 | over every run, a released task is never live again, no enqueue of it begins, and it is dequeued once more exactly if it was in the ready queue and has left it |
| Programs.PollBodyHistory | src/lib.rs:430-470 | a poll makes the updates up to its first await that is not ready, applies them in order, and puts what it spawns at the back of incoming with the next ids |
| Programs.PollKeepsContract | src/lib.rs:606-650 | if a body keeps the waking contract, so do what a poll leaves of it and what it spawns, and a pending poll has woken its task |
| Programs.PollUsesWeight | src/lib.rs:606-650 | every poll uses up some of the number of polls that a task and all it will spawn can need |
| Programs.YieldIsOneTick | src/lib.rs:606-650 | yield_now does what sleep_ticks(1) does |
| Programs.IdsAreIssueNumbers | src/lib.rs:451-457 | the n-th id is n for every n below 2^64, and ids repeat after that |
| PollCycle.RoundKeeps | src/futures/futures_unordered.rs:384-531 | no round of poll_next changes what the loop is going to leave behind, what it is going to have polled, or whether it is going to end |
| PollCycle.RoundDecreases | src/futures/futures_unordered.rs:384-531 | every round lowers the lexicographic measure of entries still to be handled and the way of the initial task to the head |
| PollCycle.FinishMeaning | src/futures/futures_unordered.rs:378-532 | for any queue of tasks polled, not polled and released, any initial task and any tasks asleep: what the loop leaves in the queue, what it has polled, who is asleep and with what left to do, and that Ready means that no task is left |
| PollCycle.StopsExactly | src/futures/futures_unordered.rs:446-467 | poll_next returns if and only if no pending task has been woken or the first pending task has been |
| PollCycle.SpinsForever | src/futures/futures_unordered.rs:446-467 | a queue of two tasks on which it does not return |
| PollCycle.SweepPolls | src/futures/futures_unordered.rs:446-467 | the tasks not yet polled in this cycle are polled once each, in queue order, and no others |
| PollCycle.PollNextMeaning | src/futures/futures_unordered.rs:378-532 | under the waking contract poll_next returns; every unpolled task is polled once in queue order; the survivors are left in queue order rotated left by one; Ready if and only if there are none |
| Scheduling.ExactlyOncePerRun | src/lib.rs:233-258 | one run polls every task of the pool, then every incoming task, then every task spawned meanwhile in the order of the spawns, each exactly once and nothing else; incoming ends empty; every task polled completed or is in the pool |
| Scheduling.RotationLaw | src/lib.rs:233-258 | after every run the pool is what one rotation by one per generation of tasks makes of the survivors: those of the tasks found first, then behind them those of each generation of spawns; if no poll spawns, the survivors rotated left by one |
| Scheduling.FirstLeftOver | src/lib.rs:233-258 | after every run that leaves tasks, the survivor that was polled first is at the place that the numbers of survivors of each generation give |
| Scheduling.RunUsesWeight | src/lib.rs:358-400 | a run that leaves tasks behind lowers the number of polls still to come, spawned subtrees included |
| Scheduling.RunBlockingIsIteratedRun | src/lib.rs:358-428 | run_blocking ends, with pool and incoming empty, and equals calling run until is_empty: same parameter, same history, at most as many calls as polls still to come, plus one |
| Scheduling.RunBlockingCompletes | src/lib.rs:358-400 | run_blocking leaves nothing, and every task that was there or was spawned has completed |
| Scheduling.RunObeys | src/lib.rs:233-258 | a run keeps the waking contract |
| Sleeping.MixedRunPolls | src/lib.rs:233-258 | a run of any tasks polls every task of the pool, then every incoming task, then every task spawned meanwhile, each exactly once and nothing else; every task polled has completed, is in the pool, or is asleep |
| Sleeping.RunReturnsExactly | src/lib.rs:233-258 | every poll_next of a run returns if and only if, in the first of its generations that leaves a task awake, the first task left over is awake |
| Sleeping.SleptInOrder | src/lib.rs:233-258 | those that fall asleep in a run are the tasks polled whose poll is pending without a wake, in the order of the polls |
| Sleeping.RunWakings | src/futures/task.rs:73-77 | a run polls at least as many tasks that call their waker as it leaves awake |
| Sleeping.ContractRun | src/lib.rs:233-258 | all tasks keep the waking contract if and only if a run leaves nobody asleep and only such tasks; and a run that leaves nobody asleep returns and is the run of Scheduling |
| Sleeping.BlockingReturnsExactly | src/lib.rs:358-400 | with nobody else to wake tasks, run_blocking returns if and only if no task is asleep and all keep the waking contract |
| SleepingHistories.SleepersAccountedFor | src/lib.rs:65-67 | over every history in which tasks fall asleep, are woken, stopped and cleared: ids issued = completed + unqueued + cleared + in pool and incoming + asleep |
| SleepingHistories.SleepersStay | README.md:89 | over every history that does not wake, stop or clear sleepers, a task asleep stays as it is and is never polled, however often run is called |
| SleepingHistories.WokenIsPolled | src/futures/task.rs:53-78 | once a sleeper is woken, the next run that returns polls it exactly once, behind the whole pool and before all that is incoming |
| SleepingHistories.StoppedAsleepNeverPolled | src/lib.rs:114-127 | a sleeper that is stopped keeps its place with the empty body, all other tasks keep place and body, and over every later history polls by its id are of the empty body only |
| SleepingHistories.StoppedAsleepCompletes | src/lib.rs:114-127 | once it is woken, the next run that returns polls it once, with no update, and it is gone |
| SleepingHistories.ClearedAsleepNeverPolled | src/lib.rs:136-152 | clear_running and clear leave nobody asleep, and over every later history no sleeper cleared is polled |
| SleepingHistories.ParamOfRun | src/lib.rs:402-428 | a run of any tasks changes the parameter it is given by the updates made in that run, one after another, and by nothing else |
| SleeperLists.WakingIsWakeUp | src/futures/task.rs:53-78 | what a kept waker does to a sleeper of the class is the wake of these histories |
| SleeperLists.StoppingIsStopAsleep | src/lib.rs:114-127 | what stop_running_task does to a sleeper of the class is the stop of these histories |
| SleeperLists.RunningIsRunAny | src/lib.rs:402-428 | those that fall asleep in a run of the class come behind those asleep before, as in these histories |
| History.TasksAccountedFor | src/lib.rs:65-67 | over every history of calls, run_blocking included, ids issued = completed + unqueued + cleared + len |
| History.IdsStayDistinct | src/lib.rs:451-457 | over every history in which at most 2^64 ids are issued, live ids are distinct |
| History.ParamAfter | src/lib.rs:358-428 | after any history, the parameter handed to the last run or blocking run has been changed by the updates of that call, one after another, and by nothing else |
| History.UnqueuedNeverPolled | src/lib.rs:99-107 | a task that unqueue_task took back is not polled in any later history |
| Removals.UnqueueKeepsOrder | src/lib.rs:99-107 | unqueue_task succeeds if and only if a task of this id is incoming; it takes the first of them out, and everything else stays in its order: put back in its place it gives the old queue, and if ids are distinct what stays is all tasks but this one, in order |
| Removals.UnqueuedRun | src/lib.rs:99-107 | the next run polls, in every generation, what it would have polled without the call and in that order, but for this one task and its descendants |
| Removals.RunByGeneration | src/lib.rs:233-258 | the polls of a run are those of its generations, one after another, and the generations follow from the bodies |
| Removals.ClearedNeverPolled | src/lib.rs:136-152 | the three clears take away the pool, the incoming queue or both and change nothing else, and over every later history no cleared task is polled |
| History.StoppedNeverPolled | src/lib.rs:114-127 | after stop_running_task, in any later history, polls by that id are of the empty body only; the other tasks keep place and body, and nothing else changes |
| History.SleepStops | src/lib.rs:606-622 | a poll, resumed from an earlier await or not, that comes to sleep_ticks(n) stops there and leaves n - 1 ticks, or goes on behind it if n is 0 |
| History.SleepCountsDown | src/lib.rs:606-622 | each later run takes one tick off and makes none of the task's updates, whatever else is queued, spawned, stopped or run |
| History.SleepTiming | src/lib.rs:606-622 | a task, old or spawned in that very run, that reaches sleep_ticks(n), n at least 1, in run k: run k makes its updates up to there, the next n - 1 runs none, run k + n those behind the sleep, whatever else happens in between |
| History.NoSleepAtAll | src/lib.rs:606-622 | with n = 0 the same run goes on behind the sleep |
| History.SleepsExactly | src/lib.rs:606-622 | a task with some ticks to go is still asleep after a history of calls that spare it if and only if there is no blocking run among them and there are at most that many runs |
| History.BlockingSleepsThrough | src/lib.rs:358-394 | a task that sleeps any number of ticks is polled once per tick and done within one run_blocking |
| History.TicksInOneBlockingRun | README.md:83 | one call of run_blocking in which two ticks go by |
| History.FirstAgainExactly | README.md:93 | after every run that leaves tasks, the survivor polled first is first in the pool if and only if the rotations, computed from the bodies before the run, bring it back to place 0 |
| History.OrderKeptExactly | src/lib.rs:233-258 | after every run, the pool is in the order of the polls if and only if the rotations, computed on places from the bodies before the run, bring every survivor back to its place |
| History.OrderKeptWithoutSpawns | README.md:93 | if no poll spawns, that is so if and only if at most one task is left |
| History.FirstQueuedIsNotFirstNextRun | README.md:93 | two tasks that yield change places in one run |
| History.SpawnTurnsBack | README.md:93 | two tasks that yield keep their places if the first of them spawns a task on the way |
| History.QueuedOrderExactly | src/lib.rs:154-166 | the first run of a new Cosync polls the tasks queued on it in the order of queueing if and only if no direct queue comes after a queue through a handle |
| History.QueueOvertakesHandle | src/lib.rs:37-38 | two calls that show the overtaking |
| SerialScheduling.SerialRefinesSequence | src/serial.rs:126-150 | every serial run keeps the plan, which is the updates made so far followed by those of whole bodies taken first come, first served; the pool holds at most one task, and is empty only when nothing is left |
| SerialScheduling.OnePendingPerRun | src/serial.rs:126-150 | a serial run polls one task after another, all but the last complete, and the last is the one left in the pool if the pool is not empty |
| SerialScheduling.SerialBlockingIsSequence | src/serial.rs:106-108 | serial run_blocking ends with nothing left, having made exactly the updates of whole bodies, first come, first served |
| SerialScheduling.SerialHistory | src/serial.rs:87-150 | over every sequence of runs, blocking runs and queueing, with spawns in between: updates made and those the running task has still to make are those of the first k tasks ever queued or spawned, whole and in order, and all others wait in order |
| SerialScheduling.SerialOrder | src/serial.rs:87-150 | from a new SerialCosync on, whenever nothing is left to do, as after every run_blocking, the updates made are those of all tasks ever queued or spawned, whole, one after another |
| SerialScheduling.SerialMixedIsRun | src/serial.rs:126-150 | a serial run of any tasks makes the same polls as SerialRun says, and its pending task is in the pool or asleep |
| SerialScheduling.SerialWakings | src/futures/task.rs:73-77 | a serial run that leaves a task awake has polled one that calls its waker |
| SerialScheduling.SerialContract | src/serial.rs:126-150 | all tasks keep the waking contract if and only if a serial run leaves nobody asleep and only such tasks |
| SerialScheduling.SerialReturnsExactly | src/serial.rs:106-108 | with nobody else to wake tasks, run_blocking of a SerialCosync returns if and only if the running task is not asleep and all tasks keep the waking contract |
| PoolCycles.PollNextIsCycleStep | src/lib.rs:243-245 | a poll_next in the middle of a run of any tasks polls the new ones once each; those awake after that stand behind those carried over, rotated left by one, and the others are asleep |
| PoolCycles.MidRunPush | src/lib.rs:247-256 | draining what came in meanwhile and going round again leads to the same end of the run, for those awake and those asleep, and brings it nearer |
| PoolCycles.BlockingTokens | src/lib.rs:377-393 | over a whole run_blocking that never parks, the thread loses no park token, and gets one only by a wake |
| Tasks.Task.Drop | src/futures/task.rs:108-123 | a task is dropped once only and never with its future in it (its precondition, met at every call) |
| Tasks.ThreadNotify.WakeByRef | src/lib.rs:695-707 | sets the flag, and gives the park token if the flag was not set |
| Tasks.ThreadNotify.AwaitWakeup | src/lib.rs:381-392 | uses up a wakeup if one has come, and parks until the token is there and uses that up if not; parks exactly if there was no wakeup |
| Tasks.EveryWakeCounts | src/lib.rs:381-392 | however many wakes come before and after the swap of `unparked`: the swap finds the flag set if and only if one came before, and if none did, park finds a token if and only if one came after or a token was there |
| Tasks.AtomicWaker.Register | src/futures/atomic_waker.rs:171-200 | in any state: stores the waker if the cell is free, wakes it at once, with flag and park token, if a wake is going on, drops it if another registration is |
| Tasks.AtomicWaker.Take | src/futures/atomic_waker.rs:278-303 | in any state: takes the stored waker out if the cell is free, and leaves the wake to the thread inside if not |
| Tasks.AtomicWaker.Wake | src/futures/atomic_waker.rs:264-303 | in any state: the stored waker is taken and woken, with flag and park token, if the cell is free, and the wake is left to the thread inside if not |
| ReadyToRunQueues.ReadyToRunQueue.Enqueue | src/futures/ready_to_run_queue.rs:35-47 | appends the node and keeps the linked queue well formed |
| ReadyToRunQueues.ReadyToRunQueue.Dequeue | src/futures/ready_to_run_queue.rs:53-89 | takes the first node off the linked queue, or says that it is empty; never Inconsistent with nobody enqueueing |
| ReadyToRunQueues.ReadyToRunQueue.WakeTask | src/futures/task.rs:53-78 | enqueues the task if its flag was not set, sets the flag, and if it enqueued takes the registered waker and wakes its thread, with flag and park token; if not, nothing happens to them |
| ReadyToRunQueues.ReadyToRunQueue.Clear | src/futures/ready_to_run_queue.rs:105-116 | empties the queue, dropping each entry's reference once; the abort is not reached |
| Inboxes.Inbox.NextId | src/lib.rs:451-457 | hands out the number of ids issued so far, modulo 2^64 |
| Inboxes.Inbox.RawQueue | src/lib.rs:430-449 | puts the task, with the next id, at the back of incoming |
| Inboxes.Inbox.PopFront | src/serial.rs:140-143 | takes the first incoming task |
| FuturesUnorderedSets.RunOp | src/lib.rs:606-650 | one operation of a body does what PollBody says, and the waker it may call is the task in the ready queue |
| FuturesUnorderedSets.PollFuture | src/futures/futures_unordered.rs:509-516 | polling the future does what PollEntry says, and the task is in the ready queue afterwards, the registered waker used up and its thread woken, exactly if the task was woken |
| FuturesUnorderedSets.FuturesUnordered.constructor | src/futures/futures_unordered.rs:89-113 | an empty set |
| FuturesUnorderedSets.FuturesUnordered.Link | src/futures/futures_unordered.rs:265-299 | inserts at the head; next and prev stay inverse to each other and the head has the new length |
| FuturesUnorderedSets.FuturesUnordered.Unlink | src/futures/futures_unordered.rs:305-338 | removes any node of the list; next and prev stay inverse to each other and the head has the new length |
| FuturesUnorderedSets.FuturesUnordered.ReleaseTask | src/futures/futures_unordered.rs:227-262 | the future is gone, the flag is set for good, and the reference is left to the ready queue if the flag was set, by a task in there or by a thread that is putting it there, and has been dropped if not |
| FuturesUnorderedSets.FuturesUnordered.Push | src/futures/futures_unordered.rs:136-158 | a new task at the head of the list and at the tail of the ready queue, not yet polled |
| FuturesUnorderedSets.FuturesUnordered.Requeue | src/futures/futures_unordered.rs:448-451 | puts back a task already polled: linked, flagged and at the tail |
| FuturesUnorderedSets.FuturesUnordered.Round | src/futures/futures_unordered.rs:384-531 | one pass of the loop does what Step says, keeps ownership and list, and uses up the registered waker and wakes the context if and only if it polls a task that calls its waker |
| FuturesUnorderedSets.FuturesUnordered.PollNext | src/futures/futures_unordered.rs:378-532 | the whole call does what Finish says; if a task polled in it has called its waker, the registered one is used up and the context woken, and if none has, the context stays registered and is as it was |
| FuturesUnorderedSets.FuturesUnordered.IncrementCounter | src/futures/futures_unordered.rs:372-376 | the counter goes up by one and nothing else changes |
| FuturesUnorderedSets.FuturesUnordered.LoadHeadAndLen | src/futures/futures_unordered.rs:210-222 | the head, and the length of the list, without waiting |
| FuturesUnorderedSets.FuturesUnordered.Len | src/futures/futures_unordered.rs:118-121 | the number of tasks in the set |
| FuturesUnorderedSets.FuturesUnordered.IsEmpty | src/futures/futures_unordered.rs:124-128 | whether there is none |
| FuturesUnorderedSets.FuturesUnordered.WakeRetained | src/futures/task.rs:53-78 | between two calls, or during a poll with tasks in hand, while no other thread is in the middle of an enqueue: a kept waker enqueues its task, takes the registered waker and wakes its thread, with flag and park token, exactly if the task is not flagged, also after the task is gone; `Ownership` has the wakes that interleave |
| FuturesUnorderedSets.FuturesUnordered.Rouse | src/futures/task.rs:53-78 | a kept waker used between two calls puts a sleeper at the tail of the ready queue and wakes the registered thread; for any other task nothing happens |
| FuturesUnorderedSets.FuturesUnordered.ClearHeadAll | src/futures/futures_unordered.rs:551-557 | no task is linked any more, and each is owned as a released task is |
| FuturesUnorderedSets.FuturesUnordered.Clear | src/futures/futures_unordered.rs:544-549 | list and ready queue are empty, and every task ever pushed has been freed with its future gone |
| FuturesUnorderedSets.FuturesUnordered.Drop | src/futures/futures_unordered.rs:560-581 | with any wakers used after the futures are given up and before the ready queue goes: every task ever pushed has been freed with its future gone |
| FuturesUnorderedSets.FuturesUnordered.SetFuture | src/lib.rs:114-127 | a future replaced through the iterator: that task's slot changes, nothing else |
| Iters.IterPinMut.constructor | src/futures/futures_unordered.rs:190-205 | starts at the head with the length of the list |
| Iters.IterPinMut.Next | src/futures/iter.rs:32-49 | yields the tasks of the list one after another, each with its future there; len counts down exactly |
| Cosyncs.Drain | src/lib.rs:235-240 | moves the incoming tasks to the tail of the pool's queue, in order |
| Cosyncs.Turn | src/lib.rs:243-257 | one pass of poll_pool's loop, for any tasks of which the run returns, leads to the same end of the run, or is the end |
| Cosyncs.PollPool | src/lib.rs:233-258 | whenever every poll_next in it returns, for any tasks and with any asleep: does what MixedRun says, with the new sleepers in the order in which they fell asleep; Ready if and only if no task is left in pool or asleep; the thread has been woken if and only if a task polled has called its waker, and is still registered if it has not |
| Cosyncs.Cosync.constructor | src/lib.rs:52-58 | an empty scheduler |
| Cosyncs.Cosync.Run | src/lib.rs:402-428 | for any tasks and with any asleep, whenever every poll_next in it returns: takes scheduler, parameter and sleepers to what MixedRun says, and leaves the thread woken if a task polled has called its waker, and registered and as it was if none has |
| Cosyncs.Cosync.CalmRun | src/lib.rs:402-428 | for tasks that keep the waking contract every run returns and is the run of Scheduling, and leaves such tasks |
| Cosyncs.Cosync.RunBlocking | src/lib.rs:358-400 | for tasks that keep the waking contract and none asleep, the only ones for which it returns with nobody else waking: takes scheduler and parameter to what RunBlocking says, and the thread to what BlockingThread says, without parking |
| Cosyncs.Cosync.Queue | src/lib.rs:156-166 | the task, with the next id, goes to the tail of the pool |
| Cosyncs.Cosync.HandleQueue | src/lib.rs:328-334 | the task, with the next id, goes to the back of incoming |
| Cosyncs.Cosync.UnqueueTask | src/lib.rs:99-107 | does what `Removals.UnqueueKeepsOrder` is about: takes the first incoming task of this id out and leaves the others in order, or finds none and changes nothing |
| Cosyncs.Cosync.Len | src/lib.rs:65-67 | the number of tasks in pool and incoming |
| Cosyncs.Cosync.IsEmpty | src/lib.rs:70-78 | whether there is none |
| Cosyncs.Cosync.IsRunning | src/lib.rs:81-83 | whether a task of the pool has this id |
| Cosyncs.Cosync.StopRunningTask | src/lib.rs:114-127 | the first task of this id in the list, if any is linked, gets the empty body, asleep or at its place in the pool; nothing else changes |
| Cosyncs.Cosync.CalmStop | src/lib.rs:114-127 | for tasks that keep the waking contract that is the StopTask of History, and leaves such tasks |
| Cosyncs.Cosync.WakeTask | src/futures/task.rs:53-78 | a kept waker used between two runs puts a sleeper at the tail of the pool and wakes the thread that is registered; any other task stays what it is |
| Cosyncs.Cosync.ClearRunning | src/lib.rs:136-138 | the pool is empty, nobody is asleep and all its tasks are freed; incoming stays |
| Cosyncs.Cosync.ClearQueue | src/lib.rs:142-144 | incoming is empty; pool and sleepers stay |
| Cosyncs.Cosync.Clear | src/lib.rs:149-152 | nothing is left, and all tasks are freed |
| SerialCosyncs.SerialPollPool | src/serial.rs:126-150 | for any tasks: does what SerialMixed says, or nothing while the running task is asleep; Ready if and only if no task is left; the thread has been woken if and only if a task polled has called its waker, and is still registered if it has not |
| SerialCosyncs.SerialCosync.Run | src/serial.rs:116-118 | for any tasks: takes scheduler, parameter and sleeper to what SerialMixed says, changes nothing while the running task is asleep, and leaves the thread woken if a task polled has called its waker, and registered and as it was if none has |
| SerialCosyncs.SerialCosync.CalmRun | src/serial.rs:116-118 | for tasks that keep the waking contract that is SerialRun |
| SerialCosyncs.SerialCosync.RunBlocking | src/serial.rs:106-108 | for tasks that keep the waking contract and none asleep, the only ones for which it returns with nobody else waking: takes scheduler and parameter to what SerialBlocking says, and the thread to what SerialThread says, without parking |
| SerialCosyncs.SerialTokens | src/serial.rs:106-108 | over a whole serial run_blocking that never parks, the thread loses no park token, and gets one only by a wake |
| SerialCosyncs.SerialCosync.Queue | src/serial.rs:87-99 | the task, with the next id, goes to the back of incoming |
| SerialCosyncs.SerialCosync.UnqueueTask | src/serial.rs:57-65 | takes the first incoming task of this id out and leaves the others in order, or finds none and changes nothing |
| SerialCosyncs.SerialCosync.Len | src/serial.rs:25-27 | counting the running task as one at most gives the number of all tasks |
| SerialCosyncs.SerialCosync.CurrentTaskId | src/serial.rs:41-44 | the id of the running task, if there is one |
| SerialCosyncs.SerialCosync.StopRunningTask | src/serial.rs:68-70 | the running task is gone, asleep or not; what is queued stays |

## Left out

- Panics: unwinding is not modelled.  What the bomb in `poll_next` does is `ReleaseTask`, which is proved for any task
  taken out of both lists, whether its future is done or not.
- Weak memory orderings, and `Arc`, `Weak`, `Pin`, raw pointers, vtables and src/futures/waker_ref.rs: references, and a
  ghost owner for the set's own strong reference.
- src/futures/enter.rs, the checks of `CosyncInput::get`, `Send` and `Sync`, mutex poisoning, the `parking_lot` feature,
  `Debug`, and the deprecated aliases.
- `CosyncQueueHandle` after its `Cosync` is gone: it returns `None` and does nothing.
- Other threads that queue or wake in the middle of a run of the classes: the protocol files have the shared parts, but
  not together with what the tasks do.
- `Clear`, `Drop` and the ready queue's abort are proved with no enqueue in flight; in `NoLostWakeup` the releases of
  `clear_head_all` run among wakes of any number of threads, the dequeues of `Clear` do not.
- That `CosyncQueueHandle::queue` wakes a parked `run_blocking`: it does not, and nothing is claimed.
- `Inconsistent` in `FuturesUnordered.Next`: shown not to come up with nobody enqueueing, so the branch of `poll_next`
  that answers it (src/futures/futures_unordered.rs:396-402) is in `NoLostWakeup` only.
- `IterPinRef` in the classes: it differs from `IterPinMut` by a wait that is over at once; `AllListProtocol` has it.
- Cosyncs.Cosync.RunBlocking: does not model that another thread wakes a sleeper while it is parked; with nobody to do
  so it returns for no other tasks than those it is stated for (`Sleeping.BlockingReturnsExactly`).
- SerialCosyncs.SerialCosync.RunBlocking: the same (`SerialScheduling.SerialReturnsExactly`).
