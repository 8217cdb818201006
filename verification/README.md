# A model of the work-stealing runtime

The runtime schedules tasks on a fixed number of workers that share no deques. A worker without
work sends a steal request to a victim; the request travels from worker to worker until someone
answers it with tasks or it comes back to its thief. Workers form a complete binary tree. A worker
whose requests all failed reports to its parent and goes to sleep; when worker 0 has heard from
both of its subtrees and finds nothing to do itself, the computation has terminated.

The project models this runtime, the data structures below it and two programs on top of it, and
proves what they promise. `dafny verify dfyconfig.toml` checks everything.

| files | what they model |
|---|---|
| WorkerTree | the worker tree and the walk over a subtree |
| Bits, Victims | bit fields as sets, and choosing a victim on them |
| Scheduler | the protocol as a step system over any number of workers and any MAXSTEAL >= 1 |
| SchedulerInvariant, SchedulerLinks, SchedulerFacts, SchedulerMoves, SchedulerLocal, SchedulerWork | what every step keeps, and why |
| SchedulerTheorems, SchedulerAssertions | what follows for every reachable state, and what the code asserts |
| SchedulerEffects | what the operations do, told without their definitions: which work a run creates, what a thief gets, whom a request may go to, when a worker gives up |
| SchedulerProgress, SchedulerDetection | that a run never gets stuck, that sleepers wake up, and that termination can be detected |
| Loop, LoopPop, LoopCurrent | loop tasks that are split while they run, the reduction of their results, and splits made when a task is popped |
| Futures | lazy futures under stealing |
| Deque | the doubly linked deque with its free list, on the heap |
| Channel, ChannelSteps | the ring buffer, first for one thread, then with interleaved senders and receivers |
| Tasks | trees of tasks, and every order in which their writes may interleave |
| Sorting, Quicksort, Cilksort, CilksortTasks, CilksortReads | the merge sort of test/cilksort.c, in sequence and with its tasks interleaved |
| MatMul, MatMulTasks | the matrix multiplication of test/mm_dac.c, in sequence and with its tasks interleaved |
| Common, Paths | definitions that several modules share; a state reached from another through a list of steps |

**The scheduler.** A state holds one record per worker: its private variables and the channels that
others send to. A step belongs to one worker and does at most one thing that another worker could
see. Where the code picks (a random victim, how to split, whether to poll, whether half of the
deque is stolen, when a task is spawned), the step takes the choice as a parameter, so a run of the
code is a run of the model. The invariant behind the theorems says where each task channel is: on
its owner's stack of free channels, in exactly one steal request, or filled with tasks. A run
conserves units of work: one iteration of one loop task, or one task that is not a loop.

A worker that sleeps holds a lock while it looks at its task channels one by one, gives the lock up
as it falls asleep, and takes it again when it wakes up; the model has a step for each of these.

**What turned out different from what the code or its comments say.** For each of these one member
states exactly when the promise is kept, and another gives a concrete case where it is not.

- `COUNT_REQ` is meant to count the pending requests of a subtree, but drops the sum of each level
  and returns zero. It is right exactly if none is pending (`CountRequests`; case:
  `CountMissesRequest`). Adaptive splitting is safe all the same, because the worker counts the
  request in its hand (`NumIdle`, `SplitsInside`).
- `RT_pop` may split a loop task that it has just popped, but the future of the split-off part is
  recorded on the task that is current at that moment. The loop is split exactly if it has two
  iterations left and some other worker's request is received while the deque is empty. Then, if
  it has a future,
  - its own reduction misses the part (`RunPopped`; case: `PoppedLoopLosesHalf`),
  - that of the current task picks it up, and so does, through the results of the pieces, every
    reduction that the current task is a piece of (`RunCurrent`; cases: `CurrentPicksUpStray`,
    `PieceDisturbed`; and without a future, `NoFutureNoStray`),
  - and where no task is current, as in a worker's outermost loop, a null pointer is dereferenced
    (`ServeWhenPopped`; case: `PoppedWithoutCurrentCrashes`).
- The comment on `binsplit` promises the index of the greatest element that is at most the value.
  That holds exactly if the value comes first in the range or nowhere (`SplitIndexIsGreatest`,
  `SplitIndexIsLast`; case: `BinsplitWitness`). The range is split correctly all the same.
- `SPLITTABLE` takes an absolute value, so a loop whose end lies below its start, which has no
  iterations, may be split. The part split off is empty exactly if the range was halved
  (`EmptyLoopSplits`, `SplitLoop`; case: `EmptyLoopWitness`).
- `deque_push` leaves the deque valid exactly if the task comes unlinked (`Push`; case:
  `PushLinkedTask`).
- `deque_steal_many` fails an assertion exactly if its bound is below 1 and there is a task
  (`StealMany`; case: `StealNone`).
- `cilkmerge` copies a block of negative size exactly if both ranges are empty, and its recursion
  never gets there as long as MERGESIZE is at least 2 (`Cilkmerge`; case: `EmptyMerge`).

Scheduler and its theorems are for any number of workers. The bit fields of the code have 32 bits:
`InitVictims` says that they stand for the sets of Scheduler exactly up to 32 workers, which is
MAXWORKERS (src/platform.h:4), the number that NUM_THREADS is cut to (src/tasking.c:64-66). For
every number of workers that the program is written for, Victims refines Scheduler.

## Model

| member | source | states |
|---|---|---|
| WorkerTree.Parent | src/worker_tree.h:45-53 | The parent of worker 0 is -1; every other worker is the left or right child of its parent, which has a smaller number |
| WorkerTree.AncestorsComparable | src/worker_tree.h:21-53 | Two ancestors of one worker lie on one path to the root |
| WorkerTree.RootReachesAll | src/worker_tree.h:21-53 | Every worker lies below worker 0 |
| WorkerTree.DescendantViaChild | src/worker_tree.h:21-53 | A proper descendant lies below exactly one of the two children |
| WorkerTree.SubtreeSplit | src/worker_tree.h:21-53 | A subtree is its root and the two disjoint subtrees of the children |
| WorkerTree.BelowNextLevel | src/runtime.c:521-542 | Doubling a block of workers, as the walk does from level to level, loses and adds no descendant |
| WorkerTree.SweepVisitsSubtreeOnce | src/runtime.c:521-542 | The level-by-level walk visits every worker of the subtree exactly once, in increasing order, and nobody else: the set that mark_as_idle clears |
| WorkerTree.FindPending | src/runtime.c:521-542 | RECV_REQ on behalf of others finds the first pending channel of the walk, and reports none only if there is none |
| WorkerTree.PeekRequests | src/runtime.c:565-590 | PEEK_REQ answers yes exactly if some worker of the subtree has a pending request |
| WorkerTree.CountBelow | src/runtime.c:544-561 | COUNT_REQ returns zero, whatever is pending |
| WorkerTree.CountRequests | src/runtime.c:544-561 | It counts the pending requests of the subtree if and only if there are none |
| WorkerTree.CountMissesRequest | src/runtime.c:544-561 | One request pending at a leaf, counted as none |
| WorkerTree.NumIdle | src/runtime.c:1480-1491 | What split_adaptive takes for the number of idle workers is at least one, and right if and only if nothing is pending in the subtrees known to be idle |
| Bits.ClearBit | src/bit.h:25-26 | word & ~BIT(i) stands for the set without i |
| Bits.MaskBits | src/bit.h:4 | BIT(n) - 1 has exactly the n lowest bits |
| Bits.Mask32Bits | src/bit.h:6 | BIT_MASK_32(n) has the n lowest bits, but no more than 32 |
| Bits.ZeroRightmostOnes | src/bit.h:31 | n & (n - 1) stands for the set without its smallest element |
| Bits.IsolateRightmost | src/bit.h:33 | n & ~(n - 1) is the power of two of the smallest element |
| Bits.CountOneBits | src/bit.h:69-78 | The loop counts the elements of the set |
| Bits.RightmostOneBitPos | src/bit.h:80-89 | The loop finds the smallest element, or -1 for the empty set |
| Victims.InitVictims | src/runtime.c:139 | The initial bit field stands for all workers if and only if there are at most 32 |
| Victims.MarkAsIdle | src/runtime.c:239-250 | The recursion clears exactly the subtree of the worker from the victims |
| Victims.RightmostVictim | src/runtime.c:253-266 | The smallest victim other than the given worker, and -1 exactly if there is none |
| Victims.ListVictims | src/runtime.c:293-309 | The list holds every potential victim once, in increasing order, and is as long as the count says |
| Victims.RandomVictim | src/runtime.c:273-323 | Whatever is drawn, the result is a victim below n other than the thief; -1 exactly without victims |
| Victims.CountInRange | src/runtime.c:295-296 | The asserted bounds on the number of victims |
| Victims.NextVictim | src/runtime.c:433-495 | On bit fields it chooses and prunes as Scheduler does on sets |
| SchedulerMoves.SendKeeps | src/runtime.c:792-831 | Sending a steal request keeps the invariant |
| SchedulerMoves.ReceiveKeeps | src/runtime.c:592-633 | Receiving a request of one's own channel keeps the invariant |
| SchedulerMoves.ReceiveForKeeps | src/runtime.c:521-542 | Receiving on behalf of a sleeping worker keeps the invariant |
| SchedulerMoves.FailedIsNew | src/runtime.c:598-613 | A failed request comes from a child of the receiver whose request is not held yet |
| SchedulerMoves.ReceiveFailedKeeps | src/runtime.c:592-633 | Setting an idle flag and queueing the failed request keeps the invariant |
| SchedulerMoves.AnswerKeeps | src/runtime.c:965-1038 | Answering a request with one task or half of the deque keeps the invariant |
| SchedulerMoves.AnswerSplitKeeps | src/runtime.c:1046-1076 | Answering a request with a part of a running loop keeps the invariant |
| SchedulerMoves.ForgetKeeps | src/runtime.c:692-698 | Taking back one's own request keeps the invariant |
| SchedulerMoves.DropKeeps | src/runtime.c:879-890 | Dropping one's own request for want of work keeps the invariant |
| SchedulerMoves.DetectKeeps | src/runtime.c:702-712 | Detecting termination keeps the invariant |
| SchedulerMoves.FailUpKeeps | src/runtime.c:863-878 | Reporting failure to the parent and starting to back off keeps the invariant |
| SchedulerMoves.ForwardKeeps | src/runtime.c:916-934 | Passing a request on to the next victim keeps the invariant |
| SchedulerMoves.DeclineKeeps | src/runtime.c:834-937 | Whichever way decline_steal_request disposes of a request, the invariant is kept |
| SchedulerMoves.ShareKeeps | src/runtime.c:1080-1104 | Giving tasks to a waiting child and clearing its flag keeps the invariant |
| SchedulerMoves.ShareSplitKeeps | src/runtime.c:1080-1104 | So does giving it a part of a running loop |
| SchedulerMoves.ReceiveTaskKeeps | src/runtime.c:637-685 | Taking tasks out of a task channel keeps the invariant |
| SchedulerMoves.LastMeansIdle | src/runtime.c:848-862 | A worker that gives up its last request is idle and has no tasks queued, running or arriving |
| SchedulerLocal.PeekEmptyKeeps | src/runtime.c:59-72 | Finding one task channel empty and going on to the next keeps the invariant, by which a channel that was found empty stays empty unless the parent owes a signal |
| SchedulerLocal.PeekFullKeeps | src/runtime.c:59-72 | Finding tasks and waking up for them keeps the invariant |
| SchedulerLocal.WaitKeeps | src/runtime.c:74-82 | Falling asleep, and giving up the lock with that, after the last of the channels was found empty keeps the invariant |
| SchedulerLocal.SignalKeeps | src/runtime.c:84-90 | Signalling a worker keeps the invariant |
| SchedulerLocal.StepKeeps | src/runtime.c:792-1433 | Every step of every worker keeps the invariant |
| SchedulerLocal.StartIsSafe | src/runtime.c:339-387 | The state after RT_init satisfies the invariant |
| SchedulerLocal.RunIsSafe | src/runtime.c:1123-1262 | The invariant holds in every state of every run |
| SchedulerFacts.FlaggedSubtreeSleeps | src/runtime.c:104-131 | Below a set idle flag every worker sleeps and its failed request is held by its parent |
| SchedulerFacts.FirstHop | src/runtime.c:433-495 | A fresh request goes to another worker, unless nobody is left to ask |
| SchedulerFacts.NextHop | src/runtime.c:433-495 | A request passed on goes home or to one of a strictly smaller set of victims, and never to its thief by choice |
| SchedulerFacts.PrunedIs | src/runtime.c:437-454 | next_victim removes the worker and exactly the subtrees that it knows to be idle |
| SchedulerTheorems.IdleFlagMeansSubtreeIdle | src/runtime.c:104-131 | In every reachable state, a set idle flag means that every worker of that subtree sleeps without work, and that its failed request is held by its parent |
| SchedulerTheorems.QuiescentMeansNoWork | src/runtime.c:702-712 | While worker 0 is quiescent no worker has a task queued, running or arriving, all others sleep, and no request of theirs is under way |
| SchedulerTheorems.WorkInOnePlace | src/runtime.c:965-1038 | In every reachable state each unit of work is pending in exactly one place and not executed, or pending nowhere and executed exactly once |
| SchedulerTheorems.BarrierMeansAllDone | src/runtime.c:1192-1262 | When the barrier returns, everything ever created has been executed exactly once, and nothing else has |
| SchedulerTheorems.SingleReader | src/runtime.c:592-633 | At most one worker may receive from any request channel, although others receive on behalf of sleeping ones |
| SchedulerTheorems.ReceiverIsAlone | src/runtime.c:521-542 | From the moment at which a worker may receive from a channel until its next own step nobody else may: a receive of several steps is never overlapped, by the owner or by an ancestor |
| SchedulerTheorems.OnBehalfNeverFailed | src/runtime.c:521-542 | A request received on behalf of a sleeping worker is never a failed one and never that worker's own |
| SchedulerTheorems.NoLostWakeUp | src/runtime.c:74-90 | If tasks are in a channel that a worker has already found empty, during the look or asleep after it, the parent still has to signal it; if the worker is asleep, the parent is free to do so |
| SchedulerTheorems.SleeperCanProceed | src/runtime.c:74-90 | A worker for which tasks have arrived while it backs off is never stuck: it can look, fall asleep or take its lock again, or its parent can signal it |
| SchedulerTheorems.RequestsAccountedFor | src/runtime.c:637-698 | The task channel in a live request is empty, not on the stack of free channels and in no other live request; a failed request is its sender's only live one |
| SchedulerTheorems.ChannelInOnePlace | src/runtime.c:637-698 | Every task channel is free, filled, or in a live request, and in only one of these states |
| SchedulerTheorems.CountersBalance | src/runtime.c:792-831 | requested - dropped + free channels is always MAXSTEAL, within the bounds that the code asserts |
| SchedulerAssertions.SendAssertions | src/runtime.c:792-831 | A worker that may ask has a free channel; it selects itself only for lack of others; the victim's channel has room |
| SchedulerAssertions.ReceiveAssertions | src/runtime.c:592-633 | A failed request is that of a child whose flag is clear, and the two-slot queue has room for it |
| SchedulerAssertions.ServeAssertions | src/runtime.c:965-1076 | The thief's one-slot task channel has room; a request in hand never is a failed one; FORGET_REQ finds something to take back |
| SchedulerAssertions.GiveUpAssertions | src/runtime.c:848-912 | What the code asserts when a worker gives up: idle, without work, all other requests dropped, not yet waiting; the parent's channel has room |
| SchedulerAssertions.ForwardAssertions | src/runtime.c:916-934 | What the code asserts about the attempts, before and after they are counted, and about the next victim; only worker 0 selects itself, with a request sent while it was working |
| SchedulerAssertions.ShareAssertions | src/runtime.c:1080-1104 | The request that share_work takes is a child's whose flag is set, and the child's task channel has room |
| SchedulerAssertions.ReceiveTaskAssertions | src/runtime.c:637-685 | What the code asserts about the counters before and after tasks arrive |
| SchedulerAssertions.IdleAssertions | src/runtime.c:1136-1143 | What the code asserts in its idle loops: no task is queued, and some request is under way |
| SchedulerAssertions.MailHasRoom | src/runtime.c:350-365 | A request channel of MAXSTEAL * n slots has room for any request that is not in it |
| SchedulerAssertions.HeldHasRoom | src/runtime.c:598-613 | The queue of work-sharing requests never needs more than two slots |
| SchedulerAssertions.ForwardShrinksVictims | src/runtime.c:834-937 | Passing on another worker's request counts one attempt and sends it home or strictly shrinks its victims, of which the thief is none |
| SchedulerAssertions.TripIsBounded | src/runtime.c:834-937 | A live request has been passed on at most n - 1 times, and what is left of its victims bounds what is left of its trip |
| SchedulerWork.RunConservesWork | src/runtime.c:1123-1433 | Every run conserves every unit of work |
| SchedulerWork.AnswerConserves | src/runtime.c:965-1038 | Handing over one task or half of the deque loses and duplicates no unit |
| SchedulerWork.AnswerSplitConserves | src/runtime.c:1505-1575 | Handing over a part of a loop loses and duplicates no iteration |
| SchedulerWork.ShareConserves | src/runtime.c:1080-1104 | The same for tasks given to a waiting child |
| SchedulerWork.ShareSplitConserves | src/runtime.c:1080-1104 | The same for a part of a loop given to a waiting child |
| SchedulerWork.ReceiveTaskConserves | src/runtime.c:637-685 | Prepending what arrived and running its first task loses and duplicates no unit |
| SchedulerEffects.RunCreates | include/async_internal.h:81-84 | In every run, the work created so far is exactly what the spawns so far have asked for: the iterations from lo to hi - 1 of a loop, or one unit; told from the list of steps alone |
| SchedulerEffects.BarrierMeansOrdersDone | src/runtime.c:1192-1262 | So when the barrier returns, what has been executed is exactly that, each unit once |
| SchedulerEffects.SpawnsAnywhere | include/async_internal.h:81-84 | Wherever a worker could go on with a task it can spawn any range instead, and go on after that as before; worker 0 also outside of its tasks |
| SchedulerEffects.NewestFirst | src/runtime.c:1353-1357 | After a spawn the worker can pop, and gets the task just spawned, with its whole range, while the others stay as they were |
| SchedulerEffects.IterationsInOrder | include/async_internal.h:135-139 | A running task executes its iterations from the front, one at a time |
| SchedulerEffects.ArrivalsFirst | src/runtime.c:637-685 | Of what arrives the first task is run, and the others come before those in the deque, in order |
| SchedulerEffects.AnswerGives | src/runtime.c:965-1038 | The thief gets the end of the deque, in order, and the victim keeps the rest; that is half, rounded down, if half is asked for and there are two tasks, and one task otherwise |
| SchedulerEffects.AnswerSplitGives | src/runtime.c:1046-1076 | Where a loop is split, the thief gets the part above the split, and the victim keeps the part below |
| SchedulerEffects.ShareGives | src/runtime.c:1080-1104 | A waiting child gets the same part of the deque, its request is the first that was held, and the parent owes it a signal |
| SchedulerEffects.ShareSplitGives | src/runtime.c:1080-1104 | The same for a part of a loop |
| SchedulerEffects.AsksAnybody | src/runtime.c:792-831 | A worker with a request left can ask exactly those whom it does not know to be idle, or itself if there are none |
| SchedulerEffects.AskArrives | src/runtime.c:792-831 | The request comes last in the channel of the victim, and carries a free channel, no attempts and all whom the thief does not know to be idle |
| SchedulerEffects.PassesOn | src/runtime.c:932-934 | Without tasks to give, a request of another worker goes home exactly after n - 1 attempts or if nobody is left, and otherwise to any of those left |
| SchedulerEffects.PassedOnArrives | src/runtime.c:932-934 | It arrives there with one more attempt and without those who need not be asked any more |
| SchedulerEffects.GivesUpAtLast | src/runtime.c:848-878 | In every reachable state, an idle worker with an idle subtree that gets back the last of its requests can give up: worker 0 is then quiescent, any other worker waits, and its failed request arrives at its parent |
| SchedulerEffects.DropsBeforeLast | src/runtime.c:879-890 | As long as others of its requests are out, it drops the request and waits for nothing yet |
| SchedulerEffects.GoesRoundAgain | src/runtime.c:916-931 | If it is not idle, or its subtree is not, its own request can go to exactly those whom it does not know to be idle, or end there if there are none |
| SchedulerEffects.RoundStarts | src/runtime.c:916-931 | The request starts over: no attempts, all possible victims, and idle if its thief is; or its channel becomes free again |
| SchedulerEffects.ReceivesOldest | src/runtime.c:592-633 | The oldest request is received; it is in hand then, or, if it is a failed one, last in the queue of held ones |
| SchedulerEffects.ReceivesForFlagged | src/runtime.c:592-633 | A worker can receive a pending request of another exactly if it lies in a subtree whose idle flag is set |
| SchedulerEffects.ReceivesOldestFor | src/runtime.c:521-542 | So is the oldest request of a sleeping worker |
| SchedulerEffects.AnswersIfItCan | src/runtime.c:965-1076 | A request of another worker can be answered exactly if there is a task in the deque, or, without one, by any cut inside a loop that is running; an own request is taken back exactly if there is work |
| SchedulerEffects.SharesIfItCan | src/runtime.c:1080-1104 | A worker can share exactly if a child waits and there is a task to give, or a loop to cut |
| SchedulerEffects.TakesArrivals | src/runtime.c:637-685 | Tasks that have arrived can be taken exactly while the worker is idle or runs a task |
| SchedulerProgress.NoStandstill | src/runtime.c:1123-1262 | In every reachable state before termination is detected some worker can go on by itself: the protocol has no deadlock |
| SchedulerProgress.PollingMoves | src/runtime.c:1136-1143 | While a worker polls, a request of its own is out, and whoever has it or what answers it can do something about it |
| SchedulerProgress.BlockedWakes | src/runtime.c:74-90 | If tasks have arrived for a sleeping worker, the signal that its parent owes and at most k + 2 steps of its own wake it up, where k is the channel they are in |
| SchedulerProgress.SignalledWakes | src/runtime.c:59-82 | A signalled worker takes its lock again, looks at its channels and finds the tasks |
| SchedulerDetection.ComesHome | src/runtime.c:916-934 | A request that nobody answers passes every worker below its thief, and comes home |
| SchedulerDetection.NextStage | src/runtime.c:834-937 | If all workers above w have given up and w has asked for nothing yet, w can send all of its MAXSTEAL requests, get them back, drop all but the last, and give up, after which its parent takes note |
| SchedulerDetection.DetectionHappens | src/runtime.c:702-712 | For every number of workers and every MAXSTEAL there is a run in which termination is detected |
| Loop.SplitsInside | src/runtime.c:1446-1503 | Half, guided and adaptive splitting leave both parts an iteration, for any number of workers or idle workers |
| Loop.SplitsFairly | src/runtime.c:1446-1503 | How much the thief gets: half of what is left, rounded up, with split-half; one fair share of the whole loop per worker, or half if not that much is left, with guided; and with adaptive one fair share of what is left per idle worker and the own one |
| Loop.FairShareUnique | src/runtime.c:1471-1491 | A fair share, rounded down but at least one iteration, is a definite number |
| Loop.EmptyLoopSplits | src/runtime.c:1041-1042 | What is split off a loop without iterations is empty if and only if the range is halved |
| Loop.EmptyLoopWitness | src/runtime.c:1452-1468 | A loop from 10 to 0 whose thief runs -5 to -1 |
| Loop.LoopTask.SplitLoop | src/runtime.c:1505-1575 | The thief gets the upper part, of the size that the strategy promises; the lower part with the current iteration stays; of a loop whose end lies below, the thief gets nothing if and only if it is halved |
| Loop.FoldJoins | include/future_internal.h:312-323 | For an associative operation with a unit, the folds of two lists combine to the fold of both |
| LoopPop.CutsMeans | src/runtime.c:1418-1430 | The condition on the requests: some foreign one is received after the earlier ones have emptied the deque |
| LoopPop.LeftIs | src/runtime.c:965-1038 | What a thief takes while a popped task waits to run: nothing of an empty deque, half if it asks for half and there are two tasks, otherwise one |
| LoopPop.CutsByCounting | src/runtime.c:1418-1430 | If thieves get one task each: more thieves than tasks |
| LoopPop.KeptAll | src/runtime.c:1418-1430 | A popped loop keeps its whole range if and only if it has fewer than two iterations or no foreign request finds the deque empty; it always keeps its first iteration |
| LoopPop.CutIsTheRest | src/runtime.c:1418-1430 | The pieces cut off a popped loop are exactly the rest of its range, in order |
| LoopPop.ServeWhenPopped | src/runtime.c:1396-1433 | What the requests leave to a popped loop, and which pieces they cut off; these go on the current task's list if the loop has a future; it crashes if and only if a loop with a future is split while no task is current |
| LoopPop.PoppedWithoutCurrentCrashes | src/runtime.c:1553-1555 | A loop of two iterations, popped while no task is current, dereferences a null pointer |
| LoopPop.PopsAboveCut | src/runtime.c:1538-1568 | The pops above the pieces that stray are those of the scripts that came with the requests |
| LoopPop.NoStrays | src/runtime.c:1538-1568 | A list of pops makes nothing stray if and only if none of them splits a loop with a future |
| LoopCurrent.DoActions | src/runtime.c:1108-1118 | Any splits and pops, made where the task polls, leave its list and its range such that what is done, what it has left and what is listed still add up |
| LoopCurrent.AdvanceCurrent | include/async_internal.h:135-139 | The back edge of ASYNC_FOR keeps cur one ahead of the index, and never gives away the iteration in progress |
| LoopCurrent.RunCurrentLoop | include/async_internal.h:135-139 | The loop runs what is left of the own range, however it was cut before it started or meanwhile, once and in order |
| LoopCurrent.AwaitCurrent | include/future_internal.h:312-323 | Awaiting the first piece on the list yields the fold over what the piece combines |
| LoopCurrent.ReduceCurrent | include/future_internal.h:312-323 | REDUCE combines the pieces on the list, the head first, without commutativity |
| LoopCurrent.PopOnce | src/runtime.c:1538-1568 | Exactly what a popped loop with a future loses comes first on the current task's list; without a future nothing does |
| LoopCurrent.RunListed | include/future_internal.h:312-323 | A piece is run with the script that came with its request, and its result holds what strayed above it |
| LoopCurrent.RunCurrent | src/runtime.c:1264-1351 | For every script of splits and pops, made at any time before, during and after its loop, and with a script for every piece in turn: a current task combines its own iterations in order and exactly the iterations that loops lost when they were popped above it or above a piece at any depth; its reduction is its own fold if and only if none of those loops has a future and is split |
| LoopCurrent.RunTask | src/tasking_internal.h:43-63 | If nothing is popped above it or its pieces: for every script of splits, each iteration of [start, end) is executed once, in order; the reduction is the fold over it; the counts of the task and its pieces add up to end - start; and the range it keeps ends where the last split was |
| LoopCurrent.RunPopped | src/runtime.c:1538-1568 | The same for a task that has just been popped: of its range it combines what it kept; that is all of it, and nothing else, if and only if neither it nor, while it runs, a loop with a future above it or above its pieces is split when popped |
| LoopCurrent.PoppedLoopLosesHalf | src/runtime.c:1396-1433 | A loop of two iterations that is split when popped contributes only its first |
| LoopCurrent.CurrentPicksUpStray | src/runtime.c:1553-1555 | A current task of one iteration that also reduces an iteration of another loop |
| LoopCurrent.PieceDisturbed | src/runtime.c:1553-1555 | A task above which nothing is popped, and whose reduction has an iteration of another loop through that of its piece |
| LoopCurrent.NoFutureNoStray | src/runtime.c:1538 | A popped loop without a future is split, and the current task keeps its own fold |
| Futures.StepKeeps | include/future_internal.h:15-59 | Sending, accepting, running, setting, converting and forcing keep the invariant of the union and its flags |
| Futures.UnionIsReadAsWritten | include/future_internal.h:36-59 | In every run: converted at most once and only before the child has finished; the union is read as what was written; a result is sent only to an empty channel; the assertions of RT_force_future hold |
| Futures.AwaitGetsResult | src/runtime.c:1264-1351 | What the awaiting task gets is the child's result, after the child has finished; it is received at most once and the channel freed exactly once |
| Futures.FinishedIsReady | src/runtime.c:1264-1351 | Once the child has finished, one evaluation of READY leads to the result, whether the task ran locally or was stolen |
| Futures.CanBeStolen | include/future_internal.h:15-59 | A task in a deque can be sent to a thief, which gives its future an open channel |
| Futures.CanAlwaysReturn | src/runtime.c:1264-1351 | From every state, whatever has happened to the task, some steps lead to the await returning its result |
| Deque.Task.constructor | src/task.h:37-65 | A new task is zeroed |
| Deque.Deque.constructor | src/deque.c:39-58 | A new deque is empty: its list is the dummy node |
| Deque.Deque.Push | src/deque.c:170-180 | The task becomes the first one; the deque stays valid if and only if the task came unlinked |
| Deque.Deque.Pop | src/deque.c:182-199 | The first task is removed and unlinked; null exactly on the empty deque |
| Deque.Deque.PopChild | src/deque.c:201-223 | The same, if and only if the first task is a child of the given one; otherwise nothing changes |
| Deque.Deque.Steal | src/deque.c:225-252 | The last task is removed and unlinked; null exactly on the empty deque |
| Deque.Deque.WalkBack | src/deque.c:276-279 | Walking n steps back from the dummy node reaches the n-th task from the end |
| Deque.Deque.StealLast | src/deque.c:281-292 | Cuts off the last n tasks, in order, as a well-linked list of their own |
| Deque.Deque.StealMany | src/deque.c:257-346 | Takes the last min(max, max(1, len / 2)) tasks in order; nothing from an empty deque; fails its assertion if and only if max is below 1 and there is a task |
| Deque.Deque.StealHalf | src/deque.c:351-438 | Takes the last max(1, len / 2) tasks in order; nothing from an empty deque |
| Deque.Deque.Prepend | src/deque.c:99-115 | The list comes before the tasks |
| Deque.Deque.PrependCounted | src/deque.c:118-141 | The same, looking for the end of the list |
| Deque.Deque.PrependList | src/deque.c:144-168 | The same, looking for the end of the list and counting it |
| Deque.FindLast | src/deque.c:153-156 | Finds the last task of a list and its length |
| Deque.Deque.TaskNew | src/deque.c:80-88 | A zeroed task: the top of the free ones, or a fresh one |
| Deque.Deque.TaskCache | src/deque.c:90-96 | The task is zeroed and becomes the top of the free ones, which stay apart from the list |
| Deque.PushLinkedTask | src/deque.c:170-180 | A pushed task that points back at another leaves an invalid deque |
| Deque.StealNone | src/deque.c:257-346 | A bulk steal of no task fails its assertion |
| Deque.TransferHalf | src/runtime.c:965-1038 | Half of the victim's tasks, prepended at the thief: the two deques in a row hold the same tasks in the same order as before |
| Channel.Inc | src/channel_shm/channel.c:42-43 | The next slot of the ring |
| Channel.NumItems | src/channel_shm/channel.c:48-49 | The distance from head to tail around the ring |
| Channel.FullAndEmpty | src/channel_shm/channel.c:48-55 | The tests for full and empty say that the channel holds its capacity or nothing, buffered or not |
| Channel.WriteAtTail | src/channel_shm/channel.c:303-312 | Copying into the slot at the tail of a channel with room touches nothing pending |
| Channel.PublishAppends | src/channel_shm/channel.c:502-524 | Advancing the tail appends the copied item |
| Channel.ConsumeRemoves | src/channel_shm/channel.c:428-450 | Advancing the head removes the oldest item, which is the one copied out |
| Channel.Channel.constructor | src/channel_shm/channel.c:154-217 | A new channel is empty and open; capacity 0 gives one slot |
| Channel.Channel.Send | src/channel_shm/channel.c:597-600 | Appends, or fails exactly if the channel is full |
| Channel.Channel.Receive | src/channel_shm/channel.c:604-607 | Removes the oldest item, or fails exactly if the channel is empty |
| Channel.Channel.Peek | src/channel_shm/channel.c:629-635 | The number of pending items |
| Channel.Channel.Close | src/channel_shm/channel.c:374-386 | Closes; false if it was closed before; nothing pending is lost |
| ChannelSteps.StepKeeps | src/channel_shm/channel.c:290-371 | Lock, check, copy and publish of senders and receivers, in any interleaving, keep the invariant of the ring |
| ChannelSteps.StepRefinesQueue | src/channel_shm/channel.c:290-371 | Each step is a step of a bounded queue: publishing the tail appends, publishing the head removes, nothing else changes it |
| ChannelSteps.ChecksDecide | src/channel_shm/channel.c:303-306 | The check of a sender passes exactly if there is room, that of a receiver exactly if there is an item; otherwise the lock is given back |
| ChannelSteps.SendSucceeds | src/channel_shm/channel.c:290-325 | A send to a channel with room passes all of its steps and leaves the item last |
| ChannelSteps.ReceiveSucceeds | src/channel_shm/channel.c:328-371 | A receive from a channel that is not empty passes all of its steps and takes the first item |
| ChannelSteps.BoundedFifo | src/channel_shm/channel.c:428-524 | In every run the received items are a prefix of the sent ones, and what is under way fits the capacity |
| ChannelSteps.DrainDeliversAll | src/channel_shm/channel.h:70-84 | channel_range, run beside a producer that closes after its last send, ends only after it has delivered exactly the sent sequence in order |
| ChannelSteps.ReaderEndsWhenDrained | src/channel_shm/channel.h:70-84 | Having seen the channel closed, the reader ends exactly if nothing is pending |
| ChannelSteps.ReaderFinishes | src/channel_shm/channel.h:70-84 | Once the channel is closed, the reader alone comes to its end within 6 steps for every pending item and 4 more, with everything delivered |
| ChannelSteps.DrainCanFinish | src/channel_shm/channel.h:70-84 | From every state, producer and reader can come to the end, with everything delivered |
| Sorting.MergePermutes | test/cilksort.c:189-261 | The merge has the elements of both sequences |
| Sorting.MergeSorts | test/cilksort.c:189-261 | The merge of sorted sequences is sorted |
| Sorting.SortedUnique | test/cilksort.c:352-389 | Sorted sequences with the same elements are equal |
| Quicksort.Med3 | test/cilksort.c:85-106 | One of the three values, with one of them on either side |
| Quicksort.Seqpart | test/cilksort.c:116-151 | Hoare's partition ends inside the range with small elements below, large ones above, and the elements rearranged |
| Quicksort.InsertionSort | test/cilksort.c:161-172 | The range is sorted and rearranged, the rest unchanged |
| Quicksort.Seqquick | test/cilksort.c:177-188 | The same for the tail-recursive quicksort |
| Cilksort.MergeOne | test/cilksort.c:219-234 | One comparison writes the next element of the simple merge |
| Cilksort.Seqmerge | test/cilksort.c:189-261 | The fast loop, the slow loop and the copy together write exactly the simple merge, whatever the ranges hold, and nothing else |
| Cilksort.Binsplit | test/cilksort.c:271-291 | Exactly where the range splits: no element up to it above the value, none beyond it below; and which index it is among equals |
| Cilksort.SplitIndexIsGreatest | test/cilksort.c:273-276 | It is the index of the greatest element that is at most the value, as the comment says, if and only if the value comes first or nowhere |
| Cilksort.SplitIndexIsLast | test/cilksort.c:273-276 | It is the last such index if and only if the value comes nowhere after the first place |
| Cilksort.BinsplitWitness | test/cilksort.c:271-291 | Among 1, 2, 2 the index for 2 is that of the 1 |
| Cilksort.MergeSplits | test/cilksort.c:327-350 | Merging below and above a split element separately is merging the whole |
| Cilksort.MergeCommutes | test/cilksort.c:316-319 | Swapping the two ranges does not change what is merged |
| Cilksort.MergedJoin | test/cilksort.c:327-350 | The split element and the two merges beside it exactly fill the destination |
| Cilksort.Cilkmerge | test/cilksort.c:293-350 | The divide-and-conquer merge of sorted ranges writes exactly the simple merge, for any MERGESIZE >= 2; it goes wrong if and only if both ranges are empty |
| Cilksort.EmptyMerge | test/cilksort.c:320-324 | The merge of nothing with nothing goes wrong |
| Cilksort.QuartersSorted | test/cilksort.c:374-377 | Sorting four neighbouring parts one after the other leaves all four sorted and the whole rearranged |
| Cilksort.Cilksort | test/cilksort.c:352-389 | The range is sorted and holds the same elements; the rest of both arrays is unchanged |
| Tasks.InterleavedCell | test/cilksort.c:453-454 | However two tasks interleave, a cell that only one of them writes gets what that task alone would give it |
| Tasks.InterleavedUpdates | test/cilksort.c:453-454 | An interleaving makes exactly the writes of the two tasks |
| Tasks.InOrderExecutes | test/mm_dac.c:96-120 | The sequential order is one of the executions of a task tree |
| CilksortTasks.FillsCell | test/cilksort.c:453-454 | The writes of a merge, in any order, give each cell of the destination its value and change no other |
| CilksortTasks.ParallelMerge | test/cilksort.c:400-457 | In every interleaving of its futures, at every depth, cilkmerge makes exactly the writes of the simple merge |
| CilksortTasks.ParallelEqualsSequential | test/cilksort.c:400-457 | So every run leaves what the sequential merge leaves |
| CilksortTasks.ParallelQuarters | test/cilksort.c:491-496 | Four sorting tasks that interleave leave the four quarters sorted, in the array and in the temporary array within their own parts |
| CilksortTasks.ParallelSort | test/cilksort.c:463-508 | In every interleaving of its futures, at every depth, cilksort sorts its range and writes nowhere outside it and its part of the temporary array |
| CilksortTasks.ParallelCilksort | test/cilksort.c:463-508 | For the arrays: the range is sorted and holds its elements, and the rest of both arrays is unchanged, whatever the order |
| CilksortTasks.QuickExists | test/cilksort.c:475-479 | There is a sequential sort as the tree of tasks has it at its leaves |
| Tasks.PrefixInterleaves | test/cilksort.c:491-496 | At each point of an interleaving each of the two tasks is at a point of its own |
| Tasks.Regroup | test/cilksort.c:491-496 | One of two tasks that run beside others runs beside all the rest |
| CilksortReads.QuarterInside | test/cilksort.c:491-496 | Each of the four calls of the first phase runs beside others that write to none of its parts of the two arrays |
| CilksortReads.CallSettles | test/cilksort.c:491-507 | A call that runs beside such others finds what its merges read complete, from their start until they are done, and so do all calls below it |
| CilksortReads.MergesReadSettled | test/cilksort.c:463-508 | So at every point of every run, at every depth, the merges under way read the sorted quarters and the merged halves |
| MatMul.AccSplits | test/mm_dac.c:96-120 | Products added up in two runs are added in the same order as in one |
| MatMul.JoinCols | test/mm_dac.c:96-120 | Products side by side make a wider one |
| MatMul.JoinRows | test/mm_dac.c:96-120 | Products one below the other make a taller one |
| MatMul.JoinDepth | test/mm_dac.c:96-120 | Products added to one block make a deeper one |
| MatMul.MultipliedUnique | test/mm_dac.c:201-202 | The specification leaves one matrix only |
| MatMul.MmBase | test/mm_dac.c:81-92 | The triple loop adds the products of each cell in the order of k, and leaves all other cells alone |
| MatMul.PowersHalve | test/mm_dac.c:34-54 | Powers of two can be halved down to any threshold |
| MatMul.FourQuadrants | test/mm_dac.c:140-155 | One phase is a product of half depth over the whole block |
| MatMul.MmDac | test/mm_dac.c:96-120 | Divide and conquer adds the same products in the same order as the triple loop, for any addition and multiplication |
| MatMul.CompareBoth | test/mm_dac.c:96-120 | From equal matrices the sequential version and the triple loop leave equal matrices |
| MatMulTasks.BaseMultiplies | test/mm_dac.c:81-92 | The additions of the triple loop, as a list, add the product cell by cell |
| MatMulTasks.PhaseMultiplies | test/mm_dac.c:140-155 | Whatever the order of the additions of its four tasks, a phase is a product of half depth |
| MatMulTasks.DacMultiplies | test/mm_dac.c:128-158 | So every execution of the task tree adds the product, each cell in the order of k |
| MatMulTasks.ParallelEqualsLoop | test/mm_dac.c:175-207 | mm_dac, in every interleaving of its tasks, leaves the matrix that the triple loop leaves |

## Left out

- Thread creation, affinity, command lines, statistics, profiling and printing.
- Shutting down (RT_EXIT) and the signals that it sends.
- The variants STEAL_LASTVICTIM, STEAL_LASTTHIEF and sleeping with exponential back-off; the model backs off by waiting on a condition variable.
- Random numbers: what rand_r returns is a parameter. The ratio that decides about stealing half is a free choice of each request.
- Wrap-around of 32-bit words, which the bit operations modelled do not reach; the other macros of src/bit.h.
- Liveness under fairness: in every reachable state some worker can go on (NoStandstill) and a detection is possible from the start (DetectionHappens), but that every fair run ends in one is not proved; nothing is said about the order in which workers get to act.
- The scheduler is a step system on values, not a program on the heap: a worker's record is replaced as a whole, and a task is its identity and remaining range. The heap is modelled in Deque, Channel and Loop.
- Channel operations are one step each in Scheduler; ChannelSteps opens them up. ReceiverIsAlone shows that the scheduler gives each request channel one receiver at a time, which ChannelSteps takes for granted; the two step systems are not merged into one.
- Memory ordering of the hardware: steps are sequentially consistent. The unlocked test before a sender takes its lock, which only makes it give up early, is not modelled.
- The channel cache, channel_open, and the sizes and bytes of items: an item is a value.
- The fields of Task that the deque does not use, and freeing memory (deque_delete, channel_free of a full channel).
- Eagerly allocated futures: the channel of one is the Open state of Futures from the start.
- LoopCurrent and Scheduler are about loops that do not end below their start; what may happen to the others is stated for one split (SplitLoop).
- The loops in one run of LoopCurrent reduce with the same operation, and a task that reduces has a future, as REDUCE is meant for.
- Floating point: MatMul takes any two operations, so rounding is neither assumed nor described.
- CilksortTasks and MatMulTasks interleave writes; the values written are those that a task computes from what it reads, and that these reads find it complete is proved for the sort (MergesReadSettled); the matrix multiplication reads only what nobody writes. The single writes of seqquick are not listed: a leaf makes any writes that sort its range, which is what Seqquick promises.
- The other programs under test/ (LU, N-body, UTS, N-queens, producer and consumer), and src/list.h, src/bounded_queue.h and src/bounded_stack.h, which appear as bounded sequences.
