/** The work-stealing scheduler of src/runtime.c as a step system over any number of
    workers, for any MAXSTEAL >= 1, with steal-early, loop splitting, and backing off by
    waiting on a condition variable.

    A worker's private variables and the channels it owns form one record. Every step
    belongs to one worker and performs at most one operation on memory that other workers
    can see: one channel send, one channel receive, a peek at one channel, going to sleep
    on a condition variable, or one signal. Taking a lock belongs to the operation that
    follows it, and giving it back to the one before. Channel operations are atomic here;
    the module ChannelSteps opens them up. */
module Scheduler {
  import opened Common
  import opened WorkerTree

  /** A task with its iterations that have not been started yet, [cur, end). A task that is
      not a loop is one iteration that cannot be split. */
  datatype Task = Task(id: nat, cur: int, end: int, splittable: bool)

  /** One iteration of one loop task, or one task that is not a loop. */
  type Unit = (nat, int)

  datatype RequestState = StateWorking | StateIdle | StateFailed

  /** `chan` is an index into the sender's own task channels. */
  datatype Request = Request(id: nat, chan: nat, try: nat, victims: set<nat>, state: RequestState, half: bool)

  /** Running tasks, or relaying steal requests in the loops of `schedule` and `RT_barrier`. */
  datatype Mode = Working | Idle

  /** Where a worker stands in `WAIT()`. `Peeking` holds its own back-off lock and has found the
      task channels below `next` empty; once it has seen all of them, it still holds the lock
      until it is `Blocked` in `pthread_cond_wait`. `Woken` is on its way back to the lock. */
  datatype Phase = Awake | Peeking(next: nat) | Blocked | Woken

  datatype Worker = Worker(
    deque: seq<Task>,          // the head is first
    stack: seq<Task>,          // tasks being run, the current one last
    boxes: seq<seq<Task>>,     // task channels, one slot each; [] is an empty channel
    mail: seq<Request>,        // request channel
    hand: Option<Request>,     // a request received and not yet disposed of
    held: seq<Request>,        // work_sharing_requests
    free: seq<nat>,            // channel_stack, the top is last
    requested: int,
    dropped: int,              // dropped_steal_requests
    left: bool,                // tree.left_subtree_is_idle
    right: bool,               // tree.right_subtree_is_idle
    waiting: bool,             // tree.waiting_for_tasks
    mode: Mode,
    phase: Phase, owes: Option<nat>)         // worker that was sent tasks and not yet signalled

  /** `created` and `done` record which units of work were ever created and executed. */
  datatype State = State(
    ws: seq<Worker>,
    maxSteal: nat, quiescent: bool,           // of worker 0; the other workers never set theirs
    next: nat,                 // the next fresh task id
    created: multiset<Unit>,
    done: multiset<Unit>)

  datatype Step =
    | Spawn(w: nat, lo: int, hi: int, loop: bool)
    | Pop(w: nat)
    | Iterate(w: nat)
    | Finish(w: nat)
    | GoIdle(w: nat)
    | SoloBarrier
    | Send(w: nat, half: bool, victim: nat)
    | Receive(w: nat)
    | ReceiveFor(w: nat, v: nat)
    | Answer(w: nat)
    | AnswerSplit(w: nat, j: nat, at: int)
    | Forget(w: nat)
    | Decline(w: nat, victim: nat)
    | Share(w: nat)
    | ShareSplit(w: nat, j: nat, at: int)
    | ReceiveTask(w: nat, k: nat)
    | Peek(w: nat)
    | Wait(w: nat)
    | WakeUp(w: nat)
    | Relock(w: nat)
    | Signal(w: nat)

  // Initial states

  function NewWorker(n: nat, maxSteal: nat, w: nat): Worker
  {
    Worker([], [], seq(maxSteal, _ => []), [], None, [], seq(maxSteal, k => k), 0, 0,
           2 * w + 1 >= n, 2 * w + 2 >= n, false, Working, Awake, None)
  }

  function Start(n: nat, maxSteal: nat): State
    requires n >= 1 && maxSteal >= 1
  {
    State(seq(n, w requires 0 <= w < n => NewWorker(n, maxSteal, w)), maxSteal, false, 0, multiset{}, multiset{})
  }

  // Small updates

  predicate SameSize(s: State, s1: State)
  {
    |s1.ws| == |s.ws| && s1.maxSteal == s.maxSteal
  }

  function SetWorker(s: State, w: nat, x: Worker): (s1: State)
    requires w < |s.ws|
    ensures SameSize(s, s1)
  {
    s.(ws := s.ws[w := x])
  }

  function PutMail(s: State, v: nat, r: Request): (s1: State)
    requires v < |s.ws|
    ensures SameSize(s, s1)
  {
    SetWorker(s, v, s.ws[v].(mail := s.ws[v].mail + [r]))
  }

  function PutBox(s: State, v: nat, k: nat, bundle: seq<Task>): (s1: State)
    requires v < |s.ws| && k < |s.ws[v].boxes|
    ensures SameSize(s, s1)
  {
    SetWorker(s, v, s.ws[v].(boxes := s.ws[v].boxes[k := bundle]))
  }

  // Who may do what

  /** Not backing off, not about to signal, and with no request in hand. */
  predicate Ready(s: State, w: nat)
  {
    w < |s.ws| && s.ws[w].phase == Awake && !s.ws[w].waiting && s.ws[w].owes == None && s.ws[w].hand == None
  }

  /** About to dispose of the request in hand. */
  predicate Serving(s: State, w: nat)
  {
    w < |s.ws| && s.ws[w].phase == Awake && !s.ws[w].waiting && s.ws[w].owes == None && s.ws[w].hand.Some?
  }

  /** Worker 0 runs the root task, which is not on its stack. */
  predicate InTask(s: State, w: nat)
    requires w < |s.ws|
  {
    s.ws[w].mode == Working && (w == 0 || s.ws[w].stack != [])
  }

  predicate Splittable(t: Task)
  {
    t.splittable && t.end - t.cur > 1
  }

  /** Workers on whose behalf `w` receives steal requests. */
  function Flagged(n: nat, x: Worker, w: nat): set<nat>
  {
    (if x.left then Subtree(n, 2 * w + 1) else {}) + (if x.right then Subtree(n, 2 * w + 2) else {})
  }

  // Choosing the next victim (next_victim)

  function Pruned(n: nat, x: Worker, w: nat, victims: set<nat>): set<nat>
  {
    var vs := victims - {w};
    if x.left && x.right then vs - Subtree(n, w)
    else if x.left then vs - Subtree(n, 2 * w + 1)
    else if x.right then vs - Subtree(n, 2 * w + 2)
    else vs
  }

  /** The request as worker `w` sends it on. */
  function Routed(n: nat, x: Worker, w: nat, r: Request): Request
  {
    if r.try == n - 1 then r.(victims := r.victims - {w}) else r.(victims := Pruned(n, x, w, r.victims))
  }

  /** `victim` is a possible result of `next_victim`: random choice is any member. */
  predicate IsNextVictim(n: nat, x: Worker, w: nat, r: Request, victim: nat)
  {
    if r.try == n - 1 || Pruned(n, x, w, r.victims) == {} then victim == r.id
    else victim in Pruned(n, x, w, r.victims)
  }

  predicate IsWorker(n: nat, w: nat)
  {
    w < n
  }

  /** INIT_VICTIMS */
  function AllWorkers(n: nat): set<nat>
  {
    set w: nat | w < n && IsWorker(n, w)
  }

  // Units of work

  function UnitsOf(t: Task): multiset<Unit>
  {
    multiset(set i | t.cur <= i < t.end :: (t.id, i))
  }

  // Running tasks: RT_push, RT_pop, run_task

  function DoSpawn(s: State, w: nat, lo: int, hi: int, loop: bool): (s1: State)
    requires w < |s.ws|
    ensures SameSize(s, s1)
  {
    var x := s.ws[w];
    var t := if loop then Task(s.next, lo, hi, true) else Task(s.next, 0, 1, false);
    SetWorker(s, w, x.(deque := [t] + x.deque)).(
      quiescent := s.quiescent && w != 0,
      next := s.next + 1,
      created := s.created + UnitsOf(t))
  }

  function DoPop(s: State, w: nat): (s1: State)
    requires w < |s.ws| && s.ws[w].deque != []
    ensures SameSize(s, s1)
  {
    var x := s.ws[w];
    SetWorker(s, w, x.(deque := x.deque[1..], stack := x.stack + [x.deque[0]]))
  }

  function DoIterate(s: State, w: nat): (s1: State)
    requires w < |s.ws| && s.ws[w].stack != []
    ensures SameSize(s, s1)
  {
    var x := s.ws[w];
    var top := |x.stack| - 1;
    var t := x.stack[top];
    SetWorker(s, w, x.(stack := x.stack[top := t.(cur := t.cur + 1)])).(done := s.done + multiset{(t.id, t.cur)})
  }

  function DoFinish(s: State, w: nat): (s1: State)
    requires w < |s.ws| && s.ws[w].stack != []
    ensures SameSize(s, s1)
  {
    var x := s.ws[w];
    SetWorker(s, w, x.(stack := x.stack[..|x.stack| - 1]))
  }

  // try_send_steal_request

  function FreshRequest(s: State, w: nat, half: bool): Request
    requires w < |s.ws| && s.ws[w].free != []
  {
    var x := s.ws[w];
    Request(w, x.free[|x.free| - 1], 0, AllWorkers(|s.ws|),
            if x.mode == Idle then StateIdle else StateWorking, half)
  }

  function DoSend(s: State, w: nat, half: bool, victim: nat): (s1: State)
    requires w < |s.ws| && victim < |s.ws| && s.ws[w].free != []
    ensures SameSize(s, s1)
  {
    var x := s.ws[w];
    var r := Routed(|s.ws|, x, w, FreshRequest(s, w, half));
    PutMail(SetWorker(s, w, x.(free := x.free[..|x.free| - 1], requested := x.requested + 1)), victim, r)
  }

  // RECV_REQ

  function DoReceive(s: State, w: nat): (s1: State)
    requires w < |s.ws| && s.ws[w].mail != []
    ensures SameSize(s, s1)
  {
    var x := s.ws[w];
    var r := x.mail[0];
    if r.state == StateFailed then
      SetWorker(s, w, x.(mail := x.mail[1..], held := x.held + [r],
                         left := x.left || r.id == 2 * w + 1, right := x.right || r.id != 2 * w + 1))
    else
      SetWorker(s, w, x.(mail := x.mail[1..], hand := Some(r)))
  }

  function DoReceiveFor(s: State, w: nat, v: nat): (s1: State)
    requires w < |s.ws| && v < |s.ws| && v != w && s.ws[v].mail != []
    ensures SameSize(s, s1)
  {
    var r := s.ws[v].mail[0];
    SetWorker(SetWorker(s, v, s.ws[v].(mail := s.ws[v].mail[1..])), w, s.ws[w].(hand := Some(r)))
  }

  // handle_steal_request, split_loop

  function DoAnswer(s: State, w: nat): (s1: State)
    requires Serving(s, w) && s.ws[w].deque != []
    requires s.ws[w].hand.value.id < |s.ws| && s.ws[w].hand.value.chan < |s.ws[s.ws[w].hand.value.id].boxes|
    ensures SameSize(s, s1)
  {
    var x := s.ws[w];
    var r := x.hand.value;
    var left := |x.deque| - LootSize(|x.deque|, r.half);
    PutBox(SetWorker(s, w, x.(hand := None, deque := x.deque[..left])), r.id, r.chan, x.deque[left..])
  }

  function CutStack(stack: seq<Task>, j: nat, at: int): seq<Task>
    requires j < |stack|
  {
    stack[j := stack[j].(end := at)]
  }

  function DoAnswerSplit(s: State, w: nat, j: nat, at: int): (s1: State)
    requires Serving(s, w) && j < |s.ws[w].stack|
    requires s.ws[w].hand.value.id < |s.ws| && s.ws[w].hand.value.chan < |s.ws[s.ws[w].hand.value.id].boxes|
    ensures SameSize(s, s1)
  {
    var x := s.ws[w];
    var r := x.hand.value;
    PutBox(SetWorker(s, w, x.(hand := None, stack := CutStack(x.stack, j, at))), r.id, r.chan, [x.stack[j].(cur := at)])
  }

  // FORGET_REQ

  function DoForget(s: State, w: nat): (s1: State)
    requires Serving(s, w)
    ensures SameSize(s, s1)
  {
    var x := s.ws[w];
    SetWorker(s, w, x.(hand := None, free := x.free + [x.hand.value.chan], requested := x.requested - 1))
  }

  // decline_steal_request

  /** `decline_all_steal_requests` first marks the worker's own request as idle. */
  function Declined(s: State, w: nat): Request
    requires Serving(s, w)
  {
    var r := s.ws[w].hand.value;
    r.(try := r.try + 1,
       state := if s.ws[w].mode == Idle && r.id == w && r.state == StateWorking then StateIdle else r.state)
  }

  predicate GivesUp(s: State, w: nat)
    requires Serving(s, w)
  {
    var r := Declined(s, w);
    r.id == w && r.state == StateIdle && s.ws[w].left && s.ws[w].right
  }

  predicate LastRequest(s: State, w: nat)
    requires w < |s.ws|
  {
    s.ws[w].requested == s.maxSteal && |s.ws[w].free| == s.maxSteal - 1
  }

  /** detect_termination; the barrier's loop then ends at once. */
  function DoDetect(s: State, w: nat): (s1: State)
    requires Serving(s, w)
    ensures SameSize(s, s1)
  {
    var x := s.ws[w];
    SetWorker(s, w, x.(hand := None, free := x.free + [x.hand.value.chan],
                       requested := x.requested - 1, mode := Working)).(quiescent := true)
  }

  function DoFailUp(s: State, w: nat): (s1: State)
    requires Serving(s, w) && w > 0
    ensures SameSize(s, s1)
  {
    PutMail(SetWorker(s, w, s.ws[w].(hand := None, waiting := true, phase := Peeking(0))),
            Parent(w), Declined(s, w).(state := StateFailed))
  }

  function DoDrop(s: State, w: nat): (s1: State)
    requires Serving(s, w)
    ensures SameSize(s, s1)
  {
    var x := s.ws[w];
    SetWorker(s, w, x.(hand := None, free := x.free + [x.hand.value.chan], dropped := x.dropped + 1))
  }

  /** The request as `decline_steal_request` passes it to `next_victim`. */
  function Resent(s: State, w: nat): Request
    requires Serving(s, w)
  {
    var r := Declined(s, w);
    if r.id == w then r.(try := 0, victims := AllWorkers(|s.ws|)) else r
  }

  function DoForward(s: State, w: nat, victim: nat): (s1: State)
    requires Serving(s, w) && victim < |s.ws|
    ensures SameSize(s, s1)
  {
    PutMail(SetWorker(s, w, s.ws[w].(hand := None)), victim, Routed(|s.ws|, s.ws[w], w, Resent(s, w)))
  }

  function DoDecline(s: State, w: nat, victim: nat): (s1: State)
    requires Serving(s, w) && victim < |s.ws|
    ensures SameSize(s, s1)
  {
    if GivesUp(s, w) then
      if !LastRequest(s, w) then DoDrop(s, w)
      else if w == 0 then DoDetect(s, w)
      else DoFailUp(s, w)
    else if Declined(s, w).id == w && victim == w then DoForget(s, w)
    else DoForward(s, w, victim)
  }

  // share_work

  /** The parent's private bookkeeping for the request it has just answered. */
  function Shared(x: Worker, w: nat): Worker
    requires x.held != []
  {
    var c := x.held[0].id;
    x.(held := x.held[1..], owes := Some(c), left := x.left && c != 2 * w + 1, right := x.right && c == 2 * w + 1)
  }

  function DoShare(s: State, w: nat): (s1: State)
    requires w < |s.ws| && s.ws[w].held != [] && s.ws[w].deque != []
    requires s.ws[w].held[0].id < |s.ws| && s.ws[w].held[0].chan < |s.ws[s.ws[w].held[0].id].boxes|
    ensures SameSize(s, s1)
  {
    var x := s.ws[w];
    var r := x.held[0];
    var left := |x.deque| - LootSize(|x.deque|, r.half);
    PutBox(SetWorker(s, w, Shared(x, w).(deque := x.deque[..left])), r.id, r.chan, x.deque[left..])
  }

  function DoShareSplit(s: State, w: nat, j: nat, at: int): (s1: State)
    requires w < |s.ws| && s.ws[w].held != [] && j < |s.ws[w].stack|
    requires s.ws[w].held[0].id < |s.ws| && s.ws[w].held[0].chan < |s.ws[s.ws[w].held[0].id].boxes|
    ensures SameSize(s, s1)
  {
    var x := s.ws[w];
    var r := x.held[0];
    PutBox(SetWorker(s, w, Shared(x, w).(stack := CutStack(x.stack, j, at))), r.id, r.chan, [x.stack[j].(cur := at)])
  }

  // RECV_TASK

  function DoReceiveTask(s: State, w: nat, k: nat): (s1: State)
    requires w < |s.ws| && k < |s.ws[w].boxes| && s.ws[w].boxes[k] != []
    ensures SameSize(s, s1)
  {
    var x := s.ws[w];
    var bundle := x.boxes[k];
    SetWorker(s, w, x.(boxes := x.boxes[k := []], free := x.free + [k],
                       requested := if x.waiting then 0 else x.requested - x.dropped - 1,
                       dropped := 0, waiting := false, mode := Working,
                       stack := x.stack + [bundle[0]], deque := bundle[1..] + x.deque))
  }

  // The step relation

  predicate CanSpawn(s: State, w: nat, lo: int, hi: int, loop: bool)
  {
    Ready(s, w) && InTask(s, w) && lo <= hi
  }

  predicate CanPop(s: State, w: nat)
  {
    Ready(s, w) && s.ws[w].mode == Working && s.ws[w].deque != []
  }

  predicate CanIterate(s: State, w: nat)
  {
    Ready(s, w) && s.ws[w].mode == Working && s.ws[w].stack != []
    && var t := s.ws[w].stack[|s.ws[w].stack| - 1]; t.cur < t.end
  }

  predicate CanFinish(s: State, w: nat)
  {
    Ready(s, w) && s.ws[w].mode == Working && s.ws[w].stack != []
    && var t := s.ws[w].stack[|s.ws[w].stack| - 1]; t.cur >= t.end
  }

  predicate CanGoIdle(s: State, w: nat)
  {
    Ready(s, w) && s.ws[w].mode == Working && s.ws[w].deque == [] && s.ws[w].stack == []
    && (w == 0 ==> |s.ws| > 1 && !s.quiescent)
  }

  predicate CanSoloBarrier(s: State)
  {
    Ready(s, 0) && |s.ws| == 1 && s.ws[0].mode == Working && s.ws[0].deque == [] && s.ws[0].stack == []
  }

  predicate CanSend(s: State, w: nat, half: bool, victim: nat)
  {
    Ready(s, w) && (s.ws[w].mode == Idle || InTask(s, w)) && s.ws[w].requested < s.maxSteal
    && s.ws[w].free != [] && victim < |s.ws|
    && IsNextVictim(|s.ws|, s.ws[w], w, FreshRequest(s, w, half), victim)
  }

  predicate CanReceive(s: State, w: nat)
  {
    Ready(s, w) && s.ws[w].mail != []
  }

  predicate CanReceiveFor(s: State, w: nat, v: nat)
  {
    Ready(s, w) && v < |s.ws| && v in Flagged(|s.ws|, s.ws[w], w) && v != w && s.ws[v].mail != []
  }

  predicate CanAnswer(s: State, w: nat)
  {
    Serving(s, w) && s.ws[w].hand.value.id != w && s.ws[w].deque != []
    && s.ws[w].hand.value.id < |s.ws| && s.ws[w].hand.value.chan < |s.ws[s.ws[w].hand.value.id].boxes|
  }

  predicate CanAnswerSplit(s: State, w: nat, j: nat, at: int)
  {
    Serving(s, w) && s.ws[w].hand.value.id != w && s.ws[w].mode == Working && s.ws[w].deque == []
    && j < |s.ws[w].stack| && Splittable(s.ws[w].stack[j]) && s.ws[w].stack[j].cur < at < s.ws[w].stack[j].end
    && s.ws[w].hand.value.id < |s.ws| && s.ws[w].hand.value.chan < |s.ws[s.ws[w].hand.value.id].boxes|
  }

  predicate CanForget(s: State, w: nat)
  {
    Serving(s, w) && s.ws[w].hand.value.id == w && s.ws[w].mode == Working
    && (s.ws[w].deque != [] || exists j :: 0 <= j < |s.ws[w].stack| && s.ws[w].stack[j].cur < s.ws[w].stack[j].end)
  }

  /** A worker that steals early takes back its own request only if it has more than
      STEAL_EARLY_THRESHOLD tasks; so it may also decline the request while it has tasks. */
  predicate CanDecline(s: State, w: nat, victim: nat)
  {
    Serving(s, w) && (s.ws[w].hand.value.id == w || s.ws[w].deque == []) && victim < |s.ws|
    && (GivesUp(s, w) || IsNextVictim(|s.ws|, s.ws[w], w, Resent(s, w), victim))
  }

  predicate CanShare(s: State, w: nat)
  {
    Ready(s, w) && s.ws[w].mode == Working && s.ws[w].held != [] && s.ws[w].deque != []
    && s.ws[w].held[0].id < |s.ws| && s.ws[w].held[0].chan < |s.ws[s.ws[w].held[0].id].boxes|
  }

  predicate CanShareSplit(s: State, w: nat, j: nat, at: int)
  {
    Ready(s, w) && s.ws[w].mode == Working && s.ws[w].held != [] && s.ws[w].deque == []
    && j < |s.ws[w].stack| && Splittable(s.ws[w].stack[j]) && s.ws[w].stack[j].cur < at < s.ws[w].stack[j].end
    && s.ws[w].held[0].id < |s.ws| && s.ws[w].held[0].chan < |s.ws[s.ws[w].held[0].id].boxes|
  }

  predicate CanReceiveTask(s: State, w: nat, k: nat)
  {
    w < |s.ws| && s.ws[w].phase == Awake && s.ws[w].owes == None && s.ws[w].hand == None
    && (s.ws[w].mode == Idle || InTask(s, w)) && k < |s.ws[w].boxes| && s.ws[w].boxes[k] != []
  }

  predicate CanPeek(s: State, w: nat)
  {
    w < |s.ws| && s.ws[w].phase.Peeking? && s.ws[w].phase.next < |s.ws[w].boxes|
  }

  predicate CanWait(s: State, w: nat)
  {
    w < |s.ws| && s.ws[w].phase.Peeking? && s.ws[w].phase.next >= |s.ws[w].boxes|
  }

  predicate CanWakeUp(s: State, w: nat)
  {
    // a spurious wake-up
    w < |s.ws| && s.ws[w].phase == Blocked
  }

  predicate CanRelock(s: State, w: nat)
  {
    w < |s.ws| && s.ws[w].phase == Woken
  }

  predicate CanSignal(s: State, w: nat)
  {
    // blocked while the worker to signal holds its lock
    w < |s.ws| && s.ws[w].owes.Some? && s.ws[w].owes.value < |s.ws| && !s.ws[s.ws[w].owes.value].phase.Peeking?
  }

  predicate Enabled(s: State, step: Step)
  {
    match step
    case Spawn(w, lo, hi, loop) => CanSpawn(s, w, lo, hi, loop)
    case Pop(w) => CanPop(s, w)
    case Iterate(w) => CanIterate(s, w)
    case Finish(w) => CanFinish(s, w)
    case GoIdle(w) => CanGoIdle(s, w)
    case SoloBarrier => CanSoloBarrier(s)
    case Send(w, half, victim) => CanSend(s, w, half, victim)
    case Receive(w) => CanReceive(s, w)
    case ReceiveFor(w, v) => CanReceiveFor(s, w, v)
    case Answer(w) => CanAnswer(s, w)
    case AnswerSplit(w, j, at) => CanAnswerSplit(s, w, j, at)
    case Forget(w) => CanForget(s, w)
    case Decline(w, victim) => CanDecline(s, w, victim)
    case Share(w) => CanShare(s, w)
    case ShareSplit(w, j, at) => CanShareSplit(s, w, j, at)
    case ReceiveTask(w, k) => CanReceiveTask(s, w, k)
    case Peek(w) => CanPeek(s, w)
    case Wait(w) => CanWait(s, w)
    case WakeUp(w) => CanWakeUp(s, w)
    case Relock(w) => CanRelock(s, w)
    case Signal(w) => CanSignal(s, w)
  }

  /** A look at the next task channel: WAIT ends, and the lock is given back, if it is full. */
  function DoPeek(s: State, w: nat): (s1: State)
    requires CanPeek(s, w)
    ensures SameSize(s, s1)
  {
    var k := s.ws[w].phase.next;
    SetWorker(s, w, s.ws[w].(phase := if s.ws[w].boxes[k] == [] then Peeking(k + 1) else Awake))
  }

  function DoSignal(s: State, w: nat): (s1: State)
    requires w < |s.ws| && s.ws[w].owes.Some? && s.ws[w].owes.value < |s.ws|
    ensures SameSize(s, s1)
  {
    var c := s.ws[w].owes.value;
    var paid := SetWorker(s, w, s.ws[w].(owes := None));
    if paid.ws[c].phase == Blocked then SetWorker(paid, c, paid.ws[c].(phase := Woken)) else paid
  }

  function Apply(s: State, step: Step): (s1: State)
    requires Enabled(s, step)
    ensures SameSize(s, s1)
  {
    match step
    case Spawn(w, lo, hi, loop) => DoSpawn(s, w, lo, hi, loop)
    case Pop(w) => DoPop(s, w)
    case Iterate(w) => DoIterate(s, w)
    case Finish(w) => DoFinish(s, w)
    case GoIdle(w) => SetWorker(s, w, s.ws[w].(mode := Idle))
    case SoloBarrier => s.(quiescent := true)
    case Send(w, half, victim) => DoSend(s, w, half, victim)
    case Receive(w) => DoReceive(s, w)
    case ReceiveFor(w, v) => DoReceiveFor(s, w, v)
    case Answer(w) => DoAnswer(s, w)
    case AnswerSplit(w, j, at) => DoAnswerSplit(s, w, j, at)
    case Forget(w) => DoForget(s, w)
    case Decline(w, victim) => DoDecline(s, w, victim)
    case Share(w) => DoShare(s, w)
    case ShareSplit(w, j, at) => DoShareSplit(s, w, j, at)
    case ReceiveTask(w, k) => DoReceiveTask(s, w, k)
    case Peek(w) => DoPeek(s, w)
    case Wait(w) => SetWorker(s, w, s.ws[w].(phase := Blocked))
    case WakeUp(w) => SetWorker(s, w, s.ws[w].(phase := Woken))
    case Relock(w) => SetWorker(s, w, s.ws[w].(phase := Peeking(0)))
    case Signal(w) => DoSignal(s, w)
  }

  /** The state after each prefix of a list of steps; the run of `n` workers. */
  predicate IsRun(n: nat, maxSteal: nat, states: seq<State>, steps: seq<Step>)
  {
    && n >= 1 && maxSteal >= 1
    && |states| == |steps| + 1
    && states[0] == Start(n, maxSteal)
    && forall i :: 0 <= i < |steps| ==> Enabled(states[i], steps[i]) && states[i + 1] == Apply(states[i], steps[i])
  }
}
