/** What the steps of the scheduler bring about: which work a run creates, what a thief gets, whom a
    worker may ask, and when it gives up. */
module SchedulerEffects {
  import opened Common
  import opened WorkerTree
  import opened Scheduler
  import opened SchedulerInvariant
  import opened SchedulerFacts
  import opened SchedulerMoves
  import opened SchedulerTheorems

  // Which work a run creates

  /** How many tasks have been spawned; the next one gets this number. */
  function SpawnCount(steps: seq<Step>): nat
  {
    if steps == [] then 0
    else SpawnCount(steps[..|steps| - 1]) + if steps[|steps| - 1].Spawn? then 1 else 0
  }

  /** The iterations of a loop, or the one unit of a task that is no loop */
  function Ordered(id: nat, lo: int, hi: int, loop: bool): multiset<Unit>
  {
    if loop then multiset(set j | lo <= j < hi :: (id, j)) else multiset{(id, 0)}
  }

  /** What the program has asked for with its spawns */
  function OrderedBy(steps: seq<Step>): multiset<Unit>
  {
    if steps == [] then multiset{}
    else
      var before, last := steps[..|steps| - 1], steps[|steps| - 1];
      OrderedBy(before) + if last.Spawn? then Ordered(SpawnCount(before), last.lo, last.hi, last.loop) else multiset{}
  }

  lemma SpawnCreates(s: State, w: nat, lo: int, hi: int, loop: bool)
    requires CanSpawn(s, w, lo, hi, loop)
    ensures var s1 := Apply(s, Spawn(w, lo, hi, loop));
            s1.created == s.created + Ordered(s.next, lo, hi, loop) && s1.next == s.next + 1
  {
    assert (set i | 0 <= i < 1 :: (s.next, i)) == {(s.next, 0)};
  }

  /** Parallelism may be nested: wherever a worker could go on with a task it can spawn instead, and so
      can the first worker in the program's own code; it can go on after that as before. */
  lemma SpawnsAnywhere(s: State, w: nat, lo: int, hi: int, loop: bool, s1: State)
    requires lo <= hi && (CanIterate(s, w) || (w == 0 && Ready(s, 0) && s.ws[0].mode == Working))
    requires CanSpawn(s, w, lo, hi, loop) ==> s1 == Apply(s, Spawn(w, lo, hi, loop))
    ensures CanSpawn(s, w, lo, hi, loop)
    ensures Ready(s1, w) && s1.ws[w].mode == Working && (CanIterate(s, w) <==> CanIterate(s1, w))
  {
  }

  lemma RequestsCreateNothing(s: State, step: Step)
    requires Enabled(s, step)
    requires step.Send? || step.Receive? || step.ReceiveFor? || step.Forget? || step.Decline? || step.Signal?
    ensures Apply(s, step).created == s.created && Apply(s, step).next == s.next
  {
  }

  lemma OthersCreateNothing(s: State, step: Step)
    requires Enabled(s, step) && !step.Spawn?
    requires !(step.Send? || step.Receive? || step.ReceiveFor? || step.Forget? || step.Decline? || step.Signal?)
    ensures Apply(s, step).created == s.created && Apply(s, step).next == s.next
  {
  }

  /** Only spawns create work. */
  lemma StepCreates(s: State, step: Step, s1: State)
    requires Enabled(s, step) && s1 == Apply(s, step)
    ensures step.Spawn? ==> s1.created == s.created + Ordered(s.next, step.lo, step.hi, step.loop)
    ensures step.Spawn? ==> s1.next == s.next + 1
    ensures !step.Spawn? ==> s1.created == s.created && s1.next == s.next
  {
    if step.Spawn? {
      SpawnCreates(s, step.w, step.lo, step.hi, step.loop);
    } else if step.Send? || step.Receive? || step.ReceiveFor? || step.Forget? || step.Decline? || step.Signal? {
      RequestsCreateNothing(s, step);
    } else {
      OthersCreateNothing(s, step);
    }
  }

  /** In every run, exactly what the program has asked for is created. */
  lemma {:induction false} RunCreates(n: nat, maxSteal: nat, states: seq<State>, steps: seq<Step>, i: nat)
    requires IsRun(n, maxSteal, states, steps) && i < |states|
    ensures states[i].created == OrderedBy(steps[..i]) && states[i].next == SpawnCount(steps[..i])
  {
    if i > 0 {
      RunCreates(n, maxSteal, states, steps, i - 1);
      assert steps[..i][..i - 1] == steps[..i - 1] && steps[..i][i - 1] == steps[i - 1];
      StepCreates(states[i - 1], steps[i - 1], states[i]);
    }
  }

  /** So when the barrier returns, what has been executed is exactly what the program has asked for,
      each unit once. */
  lemma BarrierMeansOrdersDone(n: nat, maxSteal: nat, states: seq<State>, steps: seq<Step>, i: nat)
    requires IsRun(n, maxSteal, states, steps) && i < |states| && states[i].quiescent
    ensures states[i].done == OrderedBy(steps[..i])
  {
    RunCreates(n, maxSteal, states, steps, i);
    assert states[i] in states;
    BarrierMeansAllDone(states[i]);
  }

  // In which order tasks are run

  /** A worker runs its newest task first: after a spawn it can pop, and gets the task just spawned,
      with its whole range; the others stay as they were. */
  lemma NewestFirst(s: State, w: nat, lo: int, hi: int, loop: bool, s1: State, t: Task)
    requires CanSpawn(s, w, lo, hi, loop) && s1 == Apply(s, Spawn(w, lo, hi, loop))
    requires t == if loop then Task(s.next, lo, hi, true) else Task(s.next, 0, 1, false)
    ensures CanPop(s1, w) && Apply(s1, Pop(w)).ws[w].deque == s.ws[w].deque
    ensures Apply(s1, Pop(w)).ws[w].stack == s.ws[w].stack + [t]
  {
  }

  /** A running task goes through its range from the front, one iteration at a time. */
  lemma IterationsInOrder(s: State, w: nat, s1: State, top: nat)
    requires CanIterate(s, w) && s1 == Apply(s, Iterate(w)) && top == |s.ws[w].stack| - 1
    ensures s1.done == s.done + multiset{(s.ws[w].stack[top].id, s.ws[w].stack[top].cur)}
    ensures |s1.ws[w].stack| == top + 1 && s1.ws[w].stack[..top] == s.ws[w].stack[..top]
    ensures s1.ws[w].stack[top] == s.ws[w].stack[top].(cur := s.ws[w].stack[top].cur + 1)
  {
  }

  /** Of what arrives the first task is run at once, and the others come before those in the deque. */
  lemma ArrivalsFirst(s: State, w: nat, k: nat, s1: State, t: Task)
    requires CanReceiveTask(s, w, k) && s1 == Apply(s, ReceiveTask(w, k)) && t == s.ws[w].boxes[k][0]
    ensures s1.ws[w].stack == s.ws[w].stack + [t] && [t] + s1.ws[w].deque == s.ws[w].boxes[k] + s.ws[w].deque
    ensures s1.ws[w].boxes[k] == [] && s1.ws[w].mode == Working && !s1.ws[w].waiting
  {
  }

  // What a thief gets

  /** `given` is the tail of a deque of which `kept` is the rest: half of the tasks, rounded down, if
      the thief asks for half and there are two; otherwise one. */
  predicate TailGiven(deque: seq<Task>, kept: seq<Task>, given: seq<Task>, half: bool)
  {
    && kept + given == deque
    && if half && |deque| >= 2 then 2 * |given| <= |deque| <= 2 * |given| + 1 else |given| == 1
  }

  lemma AnswerGives(s: State, w: nat, s1: State, r: Request)
    requires CanAnswer(s, w) && s1 == Apply(s, Answer(w)) && r == s.ws[w].hand.value
    ensures |s1.ws| == |s.ws| && r.chan < |s1.ws[r.id].boxes| && s1.ws[w].hand == None
    ensures TailGiven(s.ws[w].deque, s1.ws[w].deque, s1.ws[r.id].boxes[r.chan], r.half)
  {
  }

  /** Where a loop is split, the thief gets the upper part. */
  lemma AnswerSplitGives(s: State, w: nat, j: nat, at: int, s1: State, r: Request, t: Task)
    requires CanAnswerSplit(s, w, j, at) && s1 == Apply(s, AnswerSplit(w, j, at))
    requires r == s.ws[w].hand.value && t == s.ws[w].stack[j]
    ensures |s1.ws| == |s.ws| && r.chan < |s1.ws[r.id].boxes| && s1.ws[w].hand == None
    ensures s1.ws[w].stack == s.ws[w].stack[j := t.(end := at)]
    ensures s1.ws[r.id].boxes[r.chan] == [t.(cur := at)]
  {
  }

  lemma HeldIsOther(s: State, w: nat)
    requires Reachable(s) && w < |s.ws| && s.ws[w].held != []
    ensures s.ws[w].held[0].id != w
  {
    ReachableIsSafe(s);
    var g :| Inv(s, g);
    HeldIsFailed(s, g, w, s.ws[w].held[0]);
  }

  /** A waiting child gets the same, and will be signalled. */
  lemma ShareGives(s: State, w: nat, s1: State, r: Request)
    requires Reachable(s) && CanShare(s, w) && s1 == Apply(s, Share(w)) && r == s.ws[w].held[0]
    ensures |s1.ws| == |s.ws| && r.chan < |s1.ws[r.id].boxes|
    ensures TailGiven(s.ws[w].deque, s1.ws[w].deque, s1.ws[r.id].boxes[r.chan], r.half)
    ensures [r] + s1.ws[w].held == s.ws[w].held && s1.ws[w].owes == Some(r.id)
  {
    HeldIsOther(s, w);
  }

  lemma ShareSplitGives(s: State, w: nat, j: nat, at: int, s1: State, r: Request, t: Task)
    requires Reachable(s) && CanShareSplit(s, w, j, at) && s1 == Apply(s, ShareSplit(w, j, at))
    requires r == s.ws[w].held[0] && t == s.ws[w].stack[j]
    ensures |s1.ws| == |s.ws| && r.chan < |s1.ws[r.id].boxes|
    ensures s1.ws[w].stack == s.ws[w].stack[j := t.(end := at)] && s1.ws[r.id].boxes[r.chan] == [t.(cur := at)]
    ensures [r] + s1.ws[w].held == s.ws[w].held && s1.ws[w].owes == Some(r.id)
  {
    HeldIsOther(s, w);
  }

  // Whom a worker asks

  /** Everybody whom `w` does not know to be idle */
  function Askable(s: State, w: nat): set<nat>
    requires w < |s.ws|
  {
    AllWorkers(|s.ws|) - {w} - Flagged(|s.ws|, s.ws[w], w)
  }

  /** A request of `w` arrives at `v`: `v` will receive it after all that it has got before. */
  predicate Arrives(s: State, s1: State, v: nat, r: Request)
  {
    |s1.ws| == |s.ws| && v < |s.ws| && s1.ws[v].mail == s.ws[v].mail + [r]
  }

  lemma OnlyOne(s: State, w: nat)
    requires |s.ws| == 1 && w == 0
    ensures AllWorkers(1) - {w} == {} && Askable(s, w) == {}
  {
  }

  lemma FirstVictimsAre(s: State, w: nat, r: Request, v: nat)
    requires w < |s.ws| && r.id == w && r.try == 0 && r.victims == AllWorkers(|s.ws|)
    ensures Routed(|s.ws|, s.ws[w], w, r) == r.(victims := Askable(s, w))
    ensures v in Askable(s, w) || (v == w && Askable(s, w) == {}) <==> IsNextVictim(|s.ws|, s.ws[w], w, r, v)
    ensures v in Askable(s, w) ==> v < |s.ws|
  {
    PrunedIs(|s.ws|, s.ws[w], w, AllWorkers(|s.ws|));
    if |s.ws| == 1 {
      OnlyOne(s, w);
    }
  }

  /** A worker without work, or that steals early, may ask anybody whom it does not know to be idle,
      and itself if there is nobody else. */
  lemma AsksAnybody(s: State, w: nat, half: bool, v: nat)
    requires Reachable(s) && Ready(s, w) && (s.ws[w].mode == Idle || InTask(s, w)) && s.ws[w].requested < s.maxSteal
    ensures CanSend(s, w, half, v) <==> v in Askable(s, w) || (v == w && Askable(s, w) == {})
  {
    CountersBalance(s, w);
    FirstVictimsAre(s, w, FreshRequest(s, w, half), v);
  }

  /** The request carries a channel that was free, what the worker asks for, and whom it has not
      reached yet. */
  lemma AskArrives(s: State, w: nat, half: bool, v: nat, s1: State, r: Request)
    requires CanSend(s, w, half, v) && s1 == Apply(s, Send(w, half, v))
    requires r == Request(w, s.ws[w].free[|s.ws[w].free| - 1], 0, Askable(s, w),
                          if s.ws[w].mode == Idle then StateIdle else StateWorking, half)
    ensures Arrives(s, s1, v, r) && s1.ws[w].requested == s.ws[w].requested + 1
    ensures s1.ws[w].free + [r.chan] == s.ws[w].free
  {
    FirstVictimsAre(s, w, FreshRequest(s, w, half), v);
  }

  /** Whom the request in hand has still to reach */
  function StillToAsk(s: State, w: nat): set<nat>
    requires Serving(s, w)
  {
    s.ws[w].hand.value.victims - {w} - Flagged(|s.ws|, s.ws[w], w)
  }

  /** A request of another worker that finds no task here goes on to anybody whom it has not reached
      yet and who is not known to be idle; and home, if there is nobody, or it has been passed on
      as often as there are other workers. */
  lemma PassesOn(s: State, w: nat, v: nat)
    requires Reachable(s) && Serving(s, w) && s.ws[w].hand.value.id != w && s.ws[w].deque == []
    ensures var r := s.ws[w].hand.value;
            CanDecline(s, w, v) <==>
              if r.try + 1 == |s.ws| - 1 || StillToAsk(s, w) == {} then v == r.id else v in StillToAsk(s, w)
  {
    ReachableIsSafe(s);
    var g :| Inv(s, g);
    HandIsOk(s, g, w);
    HandTravels(s, g, w);
    PrunedIs(|s.ws|, s.ws[w], w, s.ws[w].hand.value.victims);
  }

  lemma PassedOnArrives(s: State, w: nat, v: nat, s1: State, r: Request, r1: Request)
    requires CanDecline(s, w, v) && s.ws[w].hand.value.id != w && s1 == Apply(s, Decline(w, v))
    requires r == s.ws[w].hand.value
    requires r1 == r.(try := r.try + 1,
                      victims := if r.try + 1 == |s.ws| - 1 then r.victims - {w} else StillToAsk(s, w))
    ensures Arrives(s, s1, v, r1) && s1.ws[w].hand == None
  {
    PrunedIs(|s.ws|, s.ws[w], w, r.victims);
  }

  // What becomes of a worker's own request that comes back

  /** There is nothing left to wait for: the worker is idle, and so is its whole subtree. */
  predicate Hopeless(s: State, w: nat)
    requires Serving(s, w)
  {
    && (s.ws[w].mode == Idle || s.ws[w].hand.value.state == StateIdle)
    && s.ws[w].left && s.ws[w].right
  }

  lemma HopelessIs(s: State, w: nat)
    requires Reachable(s) && Serving(s, w)
    ensures s.ws[w].hand.value.state != StateFailed
    ensures s.ws[w].hand.value.id == w ==> (GivesUp(s, w) <==> Hopeless(s, w))
  {
    ReachableIsSafe(s);
    var g :| Inv(s, g);
    HandIsOk(s, g, w);
  }

  /** When all other requests have been dropped, giving up makes worker 0 detect termination, and any
      other worker report to its parent and back off. */
  lemma GivesUpAtLast(s: State, w: nat, v: nat, s1: State, r: Request)
    requires Reachable(s) && Serving(s, w) && r == s.ws[w].hand.value && r.id == w && Hopeless(s, w) && v < |s.ws|
    requires s.ws[w].requested == s.maxSteal && |s.ws[w].free| == s.maxSteal - 1
    ensures CanDecline(s, w, v)
    ensures s1 == Apply(s, Decline(w, v)) && w == 0 ==>
              s1.quiescent && s1.ws[0].mode == Working && s1.ws[0].hand == None
    ensures s1 == Apply(s, Decline(w, v)) && w > 0 ==>
              && s1.ws[w].waiting && s1.ws[w].phase == Peeking(0) && s1.ws[w].hand == None
              && Arrives(s, s1, Parent(w), r.(try := r.try + 1, state := StateFailed))
  {
    HopelessIs(s, w);
  }

  /** Until then it drops the request. */
  lemma DropsBeforeLast(s: State, w: nat, v: nat, s1: State, r: Request)
    requires Reachable(s) && Serving(s, w) && r == s.ws[w].hand.value && r.id == w && Hopeless(s, w) && v < |s.ws|
    requires s.ws[w].requested < s.maxSteal || |s.ws[w].free| != s.maxSteal - 1
    ensures CanDecline(s, w, v)
    ensures s1 == Apply(s, Decline(w, v)) ==>
              && s1.ws[w].hand == None && s1.ws[w].dropped == s.ws[w].dropped + 1
              && s1.ws[w].free == s.ws[w].free + [r.chan] && s1.ws[w].requested == s.ws[w].requested
              && !s1.ws[w].waiting && s1.quiescent == s.quiescent
  {
    HopelessIs(s, w);
  }

  /** While there is hope, a worker's own request goes round again, to anybody whom it does not know to
      be idle; if there is nobody, the worker takes it back. */
  lemma GoesRoundAgain(s: State, w: nat, v: nat)
    requires Reachable(s) && Serving(s, w) && s.ws[w].hand.value.id == w && !Hopeless(s, w)
    ensures CanDecline(s, w, v) <==> v in Askable(s, w) || (v == w && Askable(s, w) == {})
  {
    HopelessIs(s, w);
    FirstVictimsAre(s, w, Resent(s, w), v);
  }

  lemma RoundStarts(s: State, w: nat, v: nat, s1: State, r: Request, r1: Request)
    requires Reachable(s) && Serving(s, w) && s.ws[w].hand.value.id == w && !Hopeless(s, w)
    requires CanDecline(s, w, v) && s1 == Apply(s, Decline(w, v)) && r == s.ws[w].hand.value
    requires r1 == r.(try := 0, victims := Askable(s, w), state := if s.ws[w].mode == Idle then StateIdle else r.state)
    ensures s1.ws[w].hand == None
    ensures v != w ==> Arrives(s, s1, v, r1)
    ensures v == w ==> s1.ws[w].requested == s.ws[w].requested - 1 && s1.ws[w].free == s.ws[w].free + [r.chan]
  {
    HopelessIs(s, w);
    FirstVictimsAre(s, w, Resent(s, w), v);
  }

  // Requests are received in the order in which they arrived

  lemma ReceivesOldest(s: State, w: nat, s1: State, r: Request)
    requires CanReceive(s, w) && s1 == Apply(s, Receive(w)) && r == s.ws[w].mail[0]
    ensures s.ws[w].mail == [r] + s1.ws[w].mail
    ensures r.state != StateFailed ==> s1.ws[w].hand == Some(r) && s1.ws[w].held == s.ws[w].held
    ensures r.state == StateFailed ==> s1.ws[w].hand == None && s1.ws[w].held == s.ws[w].held + [r]
  {
  }

  /** A worker receives on behalf of exactly those in the subtrees that it knows to be idle. */
  lemma ReceivesForFlagged(s: State, w: nat, v: nat)
    requires Ready(s, w) && v < |s.ws| && s.ws[v].mail != []
    ensures CanReceiveFor(s, w, v) <==>
              (s.ws[w].left && IsDescendant(2 * w + 1, v)) || (s.ws[w].right && IsDescendant(2 * w + 2, v))
  {
    if IsDescendant(2 * w + 1, v) {
      DescendantNotSmaller(2 * w + 1, v);
    } else if IsDescendant(2 * w + 2, v) {
      DescendantNotSmaller(2 * w + 2, v);
    }
  }

  lemma ReceivesOldestFor(s: State, w: nat, v: nat, s1: State, r: Request)
    requires CanReceiveFor(s, w, v) && s1 == Apply(s, ReceiveFor(w, v)) && r == s.ws[v].mail[0]
    ensures s.ws[v].mail == [r] + s1.ws[v].mail && s1.ws[w].hand == Some(r) && s1.ws[w].mail == s.ws[w].mail
  {
  }

  // What a worker that has tasks may do

  /** A worker answers a request exactly if it is another worker's and there is a task to give: from
      the deque, or else a part of a running loop that has two iterations left. */
  lemma AnswersIfItCan(s: State, w: nat, j: nat, at: int)
    requires Reachable(s) && Serving(s, w)
    ensures CanAnswer(s, w) <==> s.ws[w].hand.value.id != w && s.ws[w].deque != []
    ensures CanAnswerSplit(s, w, j, at) <==>
              && s.ws[w].hand.value.id != w && s.ws[w].deque == []
              && j < |s.ws[w].stack| && s.ws[w].stack[j].splittable
              && s.ws[w].stack[j].cur < at < s.ws[w].stack[j].end
    ensures CanForget(s, w) <==>
              && s.ws[w].hand.value.id == w
              && (s.ws[w].deque != [] || exists t :: t in s.ws[w].stack && t.cur < t.end)
  {
    ReachableIsSafe(s);
    var g :| Inv(s, g);
    HandIsOk(s, g, w);
    assert WorkerOkAt(s, g, w) && AgreesAt(s, g, s.ws[w].hand.value.id);
    if t :| t in s.ws[w].stack && t.cur < t.end {
      var i :| 0 <= i < |s.ws[w].stack| && s.ws[w].stack[i] == t;
    }
  }

  /** A worker shares exactly if a child waits and there is a task to give, in the same way. */
  lemma SharesIfItCan(s: State, w: nat, j: nat, at: int)
    requires Reachable(s) && Ready(s, w)
    ensures CanShare(s, w) <==> s.ws[w].held != [] && s.ws[w].deque != []
    ensures CanShareSplit(s, w, j, at) <==>
              && s.ws[w].held != [] && s.ws[w].deque == []
              && j < |s.ws[w].stack| && s.ws[w].stack[j].splittable
              && s.ws[w].stack[j].cur < at < s.ws[w].stack[j].end
  {
    ReachableIsSafe(s);
    var g :| Inv(s, g);
    assert WorkerOkAt(s, g, w);
    if s.ws[w].held != [] {
      HeldIsFailed(s, g, w, s.ws[w].held[0]);
      assert AgreesAt(s, g, s.ws[w].held[0].id);
    }
  }

  /** Tasks that have arrived can be taken by a worker that is not busy with a request or a signal,
      and is idle or in a task. */
  lemma TakesArrivals(s: State, w: nat, k: nat)
    requires Reachable(s) && w < |s.ws| && k < |s.ws[w].boxes| && s.ws[w].boxes[k] != []
    requires s.ws[w].phase == Awake && s.ws[w].owes == None && s.ws[w].hand == None
    ensures CanReceiveTask(s, w, k) <==> s.ws[w].mode == Idle || w == 0 || s.ws[w].stack != []
  {
  }
}
