/** The scheduler never comes to a standstill before termination is detected: in every reachable
    state some worker can take a step that is not up to the program and not a spurious wake-up;
    and a worker for which tasks have arrived wakes up. */
module SchedulerProgress {
  import opened Common
  import opened Paths
  import opened WorkerTree
  import opened Scheduler
  import opened SchedulerInvariant
  import opened SchedulerFacts
  import opened SchedulerMoves
  import opened SchedulerTheorems
  import opened SchedulerEffects
  import opened SchedulerDetection

  /** A step that happens by itself */
  predicate OwnDrive(s: State, step: Step)
  {
    Enabled(s, step) && !step.Spawn? && !step.WakeUp?
  }

  // What a worker with something to do can do

  lemma ServeStep(s: State, g: map<Token, Place>, w: nat) returns (step: Step)
    requires Reachable(s) && Inv(s, g) && Serving(s, w)
    ensures OwnDrive(s, step)
  {
    var r := s.ws[w].hand.value;
    HandIsOk(s, g, w);
    assert AgreesAt(s, g, r.id);
    if r.id != w && s.ws[w].deque != [] {
      step := Answer(w);
    } else {
      var v := NextFor(s, w);
      step := Decline(w, v);
    }
  }

  /** There is always somebody to send the request to. */
  lemma NextFor(s: State, w: nat) returns (v: nat)
    requires Reachable(s) && Serving(s, w) && (s.ws[w].hand.value.id == w || s.ws[w].deque == [])
    ensures CanDecline(s, w, v)
  {
    var r := s.ws[w].hand.value;
    if r.id != w {
      v := if r.try + 1 == |s.ws| - 1 || StillToAsk(s, w) == {} then r.id else SomeOf(StillToAsk(s, w));
      PassesOn(s, w, v);
    } else if Hopeless(s, w) {
      v := 0;
      HopelessIs(s, w);
    } else {
      v := if Askable(s, w) == {} then w else SomeOf(Askable(s, w));
      GoesRoundAgain(s, w, v);
    }
  }

  ghost function SomeOf(vs: set<nat>): (v: nat)
    requires vs != {}
    ensures v in vs
  {
    var v :| v in vs;
    v
  }

  lemma SleepingStep(s: State, w: nat) returns (step: Step)
    requires w < |s.ws| && s.ws[w].phase != Awake && s.ws[w].phase != Blocked
    ensures OwnDrive(s, step)
  {
    if s.ws[w].phase == Woken {
      step := Relock(w);
    } else if s.ws[w].phase.next < |s.ws[w].boxes| {
      step := Peek(w);
    } else {
      step := Wait(w);
    }
  }

  lemma OwingStep(s: State, g: map<Token, Place>, w: nat) returns (step: Step)
    requires Inv(s, g) && w < |s.ws| && s.ws[w].owes.Some?
    ensures OwnDrive(s, step)
  {
    assert WorkerOkAt(s, g, w);
    var c := s.ws[w].owes.value;
    if s.ws[c].phase.Peeking? {
      step := SleepingStep(s, c);
    } else {
      step := Signal(w);
    }
  }

  lemma WorkingStep(s: State, w: nat) returns (step: Step)
    requires Ready(s, w) && s.ws[w].mode == Working && !s.quiescent
    ensures OwnDrive(s, step)
  {
    var x := s.ws[w];
    if x.stack != [] {
      var t := x.stack[|x.stack| - 1];
      step := if t.cur < t.end then Iterate(w) else Finish(w);
    } else if x.deque != [] {
      step := Pop(w);
    } else if |s.ws| == 1 {
      step := SoloBarrier;
    } else {
      step := GoIdle(w);
    }
  }

  /** A worker that only waits for its requests to come back or to be answered */
  predicate Polling(s: State, w: nat)
  {
    Ready(s, w) && s.ws[w].mode == Idle && s.ws[w].mail == [] && s.ws[w].requested >= s.maxSteal
  }

  lemma AwakeStep(s: State, g: map<Token, Place>, w: nat) returns (step: Step)
    requires Reachable(s) && Inv(s, g) && !s.quiescent && w < |s.ws|
    requires s.ws[w].phase == Awake && !s.ws[w].waiting && !Polling(s, w)
    ensures OwnDrive(s, step)
  {
    var x := s.ws[w];
    if x.owes.Some? {
      step := OwingStep(s, g, w);
    } else if x.hand.Some? {
      step := ServeStep(s, g, w);
    } else if x.mail != [] {
      step := Receive(w);
    } else if x.mode == Working {
      step := WorkingStep(s, w);
    } else {
      var v := if Askable(s, w) == {} then w else SomeOf(Askable(s, w));
      AsksAnybody(s, w, false, v);
      step := Send(w, false, v);
    }
  }

  // Where the requests of a waiting worker are

  /** A channel that is not on the stack of free ones */
  lemma SomeOut(x: Worker, v: nat, maxSteal: nat, g: map<Token, Place>) returns (k: nat)
    requires FreeAgrees(x, v, maxSteal, g) && |x.free| < maxSteal && forall k: nat :: k < maxSteal ==> (v, k) in g
    ensures k < maxSteal && g[(v, k)] != Free
  {
    var f := set e | e in x.free;
    SetOfSeq(x.free);
    RangeSize(maxSteal);
    if AllWorkers(maxSteal) <= f {
      SubsetSize(AllWorkers(maxSteal), f);
    }
    var j :| j in AllWorkers(maxSteal) && j !in f;
    k := j;
  }

  lemma OutChannel(s: State, g: map<Token, Place>, w: nat) returns (k: nat)
    requires Inv(s, g) && w < |s.ws| && s.ws[w].requested >= s.maxSteal
    ensures k < s.maxSteal && (w, k) in g && g[(w, k)] != Free && PlaceOk(s, (w, k), g[(w, k)])
  {
    assert WorkerOkAt(s, g, w) && AgreesAt(s, g, w);
    k := SomeOut(s.ws[w], w, s.maxSteal, g);
    assert PlaceOkAt(s, g, (w, k));
  }

  /** A worker that has found tasks and has not taken them yet can take them. */
  lemma FoundStep(s: State, g: map<Token, Place>, w: nat) returns (step: Step)
    requires Inv(s, g) && w < |s.ws| && s.ws[w].waiting && s.ws[w].phase == Awake
    ensures OwnDrive(s, step)
  {
    assert WorkerOkAt(s, g, w) && AgreesAt(s, g, w);
    var k := OutChannel(s, g, w);
    step := ReceiveTask(w, k);
  }

  /** A worker that is not awake, or that has something else to do than to poll, can do something;
      only a blocked one waits to be signalled. */
  lemma BusyStep(s: State, g: map<Token, Place>, w: nat) returns (step: Step)
    requires Reachable(s) && Inv(s, g) && !s.quiescent && w < |s.ws|
    requires s.ws[w].phase != Blocked && !Polling(s, w)
    ensures OwnDrive(s, step)
  {
    if s.ws[w].phase != Awake {
      step := SleepingStep(s, w);
    } else if s.ws[w].waiting {
      step := FoundStep(s, g, w);
    } else {
      step := AwakeStep(s, g, w);
    }
  }

  /** Where the one channel of a blocked worker is: tasks are in it, and the parent owes a signal; or its
      failed request is with the parent. */
  lemma BlockedPlace(s: State, g: map<Token, Place>, v: nat) returns (k: nat)
    requires Inv(s, g) && v < |s.ws| && s.ws[v].phase == Blocked
    ensures v > 0 && s.ws[v].waiting && k < s.maxSteal && (v, k) in g && g[(v, k)] != Free
    ensures var p := Parent(v);
            match g[(v, k)]
            case Box => s.ws[p].owes == Some(v)
            case Mail(_, _) => s.ws[p].mail != []
            case Held(_, _) => v in Ids(s.ws[p].held)
            case _ => false
  {
    assert WorkerOkAt(s, g, v) && AgreesAt(s, g, v);
    k := OutChannel(s, g, v);
    assert AgreesAt(s, g, Parent(v));
    match g[(v, k)]
    case Mail(_, r) => assert r in s.ws[Parent(v)].mail;
    case Held(_, r) => assert r in s.ws[Parent(v)].held;
    case _ =>
  }

  lemma BlockedWaits(s: State, g: map<Token, Place>, w: nat)
    requires Inv(s, g) && w < |s.ws| && s.ws[w].phase == Blocked
    ensures s.ws[w].waiting
  {
    assert WorkerOkAt(s, g, w);
  }

  /** The parent of a blocked worker holds its failed request, or it can do something. */
  lemma ParentOfBlocked(s: State, g: map<Token, Place>, v: nat) returns (held: bool, step: Step)
    requires Reachable(s) && Inv(s, g) && !s.quiescent && v < |s.ws| && s.ws[v].phase == Blocked
    ensures v > 0 && if held then v in Ids(s.ws[Parent(v)].held) else OwnDrive(s, step)
  {
    var k := BlockedPlace(s, g, v);
    var p := Parent(v);
    held, step := false, Signal(p);
    if g[(v, k)].Held? {
      held := true;
    } else if g[(v, k)].Mail? {
      if s.ws[p].phase == Blocked {
        BlockedWaits(s, g, p);
        NotBoth(s, g, v, k);
      } else {
        step := BusyStep(s, g, p);
      }
    }
  }

  /** A parent that sleeps has received the failed requests of its children. */
  lemma NotBoth(s: State, g: map<Token, Place>, v: nat, k: nat)
    requires Inv(s, g) && 0 < v < |s.ws| && s.ws[v].waiting && s.ws[Parent(v)].waiting
    requires k < s.maxSteal && (v, k) in g && g[(v, k)] != Free
    ensures g[(v, k)].Held?
  {
    var p := Parent(v);
    assert WorkerOkAt(s, g, p);
    FlaggedChildSleeps(s, g, p, v);
    var h :| h in s.ws[p].held && h.id == v && TokenOf(h) in g && g[TokenOf(h)] == Held(p, h);
    assert PlaceOkAt(s, g, TokenOf(h));
    WaitingHasOne(s, g, v, k, h.chan);
  }

  lemma HeldMeansFlagged(s: State, g: map<Token, Place>, p: nat, v: nat)
    requires Inv(s, g) && 0 < v < |s.ws| && p == Parent(v) && v in Ids(s.ws[p].held)
    ensures v in Flagged(|s.ws|, s.ws[p], p)
  {
    assert WorkerOkAt(s, g, p);
    assert IsDescendant(v, v);
  }

  /** Below a flagged worker everybody is flagged. */
  lemma FlaggedBelow(n: nat, x: Worker, a: nat, p: nat, v: nat)
    requires p in Flagged(n, x, a) && 0 < v < n && p == Parent(v)
    ensures v in Flagged(n, x, a)
  {
    var c := FlaggedChild(n, x, a, p);
    DescendantNotSmaller(c, p);
    assert IsDescendant(c, v);
  }

  /** Somebody who is not blocked receives on behalf of a blocked worker, or can do something. */
  lemma {:induction false} ReaderOf(s: State, g: map<Token, Place>, v: nat) returns (found: bool, a: nat, step: Step)
    requires Reachable(s) && Inv(s, g) && !s.quiescent && v < |s.ws| && s.ws[v].phase == Blocked
    ensures if found then a < |s.ws| && s.ws[a].phase != Blocked && v in Flagged(|s.ws|, s.ws[a], a)
            else OwnDrive(s, step)
    decreases v
  {
    var held;
    held, step := ParentOfBlocked(s, g, v);
    found, a := false, Parent(v);
    if held {
      HeldMeansFlagged(s, g, a, v);
      if s.ws[a].phase != Blocked {
        found := true;
      } else {
        var p := a;
        found, a, step := ReaderOf(s, g, p);
        if found {
          FlaggedBelow(|s.ws|, s.ws[a], a, p, v);
        }
      }
    }
  }

  /** Where a request is waiting to be received, somebody can do something. */
  lemma MailMoves(s: State, g: map<Token, Place>, v: nat) returns (step: Step)
    requires Reachable(s) && Inv(s, g) && !s.quiescent && v < |s.ws| && s.ws[v].mail != []
    ensures OwnDrive(s, step)
  {
    if s.ws[v].phase != Blocked {
      step := BusyStep(s, g, v);
    } else {
      var found, a;
      found, a, step := ReaderOf(s, g, v);
      if found {
        if Polling(s, a) {
          FlaggedSleeps(s, g, a, v);
          step := ReceiveFor(a, v);
        } else {
          step := BusyStep(s, g, a);
        }
      }
    }
  }

  /** Until termination is detected, some worker can go on by itself, in every reachable state. */
  lemma NoStandstill(s: State) returns (step: Step)
    requires Reachable(s) && !s.quiescent
    ensures OwnDrive(s, step)
  {
    ReachableIsSafe(s);
    var g :| Inv(s, g);
    assert WorkerOkAt(s, g, 0) && AgreesAt(s, g, 0);
    if !Polling(s, 0) {
      step := BusyStep(s, g, 0);
    } else {
      step := PollingMoves(s, g, 0);
    }
  }

  /** A worker that polls has a request out, and with that somebody can do something. */
  lemma PollingMoves(s: State, g: map<Token, Place>, w: nat) returns (step: Step)
    requires Reachable(s) && Inv(s, g) && !s.quiescent && Polling(s, w)
    ensures OwnDrive(s, step)
  {
    var k := OutChannel(s, g, w);
    assert AgreesAt(s, g, w);
    match g[(w, k)]
    case Box => step := ReceiveTask(w, k);
    case Mail(v, r) =>
      assert AgreesAt(s, g, v) && r in s.ws[v].mail;
      step := MailMoves(s, g, v);
    case Hand(v, r) =>
      assert AgreesAt(s, g, v) && WorkerOkAt(s, g, v) && s.ws[v].hand == Some(r);
      step := BusyStep(s, g, v);
    case _ =>
  }

  // Waking up

  function SetPhase(s: State, w: nat, phase: Phase): State
    requires w < |s.ws|
  {
    SetWorker(s, w, s.ws[w].(phase := phase))
  }

  lemma PeekStep(s: State, w: nat, j: nat, s1: State)
    requires w < |s.ws| && s.ws[w].phase == Peeking(j) && j < |s.ws[w].boxes|
    requires s1 == SetPhase(s, w, if s.ws[w].boxes[j] == [] then Peeking(j + 1) else Awake)
    ensures StepTo(s, Peek(w), s1)
  {
    StepIs(s, Peek(w), s1);
  }

  /** From the lock on, a worker looks at one task channel after the other until it finds tasks. */
  lemma {:induction false} LooksFor(s: State, w: nat, j: nat, k: nat) returns (steps: seq<Step>)
    requires w < |s.ws| && s.ws[w].phase == Peeking(j) && j <= k < |s.ws[w].boxes| && s.ws[w].boxes[k] != []
    ensures Leads(StepTo, s, steps, SetPhase(s, w, Awake)) && |steps| <= k - j + 1
    ensures forall i :: 0 <= i < |steps| ==> steps[i] == Peek(w)
    decreases k - j
  {
    if s.ws[w].boxes[j] != [] {
      PeekStep(s, w, j, SetPhase(s, w, Awake));
      OneStep(StepTo, s, Peek(w), SetPhase(s, w, Awake));
      steps := [Peek(w)];
    } else {
      var mid := SetPhase(s, w, Peeking(j + 1));
      PeekStep(s, w, j, mid);
      var rest := LooksFor(mid, w, j + 1, k);
      assert SetPhase(mid, w, Awake) == SetPhase(s, w, Awake);
      FirstStep(StepTo, s, Peek(w), mid, rest, SetPhase(s, w, Awake));
      steps := [Peek(w)] + rest;
    }
  }

  /** A worker that has been signalled takes its lock again, looks, and finds the tasks. */
  lemma SignalledWakes(s: State, w: nat, k: nat) returns (steps: seq<Step>)
    requires w < |s.ws| && s.ws[w].phase == Woken && k < |s.ws[w].boxes| && s.ws[w].boxes[k] != []
    ensures Leads(StepTo, s, steps, SetPhase(s, w, Awake)) && |steps| <= k + 2
    ensures forall i :: 0 <= i < |steps| ==> steps[i] == Relock(w) || steps[i] == Peek(w)
  {
    var mid := SetPhase(s, w, Peeking(0));
    StepIs(s, Relock(w), mid);
    var rest := LooksFor(mid, w, 0, k);
    assert SetPhase(mid, w, Awake) == SetPhase(s, w, Awake);
    FirstStep(StepTo, s, Relock(w), mid, rest, SetPhase(s, w, Awake));
    steps := [Relock(w)] + rest;
  }

  /** If tasks arrive while the worker sleeps, the signal of its parent and its own steps wake it up. */
  lemma BlockedWakes(s: State, w: nat, k: nat) returns (steps: seq<Step>, s1: State)
    requires Reachable(s) && w < |s.ws| && s.ws[w].phase == Blocked && k < |s.ws[w].boxes| && s.ws[w].boxes[k] != []
    ensures w > 0 && Leads(StepTo, s, [Signal(Parent(w))] + steps, s1) && |steps| <= k + 2
    ensures |s1.ws| == |s.ws| && s1.ws[w] == s.ws[w].(phase := Awake)
    ensures forall i :: 0 <= i < |steps| ==> steps[i] == Relock(w) || steps[i] == Peek(w)
  {
    NoLostWakeUp(s, w, k);
    var p := Parent(w);
    var mid := Apply(s, Signal(p));
    StepIs(s, Signal(p), mid);
    steps := SignalledWakes(mid, w, k);
    s1 := SetPhase(mid, w, Awake);
    FirstStep(StepTo, s, Signal(p), mid, steps, s1);
  }
}
