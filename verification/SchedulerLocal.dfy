/** The steps that move no channel keep the invariant: running tasks, becoming idle, and
    sleeping and waking. With SchedulerMoves this covers every step. */
module SchedulerLocal {
  import opened Common
  import opened Scheduler
  import opened SchedulerInvariant
  import opened SchedulerLinks
  import opened SchedulerFacts
  import opened SchedulerMoves

  /** Only the tasks, the mode and the history of worker `w` change. */
  lemma LocalKeeps(s: State, s1: State, g: map<Token, Place>, w: nat)
    requires Inv(s, g) && w < |s.ws| && |s1.ws| == |s.ws| && s1.maxSteal == s.maxSteal
    requires forall u: nat | u < |s.ws| && u != w :: s1.ws[u] == s.ws[u]
    requires SameChannels(s.ws[w], s1.ws[w]) && SameStanding(s.ws[w], s1.ws[w])
    requires s1.ws[w].requested == s.ws[w].requested && s1.ws[w].dropped == s.ws[w].dropped
    requires s1.ws[w].mode == Working ==> s.ws[w].mode == Working
    requires s1.ws[w].mode == Idle ==> s1.ws[w].deque == [] && s1.ws[w].stack == []
    requires s.ws[w].waiting ==> s1.ws[w].mode == Idle
    requires QuietOk(s1)
    ensures Safe(s1)
  {
    LinkedSame(s, s1, g);
    forall q: Token ensures PlaceOkAt(s1, g, q) {
      assert PlaceOkAt(s, g, q);
    }
    forall u: nat ensures WorkerOkAt(s1, g, u) {
      assert WorkerOkAt(s, g, u);
    }
    assert Inv(s1, g);
  }

  lemma SpawnKeeps(s: State, g: map<Token, Place>, w: nat, lo: int, hi: int, loop: bool)
    requires Inv(s, g) && CanSpawn(s, w, lo, hi, loop)
    ensures Safe(DoSpawn(s, w, lo, hi, loop))
  {
    if w > 0 {
      AwakeMeansBusy(s, g, w);
    }
    LocalKeeps(s, DoSpawn(s, w, lo, hi, loop), g, w);
  }

  lemma PopKeeps(s: State, g: map<Token, Place>, w: nat)
    requires Inv(s, g) && CanPop(s, w)
    ensures Safe(DoPop(s, w))
  {
    BusyWorker(s, g, w);
    LocalKeeps(s, DoPop(s, w), g, w);
  }

  lemma IterateKeeps(s: State, g: map<Token, Place>, w: nat)
    requires Inv(s, g) && CanIterate(s, w)
    ensures Safe(DoIterate(s, w))
  {
    BusyWorker(s, g, w);
    LocalKeeps(s, DoIterate(s, w), g, w);
  }

  lemma FinishKeeps(s: State, g: map<Token, Place>, w: nat)
    requires Inv(s, g) && CanFinish(s, w)
    ensures Safe(DoFinish(s, w))
  {
    BusyWorker(s, g, w);
    LocalKeeps(s, DoFinish(s, w), g, w);
  }

  lemma GoIdleKeeps(s: State, g: map<Token, Place>, w: nat)
    requires Inv(s, g) && CanGoIdle(s, w)
    ensures Safe(SetWorker(s, w, s.ws[w].(mode := Idle)))
  {
    LocalKeeps(s, SetWorker(s, w, s.ws[w].(mode := Idle)), g, w);
  }

  lemma SoloBarrierKeeps(s: State, g: map<Token, Place>)
    requires Inv(s, g) && CanSoloBarrier(s)
    ensures Safe(s.(quiescent := true))
  {
    var s1 := s.(quiescent := true);
    assert WorkerOkAt(s, g, 0) && AgreesAt(s, g, 0);
    forall k | 0 <= k < |s.ws[0].boxes| ensures s.ws[0].boxes[k] == [] {
      assert PlaceOkAt(s, g, (0, k));
    }
    Announce(s, g);
  }

  // Sleeping and waking

  /** Only phases and debts of signals change. */
  lemma PhaseKeeps(s: State, s1: State, g: map<Token, Place>)
    requires Inv(s, g) && |s1.ws| == |s.ws| && s1.maxSteal == s.maxSteal && s1.quiescent == s.quiescent
    requires forall u: nat | u < |s.ws| ::
               s1.ws[u] == s.ws[u].(phase := s1.ws[u].phase, owes := s1.ws[u].owes)
    requires forall u: nat | u < |s.ws| :: s1.ws[u].phase != Awake ==> s.ws[u].waiting
    requires forall u: nat | u < |s.ws| :: s1.ws[u].owes == s.ws[u].owes || s1.ws[u].owes == None
    requires forall q: Token :: PlaceOkAt(s1, g, q)
    ensures Safe(s1)
  {
    LinkedSame(s, s1, g);
    forall u: nat ensures WorkerOkAt(s1, g, u) {
      assert WorkerOkAt(s, g, u);
    }
    assert Inv(s1, g);
  }

  lemma SleepersWait(s: State, g: map<Token, Place>)
    requires Inv(s, g)
    ensures forall u: nat | u < |s.ws| :: s.ws[u].phase != Awake ==> s.ws[u].waiting
  {
    forall u: nat | u < |s.ws| ensures s.ws[u].phase != Awake ==> s.ws[u].waiting {
      assert WorkerOkAt(s, g, u);
    }
  }

  /** A channel found empty is empty until its owner's parent sends, and the parent owes a signal
      from then on. */
  lemma PeekEmptyKeeps(s: State, g: map<Token, Place>, w: nat)
    requires Inv(s, g) && CanPeek(s, w) && s.ws[w].boxes[s.ws[w].phase.next] == []
    ensures Safe(DoPeek(s, w))
  {
    var s1 := DoPeek(s, w);
    assert WorkerOkAt(s, g, w) && AgreesAt(s, g, w);
    forall q: Token ensures PlaceOkAt(s1, g, q) {
      assert PlaceOkAt(s, g, q);
    }
    SleepersWait(s, g);
    PhaseKeeps(s, s1, g);
  }

  lemma PeekFullKeeps(s: State, g: map<Token, Place>, w: nat)
    requires Inv(s, g) && CanPeek(s, w) && s.ws[w].boxes[s.ws[w].phase.next] != []
    ensures Safe(DoPeek(s, w))
  {
    var s1 := DoPeek(s, w);
    assert WorkerOkAt(s, g, w) && AgreesAt(s, g, w);
    var k := s.ws[w].phase.next;
    forall q: Token ensures PlaceOkAt(s1, g, q) {
      assert PlaceOkAt(s, g, q);
      if q in g && q.0 == w && g[q] != Free {
        WaitingHasOne(s, g, w, k, q.1);
      }
    }
    SleepersWait(s, g);
    PhaseKeeps(s, s1, g);
  }

  /** All channels were found empty, so falling asleep leaves nothing more to be signalled. */
  lemma WaitKeeps(s: State, g: map<Token, Place>, w: nat)
    requires Inv(s, g) && CanWait(s, w)
    ensures Safe(SetWorker(s, w, s.ws[w].(phase := Blocked)))
  {
    var s1 := SetWorker(s, w, s.ws[w].(phase := Blocked));
    assert WorkerOkAt(s, g, w) && AgreesAt(s, g, w);
    forall q: Token ensures PlaceOkAt(s1, g, q) {
      assert PlaceOkAt(s, g, q);
    }
    SleepersWait(s, g);
    PhaseKeeps(s, s1, g);
  }

  lemma WakeUpPlaces(s: State, g: map<Token, Place>, w: nat, phase: Phase, q: Token)
    requires Inv(s, g) && w < |s.ws| && s.ws[w].phase != Awake && (phase == Woken || phase == Peeking(0))
    ensures PlaceOkAt(SetWorker(s, w, s.ws[w].(phase := phase)), g, q)
  {
    assert PlaceOkAt(s, g, q);
  }

  lemma WakeUpKeeps(s: State, g: map<Token, Place>, w: nat, phase: Phase)
    requires Inv(s, g) && w < |s.ws| && s.ws[w].phase != Awake && (phase == Woken || phase == Peeking(0))
    ensures Safe(SetWorker(s, w, s.ws[w].(phase := phase)))
  {
    var s1 := SetWorker(s, w, s.ws[w].(phase := phase));
    forall q: Token ensures PlaceOkAt(s1, g, q) {
      WakeUpPlaces(s, g, w, phase, q);
    }
    SleepersWait(s, g);
    PhaseKeeps(s, s1, g);
  }

  lemma SignalPlaces(s: State, g: map<Token, Place>, w: nat, q: Token)
    requires Inv(s, g) && CanSignal(s, w)
    ensures PlaceOkAt(DoSignal(s, w), g, q)
  {
    assert PlaceOkAt(s, g, q);
  }

  lemma SignalKeeps(s: State, g: map<Token, Place>, w: nat)
    requires Inv(s, g) && CanSignal(s, w)
    ensures Safe(DoSignal(s, w))
  {
    var s1 := DoSignal(s, w);
    SleepersWait(s, g);
    forall q: Token ensures PlaceOkAt(s1, g, q) {
      SignalPlaces(s, g, w, q);
    }
    PhaseKeeps(s, s1, g);
  }

  /** Every step keeps the invariant. */
  lemma StepKeeps(s: State, step: Step)
    requires Safe(s) && Enabled(s, step)
    ensures Safe(Apply(s, step))
  {
    var g :| Inv(s, g);
    match step
    case Spawn(w, lo, hi, loop) => SpawnKeeps(s, g, w, lo, hi, loop);
    case Pop(w) => PopKeeps(s, g, w);
    case Iterate(w) => IterateKeeps(s, g, w);
    case Finish(w) => FinishKeeps(s, g, w);
    case GoIdle(w) => GoIdleKeeps(s, g, w);
    case SoloBarrier => SoloBarrierKeeps(s, g);
    case Send(w, half, victim) => SendKeeps(s, g, w, half, victim);
    case Receive(w) =>
      if s.ws[w].mail[0].state == StateFailed {
        ReceiveFailedKeeps(s, g, w);
      } else {
        ReceiveKeeps(s, g, w);
      }
    case ReceiveFor(w, v) => ReceiveForKeeps(s, g, w, v);
    case Answer(w) => AnswerKeeps(s, g, w);
    case AnswerSplit(w, j, at) => AnswerSplitKeeps(s, g, w, j, at);
    case Forget(w) => ForgetKeeps(s, g, w);
    case Decline(w, victim) => DeclineKeeps(s, g, w, victim);
    case Share(w) => ShareKeeps(s, g, w);
    case ShareSplit(w, j, at) => ShareSplitKeeps(s, g, w, j, at);
    case ReceiveTask(w, k) => ReceiveTaskKeeps(s, g, w, k);
    case Peek(w) =>
      if s.ws[w].boxes[s.ws[w].phase.next] == [] {
        PeekEmptyKeeps(s, g, w);
      } else {
        PeekFullKeeps(s, g, w);
      }
    case Wait(w) => WaitKeeps(s, g, w);
    case WakeUp(w) => WakeUpKeeps(s, g, w, Woken);
    case Relock(w) => WakeUpKeeps(s, g, w, Peeking(0));
    case Signal(w) => SignalKeeps(s, g, w);
  }

  // Runs

  function AllFreeMap(n: nat, maxSteal: nat): map<Token, Place>
  {
    map w: nat, k: nat | w < n && k < maxSteal && IsWorker(n, w) && IsWorker(maxSteal, k) :: (w, k) := Free
  }

  lemma NewWorkerAgrees(n: nat, maxSteal: nat, v: nat)
    requires v < n
    ensures Agrees(NewWorker(n, maxSteal, v), v, maxSteal, AllFreeMap(n, maxSteal))
  {
    var x := NewWorker(n, maxSteal, v);
    var g := AllFreeMap(n, maxSteal);
    forall k: nat | k < maxSteal ensures k in x.free && (v, k) in g && g[(v, k)] == Free {
      assert IsWorker(n, v) && IsWorker(maxSteal, k);
      assert x.free[k] == k;
    }
  }

  lemma NewWorkerOk(n: nat, maxSteal: nat, w: nat)
    requires w < n && maxSteal >= 1
    ensures WorkerOk(n, NewWorker(n, maxSteal, w), w, maxSteal, AllFreeMap(n, maxSteal))
  {
  }

  lemma StartIsSafe(n: nat, maxSteal: nat)
    requires n >= 1 && maxSteal >= 1
    ensures Safe(Start(n, maxSteal))
  {
    var s := Start(n, maxSteal);
    var g := AllFreeMap(n, maxSteal);
    forall v: nat ensures AgreesAt(s, g, v) {
      if v < n {
        NewWorkerAgrees(n, maxSteal, v);
      }
    }
    forall t: Token ensures t in g <==> t.0 < n && t.1 < maxSteal {
      assert t.0 < n && t.1 < maxSteal ==> IsWorker(n, t.0) && IsWorker(maxSteal, t.1);
    }
    forall q: Token ensures PlaceOkAt(s, g, q) {
    }
    forall w: nat ensures WorkerOkAt(s, g, w) {
      if w < n {
        NewWorkerOk(n, maxSteal, w);
      }
    }
    assert Inv(s, g);
  }

  lemma {:induction false} RunIsSafe(n: nat, maxSteal: nat, states: seq<State>, steps: seq<Step>, i: nat)
    requires IsRun(n, maxSteal, states, steps) && i < |states|
    ensures Safe(states[i]) && |states[i].ws| == n && states[i].maxSteal == maxSteal
  {
    if i == 0 {
      StartIsSafe(n, maxSteal);
    } else {
      RunIsSafe(n, maxSteal, states, steps, i - 1);
      StepKeeps(states[i - 1], steps[i - 1]);
    }
  }
}
