/** Conservation of work: however tasks are pushed, popped, stolen one by one or in bulk,
    shared, and split, every unit of work that was ever created is pending in exactly one
    place or has been executed exactly once. */
module SchedulerWork {
  import opened Common
  import opened Scheduler
  import opened SchedulerInvariant
  import opened SchedulerLinks
  import opened SchedulerFacts
  import opened SchedulerLocal

  function InTaskCount(t: Task, u: Unit): nat
  {
    if t.id == u.0 && t.cur <= u.1 < t.end then 1 else 0
  }

  /** How often `u` is pending in a list of tasks. */
  function ListCount(q: seq<Task>, u: Unit): nat
  {
    if q == [] then 0 else InTaskCount(q[0], u) + ListCount(q[1..], u)
  }

  function BoxCount(boxes: seq<seq<Task>>, u: Unit): nat
  {
    if boxes == [] then 0 else ListCount(boxes[0], u) + BoxCount(boxes[1..], u)
  }

  function WorkerCount(x: Worker, u: Unit): nat
  {
    ListCount(x.deque, u) + ListCount(x.stack, u) + BoxCount(x.boxes, u)
  }

  /** How often `u` is pending anywhere. */
  function PendingCount(ws: seq<Worker>, u: Unit): nat
  {
    if ws == [] then 0 else WorkerCount(ws[0], u) + PendingCount(ws[1..], u)
  }

  predicate WorkOkFor(s: State, u: Unit)
  {
    && PendingCount(s.ws, u) + s.done[u] == s.created[u]
    && s.created[u] <= 1
    && (s.created[u] > 0 ==> u.0 < s.next)
  }

  // Lists

  lemma {:induction false} ListAppend(p: seq<Task>, q: seq<Task>, u: Unit)
    ensures ListCount(p + q, u) == ListCount(p, u) + ListCount(q, u)
  {
    if p == [] {
      assert p + q == q;
    } else {
      assert (p + q)[1..] == p[1..] + q;
      ListAppend(p[1..], q, u);
    }
  }

  lemma ListCut(q: seq<Task>, m: nat, u: Unit)
    requires m <= |q|
    ensures ListCount(q[..m], u) + ListCount(q[m..], u) == ListCount(q, u)
  {
    assert q[..m] + q[m..] == q;
    ListAppend(q[..m], q[m..], u);
  }

  lemma ListOne(t: Task, u: Unit)
    ensures ListCount([t], u) == InTaskCount(t, u)
  {
  }

  lemma ListReplace(q: seq<Task>, j: nat, t: Task, u: Unit)
    requires j < |q|
    ensures ListCount(q[j := t], u) + InTaskCount(q[j], u) == ListCount(q, u) + InTaskCount(t, u)
  {
    assert q == q[..j] + ([q[j]] + q[j + 1..]);
    assert q[j := t] == q[..j] + ([t] + q[j + 1..]);
    ListAppend(q[..j], [q[j]] + q[j + 1..], u);
    ListAppend(q[..j], [t] + q[j + 1..], u);
    ListAppend([q[j]], q[j + 1..], u);
    ListAppend([t], q[j + 1..], u);
    ListOne(q[j], u);
    ListOne(t, u);
  }

  lemma {:induction false} BoxReplace(boxes: seq<seq<Task>>, k: nat, b: seq<Task>, u: Unit)
    requires k < |boxes|
    ensures BoxCount(boxes[k := b], u) + ListCount(boxes[k], u) == BoxCount(boxes, u) + ListCount(b, u)
  {
    if k == 0 {
      assert boxes[k := b][1..] == boxes[1..];
    } else {
      assert boxes[k := b][1..] == boxes[1..][k - 1 := b];
      BoxReplace(boxes[1..], k - 1, b, u);
    }
  }

  lemma {:induction false} WorkerReplace(ws: seq<Worker>, w: nat, y: Worker, u: Unit)
    requires w < |ws|
    ensures PendingCount(ws[w := y], u) + WorkerCount(ws[w], u) == PendingCount(ws, u) + WorkerCount(y, u)
  {
    if w == 0 {
      assert ws[w := y][1..] == ws[1..];
    } else {
      assert ws[w := y][1..] == ws[1..][w - 1 := y];
      WorkerReplace(ws[1..], w - 1, y, u);
    }
  }

  lemma {:induction false} SameTasksSameCount(a: seq<Worker>, b: seq<Worker>, u: Unit)
    requires |a| == |b|
    requires forall i :: 0 <= i < |a| ==> WorkerCount(a[i], u) == WorkerCount(b[i], u)
    ensures PendingCount(a, u) == PendingCount(b, u)
  {
    if a != [] {
      SameTasksSameCount(a[1..], b[1..], u);
    }
  }

  // Handing a bundle to the empty channel of another worker

  lemma HandOver(s: State, w: nat, y: Worker, v: nat, k: nat, b: seq<Task>, u: Unit)
    requires w < |s.ws| && v < |s.ws| && v != w && k < |s.ws[v].boxes| && s.ws[v].boxes[k] == []
    requires WorkerCount(y, u) + ListCount(b, u) == WorkerCount(s.ws[w], u)
    ensures PendingCount(PutBox(SetWorker(s, w, y), v, k, b).ws, u) == PendingCount(s.ws, u)
  {
    WorkerReplace(s.ws, w, y, u);
    BoxReplace(s.ws[v].boxes, k, b, u);
    WorkerReplace(s.ws[w := y], v, s.ws[v].(boxes := s.ws[v].boxes[k := b]), u);
  }

  lemma GiveTasks(x: Worker, left: nat, u: Unit)
    requires left <= |x.deque|
    ensures ListCount(x.deque[..left], u) + ListCount(x.deque[left..], u) == ListCount(x.deque, u)
  {
    ListCut(x.deque, left, u);
  }

  lemma GivePiece(x: Worker, j: nat, at: int, u: Unit)
    requires j < |x.stack| && x.stack[j].cur < at < x.stack[j].end
    ensures ListCount(CutStack(x.stack, j, at), u) + ListCount([x.stack[j].(cur := at)], u) == ListCount(x.stack, u)
  {
    ListReplace(x.stack, j, x.stack[j].(end := at), u);
    ListOne(x.stack[j].(cur := at), u);
  }

  // Every step

  lemma AnswerConserves(s: State, g: map<Token, Place>, w: nat, u: Unit)
    requires Inv(s, g) && CanAnswer(s, w)
    ensures PendingCount(DoAnswer(s, w).ws, u) == PendingCount(s.ws, u)
    ensures WorkOkFor(s, u) ==> WorkOkFor(DoAnswer(s, w), u)
  {
    var x := s.ws[w];
    var r := x.hand.value;
    var left := |x.deque| - LootSize(|x.deque|, r.half);
    var y, loot := x.(hand := None, deque := x.deque[..left]), x.deque[left..];
    assert s.ws[r.id].boxes[r.chan] == [] by {
      HandToBox(s, g, w, y, loot);
    }
    GiveTasks(x, left, u);
    HandOver(s, w, y, r.id, r.chan, loot, u);
  }

  lemma AnswerSplitConserves(s: State, g: map<Token, Place>, w: nat, j: nat, at: int, u: Unit)
    requires Inv(s, g) && CanAnswerSplit(s, w, j, at)
    ensures PendingCount(DoAnswerSplit(s, w, j, at).ws, u) == PendingCount(s.ws, u)
    ensures WorkOkFor(s, u) ==> WorkOkFor(DoAnswerSplit(s, w, j, at), u)
  {
    var x := s.ws[w];
    var r := x.hand.value;
    var piece := [x.stack[j].(cur := at)];
    assert s.ws[r.id].boxes[r.chan] == [] by {
      HandToBox(s, g, w, x.(hand := None, stack := CutStack(x.stack, j, at)), piece);
    }
    GivePiece(x, j, at, u);
    HandOver(s, w, x.(hand := None, stack := CutStack(x.stack, j, at)), r.id, r.chan, piece, u);
  }

  lemma ShareConserves(s: State, g: map<Token, Place>, w: nat, u: Unit)
    requires Inv(s, g) && CanShare(s, w)
    ensures PendingCount(DoShare(s, w).ws, u) == PendingCount(s.ws, u)
    ensures WorkOkFor(s, u) ==> WorkOkFor(DoShare(s, w), u)
  {
    var x := s.ws[w];
    var r := x.held[0];
    var left := |x.deque| - LootSize(|x.deque|, r.half);
    HeldIsFailed(s, g, w, r);
    assert s.ws[r.id].boxes[r.chan] == [] by {
      HeldToBox(s, g, w, Shared(x, w).(deque := x.deque[..left]), x.deque[left..]);
    }
    GiveTasks(x, left, u);
    HandOver(s, w, Shared(x, w).(deque := x.deque[..left]), r.id, r.chan, x.deque[left..], u);
  }

  lemma ShareSplitConserves(s: State, g: map<Token, Place>, w: nat, j: nat, at: int, u: Unit)
    requires Inv(s, g) && CanShareSplit(s, w, j, at)
    ensures PendingCount(DoShareSplit(s, w, j, at).ws, u) == PendingCount(s.ws, u)
    ensures WorkOkFor(s, u) ==> WorkOkFor(DoShareSplit(s, w, j, at), u)
  {
    var x := s.ws[w];
    var r := x.held[0];
    var piece := [x.stack[j].(cur := at)];
    HeldIsFailed(s, g, w, r);
    assert s.ws[r.id].boxes[r.chan] == [] by {
      HeldToBox(s, g, w, Shared(x, w).(stack := CutStack(x.stack, j, at)), piece);
    }
    GivePiece(x, j, at, u);
    HandOver(s, w, Shared(x, w).(stack := CutStack(x.stack, j, at)), r.id, r.chan, piece, u);
  }

  lemma ReceiveTaskConserves(s: State, w: nat, k: nat, u: Unit)
    requires CanReceiveTask(s, w, k)
    ensures PendingCount(DoReceiveTask(s, w, k).ws, u) == PendingCount(s.ws, u)
    ensures WorkOkFor(s, u) ==> WorkOkFor(DoReceiveTask(s, w, k), u)
  {
    var x := s.ws[w];
    var b := x.boxes[k];
    assert b == [b[0]] + b[1..];
    ListAppend([b[0]], b[1..], u);
    ListAppend(b[1..], x.deque, u);
    ListAppend(x.stack, [b[0]], u);
    BoxReplace(x.boxes, k, [], u);
    WorkerReplace(s.ws, w, DoReceiveTask(s, w, k).ws[w], u);
  }

  lemma PopConserves(s: State, w: nat, u: Unit)
    requires CanPop(s, w)
    ensures PendingCount(DoPop(s, w).ws, u) == PendingCount(s.ws, u)
    ensures WorkOkFor(s, u) ==> WorkOkFor(DoPop(s, w), u)
  {
    var x := s.ws[w];
    assert x.deque == [x.deque[0]] + x.deque[1..];
    ListAppend([x.deque[0]], x.deque[1..], u);
    ListAppend(x.stack, [x.deque[0]], u);
    WorkerReplace(s.ws, w, DoPop(s, w).ws[w], u);
  }

  lemma FinishConserves(s: State, w: nat, u: Unit)
    requires CanFinish(s, w)
    ensures PendingCount(DoFinish(s, w).ws, u) == PendingCount(s.ws, u)
    ensures WorkOkFor(s, u) ==> WorkOkFor(DoFinish(s, w), u)
  {
    var x := s.ws[w];
    var top := |x.stack| - 1;
    assert x.stack == x.stack[..top] + [x.stack[top]];
    ListAppend(x.stack[..top], [x.stack[top]], u);
    ListOne(x.stack[top], u);
    WorkerReplace(s.ws, w, DoFinish(s, w).ws[w], u);
  }

  lemma IterateConserves(s: State, w: nat, u: Unit)
    requires CanIterate(s, w)
    ensures var t := s.ws[w].stack[|s.ws[w].stack| - 1];
            PendingCount(s.ws, u) == PendingCount(DoIterate(s, w).ws, u) + if u == (t.id, t.cur) then 1 else 0
    ensures WorkOkFor(s, u) ==> WorkOkFor(DoIterate(s, w), u)
  {
    var x := s.ws[w];
    var top := |x.stack| - 1;
    var t := x.stack[top];
    ListReplace(x.stack, top, t.(cur := t.cur + 1), u);
    WorkerReplace(s.ws, w, DoIterate(s, w).ws[w], u);
  }

  lemma SpawnConserves(s: State, w: nat, lo: int, hi: int, loop: bool, u: Unit)
    requires CanSpawn(s, w, lo, hi, loop)
    ensures var s1 := DoSpawn(s, w, lo, hi, loop);
            && PendingCount(s1.ws, u) + s.created[u] == PendingCount(s.ws, u) + s1.created[u]
            && s1.created[u] <= s.created[u] + 1
            && (s1.created[u] > s.created[u] ==> u.0 == s.next)
            && (WorkOkFor(s, u) ==> WorkOkFor(s1, u))
  {
    var x := s.ws[w];
    var t := if loop then Task(s.next, lo, hi, true) else Task(s.next, 0, 1, false);
    ListAppend([t], x.deque, u);
    ListOne(t, u);
    WorkerReplace(s.ws, w, DoSpawn(s, w, lo, hi, loop).ws[w], u);
    assert UnitsOf(t)[u] == InTaskCount(t, u);
  }

  predicate SameTasks(x: Worker, y: Worker)
  {
    x.deque == y.deque && x.stack == y.stack && x.boxes == y.boxes
  }

  /** A step that only moves requests, flags and phases. */
  predicate NoTaskMoved(s: State, s1: State)
  {
    && |s1.ws| == |s.ws| && (forall v: nat | v < |s.ws| :: SameTasks(s.ws[v], s1.ws[v]))
    && s1.created == s.created && s1.done == s.done && s1.next == s.next
  }

  lemma Untouched(s: State, s1: State, u: Unit)
    requires NoTaskMoved(s, s1)
    ensures WorkOkFor(s, u) ==> WorkOkFor(s1, u)
  {
    SameTasksSameCount(s.ws, s1.ws, u);
  }

  lemma SendMovesNoTask(s: State, w: nat, half: bool, victim: nat, u: Unit)
    requires CanSend(s, w, half, victim)
    ensures WorkOkFor(s, u) ==> WorkOkFor(DoSend(s, w, half, victim), u)
  {
    Untouched(s, DoSend(s, w, half, victim), u);
  }

  lemma ReceiveMovesNoTask(s: State, w: nat, u: Unit)
    requires CanReceive(s, w)
    ensures WorkOkFor(s, u) ==> WorkOkFor(DoReceive(s, w), u)
  {
    Untouched(s, DoReceive(s, w), u);
  }

  lemma ReceiveForMovesNoTask(s: State, w: nat, v: nat, u: Unit)
    requires CanReceiveFor(s, w, v)
    ensures WorkOkFor(s, u) ==> WorkOkFor(DoReceiveFor(s, w, v), u)
  {
    Untouched(s, DoReceiveFor(s, w, v), u);
  }

  lemma DeclineMovesNoTask(s: State, w: nat, victim: nat, u: Unit)
    requires CanDecline(s, w, victim)
    ensures WorkOkFor(s, u) ==> WorkOkFor(DoDecline(s, w, victim), u)
  {
    if !GivesUp(s, w) {
      if Declined(s, w).id == w && victim == w {
        OneWorker(s, w, DoForget(s, w).ws[w], u);
      } else {
        ForwardMovesNoTask(s, w, victim, u);
      }
    } else if !LastRequest(s, w) {
      OneWorker(s, w, DoDrop(s, w).ws[w], u);
    } else if w == 0 {
      Untouched(s, DoDetect(s, w), u);
    } else {
      FailUpMovesNoTask(s, w, u);
    }
  }

  lemma ForwardMovesNoTask(s: State, w: nat, victim: nat, u: Unit)
    requires Serving(s, w) && victim < |s.ws|
    ensures WorkOkFor(s, u) ==> WorkOkFor(DoForward(s, w, victim), u)
  {
    Untouched(s, DoForward(s, w, victim), u);
  }

  lemma FailUpMovesNoTask(s: State, w: nat, u: Unit)
    requires Serving(s, w) && w > 0
    ensures WorkOkFor(s, u) ==> WorkOkFor(DoFailUp(s, w), u)
  {
    Untouched(s, DoFailUp(s, w), u);
  }

  lemma SignalMovesNoTask(s: State, w: nat, u: Unit)
    requires CanSignal(s, w)
    ensures WorkOkFor(s, u) ==> WorkOkFor(DoSignal(s, w), u)
  {
    Untouched(s, DoSignal(s, w), u);
  }

  lemma WorkKeptByRequests(s: State, step: Step, u: Unit)
    requires Enabled(s, step) && WorkOkFor(s, u)
    requires step.Send? || step.Receive? || step.ReceiveFor? || step.Decline? || step.Signal?
    ensures WorkOkFor(Apply(s, step), u)
  {
    match step
    case Send(w, half, victim) => SendMovesNoTask(s, w, half, victim, u);
    case Receive(w) => ReceiveMovesNoTask(s, w, u);
    case ReceiveFor(w, v) => ReceiveForMovesNoTask(s, w, v, u);
    case Decline(w, victim) => DeclineMovesNoTask(s, w, victim, u);
    case Signal(w) => SignalMovesNoTask(s, w, u);
  }

  lemma WorkKeptByTasks(s: State, g: map<Token, Place>, step: Step, u: Unit)
    requires Inv(s, g) && Enabled(s, step) && WorkOkFor(s, u)
    requires step.Spawn? || step.Pop? || step.Iterate? || step.Finish? || step.Answer? || step.AnswerSplit?
             || step.Share? || step.ShareSplit? || step.ReceiveTask?
    ensures WorkOkFor(Apply(s, step), u)
  {
    match step
    case Spawn(w, lo, hi, loop) => SpawnConserves(s, w, lo, hi, loop, u);
    case Pop(w) => PopConserves(s, w, u);
    case Iterate(w) => IterateConserves(s, w, u);
    case Finish(w) => FinishConserves(s, w, u);
    case Answer(w) => AnswerConserves(s, g, w, u);
    case AnswerSplit(w, j, at) => AnswerSplitConserves(s, g, w, j, at, u);
    case Share(w) => ShareConserves(s, g, w, u);
    case ShareSplit(w, j, at) => ShareSplitConserves(s, g, w, j, at, u);
    case ReceiveTask(w, k) => ReceiveTaskConserves(s, w, k, u);
  }

  lemma WorkKeptByPhases(s: State, step: Step, u: Unit)
    requires Enabled(s, step) && WorkOkFor(s, u)
    requires step.GoIdle? || step.SoloBarrier? || step.Forget? || step.Peek? || step.Wait? || step.WakeUp?
             || step.Relock?
    ensures WorkOkFor(Apply(s, step), u)
  {
    match step
    case GoIdle(w) => OneWorker(s, w, s.ws[w].(mode := Idle), u);
    case SoloBarrier => Untouched(s, s.(quiescent := true), u);
    case Forget(w) => OneWorker(s, w, DoForget(s, w).ws[w], u);
    case Peek(w) => OneWorker(s, w, DoPeek(s, w).ws[w], u);
    case Wait(w) => OneWorker(s, w, s.ws[w].(phase := Blocked), u);
    case WakeUp(w) => OneWorker(s, w, s.ws[w].(phase := Woken), u);
    case Relock(w) => OneWorker(s, w, s.ws[w].(phase := Peeking(0)), u);
  }

  lemma OneWorker(s: State, w: nat, y: Worker, u: Unit)
    requires w < |s.ws| && SameTasks(s.ws[w], y)
    ensures WorkOkFor(s, u) ==> WorkOkFor(SetWorker(s, w, y), u)
  {
    Untouched(s, SetWorker(s, w, y), u);
  }

  lemma WorkKept(s: State, step: Step, u: Unit)
    requires Safe(s) && Enabled(s, step) && WorkOkFor(s, u)
    ensures WorkOkFor(Apply(s, step), u)
  {
    var g :| Inv(s, g);
    if step.Send? || step.Receive? || step.ReceiveFor? || step.Decline? || step.Signal? {
      WorkKeptByRequests(s, step, u);
    } else if step.GoIdle? || step.SoloBarrier? || step.Forget? || step.Peek? || step.Wait? || step.WakeUp?
      || step.Relock? {
      WorkKeptByPhases(s, step, u);
    } else {
      WorkKeptByTasks(s, g, step, u);
    }
  }

  lemma {:induction false} NothingPending(ws: seq<Worker>, u: Unit)
    requires forall v :: 0 <= v < |ws| ==> WorkerCount(ws[v], u) == 0
    ensures PendingCount(ws, u) == 0
  {
    if ws != [] {
      NothingPending(ws[1..], u);
    }
  }

  lemma {:induction false} EmptyBoxes(boxes: seq<seq<Task>>, u: Unit)
    requires forall k :: 0 <= k < |boxes| ==> boxes[k] == []
    ensures BoxCount(boxes, u) == 0
  {
    if boxes != [] {
      EmptyBoxes(boxes[1..], u);
    }
  }

  lemma NewWorkerCount(n: nat, maxSteal: nat, w: nat, u: Unit)
    ensures WorkerCount(NewWorker(n, maxSteal, w), u) == 0
  {
    EmptyBoxes(NewWorker(n, maxSteal, w).boxes, u);
  }

  lemma {:induction false} RunConservesWork(n: nat, maxSteal: nat, states: seq<State>, steps: seq<Step>, i: nat,
                                            u: Unit)
    requires IsRun(n, maxSteal, states, steps) && i < |states|
    ensures WorkOkFor(states[i], u)
  {
    if i == 0 {
      forall v | 0 <= v < n ensures WorkerCount(states[0].ws[v], u) == 0 {
        NewWorkerCount(n, maxSteal, v, u);
      }
      NothingPending(states[0].ws, u);
    } else {
      RunConservesWork(n, maxSteal, states, steps, i - 1, u);
      RunIsSafe(n, maxSteal, states, steps, i - 1);
      WorkKept(states[i - 1], steps[i - 1], u);
    }
  }
}
