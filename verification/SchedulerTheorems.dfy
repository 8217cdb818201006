/** What the scheduler guarantees in every state of every run, for any number of workers and
    any MAXSTEAL >= 1. */
module SchedulerTheorems {
  import opened Common
  import opened WorkerTree
  import opened Scheduler
  import opened SchedulerInvariant
  import opened SchedulerFacts
  import opened SchedulerLocal
  import opened SchedulerWork

  /** `s` is a state of some run, with any number of workers and any MAXSTEAL. */
  ghost predicate Reachable(s: State)
  {
    exists n, maxSteal, states, steps :: IsRun(n, maxSteal, states, steps) && s in states
  }

  lemma ReachableIsSafe(s: State)
    requires Reachable(s)
    ensures Safe(s) && forall u :: WorkOkFor(s, u)
  {
    var n, maxSteal, states, steps :| IsRun(n, maxSteal, states, steps) && s in states;
    var i: nat :| i < |states| && states[i] == s;
    RunIsSafe(n, maxSteal, states, steps, i);
    forall u ensures WorkOkFor(s, u) {
      RunConservesWork(n, maxSteal, states, steps, i, u);
    }
  }

  // Termination detection

  /** A worker without work: nothing queued, running, or arriving. */
  predicate WithoutWork(x: Worker)
  {
    x.deque == [] && x.stack == [] && forall k :: 0 <= k < |x.boxes| ==> x.boxes[k] == []
  }

  /** A worker that has failed, sleeps, and whose subtree is known to be idle. */
  predicate BackedOff(x: Worker)
  {
    WithoutWork(x) && x.mode == Idle && x.waiting && x.phase != Awake && x.hand == None && x.left && x.right
  }

  lemma AsleepMeansBackedOff(s: State, g: map<Token, Place>, d: nat)
    requires Inv(s, g) && Asleep(s, g, d)
    ensures BackedOff(s.ws[d])
  {
    assert WorkerOkAt(s, g, d) && AgreesAt(s, g, d);
    var r :| r in s.ws[Parent(d)].held && r.id == d && TokenOf(r) in g && g[TokenOf(r)] == Held(Parent(d), r);
    forall k | 0 <= k < |s.ws[d].boxes| ensures s.ws[d].boxes[k] == [] {
      if s.ws[d].boxes[k] != [] {
        WaitingHasOne(s, g, d, k, r.chan);
        assert false;
      }
    }
  }

  /** When a worker's idle flag for a child is set, it holds the failed request of that child,
      and every worker of the child's subtree has no work and sleeps. */
  lemma IdleFlagMeansSubtreeIdle(s: State, w: nat, c: nat, d: nat)
    requires Reachable(s) && w < |s.ws| && d < |s.ws| && IsDescendant(c, d)
    requires (c == 2 * w + 1 && s.ws[w].left) || (c == 2 * w + 2 && s.ws[w].right)
    ensures BackedOff(s.ws[d])
    ensures d > 0 && d in Ids(s.ws[Parent(d)].held)
  {
    ReachableIsSafe(s);
    var g :| Inv(s, g);
    FlaggedSubtreeSleeps(s, g, w, c, d);
    AsleepMeansBackedOff(s, g, d);
  }

  lemma QuietState(s: State, g: map<Token, Place>, v: nat)
    requires Inv(s, g) && s.quiescent && v < |s.ws|
    ensures WithoutWork(s.ws[v])
    ensures v > 0 ==> BackedOff(s.ws[v]) && v in Ids(s.ws[Parent(v)].held)
    ensures forall r :: r in s.ws[v].mail ==> r.id == 0
  {
    if v > 0 {
      OthersSleep(s, g, v);
      AsleepMeansBackedOff(s, g, v);
    }
    forall r | r in s.ws[v].mail ensures r.id == 0 {
      assert AgreesAt(s, g, v) && PlaceOkAt(s, g, TokenOf(r));
      if r.id > 0 {
        OthersSleep(s, g, r.id);
        var h :| h in s.ws[Parent(r.id)].held && h.id == r.id && TokenOf(h) in g
          && g[TokenOf(h)] == Held(Parent(r.id), h);
        WaitingHasOne(s, g, r.id, r.chan, h.chan);
        assert false;
      }
    }
  }

  /** Termination safety: while `quiescent` is set, no worker has any work, all workers but
      worker 0 sleep with their requests held by their parents, and no request of theirs is
      under way. */
  lemma QuiescentMeansNoWork(s: State, v: nat)
    requires Reachable(s) && s.quiescent && v < |s.ws|
    ensures WithoutWork(s.ws[v])
    ensures v > 0 ==> BackedOff(s.ws[v]) && v in Ids(s.ws[Parent(v)].held)
    ensures forall r :: r in s.ws[v].mail ==> r.id == 0
  {
    ReachableIsSafe(s);
    var g :| Inv(s, g);
    QuietState(s, g, v);
  }

  // Conservation of work

  /** A unit of work that was created is pending in exactly one place and not executed, or
      pending nowhere and executed exactly once; a unit that was not created is neither. */
  lemma WorkInOnePlace(s: State, u: Unit)
    requires Reachable(s)
    ensures u in s.created ==>
              (PendingCount(s.ws, u) == 1 && s.done[u] == 0) || (PendingCount(s.ws, u) == 0 && s.done[u] == 1)
    ensures u !in s.created ==> PendingCount(s.ws, u) == 0 && s.done[u] == 0
  {
    ReachableIsSafe(s);
    assert WorkOkFor(s, u);
  }

  /** When the barrier returns, every unit of work that was ever created has been executed
      exactly once, and nothing else has. */
  lemma BarrierMeansAllDone(s: State)
    requires Reachable(s) && s.quiescent
    ensures s.done == s.created
    ensures forall u :: s.done[u] <= 1
  {
    ReachableIsSafe(s);
    forall u: Unit ensures s.done[u] == s.created[u] && s.done[u] <= 1 {
      assert WorkOkFor(s, u);
      forall v | 0 <= v < |s.ws| ensures WorkerCount(s.ws[v], u) == 0 {
        QuiescentMeansNoWork(s, v);
        EmptyBoxes(s.ws[v].boxes, u);
      }
      NothingPending(s.ws, u);
    }
  }

  // Who reads a request channel

  /** `a` may receive from the request channel of `v`: its own, or on behalf of a worker in a
      subtree that it knows to be idle. */
  predicate MayReceive(s: State, a: nat, v: nat)
    requires a < |s.ws|
  {
    s.ws[a].phase == Awake && (a == v || v in Flagged(|s.ws|, s.ws[a], a))
  }

  lemma ReadersAgree(s: State, g: map<Token, Place>, a: nat, b: nat, v: nat)
    requires Inv(s, g) && a < |s.ws| && b < |s.ws| && v < |s.ws|
    requires MayReceive(s, a, v) && MayReceive(s, b, v)
    requires v in Flagged(|s.ws|, s.ws[a], a)
    ensures a == b
  {
    FlaggedSleeps(s, g, a, v);
    var ca := FlaggedChild(|s.ws|, s.ws[a], a, v);
    if b != v && a != b {
      var cb := FlaggedChild(|s.ws|, s.ws[b], b, v);
      ReaderBelow(s, g, a, ca, b, cb, v);
      assert false;
    }
  }

  /** Two readers of `v` above `v`: the lower one would sleep. */
  lemma ReaderBelow(s: State, g: map<Token, Place>, a: nat, ca: nat, b: nat, cb: nat, v: nat)
    requires Inv(s, g) && a < |s.ws| && b < |s.ws| && v < |s.ws| && a != b
    requires (ca == 2 * a + 1 && s.ws[a].left) || (ca == 2 * a + 2 && s.ws[a].right)
    requires (cb == 2 * b + 1 && s.ws[b].left) || (cb == 2 * b + 2 && s.ws[b].right)
    requires IsDescendant(ca, v) && IsDescendant(cb, v)
    ensures s.ws[a].phase != Awake || s.ws[b].phase != Awake
  {
    AncestorsComparable(ca, cb, v);
    if IsDescendant(ca, cb) {
      assert ca != cb;
      assert Parent(cb) == b;
      FlaggedSubtreeSleeps(s, g, a, ca, b);
    } else {
      assert Parent(ca) == a;
      FlaggedSubtreeSleeps(s, g, b, cb, a);
    }
  }

  /** At most one worker may receive from any request channel, although the channels allow a
      single consumer only and sleeping workers are represented by others. */
  lemma SingleReader(s: State, a: nat, b: nat, v: nat)
    requires Reachable(s) && a < |s.ws| && b < |s.ws| && v < |s.ws|
    requires MayReceive(s, a, v) && MayReceive(s, b, v)
    ensures a == b
  {
    ReachableIsSafe(s);
    var g :| Inv(s, g);
    if v in Flagged(|s.ws|, s.ws[a], a) {
      ReadersAgree(s, g, a, b, v);
    } else if v in Flagged(|s.ws|, s.ws[b], b) {
      ReadersAgree(s, g, b, a, v);
    }
  }

  /** A request received on behalf of another worker is never in STATE_FAILED, and is never
      that worker's own. */
  lemma OnBehalfNeverFailed(s: State, w: nat, v: nat)
    requires Reachable(s) && CanReceiveFor(s, w, v)
    ensures s.ws[v].mail[0].state != StateFailed && s.ws[v].mail[0].id != v
  {
    ReachableIsSafe(s);
    var g :| Inv(s, g);
    FlaggedSleeps(s, g, w, v);
    SleeperMail(s, g, v);
  }

  // A receive that takes several steps

  /** The worker whose step it is */
  function Actor(step: Step): nat
  {
    match step
    case SoloBarrier => 0
    case Spawn(w, _, _, _) => w
    case Pop(w) => w
    case Iterate(w) => w
    case Finish(w) => w
    case GoIdle(w) => w
    case Send(w, _, _) => w
    case Receive(w) => w
    case ReceiveFor(w, _) => w
    case Answer(w) => w
    case AnswerSplit(w, _, _) => w
    case Forget(w) => w
    case Decline(w, _) => w
    case Share(w) => w
    case ShareSplit(w, _, _) => w
    case ReceiveTask(w, _) => w
    case Peek(w) => w
    case Wait(w) => w
    case WakeUp(w) => w
    case Relock(w) => w
    case Signal(w) => w
  }

  /** What other workers do neither puts an awake worker to sleep nor changes its idle flags. */
  predicate SameReader(x: Worker, y: Worker)
  {
    y.left == x.left && y.right == x.right && (x.phase == Awake ==> y.phase == Awake)
  }

  lemma SendsKeepReader(s: State, step: Step, a: nat)
    requires Enabled(s, step) && a < |s.ws| && Actor(step) != a && (step.Send? || step.Signal?)
    ensures SameReader(s.ws[a], Apply(s, step).ws[a])
  {
  }

  lemma ReceivesKeepReader(s: State, step: Step, a: nat)
    requires Enabled(s, step) && a < |s.ws| && Actor(step) != a && (step.Receive? || step.ReceiveFor? || step.Forget?)
    ensures SameReader(s.ws[a], Apply(s, step).ws[a])
  {
  }

  lemma AnswersKeepReader(s: State, step: Step, a: nat)
    requires Enabled(s, step) && a < |s.ws| && Actor(step) != a && (step.Answer? || step.AnswerSplit?)
    ensures SameReader(s.ws[a], Apply(s, step).ws[a])
  {
  }

  lemma SharesKeepReader(s: State, step: Step, a: nat)
    requires Enabled(s, step) && a < |s.ws| && Actor(step) != a
    requires step.Share? || step.ShareSplit? || step.ReceiveTask?
    ensures SameReader(s.ws[a], Apply(s, step).ws[a])
  {
  }

  lemma DeclineKeepsReader(s: State, w: nat, victim: nat, a: nat)
    requires CanDecline(s, w, victim) && a < |s.ws| && w != a
    ensures SameReader(s.ws[a], DoDecline(s, w, victim).ws[a])
  {
  }

  lemma LocalStepsKeepReader(s: State, step: Step, a: nat)
    requires Enabled(s, step) && a < |s.ws| && Actor(step) != a
    requires step.Spawn? || step.Pop? || step.Iterate? || step.Finish? || step.GoIdle? || step.SoloBarrier?
             || step.Peek? || step.Wait? || step.WakeUp? || step.Relock?
    ensures SameReader(s.ws[a], Apply(s, step).ws[a])
  {
  }

  lemma ReaderStays(s: State, step: Step, a: nat, v: nat)
    requires Enabled(s, step) && a < |s.ws| && Actor(step) != a && MayReceive(s, a, v)
    ensures MayReceive(Apply(s, step), a, v)
  {
    if step.Send? || step.Signal? {
      SendsKeepReader(s, step, a);
    } else if step.Receive? || step.ReceiveFor? || step.Forget? {
      ReceivesKeepReader(s, step, a);
    } else if step.Answer? || step.AnswerSplit? {
      AnswersKeepReader(s, step, a);
    } else if step.Share? || step.ShareSplit? || step.ReceiveTask? {
      SharesKeepReader(s, step, a);
    } else if step.Decline? {
      DeclineKeepsReader(s, step.w, step.victim, a);
    } else {
      LocalStepsKeepReader(s, step, a);
    }
  }

  lemma {:induction false} ReaderStaysAlong(n: nat, maxSteal: nat, states: seq<State>, steps: seq<Step>, a: nat,
                                            v: nat, i: nat, j: nat)
    requires IsRun(n, maxSteal, states, steps) && i <= j < |states|
    requires a < |states[i].ws| && MayReceive(states[i], a, v)
    requires forall k :: i <= k < j ==> Actor(steps[k]) != a
    ensures a < |states[j].ws| && MayReceive(states[j], a, v)
  {
    if i < j {
      ReaderStaysAlong(n, maxSteal, states, steps, a, v, i, j - 1);
      ReaderStays(states[j - 1], steps[j - 1], a, v);
    }
  }

  /** A request channel has one receiver at a time, as the single-consumer channels demand, also
      when a receive takes as long as any number of steps of the other workers: from the moment
      at which a worker may receive until its next own step nobody else may, whether it is the
      channel's owner or an ancestor of a sleeping one. So owner and ancestor never overlap, and
      a channel is handed over only by a step of the one that gives it up. */
  lemma ReceiverIsAlone(n: nat, maxSteal: nat, states: seq<State>, steps: seq<Step>, a: nat, b: nat, v: nat, i: nat,
                        j: nat)
    requires IsRun(n, maxSteal, states, steps) && i <= j < |states|
    requires a < |states[i].ws| && v < |states[j].ws| && MayReceive(states[i], a, v)
    requires forall k :: i <= k < j ==> Actor(steps[k]) != a
    requires b < |states[j].ws| && MayReceive(states[j], b, v)
    ensures b == a
  {
    ReaderStaysAlong(n, maxSteal, states, steps, a, v, i, j);
    assert states[j] in states;
    assert Reachable(states[j]);
    SingleReader(states[j], a, b, v);
  }

  // No lost wake-up

  /** A worker that sleeps, or is past the look at a task channel that would have kept it awake,
      while tasks have arrived in that channel has not been signalled for them yet: its parent
      still owes the signal, and can give it as soon as the worker sleeps. */
  lemma NoLostWakeUp(s: State, w: nat, k: nat)
    requires Reachable(s) && w < |s.ws| && k < |s.ws[w].boxes|
    requires LookedPast(s.ws[w].phase, k) && s.ws[w].boxes[k] != []
    ensures w > 0 && s.ws[Parent(w)].owes == Some(w) && (s.ws[w].phase == Blocked ==> CanSignal(s, Parent(w)))
  {
    ReachableIsSafe(s);
    var g :| Inv(s, g);
    assert AgreesAt(s, g, w) && PlaceOkAt(s, g, (w, k));
  }

  /** So a worker for which tasks have arrived never depends on a spurious wake-up: some step of
      its own or the signal of its parent is enabled. */
  lemma SleeperCanProceed(s: State, w: nat, k: nat)
    requires Reachable(s) && w < |s.ws| && k < |s.ws[w].boxes| && s.ws[w].boxes[k] != [] && s.ws[w].phase != Awake
    ensures CanPeek(s, w) || CanWait(s, w) || CanRelock(s, w)
            || (w > 0 && s.ws[Parent(w)].owes == Some(w) && CanSignal(s, Parent(w)))
  {
    if s.ws[w].phase == Blocked {
      NoLostWakeUp(s, w, k);
    }
  }

  // Requests and counters

  ghost predicate Live(s: State, r: Request)
  {
    exists v: nat :: v < |s.ws| && (r in s.ws[v].mail || s.ws[v].hand == Some(r) || r in s.ws[v].held)
  }

  lemma LiveHasPlace(s: State, g: map<Token, Place>, r: Request)
    requires Inv(s, g) && Live(s, r)
    ensures TokenOf(r) in g && (g[TokenOf(r)].Mail? || g[TokenOf(r)].Hand? || g[TokenOf(r)].Held?)
    ensures g[TokenOf(r)].r == r
    ensures r.id < |s.ws| && r.chan < s.maxSteal
  {
    var v: nat :| v < |s.ws| && (r in s.ws[v].mail || s.ws[v].hand == Some(r) || r in s.ws[v].held);
    assert AgreesAt(s, g, v) && PlaceOkAt(s, g, TokenOf(r));
  }

  /** Request accounting: what the code asserts about its counters. The channel that a live
      request carries is empty and on no stack, so a send to it always has room; two live
      requests never share a channel; and a failed request is its sender's only live one. */
  lemma RequestsAccountedFor(s: State, r: Request)
    requires Reachable(s) && Live(s, r)
    ensures && r.id < |s.ws| && r.chan < |s.ws[r.id].boxes|
            && s.ws[r.id].boxes[r.chan] == [] && r.chan !in s.ws[r.id].free
            && s.ws[r.id].requested - s.ws[r.id].dropped >= 1
            && (forall q :: Live(s, q) && q.id == r.id && q.chan == r.chan ==> q == r)
            && (r.state == StateFailed ==> forall q :: Live(s, q) && q.id == r.id ==> q == r)
  {
    ReachableIsSafe(s);
    var g :| Inv(s, g);
    LiveHasPlace(s, g, r);
    assert AgreesAt(s, g, r.id) && WorkerOkAt(s, g, r.id) && PlaceOkAt(s, g, TokenOf(r));
    FreeCount(s.ws[r.id], r.id, s.maxSteal, g, r.chan);
    forall q | Live(s, q) && q.id == r.id && (q.chan == r.chan || r.state == StateFailed) ensures q == r {
      LiveHasPlace(s, g, q);
      if r.state == StateFailed {
        WaitingHasOne(s, g, r.id, r.chan, q.chan);
      }
    }
  }

  /** No channel is lost or duplicated: each is free, filled with tasks, or in a live request,
      and in only one of these. */
  lemma ChannelInOnePlace(s: State, w: nat, k: nat)
    requires Reachable(s) && w < |s.ws| && k < s.maxSteal
    ensures k < |s.ws[w].boxes|
    ensures var free := k in s.ws[w].free;
            var filled := s.ws[w].boxes[k] != [];
            var out := exists r :: Live(s, r) && TokenOf(r) == (w, k);
            (free || filled || out) && !(free && filled) && !(free && out) && !(filled && out)
  {
    ReachableIsSafe(s);
    var g :| Inv(s, g);
    assert AgreesAt(s, g, w) && PlaceOkAt(s, g, (w, k));
    var p: Place := g[(w, k)];
    if p.Mail? || p.Hand? || p.Held? {
      assert AgreesAt(s, g, p.v);
      assert p.r in s.ws[p.v].mail || s.ws[p.v].hand == Some(p.r) || p.r in s.ws[p.v].held;
      assert Live(s, p.r);
    }
    forall r | Live(s, r) && TokenOf(r) == (w, k) ensures g[(w, k)] != Free && g[(w, k)] != Box {
      LiveHasPlace(s, g, r);
    }
  }

  /** Every step keeps requested - dropped + free channels == MAXSTEAL, and more. */
  lemma CountersBalance(s: State, w: nat)
    requires Reachable(s) && w < |s.ws|
    ensures var x := s.ws[w];
            && x.requested - x.dropped + |x.free| == s.maxSteal
            && 0 <= x.dropped < s.maxSteal && x.dropped <= x.requested <= s.maxSteal
            && (x.requested < s.maxSteal ==> x.free != [])
            && (x.waiting ==> x.requested == s.maxSteal && x.dropped == s.maxSteal - 1 && |x.free| == s.maxSteal - 1)
  {
    ReachableIsSafe(s);
    var g :| Inv(s, g);
    assert AgreesAt(s, g, w) && WorkerOkAt(s, g, w);
    var f := set e | e in s.ws[w].free;
    SetOfSeq(s.ws[w].free);
    RangeSize(s.maxSteal);
    forall e | e in f ensures e in AllWorkers(s.maxSteal) {
      assert IsWorker(s.maxSteal, e);
    }
    SubsetSize(f, AllWorkers(s.maxSteal));
  }
}
