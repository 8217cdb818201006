/** Termination is detected in some run, whatever the number of workers and MAXSTEAL: what the
    theorems say about the moment of detection is not empty. The run goes up the tree: from the
    last worker to the first, each one runs out of work, asks all others in vain, gives up, and
    reports to its parent. */
module SchedulerDetection {
  import opened Common
  import opened Paths
  import opened WorkerTree
  import opened Scheduler
  import opened SchedulerFacts

  /** One step of the scheduler */
  ghost predicate StepTo(s: State, step: Step, s1: State)
  {
    exists w: int :: StepToAt(w, s, step, s1)
  }

  /** The verifier looks behind this only where Unfold is mentioned. */
  ghost predicate StepToAt(w: int, s: State, step: Step, s1: State)
  {
    forall u: int {:trigger Unfold(u)} :: Unfold(u) ==> Enabled(s, step) && s1 == Apply(s, step)
  }

  lemma StepIs(s: State, step: Step, s1: State)
    ensures StepTo(s, step, s1) <==> Enabled(s, step) && s1 == Apply(s, step)
  {
    assert Unfold(0);
    if Enabled(s, step) && s1 == Apply(s, step) {
      assert StepToAt(0, s, step, s1);
    }
  }

  // Where the run stands

  /** The workers up to `w` have not begun yet, and know the workers above `w` to be idle. */
  predicate Stage(s: State, n: nat, maxSteal: nat, w: nat)
  {
    && |s.ws| == n && s.maxSteal == maxSteal && !s.quiescent && w < n
    && forall v: nat :: v <= w ==> NotBegun(s.ws[v], n, maxSteal, v, w)
  }

  predicate NotBegun(x: Worker, n: nat, maxSteal: nat, v: nat, w: nat)
  {
    x == NewWorker(n, maxSteal, v).(left := 2 * v + 1 > w, right := 2 * v + 2 > w, held := x.held)
  }

  // A request goes round

  /** `d` lies below a child of `p` that is above `w`. */
  predicate Covers(p: nat, w: nat, d: nat)
  {
    (2 * p + 1 > w && IsDescendant(2 * p + 1, d)) || (2 * p + 2 > w && IsDescendant(2 * p + 2, d))
  }

  lemma {:induction false} CoveredAbove(w: nat, d: nat) returns (p: nat)
    requires d > w && !IsDescendant(w, d)
    ensures p < w && Covers(p, w, d)
    decreases d
  {
    var q := Parent(d);
    if q > w {
      p := CoveredAbove(w, q);
      var c := if 2 * p + 1 > w && IsDescendant(2 * p + 1, q) then 2 * p + 1 else 2 * p + 2;
      DescendantNotSmaller(c, q);
      assert IsDescendant(c, d);
    } else {
      p := q;
      assert IsDescendant(w, w);
    }
  }

  /** A request of `w` on its way to `j`: the workers below `j` have been asked, those from `j` up to `w`
      not, and of those above `w` only such are left as will turn out to be idle. */
  predicate OnItsWay(r: Request, n: nat, w: nat, j: nat)
  {
    && r.id == w && r.state == StateIdle && r.try == j
    && (forall d :: d in r.victims ==> j <= d < n && d != w)
    && (forall d: nat :: j <= d < w ==> d in r.victims)
    && (forall d :: d in r.victims && d > w ==> exists p: nat :: j <= p < w && Covers(p, w, d))
  }

  lemma CoveredIsFlagged(x: Worker, n: nat, w: nat, j: nat, d: nat)
    requires x.left == (2 * j + 1 > w) && x.right == (2 * j + 2 > w) && Covers(j, w, d) && d < n
    ensures d in Flagged(n, x, j)
  {
  }

  lemma WayPruned(x: Worker, n: nat, w: nat, j: nat, r: Request)
    requires j < w < n && OnItsWay(r, n, w, j) && x.left == (2 * j + 1 > w) && x.right == (2 * j + 2 > w)
    ensures OnItsWay(r.(try := j + 1, victims := Pruned(n, x, j, r.victims)), n, w, j + 1)
  {
    var left := Pruned(n, x, j, r.victims);
    PrunedIs(n, x, j, r.victims);
    forall d: nat | j + 1 <= d < w ensures d in left {
      if d in Flagged(n, x, j) {
        var c := FlaggedChild(n, x, j, d);
        DescendantNotSmaller(c, d);
      }
    }
    forall d | d in left && d > w ensures exists p: nat :: j + 1 <= p < w && Covers(p, w, d) {
      var p: nat :| j <= p < w && Covers(p, w, d);
      if p == j {
        CoveredIsFlagged(x, n, w, j, d);
      }
    }
  }

  lemma WayEnds(r: Request, n: nat, w: nat)
    requires OnItsWay(r, n, w, w)
    ensures r.victims == {}
  {
    assert forall d :: d !in r.victims;
  }

  /** The state in which the requests of `w` go round: nobody else up to `w` has begun. */
  predicate Quiet(b: State, n: nat, maxSteal: nat, w: nat)
  {
    && |b.ws| == n && b.maxSteal == maxSteal && w < n && 1 < n
    && (forall v: nat :: v < w ==> NotBegun(b.ws[v], n, maxSteal, v, w))
    && Asking(b.ws[w], w, maxSteal)
  }

  /** Idle, with an idle subtree, and with nothing in hand or in its channels */
  predicate Asking(x: Worker, w: nat, maxSteal: nat)
  {
    && x.deque == [] && x.stack == [] && x.mail == [] && x.hand == None && x.owes == None
    && x.mode == Idle && x.phase == Awake && !x.waiting && x.left && x.right
  }

  /** One hop: the worker at which the request has arrived receives it, has nothing for it, and sends
      it on. */
  lemma Hop(b: State, n: nat, maxSteal: nat, w: nat, j: nat, r: Request, next: nat, r1: Request)
    requires Quiet(b, n, maxSteal, w) && j < w && OnItsWay(r, n, w, j) && next == j + 1
    requires r1 == Routed(n, b.ws[j], j, r.(try := j + 1))
    ensures Leads(StepTo, PutMail(b, j, r), [Receive(j), Decline(j, next)], PutMail(b, next, r1))
    ensures next < w ==> OnItsWay(r1, n, w, next)
    ensures r1.id == w && r1.state == StateIdle && r1.chan == r.chan
  {
    assert NotBegun(b.ws[j], n, maxSteal, j, w);
    var s := PutMail(b, j, r);
    var mid := SetWorker(b, j, b.ws[j].(hand := Some(r)));
    WayPruned(b.ws[j], n, w, j, r);
    HopReceives(b, n, maxSteal, w, j, r, s, mid);
    HopSends(b, n, maxSteal, w, j, r, mid, next, r1);
    OneStep(StepTo, s, Receive(j), mid);
    ThenStep(StepTo, s, [Receive(j)], mid, Decline(j, next), PutMail(b, next, r1));
    assert [Receive(j)] + [Decline(j, next)] == [Receive(j), Decline(j, next)];
  }

  lemma HopReceives(b: State, n: nat, maxSteal: nat, w: nat, j: nat, r: Request, s: State, mid: State)
    requires j < |b.ws| && NotBegun(b.ws[j], n, maxSteal, j, w) && r.state == StateIdle
    requires s == PutMail(b, j, r) && mid == SetWorker(b, j, b.ws[j].(hand := Some(r)))
    ensures StepTo(s, Receive(j), mid)
  {
    assert s.ws[j].mail == [r] && s.ws[j].mail[1..] == [];
    assert Apply(s, Receive(j)).ws == mid.ws;
    StepIs(s, Receive(j), mid);
  }

  lemma HopSends(b: State, n: nat, maxSteal: nat, w: nat, j: nat, r: Request, mid: State, next: nat, r1: Request)
    requires Quiet(b, n, maxSteal, w) && j < w && OnItsWay(r, n, w, j) && next == j + 1
    requires r1 == Routed(n, b.ws[j], j, r.(try := j + 1))
    requires OnItsWay(r.(try := j + 1, victims := Pruned(n, b.ws[j], j, r.victims)), n, w, j + 1)
    requires mid == SetWorker(b, j, b.ws[j].(hand := Some(r)))
    ensures StepTo(mid, Decline(j, next), PutMail(b, next, r1))
  {
    assert NotBegun(b.ws[j], n, maxSteal, j, w);
    NextIs(b.ws[j], n, w, j, r, next);
    assert CanDecline(mid, j, next) by {
      SameVictims(b.ws[j], mid.ws[j], n, j, r.(try := j + 1), next);
    }
    Sent(b, n, j, r, mid, next, r1);
    StepIs(mid, Decline(j, next), PutMail(b, next, r1));
  }

  /** What is in hand makes no difference to the choice of the next victim. */
  lemma SameVictims(x: Worker, y: Worker, n: nat, j: nat, r: Request, next: nat)
    requires y == x.(hand := y.hand)
    ensures IsNextVictim(n, x, j, r, next) <==> IsNextVictim(n, y, j, r, next)
    ensures Routed(n, x, j, r) == Routed(n, y, j, r)
  {
  }

  lemma NextIs(x: Worker, n: nat, w: nat, j: nat, r: Request, next: nat)
    requires j < w < n && r.id == w && next == j + 1
    requires OnItsWay(r.(try := j + 1, victims := Pruned(n, x, j, r.victims)), n, w, j + 1)
    ensures IsNextVictim(n, x, j, r.(try := j + 1), next)
  {
    var r1 := r.(try := j + 1, victims := Pruned(n, x, j, r.victims));
    if next == w {
      WayEnds(r1, n, w);
    } else {
      assert next in r1.victims;
    }
  }

  lemma Sent(b: State, n: nat, j: nat, r: Request, mid: State, next: nat, r1: Request)
    requires |b.ws| == n && j < n && next < n && next != j && r.id != j && r.try == j
    requires mid == SetWorker(b, j, b.ws[j].(hand := Some(r))) && b.ws[j].hand == None
    requires r1 == Routed(n, b.ws[j], j, r.(try := j + 1)) && CanDecline(mid, j, next)
    ensures Apply(mid, Decline(j, next)) == PutMail(b, next, r1)
  {
    SameVictims(b.ws[j], mid.ws[j], n, j, r.(try := j + 1), next);
    assert mid.ws[j].(hand := None) == b.ws[j];
    assert SetWorker(mid, j, b.ws[j]).ws == b.ws;
  }

  /** The request passes all workers below `w`, and comes home. */
  lemma {:induction false} ComesHome(b: State, n: nat, maxSteal: nat, w: nat, j: nat, r: Request)
    returns (steps: seq<Step>, r1: Request)
    requires Quiet(b, n, maxSteal, w) && j < w && OnItsWay(r, n, w, j)
    ensures Leads(StepTo, PutMail(b, j, r), steps, PutMail(b, w, r1))
    ensures r1.id == w && r1.state == StateIdle && r1.chan == r.chan
    decreases w - j
  {
    r1 := Routed(n, b.ws[j], j, r.(try := j + 1));
    Hop(b, n, maxSteal, w, j, r, j + 1, r1);
    steps := [Receive(j), Decline(j, j + 1)];
    if j + 1 < w {
      var rest, r2 := ComesHome(b, n, maxSteal, w, j + 1, r1);
      LeadsOn(StepTo, PutMail(b, j, r), steps, PutMail(b, j + 1, r1), rest, PutMail(b, w, r2));
      steps, r1 := steps + rest, r2;
    }
  }

  // One request of a worker that is about to give up

  lemma FirstWay(b: State, n: nat, maxSteal: nat, w: nat, r: Request)
    requires Quiet(b, n, maxSteal, w) && w > 0
    requires r.id == w && r.state == StateIdle && r.try == 0 && r.victims == Pruned(n, b.ws[w], w, AllWorkers(n))
    ensures OnItsWay(r, n, w, 0)
  {
    PrunedIs(n, b.ws[w], w, AllWorkers(n));
    forall d: nat | d < n && d != w ensures d in r.victims <==> !IsDescendant(w, d) {
      assert IsWorker(n, d);
      DescendantViaChild(w, d);
    }
    forall d: nat | d < w ensures d in r.victims {
      if IsDescendant(w, d) {
        DescendantNotSmaller(w, d);
      }
    }
    forall d | d in r.victims && d > w ensures exists p: nat :: 0 <= p < w && Covers(p, w, d) {
      var p := CoveredAbove(w, d);
    }
  }

  /** `s`, in which `w` has sent one request more */
  function HasSent(s: State, w: nat): State
    requires w < |s.ws| && s.ws[w].free != []
  {
    var x := s.ws[w];
    SetWorker(s, w, x.(free := x.free[..|x.free| - 1], requested := x.requested + 1))
  }

  lemma StaysQuiet(s: State, n: nat, maxSteal: nat, w: nat)
    requires Quiet(s, n, maxSteal, w) && s.ws[w].free != []
    ensures Quiet(HasSent(s, w), n, maxSteal, w)
    ensures HasSent(s, w).ws[w].left && HasSent(s, w).ws[w].right
  {
    var b := HasSent(s, w);
    forall v: nat | v < w ensures NotBegun(b.ws[v], n, maxSteal, v, w) {
      assert NotBegun(s.ws[v], n, maxSteal, v, w);
    }
  }

  lemma WayHome(b: State, n: nat, maxSteal: nat, w: nat, r0: Request) returns (steps: seq<Step>, r: Request)
    requires Quiet(b, n, maxSteal, w)
    requires r0.id == w && r0.state == StateIdle && r0.try == 0 && r0.victims == Pruned(n, b.ws[w], w, AllWorkers(n))
    ensures Leads(StepTo, PutMail(b, 0, r0), steps, PutMail(b, w, r))
    ensures r.id == w && r.state == StateIdle && r.chan == r0.chan
  {
    if w == 0 {
      steps, r := [], r0;
    } else {
      FirstWay(b, n, maxSteal, w, r0);
      steps, r := ComesHome(b, n, maxSteal, w, 0, r0);
    }
  }

  /** Worker `w` sends a request, which comes back to it. */
  lemma AskInVain(s: State, n: nat, maxSteal: nat, w: nat, b: State) returns (steps: seq<Step>, r: Request)
    requires Quiet(s, n, maxSteal, w) && s.ws[w].free != [] && s.ws[w].requested < maxSteal && b == HasSent(s, w)
    ensures Leads(StepTo, s, steps, SetWorker(b, w, b.ws[w].(hand := Some(r))))
    ensures r.id == w && r.state == StateIdle && r.chan == s.ws[w].free[|s.ws[w].free| - 1]
  {
    var r0 := Routed(n, s.ws[w], w, FreshRequest(s, w, false));
    SendsToFirst(s, n, maxSteal, w, r0);
    StaysQuiet(s, n, maxSteal, w);
    StepIs(s, Send(w, false, 0), PutMail(b, 0, r0));
    var rest;
    rest, r := WayHome(b, n, maxSteal, w, r0);
    FirstStep(StepTo, s, Send(w, false, 0), PutMail(b, 0, r0), rest, PutMail(b, w, r));
    var home := SetWorker(b, w, b.ws[w].(hand := Some(r)));
    OwnArrives(b, n, maxSteal, w, r, home);
    steps := [Send(w, false, 0)] + rest;
    ThenStep(StepTo, s, steps, PutMail(b, w, r), Receive(w), home);
    steps := steps + [Receive(w)];
  }

  lemma SendsToFirst(s: State, n: nat, maxSteal: nat, w: nat, r: Request)
    requires Quiet(s, n, maxSteal, w) && s.ws[w].free != [] && s.ws[w].requested < maxSteal
    requires r == Routed(n, s.ws[w], w, FreshRequest(s, w, false))
    ensures Enabled(s, Send(w, false, 0))
    ensures Apply(s, Send(w, false, 0)) == PutMail(HasSent(s, w), 0, r)
    ensures r.id == w && r.state == StateIdle && r.try == 0 && r.chan == s.ws[w].free[|s.ws[w].free| - 1]
    ensures r.victims == Pruned(n, s.ws[w], w, AllWorkers(n))
  {
    NoVictims(n, s.ws[w], w);
    PrunedIs(n, s.ws[w], w, AllWorkers(n));
    assert IsWorker(n, 0);
    if w > 0 && 0 in Flagged(n, s.ws[w], w) {
      var c := FlaggedChild(n, s.ws[w], w, 0);
    }
  }

  lemma OwnArrives(b: State, n: nat, maxSteal: nat, w: nat, r: Request, s1: State)
    requires Quiet(b, n, maxSteal, w) && r.state == StateIdle
    requires s1 == SetWorker(b, w, b.ws[w].(hand := Some(r)))
    ensures StepTo(PutMail(b, w, r), Receive(w), s1)
  {
    var s := PutMail(b, w, r);
    assert s.ws[w].mail == [r] && s.ws[w].mail[1..] == [];
    assert Apply(s, Receive(w)).ws == s1.ws;
    StepIs(s, Receive(w), s1);
  }

  // A worker gives up

  /** Worker `w` of `b` after it has gone idle and dropped `k` requests */
  function Gone(b: State, w: nat, k: nat): State
    requires w < |b.ws|
  {
    SetWorker(b, w, b.ws[w].(mode := Idle, requested := k, dropped := k))
  }

  lemma GoneIsQuiet(b: State, n: nat, maxSteal: nat, w: nat, k: nat)
    requires Stage(b, n, maxSteal, w) && n > 1
    ensures Quiet(Gone(b, w, k), n, maxSteal, w)
    ensures Gone(b, w, k).ws[w].free == b.ws[w].free && |b.ws[w].free| == maxSteal
  {
    assert NotBegun(b.ws[w], n, maxSteal, w, w);
    var s := Gone(b, w, k);
    forall v: nat | v < w ensures NotBegun(s.ws[v], n, maxSteal, v, w) {
      assert NotBegun(b.ws[v], n, maxSteal, v, w);
    }
  }

  /** `Gone`, with the next request back in hand */
  function Back(b: State, w: nat, k: nat, r: Request): State
    requires w < |b.ws| && b.ws[w].free != []
  {
    var s := HasSent(Gone(b, w, k), w);
    SetWorker(s, w, s.ws[w].(hand := Some(r)))
  }

  lemma AskAgain(b: State, n: nat, maxSteal: nat, w: nat, k: nat) returns (steps: seq<Step>, r: Request)
    requires Stage(b, n, maxSteal, w) && n > 1 && k < maxSteal
    ensures |b.ws[w].free| == maxSteal && Leads(StepTo, Gone(b, w, k), steps, Back(b, w, k, r))
    ensures r.id == w && r.state == StateIdle && b.ws[w].free[..maxSteal - 1] + [r.chan] == b.ws[w].free
  {
    GoneIsQuiet(b, n, maxSteal, w, k);
    steps, r := AskInVain(Gone(b, w, k), n, maxSteal, w, HasSent(Gone(b, w, k), w));
  }

  lemma Drops(b: State, n: nat, maxSteal: nat, w: nat, k: nat, r: Request)
    requires Stage(b, n, maxSteal, w) && k + 1 < maxSteal && |b.ws[w].free| == maxSteal
    requires r.id == w && r.state == StateIdle && b.ws[w].free[..maxSteal - 1] + [r.chan] == b.ws[w].free
    ensures StepTo(Back(b, w, k, r), Decline(w, 0), Gone(b, w, k + 1))
  {
    assert NotBegun(b.ws[w], n, maxSteal, w, w);
    var s := Back(b, w, k, r);
    assert Apply(s, Decline(w, 0)).ws == Gone(b, w, k + 1).ws;
    StepIs(s, Decline(w, 0), Gone(b, w, k + 1));
  }

  lemma DropsOne(b: State, n: nat, maxSteal: nat, w: nat, k: nat) returns (steps: seq<Step>)
    requires Stage(b, n, maxSteal, w) && n > 1 && k + 1 < maxSteal
    ensures Leads(StepTo, Gone(b, w, k), steps, Gone(b, w, k + 1))
  {
    var r;
    steps, r := AskAgain(b, n, maxSteal, w, k);
    Drops(b, n, maxSteal, w, k, r);
    ThenStep(StepTo, Gone(b, w, k), steps, Back(b, w, k, r), Decline(w, 0), Gone(b, w, k + 1));
    steps := steps + [Decline(w, 0)];
  }

  /** All requests but the last are dropped. */
  lemma {:induction false} DropsMost(b: State, n: nat, maxSteal: nat, w: nat, k: nat) returns (steps: seq<Step>)
    requires Stage(b, n, maxSteal, w) && n > 1 && k < maxSteal
    ensures Leads(StepTo, Gone(b, w, 0), steps, Gone(b, w, k))
  {
    if k == 0 {
      steps := [];
    } else {
      var first := DropsMost(b, n, maxSteal, w, k - 1);
      var last := DropsOne(b, n, maxSteal, w, k - 1);
      var s, mid, s1 := Gone(b, w, 0), Gone(b, w, k - 1), Gone(b, w, k);
      LeadsOn(StepTo, s, first, mid, last, s1);
      steps := first + last;
    }
  }

  lemma GoesIdle(b: State, n: nat, maxSteal: nat, w: nat)
    requires Stage(b, n, maxSteal, w) && n > 1
    ensures StepTo(b, GoIdle(w), Gone(b, w, 0))
  {
    assert NotBegun(b.ws[w], n, maxSteal, w, w);
    StepIs(b, GoIdle(w), Gone(b, w, 0));
  }

  lemma DropsAll(b: State, n: nat, maxSteal: nat, w: nat) returns (steps: seq<Step>)
    requires Stage(b, n, maxSteal, w) && n > 1 && maxSteal >= 1
    ensures Leads(StepTo, b, steps, Gone(b, w, maxSteal - 1))
  {
    GoesIdle(b, n, maxSteal, w);
    var drops := DropsMost(b, n, maxSteal, w, maxSteal - 1);
    FirstStep(StepTo, b, GoIdle(w), Gone(b, w, 0), drops, Gone(b, w, maxSteal - 1));
    steps := [GoIdle(w)] + drops;
  }

  /** The worker goes idle, drops all requests but one, and has that one back in hand. */
  lemma HasLast(b: State, n: nat, maxSteal: nat, w: nat) returns (steps: seq<Step>, r: Request)
    requires Stage(b, n, maxSteal, w) && n > 1 && maxSteal >= 1
    ensures |b.ws[w].free| == maxSteal && Leads(StepTo, b, steps, Back(b, w, maxSteal - 1, r))
    ensures r.id == w && r.state == StateIdle
  {
    var s := Gone(b, w, maxSteal - 1);
    var drops := DropsAll(b, n, maxSteal, w);
    var more;
    more, r := AskAgain(b, n, maxSteal, w, maxSteal - 1);
    LeadsOn(StepTo, b, drops, s, more, Back(b, w, maxSteal - 1, r));
    steps := drops + more;
  }

  lemma Detects(b: State, n: nat, maxSteal: nat, r: Request) returns (s1: State)
    requires Stage(b, n, maxSteal, 0) && maxSteal >= 1 && |b.ws[0].free| == maxSteal
    requires r.id == 0 && r.state == StateIdle
    ensures StepTo(Back(b, 0, maxSteal - 1, r), Decline(0, 0), s1) && s1.quiescent
  {
    assert NotBegun(b.ws[0], n, maxSteal, 0, 0);
    s1 := Apply(Back(b, 0, maxSteal - 1, r), Decline(0, 0));
    StepIs(Back(b, 0, maxSteal - 1, r), Decline(0, 0), s1);
  }

  /** The state after worker `w` has reported to its parent */
  function Reported(b: State, w: nat, k: nat, r: Request): State
    requires 0 < w < |b.ws| && b.ws[w].free != []
  {
    var s := Back(b, w, k, r);
    PutMail(SetWorker(s, w, s.ws[w].(hand := None, waiting := true, phase := Peeking(0))), Parent(w),
            r.(try := r.try + 1, state := StateFailed))
  }

  lemma Reports(b: State, n: nat, maxSteal: nat, w: nat, r: Request)
    requires Stage(b, n, maxSteal, w) && w > 0 && maxSteal >= 1 && |b.ws[w].free| == maxSteal
    requires r.id == w && r.state == StateIdle
    ensures StepTo(Back(b, w, maxSteal - 1, r), Decline(w, 0), Reported(b, w, maxSteal - 1, r))
  {
    assert NotBegun(b.ws[w], n, maxSteal, w, w);
    StepIs(Back(b, w, maxSteal - 1, r), Decline(w, 0), Reported(b, w, maxSteal - 1, r));
  }

  /** The parent takes note, and the stage of the next worker is reached. */
  lemma TakesNote(b: State, n: nat, maxSteal: nat, w: nat, r: Request, s: State, s1: State)
    requires Stage(b, n, maxSteal, w) && w > 0 && maxSteal >= 1 && |b.ws[w].free| == maxSteal && r.id == w
    requires s == Reported(b, w, maxSteal - 1, r)
    requires s1 == SetWorker(s, Parent(w), b.ws[Parent(w)].(
                               held := b.ws[Parent(w)].held + [r.(try := r.try + 1, state := StateFailed)],
                               left := b.ws[Parent(w)].left || w == 2 * Parent(w) + 1,
                               right := b.ws[Parent(w)].right || w != 2 * Parent(w) + 1))
    ensures StepTo(s, Receive(Parent(w)), s1) && Stage(s1, n, maxSteal, w - 1)
  {
    var p := Parent(w);
    assert NotBegun(b.ws[p], n, maxSteal, p, w);
    assert s.ws[p].mail[1..] == [];
    assert Apply(s, Receive(p)).ws == s1.ws;
    StepIs(s, Receive(p), s1);
    forall v: nat | v <= w - 1 ensures NotBegun(s1.ws[v], n, maxSteal, v, w - 1) {
      assert NotBegun(b.ws[v], n, maxSteal, v, w);
    }
  }

  /** From the stage of one worker to that of the next */
  lemma NextStage(b: State, n: nat, maxSteal: nat, w: nat) returns (steps: seq<Step>, s1: State)
    requires Stage(b, n, maxSteal, w) && w > 0 && maxSteal >= 1
    ensures Leads(StepTo, b, steps, s1) && Stage(s1, n, maxSteal, w - 1)
  {
    var p := Parent(w);
    var before, r := HasLast(b, n, maxSteal, w);
    var back, s := Back(b, w, maxSteal - 1, r), Reported(b, w, maxSteal - 1, r);
    Reports(b, n, maxSteal, w, r);
    ThenStep(StepTo, b, before, back, Decline(w, 0), s);
    s1 := SetWorker(s, p, b.ws[p].(held := b.ws[p].held + [r.(try := r.try + 1, state := StateFailed)],
                                   left := b.ws[p].left || w == 2 * p + 1, right := b.ws[p].right || w != 2 * p + 1));
    TakesNote(b, n, maxSteal, w, r, s, s1);
    ThenStep(StepTo, b, before + [Decline(w, 0)], s, Receive(p), s1);
    steps := before + [Decline(w, 0)] + [Receive(p)];
  }

  lemma {:induction false} StagesLeadTo(b: State, n: nat, maxSteal: nat, w: nat) returns (steps: seq<Step>, s1: State)
    requires Stage(b, n, maxSteal, w) && n > 1 && maxSteal >= 1
    ensures Leads(StepTo, b, steps, s1) && s1.quiescent
    decreases w
  {
    if w > 0 {
      var first, mid := NextStage(b, n, maxSteal, w);
      var rest;
      rest, s1 := StagesLeadTo(mid, n, maxSteal, w - 1);
      LeadsOn(StepTo, b, first, mid, rest, s1);
      steps := first + rest;
    } else {
      var before, r := HasLast(b, n, maxSteal, 0);
      s1 := Detects(b, n, maxSteal, r);
      ThenStep(StepTo, b, before, Back(b, 0, maxSteal - 1, r), Decline(0, 0), s1);
      steps := before + [Decline(0, 0)];
    }
  }

  lemma StartIsStage(n: nat, maxSteal: nat)
    requires n >= 1 && maxSteal >= 1
    ensures Stage(Start(n, maxSteal), n, maxSteal, n - 1)
  {
    forall v: nat | v <= n - 1 ensures NotBegun(Start(n, maxSteal).ws[v], n, maxSteal, v, n - 1) {
      assert Start(n, maxSteal).ws[v] == NewWorker(n, maxSteal, v);
    }
  }

  lemma LoneWorker(maxSteal: nat)
    requires maxSteal >= 1
    ensures StepTo(Start(1, maxSteal), SoloBarrier, Start(1, maxSteal).(quiescent := true))
  {
    StepIs(Start(1, maxSteal), SoloBarrier, Start(1, maxSteal).(quiescent := true));
  }

  /** For any number of workers and any MAXSTEAL there is a run in which termination is detected. */
  lemma DetectionHappens(n: nat, maxSteal: nat) returns (states: seq<State>, steps: seq<Step>)
    requires n >= 1 && maxSteal >= 1
    ensures IsRun(n, maxSteal, states, steps) && states[|steps|].quiescent
  {
    var s, s1 := Start(n, maxSteal), Start(n, maxSteal);
    if n == 1 {
      s1 := s.(quiescent := true);
      steps := [SoloBarrier];
      LoneWorker(maxSteal);
      OneStep(StepTo, s, SoloBarrier, s1);
    } else {
      StartIsStage(n, maxSteal);
      steps, s1 := StagesLeadTo(s, n, maxSteal, n - 1);
    }
    states := StatesOf(StepTo, s, steps, s1);
    forall i | 0 <= i < |steps| ensures Enabled(states[i], steps[i]) && states[i + 1] == Apply(states[i], steps[i]) {
      StepIs(states[i], steps[i], states[i + 1]);
    }
  }
}
