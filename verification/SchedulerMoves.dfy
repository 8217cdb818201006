/** Every step that moves a channel keeps the invariant. */
module SchedulerMoves {
  import opened Common
  import opened WorkerTree
  import opened Scheduler
  import opened SchedulerInvariant
  import opened SchedulerLinks
  import opened SchedulerFacts

  // What stays true of the places and workers that a step does not touch

  /** What `PlaceOk` reads of a worker. */
  predicate SameStanding(x: Worker, y: Worker)
  {
    x.waiting == y.waiting && x.phase == y.phase && x.owes == y.owes && x.left == y.left && x.right == y.right
  }

  /** What `WorkerOk` reads of a worker. */
  predicate SameDuties(x: Worker, y: Worker)
  {
    && SameStanding(x, y)
    && x.requested == y.requested && x.dropped == y.dropped && x.free == y.free && x.hand == y.hand
    && x.held == y.held && x.mode == y.mode && x.deque == y.deque && x.stack == y.stack
  }

  predicate SameStandings(s: State, s1: State)
  {
    |s1.ws| == |s.ws| && forall u: nat | u < |s.ws| :: SameStanding(s.ws[u], s1.ws[u])
  }

  lemma PlacesFrame(s: State, s1: State, g: map<Token, Place>, g1: map<Token, Place>, t: Token, p: Place)
    requires Inv(s, g) && t in g && SameStandings(s, s1) && t.0 < |s.ws| && PlaceOk(s1, t, p) && g1 == g[t := p]
    ensures forall q: Token :: PlaceOkAt(s1, g1, q)
  {
    forall q: Token ensures PlaceOkAt(s1, g1, q) {
      assert PlaceOkAt(s, g, q);
    }
  }

  lemma IdleFrame(g: map<Token, Place>, t: Token, p: Place, w: nat, maxSteal: nat)
    requires t in g && (t.0 != w || MarkedIdle(g[t]) == MarkedIdle(p))
    ensures IdleChannels(g[t := p], w, maxSteal) == IdleChannels(g, w, maxSteal)
  {
  }

  lemma IdleShrinks(g: map<Token, Place>, t: Token, p: Place, w: nat, maxSteal: nat)
    requires t in g && (t.0 == w ==> !MarkedIdle(p) && t.1 < maxSteal)
    ensures |IdleChannels(g[t := p], w, maxSteal)| <= |IdleChannels(g, w, maxSteal)|
    ensures t.0 == w && MarkedIdle(g[t]) ==>
              |IdleChannels(g[t := p], w, maxSteal)| + 1 == |IdleChannels(g, w, maxSteal)|
  {
    var a, b := IdleChannels(g[t := p], w, maxSteal), IdleChannels(g, w, maxSteal);
    SubsetSize(a, b);
    if t.0 == w && MarkedIdle(g[t]) {
      assert a == b - {t.1};
    }
  }

  predicate NotMoreIdle(g: map<Token, Place>, t: Token, p: Place)
    requires t in g
  {
    MarkedIdle(p) ==> MarkedIdle(g[t])
  }

  lemma WorkerFrame(n: nat, x: Worker, y: Worker, w: nat, maxSteal: nat, g: map<Token, Place>, t: Token, p: Place)
    requires WorkerOk(n, x, w, maxSteal, g) && SameDuties(x, y) && t in g && t.1 < maxSteal
    requires t.0 != w || NotMoreIdle(g, t, p)
    ensures WorkerOk(n, y, w, maxSteal, g[t := p])
  {
    if t.0 != w || MarkedIdle(g[t]) == MarkedIdle(p) {
      IdleFrame(g, t, p, w, maxSteal);
    } else {
      IdleShrinks(g, t, p, w, maxSteal);
    }
  }

  lemma WorkersFrame(s: State, s1: State, g: map<Token, Place>, g1: map<Token, Place>, w: nat, t: Token, p: Place)
    requires Inv(s, g) && t in g && g1 == g[t := p] && w < |s.ws| && (t.0 == w || NotMoreIdle(g, t, p))
    requires s1.maxSteal == s.maxSteal && |s1.ws| == |s.ws|
    requires forall u: nat | u < |s.ws| && u != w :: SameDuties(s.ws[u], s1.ws[u])
    requires WorkerOk(|s.ws|, s1.ws[w], w, s.maxSteal, g1)
    ensures forall u: nat :: WorkerOkAt(s1, g1, u)
  {
    forall u: nat ensures WorkerOkAt(s1, g1, u) {
      assert WorkerOkAt(s, g, u);
      if u < |s.ws| && u != w {
        WorkerFrame(|s.ws|, s.ws[u], s1.ws[u], u, s.maxSteal, g, t, p);
      }
    }
  }

  // Facts about the request in hand and about an awake worker

  lemma HandIsOk(s: State, g: map<Token, Place>, w: nat)
    requires Inv(s, g) && Serving(s, w)
    ensures var r := s.ws[w].hand.value;
            && TokenOf(r) in g && g[TokenOf(r)] == Hand(w, r) && r.chan < s.maxSteal
            && r.id < |s.ws| && r.state != StateFailed && !s.ws[r.id].waiting && s.ws[r.id].phase == Awake
  {
    var r := s.ws[w].hand.value;
    assert AgreesAt(s, g, w);
    assert s.ws[w].hand == Some(r);
    assert PlaceOkAt(s, g, TokenOf(r));
    assert WorkerOkAt(s, g, r.id);
  }

  lemma HandTravels(s: State, g: map<Token, Place>, w: nat)
    requires Inv(s, g) && Serving(s, w)
    ensures InHandOk(|s.ws|, s.ws[w], w, s.ws[w].hand.value)
  {
    HandIsOk(s, g, w);
    assert PlaceOkAt(s, g, TokenOf(s.ws[w].hand.value));
  }

  lemma AwakeMeansBusy(s: State, g: map<Token, Place>, w: nat)
    requires Inv(s, g) && 0 < w < |s.ws| && s.ws[w].phase == Awake
    ensures !s.quiescent
  {
    if s.quiescent {
      OthersSleep(s, g, w);
    }
  }

  /** In the branch where a worker gives up its last request it is idle, it has dropped all
      others, and none of its task channels holds anything. */
  lemma LastMeansIdle(s: State, g: map<Token, Place>, w: nat)
    requires Inv(s, g) && Serving(s, w) && GivesUp(s, w) && LastRequest(s, w)
    ensures s.ws[w].mode == Idle && s.ws[w].deque == [] && s.ws[w].stack == []
    ensures s.ws[w].dropped == s.maxSteal - 1
    ensures forall k: nat | k < s.maxSteal && k != s.ws[w].hand.value.chan :: (w, k) in g && g[(w, k)] == Free
  {
    var x := s.ws[w];
    var r := x.hand.value;
    HandIsOk(s, g, w);
    assert AgreesAt(s, g, w) && WorkerOkAt(s, g, w);
    FreeCount(x, w, s.maxSteal, g, r.chan);
    assert r.state == StateIdle ==> r.chan in IdleChannels(g, w, s.maxSteal);
  }

  // try_send_steal_request

  lemma SendRequest(s: State, g: map<Token, Place>, w: nat, y: Worker, victim: nat, r: Request)
    requires Inv(s, g) && w < |s.ws| && victim < |s.ws| && s.ws[w].free != [] && !s.ws[w].waiting
    requires s.ws[w].requested < s.maxSteal
    requires y == s.ws[w].(free := s.ws[w].free[..|s.ws[w].free| - 1], requested := s.ws[w].requested + 1)
    requires TokenOf(r) == (w, s.ws[w].free[|s.ws[w].free| - 1]) && MailedOk(|s.ws|, r, victim)
    requires r.state == if s.ws[w].mode == Idle then StateIdle else StateWorking
    ensures Inv(PutMail(SetWorker(s, w, y), victim, r), g[TokenOf(r) := Mail(victim, r)])
  {
    var t, p := TokenOf(r), Mail(victim, r);
    var s1 := PutMail(SetWorker(s, w, y), victim, r);
    var g1 := g[t := p];
    FreeToMail(s, g, w, y, victim, r);
    assert WorkerOkAt(s, g, w);
    if y.mode == Working {
      IdleFrame(g, t, p, w, s.maxSteal);
    }
    WorkersFrame(s, s1, g, g1, w, t, p);
    PlacesFrame(s, s1, g, g1, t, p);
  }

  lemma FreshRequestOk(s: State, g: map<Token, Place>, w: nat, half: bool, victim: nat)
    requires Inv(s, g) && CanSend(s, w, half, victim)
    ensures MailedOk(|s.ws|, Routed(|s.ws|, s.ws[w], w, FreshRequest(s, w, half)), victim)
  {
    assert WorkerOkAt(s, g, w);
    FirstHop(|s.ws|, s.ws[w], w, FreshRequest(s, w, half), victim);
  }

  lemma SendKeeps(s: State, g: map<Token, Place>, w: nat, half: bool, victim: nat)
    requires Inv(s, g) && CanSend(s, w, half, victim)
    ensures Safe(DoSend(s, w, half, victim))
  {
    var x := s.ws[w];
    var r := Routed(|s.ws|, x, w, FreshRequest(s, w, half));
    FreshRequestOk(s, g, w, half, victim);
    SendRequest(s, g, w, x.(free := x.free[..|x.free| - 1], requested := x.requested + 1), victim, r);
  }

  // RECV_REQ

  lemma ReceivedOk(s: State, g: map<Token, Place>, w: nat, r: Request)
    requires Inv(s, g) && CanReceive(s, w) && r == s.ws[w].mail[0] && r.state != StateFailed
    ensures TokenOf(r) in g && g[TokenOf(r)] == Mail(w, r) && TokenOf(r).0 < |s.ws|
    ensures PlaceOk(DoReceive(s, w), TokenOf(r), Hand(w, r))
  {
    assert AgreesAt(s, g, w) && r in s.ws[w].mail;
    assert PlaceOkAt(s, g, TokenOf(r));
    assert r.id != w ==> w in r.victims * ({w} + Flagged(|s.ws|, s.ws[w], w));
  }

  lemma ReceiveKeeps(s: State, g: map<Token, Place>, w: nat)
    requires Inv(s, g) && CanReceive(s, w) && s.ws[w].mail[0].state != StateFailed
    ensures Safe(DoReceive(s, w))
  {
    var x := s.ws[w];
    var r := x.mail[0];
    var t, p := TokenOf(r), Hand(w, r);
    var s1 := DoReceive(s, w);
    var g1 := g[t := p];
    ReceivedOk(s, g, w, r);
    MailToHand(s, g, w, s1.ws[w]);
    assert WorkerOkAt(s, g, w);
    IdleFrame(g, t, p, w, s.maxSteal);
    WorkersFrame(s, s1, g, g1, w, t, p);
    PlacesFrame(s, s1, g, g1, t, p);
    assert Inv(s1, g1);
  }

  lemma ReceivedForOk(s: State, g: map<Token, Place>, w: nat, v: nat, r: Request)
    requires Inv(s, g) && CanReceiveFor(s, w, v) && r == s.ws[v].mail[0]
    ensures w < v && TokenOf(r) in g && g[TokenOf(r)] == Mail(v, r) && TokenOf(r).0 < |s.ws|
    ensures PlaceOk(DoReceiveFor(s, w, v), TokenOf(r), Hand(w, r))
  {
    FlaggedSleeps(s, g, w, v);
    SleeperMail(s, g, v);
    assert AgreesAt(s, g, v) && r in s.ws[v].mail;
    assert PlaceOkAt(s, g, TokenOf(r));
    assert v in r.victims * ({w} + Flagged(|s.ws|, s.ws[w], w));
  }

  lemma ReceiveForKeeps(s: State, g: map<Token, Place>, w: nat, v: nat)
    requires Inv(s, g) && CanReceiveFor(s, w, v)
    ensures Safe(DoReceiveFor(s, w, v))
  {
    var r := s.ws[v].mail[0];
    var t, p := TokenOf(r), Hand(w, r);
    var s1 := DoReceiveFor(s, w, v);
    var g1 := g[t := p];
    ReceivedForOk(s, g, w, v, r);
    MailToOtherHand(s, g, v, w);
    assert WorkerOkAt(s, g, w);
    IdleFrame(g, t, p, w, s.maxSteal);
    WorkersFrame(s, s1, g, g1, w, t, p);
    PlacesFrame(s, s1, g, g1, t, p);
    assert Inv(s1, g1);
  }

  /** A failed request comes from a child whose flag is not set yet. */
  lemma FailedIsNew(s: State, g: map<Token, Place>, w: nat)
    requires Inv(s, g) && CanReceive(s, w) && s.ws[w].mail[0].state == StateFailed
    ensures var r := s.ws[w].mail[0];
            && TokenOf(r) in g && g[TokenOf(r)] == Mail(w, r) && FailedOk(s, r, w)
            && r.id !in Ids(s.ws[w].held)
  {
    var r := s.ws[w].mail[0];
    assert AgreesAt(s, g, w);
    assert r in s.ws[w].mail;
    assert PlaceOkAt(s, g, TokenOf(r));
    if r.id in Ids(s.ws[w].held) {
      var h :| h in s.ws[w].held && h.id == r.id;
      HeldIsFailed(s, g, w, h);
      WaitingHasOne(s, g, r.id, r.chan, h.chan);
      assert false;
    }
  }

  lemma FailedWorker(s: State, g: map<Token, Place>, w: nat)
    requires Inv(s, g) && CanReceive(s, w) && s.ws[w].mail[0].state == StateFailed
    ensures var r := s.ws[w].mail[0];
            WorkerOk(|s.ws|, DoReceive(s, w).ws[w], w, s.maxSteal, g[TokenOf(r) := Held(w, r)])
  {
    var x := s.ws[w];
    var r := x.mail[0];
    FailedIsNew(s, g, w);
    assert WorkerOkAt(s, g, w);
    IdsAppend(x.held, r);
    IdleFrame(g, TokenOf(r), Held(w, r), w, s.maxSteal);
  }

  lemma FailedPlaces(s: State, g: map<Token, Place>, w: nat)
    requires Inv(s, g) && CanReceive(s, w) && s.ws[w].mail[0].state == StateFailed
    ensures var r := s.ws[w].mail[0];
            var g1 := g[TokenOf(r) := Held(w, r)];
            forall q: Token :: PlaceOkAt(DoReceive(s, w), g1, q)
  {
    var r := s.ws[w].mail[0];
    var s1 := DoReceive(s, w);
    var g1 := g[TokenOf(r) := Held(w, r)];
    FailedIsNew(s, g, w);
    forall q: Token ensures PlaceOkAt(s1, g1, q) {
      assert PlaceOkAt(s, g, q);
      if q in g {
        NoHand(s, g, w, q);
      }
    }
  }

  lemma NoHand(s: State, g: map<Token, Place>, w: nat, q: Token)
    requires Inv(s, g) && w < |s.ws| && s.ws[w].hand == None && q in g
    ensures !(g[q].Hand? && g[q].v == w)
  {
    assert AgreesAt(s, g, w) && PlaceOkAt(s, g, q);
  }

  lemma ReceiveFailedKeeps(s: State, g: map<Token, Place>, w: nat)
    requires Inv(s, g) && CanReceive(s, w) && s.ws[w].mail[0].state == StateFailed
    ensures Safe(DoReceive(s, w))
  {
    var r := s.ws[w].mail[0];
    var t, p := TokenOf(r), Held(w, r);
    var s1 := DoReceive(s, w);
    var g1 := g[t := p];
    FailedIsNew(s, g, w);
    FailedWorker(s, g, w);
    MailToHeld(s, g, w, s1.ws[w]);
    WorkersFrame(s, s1, g, g1, w, t, p);
    FailedPlaces(s, g, w);
    assert Inv(s1, g1);
  }

  // handle_steal_request

  lemma AnswerWith(s: State, g: map<Token, Place>, w: nat, y: Worker, b: seq<Task>)
    requires Inv(s, g) && Serving(s, w) && s.ws[w].mode == Working && b != []
    requires var r := s.ws[w].hand.value; r.id < |s.ws| && r.id != w && r.chan < |s.ws[r.id].boxes|
    requires exists d, k :: y == s.ws[w].(hand := None, deque := d, stack := k)
    requires !s.quiescent
    ensures Safe(PutBox(SetWorker(s, w, y), s.ws[w].hand.value.id, s.ws[w].hand.value.chan, b))
  {
    var r := s.ws[w].hand.value;
    var t := TokenOf(r);
    var s1 := PutBox(SetWorker(s, w, y), r.id, r.chan, b);
    var g1 := g[t := Box];
    HandIsOk(s, g, w);
    HandToBox(s, g, w, y, b);
    assert WorkerOkAt(s, g, w);
    IdleFrame(g, t, Box, w, s.maxSteal);
    WorkersFrame(s, s1, g, g1, w, t, Box);
    PlacesFrame(s, s1, g, g1, t, Box);
    assert Inv(s1, g1);
  }

  /** A worker that has tasks, or is running one, is at work, and then nothing is quiescent. */
  lemma BusyWorker(s: State, g: map<Token, Place>, w: nat)
    requires Inv(s, g) && w < |s.ws| && s.ws[w].phase == Awake
    requires s.ws[w].deque != [] || s.ws[w].stack != []
    ensures s.ws[w].mode == Working && !s.quiescent
  {
    assert WorkerOkAt(s, g, w);
    if w > 0 {
      AwakeMeansBusy(s, g, w);
    }
  }

  lemma AnswerKeeps(s: State, g: map<Token, Place>, w: nat)
    requires Inv(s, g) && CanAnswer(s, w)
    ensures Safe(DoAnswer(s, w))
  {
    var x := s.ws[w];
    var left := |x.deque| - LootSize(|x.deque|, x.hand.value.half);
    BusyWorker(s, g, w);
    AnswerWith(s, g, w, x.(hand := None, deque := x.deque[..left], stack := x.stack), x.deque[left..]);
  }

  lemma AnswerSplitKeeps(s: State, g: map<Token, Place>, w: nat, j: nat, at: int)
    requires Inv(s, g) && CanAnswerSplit(s, w, j, at)
    ensures Safe(DoAnswerSplit(s, w, j, at))
  {
    var x := s.ws[w];
    BusyWorker(s, g, w);
    AnswerWith(s, g, w, x.(hand := None, deque := x.deque, stack := CutStack(x.stack, j, at)),
               [x.stack[j].(cur := at)]);
  }

  // FORGET_REQ and the branches of decline_steal_request

  lemma GiveBack(s: State, g: map<Token, Place>, w: nat, y: Worker)
    requires Inv(s, g) && Serving(s, w) && s.ws[w].hand.value.id == w
    requires SameChannels(y, s.ws[w].(hand := None, free := s.ws[w].free + [s.ws[w].hand.value.chan]))
    requires SameStanding(s.ws[w], y) && y.deque == s.ws[w].deque && y.stack == s.ws[w].stack
    requires w == 0 && s.quiescent ==> y.mode == s.ws[w].mode
    requires WorkerOk(|s.ws|, y, w, s.maxSteal, g[TokenOf(s.ws[w].hand.value) := Free])
    ensures Inv(SetWorker(s, w, y), g[TokenOf(s.ws[w].hand.value) := Free])
  {
    var t := TokenOf(s.ws[w].hand.value);
    var s1 := SetWorker(s, w, y);
    var g1 := g[t := Free];
    HandIsOk(s, g, w);
    HandToFree(s, g, w, y);
    WorkersFrame(s, s1, g, g1, w, t, Free);
    PlacesFrame(s, s1, g, g1, t, Free);
  }

  lemma ForgetKeeps(s: State, g: map<Token, Place>, w: nat)
    requires Inv(s, g) && Serving(s, w) && s.ws[w].hand.value.id == w
    ensures Safe(DoForget(s, w))
  {
    var t := TokenOf(s.ws[w].hand.value);
    HandIsOk(s, g, w);
    assert WorkerOkAt(s, g, w) && AgreesAt(s, g, w);
    IdleShrinks(g, t, Free, w, s.maxSteal);
    GiveBack(s, g, w, DoForget(s, w).ws[w]);
    assert Inv(DoForget(s, w), g[t := Free]);
  }

  lemma DropKeeps(s: State, g: map<Token, Place>, w: nat)
    requires Inv(s, g) && Serving(s, w) && GivesUp(s, w) && !LastRequest(s, w)
    ensures Safe(DoDrop(s, w))
  {
    var t := TokenOf(s.ws[w].hand.value);
    HandIsOk(s, g, w);
    assert WorkerOkAt(s, g, w) && AgreesAt(s, g, w);
    FreeCount(s.ws[w], w, s.maxSteal, g, t.1);
    IdleShrinks(g, t, Free, w, s.maxSteal);
    GiveBack(s, g, w, DoDrop(s, w).ws[w]);
    assert Inv(DoDrop(s, w), g[t := Free]);
  }

  lemma DetectWorker(s: State, g: map<Token, Place>, y: Worker)
    requires Inv(s, g) && Serving(s, 0) && GivesUp(s, 0) && LastRequest(s, 0)
    requires y == DoDetect(s, 0).ws[0]
    ensures WorkerOk(|s.ws|, y, 0, s.maxSteal, g[TokenOf(s.ws[0].hand.value) := Free])
    ensures y.deque == [] && y.stack == [] && forall k :: 0 <= k < |y.boxes| ==> y.boxes[k] == []
  {
    var t := TokenOf(s.ws[0].hand.value);
    HandIsOk(s, g, 0);
    LastMeansIdle(s, g, 0);
    assert WorkerOkAt(s, g, 0) && AgreesAt(s, g, 0);
    var g1 := g[t := Free];
    assert IdleChannels(g1, 0, s.maxSteal) == {};
  }

  lemma DetectKeeps(s: State, g: map<Token, Place>)
    requires Inv(s, g) && Serving(s, 0) && GivesUp(s, 0) && LastRequest(s, 0)
    ensures Safe(DoDetect(s, 0))
  {
    var t := TokenOf(s.ws[0].hand.value);
    var s1 := DoDetect(s, 0);
    var g1 := g[t := Free];
    LastMeansIdle(s, g, 0);
    DetectWorker(s, g, s1.ws[0]);
    GiveBack(s, g, 0, s1.ws[0]);
    var s0 := SetWorker(s, 0, s1.ws[0]);
    Announce(s0, g1);
    assert s1 == s0.(quiescent := true);
  }

  lemma Announce(s: State, g: map<Token, Place>)
    requires Inv(s, g) && QuietOk(s.(quiescent := true))
    ensures Safe(s.(quiescent := true))
  {
    var s1 := s.(quiescent := true);
    LinkedSame(s, s1, g);
    forall q: Token ensures PlaceOkAt(s1, g, q) {
      assert PlaceOkAt(s, g, q);
    }
    forall u: nat ensures WorkerOkAt(s1, g, u) {
      assert WorkerOkAt(s, g, u);
    }
    assert Inv(s1, g);
  }

  lemma FailUpWorker(s: State, g: map<Token, Place>, w: nat)
    requires Inv(s, g) && Serving(s, w) && GivesUp(s, w) && LastRequest(s, w) && w > 0
    ensures var r := Declined(s, w).(state := StateFailed);
            WorkerOk(|s.ws|, s.ws[w].(hand := None, waiting := true, phase := Peeking(0)), w, s.maxSteal,
                     g[TokenOf(r) := Mail(Parent(w), r)])
  {
    LastMeansIdle(s, g, w);
    assert WorkerOkAt(s, g, w);
  }

  lemma FailUpPlaces(s: State, g: map<Token, Place>, w: nat, q: Token)
    requires Inv(s, g) && Serving(s, w) && GivesUp(s, w) && LastRequest(s, w) && w > 0
    ensures var r := Declined(s, w).(state := StateFailed);
            PlaceOkAt(DoFailUp(s, w), g[TokenOf(r) := Mail(Parent(w), r)], q)
  {
    LastMeansIdle(s, g, w);
    assert PlaceOkAt(s, g, q);
    if q in g && q.0 == w && q.1 != s.ws[w].hand.value.chan {
      assert g[q] == Free;
    }
  }

  lemma FailUpKeeps(s: State, g: map<Token, Place>, w: nat)
    requires Inv(s, g) && Serving(s, w) && GivesUp(s, w) && LastRequest(s, w) && w > 0
    ensures Safe(DoFailUp(s, w))
  {
    var r := Declined(s, w).(state := StateFailed);
    var t, p := TokenOf(r), Mail(Parent(w), r);
    var s1 := DoFailUp(s, w);
    var g1 := g[t := p];
    HandToMail(s, g, w, s.ws[w].(hand := None, waiting := true, phase := Peeking(0)), Parent(w), r);
    FailUpWorker(s, g, w);
    WorkersFrame(s, s1, g, g1, w, t, p);
    forall q: Token ensures PlaceOkAt(s1, g1, q) {
      FailUpPlaces(s, g, w, q);
    }
    assert Inv(s1, g1);
  }

  lemma Forwarded(s: State, g: map<Token, Place>, w: nat, victim: nat)
    requires Inv(s, g) && Serving(s, w) && victim < |s.ws|
    requires IsNextVictim(|s.ws|, s.ws[w], w, Resent(s, w), victim)
    ensures MailedOk(|s.ws|, Routed(|s.ws|, s.ws[w], w, Resent(s, w)), victim)
  {
    HandTravels(s, g, w);
    assert WorkerOkAt(s, g, w);
    if s.ws[w].hand.value.id == w {
      FirstHop(|s.ws|, s.ws[w], w, Resent(s, w), victim);
    } else {
      NextHop(|s.ws|, s.ws[w], w, s.ws[w].hand.value, Resent(s, w), victim);
    }
  }

  lemma ForwardRequest(s: State, g: map<Token, Place>, w: nat, victim: nat, r: Request)
    requires Inv(s, g) && Serving(s, w) && victim < |s.ws|
    requires TokenOf(r) == TokenOf(s.ws[w].hand.value) && MailedOk(|s.ws|, r, victim)
    requires r.state == s.ws[w].hand.value.state
             || (s.ws[w].mode == Idle && r.id == w && r.state == StateIdle)
    ensures Safe(PutMail(SetWorker(s, w, s.ws[w].(hand := None)), victim, r))
  {
    var y := s.ws[w].(hand := None);
    var t, p := TokenOf(r), Mail(victim, r);
    var s1 := PutMail(SetWorker(s, w, y), victim, r);
    var g1 := g[t := p];
    HandIsOk(s, g, w);
    HandToMail(s, g, w, y, victim, r);
    assert WorkerOkAt(s, g, w);
    if y.mode == Working {
      IdleFrame(g, t, p, w, s.maxSteal);
    }
    WorkersFrame(s, s1, g, g1, w, t, p);
    PlacesFrame(s, s1, g, g1, t, p);
    assert Inv(s1, g1);
  }

  lemma ForwardKeeps(s: State, g: map<Token, Place>, w: nat, victim: nat)
    requires Inv(s, g) && Serving(s, w) && victim < |s.ws|
    requires IsNextVictim(|s.ws|, s.ws[w], w, Resent(s, w), victim)
    ensures Safe(DoForward(s, w, victim))
  {
    Forwarded(s, g, w, victim);
    ForwardRequest(s, g, w, victim, Routed(|s.ws|, s.ws[w], w, Resent(s, w)));
  }

  lemma DeclineKeeps(s: State, g: map<Token, Place>, w: nat, victim: nat)
    requires Inv(s, g) && CanDecline(s, w, victim)
    ensures Safe(DoDecline(s, w, victim))
  {
    if GivesUp(s, w) {
      if !LastRequest(s, w) {
        DropKeeps(s, g, w);
      } else if w == 0 {
        DetectKeeps(s, g);
      } else {
        FailUpKeeps(s, g, w);
      }
    } else if Declined(s, w).id == w && victim == w {
      ForgetKeeps(s, g, w);
    } else {
      ForwardKeeps(s, g, w, victim);
    }
  }

  // share_work

  lemma ShareWorker(s: State, g: map<Token, Place>, w: nat, d: seq<Task>, k: seq<Task>)
    requires Inv(s, g) && Ready(s, w) && s.ws[w].mode == Working && s.ws[w].held != []
    ensures var r := s.ws[w].held[0];
            && 0 < r.id < |s.ws| && Parent(r.id) == w && TokenOf(r) in g && g[TokenOf(r)] == Held(w, r)
            && WorkerOk(|s.ws|, Shared(s.ws[w], w).(deque := d, stack := k), w, s.maxSteal, g[TokenOf(r) := Box])
  {
    var x := s.ws[w];
    var r := x.held[0];
    assert r in x.held;
    HeldIsFailed(s, g, w, r);
    assert WorkerOkAt(s, g, w);
    IdsTail(x.held);
    IdleFrame(g, TokenOf(r), Box, w, s.maxSteal);
  }

  lemma SharePlaces(s: State, g: map<Token, Place>, w: nat, y: Worker, b: seq<Task>, q: Token)
    requires Inv(s, g) && Ready(s, w) && s.ws[w].mode == Working && s.ws[w].held != []
    requires var r := s.ws[w].held[0]; r.id < |s.ws| && r.id != w && r.chan < |s.ws[r.id].boxes| && w == Parent(r.id)
    requires y.waiting == s.ws[w].waiting && y.phase == s.ws[w].phase && y.owes == Some(s.ws[w].held[0].id)
    ensures var r := s.ws[w].held[0];
            PlaceOkAt(PutBox(SetWorker(s, w, y), r.id, r.chan, b), g[TokenOf(r) := Box], q)
  {
    var r := s.ws[w].held[0];
    assert PlaceOkAt(s, g, q);
    if q in g && q != TokenOf(r) && q.0 < |s.ws| {
      NoHand(s, g, w, q);
      OtherPlace(s, PutBox(SetWorker(s, w, y), r.id, r.chan, b), w, q, g[q]);
    }
  }

  lemma OtherPlace(s: State, s1: State, w: nat, q: Token, p: Place)
    requires |s1.ws| == |s.ws| && w < |s.ws| && q.0 < |s.ws| && PlaceOk(s, q, p)
    requires forall u: nat | u < |s.ws| && u != w :: SameStanding(s.ws[u], s1.ws[u])
    requires s1.ws[w].waiting == s.ws[w].waiting && s1.ws[w].phase == s.ws[w].phase && s.ws[w].owes == None
    requires !(p.Hand? && p.v == w)
    ensures PlaceOk(s1, q, p)
  {
  }

  lemma ShareWith(s: State, g: map<Token, Place>, w: nat, y: Worker, b: seq<Task>, d: seq<Task>, k: seq<Task>)
    requires Inv(s, g) && Ready(s, w) && s.ws[w].mode == Working && s.ws[w].held != [] && b != [] && !s.quiescent
    requires s.ws[w].held[0].id < |s.ws| && s.ws[w].held[0].chan < |s.ws[s.ws[w].held[0].id].boxes|
    requires y == Shared(s.ws[w], w).(deque := d, stack := k)
    ensures Safe(PutBox(SetWorker(s, w, y), s.ws[w].held[0].id, s.ws[w].held[0].chan, b))
  {
    var r := s.ws[w].held[0];
    var t := TokenOf(r);
    var s1 := PutBox(SetWorker(s, w, y), r.id, r.chan, b);
    var g1 := g[t := Box];
    ShareWorker(s, g, w, d, k);
    HeldToBox(s, g, w, y, b);
    WorkersFrame(s, s1, g, g1, w, t, Box);
    forall q: Token ensures PlaceOkAt(s1, g1, q) {
      SharePlaces(s, g, w, y, b, q);
    }
    assert Inv(s1, g1);
  }

  lemma ShareKeeps(s: State, g: map<Token, Place>, w: nat)
    requires Inv(s, g) && CanShare(s, w)
    ensures Safe(DoShare(s, w))
  {
    var x := s.ws[w];
    var left := |x.deque| - LootSize(|x.deque|, x.held[0].half);
    BusyWorker(s, g, w);
    var y := Shared(x, w).(deque := x.deque[..left], stack := x.stack);
    ShareWith(s, g, w, y, x.deque[left..], x.deque[..left], x.stack);
  }

  lemma ShareSplitKeeps(s: State, g: map<Token, Place>, w: nat, j: nat, at: int)
    requires Inv(s, g) && CanShareSplit(s, w, j, at)
    ensures Safe(DoShareSplit(s, w, j, at))
  {
    var x := s.ws[w];
    BusyWorker(s, g, w);
    var y := Shared(x, w).(deque := x.deque, stack := CutStack(x.stack, j, at));
    ShareWith(s, g, w, y, [x.stack[j].(cur := at)], x.deque, CutStack(x.stack, j, at));
  }

  // RECV_TASK

  lemma ReceiveTaskWorker(s: State, g: map<Token, Place>, w: nat, k: nat)
    requires Inv(s, g) && CanReceiveTask(s, w, k)
    ensures (w, k) in g && k < s.maxSteal && !s.quiescent
    ensures WorkerOk(|s.ws|, DoReceiveTask(s, w, k).ws[w], w, s.maxSteal, g[(w, k) := Free])
  {
    assert AgreesAt(s, g, w) && WorkerOkAt(s, g, w);
    FreeCount(s.ws[w], w, s.maxSteal, g, k);
    if w > 0 {
      AwakeMeansBusy(s, g, w);
    }
    var idle := IdleChannels(g[(w, k) := Free], w, s.maxSteal);
    RangeSize(s.maxSteal);
    forall e | e in idle ensures e in AllWorkers(s.maxSteal) - {k} {
      assert IsWorker(s.maxSteal, e);
    }
    SubsetSize(idle, AllWorkers(s.maxSteal) - {k});
    assert IsWorker(s.maxSteal, k);
  }

  lemma ReceiveTaskPlaces(s: State, g: map<Token, Place>, w: nat, k: nat, q: Token)
    requires Inv(s, g) && CanReceiveTask(s, w, k)
    ensures PlaceOkAt(DoReceiveTask(s, w, k), g[(w, k) := Free], q)
  {
    assert AgreesAt(s, g, w);
    assert PlaceOkAt(s, g, q);
    if s.ws[w].waiting && q in g && q.0 == w && g[q] != Free {
      WaitingHasOne(s, g, w, k, q.1);
    }
  }

  lemma ReceiveTaskKeeps(s: State, g: map<Token, Place>, w: nat, k: nat)
    requires Inv(s, g) && CanReceiveTask(s, w, k)
    ensures Safe(DoReceiveTask(s, w, k))
  {
    var t := (w, k);
    var s1 := DoReceiveTask(s, w, k);
    var g1 := g[t := Free];
    BoxToFree(s, g, w, k, s1.ws[w]);
    ReceiveTaskWorker(s, g, w, k);
    WorkersFrame(s, s1, g, g1, w, t, Free);
    forall q: Token ensures PlaceOkAt(s1, g1, q) {
      ReceiveTaskPlaces(s, g, w, k, q);
    }
    assert Inv(s1, g1);
  }
}
