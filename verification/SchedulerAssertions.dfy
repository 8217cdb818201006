/** The assertions of src/runtime.c, and the capacities of its channels and queues, hold in
    every reachable state; and a steal request's trip is bounded. */
module SchedulerAssertions {
  import opened Common
  import opened WorkerTree
  import opened Scheduler
  import opened SchedulerInvariant
  import opened SchedulerFacts
  import opened SchedulerMoves
  import opened SchedulerTheorems

  // Capacities

  function AllTokens(n: nat, maxSteal: nat): set<Token>
  {
    set w, k | w in AllWorkers(n) && k in AllWorkers(maxSteal) :: (w, k)
  }

  function Row(w: nat, maxSteal: nat): set<Token>
  {
    set k | k in AllWorkers(maxSteal) :: (w, k)
  }

  lemma WorkersGrow(n: nat)
    requires n > 0
    ensures AllWorkers(n) == AllWorkers(n - 1) + {n - 1}
  {
  }

  lemma TokensGrow(n: nat, maxSteal: nat)
    requires n > 0
    ensures AllTokens(n, maxSteal) == AllTokens(n - 1, maxSteal) + Row(n - 1, maxSteal)
    ensures AllTokens(n - 1, maxSteal) !! Row(n - 1, maxSteal)
  {
  }

  lemma {:induction false} AllTokensSize(n: nat, maxSteal: nat)
    ensures |AllTokens(n, maxSteal)| == maxSteal * n
  {
    if n == 0 {
      assert AllTokens(n, maxSteal) == {};
    } else {
      AllTokensSize(n - 1, maxSteal);
      RowSize(n - 1, maxSteal);
      TokensGrow(n, maxSteal);
      assert maxSteal * n == maxSteal * (n - 1) + maxSteal;
    }
  }

  lemma {:induction false} RowSize(w: nat, maxSteal: nat)
    ensures |Row(w, maxSteal)| == maxSteal
  {
    var row := Row(w, maxSteal);
    if maxSteal == 0 {
      assert row == {};
    } else {
      RowSize(w, maxSteal - 1);
      WorkersGrow(maxSteal);
      assert row == Row(w, maxSteal - 1) + {(w, maxSteal - 1)};
    }
  }

  function TokensOf(q: seq<Request>): set<Token>
  {
    set r | r in q :: TokenOf(r)
  }

  lemma {:induction false} DistinctTokens(q: seq<Request>)
    requires forall i, j :: 0 <= i < j < |q| ==> TokenOf(q[i]) != TokenOf(q[j])
    ensures |TokensOf(q)| == |q|
  {
    if q != [] {
      var last := |q| - 1;
      DistinctTokens(q[..last]);
      var t := TokenOf(q[last]);
      assert TokensOf(q) == TokensOf(q[..last]) + {t} by {
        forall r | r in q ensures TokenOf(r) in TokensOf(q[..last]) + {t} {
          assert r in q[..last] || r == q[last];
        }
        assert q[last] in q;
      }
      assert t !in TokensOf(q[..last]);
    }
  }

  /** While some channel is not in the request channel of `v`, that channel has room. */
  lemma MailHasRoom(s: State, g: map<Token, Place>, v: nat, t: Token)
    requires Inv(s, g) && v < |s.ws| && t in g && !(g[t].Mail? && g[t].v == v)
    ensures |s.ws[v].mail| < s.maxSteal * |s.ws|
  {
    var q := s.ws[v].mail;
    var n := |s.ws|;
    assert AgreesAt(s, g, v);
    forall i, j | 0 <= i < j < |q| ensures TokenOf(q[i]) != TokenOf(q[j]) {
      assert q[i] in q && q[j] in q;
    }
    DistinctTokens(q);
    AllTokensSize(n, s.maxSteal);
    forall e | e in TokensOf(q) + {t} ensures e in AllTokens(n, s.maxSteal) {
      assert e in g;
      assert IsWorker(n, e.0) && IsWorker(s.maxSteal, e.1);
    }
    assert t !in TokensOf(q);
    SubsetSize(TokensOf(q) + {t}, AllTokens(n, s.maxSteal));
  }

  lemma HeldHasRoom(s: State, g: map<Token, Place>, w: nat)
    requires Inv(s, g) && CanReceive(s, w) && s.ws[w].mail[0].state == StateFailed
    ensures |s.ws[w].held| < 2
  {
    var held := s.ws[w].held;
    var c := s.ws[w].mail[0].id;
    FailedIsNew(s, g, w);
    assert WorkerOkAt(s, g, w);
    forall e | e in Ids(held) ensures e in {2 * w + 1, 2 * w + 2} - {c} {
      var r :| r in held && r.id == e;
      HeldIsFailed(s, g, w, r);
    }
    SubsetSize(Ids(held), {2 * w + 1, 2 * w + 2} - {c});
  }

  lemma FlagsHold(s: State, g: map<Token, Place>, w: nat)
    requires Inv(s, g) && w < |s.ws|
    ensures FlagsOk(|s.ws|, s.ws[w], w)
  {
    assert WorkerOkAt(s, g, w);
  }

  lemma BoxIsEmpty(s: State, g: map<Token, Place>, r: Request)
    requires Inv(s, g) && Live(s, r)
    ensures r.id < |s.ws| && r.chan < |s.ws[r.id].boxes| && s.ws[r.id].boxes[r.chan] == []
  {
    LiveHasPlace(s, g, r);
    assert AgreesAt(s, g, r.id);
  }

  lemma HeldIsFlagged(s: State, g: map<Token, Place>, w: nat, r: Request)
    requires Inv(s, g) && w < |s.ws| && r in s.ws[w].held
    ensures (r.id == 2 * w + 1 && s.ws[w].left) || (r.id == 2 * w + 2 && s.ws[w].right)
  {
    HeldIsFailed(s, g, w, r);
    FlagsHold(s, g, w);
    assert r.id in Ids(s.ws[w].held);
  }

  lemma HeldHasEmptyBox(s: State, g: map<Token, Place>, w: nat, r: Request)
    requires Inv(s, g) && w < |s.ws| && r in s.ws[w].held
    ensures r.id < |s.ws| && r.chan < |s.ws[r.id].boxes| && s.ws[r.id].boxes[r.chan] == []
  {
    assert Live(s, r);
    BoxIsEmpty(s, g, r);
  }

  lemma FailedIsUnflagged(s: State, g: map<Token, Place>, w: nat)
    requires Inv(s, g) && CanReceive(s, w) && s.ws[w].mail[0].state == StateFailed
    ensures var c := s.ws[w].mail[0].id;
            (c == 2 * w + 1 && !s.ws[w].left) || (c == 2 * w + 2 && !s.ws[w].right)
  {
    FailedIsNew(s, g, w);
    FlagsHold(s, g, w);
  }

  // The assertions, step by step

  /** try_send_steal_request: a channel is free, next_victim chooses a worker, itself only for
      lack of others, and the victim's request channel has room. */
  lemma SendAssertions(s: State, w: nat, half: bool, victim: nat)
    requires Reachable(s) && Ready(s, w) && s.ws[w].requested < s.maxSteal
    ensures s.ws[w].free != []
    ensures IsNextVictim(|s.ws|, s.ws[w], w, FreshRequest(s, w, half), victim) ==>
              && victim < |s.ws|
              && (victim == w ==> |s.ws| == 1 || (w == 0 && s.ws[w].left && s.ws[w].right))
              && |s.ws[victim].mail| < s.maxSteal * |s.ws|
  {
    CountersBalance(s, w);
    ReachableIsSafe(s);
    var g :| Inv(s, g);
    assert WorkerOkAt(s, g, w) && AgreesAt(s, g, w);
    if IsNextVictim(|s.ws|, s.ws[w], w, FreshRequest(s, w, half), victim) {
      FirstHop(|s.ws|, s.ws[w], w, FreshRequest(s, w, half), victim);
      var k := s.ws[w].free[|s.ws[w].free| - 1];
      assert k in s.ws[w].free;
      MailHasRoom(s, g, victim, (w, k));
    }
  }

  /** The idle loops of schedule and RT_barrier: the deque is empty; and once the worker has tried to
      send, as it does before the loop and after each failed look for a task, some request of its
      own is out, or it waits for its parent with all of them used up. */
  lemma IdleAssertions(s: State, w: nat, half: bool, victim: nat)
    requires Reachable(s) && w < |s.ws| && s.ws[w].mode == Idle
    ensures s.ws[w].deque == []
    ensures s.ws[w].waiting || s.ws[w].requested >= s.maxSteal ==> s.ws[w].requested > 0
    ensures CanSend(s, w, half, victim) ==>
              DoSend(s, w, half, victim).ws[w].requested > 0 && DoSend(s, w, half, victim).ws[w].deque == []
  {
    CountersBalance(s, w);
    ReachableIsSafe(s);
    var g :| Inv(s, g);
    assert WorkerOkAt(s, g, w);
  }

  /** RECV_REQ: a failed request comes from a child whose flag is not yet set, and the queue of
      work-sharing requests has room for it. */
  lemma ReceiveAssertions(s: State, w: nat)
    requires Reachable(s) && CanReceive(s, w) && s.ws[w].mail[0].state == StateFailed
    ensures var c := s.ws[w].mail[0].id;
            || (c == 2 * w + 1 && !s.ws[w].left)
            || (c == 2 * w + 2 && !s.ws[w].right)
    ensures |s.ws[w].held| < 2
  {
    ReachableIsSafe(s);
    var g :| Inv(s, g);
    FailedIsUnflagged(s, g, w);
    HeldHasRoom(s, g, w);
  }

  /** handle_steal_request and split_loop: the thief's task channel has room; a worker's own
      request is never a failed one; FORGET_REQ finds a request to take back and room on the
      channel stack. */
  lemma ServeAssertions(s: State, w: nat)
    requires Reachable(s) && Serving(s, w)
    ensures var r := s.ws[w].hand.value;
            && r.state != StateFailed
            && r.id < |s.ws| && r.chan < |s.ws[r.id].boxes| && s.ws[r.id].boxes[r.chan] == []
            && (r.id == w ==> s.ws[w].requested > 0 && |s.ws[w].free| < s.maxSteal)
  {
    var r := s.ws[w].hand.value;
    ReachableIsSafe(s);
    var g :| Inv(s, g);
    HandIsOk(s, g, w);
    assert Live(s, r);
    RequestsAccountedFor(s, r);
    if r.id == w {
      assert AgreesAt(s, g, w) && WorkerOkAt(s, g, w);
      FreeCount(s.ws[w], w, s.maxSteal, g, r.chan);
    }
  }

  /** decline_steal_request on the way to giving up: the worker is idle, all other requests
      have been dropped, it does not wait yet, worker 0 has not detected termination before,
      and the parent's request channel has room. That it does not wait yet is a guard of the
      step; LastMeansIdle is what makes the guard hold where the code only asserts it. */
  lemma GiveUpAssertions(s: State, w: nat)
    requires Reachable(s) && Serving(s, w) && GivesUp(s, w) && LastRequest(s, w)
    ensures s.ws[w].mode == Idle && WithoutWork(s.ws[w])
    ensures s.ws[w].dropped == s.maxSteal - 1 && !s.ws[w].waiting
    ensures w == 0 ==> !s.quiescent
    ensures w > 0 ==> |s.ws[Parent(w)].mail| < s.maxSteal * |s.ws|
  {
    ReachableIsSafe(s);
    var g :| Inv(s, g);
    LastMeansIdle(s, g, w);
    HandIsOk(s, g, w);
    assert AgreesAt(s, g, w);
    if w > 0 {
      MailHasRoom(s, g, Parent(w), TokenOf(s.ws[w].hand.value));
    }
  }

  /** decline_steal_request when it sends the request on: the attempts are bounded, the next
      victim is a worker, only worker 0 (or a lone worker) selects itself, and then the request
      is one that it sent while working; the victim's request channel has room. */
  lemma ForwardAssertions(s: State, w: nat, victim: nat)
    requires Reachable(s) && Serving(s, w) && !GivesUp(s, w)
    requires IsNextVictim(|s.ws|, s.ws[w], w, Resent(s, w), victim)
    ensures s.ws[w].hand.value.try < |s.ws|
    ensures var r := Resent(s, w);
            r.try <= |s.ws| - 1 && (r.try == |s.ws| - 1 || (r.try == 0 && r.id == w) || (r.try > 0 && r.id != w))
    ensures victim < |s.ws| && |s.ws[victim].mail| < s.maxSteal * |s.ws|
    ensures victim == w ==> s.ws[w].hand.value.id == w && Declined(s, w).state == StateWorking && w == 0
  {
    ReachableIsSafe(s);
    var g :| Inv(s, g);
    var r := s.ws[w].hand.value;
    HandIsOk(s, g, w);
    HandTravels(s, g, w);
    assert WorkerOkAt(s, g, w);
    if r.id == w {
      FirstHop(|s.ws|, s.ws[w], w, Resent(s, w), victim);
    } else {
      NextHop(|s.ws|, s.ws[w], w, r, Resent(s, w), victim);
    }
    MailHasRoom(s, g, victim, TokenOf(r));
  }

  /** share_work: the request at hand is a child's, the child's flag is set, and its task
      channel has room. */
  lemma ShareAssertions(s: State, w: nat)
    requires Reachable(s) && w < |s.ws| && s.ws[w].held != []
    ensures var r := s.ws[w].held[0];
            && ((r.id == 2 * w + 1 && s.ws[w].left) || (r.id == 2 * w + 2 && s.ws[w].right))
            && r.id < |s.ws| && r.chan < |s.ws[r.id].boxes| && s.ws[r.id].boxes[r.chan] == []
  {
    ReachableIsSafe(s);
    var g :| Inv(s, g);
    HeldIsFlagged(s, g, w, s.ws[w].held[0]);
    HeldHasEmptyBox(s, g, w, s.ws[w].held[0]);
  }

  /** RECV_TASK: the assertions on the counters before and after a task arrives. */
  lemma ReceiveTaskAssertions(s: State, w: nat, k: nat)
    requires Reachable(s) && CanReceiveTask(s, w, k)
    ensures |s.ws[w].free| < s.maxSteal
    ensures s.ws[w].waiting ==> s.ws[w].requested == s.maxSteal && |s.ws[w].free| + 1 == s.maxSteal
    ensures !s.ws[w].waiting && s.ws[w].dropped > 0 ==> s.ws[w].requested > s.ws[w].dropped
    ensures var y := DoReceiveTask(s, w, k).ws[w]; 0 <= y.requested < s.maxSteal && y.dropped == 0
  {
    ReachableIsSafe(s);
    var g :| Inv(s, g);
    assert AgreesAt(s, g, w) && WorkerOkAt(s, g, w);
    FreeCount(s.ws[w], w, s.maxSteal, g, k);
  }

  // The trip of a steal request

  /** Passing on another worker's request, even on behalf of a sleeper, counts one attempt, and
      either sends the request home or strictly shrinks its victims, of which the receiver is
      one and the thief is none. */
  lemma ForwardShrinksVictims(s: State, w: nat, victim: nat)
    requires Reachable(s) && CanDecline(s, w, victim) && s.ws[w].hand.value.id != w
    ensures var r := s.ws[w].hand.value;
            var r1 := Routed(|s.ws|, s.ws[w], w, Resent(s, w));
            && r1.id == r.id && r1.try == r.try + 1 && r1.id !in r1.victims
            && (victim == r.id || (r1.victims < r.victims && victim in r1.victims && victim != w))
  {
    ReachableIsSafe(s);
    var g :| Inv(s, g);
    HandTravels(s, g, w);
    NextHop(|s.ws|, s.ws[w], w, s.ws[w].hand.value, Resent(s, w), victim);
  }

  /** So a request has been passed on at most n - 1 times since its thief last sent it, and
      what remains of its victims bounds the hops that are left. */
  lemma TripIsBounded(s: State, r: Request)
    requires Reachable(s) && Live(s, r) && r.state != StateFailed
    ensures r.try <= |s.ws| - 1
    ensures forall v: nat :: v < |s.ws| && v != r.id && (r in s.ws[v].mail || s.ws[v].hand == Some(r)) ==>
              r.try + |r.victims| <= |s.ws| - 1 && r.id !in r.victims && r.victims <= AllWorkers(|s.ws|)
    ensures forall v: nat :: v < |s.ws| && v != r.id && r in s.ws[v].mail ==> v in r.victims
  {
    ReachableIsSafe(s);
    var g :| Inv(s, g);
    LiveHasPlace(s, g, r);
    assert PlaceOkAt(s, g, TokenOf(r));
    forall v: nat | v < |s.ws| && (r in s.ws[v].mail || s.ws[v].hand == Some(r))
      ensures g[TokenOf(r)] == Mail(v, r) || g[TokenOf(r)] == Hand(v, r)
      ensures r in s.ws[v].mail ==> g[TokenOf(r)] == Mail(v, r)
    {
      assert AgreesAt(s, g, v);
    }
  }
}
