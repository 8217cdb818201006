/** Consequences of the invariant that the step proofs and the theorems share. */
module SchedulerFacts {
  import opened WorkerTree
  import opened Scheduler
  import opened SchedulerInvariant

  // Counting

  lemma {:induction false} SetOfSeq<T>(q: seq<T>)
    requires NoDup(q)
    ensures |set e | e in q| == |q|
  {
    if q != [] {
      var last := |q| - 1;
      SetOfSeq(q[..last]);
      assert (set e | e in q) == (set e | e in q[..last]) + {q[last]};
    }
  }

  lemma {:induction false} RangeSize(n: nat)
    ensures |AllWorkers(n)| == n
  {
    if n > 0 {
      RangeSize(n - 1);
      assert AllWorkers(n) == AllWorkers(n - 1) + {n - 1};
    }
  }

  lemma SubsetSize<T>(a: set<T>, b: set<T>)
    requires a <= b
    ensures |a| <= |b|
    ensures |a| == |b| ==> a == b
  {
    assert b == a + (b - a);
  }

  /** A channel that is not free leaves at most `maxSteal - 1` free ones, and when that many
      are free it is the only one. */
  lemma FreeCount(x: Worker, v: nat, maxSteal: nat, g: map<Token, Place>, k: nat)
    requires FreeAgrees(x, v, maxSteal, g) && k < maxSteal && (v, k) in g && g[(v, k)] != Free
    ensures |x.free| < maxSteal
    ensures |x.free| == maxSteal - 1 ==> forall j: nat :: j < maxSteal && j != k ==> j in x.free
  {
    var f := set e | e in x.free;
    SetOfSeq(x.free);
    RangeSize(maxSteal);
    assert f <= AllWorkers(maxSteal) - {k};
    SubsetSize(f, AllWorkers(maxSteal) - {k});
    if |x.free| == maxSteal - 1 {
      forall j: nat | j < maxSteal && j != k ensures j in x.free {
        assert IsWorker(maxSteal, j);
        assert j in f;
      }
    }
  }

  /** A worker that waits has one channel out, in its failed request or filled with tasks. */
  lemma WaitingHasOne(s: State, g: map<Token, Place>, w: nat, k: nat, j: nat)
    requires Inv(s, g) && w < |s.ws| && s.ws[w].waiting
    requires k < s.maxSteal && j < s.maxSteal && g[(w, k)] != Free && g[(w, j)] != Free
    ensures k == j
  {
    assert WorkerOkAt(s, g, w) && AgreesAt(s, g, w);
    FreeCount(s.ws[w], w, s.maxSteal, g, k);
  }

  // Held requests

  lemma IdsSize(q: seq<Request>)
    ensures |Ids(q)| <= |q|
  {
    IdsSizeInduction(q);
  }

  lemma {:induction false} IdsSizeInduction(q: seq<Request>)
    ensures |Ids(q)| <= |q|
  {
    if q != [] {
      var last := |q| - 1;
      IdsSizeInduction(q[..last]);
      IdsAppend(q[..last], q[last]);
      assert q == q[..last] + [q[last]];
    }
  }

  lemma IdsAppend(q: seq<Request>, r: Request)
    ensures Ids(q + [r]) == Ids(q) + {r.id}
  {
  }

  lemma IdsTail(q: seq<Request>)
    requires q != [] && |q| == |Ids(q)|
    ensures Ids(q[1..]) == Ids(q) - {q[0].id}
    ensures |q[1..]| == |Ids(q[1..])|
    ensures q[0].id in Ids(q)
  {
    assert q == [q[0]] + q[1..];
    assert q[0] in q;
    IdsSize(q[1..]);
    var rest := Ids(q[1..]);
    assert Ids(q) == rest + {q[0].id} by {
      forall i | i in Ids(q) ensures i in rest + {q[0].id} {
        var e :| e in q && e.id == i;
        assert e == q[0] || e in q[1..];
      }
      forall i | i in rest + {q[0].id} ensures i in Ids(q) {
        if i in rest {
          var e :| e in q[1..] && e.id == i;
          assert e in q;
        }
      }
    }
    assert |rest + {q[0].id}| == |rest| + 1;
  }

  /** `d` sleeps, and its parent holds its failed request. */
  ghost predicate Asleep(s: State, g: map<Token, Place>, d: nat)
  {
    && 0 < d < |s.ws| && s.ws[d].waiting && s.ws[d].phase != Awake
    && (exists r :: r in s.ws[Parent(d)].held && r.id == d && TokenOf(r) in g && g[TokenOf(r)] == Held(Parent(d), r))
  }

  lemma HeldIsFailed(s: State, g: map<Token, Place>, w: nat, r: Request)
    requires Inv(s, g) && w < |s.ws| && r in s.ws[w].held
    ensures TokenOf(r) in g && g[TokenOf(r)] == Held(w, r) && r.state == StateFailed && FailedOk(s, r, w)
  {
    assert AgreesAt(s, g, w);
    assert TokenOf(r) in g && g[TokenOf(r)] == Held(w, r);
    assert PlaceOkAt(s, g, TokenOf(r));
  }

  /** A set idle flag means that the child's failed request is held, and the child sleeps. */
  lemma FlaggedChildSleeps(s: State, g: map<Token, Place>, w: nat, c: nat)
    requires Inv(s, g) && w < |s.ws| && c < |s.ws|
    requires (c == 2 * w + 1 && s.ws[w].left) || (c == 2 * w + 2 && s.ws[w].right)
    ensures Asleep(s, g, c)
  {
    assert WorkerOkAt(s, g, w);
    assert c in Ids(s.ws[w].held);
    assert Parent(c) == w;
    var r :| r in s.ws[w].held && r.id == c;
    HeldIsFailed(s, g, w, r);
  }

  /** Below a set idle flag every worker sleeps, and its parent holds its failed request. */
  lemma {:induction false} FlaggedSubtreeSleeps(s: State, g: map<Token, Place>, w: nat, c: nat, d: nat)
    requires Inv(s, g) && w < |s.ws| && d < |s.ws|
    requires (c == 2 * w + 1 && s.ws[w].left) || (c == 2 * w + 2 && s.ws[w].right)
    requires IsDescendant(c, d)
    ensures Asleep(s, g, d)
    decreases d
  {
    if d == c {
      FlaggedChildSleeps(s, g, w, c);
    } else {
      var p := Parent(d);
      FlaggedSubtreeSleeps(s, g, w, c, p);
      assert WorkerOkAt(s, g, p);
      FlaggedChildSleeps(s, g, p, d);
    }
  }

  lemma FlaggedChild(n: nat, x: Worker, w: nat, d: nat) returns (c: nat)
    requires d in Flagged(n, x, w)
    ensures (c == 2 * w + 1 && x.left) || (c == 2 * w + 2 && x.right)
    ensures IsDescendant(c, d) && w < d < n
  {
    c := if x.left && d in Subtree(n, 2 * w + 1) then 2 * w + 1 else 2 * w + 2;
    DescendantNotSmaller(c, d);
  }

  lemma FlaggedAtRoot(n: nat, x: Worker, d: nat)
    requires x.left && x.right && 0 < d < n
    ensures d in Flagged(n, x, 0)
  {
    RootReachesAll(d);
    DescendantViaChild(0, d);
  }

  lemma FlaggedSleeps(s: State, g: map<Token, Place>, w: nat, d: nat)
    requires Inv(s, g) && w < |s.ws| && d < |s.ws|
    requires d in Flagged(|s.ws|, s.ws[w], w)
    ensures w < d && Asleep(s, g, d)
  {
    var c := FlaggedChild(|s.ws|, s.ws[w], w, d);
    FlaggedSubtreeSleeps(s, g, w, c, d);
  }

  /** When both flags of worker 0 are set, all the others sleep. */
  lemma OthersSleep(s: State, g: map<Token, Place>, d: nat)
    requires Inv(s, g) && s.ws[0].left && s.ws[0].right && 0 < d < |s.ws|
    ensures Asleep(s, g, d)
  {
    FlaggedAtRoot(|s.ws|, s.ws[0], d);
    FlaggedSleeps(s, g, 0, d);
  }

  /** A sleeping worker's request channel never holds a failed request. */
  lemma SleeperMail(s: State, g: map<Token, Place>, v: nat)
    requires Inv(s, g) && v < |s.ws| && s.ws[v].waiting && s.ws[v].mail != []
    ensures s.ws[v].mail[0].state != StateFailed && s.ws[v].mail[0].id != v
  {
    var r := s.ws[v].mail[0];
    assert r in s.ws[v].mail;
    assert AgreesAt(s, g, v);
    assert PlaceOkAt(s, g, TokenOf(r));
    if r.state == StateFailed {
      assert WorkerOkAt(s, g, v);
      FlaggedChildSleeps(s, g, v, r.id);
      var h :| h in s.ws[v].held && h.id == r.id && TokenOf(h) in g && g[TokenOf(h)] == Held(v, h);
      WaitingHasOne(s, g, r.id, r.chan, h.chan);
    }
  }

  // Routing

  lemma PrunedIs(n: nat, x: Worker, w: nat, victims: set<nat>)
    requires w < n
    ensures Pruned(n, x, w, victims) == victims - {w} - Flagged(n, x, w)
  {
    SubtreeSplit(n, w);
  }

  lemma FirstVictims(n: nat, x: Worker, w: nat)
    requires w < n
    ensures var vs := Pruned(n, x, w, AllWorkers(n)); w !in vs && vs <= AllWorkers(n) && |vs| <= n - 1
  {
    var vs := Pruned(n, x, w, AllWorkers(n));
    RangeSize(n);
    SubsetSize(vs, AllWorkers(n) - {w});
  }

  /** After the thief's own `next_victim` no victim is left only for a lone worker and for
      worker 0 with both subtrees idle. */
  lemma NoVictims(n: nat, x: Worker, w: nat)
    requires w < n
    requires (2 * w + 1 >= n ==> x.left) && (2 * w + 2 >= n ==> x.right)
    ensures Pruned(n, x, w, AllWorkers(n)) == {} <==> n == 1 || (w == 0 && x.left && x.right)
  {
    PrunedIs(n, x, w, AllWorkers(n));
    if n > 1 {
      if w == 0 && x.left && x.right {
        forall d: nat | 0 < d < n ensures d in Flagged(n, x, 0) {
          FlaggedAtRoot(n, x, d);
        }
      } else {
        var c := SomeVictim(n, x, w);
        assert c in Pruned(n, x, w, AllWorkers(n));
      }
    }
  }

  lemma SomeVictim(n: nat, x: Worker, w: nat) returns (c: nat)
    requires w < n && n > 1 && !(w == 0 && x.left && x.right)
    requires (2 * w + 1 >= n ==> x.left) && (2 * w + 2 >= n ==> x.right)
    ensures c in AllWorkers(n) && c != w && c !in Flagged(n, x, w)
  {
    c := if w > 0 then 0 else if !x.left then 1 else 2;
    assert IsWorker(n, c);
    if c in Flagged(n, x, w) {
      var e := FlaggedChild(n, x, w, c);
      assert false;
    }
  }

  /** Sending a fresh or recirculated request: the first `next_victim` of a trip. */
  lemma FirstHop(n: nat, x: Worker, w: nat, r: Request, victim: nat)
    requires w < n && r.id == w && r.try == 0 && r.victims == AllWorkers(n)
    requires IsNextVictim(n, x, w, r, victim)
    requires (2 * w + 1 >= n ==> x.left) && (2 * w + 2 >= n ==> x.right)
    ensures victim < n && MailedOk(n, Routed(n, x, w, r), victim)
    ensures victim == w <==> n == 1 || (w == 0 && x.left && x.right)
  {
    FirstVictims(n, x, w);
    NoVictims(n, x, w);
  }

  /** Passing another worker's request on: its victims strictly shrink, unless it has made
      all its attempts, and then it goes home. */
  lemma NextHop(n: nat, x: Worker, w: nat, r: Request, r1: Request, victim: nat)
    requires w < n && r.id != w && InHandOk(n, x, w, r)
    requires r1 == r.(try := r.try + 1)
    requires IsNextVictim(n, x, w, r1, victim)
    ensures victim < n && MailedOk(n, Routed(n, x, w, r1), victim)
    ensures victim != r.id ==> Routed(n, x, w, r1).victims < r.victims
  {
    PrunedIs(n, x, w, r.victims);
    var vs := Pruned(n, x, w, r.victims);
    var hit :| hit in r.victims * ({w} + Flagged(n, x, w));
    assert vs <= r.victims - {hit};
    SubsetSize(vs, r.victims - {hit});
  }
}
