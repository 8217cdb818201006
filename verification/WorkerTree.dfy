/** The complete binary tree of workers (src/worker_tree.h) and the level-by-level
    range walk of a subtree in `PEEK_REQ` and the on-behalf `RECV_REQ`
    (src/runtime.c). */
module WorkerTree {

  function LeftChild(id: nat, maxId: nat): (c: int)
    requires id <= maxId
  {
    if 2 * id + 1 <= maxId then 2 * id + 1 else -1
  }

  function RightChild(id: nat, maxId: nat): (c: int)
    requires id <= maxId
  {
    if 2 * id + 2 <= maxId then 2 * id + 2 else -1
  }

  /** C's division truncates toward zero; for the only negative dividend, -2, it
      agrees with Dafny's. */
  function Parent(id: nat): (p: int)
    ensures id == 0 ==> p == -1
    ensures id > 0 ==> 0 <= p < id && (id == 2 * p + 1 || id == 2 * p + 2)
  {
    if id % 2 != 0 then (id - 1) / 2 else (id - 2) / 2
  }

  /** `d` is `c` or lies below it. */
  predicate IsDescendant(c: nat, d: nat)
    decreases d
  {
    d == c || (d > c && IsDescendant(c, Parent(d)))
  }

  /** All workers of the subtree rooted at `c`; empty when there is no worker `c`. */
  function Subtree(n: nat, c: nat): (s: set<nat>)
  {
    set d | 0 <= d < n && IsDescendant(c, d)
  }

  lemma {:induction false} DescendantTransitive(a: nat, b: nat, c: nat)
    requires IsDescendant(a, b) && IsDescendant(b, c)
    ensures IsDescendant(a, c)
    decreases c
  {
    if c != b {
      DescendantTransitive(a, b, Parent(c));
      DescendantNotSmaller(a, Parent(c));
    }
  }

  lemma {:induction false} DescendantNotSmaller(a: nat, b: nat)
    requires IsDescendant(a, b)
    ensures a <= b
  {
  }

  /** Two ancestors of the same worker lie on one path to the root. */
  lemma {:induction false} AncestorsComparable(a: nat, b: nat, d: nat)
    requires IsDescendant(a, d) && IsDescendant(b, d)
    ensures IsDescendant(a, b) || IsDescendant(b, a)
    decreases d
  {
    if d != a && d != b {
      AncestorsComparable(a, b, Parent(d));
    }
  }

  lemma {:induction false} RootReachesAll(d: nat)
    ensures IsDescendant(0, d)
  {
    if d > 0 {
      RootReachesAll(Parent(d));
    }
  }

  /** A proper descendant lies below exactly one of the two children. */
  lemma {:induction false} DescendantViaChild(c: nat, d: nat)
    requires d != c
    ensures IsDescendant(c, d) <==> IsDescendant(2 * c + 1, d) || IsDescendant(2 * c + 2, d)
    ensures !(IsDescendant(2 * c + 1, d) && IsDescendant(2 * c + 2, d))
    decreases d
  {
    if d > 0 {
      if Parent(d) == c {
        assert IsDescendant(c, Parent(d));
      } else {
        DescendantViaChild(c, Parent(d));
      }
    }
  }

  lemma SubtreeSplit(n: nat, c: nat)
    ensures Subtree(n, c) == (if c < n then {c} else {}) + Subtree(n, 2 * c + 1) + Subtree(n, 2 * c + 2)
    ensures Subtree(n, 2 * c + 1) !! Subtree(n, 2 * c + 2)
    ensures c !in Subtree(n, 2 * c + 1) + Subtree(n, 2 * c + 2)
    ensures n <= c ==> Subtree(n, c) == {}
  {
    forall d: nat | d < n && d != c
      ensures IsDescendant(c, d) <==> IsDescendant(2 * c + 1, d) || IsDescendant(2 * c + 2, d)
      ensures !(IsDescendant(2 * c + 1, d) && IsDescendant(2 * c + 2, d))
    {
      DescendantViaChild(c, d);
    }
  }

  // The range walk

  /** Some ancestor-or-self of `d` lies in the block [f, f + width). */
  predicate BelowBlock(f: nat, width: nat, d: nat)
    decreases d
  {
    f <= d < f + width || (d >= f + width && d > 0 && BelowBlock(f, width, Parent(d)))
  }

  lemma {:induction false} BelowUnitBlock(c: nat, d: nat)
    ensures BelowBlock(c, 1, d) <==> IsDescendant(c, d)
    decreases d
  {
    if d > c {
      BelowUnitBlock(c, Parent(d));
    }
  }

  /** One level down, the block [f, f + width) becomes [2f + 1, 2f + 1 + 2 * width). */
  lemma {:induction false} BelowNextLevel(f: nat, width: nat, d: nat)
    requires 1 <= width <= f + 1
    ensures d >= f + width ==> (BelowBlock(f, width, d) <==> BelowBlock(2 * f + 1, 2 * width, d))
    ensures d < f + width ==> !BelowBlock(2 * f + 1, 2 * width, d)
    decreases d
  {
    if d >= f + width {
      BelowNextLevel(f, width, Parent(d));
    }
  }

  /** The workers that the walk visits below block [f, f + width), in visiting order:
      `RECV_REQ(req, worker, lvl)` with width == 1 << lvl. */
  function SweepOrder(n: nat, f: nat, width: nat): (order: seq<nat>)
    decreases if f < n then n - f else 0
  {
    if f >= n then []
    else
      var stop := if f + width < n then f + width else n;
      seq(stop - f, i requires 0 <= i < stop - f => f + i) + SweepOrder(n, 2 * f + 1, 2 * width)
  }

  lemma {:induction false} SweepVisitsBlock(n: nat, f: nat, width: nat)
    requires 1 <= width <= f + 1
    ensures forall d: nat :: d in SweepOrder(n, f, width) <==> d < n && BelowBlock(f, width, d)
    ensures forall i, j :: 0 <= i < j < |SweepOrder(n, f, width)| ==>
              SweepOrder(n, f, width)[i] < SweepOrder(n, f, width)[j]
    decreases if f < n then n - f else 0
  {
    if f >= n {
      forall d: nat | d < n ensures !BelowBlock(f, width, d) {
      }
    } else {
      var stop := if f + width < n then f + width else n;
      var level := seq(stop - f, i requires 0 <= i < stop - f => f + i);
      var rest := SweepOrder(n, 2 * f + 1, 2 * width);
      assert SweepOrder(n, f, width) == level + rest;
      SweepVisitsBlock(n, 2 * f + 1, 2 * width);
      forall d: nat
        ensures d in level + rest <==> d < n && BelowBlock(f, width, d)
        ensures d in rest ==> f + width <= d
      {
        BelowNextLevel(f, width, d);
        if f <= d < stop {
          assert level[d - f] == d;
        }
      }
      LevelBeforeRest(level, rest, f + width);
    }
  }

  lemma LevelBeforeRest(level: seq<nat>, rest: seq<nat>, bound: nat)
    requires forall i, j :: 0 <= i < j < |level| ==> level[i] < level[j]
    requires forall i, j :: 0 <= i < j < |rest| ==> rest[i] < rest[j]
    requires (forall d :: d in level ==> d < bound) && (forall d :: d in rest ==> bound <= d)
    ensures forall i, j :: 0 <= i < j < |level + rest| ==> (level + rest)[i] < (level + rest)[j]
  {
    var all := level + rest;
    forall i, j | 0 <= i < j < |all| ensures all[i] < all[j] {
      if i < |level| <= j {
        assert level[i] in level && rest[j - |level|] in rest;
      }
    }
  }

  /** The walk from worker `c` visits every worker of its subtree exactly once, in
      increasing order, and nothing else: the set that `mark_as_idle` clears. */
  lemma SweepVisitsSubtreeOnce(n: nat, c: nat)
    ensures forall d: nat :: d in SweepOrder(n, c, 1) <==> d in Subtree(n, c)
    ensures forall i, j :: 0 <= i < j < |SweepOrder(n, c, 1)| ==> SweepOrder(n, c, 1)[i] < SweepOrder(n, c, 1)[j]
  {
    SweepVisitsBlock(n, c, 1);
    forall d: nat ensures BelowBlock(c, 1, d) <==> IsDescendant(c, d) {
      BelowUnitBlock(c, d);
    }
  }

  /** `RECV_REQ(req, worker, lvl)`: the first worker on the walk whose request channel
      holds something, or -1. `pending[i]` is what a receive from channel i would find. */
  method FindPending(pending: seq<bool>, worker: int, width: nat) returns (v: int)
    requires -1 <= worker < |pending|
    requires 1 <= width <= worker + 1 || worker == -1
    ensures worker == -1 ==> v == -1
    ensures worker >= 0 && v == -1 ==>
              forall d :: d in SweepOrder(|pending|, worker, width) ==> d < |pending| && !pending[d]
    ensures v != -1 ==> worker >= 0 && 0 <= v < |pending| && pending[v] && v in SweepOrder(|pending|, worker, width)
    ensures v != -1 ==>
              forall d :: d in SweepOrder(|pending|, worker, width) && d < v ==> d < |pending| && !pending[d]
    decreases if 0 <= worker then |pending| - worker else 0
  {
    v := -1;
    if worker == -1 {
      return;
    }
    var n := |pending|;
    var stop := if worker + width < n then worker + width else n;
    SweepVisitsBlock(n, worker, width);
    SweepVisitsBlock(n, 2 * worker + 1, 2 * width);
    forall d: nat
      ensures d in SweepOrder(n, 2 * worker + 1, 2 * width) ==> d >= worker + width
      ensures d in SweepOrder(n, worker, width) ==>
                worker <= d < stop || d in SweepOrder(n, 2 * worker + 1, 2 * width)
    {
      BelowNextLevel(worker, width, d);
    }
    var i := worker;
    while i < stop
      invariant worker <= i <= stop
      invariant forall d :: worker <= d < i ==> !pending[d]
    {
      if pending[i] {
        assert BelowBlock(worker, width, i);
        forall d: nat | d in SweepOrder(n, worker, width) && d < i ensures !pending[d] {
          BelowNextLevel(worker, width, d);
        }
        return i;
      }
      i := i + 1;
    }
    v := FindPending(pending, LeftChild(worker, n - 1), 2 * width);
    if v != -1 {
      BelowNextLevel(worker, width, v);
    }
  }

  /** Sweeping with `FindPending` from a subtree root finds a pending channel exactly
      when some worker of the subtree has one; `PEEK_REQ` returns whether it did. */
  method PeekRequests(pending: seq<bool>, worker: int) returns (found: bool)
    requires -1 <= worker < |pending|
    ensures found <==> worker >= 0 && exists d :: d in Subtree(|pending|, worker) && pending[d]
  {
    var v := FindPending(pending, worker, 1);
    if worker >= 0 {
      SweepVisitsSubtreeOnce(|pending|, worker);
    }
    found := v != -1;
  }

  // Counting requests

  /** What the channels of the listed workers hold together */
  function Total(pending: seq<nat>, order: seq<nat>): nat
    requires forall i :: 0 <= i < |order| ==> order[i] < |pending|
  {
    if order == [] then 0 else pending[order[0]] + Total(pending, order[1..])
  }

  lemma {:induction false} TotalIsZero(pending: seq<nat>, order: seq<nat>)
    requires forall i :: 0 <= i < |order| ==> order[i] < |pending|
    ensures Total(pending, order) == 0 <==> forall i :: 0 <= i < |order| ==> pending[order[i]] == 0
  {
    if order != [] {
      var rest := order[1..];
      TotalIsZero(pending, rest);
      assert forall i :: 0 < i < |order| ==> order[i] == rest[i - 1];
    }
  }

  /** The requests pending in the subtree of `worker` */
  function PendingBelow(pending: seq<nat>, worker: int): nat
    requires -1 <= worker < |pending|
  {
    if worker == -1 then 0
    else
      SweepVisitsSubtreeOnce(|pending|, worker);
      var order := SweepOrder(|pending|, worker, 1);
      assert forall i :: 0 <= i < |order| ==> order[i] in order && order[i] in Subtree(|pending|, worker);
      Total(pending, order)
  }

  lemma PendingBelowIsZero(pending: seq<nat>, worker: nat)
    requires worker < |pending|
    ensures PendingBelow(pending, worker) == 0 <==> forall d :: d in Subtree(|pending|, worker) ==> pending[d] == 0
  {
    var order := SweepOrder(|pending|, worker, 1);
    SweepVisitsSubtreeOnce(|pending|, worker);
    assert forall i :: 0 <= i < |order| ==> order[i] in order && order[i] in Subtree(|pending|, worker);
    TotalIsZero(pending, order);
    forall d | d in Subtree(|pending|, worker) ensures exists i :: 0 <= i < |order| && order[i] == d {
      assert d in order;
    }
  }

  /** COUNT_REQ walks like FindPending, but returns what the walk below yields and drops the sum
      of its own level. */
  method CountBelow(pending: seq<nat>, worker: int, width: nat) returns (count: nat)
    requires -1 <= worker < |pending|
    ensures count == 0
    decreases if 0 <= worker then |pending| - worker else 0
  {
    count := 0;
    if worker == -1 {
      return;
    }
    var i := worker;
    while i < worker + width && i < |pending|
    {
      count := count + pending[i];
      i := i + 1;
    }
    count := CountBelow(pending, LeftChild(worker, |pending| - 1), 2 * width);
  }

  /** So it counts the pending requests of the subtree exactly when there are none. */
  method CountRequests(pending: seq<nat>, worker: int) returns (count: nat)
    requires -1 <= worker < |pending|
    ensures count == PendingBelow(pending, worker) <==>
              worker == -1 || forall d :: d in Subtree(|pending|, worker) ==> pending[d] == 0
  {
    count := CountBelow(pending, worker, 1);
    if worker >= 0 {
      PendingBelowIsZero(pending, worker);
    }
  }

  /** One request pending at a leaf, and a count of zero */
  method CountMissesRequest() returns (count: nat)
    ensures count == 0 && PendingBelow([0, 1], 1) == 1
  {
    count := CountBelow([0, 1], 1, 1);
    assert SweepOrder(2, 1, 1) == [1] + SweepOrder(2, 3, 2) == [1];
    assert Total([0, 1], [1]) == 1 + Total([0, 1], []);
  }

  /** The number of idle workers as split_adaptive counts them when one request is in hand: at
      least one. It is the number of requests that the worker will have to serve exactly when
      none is pending in the subtrees that it knows to be idle. */
  method NumIdle(pending: seq<nat>, id: nat, left: bool, right: bool) returns (numIdle: nat)
    requires id < |pending|
    ensures numIdle >= 1
    ensures var l, r := LeftChild(id, |pending| - 1), RightChild(id, |pending| - 1);
            var below :=
              (if left then PendingBelow(pending, l) else 0) + (if right then PendingBelow(pending, r) else 0);
            numIdle == pending[id] + 1 + below <==> below == 0
  {
    numIdle := pending[id] + 1;
    if left {
      var count := CountBelow(pending, LeftChild(id, |pending| - 1), 1);
      numIdle := numIdle + count;
    }
    if right {
      var count := CountBelow(pending, RightChild(id, |pending| - 1), 1);
      numIdle := numIdle + count;
    }
  }
}
