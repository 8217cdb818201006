/** What the tasks of test/cilksort.c read: at every point of every interleaving, at every depth of
    the tree of tasks, the merges that are under way find what they read complete, and nobody
    writes to it before they are done. */
module CilksortReads {
  import opened Common
  import opened Tasks
  import opened CilksortTasks

  datatype Config = Config(quick: Quick, quickSize: nat, mergeSize: nat)

  /** A call of cilksort: its range of the array holds `s`, and its part of the temporary array `t`. */
  datatype Call = Call(s: seq<int>, lo: nat, t: seq<int>, base: nat)

  ghost predicate Admissible(c: Config)
  {
    c.quickSize >= 4 && c.mergeSize >= 2 && QuickSorts(c.quick)
  }

  ghost function TreeOf(c: Config, n: Call): SortWork
    requires Admissible(c)
  {
    SortTree(c.quick, n.s, n.lo, n.base, c.quickSize, c.mergeSize)
  }

  /** The call for one of the quarters */
  function Quarter(n: Call, k: nat): (q: Call)
    requires k < 4 && |n.t| == |n.s|
    ensures |q.t| == |q.s| && (|n.s| >= 4 ==> |q.s| < |n.s|)
  {
    var q := |n.s| / 4;
    var skip := if k == 0 then 0 else if k == 1 then q else if k == 2 then 2 * q else 3 * q;
    Call(Part(n.s, k), n.lo + skip, Part(n.t, k), n.base + skip)
  }

  predicate InPart(key: Cell, lo: nat, base: nat, n: nat)
  {
    var start := if key.A? then lo else base;
    start <= key.i < start + n
  }

  /** None of the writes is to the given parts of the two arrays. */
  ghost predicate Spares(log: Puts, lo: nat, base: nat, n: nat)
  {
    forall u :: u in log ==> !InPart(u.key, lo, base, n)
  }

  /** Among the writes so far those of the task are `own`, and the others spare its parts. */
  ghost predicate Inside(now: Puts, own: Puts, lo: nat, base: nat, n: nat)
  {
    exists others :: Interleaves(now, own, others) && Spares(others, lo, base, n)
  }

  /** After the writes so far, the cells that held `init` hold `full`. */
  ghost predicate Holds(now: Puts, toTmp: bool, base: nat, init: seq<int>, full: seq<int>)
  {
    |init| == |full| && forall j :: 0 <= j < |full| ==> RunCell(Put, now, Dest(toTmp, base + j), init[j]) == full[j]
  }

  /** The call has made the first `i` of its writes `l`, and all merges under way in it read what they
      should: as long as the quarters are being sorted, this is so for each of them; from then on
      the array holds the sorted quarters until it is written back; and meanwhile the temporary
      array holds the merged halves. */
  ghost predicate Settled(c: Config, n: Call, now: Puts, l: Puts, i: nat)
    requires Admissible(c) && |n.t| == |n.s|
    decreases |n.s|, 2
  {
    |n.s| < c.quickSize || exists l1, l2, l3 :: SettledAt(c, n, now, l, i, l1, l2, l3)
  }

  ghost predicate SettledAt(c: Config, n: Call, now: Puts, l: Puts, i: nat, l1: Puts, l2: Puts, l3: Puts)
    requires Admissible(c) && |n.t| == |n.s| && |n.s| >= c.quickSize
    decreases |n.s|, 1
  {
    && l == l1 + (l2 + l3) && ThreePhases(c, n, l1, l2, l3)
    && (i <= |l1| ==> forall k: nat :: k < 4 ==> QuarterSettled(c, n, now, k))
    && (|l1| <= i <= |l1| + |l2| ==> Holds(now, false, n.lo, n.s, Quarters(n.s)))
    && (|l1| + |l2| <= i ==> Holds(now, true, n.base, n.t, Halves(n.s)))
  }

  ghost predicate QuarterSettled(c: Config, n: Call, now: Puts, k: nat)
    requires Admissible(c) && |n.t| == |n.s| && |n.s| >= c.quickSize && k < 4
    decreases |n.s|, 0
  {
    var q := Quarter(n, k);
    exists l: Puts, i: nat {:trigger Settled(c, q, now, l, i)} ::
      Executes(TreeOf(c, q), l) && i <= |l| && Inside(now, l[..i], q.lo, q.base, |q.s|) && Settled(c, q, now, l, i)
  }

  /** The writes of the sorts, of the merges of the quarters, and of the merge of the halves */
  ghost predicate ThreePhases(c: Config, n: Call, l1: Puts, l2: Puts, l3: Puts)
    requires Admissible(c) && |n.s| >= c.quickSize
  {
    && Executes(QuartersWork(c.quick, n.s, n.lo, n.base, c.quickSize, c.mergeSize), l1)
    && Executes(Both(LowWork(n.s, n.base, c.mergeSize), HighWork(n.s, n.base, c.mergeSize)), l2)
    && Executes(BackWork(n.s, n.lo, c.mergeSize), l3)
  }

  lemma SplitPhases(c: Config, n: Call, l: Puts) returns (l1: Puts, l2: Puts, l3: Puts)
    requires Admissible(c) && |n.s| >= c.quickSize && Executes(TreeOf(c, n), l)
    ensures l == l1 + (l2 + l3) && ThreePhases(c, n, l1, l2, l3)
  {
    var w, rest := TreeOf(c, n), [];
    l1, rest := SplitThen(w, l);
    l2, l3 := SplitThen(w.second, rest);
  }

  lemma PhasesOf(c: Config, n: Call, l1: Puts, l2: Puts, l3: Puts)
    requires Admissible(c) && |n.s| >= c.quickSize && ThreePhases(c, n, l1, l2, l3)
    ensures Phases(n.s, n.lo, n.base, l1, l2, l3)
  {
    ParallelQuarters(c.quick, n.s, n.lo, n.base, c.quickSize, c.mergeSize, l1);
    PairsFill(n.s, n.base, c.mergeSize, l2);
    BackFills(n.s, n.lo, c.mergeSize, l3);
  }

  // The later phases

  lemma SparedCell(now: Puts, own: Puts, others: Puts, n: Call, toTmp: bool, j: nat, init: int)
    requires Interleaves(now, own, others) && Spares(others, n.lo, n.base, |n.s|) && j < |n.s|
    ensures var key := Dest(toTmp, (if toTmp then n.base else n.lo) + j);
            RunCell(Put, now, key, init) == RunCell(Put, own, key, init)
  {
    var key := Dest(toTmp, (if toTmp then n.base else n.lo) + j);
    assert InPart(key, n.lo, n.base, |n.s|);
    forall k | 0 <= k < |others| ensures others[k].key != key {
      assert others[k] in others;
    }
    InterleavedCell(Put, now, own, others, key, init);
  }

  /** Writes to one of the arrays leave the cells of the other alone. */
  lemma OtherArrayKept(before: Puts, log: Puts, i: nat, toTmp: bool, base: nat, full: seq<int>, at: nat, init: int)
    requires Fills(log, toTmp, base, full) && i <= |log|
    ensures RunCell(Put, before + log[..i], Dest(!toTmp, at), init) == RunCell(Put, before, Dest(!toTmp, at), init)
  {
    var key := Dest(!toTmp, at);
    forall k | 0 <= k < i ensures log[..i][k].key != key {
      FillsWithin(log, toTmp, base, full, k);
    }
    RunCellJoins(Put, before, log[..i], key, init);
    RunCellUntouched(Put, log[..i], key, RunCell(Put, before, key, init));
  }

  lemma QuartersStay(n: Call, now: Puts, l1: Puts, l2: Puts, i: nat, others: Puts, quarters: seq<int>, halves: seq<int>)
    requires Leaves(l1, n.s, quarters, n.lo) && Fills(l2, true, n.base, halves) && i <= |l2|
    requires Interleaves(now, l1 + l2[..i], others) && Spares(others, n.lo, n.base, |n.s|)
    ensures Holds(now, false, n.lo, n.s, quarters)
  {
    forall j | 0 <= j < |n.s| ensures RunCell(Put, now, Dest(false, n.lo + j), n.s[j]) == quarters[j] {
      SparedCell(now, l1 + l2[..i], others, n, false, j, n.s[j]);
      OtherArrayKept(l1, l2, i, true, n.base, halves, n.lo + j, n.s[j]);
    }
  }

  lemma HalvesStay(n: Call, now: Puts, l1: Puts, l2: Puts, l3: Puts, i: nat, others: Puts, halves: seq<int>,
                   sorted: seq<int>)
    requires Fills(l2, true, n.base, halves) && Fills(l3, false, n.lo, sorted) && i <= |l3|
    requires |n.t| == |n.s| == |halves|
    requires Interleaves(now, l1 + l2 + l3[..i], others) && Spares(others, n.lo, n.base, |n.s|)
    ensures Holds(now, true, n.base, n.t, halves)
  {
    forall j | 0 <= j < |n.s| ensures RunCell(Put, now, Dest(true, n.base + j), n.t[j]) == halves[j] {
      var key, x := Dest(true, n.base + j), n.t[j];
      SparedCell(now, l1 + l2 + l3[..i], others, n, true, j, x);
      OtherArrayKept(l1 + l2, l3, i, false, n.lo, sorted, n.base + j, x);
      RunCellJoins(Put, l1, l2, key, x);
      FillsCell(l2, true, n.base, halves, key, RunCell(Put, l1, key, x));
    }
  }

  lemma Prefixes(l1: Puts, l2: Puts, l3: Puts, i: nat)
    ensures |l1| <= i <= |l1| + |l2| ==> (l1 + (l2 + l3))[..i] == l1 + l2[..i - |l1|]
    ensures |l1| + |l2| <= i <= |l1| + |l2| + |l3| ==> (l1 + (l2 + l3))[..i] == l1 + l2 + l3[..i - |l1| - |l2|]
  {
  }

  lemma LaterPhases(n: Call, now: Puts, l1: Puts, l2: Puts, l3: Puts, i: nat, others: Puts,
                    quarters: seq<int>, halves: seq<int>, sorted: seq<int>)
    requires Leaves(l1, n.s, quarters, n.lo) && Fills(l2, true, n.base, halves) && Fills(l3, false, n.lo, sorted)
    requires |n.t| == |n.s| == |halves| && i <= |l1 + (l2 + l3)|
    requires Interleaves(now, (l1 + (l2 + l3))[..i], others) && Spares(others, n.lo, n.base, |n.s|)
    ensures |l1| <= i <= |l1| + |l2| ==> Holds(now, false, n.lo, n.s, quarters)
    ensures |l1| + |l2| <= i ==> Holds(now, true, n.base, n.t, halves)
  {
    Prefixes(l1, l2, l3, i);
    if |l1| <= i <= |l1| + |l2| {
      QuartersStay(n, now, l1, l2, i - |l1|, others, quarters, halves);
    }
    if |l1| + |l2| <= i {
      HalvesStay(n, now, l1, l2, l3, i - |l1| - |l2|, others, halves, sorted);
    }
  }

  // The first phase

  /** One side of two that run beside others: `x` is its log, `i1` of which has been written, and the
      writes beside it are those of the other side, `y`, and of the others. */
  lemma OneSide(w: SortWork, now: Puts, l: Puts, i: nat, others: Puts, left: bool)
    returns (x: Puts, i1: nat, y: Puts, rest: Puts)
    requires w.Both? && Executes(w, l) && i <= |l| && Interleaves(now, l[..i], others)
    ensures Executes(if left then w.left else w.right, x) && Executes(if left then w.right else w.left, y)
    ensures i1 <= |x| && Interleaves(now, x[..i1], rest)
    ensures forall u :: u in rest ==> u in y || u in others
  {
    var a, b := SplitBoth(w, l);
    var ia, ib := PrefixInterleaves(l, a, b, i);
    var iy;
    if left {
      x, i1, y, iy := a, ia, b, ib;
    } else {
      x, i1, y, iy := b, ib, a, ia;
      InterleavingSwaps(l[..i], a[..ia], b[..ib]);
    }
    rest := Regroup(now, l[..i], others, x[..i1], y[..iy]);
    forall u | u in rest ensures u in y || u in others {
      InterleavedUpdates(rest, y[..iy], others, u);
    }
  }

  lemma RestSpares(rest: Puts, y: Puts, others: Puts, lo1: nat, base1: nat, n1: nat, lo2: nat, base2: nat, n2: nat)
    requires forall u :: u in rest ==> u in y || u in others
    requires Spares(others, lo1, base1, n1) && Within(y, lo2, base2, n2)
    requires (lo1 + n1 <= lo2 && base1 + n1 <= base2) || (lo2 + n2 <= lo1 && base2 + n2 <= base1)
    ensures Spares(rest, lo1, base1, n1)
  {
    forall u | u in rest ensures !InPart(u.key, lo1, base1, n1) {
      if u in y {
        var k :| 0 <= k < |y| && y[k] == u;
      }
    }
  }

  lemma SparesPart(log: Puts, lo: nat, base: nat, n: nat, skip: nat, n1: nat)
    requires Spares(log, lo, base, n) && skip + n1 <= n
    ensures Spares(log, lo + skip, base + skip, n1)
  {
    forall u | u in log ensures !InPart(u.key, lo + skip, base + skip, n1) {
      assert !InPart(u.key, lo, base, n);
    }
  }

  /** The call runs inside what happens: it has made `i` of its writes `l`. */
  ghost predicate RunsInside(c: Config, n: Call, now: Puts, l: Puts, i: nat, others: Puts)
    requires Admissible(c)
  {
    && Executes(TreeOf(c, n), l) && i <= |l|
    && Interleaves(now, l[..i], others) && Spares(others, n.lo, n.base, |n.s|)
  }

  /** A call that runs beside another one, which has other parts of the arrays */
  lemma BesideCall(c: Config, w: SortWork, n: Call, m: Call, now: Puts, l: Puts, i: nat, others: Puts, left: bool)
    returns (x: Puts, i1: nat, rest: Puts)
    requires Admissible(c) && w.Both? && Executes(w, l) && i <= |l|
    requires (if left then w.left else w.right) == TreeOf(c, n) && (if left then w.right else w.left) == TreeOf(c, m)
    requires (n.lo + |n.s| <= m.lo && n.base + |n.s| <= m.base) || (m.lo + |m.s| <= n.lo && m.base + |m.s| <= n.base)
    requires Interleaves(now, l[..i], others) && Spares(others, n.lo, n.base, |n.s|)
    ensures RunsInside(c, n, now, x, i1, rest)
  {
    var y;
    x, i1, y, rest := OneSide(w, now, l, i, others, left);
    SortWithin(c, m.s, m.lo, m.base, y);
    RestSpares(rest, y, others, n.lo, n.base, |n.s|, m.lo, m.base, |m.s|);
  }

  /** One of two calls that sort neighbouring ranges side by side */
  lemma OneOfTwo(c: Config, s: seq<int>, t: seq<int>, lo: nat, base: nat, now: Puts, l: Puts, i: nat, others: Puts,
                 left: bool, n: Call)
    returns (x: Puts, i1: nat, rest: Puts)
    requires Admissible(c) && Executes(TwoWork(c.quick, s, t, lo, base, c.quickSize, c.mergeSize), l) && i <= |l|
    requires Interleaves(now, l[..i], others) && Spares(others, lo, base, |s| + |t|)
    requires if left then n.s == s && n.lo == lo && n.base == base
             else n.s == t && n.lo == lo + |s| && n.base == base + |s|
    ensures RunsInside(c, n, now, x, i1, rest)
  {
    var w := TwoWork(c.quick, s, t, lo, base, c.quickSize, c.mergeSize);
    var m := if left then Call(t, lo + |s|, t, base + |s|) else Call(s, lo, s, base);
    SparesPart(others, lo, base, |s| + |t|, if left then 0 else |s|, |n.s|);
    x, i1, rest := BesideCall(c, w, n, m, now, l, i, others, left);
  }

  lemma SortWithin(c: Config, s: seq<int>, lo: nat, base: nat, log: Puts)
    requires Admissible(c) && Executes(SortTree(c.quick, s, lo, base, c.quickSize, c.mergeSize), log)
    ensures Within(log, lo, base, |s|)
  {
    ParallelSort(c.quick, s, lo, base, c.quickSize, c.mergeSize, log);
    assert Unfold(0);
  }

  lemma TwoWithin(c: Config, s: seq<int>, t: seq<int>, lo: nat, base: nat, log: Puts)
    requires Admissible(c) && Executes(TwoWork(c.quick, s, t, lo, base, c.quickSize, c.mergeSize), log)
    ensures Within(log, lo, base, |s| + |t|)
  {
    ParallelTwo(c.quick, s, t, lo, base, c.quickSize, c.mergeSize, log);
  }

  /** Two of the four calls of the first phase, which sort the parts `a` to `d` */
  lemma OneHalf(c: Config, n: Call, a: seq<int>, b: seq<int>, p: seq<int>, q: seq<int>, half: nat,
                now: Puts, l: Puts, i: nat, others: Puts, left: bool)
    returns (x: Puts, i1: nat, rest: Puts)
    requires Admissible(c) && |n.s| >= c.quickSize && i <= |l|
    requires a == Part(n.s, 0) && b == Part(n.s, 1) && p == Part(n.s, 2) && q == Part(n.s, 3) && half == 2 * (|n.s| / 4)
    requires Executes(QuartersWork(c.quick, n.s, n.lo, n.base, c.quickSize, c.mergeSize), l)
    requires Interleaves(now, l[..i], others) && Spares(others, n.lo, n.base, |n.s|)
    ensures i1 <= |x| && Interleaves(now, x[..i1], rest)
    ensures left ==>
              && Executes(TwoWork(c.quick, a, b, n.lo, n.base, c.quickSize, c.mergeSize), x)
              && Spares(rest, n.lo, n.base, |a| + |b|)
    ensures !left ==>
              && Executes(TwoWork(c.quick, p, q, n.lo + half, n.base + half, c.quickSize, c.mergeSize), x)
              && Spares(rest, n.lo + half, n.base + half, |p| + |q|)
  {
    var y;
    x, i1, y, rest := OneSide(QuartersWork(c.quick, n.s, n.lo, n.base, c.quickSize, c.mergeSize),
                              now, l, i, others, left);
    if left {
      TwoWithin(c, p, q, n.lo + half, n.base + half, y);
      SparesPart(others, n.lo, n.base, |n.s|, 0, half);
      RestSpares(rest, y, others, n.lo, n.base, half, n.lo + half, n.base + half, |p| + |q|);
    } else {
      TwoWithin(c, a, b, n.lo, n.base, y);
      SparesPart(others, n.lo, n.base, |n.s|, half, |p| + |q|);
      RestSpares(rest, y, others, n.lo + half, n.base + half, |p| + |q|, n.lo, n.base, half);
    }
  }

  lemma QuarterIs(n: Call, k: nat, a: seq<int>, p: seq<int>, half: nat)
    requires |n.t| == |n.s| && k < 4 && a == Part(n.s, 0) && p == Part(n.s, 2) && half == 2 * (|n.s| / 4)
    ensures var q := Quarter(n, k);
            && q.s == Part(n.s, k)
            && q.lo == n.lo + (if k < 2 then 0 else half) + (if k == 1 then |a| else if k == 3 then |p| else 0)
            && q.base == n.base + (if k < 2 then 0 else half) + (if k == 1 then |a| else if k == 3 then |p| else 0)
  {
  }

  /** Each of the four calls of the first phase runs inside what happens, as its caller does. */
  lemma QuarterInside(c: Config, n: Call, k: nat, now: Puts, l: Puts, i: nat, others: Puts)
    returns (x: Puts, i1: nat, rest: Puts)
    requires Admissible(c) && |n.s| >= c.quickSize && |n.t| == |n.s| && k < 4 && i <= |l|
    requires Executes(QuartersWork(c.quick, n.s, n.lo, n.base, c.quickSize, c.mergeSize), l)
    requires Interleaves(now, l[..i], others) && Spares(others, n.lo, n.base, |n.s|)
    ensures RunsInside(c, Quarter(n, k), now, x, i1, rest)
  {
    var half := 2 * (|n.s| / 4);
    var a, b, p, q := Part(n.s, 0), Part(n.s, 1), Part(n.s, 2), Part(n.s, 3);
    QuarterIs(n, k, a, p, half);
    var y, j, rest1 := OneHalf(c, n, a, b, p, q, half, now, l, i, others, k < 2);
    if k < 2 {
      x, i1, rest := OneOfTwo(c, a, b, n.lo, n.base, now, y, j, rest1, k == 0, Quarter(n, k));
    } else {
      x, i1, rest := OneOfTwo(c, p, q, n.lo + half, n.base + half, now, y, j, rest1, k == 2, Quarter(n, k));
    }
  }

  /** A call that runs beside others which spare its parts is settled, with all calls below it. */
  lemma {:induction false} CallSettles(c: Config, n: Call, now: Puts, l: Puts, i: nat, others: Puts)
    requires Admissible(c) && |n.t| == |n.s| && RunsInside(c, n, now, l, i, others)
    ensures Settled(c, n, now, l, i)
    decreases |n.s|
  {
    if |n.s| >= c.quickSize {
      var l1, l2, l3 := SplitPhases(c, n, l);
      PhasesOf(c, n, l1, l2, l3);
      if i <= |l1| {
        assert l[..i] == l1[..i];
        forall k: nat | k < 4 ensures QuarterSettled(c, n, now, k) {
          var x, i1, rest := QuarterInside(c, n, k, now, l1, i, others);
          CallSettles(c, Quarter(n, k), now, x, i1, rest);
        }
      }
      LaterPhases(n, now, l1, l2, l3, i, others, Quarters(n.s), Halves(n.s), SortOf(n.s));
      assert SettledAt(c, n, now, l, i, l1, l2, l3);
    }
  }

  /** At every point of every run of cilksort all merges under way, at every depth, read what they
      should. */
  lemma MergesReadSettled(c: Config, n: Call, log: Puts, k: nat)
    requires Admissible(c) && |n.t| == |n.s| && Executes(TreeOf(c, n), log) && k <= |log|
    ensures Settled(c, n, log[..k], log, k)
  {
    ConcatInterleaves(log[..k], []);
    assert log[..k] + [] == log[..k];
    CallSettles(c, n, log[..k], log, k, []);
  }
}
