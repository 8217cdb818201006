/** The futures of test/cilksort.c: what the tasks of a parallel merge and of the parallel sort
    write, in every order in which the writes of concurrent tasks may interleave. */
module CilksortTasks {
  import opened Common
  import opened Sorting
  import opened Cilksort
  import opened Tasks

  /** An element of the array to sort or of the temporary array */
  datatype Cell = A(i: nat) | Tmp(i: nat)

  type Puts = seq<Update<Cell, int>>

  type SortWork = Work<Cell, int>

  /** A write puts the new value in place of the old one. */
  function Put(before: int, x: int): int
  {
    x
  }

  function Dest(toTmp: bool, i: nat): Cell
  {
    if toTmp then Tmp(i) else A(i)
  }

  // cilkmerge

  /** `full` is written from `base` on, in order. */
  function Copy(toTmp: bool, base: nat, full: seq<int>): (log: Puts)
    ensures |log| == |full|
    ensures forall j :: 0 <= j < |full| ==> log[j] == Update(Dest(toTmp, base + j), full[j])
  {
    seq(|full|, j requires 0 <= j < |full| => Update(Dest(toTmp, base + j), full[j]))
  }

  lemma CopyJoins(toTmp: bool, base: nat, low: seq<int>, high: seq<int>)
    ensures Copy(toTmp, base, low + high) == Copy(toTmp, base, low) + Copy(toTmp, base + |low|, high)
  {
  }

  /** `log` makes the writes of Copy, in whatever order. */
  ghost predicate Fills(log: Puts, toTmp: bool, base: nat, full: seq<int>)
  {
    exists w: int :: FillsAt(w, log, toTmp, base, full)
  }

  /** The verifier looks behind this only where Unfold is mentioned. */
  ghost predicate FillsAt(w: int, log: Puts, toTmp: bool, base: nat, full: seq<int>)
  {
    forall d: int {:trigger Unfold(d)} :: Unfold(d) ==> forall u :: u in log <==> u in Copy(toTmp, base, full)
  }

  lemma {:induction false} LastPutCounts(log: Puts, key: Cell, x: int, init: int)
    requires Update(key, x) in log && forall u :: u in log && u.key == key ==> u.x == x
    ensures RunCell(Put, log, key, init) == x
  {
    var last, log0 := log[|log| - 1], log[..|log| - 1];
    assert log == log0 + [last];
    if last.key != key {
      LastPutCounts(log0, key, x, init);
    }
  }

  /** Whatever the order, each cell of the destination gets its value, and no other cell changes. */
  lemma FillsCell(log: Puts, toTmp: bool, base: nat, full: seq<int>, key: Cell, init: int)
    requires Fills(log, toTmp, base, full)
    ensures RunCell(Put, log, key, init)
         == if key.Tmp? == toTmp && base <= key.i < base + |full| then full[key.i - base] else init
  {
    assert Unfold(0);
    var copy := Copy(toTmp, base, full);
    if key.Tmp? == toTmp && base <= key.i < base + |full| {
      assert copy[key.i - base] in copy;
      LastPutCounts(log, key, full[key.i - base], init);
    } else {
      forall k | 0 <= k < |log| ensures log[k].key != key {
        assert log[k] in copy;
      }
      RunCellUntouched(Put, log, key, init);
    }
  }

  lemma SplitExists(s: seq<int>, low: nat, high: nat, val: int) returns (r: int)
    requires low <= high && SortedSlice(s, low, high)
    ensures SplitIndex(s, low, r, high, val)
    decreases high
  {
    assert UnfoldSlice(0);
    if low == high {
      r := if s[low] <= val then low else low - 1;
    } else {
      SubSlice(s, low, high, low, high - 1);
      r := SplitExists(s, low, high - 1, val);
      assert s[low] <= s[high];
      if s[high] < val {
        r := high;
      }
    }
  }

  /** What binsplit returns */
  ghost function SplitOf(s: seq<int>, low: nat, high: nat, val: int): (r: int)
    requires low <= high && SortedSlice(s, low, high)
    ensures low - 1 <= r <= high && SplitsAt(s, low, r, high, val)
  {
    assert exists r :: SplitIndex(s, low, r, high, val) by {
      var r := SplitExists(s, low, high, val);
    }
    var r :| SplitIndex(s, low, r, high, val);
    r
  }

  /** The tasks of cilkmerge. There is something to merge: what happens to two empty ranges is the
      case of EmptyMerge in the module Cilksort, and neither of the two futures is given them. */
  ghost function MergeWork(s: seq<int>, low1: nat, high1: int, low2: nat, high2: int,
                           toTmp: bool, base: nat, mergeSize: nat): SortWork
    requires SortedSlice(s, low1, high1) && SortedSlice(s, low2, high2) && mergeSize >= 2
    requires low1 <= high1 || low2 <= high2
    decreases high1 - low1 + high2 - low2 + 2, 1, high2 - low2
  {
    if high2 - low2 > high1 - low1 then MergeWork(s, low2, high2, low1, high1, toTmp, base, mergeSize)
    else if high2 - low2 < mergeSize then
      Log(Copy(toTmp, base, Merge(s[low1..high1 + 1], s[low2..high2 + 1])))
    else
      var split1 := (high1 - low1 + 1) / 2 + low1;
      var split2 := SplitOf(s, low2, high2, s[split1]);
      SplitWork(s, low1, high1, low2, high2, split1, split2, toTmp, base, mergeSize)
  }

  /** The split element is written, then the two futures run side by side. */
  ghost function SplitWork(s: seq<int>, low1: nat, high1: nat, low2: nat, high2: nat, split1: nat, split2: int,
                           toTmp: bool, base: nat, mergeSize: nat): SortWork
    requires SortedSlice(s, low1, high1) && SortedSlice(s, low2, high2) && mergeSize >= 2
    requires low1 < split1 < high1 && low2 - 1 <= split2 <= high2
    decreases high1 - low1 + high2 - low2 + 2, 0
  {
    var p := base + (split1 - low1) + (split2 + 1 - low2);
    SubSlices(s, low1, high1, low2, high2, split1, split2);
    Then(Log([Update(Dest(toTmp, p), s[split1])]),
         Both(MergeWork(s, low1, split1 - 1, low2, split2, toTmp, base, mergeSize),
              MergeWork(s, split1 + 1, high1, split2 + 1, high2, toTmp, p + 1, mergeSize)))
  }

  lemma SubSlices(s: seq<int>, low1: nat, high1: nat, low2: nat, high2: nat, split1: nat, split2: int)
    requires SortedSlice(s, low1, high1) && SortedSlice(s, low2, high2)
    requires low1 <= split1 <= high1 && low2 - 1 <= split2 <= high2
    ensures SortedSlice(s, low1, split1 - 1) && SortedSlice(s, split1 + 1, high1)
    ensures SortedSlice(s, low2, split2) && SortedSlice(s, split2 + 1, high2)
  {
    SubSlice(s, low1, high1, low1, split1 - 1);
    SubSlice(s, low1, high1, split1 + 1, high1);
    SubSlice(s, low2, high2, low2, split2);
    SubSlice(s, low2, high2, split2 + 1, high2);
  }

  lemma BothFill(log: Puts, l: Puts, r: Puts, toTmp: bool, base: nat, low: seq<int>, high: seq<int>)
    requires Interleaves(log, l, r) && Fills(l, toTmp, base, low) && Fills(r, toTmp, base + |low|, high)
    ensures Fills(log, toTmp, base, low + high)
  {
    assert Unfold(0);
    CopyJoins(toTmp, base, low, high);
    forall u ensures u in log <==> u in Copy(toTmp, base, low + high) {
      InterleavedUpdates(log, l, r, u);
    }
    assert FillsAt(0, log, toTmp, base, low + high);
  }

  /** The writes around the split element */
  lemma SplitFills(log: Puts, rest: Puts, l: Puts, r: Puts, toTmp: bool, base: nat, low: seq<int>, x: int,
                   high: seq<int>)
    requires Interleaves(rest, l, r) && log == [Update(Dest(toTmp, base + |low|), x)] + rest
    requires Fills(l, toTmp, base, low) && Fills(r, toTmp, base + |low| + 1, high)
    ensures Fills(log, toTmp, base, low + [x] + high)
  {
    assert Unfold(0);
    CopyJoins(toTmp, base, low, [x]);
    CopyJoins(toTmp, base, low + [x], high);
    assert Copy(toTmp, base + |low|, [x]) == [Update(Dest(toTmp, base + |low|), x)];
    forall u ensures u in log <==> u in Copy(toTmp, base, low + [x] + high) {
      InterleavedUpdates(rest, l, r, u);
    }
    assert FillsAt(0, log, toTmp, base, low + [x] + high);
  }

  /** In every interleaving of its futures, at every depth, cilkmerge writes the simple merge of
      the two ranges to its destination, and nothing else. */
  lemma {:induction false} ParallelMerge(s: seq<int>, low1: nat, high1: int, low2: nat, high2: int,
                                         toTmp: bool, base: nat, mergeSize: nat, log: Puts)
    requires SortedSlice(s, low1, high1) && SortedSlice(s, low2, high2) && mergeSize >= 2
    requires low1 <= high1 || low2 <= high2
    requires Executes(MergeWork(s, low1, high1, low2, high2, toTmp, base, mergeSize), log)
    ensures Fills(log, toTmp, base, Merge(s[low1..high1 + 1], s[low2..high2 + 1]))
    decreases high1 - low1 + high2 - low2 + 2, 1, high2 - low2
  {
    if high2 - low2 > high1 - low1 {
      ParallelMerge(s, low2, high2, low1, high1, toTmp, base, mergeSize, log);
      SliceSorted(s, low1, high1);
      SliceSorted(s, low2, high2);
      MergeCommutes(s[low1..high1 + 1], s[low2..high2 + 1]);
    } else if high2 - low2 < mergeSize {
      assert FillsAt(0, log, toTmp, base, Merge(s[low1..high1 + 1], s[low2..high2 + 1]));
    } else {
      var split1 := (high1 - low1 + 1) / 2 + low1;
      var split2 := SplitOf(s, low2, high2, s[split1]);
      ParallelSplit(s, low1, high1, low2, high2, split1, split2, toTmp, base, mergeSize, log);
    }
  }

  lemma SplitLogs(w: SortWork, log: Puts) returns (rest: Puts, l: Puts, r: Puts)
    requires w.Then? && w.first.Log? && w.second.Both? && Executes(w, log)
    ensures log == w.first.log + rest && Interleaves(rest, l, r)
    ensures Executes(w.second.left, l) && Executes(w.second.right, r)
  {
    var first;
    first, rest := SplitThen(w, log);
    l, r := SplitBoth(w.second, rest);
  }

  lemma {:induction false} ParallelSplit(s: seq<int>, low1: nat, high1: nat, low2: nat, high2: nat, split1: nat,
                                         split2: int, toTmp: bool, base: nat, mergeSize: nat, log: Puts)
    requires SortedSlice(s, low1, high1) && SortedSlice(s, low2, high2) && mergeSize >= 2
    requires low1 < split1 < high1 && low2 - 1 <= split2 <= high2
    requires SplitsAt(s, low2, split2, high2, s[split1])
    requires Executes(SplitWork(s, low1, high1, low2, high2, split1, split2, toTmp, base, mergeSize), log)
    ensures Fills(log, toTmp, base, Merge(s[low1..high1 + 1], s[low2..high2 + 1]))
    decreases high1 - low1 + high2 - low2 + 2, 0
  {
    SubSlices(s, low1, high1, low2, high2, split1, split2);
    var w := SplitWork(s, low1, high1, low2, high2, split1, split2, toTmp, base, mergeSize);
    var low, x := Merge(s[low1..split1], s[low2..split2 + 1]), s[split1];
    var high := Merge(s[split1 + 1..high1 + 1], s[split2 + 1..high2 + 1]);
    var rest, l, r := SplitLogs(w, log);
    ParallelMerge(s, low1, split1 - 1, low2, split2, toTmp, base, mergeSize, l);
    ParallelMerge(s, split1 + 1, high1, split2 + 1, high2, toTmp, base + |low| + 1, mergeSize, r);
    SplitFills(log, rest, l, r, toTmp, base, low, x, high);
    SplitSlices(s, low1, high1, low2, high2, split1, split2);
  }

  // cilksort

  lemma {:induction false} SortExists(s: seq<int>) returns (r: seq<int>)
    ensures |r| == |s| && Sorted(r) && multiset(r) == multiset(s)
  {
    if s == [] {
      r := [];
    } else {
      var rest := SortExists(s[1..]);
      r := Merge([s[0]], rest);
      MergeSorts([s[0]], rest);
      MergePermutes([s[0]], rest);
      assert s == [s[0]] + s[1..];
    }
  }

  /** The elements of `s` in order; the verifier looks at the definition only where UnfoldSlice is
      mentioned. */
  ghost function SortOf(s: seq<int>): (r: seq<int>)
    ensures |r| == |s|
  {
    assert exists r: seq<int> :: |r| == |s| && Sorted(r) && multiset(r) == multiset(s) by {
      var r := SortExists(s);
    }
    var r :| |r| == |s| && forall d: int {:trigger UnfoldSlice(d)} :: UnfoldSlice(d) ==>
               Sorted(r) && multiset(r) == multiset(s);
    r
  }

  lemma SortOfSorts(s: seq<int>)
    ensures Sorted(SortOf(s)) && multiset(SortOf(s)) == multiset(s)
  {
    assert UnfoldSlice(0);
  }

  /** `log` writes only to the `n` elements from `lo` on, and to as many of the temporary array
      from `base` on. */
  ghost predicate Within(log: Puts, lo: nat, base: nat, n: nat)
  {
    forall k :: 0 <= k < |log| ==> var start := if log[k].key.A? then lo else base; start <= log[k].key.i < start + n
  }

  /** A range that holds `s` when the writes of `log` begin holds `s1` after them. */
  ghost predicate Leaves(log: Puts, s: seq<int>, s1: seq<int>, lo: nat)
  {
    |s1| == |s| && forall j :: 0 <= j < |s| ==> RunCell(Put, log, A(lo + j), s[j]) == s1[j]
  }

  /** `log` sorts the elements `s` from `lo` on. */
  ghost predicate Sorts(log: Puts, s: seq<int>, lo: nat, base: nat)
  {
    exists w: int :: SortsAt(w, log, s, lo, base)
  }

  ghost predicate SortsAt(w: int, log: Puts, s: seq<int>, lo: nat, base: nat)
  {
    forall d: int {:trigger Unfold(d)} :: Unfold(d) ==> Within(log, lo, base, |s|) && Leaves(log, s, SortOf(s), lo)
  }

  /** One of the quarters A, B, C and D; the last one is the longest. */
  function Part(s: seq<int>, k: nat): (r: seq<int>)
    requires k < 4
    ensures |r| == if k < 3 then |s| / 4 else |s| - 3 * (|s| / 4)
  {
    var q := |s| / 4;
    match k
    case 0 => s[..q]
    case 1 => s[q..2 * q]
    case 2 => s[2 * q..3 * q]
    case _ => s[3 * q..]
  }

  lemma PartsJoin(s: seq<int>)
    ensures s == Part(s, 0) + Part(s, 1) + (Part(s, 2) + Part(s, 3))
    ensures s[..2 * (|s| / 4)] == Part(s, 0) + Part(s, 1) && s[2 * (|s| / 4)..] == Part(s, 2) + Part(s, 3)
  {
  }

  /** The range once its quarters are sorted */
  ghost function Quarters(s: seq<int>): (r: seq<int>)
    ensures |r| == |s|
  {
    SortOf(Part(s, 0)) + SortOf(Part(s, 1)) + (SortOf(Part(s, 2)) + SortOf(Part(s, 3)))
  }

  /** The temporary array once the quarters are merged in pairs */
  ghost function Halves(s: seq<int>): (r: seq<int>)
    ensures |r| == |s|
  {
    var half := 2 * (|s| / 4);
    SortOf(s[..half]) + SortOf(s[half..])
  }

  /** The range [low, high) of `r` holds the elements of `a` in order. */
  ghost predicate HoldsSorted(r: seq<int>, low: nat, high: nat, a: seq<int>)
  {
    && SortedSlice(r, low, high - 1)
    && exists w: int :: HoldsSortedAt(w, r, low, high, a)
  }

  /** The verifier looks behind this only where UnfoldSlice is mentioned. */
  ghost predicate HoldsSortedAt(w: int, r: seq<int>, low: nat, high: nat, a: seq<int>)
  {
    low <= high <= |r| && forall d: int {:trigger UnfoldSlice(d)} :: UnfoldSlice(d) ==> r[low..high] == SortOf(a)
  }

  lemma SortedPart(r: seq<int>, low: nat, high: nat, a: seq<int>)
    requires low <= high <= |r| && r[low..high] == SortOf(a)
    ensures HoldsSorted(r, low, high, a)
  {
    SortOfSorts(a);
    SliceSorted(r, low, high - 1);
    assert HoldsSortedAt(0, r, low, high, a);
  }

  lemma QuarterSlices(s: seq<int>)
    ensures var q, n, r := |s| / 4, |s|, Quarters(s);
            && HoldsSorted(r, 0, q, Part(s, 0)) && HoldsSorted(r, q, 2 * q, Part(s, 1))
            && HoldsSorted(r, 2 * q, 3 * q, Part(s, 2)) && HoldsSorted(r, 3 * q, n, Part(s, 3))
  {
    var q, n, r := |s| / 4, |s|, Quarters(s);
    SortedPart(r, 0, q, Part(s, 0));
    SortedPart(r, q, 2 * q, Part(s, 1));
    SortedPart(r, 2 * q, 3 * q, Part(s, 2));
    SortedPart(r, 3 * q, n, Part(s, 3));
  }

  lemma HalfSlices(s: seq<int>)
    ensures var half, n, r := 2 * (|s| / 4), |s|, Halves(s);
            HoldsSorted(r, 0, half, s[..half]) && HoldsSorted(r, half, n, s[half..])
  {
    var half, n, r := 2 * (|s| / 4), |s|, Halves(s);
    SortedPart(r, 0, half, s[..half]);
    SortedPart(r, half, n, s[half..]);
  }

  lemma MergedSorted(a: seq<int>, b: seq<int>)
    ensures Merge(SortOf(a), SortOf(b)) == SortOf(a + b)
  {
    SortOfSorts(a);
    SortOfSorts(b);
    SortOfSorts(a + b);
    MergeSorts(SortOf(a), SortOf(b));
    MergePermutes(SortOf(a), SortOf(b));
    SortedUnique(Merge(SortOf(a), SortOf(b)), SortOf(a + b));
  }

  /** A and B merged into the temporary array */
  ghost function LowWork(s: seq<int>, base: nat, mergeSize: nat): SortWork
    requires |s| >= 4 && mergeSize >= 2
  {
    var q := |s| / 4;
    QuarterSlices(s);
    MergeWork(Quarters(s), 0, q - 1, q, 2 * q - 1, true, base, mergeSize)
  }

  /** C and D merged into the temporary array */
  ghost function HighWork(s: seq<int>, base: nat, mergeSize: nat): SortWork
    requires |s| >= 4 && mergeSize >= 2
  {
    var q := |s| / 4;
    QuarterSlices(s);
    MergeWork(Quarters(s), 2 * q, 3 * q - 1, 3 * q, |s| - 1, true, base + 2 * q, mergeSize)
  }

  /** The last phase: the halves merged back */
  ghost function BackWork(s: seq<int>, lo: nat, mergeSize: nat): SortWork
    requires |s| >= 4 && mergeSize >= 2
  {
    HalfSlices(s);
    MergeWork(Halves(s), 0, 2 * (|s| / 4) - 1, 2 * (|s| / 4), |s| - 1, false, lo, mergeSize)
  }

  /** What one task writes to sort the elements `s` from `lo` on, in place */
  type Quick = (seq<int>, nat) -> Puts

  ghost predicate QuickSorts(quick: Quick)
  {
    forall s: seq<int>, lo: nat ::
      Sorts(quick(s, lo), s, lo, 0) && forall k :: 0 <= k < |quick(s, lo)| ==> quick(s, lo)[k].key.A?
  }

  /** The tasks of cilksort on the elements `s` from `lo` on: a short range is left to one task,
      a longer one is sorted in three phases. */
  ghost function SortTree(quick: Quick, s: seq<int>, lo: nat, base: nat, quickSize: nat, mergeSize: nat): SortWork
    requires quickSize >= 4 && mergeSize >= 2
    decreases |s|, 1
  {
    if |s| < quickSize then Log(quick(s, lo))
    else
      Then(QuartersWork(quick, s, lo, base, quickSize, mergeSize),
           Then(Both(LowWork(s, base, mergeSize), HighWork(s, base, mergeSize)), BackWork(s, lo, mergeSize)))
  }

  /** The first phase: the quarters sorted, side by side */
  ghost function QuartersWork(quick: Quick, s: seq<int>, lo: nat, base: nat, quickSize: nat, mergeSize: nat): SortWork
    requires 4 <= quickSize <= |s| && mergeSize >= 2
    decreases |s|, 0
  {
    var half := 2 * (|s| / 4);
    Both(TwoWork(quick, Part(s, 0), Part(s, 1), lo, base, quickSize, mergeSize),
         TwoWork(quick, Part(s, 2), Part(s, 3), lo + half, base + half, quickSize, mergeSize))
  }

  ghost function TwoWork(quick: Quick, s: seq<int>, t: seq<int>, lo: nat, base: nat, quickSize: nat,
                         mergeSize: nat): SortWork
    requires quickSize >= 4 && mergeSize >= 2
    decreases |s| + |t|, 2
  {
    Both(SortTree(quick, s, lo, base, quickSize, mergeSize),
         SortTree(quick, t, lo + |s|, base + |s|, quickSize, mergeSize))
  }

  lemma BothWithin(log: Puts, l: Puts, r: Puts, lo: nat, base: nat, n: nat, m: nat)
    requires Interleaves(log, l, r) && Within(l, lo, base, n) && Within(r, lo + n, base + n, m)
    ensures Within(log, lo, base, n + m)
  {
    forall k | 0 <= k < |log|
      ensures var start := if log[k].key.A? then lo else base; start <= log[k].key.i < start + n + m
    {
      InterleavedUpdates(log, l, r, log[k]);
    }
  }

  /** Two tasks that work on neighbouring ranges side by side */
  lemma BothLeave(log: Puts, l: Puts, r: Puts, s: seq<int>, s1: seq<int>, t: seq<int>, t1: seq<int>, lo: nat, base: nat)
    requires Interleaves(log, l, r)
    requires Within(l, lo, base, |s|) && Leaves(l, s, s1, lo)
    requires Within(r, lo + |s|, base + |s|, |t|) && Leaves(r, t, t1, lo + |s|)
    ensures Within(log, lo, base, |s + t|) && Leaves(log, s + t, s1 + t1, lo)
  {
    BothWithin(log, l, r, lo, base, |s|, |t|);
    forall j | 0 <= j < |s + t| ensures RunCell(Put, log, A(lo + j), (s + t)[j]) == (s1 + t1)[j] {
      InterleavedCell(Put, log, l, r, A(lo + j), (s + t)[j]);
      if j < |s| {
        assert Untouched(r, A(lo + j));
      } else {
        assert Untouched(l, A(lo + j)) && lo + j == lo + |s| + (j - |s|);
      }
    }
  }

  /** A parallel merge of two sorted parts of `r` */
  lemma SortedMerge(r: seq<int>, low: nat, mid: nat, high: nat, a: seq<int>, b: seq<int>,
                    toTmp: bool, base: nat, mergeSize: nat, w: SortWork, log: Puts)
    requires HoldsSorted(r, low, mid, a) && HoldsSorted(r, mid, high, b) && low < high && mergeSize >= 2
    requires w == MergeWork(r, low, mid - 1, mid, high - 1, toTmp, base, mergeSize) && Executes(w, log)
    ensures Fills(log, toTmp, base, SortOf(a + b))
  {
    ParallelMerge(r, low, mid - 1, mid, high - 1, toTmp, base, mergeSize, log);
    MergedSorted(a, b);
    assert UnfoldSlice(0);
  }

  lemma LowFills(s: seq<int>, base: nat, mergeSize: nat, log: Puts)
    requires |s| >= 4 && mergeSize >= 2 && Executes(LowWork(s, base, mergeSize), log)
    ensures Fills(log, true, base, SortOf(s[..2 * (|s| / 4)]))
  {
    var q, a, b := |s| / 4, Part(s, 0), Part(s, 1);
    QuarterSlices(s);
    SortedMerge(Quarters(s), 0, q, 2 * q, a, b, true, base, mergeSize, LowWork(s, base, mergeSize), log);
    assert s[..2 * q] == a + b by {
      PartsJoin(s);
    }
  }

  lemma HighFills(s: seq<int>, base: nat, mergeSize: nat, log: Puts)
    requires |s| >= 4 && mergeSize >= 2 && Executes(HighWork(s, base, mergeSize), log)
    ensures Fills(log, true, base + 2 * (|s| / 4), SortOf(s[2 * (|s| / 4)..]))
  {
    var q, c, d := |s| / 4, Part(s, 2), Part(s, 3);
    QuarterSlices(s);
    SortedMerge(Quarters(s), 2 * q, 3 * q, |s|, c, d, true, base + 2 * q, mergeSize,
                HighWork(s, base, mergeSize), log);
    assert s[2 * q..] == c + d by {
      PartsJoin(s);
    }
  }

  lemma PairsFill(s: seq<int>, base: nat, mergeSize: nat, log: Puts)
    requires |s| >= 4 && mergeSize >= 2
    requires Executes(Both(LowWork(s, base, mergeSize), HighWork(s, base, mergeSize)), log)
    ensures Fills(log, true, base, Halves(s))
  {
    var low, high := SortOf(s[..2 * (|s| / 4)]), SortOf(s[2 * (|s| / 4)..]);
    var l, r := SplitBoth(Both(LowWork(s, base, mergeSize), HighWork(s, base, mergeSize)), log);
    LowFills(s, base, mergeSize, l);
    HighFills(s, base, mergeSize, r);
    BothFill(log, l, r, true, base, low, high);
  }

  lemma BackFills(s: seq<int>, lo: nat, mergeSize: nat, log: Puts)
    requires |s| >= 4 && mergeSize >= 2 && Executes(BackWork(s, lo, mergeSize), log)
    ensures Fills(log, false, lo, SortOf(s))
  {
    var half := 2 * (|s| / 4);
    HalfSlices(s);
    SortedMerge(Halves(s), 0, half, |s|, s[..half], s[half..], false, lo, mergeSize, BackWork(s, lo, mergeSize), log);
    assert s == s[..half] + s[half..];
  }

  /** The three phases of a run: the first leaves the quarters sorted, the second writes them,
      merged in pairs, to the temporary array, and the third writes the range sorted. */
  ghost predicate Phases(s: seq<int>, lo: nat, base: nat, l1: Puts, l2: Puts, l3: Puts)
  {
    && Within(l1, lo, base, |s|) && Leaves(l1, s, Quarters(s), lo)
    && Fills(l2, true, base, Halves(s)) && Fills(l3, false, lo, SortOf(s))
  }

  lemma FillsWithin(log: Puts, toTmp: bool, base: nat, full: seq<int>, k: nat)
    requires Fills(log, toTmp, base, full) && k < |log|
    ensures log[k].key.Tmp? == toTmp && base <= log[k].key.i < base + |full|
  {
    assert Unfold(0);
    assert log[k] in Copy(toTmp, base, full);
  }

  lemma PhasesWithin(s: seq<int>, lo: nat, base: nat, l1: Puts, l2: Puts, l3: Puts)
    requires Phases(s, lo, base, l1, l2, l3)
    ensures Within(l1 + (l2 + l3), lo, base, |s|)
  {
    var log := l1 + (l2 + l3);
    forall k | 0 <= k < |log|
      ensures var start := if log[k].key.A? then lo else base; start <= log[k].key.i < start + |s|
    {
      if |l1| <= k < |l1| + |l2| {
        FillsWithin(l2, true, base, Halves(s), k - |l1|);
      } else if |l1| + |l2| <= k {
        FillsWithin(l3, false, lo, SortOf(s), k - |l1| - |l2|);
      }
    }
  }

  lemma PhasesCell(s: seq<int>, lo: nat, base: nat, l1: Puts, l2: Puts, l3: Puts, j: nat)
    requires Fills(l3, false, lo, SortOf(s)) && j < |s|
    ensures RunCell(Put, l1 + (l2 + l3), A(lo + j), s[j]) == SortOf(s)[j]
  {
    RunCellJoins(Put, l1 + l2, l3, A(lo + j), s[j]);
    assert l1 + l2 + l3 == l1 + (l2 + l3);
    FillsCell(l3, false, lo, SortOf(s), A(lo + j), RunCell(Put, l1 + l2, A(lo + j), s[j]));
  }

  lemma PhasesSort(s: seq<int>, lo: nat, base: nat, l1: Puts, l2: Puts, l3: Puts)
    requires Phases(s, lo, base, l1, l2, l3)
    ensures Sorts(l1 + (l2 + l3), s, lo, base)
  {
    var log := l1 + (l2 + l3);
    PhasesWithin(s, lo, base, l1, l2, l3);
    forall j | 0 <= j < |s| ensures RunCell(Put, log, A(lo + j), s[j]) == SortOf(s)[j] {
      PhasesCell(s, lo, base, l1, l2, l3, j);
    }
    assert SortsAt(0, log, s, lo, base);
  }

  lemma {:induction false} ParallelTwo(quick: Quick, s: seq<int>, t: seq<int>, lo: nat, base: nat,
                                       quickSize: nat, mergeSize: nat, log: Puts)
    requires quickSize >= 4 && mergeSize >= 2 && QuickSorts(quick)
    requires Executes(TwoWork(quick, s, t, lo, base, quickSize, mergeSize), log)
    ensures Within(log, lo, base, |s + t|) && Leaves(log, s + t, SortOf(s) + SortOf(t), lo)
    decreases |s| + |t|, 3
  {
    var l, r := SplitBoth(TwoWork(quick, s, t, lo, base, quickSize, mergeSize), log);
    ParallelSort(quick, s, lo, base, quickSize, mergeSize, l);
    ParallelSort(quick, t, lo + |s|, base + |s|, quickSize, mergeSize, r);
    assert Unfold(0);
    BothLeave(log, l, r, s, SortOf(s), t, SortOf(t), lo, base);
  }

  lemma {:induction false} ParallelQuarters(quick: Quick, s: seq<int>, lo: nat, base: nat,
                                            quickSize: nat, mergeSize: nat, log: Puts)
    requires 4 <= quickSize <= |s| && mergeSize >= 2 && QuickSorts(quick)
    requires Executes(QuartersWork(quick, s, lo, base, quickSize, mergeSize), log)
    ensures Within(log, lo, base, |s|) && Leaves(log, s, Quarters(s), lo)
    decreases |s|, 0
  {
    var half := 2 * (|s| / 4);
    var l, r := SplitBoth(QuartersWork(quick, s, lo, base, quickSize, mergeSize), log);
    var a, b, c, d := Part(s, 0), Part(s, 1), Part(s, 2), Part(s, 3);
    ParallelTwo(quick, a, b, lo, base, quickSize, mergeSize, l);
    ParallelTwo(quick, c, d, lo + half, base + half, quickSize, mergeSize, r);
    BothLeave(log, l, r, a + b, SortOf(a) + SortOf(b), c + d, SortOf(c) + SortOf(d), lo, base);
    PartsJoin(s);
  }

  lemma {:induction false} RunPhases(quick: Quick, s: seq<int>, lo: nat, base: nat, quickSize: nat, mergeSize: nat,
                                     log: Puts)
    returns (l1: Puts, l2: Puts, l3: Puts)
    requires 4 <= quickSize <= |s| && mergeSize >= 2 && QuickSorts(quick)
    requires Executes(SortTree(quick, s, lo, base, quickSize, mergeSize), log)
    ensures log == l1 + (l2 + l3) && Phases(s, lo, base, l1, l2, l3)
    decreases |s|, 1
  {
    var w, rest := SortTree(quick, s, lo, base, quickSize, mergeSize), [];
    l1, rest := SplitThen(w, log);
    l2, l3 := SplitThen(w.second, rest);
    ParallelQuarters(quick, s, lo, base, quickSize, mergeSize, l1);
    PairsFill(s, base, mergeSize, l2);
    BackFills(s, lo, mergeSize, l3);
  }

  /** In every interleaving of its futures, at every depth, cilksort sorts its range and writes
      nowhere outside it and its part of the temporary array. */
  lemma {:induction false} ParallelSort(quick: Quick, s: seq<int>, lo: nat, base: nat, quickSize: nat, mergeSize: nat,
                                        log: Puts)
    requires quickSize >= 4 && mergeSize >= 2 && QuickSorts(quick)
    requires Executes(SortTree(quick, s, lo, base, quickSize, mergeSize), log)
    ensures Sorts(log, s, lo, base)
    decreases |s|, 2
  {
    if |s| < quickSize {
      assert Unfold(0);
      assert SortsAt(0, log, s, lo, base);
    } else {
      var l1, l2, l3 := RunPhases(quick, s, lo, base, quickSize, mergeSize, log);
      PhasesSort(s, lo, base, l1, l2, l3);
    }
  }

  // What this means for the arrays

  /** An array that holds `t`, after the writes of `log` */
  ghost function After(log: Puts, toTmp: bool, t: seq<int>): (r: seq<int>)
    ensures |r| == |t|
    ensures forall i :: 0 <= i < |t| ==> r[i] == RunCell(Put, log, Dest(toTmp, i), t[i])
  {
    seq(|t|, i requires 0 <= i < |t| => RunCell(Put, log, Dest(toTmp, i), t[i]))
  }

  /** Every run of the parallel merge leaves what the sequential merge leaves. */
  lemma ParallelEqualsSequential(s: seq<int>, low1: nat, high1: int, low2: nat, high2: int,
                                 toTmp: bool, base: nat, mergeSize: nat, log: Puts, t: seq<int>)
    requires SortedSlice(s, low1, high1) && SortedSlice(s, low2, high2) && mergeSize >= 2
    requires low1 <= high1 || low2 <= high2
    requires base + (high1 - low1 + 1) + (high2 - low2 + 1) <= |t|
    requires Executes(MergeWork(s, low1, high1, low2, high2, toTmp, base, mergeSize), log)
    ensures After(log, toTmp, t) == MergedInto(s, low1, high1, low2, high2, t, base)
  {
    var full := Merge(s[low1..high1 + 1], s[low2..high2 + 1]);
    ParallelMerge(s, low1, high1, low2, high2, toTmp, base, mergeSize, log);
    MergedIs(s, low1, high1, low2, high2, t, base);
    FilledIsWritten(log, toTmp, base, full, t);
  }

  lemma FilledIsWritten(log: Puts, toTmp: bool, base: nat, full: seq<int>, t: seq<int>)
    requires Fills(log, toTmp, base, full) && base + |full| <= |t|
    ensures After(log, toTmp, t) == Write(t, base, full)
  {
    forall i | 0 <= i < |t| ensures After(log, toTmp, t)[i] == Write(t, base, full)[i] {
      FillsCell(log, toTmp, base, full, Dest(toTmp, i), t[i]);
    }
  }

  lemma OutsideUntouched(log: Puts, toTmp: bool, t: seq<int>, lo: nat, base: nat, n: nat)
    requires Within(log, lo, base, n) && (if toTmp then base else lo) + n <= |t|
    ensures var start := if toTmp then base else lo; SameOutside(t, After(log, toTmp, t), start, start + n)
  {
    var start, r := if toTmp then base else lo, After(log, toTmp, t);
    forall i | 0 <= i < |t| && !(start <= i < start + n) ensures r[i] == t[i] {
      RunCellUntouched(Put, log, Dest(toTmp, i), t[i]);
    }
  }

  lemma SortedAfter(log: Puts, a: seq<int>, lo: nat, base: nat, size: nat)
    requires lo + size <= |a| && Within(log, lo, base, size)
    requires Leaves(log, a[lo..lo + size], SortOf(a[lo..lo + size]), lo)
    ensures SortedSlice(After(log, false, a), lo, lo + size - 1) && Rearranged(a, After(log, false, a), lo, lo + size)
  {
    var s, r := a[lo..lo + size], After(log, false, a);
    OutsideUntouched(log, false, a, lo, base, size);
    assert r[lo..lo + size] == SortOf(s);
    SortedPart(r, lo, lo + size, s);
    SortOfSorts(s);
    RearrangedIf(a, r, lo, lo + size);
  }

  /** Whatever the order of the writes of its tasks, cilksort leaves its range of the array sorted,
      with the elements it had, and changes nothing else but its part of the temporary array. */
  lemma ParallelCilksort(quick: Quick, a: seq<int>, lo: nat, tmp: seq<int>, base: nat, size: nat,
                         quickSize: nat, mergeSize: nat, log: Puts)
    requires lo + size <= |a| && base + size <= |tmp| && quickSize >= 4 && mergeSize >= 2 && QuickSorts(quick)
    requires Executes(SortTree(quick, a[lo..lo + size], lo, base, quickSize, mergeSize), log)
    ensures SortedSlice(After(log, false, a), lo, lo + size - 1)
    ensures Rearranged(a, After(log, false, a), lo, lo + size)
    ensures SameOutside(tmp, After(log, true, tmp), base, base + size)
  {
    ParallelSort(quick, a[lo..lo + size], lo, base, quickSize, mergeSize, log);
    assert Within(log, lo, base, size) && Leaves(log, a[lo..lo + size], SortOf(a[lo..lo + size]), lo) by {
      assert Unfold(0);
    }
    SortedAfter(log, a, lo, base, size);
    OutsideUntouched(log, true, tmp, lo, base, size);
  }

  /** There is such a `quick`: the one that writes the sorted range from front to back. */
  lemma QuickExists()
    ensures exists quick: Quick :: QuickSorts(quick)
  {
    var quick: Quick := (s: seq<int>, lo: nat) => Copy(false, lo, SortOf(s));
    forall s: seq<int>, lo: nat
      ensures Sorts(quick(s, lo), s, lo, 0) && forall k :: 0 <= k < |quick(s, lo)| ==> quick(s, lo)[k].key.A?
    {
      var log := quick(s, lo);
      assert FillsAt(0, log, false, lo, SortOf(s));
      forall j | 0 <= j < |s| ensures RunCell(Put, log, A(lo + j), s[j]) == SortOf(s)[j] {
        FillsCell(log, false, lo, SortOf(s), A(lo + j), s[j]);
      }
      assert SortsAt(0, log, s, lo, 0);
    }
    assert QuickSorts(quick);
  }
}
