/** The merge sort of test/cilksort.c: the sequential merge in two phases, the binary split,
    the divide-and-conquer merge, and the sort itself, with the calls made in turn. CilksortTasks
    is about the tasks that the parallel versions spawn instead. */
module Cilksort {
  import opened Common
  import opened Sorting
  import opened Quicksort

  // seqmerge

  /** `t` with `full` written at `base` */
  ghost function Write(t: seq<int>, base: nat, full: seq<int>): seq<int>
    requires base + |full| <= |t|
  {
    t[..base] + full + t[base + |full|..]
  }

  ghost predicate Written(t: seq<int>, t0: seq<int>, base: nat, full: seq<int>)
  {
    base + |full| <= |t0| && t == Write(t0, base, full)
  }

  /** From `base` up to `d` the destination `t` holds the start of `full`, of which `rest` is
      still to come; outside the destination range nothing has changed since `t0`. */
  ghost predicate ProgressAt(t: seq<int>, t0: seq<int>, base: nat, d: nat, rest: seq<int>, full: seq<int>)
  {
    && |t| == |t0| && base <= d && base + |full| <= |t|
    && d - base + |rest| == |full| && t[base..d] + rest == full
    && t[..base] == t0[..base] && t[base + |full|..] == t0[base + |full|..]
  }

  /** ProgressAt, hidden except where Unfold is mentioned */
  ghost predicate Progress(t: seq<int>, t0: seq<int>, base: nat, d: nat, rest: seq<int>, full: seq<int>)
  {
    forall u: int {:trigger Unfold(u)} :: Unfold(u) ==> ProgressAt(t, t0, base, d, rest, full)
  }

  lemma ProgressStep(t: seq<int>, t0: seq<int>, base: nat, d: nat, rest: seq<int>, full: seq<int>)
    requires Progress(t, t0, base, d, rest, full) && rest != []
    ensures d < |t| && Progress(t[d := rest[0]], t0, base, d + 1, rest[1..], full)
  {
    assert Unfold(0);
    var t1 := t[d := rest[0]];
    assert t1[base..d + 1] == t[base..d] + [rest[0]];
    assert rest == [rest[0]] + rest[1..];
    assert t1[..base] == t[..base] && t1[base + |full|..] == t[base + |full|..];
  }

  lemma ProgressEnd(t: seq<int>, t0: seq<int>, base: nat, d: nat, full: seq<int>)
    requires Progress(t, t0, base, d, [], full)
    ensures Written(t, t0, base, full)
  {
    assert Unfold(0);
    assert t == t[..base] + t[base..d] + t[d..];
  }

  method Emit(dst: array<int>, d: nat, x: int, ghost t0: seq<int>, ghost base: nat, ghost rest: seq<int>,
              ghost full: seq<int>)
    requires Progress(dst[..], t0, base, d, rest, full) && rest != [] && rest[0] == x
    modifies dst
    ensures Progress(dst[..], t0, base, d + 1, rest[1..], full)
  {
    ProgressStep(dst[..], t0, base, d, rest, full);
    ghost var before := dst[..];
    dst[d] := x;
    assert dst[..] == before[d := x];
  }

  /** What is left to merge when the two fingers are at `l1` and `l2`. */
  ghost function Rest(s: seq<int>, l1: nat, high1: int, l2: nat, high2: int): seq<int>
    requires l1 - 1 <= high1 < |s| && l2 - 1 <= high2 < |s|
  {
    Merge(s[l1..high1 + 1], s[l2..high2 + 1])
  }

  lemma RestStep(s: seq<int>, l1: nat, high1: int, l2: nat, high2: int)
    requires l1 <= high1 < |s| && l2 <= high2 < |s|
    ensures var r := Rest(s, l1, high1, l2, high2);
            r != [] && if s[l1] < s[l2] then r[0] == s[l1] && r[1..] == Rest(s, l1 + 1, high1, l2, high2)
                       else r[0] == s[l2] && r[1..] == Rest(s, l1, high1, l2 + 1, high2)
  {
  }

  /** The merge of the two ranges is under way, with the fingers at `l1` and `l2`. */
  ghost predicate Merging(s: seq<int>, l1: nat, high1: int, l2: nat, high2: int,
                          t: seq<int>, t0: seq<int>, base: nat, d: nat, full: seq<int>)
  {
    && l1 - 1 <= high1 < |s| && l2 - 1 <= high2 < |s|
    && forall u: int {:trigger Unfold(u)} :: Unfold(u) ==> Progress(t, t0, base, d, Rest(s, l1, high1, l2, high2), full)
  }

  lemma MergingStart(s: seq<int>, l1: nat, high1: int, l2: nat, high2: int, t: seq<int>, base: nat)
    requires l1 - 1 <= high1 < |s| && l2 - 1 <= high2 < |s|
    requires base + (high1 - l1 + 1) + (high2 - l2 + 1) <= |t|
    ensures Merging(s, l1, high1, l2, high2, t, t, base, base, Rest(s, l1, high1, l2, high2))
  {
  }

  lemma MergingOver(s: seq<int>, l1: nat, high1: int, l2: nat, high2: int,
                    t: seq<int>, t0: seq<int>, base: nat, d: nat, full: seq<int>)
    requires Merging(s, l1, high1, l2, high2, t, t0, base, d, full)
    ensures l1 > high1 ==> Progress(t, t0, base, d, s[l2..high2 + 1], full)
    ensures l2 > high2 ==> Progress(t, t0, base, d, s[l1..high1 + 1], full)
  {
  }

  /** One comparison of seqmerge: the smaller head is written, the second on equality. */
  method MergeOne(src: array<int>, ghost s: seq<int>, l1: nat, ghost high1: int, l2: nat, ghost high2: int,
                  dst: array<int>, d: nat, ghost t0: seq<int>, ghost base: nat, ghost full: seq<int>)
    returns (m1: nat, m2: nat)
    requires src != dst && src[..] == s && l1 <= high1 < |s| && l2 <= high2 < |s|
    requires Merging(s, l1, high1, l2, high2, dst[..], t0, base, d, full)
    modifies dst
    ensures (m1 == l1 + 1 && m2 == l2) || (m1 == l1 && m2 == l2 + 1)
    ensures m1 <= high1 + 1 && m2 <= high2 + 1
    ensures Merging(s, m1, high1, m2, high2, dst[..], t0, base, d + 1, full)
  {
    assert Unfold(0);
    ghost var rest := Rest(s, l1, high1, l2, high2);
    RestStep(s, l1, high1, l2, high2);
    var a1, a2 := src[l1], src[l2];
    if a1 < a2 {
      Emit(dst, d, a1, t0, base, rest, full);
      m1, m2 := l1 + 1, l2;
    } else {
      Emit(dst, d, a2, t0, base, rest, full);
      m1, m2 := l1, l2 + 1;
    }
  }

  /** memcpy of the range that is left over */
  method CopyRest(src: array<int>, ghost s: seq<int>, low: nat, high: int, dst: array<int>, d: nat,
                  ghost t0: seq<int>, ghost base: nat, ghost full: seq<int>)
    requires src != dst && src[..] == s && low - 1 <= high < |s|
    requires Progress(dst[..], t0, base, d, s[low..high + 1], full)
    modifies dst
    ensures Written(dst[..], t0, base, full)
  {
    var i := low;
    while i <= high
      invariant low <= i <= high + 1
      invariant Progress(dst[..], t0, base, d + (i - low), s[i..high + 1], full)
    {
      ghost var rest := s[i..high + 1];
      Emit(dst, d + (i - low), src[i], t0, base, rest, full);
      assert rest[1..] == s[i + 1..high + 1];
      i := i + 1;
    }
    ProgressEnd(dst[..], t0, base, d + (i - low), full);
  }

  /** The loop of seqmerge that stops at the last element of either range, so that the next
      elements may be loaded without a test. */
  method FastPhase(src: array<int>, ghost s: seq<int>, low1: nat, high1: int, low2: nat, high2: int, dst: array<int>,
                   base: nat, ghost t0: seq<int>, ghost full: seq<int>)
    returns (l1: nat, l2: nat, d: nat)
    requires src != dst && src[..] == s && low1 < high1 < |s| && low2 < high2 < |s|
    requires Merging(s, low1, high1, low2, high2, dst[..], t0, base, base, full)
    modifies dst
    ensures low1 <= l1 <= high1 && low2 <= l2 <= high2
    ensures Merging(s, l1, high1, l2, high2, dst[..], t0, base, d, full)
  {
    l1, l2, d := low1, low2, base;
    while true
      invariant low1 <= l1 < high1 && low2 <= l2 < high2
      invariant Merging(s, l1, high1, l2, high2, dst[..], t0, base, d, full)
      decreases high1 - l1 + high2 - l2
    {
      l1, l2 := MergeOne(src, s, l1, high1, l2, high2, dst, d, t0, base, full);
      d := d + 1;
      if l1 >= high1 || l2 >= high2 {
        break;
      }
    }
  }

  /** The loop of seqmerge that runs until one range is used up */
  method SlowPhase(src: array<int>, ghost s: seq<int>, low1: nat, high1: int, low2: nat, high2: int, dst: array<int>,
                   lowdest: nat, ghost base: nat, ghost t0: seq<int>, ghost full: seq<int>)
    returns (l1: nat, l2: nat, d: nat)
    requires src != dst && src[..] == s && low1 <= high1 < |s| && low2 <= high2 < |s|
    requires Merging(s, low1, high1, low2, high2, dst[..], t0, base, lowdest, full)
    modifies dst
    ensures l1 > high1 || l2 > high2
    ensures Merging(s, l1, high1, l2, high2, dst[..], t0, base, d, full)
  {
    l1, l2, d := low1, low2, lowdest;
    while true
      invariant low1 <= l1 <= high1 && low2 <= l2 <= high2
      invariant Merging(s, l1, high1, l2, high2, dst[..], t0, base, d, full)
      decreases high1 - l1 + high2 - l2
    {
      l1, l2 := MergeOne(src, s, l1, high1, l2, high2, dst, d, t0, base, full);
      d := d + 1;
      if l1 > high1 || l2 > high2 {
        break;
      }
    }
  }

  /** Whatever the two ranges hold, the three phases together compute the simple merge. */
  method Seqmerge(src: array<int>, low1: nat, high1: int, low2: nat, high2: int, dst: array<int>, lowdest: nat)
    requires src != dst && low1 - 1 <= high1 < src.Length && low2 - 1 <= high2 < src.Length
    requires lowdest + (high1 - low1 + 1) + (high2 - low2 + 1) <= dst.Length
    modifies dst
    ensures Written(dst[..], old(dst[..]), lowdest, Merge(src[..][low1..high1 + 1], src[..][low2..high2 + 1]))
  {
    ghost var s, t0 := src[..], dst[..];
    ghost var full := Rest(s, low1, high1, low2, high2);
    MergingStart(s, low1, high1, low2, high2, t0, lowdest);
    var l1, l2, d := low1, low2, lowdest;
    if l1 < high1 && l2 < high2 {
      l1, l2, d := FastPhase(src, s, low1, high1, low2, high2, dst, lowdest, t0, full);
    }
    if l1 <= high1 && l2 <= high2 {
      l1, l2, d := SlowPhase(src, s, l1, high1, l2, high2, dst, d, lowdest, t0, full);
    }
    MergingOver(s, l1, high1, l2, high2, dst[..], t0, lowdest, d, full);
    if l1 > high1 {
      CopyRest(src, s, l2, high2, dst, d, t0, lowdest, full);
    } else {
      CopyRest(src, s, l1, high1, dst, d, t0, lowdest, full);
    }
    assert src[..] == s;
  }

  // binsplit

  predicate UnfoldSlice(d: int)
  {
    true
  }

  /** The range [low, high] of `s` is sorted. */
  ghost predicate SortedSlice(s: seq<int>, low: nat, high: int)
  {
    exists w: int :: SortedSliceAt(w, s, low, high)
  }

  /** The verifier looks behind this only where UnfoldSlice is mentioned. */
  ghost predicate SortedSliceAt(w: int, s: seq<int>, low: nat, high: int)
  {
    low - 1 <= high < |s| && forall u: int {:trigger UnfoldSlice(u)} :: UnfoldSlice(u) ==> SortedBetween(s, low, high)
  }

  lemma SubSlice(s: seq<int>, low: nat, high: int, low1: nat, high1: int)
    requires SortedSlice(s, low, high) && low <= low1 && low1 - 1 <= high1 <= high
    ensures SortedSlice(s, low1, high1)
  {
    assert UnfoldSlice(0);
    assert SortedSliceAt(0, s, low1, high1);
  }

  /** Up to `r` the range [low, high] is at most `val`, and beyond it at least `val`. */
  predicate SplitsAt(s: seq<int>, low: nat, r: int, high: int, val: int)
    requires high < |s|
  {
    && (forall i :: low <= i <= r && i <= high ==> s[i] <= val)
    && (forall i :: r < i <= high && low <= i ==> val <= s[i])
  }

  /** The index that binsplit returns: with duplicates the last element less than `val`, except
      that an element equal to `val` in first place is kept. */
  predicate SplitIndex(s: seq<int>, low: nat, r: int, high: nat, val: int)
    requires low <= high < |s|
  {
    && low - 1 <= r <= high
    && (forall i :: low < i <= high ==> (s[i] < val <==> i <= r))
    && (r >= low <==> s[low] <= val)
  }

  /** The comment on binsplit promises the index of the greatest element that is at most `val`, or
      low - 1. That is what it returns if and only if `val` comes first in the range, or nowhere. */
  lemma SplitIndexIsGreatest(s: seq<int>, low: nat, r: int, high: nat, val: int)
    requires low <= high < |s| && SortedBetween(s, low, high) && SplitIndex(s, low, r, high, val)
    ensures (if r < low then forall i :: low <= i <= high ==> s[i] > val
             else s[r] <= val && forall i :: low <= i <= high && s[i] <= val ==> s[i] <= s[r])
            <==> s[low] == val || forall i :: low <= i <= high ==> s[i] != val
  {
    if i :| low < i <= high && s[i] == val && s[low] != val {
      assert low <= r < i && s[low] <= s[i];
      assert r > low ==> s[r] < val;
    }
  }

  /** It is the last such index if and only if `val` comes nowhere after the first place. */
  lemma SplitIndexIsLast(s: seq<int>, low: nat, r: int, high: nat, val: int)
    requires low <= high < |s| && SortedBetween(s, low, high) && SplitIndex(s, low, r, high, val)
    ensures (forall i :: low <= i <= high ==> (s[i] <= val <==> i <= r))
            <==> forall i :: low < i <= high ==> s[i] != val
  {
    if i :| low < i <= high && s[i] == val {
      assert s[i] <= val && i > r;
    }
  }

  method Binsplit(a: array<int>, val: int, low: nat, high: nat) returns (r: int)
    requires low <= high && SortedSlice(a[..], low, high)
    ensures SplitIndex(a[..], low, r, high, val)
    ensures SplitsAt(a[..], low, r, high, val)
  {
    assert UnfoldSlice(0);
    var l, h := low, high;
    while l != h
      invariant low <= l <= h <= high
      invariant forall i :: h < i <= high ==> val <= a[i]
      invariant l > low ==> a[l] < val
      decreases h - l
    {
      var mid := l + (h - l + 1) / 2;
      if val <= a[mid] {
        h := mid - 1;
      } else {
        l := mid;
      }
      assert a[..][mid] == a[mid];
      assert forall i :: mid <= i <= high ==> a[..][mid] <= a[..][i];
    }
    assert forall i :: low <= i <= l ==> a[..][i] <= a[..][l];
    r := if a[l] > val then l - 1 else l;
  }

  /** Among 1, 2, 2 the index for 2 is that of the 1. */
  method BinsplitWitness() returns (r: int)
    ensures r == 0
  {
    var a := new int[3][1, 2, 2];
    assert a[..] == [1, 2, 2];
    assert SortedSliceAt(0, a[..], 0, 2);
    r := Binsplit(a, 2, 0, 2);
    assert a[..][1] == 2 && a[..][0] == 1;
  }

  // cilkmerge

  lemma MergeCommutes(a: seq<int>, b: seq<int>)
    requires Sorted(a) && Sorted(b)
    ensures Merge(a, b) == Merge(b, a)
  {
    MergePermutes(a, b);
    MergePermutes(b, a);
    MergeSorts(a, b);
    MergeSorts(b, a);
    SortedUnique(Merge(a, b), Merge(b, a));
  }

  lemma SortedJoin(a: seq<int>, x: int, b: seq<int>)
    requires Sorted(a) && Sorted(b) && AllBelow(a, x) && AllAbove(b, x)
    ensures Sorted(a + [x] + b)
  {
  }

  lemma PartsSorted(a1: seq<int>, x: int, a2: seq<int>, b1: seq<int>, b2: seq<int>)
    requires Sorted(a1) && Sorted(a2) && Sorted(b1) && Sorted(b2)
    requires AllBelow(a1, x) && AllAbove(a2, x) && AllBelow(b1, x) && AllAbove(b2, x)
    ensures Sorted(Merge(a1, b1) + [x] + Merge(a2, b2))
  {
    MergeSorts(a1, b1);
    MergeSorts(a2, b2);
    MergeBounded(a1, b1, x);
    MergeBounded(a2, b2, x);
    SortedJoin(Merge(a1, b1), x, Merge(a2, b2));
  }

  lemma PartsPermute(a1: seq<int>, x: int, a2: seq<int>, b1: seq<int>, b2: seq<int>)
    ensures multiset(Merge(a1, b1) + [x] + Merge(a2, b2)) == multiset(Merge(a1 + [x] + a2, b1 + b2))
  {
    MergePermutes(a1, b1);
    MergePermutes(a2, b2);
    MergePermutes(a1 + [x] + a2, b1 + b2);
  }

  lemma SortedParts(a1: seq<int>, x: int, a2: seq<int>)
    requires Sorted(a1 + [x] + a2)
    ensures Sorted(a1) && Sorted(a2) && AllBelow(a1, x) && AllAbove(a2, x)
  {
    var a := a1 + [x] + a2;
    assert a1 == a[..|a1|] && a2 == a[|a1| + 1..] && x == a[|a1|];
  }

  /** Splitting both ranges around the middle element of the first and merging the parts
      apart gives the merge of the whole ranges. */
  lemma MergeSplits(a1: seq<int>, x: int, a2: seq<int>, b1: seq<int>, b2: seq<int>)
    requires Sorted(a1 + [x] + a2) && Sorted(b1 + b2) && AllBelow(b1, x) && AllAbove(b2, x)
    ensures Merge(a1 + [x] + a2, b1 + b2) == Merge(a1, b1) + [x] + Merge(a2, b2)
  {
    SortedParts(a1, x, a2);
    assert Sorted(b1) && Sorted(b2) by {
      assert forall i :: 0 <= i < |b1| ==> (b1 + b2)[i] == b1[i];
      assert forall i :: 0 <= i < |b2| ==> (b1 + b2)[|b1| + i] == b2[i];
    }
    PartsSorted(a1, x, a2, b1, b2);
    PartsPermute(a1, x, a2, b1, b2);
    MergeSorts(a1 + [x] + a2, b1 + b2);
    SortedUnique(Merge(a1 + [x] + a2, b1 + b2), Merge(a1, b1) + [x] + Merge(a2, b2));
  }

  /** The element in the middle and the two merges beside it, written one after the other */
  lemma WritesJoin(t: seq<int>, base: nat, p: nat, low: seq<int>, x: int, high: seq<int>)
    requires p == base + |low| && p + 1 + |high| <= |t|
    ensures Write(Write(t[p := x], base, low), p + 1, high) == Write(t, base, low + [x] + high)
  {
  }

  /** Where the middle element goes, and what is merged below and above it */
  lemma SplitSlices(s: seq<int>, low1: nat, high1: int, low2: nat, high2: int, split1: nat, split2: int)
    requires low1 <= split1 <= high1 < |s| && low2 - 1 <= split2 <= high2 < |s|
    requires SortedSlice(s, low1, high1) && SortedSlice(s, low2, high2)
    requires SplitsAt(s, low2, split2, high2, s[split1])
    ensures Merge(s[low1..high1 + 1], s[low2..high2 + 1])
         == Merge(s[low1..split1], s[low2..split2 + 1]) + [s[split1]]
          + Merge(s[split1 + 1..high1 + 1], s[split2 + 1..high2 + 1])
  {
    SliceSorted(s, low1, high1);
    SliceSorted(s, low2, high2);
    var a1, a2 := s[low1..split1], s[split1 + 1..high1 + 1];
    var b1, b2 := s[low2..split2 + 1], s[split2 + 1..high2 + 1];
    assert s[low1..high1 + 1] == a1 + [s[split1]] + a2 && s[low2..high2 + 1] == b1 + b2;
    MergeSplits(a1, s[split1], a2, b1, b2);
  }

  /** `t` with the merge of two ranges of `s` written at `base`; the verifier looks at the
      definition only where Unfold is mentioned. */
  ghost function MergedInto(s: seq<int>, low1: nat, high1: int, low2: nat, high2: int, t: seq<int>,
                            base: nat): (r: seq<int>)
    requires low1 - 1 <= high1 < |s| && low2 - 1 <= high2 < |s|
    requires base + (high1 - low1 + 1) + (high2 - low2 + 1) <= |t|
    ensures |r| == |t|
  {
    var r :| |r| == |t| && forall u: int {:trigger Unfold(u)} :: Unfold(u) ==>
               r == Write(t, base, Merge(s[low1..high1 + 1], s[low2..high2 + 1]));
    r
  }

  lemma MergedIs(s: seq<int>, low1: nat, high1: int, low2: nat, high2: int, t: seq<int>, base: nat)
    requires low1 - 1 <= high1 < |s| && low2 - 1 <= high2 < |s|
    requires base + (high1 - low1 + 1) + (high2 - low2 + 1) <= |t|
    ensures MergedInto(s, low1, high1, low2, high2, t, base)
            == Write(t, base, Merge(s[low1..high1 + 1], s[low2..high2 + 1]))
  {
    assert Unfold(0);
  }

  lemma MergedSwap(s: seq<int>, low1: nat, high1: int, low2: nat, high2: int, t: seq<int>, base: nat)
    requires SortedSlice(s, low1, high1) && SortedSlice(s, low2, high2)
    requires base + (high1 - low1 + 1) + (high2 - low2 + 1) <= |t|
    ensures MergedInto(s, low1, high1, low2, high2, t, base) == MergedInto(s, low2, high2, low1, high1, t, base)
  {
    SliceSorted(s, low1, high1);
    SliceSorted(s, low2, high2);
    MergeCommutes(s[low1..high1 + 1], s[low2..high2 + 1]);
    MergedIs(s, low1, high1, low2, high2, t, base);
    MergedIs(s, low2, high2, low1, high1, t, base);
  }

  /** Two merges around the split element make up the merge of the whole. */
  lemma MergedJoin(s: seq<int>, low1: nat, high1: int, low2: nat, high2: int, split1: nat, split2: int, t: seq<int>,
                   base: nat, p: nat)
    requires low1 <= split1 <= high1 < |s| && low2 - 1 <= split2 <= high2 < |s|
    requires SortedSlice(s, low1, high1) && SortedSlice(s, low2, high2)
    requires SplitsAt(s, low2, split2, high2, s[split1])
    requires p == base + (split1 - low1) + (split2 + 1 - low2) && p + 1 + (high1 - split1) + (high2 - split2) <= |t|
    ensures MergedInto(s, split1 + 1, high1, split2 + 1, high2,
                       MergedInto(s, low1, split1 - 1, low2, split2, t[p := s[split1]], base), p + 1)
         == MergedInto(s, low1, high1, low2, high2, t, base)
  {
    var low, x := Merge(s[low1..split1], s[low2..split2 + 1]), s[split1];
    var high := Merge(s[split1 + 1..high1 + 1], s[split2 + 1..high2 + 1]);
    var t1 := MergedInto(s, low1, split1 - 1, low2, split2, t[p := x], base);
    calc {
      MergedInto(s, split1 + 1, high1, split2 + 1, high2, t1, p + 1);
    ==  { MergedIs(s, split1 + 1, high1, split2 + 1, high2, t1, p + 1); }
      Write(t1, p + 1, high);
    ==  { MergedIs(s, low1, split1 - 1, low2, split2, t[p := x], base); }
      Write(Write(t[p := x], base, low), p + 1, high);
    ==  { WritesJoin(t, base, p, low, x, high); }
      Write(t, base, low + [x] + high);
    ==  { SplitSlices(s, low1, high1, low2, high2, split1, split2); }
      Write(t, base, Merge(s[low1..high1 + 1], s[low2..high2 + 1]));
    ==  { MergedIs(s, low1, high1, low2, high2, t, base); }
      MergedInto(s, low1, high1, low2, high2, t, base);
    }
  }

  lemma SliceSorted(s: seq<int>, low: nat, high: int)
    requires low - 1 <= high < |s|
    ensures Sorted(s[low..high + 1]) <==> SortedSlice(s, low, high)
  {
    assert UnfoldSlice(0);
    var t := s[low..high + 1];
    assert forall i :: low <= i <= high ==> s[i] == t[i - low];
    if Sorted(t) {
      assert SortedSliceAt(0, s, low, high);
    }
  }

  /** The divide-and-conquer merge computes the simple merge of two sorted ranges. Two empty
      ranges make it copy a block of negative size, after which nothing is promised: `ok` is
      false exactly then. */
  method Cilkmerge(src: array<int>, ghost s: seq<int>, low1: nat, high1: int, low2: nat, high2: int, dst: array<int>,
                   lowdest: nat, mergeSize: nat)
    returns (ok: bool)
    requires src != dst && low1 - 1 <= high1 < src.Length && low2 - 1 <= high2 < src.Length
    requires src[..] == s && SortedSlice(s, low1, high1) && SortedSlice(s, low2, high2)
    requires lowdest + (high1 - low1 + 1) + (high2 - low2 + 1) <= dst.Length
    requires mergeSize >= 2
    modifies dst
    ensures ok <==> low1 <= high1 || low2 <= high2
    ensures ok ==> dst[..] == MergedInto(s, low1, high1, low2, high2, old(dst[..]), lowdest)
    decreases high1 - low1 + high2 - low2 + 2
  {
    if high2 - low2 > high1 - low1 {
      ok := OrderedMerge(src, s, low2, high2, low1, high1, dst, lowdest, mergeSize);
      MergedSwap(s, low2, high2, low1, high1, old(dst[..]), lowdest);
    } else {
      ok := OrderedMerge(src, s, low1, high1, low2, high2, dst, lowdest, mergeSize);
    }
  }

  /** cilkmerge once the first range is not the smaller one */
  method OrderedMerge(src: array<int>, ghost s: seq<int>, low1: nat, high1: int, low2: nat, high2: int,
                      dst: array<int>, lowdest: nat, mergeSize: nat)
    returns (ok: bool)
    requires src != dst && low1 - 1 <= high1 < src.Length && low2 - 1 <= high2 < src.Length
    requires src[..] == s && SortedSlice(s, low1, high1) && SortedSlice(s, low2, high2)
    requires high2 - low2 <= high1 - low1
    requires lowdest + (high1 - low1 + 1) + (high2 - low2 + 1) <= dst.Length
    requires mergeSize >= 2
    modifies dst
    ensures ok <==> low1 <= high1 || low2 <= high2
    ensures ok ==> dst[..] == MergedInto(s, low1, high1, low2, high2, old(dst[..]), lowdest)
    decreases high1 - low1 + high2 - low2 + 2, 1
  {
    ok := true;
    if high1 < low1 {
      // the block to copy has high2 - low2 elements
      ok := high2 - low2 >= 0;
    } else if high2 - low2 < mergeSize {
      Seqmerge(src, low1, high1, low2, high2, dst, lowdest);
      MergedIs(s, low1, high1, low2, high2, old(dst[..]), lowdest);
    } else {
      SplitMerge(src, s, low1, high1, low2, high2, dst, lowdest, mergeSize);
    }
  }

  /** Neither of the two merges gets two empty ranges. */
  method SplitMerge(src: array<int>, ghost s: seq<int>, low1: nat, high1: nat, low2: nat, high2: nat, dst: array<int>,
                    lowdest: nat, mergeSize: nat)
    requires src != dst && low1 <= high1 < src.Length && low2 <= high2 < src.Length
    requires src[..] == s && SortedSlice(s, low1, high1) && SortedSlice(s, low2, high2)
    requires mergeSize <= high2 - low2 <= high1 - low1
    requires lowdest + (high1 - low1 + 1) + (high2 - low2 + 1) <= dst.Length
    requires mergeSize >= 2
    modifies dst
    ensures dst[..] == MergedInto(s, low1, high1, low2, high2, old(dst[..]), lowdest)
    decreases high1 - low1 + high2 - low2 + 2, 0
  {
    ghost var t0 := dst[..];
    var split1 := (high1 - low1 + 1) / 2 + low1;
    var split2 := Binsplit(src, src[split1], low2, high2);
    var lowsize := split1 - low1 + split2 - low2;
    var p := lowdest + lowsize + 1;
    SubSlice(s, low1, high1, low1, split1 - 1);
    SubSlice(s, low1, high1, split1 + 1, high1);
    SubSlice(s, low2, high2, low2, split2);
    SubSlice(s, low2, high2, split2 + 1, high2);
    dst[p] := src[split1];
    assert dst[..] == t0[p := s[split1]];
    var ok := Cilkmerge(src, s, low1, split1 - 1, low2, split2, dst, lowdest, mergeSize);
    ok := Cilkmerge(src, s, split1 + 1, high1, split2 + 1, high2, dst, p + 1, mergeSize);
    MergedJoin(s, low1, high1, low2, high2, split1, split2, t0, lowdest, p);
  }

  /** Nothing to merge with nothing */
  method EmptyMerge() returns (ok: bool)
    ensures !ok
  {
    var src, dst := new int[0], new int[0];
    assert SortedSliceAt(0, src[..], 0, -1);
    ok := Cilkmerge(src, src[..], 0, -1, 0, -1, dst, 0, 2);
  }

  // cilksort

  ghost predicate SameOutside(t0: seq<int>, t: seq<int>, lo: nat, hi: nat)
  {
    lo <= hi <= |t0| && |t| == |t0| && t[..lo] == t0[..lo] && t[hi..] == t0[hi..]
  }

  lemma OutsideWider(t0: seq<int>, t: seq<int>, lo: nat, hi: nat, lo1: nat, hi1: nat)
    requires SameOutside(t0, t, lo, hi) && lo1 <= lo && hi <= hi1 <= |t0|
    ensures SameOutside(t0, t, lo1, hi1)
  {
  }

  lemma SliceKept(s: seq<int>, t: seq<int>, lo: nat, hi: nat, low: nat, high: int)
    requires Rearranged(s, t, lo, hi) && SortedSlice(s, low, high) && (high < lo || hi <= low)
    ensures SortedSlice(t, low, high)
  {
    assert UnfoldSlice(0);
    forall i | low <= i <= high ensures t[i] == s[i] {
      OutsideKept(s, t, lo, hi, i);
    }
    assert SortedSliceAt(0, t, low, high);
  }

  /** `a` sorted in four neighbouring parts, one after the other */
  lemma QuartersSorted(s0: seq<int>, s1: seq<int>, s2: seq<int>, s3: seq<int>, s4: seq<int>, lo: nat, q: nat, size: nat)
    requires 3 * q <= size && lo + size <= |s0|
    requires Rearranged(s0, s1, lo, lo + q) && SortedSlice(s1, lo, lo + q - 1)
    requires Rearranged(s1, s2, lo + q, lo + 2 * q) && SortedSlice(s2, lo + q, lo + 2 * q - 1)
    requires Rearranged(s2, s3, lo + 2 * q, lo + 3 * q) && SortedSlice(s3, lo + 2 * q, lo + 3 * q - 1)
    requires Rearranged(s3, s4, lo + 3 * q, lo + size) && SortedSlice(s4, lo + 3 * q, lo + size - 1)
    ensures Rearranged(s0, s4, lo, lo + size)
    ensures SortedSlice(s4, lo, lo + q - 1) && SortedSlice(s4, lo + q, lo + 2 * q - 1)
    ensures SortedSlice(s4, lo + 2 * q, lo + 3 * q - 1)
  {
    SliceKept(s1, s2, lo + q, lo + 2 * q, lo, lo + q - 1);
    SliceKept(s2, s3, lo + 2 * q, lo + 3 * q, lo, lo + q - 1);
    SliceKept(s3, s4, lo + 3 * q, lo + size, lo, lo + q - 1);
    SliceKept(s2, s3, lo + 2 * q, lo + 3 * q, lo + q, lo + 2 * q - 1);
    SliceKept(s3, s4, lo + 3 * q, lo + size, lo + q, lo + 2 * q - 1);
    SliceKept(s3, s4, lo + 3 * q, lo + size, lo + 2 * q, lo + 3 * q - 1);
    RearrangedWider(s0, s1, lo, lo + q, lo, lo + size);
    RearrangedWider(s1, s2, lo + q, lo + 2 * q, lo, lo + size);
    RearrangedWider(s2, s3, lo + 2 * q, lo + 3 * q, lo, lo + size);
    RearrangedWider(s3, s4, lo + 3 * q, lo + size, lo, lo + size);
    RearrangedTransitive(s0, s1, s2, lo, lo + size);
    RearrangedTransitive(s0, s2, s3, lo, lo + size);
    RearrangedTransitive(s0, s3, s4, lo, lo + size);
  }

  lemma QuartersOutside(t0: seq<int>, t1: seq<int>, t2: seq<int>, t3: seq<int>, t4: seq<int>, lo: nat, q: nat,
                        size: nat)
    requires 3 * q <= size && lo + size <= |t0|
    requires SameOutside(t0, t1, lo, lo + q) && SameOutside(t1, t2, lo + q, lo + 2 * q)
    requires SameOutside(t2, t3, lo + 2 * q, lo + 3 * q) && SameOutside(t3, t4, lo + 3 * q, lo + size)
    ensures SameOutside(t0, t4, lo, lo + size)
  {
    OutsideWider(t0, t1, lo, lo + q, lo, lo + size);
    OutsideWider(t1, t2, lo + q, lo + 2 * q, lo, lo + size);
    OutsideWider(t2, t3, lo + 2 * q, lo + 3 * q, lo, lo + size);
    OutsideWider(t3, t4, lo + 3 * q, lo + size, lo, lo + size);
  }

  lemma WriteSlices(t: seq<int>, base: nat, full: seq<int>)
    requires base + |full| <= |t|
    ensures Write(t, base, full)[base..base + |full|] == full
    ensures SameOutside(t, Write(t, base, full), base, base + |full|)
  {
  }

  /** What the merge writes is sorted and holds the elements of both ranges; nothing else changes. */
  lemma MergedFacts(s: seq<int>, low1: nat, high1: int, low2: nat, high2: int, t: seq<int>, base: nat, end: nat,
                    a: seq<int>, b: seq<int>)
    requires SortedSlice(s, low1, high1) && SortedSlice(s, low2, high2)
    requires a == s[low1..high1 + 1] && b == s[low2..high2 + 1]
    requires end == base + (high1 - low1 + 1) + (high2 - low2 + 1) <= |t|
    ensures var r := MergedInto(s, low1, high1, low2, high2, t, base);
            && SortedSlice(r, base, end - 1) && SameOutside(t, r, base, end)
            && multiset(r[base..end]) == multiset(a) + multiset(b)
  {
    SliceSorted(s, low1, high1);
    SliceSorted(s, low2, high2);
    MergeSorts(a, b);
    MergePermutes(a, b);
    MergedIs(s, low1, high1, low2, high2, t, base);
    WriteSlices(t, base, Merge(a, b));
    SliceSorted(MergedInto(s, low1, high1, low2, high2, t, base), base, end - 1);
  }

  lemma SliceBeforeKept(t: seq<int>, r: seq<int>, lo: nat, mid: nat, hi: nat)
    requires SameOutside(t, r, mid, hi) && lo <= mid
    ensures r[lo..mid] == t[lo..mid]
    ensures SortedSlice(t, lo, mid - 1) ==> SortedSlice(r, lo, mid - 1)
  {
    assert r[lo..mid] == r[..mid][lo..] && t[lo..mid] == t[..mid][lo..];
    SliceSorted(t, lo, mid - 1);
    SliceSorted(r, lo, mid - 1);
  }

  lemma HalvesJoin(t: seq<int>, t1: seq<int>, t2: seq<int>, base: nat, mid: nat, end: nat)
    requires SameOutside(t, t1, base, mid) && SameOutside(t1, t2, mid, end)
    ensures SameOutside(t, t2, base, end)
    ensures multiset(t2[base..end]) == multiset(t1[base..mid]) + multiset(t2[mid..end])
  {
    SliceBeforeKept(t1, t2, base, mid, end);
    assert t2[base..end] == t2[base..mid] + t2[mid..end];
    OutsideWider(t, t1, base, mid, base, end);
    OutsideWider(t1, t2, mid, end, base, end);
  }

  lemma FourParts(s: seq<int>, lo: nat, q: nat, size: nat)
    requires 3 * q <= size && lo + size <= |s|
    ensures multiset(s[lo..lo + size]) == multiset(s[lo..lo + q]) + multiset(s[lo + q..lo + 2 * q])
                                        + multiset(s[lo + 2 * q..lo + 3 * q]) + multiset(s[lo + 3 * q..lo + size])
  {
    assert s[lo..lo + size]
           == s[lo..lo + q] + s[lo + q..lo + 2 * q] + s[lo + 2 * q..lo + 3 * q] + s[lo + 3 * q..lo + size];
  }

  /** The two halves merged into the temporary array */
  lemma HalvesMerged(s: seq<int>, lo: nat, q: nat, size: nat, t: seq<int>, base: nat, mid: nat, t1: seq<int>,
                     t2: seq<int>)
    requires 3 * q <= size && lo + size <= |s| && base + size <= |t| && mid == base + 2 * q
    requires SortedSlice(s, lo, lo + q - 1) && SortedSlice(s, lo + q, lo + 2 * q - 1)
    requires SortedSlice(s, lo + 2 * q, lo + 3 * q - 1) && SortedSlice(s, lo + 3 * q, lo + size - 1)
    requires t1 == MergedInto(s, lo, lo + q - 1, lo + q, lo + 2 * q - 1, t, base)
    requires t2 == MergedInto(s, lo + 2 * q, lo + 3 * q - 1, lo + 3 * q, lo + size - 1, t1, mid)
    ensures SortedSlice(t2, base, mid - 1) && SortedSlice(t2, mid, base + size - 1)
    ensures SameOutside(t, t2, base, base + size)
    ensures multiset(t2[base..base + size]) == multiset(s[lo..lo + size])
  {
    var a, b := s[lo..lo + q], s[lo + q..lo + 2 * q];
    var c, d := s[lo + 2 * q..lo + 3 * q], s[lo + 3 * q..lo + size];
    MergedFacts(s, lo, lo + q - 1, lo + q, lo + 2 * q - 1, t, base, mid, a, b);
    MergedFacts(s, lo + 2 * q, lo + 3 * q - 1, lo + 3 * q, lo + size - 1, t1, mid, base + size, c, d);
    SliceBeforeKept(t1, t2, base, mid, base + size);
    HalvesJoin(t, t1, t2, base, mid, base + size);
    FourParts(s, lo, q, size);
  }

  /** The two halves merged back */
  lemma MergedBack(t: seq<int>, base: nat, half: nat, size: nat, s: seq<int>, lo: nat)
    requires half <= size && base + size <= |t| && lo + size <= |s|
    requires SortedSlice(t, base, base + half - 1) && SortedSlice(t, base + half, base + size - 1)
    requires multiset(t[base..base + size]) == multiset(s[lo..lo + size])
    ensures var s1 := MergedInto(t, base, base + half - 1, base + half, base + size - 1, s, lo);
            SortedSlice(s1, lo, lo + size - 1) && Rearranged(s, s1, lo, lo + size)
  {
    var s1 := MergedInto(t, base, base + half - 1, base + half, base + size - 1, s, lo);
    var a, b := t[base..base + half], t[base + half..base + size];
    MergedFacts(t, base, base + half - 1, base + half, base + size - 1, s, lo, lo + size, a, b);
    assert t[base..base + size] == a + b;
    RearrangedIf(s, s1, lo, lo + size);
  }

  /** Sorts `size` elements of `a` from `lo` on, with the same number of elements of `tmp` from
      `base` on as work space. The thresholds are 2048 in the source; 4 is what the division
      into quarters needs to end. */
  method Cilksort(a: array<int>, lo: nat, tmp: array<int>, base: nat, size: nat, quickSize: nat, mergeSize: nat)
    requires a != tmp && lo + size <= a.Length && base + size <= tmp.Length
    requires quickSize >= 4 && mergeSize >= 2
    modifies a, tmp
    ensures SortedSlice(a[..], lo, lo + size - 1)
    ensures Rearranged(old(a[..]), a[..], lo, lo + size)
    ensures SameOutside(old(tmp[..]), tmp[..], base, base + size)
    decreases size
  {
    if size < quickSize {
      Seqquick(a, lo, lo + size - 1);
      assert SortedSliceAt(0, a[..], lo, lo + size - 1);
    } else {
      var q := size / 4;
      ghost var s0 := a[..];
      SortQuarters(a, lo, tmp, base, size, quickSize, mergeSize);
      ghost var s := a[..];
      ghost var t := tmp[..];
      var ok := Cilkmerge(a, s, lo, lo + q - 1, lo + q, lo + 2 * q - 1, tmp, base, mergeSize);
      ghost var t1 := tmp[..];
      ok := Cilkmerge(a, s, lo + 2 * q, lo + 3 * q - 1, lo + 3 * q, lo + size - 1, tmp, base + 2 * q, mergeSize);
      ghost var t2 := tmp[..];
      HalvesMerged(s, lo, q, size, t, base, base + 2 * q, t1, t2);
      ok := Cilkmerge(tmp, t2, base, base + 2 * q - 1, base + 2 * q, base + size - 1, a, lo, mergeSize);
      MergedBack(t2, base, 2 * q, size, s, lo);
      RearrangedTransitive(s0, s, a[..], lo, lo + size);
    }
  }

  method SortQuarters(a: array<int>, lo: nat, tmp: array<int>, base: nat, size: nat, quickSize: nat, mergeSize: nat)
    requires a != tmp && lo + size <= a.Length && base + size <= tmp.Length
    requires 4 <= quickSize <= size && mergeSize >= 2
    modifies a, tmp
    ensures var q := size / 4;
            && SortedSlice(a[..], lo, lo + q - 1) && SortedSlice(a[..], lo + q, lo + 2 * q - 1)
            && SortedSlice(a[..], lo + 2 * q, lo + 3 * q - 1) && SortedSlice(a[..], lo + 3 * q, lo + size - 1)
    ensures Rearranged(old(a[..]), a[..], lo, lo + size)
    ensures SameOutside(old(tmp[..]), tmp[..], base, base + size)
    decreases size, 0
  {
    var q := size / 4;
    ghost var s0, t0 := a[..], tmp[..];
    Cilksort(a, lo, tmp, base, q, quickSize, mergeSize);
    ghost var s1, t1 := a[..], tmp[..];
    Cilksort(a, lo + q, tmp, base + q, q, quickSize, mergeSize);
    ghost var s2, t2 := a[..], tmp[..];
    Cilksort(a, lo + 2 * q, tmp, base + 2 * q, q, quickSize, mergeSize);
    ghost var s3, t3 := a[..], tmp[..];
    Cilksort(a, lo + 3 * q, tmp, base + 3 * q, size - 3 * q, quickSize, mergeSize);
    QuartersSorted(s0, s1, s2, s3, a[..], lo, q, size);
    QuartersOutside(t0, t1, t2, t3, tmp[..], base, q, size);
  }
}
