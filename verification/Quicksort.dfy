/** The sequential sort of test/cilksort.c: Hoare partition around a median of three,
    insertion sort, and the tail-recursive quicksort. Ranges are inclusive, as in the source,
    with high == low - 1 for an empty range. */
module Quicksort {
  import opened Sorting

  /** The median: some element is at most it, some element is at least it. */
  function Med3(a: int, b: int, c: int): (m: int)
    ensures m == a || m == b || m == c
    ensures (a <= m && b <= m) || (a <= m && c <= m) || (b <= m && c <= m)
    ensures (a >= m && b >= m) || (a >= m && c >= m) || (b >= m && c >= m)
  {
    if a < b then
      if b < c then b else if a < c then c else a
    else
      if b > c then b else if a > c then c else a
  }

  /** Everything up to `p` is at most everything after it. */
  predicate Partitioned(s: seq<int>, low: nat, p: int, high: int)
  {
    high < |s| && forall i, j :: low <= i <= p && p < j <= high ==> s[i] <= s[j]
  }

  // The two scans and the exchange of seqpart's loop

  method ScanDown(a: array<int>, from: nat, pivot: int, ghost atMost: nat) returns (curr: nat)
    requires atMost <= from < a.Length && a[atMost] <= pivot
    ensures atMost <= curr <= from && a[curr] <= pivot
    ensures forall j :: curr < j <= from ==> a[j] >= pivot
  {
    curr := from;
    while a[curr] > pivot
      invariant atMost <= curr <= from
      invariant forall j :: curr < j <= from ==> a[j] >= pivot
      decreases curr
    {
      curr := curr - 1;
    }
  }

  method ScanUp(a: array<int>, from: nat, pivot: int, ghost atLeast: nat) returns (curr: nat)
    requires from <= atLeast < a.Length && a[atLeast] >= pivot
    ensures from <= curr <= atLeast && a[curr] >= pivot
    ensures forall i :: from <= i < curr ==> a[i] <= pivot
  {
    curr := from;
    while a[curr] < pivot
      invariant from <= curr <= atLeast
      invariant forall i :: from <= i < curr ==> a[i] <= pivot
      decreases atLeast - curr
    {
      curr := curr + 1;
    }
  }

  method Exchange(a: array<int>, i: nat, j: nat, ghost original: seq<int>, ghost low: nat, ghost high: nat)
    requires low <= i < j <= high < a.Length && Rearranged(original, a[..], low, high + 1)
    modifies a
    ensures a[i] == old(a[j]) && a[j] == old(a[i])
    ensures forall k :: 0 <= k < a.Length && k != i && k != j ==> a[k] == old(a[k])
    ensures Rearranged(original, a[..], low, high + 1)
  {
    ghost var before := a[..];
    a[i], a[j] := a[j], a[i];
    SwapRearranges(before, i, j, low, high + 1);
    assert a[..] == before[i := before[j]][j := before[i]];
    RearrangedTransitive(original, before, a[..], low, high + 1);
  }

  method Seqpart(a: array<int>, low: nat, high: nat) returns (p: nat)
    requires low < high < a.Length
    modifies a
    ensures low <= p < high
    ensures Partitioned(a[..], low, p, high)
    ensures Rearranged(old(a[..]), a[..], low, high + 1)
  {
    var pivot := Med3(a[low], a[high], a[low + (high - low) / 2]);
    var currLow, currHigh := low, high;
    ghost var atMost, atLeast := PivotWitness(a[..], low, high, pivot);
    RearrangedIf(a[..], a[..], low, high + 1);
    while true
      invariant low <= currLow <= currHigh + 1 && currHigh <= high
      invariant forall i :: low <= i < currLow ==> a[i] <= pivot
      invariant forall j :: currHigh < j <= high ==> a[j] >= pivot
      invariant low <= atMost <= currHigh && a[atMost] <= pivot
      invariant currLow <= atLeast <= high && a[atLeast] >= pivot
      invariant Rearranged(old(a[..]), a[..], low, high + 1)
      decreases currHigh - currLow + 1
    {
      currHigh := ScanDown(a, currHigh, pivot, atMost);
      currLow := ScanUp(a, currLow, pivot, atLeast);
      if currLow >= currHigh {
        break;
      }
      Exchange(a, currLow, currHigh, old(a[..]), low, high);
      atMost, atLeast := currLow, currHigh;
      currHigh := currHigh - 1;
      currLow := currLow + 1;
    }
    p := if currHigh < high then currHigh else currHigh - 1;
  }

  lemma PivotWitness(s: seq<int>, low: nat, high: nat, pivot: int) returns (atMost: nat, atLeast: nat)
    requires low < high < |s| && pivot == Med3(s[low], s[high], s[low + (high - low) / 2])
    ensures low <= atMost <= high && s[atMost] <= pivot
    ensures low <= atLeast <= high && s[atLeast] >= pivot
  {
    atMost := if s[low] <= pivot then low else high;
    atLeast := if s[low] >= pivot then low else high;
  }

  // insertion_sort

  predicate SortedBetween(s: seq<int>, low: nat, high: int)
  {
    high < |s| && forall i, j :: low <= i < j <= high ==> s[i] <= s[j]
  }

  /** `s` with the elements from `p + 1` to `q - 1` copied one place up. */
  function Shifted(s: seq<int>, p: int, q: nat): seq<int>
    requires -1 <= p < q < |s|
  {
    s[..p + 2] + s[p + 1..q] + s[q + 1..]
  }

  function Inserted(s: seq<int>, p: int, q: nat): seq<int>
    requires -1 <= p < q < |s|
  {
    s[..p + 1] + [s[q]] + s[p + 1..q] + s[q + 1..]
  }

  lemma ShiftStep(s: seq<int>, p: nat, q: nat)
    requires p < q < |s|
    ensures Shifted(s, p, q)[p] == s[p] && Shifted(s, p, q)[p + 1 := s[p]] == Shifted(s, p - 1, q)
  {
  }

  lemma InsertStep(s: seq<int>, p: int, q: nat)
    requires -1 <= p < q < |s|
    ensures p >= 0 ==> Shifted(s, p, q)[p] == s[p]
    ensures Shifted(s, p, q)[p + 1 := s[q]] == Inserted(s, p, q)
  {
  }

  lemma InsertedRearranges(s: seq<int>, low: nat, p: int, q: nat)
    requires low <= q < |s| && low - 1 <= p < q
    ensures Rearranged(s, Inserted(s, p, q), low, q + 1)
  {
    var t := Inserted(s, p, q);
    assert t[low..q + 1] == s[low..p + 1] + [s[q]] + s[p + 1..q];
    assert s[low..q + 1] == s[low..p + 1] + s[p + 1..q] + [s[q]];
    assert t[..low] == s[..low] && t[q + 1..] == s[q + 1..];
    RearrangedIf(s, t, low, q + 1);
  }

  lemma InsertedSorted(s: seq<int>, low: nat, p: int, q: nat)
    requires low <= q < |s| && low - 1 <= p < q && SortedBetween(s, low, q - 1)
    requires p >= low ==> s[p] <= s[q]
    requires forall i :: p < i < q ==> s[q] < s[i]
    ensures SortedBetween(Inserted(s, p, q), low, q)
  {
  }

  /** The elements after `p` have moved up, and each of them is greater than the one to insert. */
  ghost predicate MovedUp(s: seq<int>, t: seq<int>, p: int, q: nat)
  {
    -1 <= p < q < |s| && t == Shifted(s, p, q) && forall i :: p < i < q ==> s[q] < s[i]
  }

  /** One round of the inner loop of insertion_sort */
  lemma MoveUp(s: seq<int>, t: seq<int>, p: nat, q: nat)
    requires MovedUp(s, t, p, q) && s[q] < s[p]
    ensures MovedUp(s, t[p + 1 := s[p]], p - 1, q)
  {
    ShiftStep(s, p, q);
  }

  /** The inner loop of insertion_sort: the greater elements before `q` move up by one. */
  method ShiftUp(a: array<int>, low: nat, q: nat) returns (p: int)
    requires low < q < a.Length
    modifies a
    ensures low - 1 <= p && MovedUp(old(a[..]), a[..], p, q)
    ensures p >= low ==> old(a[..])[p] <= old(a[..])[q]
  {
    ghost var s := a[..];
    var v := a[q];
    p := q - 1;
    assert Shifted(s, p, q) == s;
    while p >= low && a[p] > v
      invariant low - 1 <= p && MovedUp(s, a[..], p, q)
      invariant p >= low ==> a[p] == s[p]
    {
      ghost var t := a[..];
      MoveUp(s, t, p, q);
      a[p + 1] := a[p];
      assert a[..] == t[p + 1 := s[p]];
      p := p - 1;
      assert p >= low ==> a[..][p] == s[p];
    }
  }

  /** The element at `q` is inserted into the sorted part. */
  method InsertAt(a: array<int>, low: nat, q: nat)
    requires low < q < a.Length && SortedBetween(a[..], low, q - 1)
    modifies a
    ensures SortedBetween(a[..], low, q)
    ensures Rearranged(old(a[..]), a[..], low, q + 1)
  {
    ghost var s := a[..];
    var v := a[q];
    var p := ShiftUp(a, low, q);
    InsertStep(s, p, q);
    a[p + 1] := v;
    assert a[..] == Shifted(s, p, q)[p + 1 := v];
    InsertedRearranges(s, low, p, q);
    InsertedSorted(s, low, p, q);
  }

  method InsertionSort(a: array<int>, low: nat, high: int)
    requires low - 1 <= high < a.Length
    modifies a
    ensures SortedBetween(a[..], low, high)
    ensures Rearranged(old(a[..]), a[..], low, high + 1)
  {
    var q := low + 1;
    RearrangedIf(a[..], a[..], low, high + 1);
    while q <= high
      invariant low < q && (q <= high + 1 || high <= low)
      invariant SortedBetween(a[..], low, if q <= high + 1 then q - 1 else high)
      invariant Rearranged(old(a[..]), a[..], low, high + 1)
    {
      ghost var before := a[..];
      InsertAt(a, low, q);
      RearrangedWider(before, a[..], low, q + 1, low, high + 1);
      RearrangedTransitive(old(a[..]), before, a[..], low, high + 1);
      q := q + 1;
    }
  }

  // seqquick

  /** What the tail-recursive loop has done when it has moved `low` up to `mid`. */
  predicate SortedUpTo(s: seq<int>, low: nat, mid: nat, high: int)
  {
    && high < |s| && low <= mid <= high + 1
    && (forall i, j :: low <= i < j < mid ==> s[i] <= s[j])
    && (forall i, j :: low <= i < mid <= j <= high ==> s[i] <= s[j])
  }

  lemma SortLowerPart(s: seq<int>, t: seq<int>, low: nat, mid: nat, p: nat, high: nat)
    requires SortedUpTo(s, low, mid, high) && Partitioned(s, mid, p, high) && mid <= p < high
    requires Rearranged(s, t, mid, p + 1) && SortedBetween(t, mid, p)
    ensures SortedUpTo(t, low, p + 1, high)
  {
    forall i, j | low <= i < j < p + 1 ensures t[i] <= t[j] {
      if i < mid {
        OutsideKept(s, t, mid, p + 1, i);
        if j >= mid {
          BoundsKept(s, t, mid, p + 1, j);
        } else {
          OutsideKept(s, t, mid, p + 1, j);
        }
      }
    }
    forall i, j | low <= i < p + 1 <= j <= high ensures t[i] <= t[j] {
      OutsideKept(s, t, mid, p + 1, j);
      if i < mid {
        OutsideKept(s, t, mid, p + 1, i);
      } else {
        BoundsKept(s, t, mid, p + 1, i);
      }
    }
  }

  /** Partitioning the rest keeps what has been sorted below it. */
  lemma PartitionRest(s: seq<int>, t: seq<int>, low: nat, mid: nat, high: nat)
    requires SortedUpTo(s, low, mid, high) && Rearranged(s, t, mid, high + 1)
    ensures SortedUpTo(t, low, mid, high)
  {
    forall i, j | low <= i < j < mid ensures t[i] <= t[j] {
      OutsideKept(s, t, mid, high + 1, i);
      OutsideKept(s, t, mid, high + 1, j);
    }
    forall i, j | low <= i < mid <= j <= high ensures t[i] <= t[j] {
      OutsideKept(s, t, mid, high + 1, i);
      BoundsKept(s, t, mid, high + 1, j);
    }
  }

  lemma SortRest(s: seq<int>, t: seq<int>, low: nat, mid: nat, high: int)
    requires SortedUpTo(s, low, mid, high) && Rearranged(s, t, mid, high + 1) && SortedBetween(t, mid, high)
    ensures SortedBetween(t, low, high)
  {
    if mid <= high {
      PartitionRest(s, t, low, mid, high);
    } else {
      forall i, j | low <= i < j <= high ensures t[i] <= t[j] {
        OutsideKept(s, t, mid, high + 1, i);
        OutsideKept(s, t, mid, high + 1, j);
      }
    }
  }

  const INSERTIONSIZE := 20

  /** One round of the loop of seqquick. */
  method QuickRound(a: array<int>, low: nat, mid: nat, high: nat) returns (next: nat)
    requires high < a.Length && low <= mid && mid + INSERTIONSIZE <= high && SortedUpTo(a[..], low, mid, high)
    modifies a
    ensures mid < next <= high && SortedUpTo(a[..], low, next, high)
    ensures Rearranged(old(a[..]), a[..], low, high + 1)
    decreases high - mid, 0
  {
    ghost var s0 := a[..];
    var p := Seqpart(a, mid, high);
    ghost var s1 := a[..];
    PartitionRest(s0, s1, low, mid, high);
    RearrangedWider(s0, s1, mid, high + 1, low, high + 1);
    Seqquick(a, mid, p);
    ghost var s2 := a[..];
    SortLowerPart(s1, s2, low, mid, p, high);
    RearrangedWider(s1, s2, mid, p + 1, low, high + 1);
    RearrangedTransitive(s0, s1, s2, low, high + 1);
    next := p + 1;
  }

  method Seqquick(a: array<int>, low: nat, high: int)
    requires low - 1 <= high < a.Length
    modifies a
    ensures SortedBetween(a[..], low, high)
    ensures Rearranged(old(a[..]), a[..], low, high + 1)
    decreases high - low, 1
  {
    var mid := low;
    RearrangedIf(a[..], a[..], low, high + 1);
    while high - mid >= INSERTIONSIZE
      invariant low <= mid <= high + 1 && SortedUpTo(a[..], low, mid, high)
      invariant Rearranged(old(a[..]), a[..], low, high + 1)
      decreases high - mid
    {
      ghost var before := a[..];
      mid := QuickRound(a, low, mid, high);
      RearrangedTransitive(old(a[..]), before, a[..], low, high + 1);
    }
    ghost var s := a[..];
    InsertionSort(a, mid, high);
    SortRest(s, a[..], low, mid, high);
    RearrangedWider(s, a[..], mid, high + 1, low, high + 1);
    RearrangedTransitive(old(a[..]), s, a[..], low, high + 1);
  }
}
