/** Sequences that differ by a rearrangement of one range, and the merge of two sequences. */
module Sorting {
  import opened Common

  predicate Sorted(s: seq<int>)
  {
    forall i, j :: 0 <= i < j < |s| ==> s[i] <= s[j]
  }

  /** `t` has the elements of `s`, rearranged within [lo, hi) and unchanged elsewhere. */
  ghost predicate Rearranged(s: seq<int>, t: seq<int>, lo: nat, hi: nat)
  {
    exists w: int :: RearrangedAt(w, s, t, lo, hi)
  }

  /** The verifier looks behind this only where Unfold is mentioned. */
  ghost predicate RearrangedAt(w: int, s: seq<int>, t: seq<int>, lo: nat, hi: nat)
  {
    && lo <= hi <= |s| && |s| == |t|
    && (forall d: int {:trigger Unfold(d)} :: Unfold(d) ==> IsRearrangement(s, t, lo, hi))
  }

  predicate IsRearrangement(s: seq<int>, t: seq<int>, lo: nat, hi: nat)
    requires lo <= hi <= |s| && |s| == |t|
  {
    && t[..lo] == s[..lo] && t[hi..] == s[hi..]
    && multiset(t[lo..hi]) == multiset(s[lo..hi])
  }

  lemma RearrangedIf(s: seq<int>, t: seq<int>, lo: nat, hi: nat)
    requires lo <= hi <= |s| && |s| == |t| && IsRearrangement(s, t, lo, hi)
    ensures Rearranged(s, t, lo, hi)
  {
    assert RearrangedAt(0, s, t, lo, hi);
  }

  lemma RearrangedWider(s: seq<int>, t: seq<int>, lo: nat, hi: nat, lo1: nat, hi1: nat)
    requires Rearranged(s, t, lo, hi) && lo1 <= lo && hi <= hi1 <= |s|
    ensures Rearranged(s, t, lo1, hi1)
  {
    assert Unfold(0);
    assert s[lo1..hi1] == s[lo1..lo] + s[lo..hi] + s[hi..hi1];
    assert t[lo1..hi1] == t[lo1..lo] + t[lo..hi] + t[hi..hi1];
    assert t[lo1..lo] == t[..lo][lo1..] == s[lo1..lo];
    assert t[hi..hi1] == t[hi..][..hi1 - hi] == s[hi..hi1];
    assert t[..lo1] == t[..lo][..lo1];
    assert s[..lo1] == s[..lo][..lo1];
    assert t[hi1..] == t[hi..][hi1 - hi..];
    assert s[hi1..] == s[hi..][hi1 - hi..];
    assert RearrangedAt(0, s, t, lo1, hi1);
  }

  lemma RearrangedTransitive(s: seq<int>, t: seq<int>, u: seq<int>, lo: nat, hi: nat)
    requires Rearranged(s, t, lo, hi) && Rearranged(t, u, lo, hi)
    ensures Rearranged(s, u, lo, hi)
  {
    assert Unfold(0);
    assert RearrangedAt(0, s, u, lo, hi);
  }

  lemma SwapRearranges(s: seq<int>, i: nat, j: nat, lo: nat, hi: nat)
    requires lo <= i < j < hi <= |s|
    ensures Rearranged(s, s[i := s[j]][j := s[i]], lo, hi)
  {
    assert Unfold(0);
    var t := s[i := s[j]][j := s[i]];
    var a := s[lo..hi];
    assert t[lo..hi] == a[i - lo := a[j - lo]][j - lo := a[i - lo]];
    assert RearrangedAt(0, s, t, lo, hi);
  }

  /** A bound on the range before is a bound on the range after. */
  lemma BoundsKept(s: seq<int>, t: seq<int>, lo: nat, hi: nat, k: nat)
    requires Rearranged(s, t, lo, hi) && lo <= k < hi
    ensures exists j :: lo <= j < hi && s[j] == t[k]
  {
    assert Unfold(0);
    assert t[lo..hi][k - lo] == t[k];
    assert t[k] in multiset(t[lo..hi]);
    assert t[k] in s[lo..hi];
    var j :| 0 <= j < hi - lo && s[lo..hi][j] == t[k];
    assert s[lo + j] == t[k];
  }

  lemma OutsideKept(s: seq<int>, t: seq<int>, lo: nat, hi: nat, k: nat)
    requires Rearranged(s, t, lo, hi) && k < |s| && (k < lo || hi <= k)
    ensures t[k] == s[k]
  {
    assert Unfold(0);
    if k < lo {
      assert t[..lo][k] == t[k] && s[..lo][k] == s[k];
    } else {
      assert t[hi..][k - hi] == t[k] && s[hi..][k - hi] == s[k];
    }
  }

  // Merging

  /** The two-finger merge, which takes from the second sequence on equality. */
  function Merge(a: seq<int>, b: seq<int>): (c: seq<int>)
    ensures |c| == |a| + |b|
  {
    if a == [] then b
    else if b == [] then a
    else if a[0] < b[0] then [a[0]] + Merge(a[1..], b)
    else [b[0]] + Merge(a, b[1..])
  }

  lemma HeadAndTail(a: seq<int>)
    requires a != []
    ensures multiset(a) == multiset{a[0]} + multiset(a[1..])
  {
    assert a == [a[0]] + a[1..];
  }

  lemma {:induction false} MergePermutes(a: seq<int>, b: seq<int>)
    ensures multiset(Merge(a, b)) == multiset(a) + multiset(b)
  {
    if a != [] && b != [] {
      if a[0] < b[0] {
        MergePermutes(a[1..], b);
        HeadAndTail(a);
      } else {
        MergePermutes(a, b[1..]);
        HeadAndTail(b);
      }
    }
  }

  ghost predicate AllBelow(s: seq<int>, x: int)
  {
    forall i :: 0 <= i < |s| ==> s[i] <= x
  }

  ghost predicate AllAbove(s: seq<int>, x: int)
  {
    forall i :: 0 <= i < |s| ==> x <= s[i]
  }

  lemma MergeBounded(a: seq<int>, b: seq<int>, x: int)
    ensures AllBelow(a, x) && AllBelow(b, x) ==> AllBelow(Merge(a, b), x)
    ensures AllAbove(a, x) && AllAbove(b, x) ==> AllAbove(Merge(a, b), x)
  {
  }

  lemma {:induction false} MergeSorts(a: seq<int>, b: seq<int>)
    requires Sorted(a) && Sorted(b)
    ensures Sorted(Merge(a, b))
  {
    if a != [] && b != [] {
      if a[0] < b[0] {
        MergeSorts(a[1..], b);
        MergeBounded(a[1..], b, a[0]);
      } else {
        MergeSorts(a, b[1..]);
        MergeBounded(a, b[1..], b[0]);
      }
    }
  }

  lemma SameHead(s: seq<int>, t: seq<int>)
    requires Sorted(s) && Sorted(t) && multiset(s) == multiset(t) && s != [] && t != []
    ensures s[0] == t[0]
  {
    assert s[0] in multiset(t) && t[0] in multiset(s);
  }

  lemma SameTails(s: seq<int>, t: seq<int>)
    requires multiset(s) == multiset(t) && s != [] && t != [] && s[0] == t[0]
    ensures multiset(s[1..]) == multiset(t[1..])
  {
    HeadAndTail(s);
    HeadAndTail(t);
    assert multiset(s[1..]) == multiset(s) - multiset{s[0]};
    assert multiset(t[1..]) == multiset(t) - multiset{t[0]};
  }

  /** A sorted sequence is determined by its elements. */
  lemma {:induction false} SortedUnique(s: seq<int>, t: seq<int>)
    requires Sorted(s) && Sorted(t) && multiset(s) == multiset(t)
    ensures s == t
  {
    assert |s| == |multiset(s)| == |multiset(t)| == |t|;
    if s != [] {
      SameHead(s, t);
      SameTails(s, t);
      SortedUnique(s[1..], t[1..]);
      assert s == [s[0]] + s[1..] && t == [t[0]] + t[1..];
    }
  }
}
