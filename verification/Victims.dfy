/** Choosing a victim on bit fields (src/runtime.c), and that it refines the choice on sets that
    the module Scheduler makes. `draws` stands for what rand_r returns. */
module Victims {
  import opened Bits
  import opened WorkerTree
  import opened Scheduler
  import opened SchedulerFacts

  /** INIT_VICTIMS stands for all workers if and only if there are at most 32 of them. */
  lemma InitVictims(n: nat)
    ensures Ones(Mask32(n)) == AllWorkers(n) <==> n <= 32
  {
    forall i: nat ensures i in Ones(Mask32(n)) <==> i in AllWorkers(n) && i < 32 {
      InOnes(Mask32(n), i);
      Mask32Bits(n, i);
      assert IsWorker(n, i) <==> i < n;
    }
    if n > 32 {
      assert IsWorker(n, 32) && 32 in AllWorkers(n);
    }
  }

  /** The recursion of mark_as_idle clears exactly the subtree. */
  method MarkAsIdle(victims: nat, w: int, n: nat) returns (r: nat)
    requires -1 <= w
    ensures Ones(r) == Ones(victims) - (if w < 0 then {} else Subtree(n, w))
    decreases if 0 <= w < n then n - w else 0
  {
    if w == -1 || w >= n {
      r := victims;
      if w >= 0 {
        SubtreeSplit(n, w);
      }
      return;
    }
    SubtreeSplit(n, w);
    SubtreeSplit(n, 2 * w + 1);
    SubtreeSplit(n, 2 * w + 2);
    r := MarkAsIdle(victims, LeftChild(w, n - 1), n);
    r := MarkAsIdle(r, RightChild(w, n - 1), n);
    ClearBit(r, w);
    r := AndNot(r, Pow2(w));
  }

  /** rightmost_victim: the smallest victim other than `id`, or -1 */
  method RightmostVictim(victims: nat, id: nat) returns (victim: int)
    ensures victim == -1 <==> Ones(victims) - {id} == {}
    ensures victim != -1 ==> victim >= 0 && victim in Ones(victims) - {id}
    ensures victim != -1 ==> forall v :: v in Ones(victims) - {id} ==> victim <= v
  {
    var candidates := victims;
    victim := RightmostOneBitPos(victims);
    if victim == id {
      ZeroRightmostOnes(victims);
      candidates := ZeroRightmost(victims);
      victim := RightmostOneBitPos(candidates);
    }
    NoBits(candidates);
    if candidates > 0 {
      SmallestIsLowest(candidates);
      if victims != candidates {
        assert victim in Ones(victims) - {id};
      } else {
        assert victim != id && victim in Ones(victims) - {id};
      }
    } else {
      assert Ones(victims) - {id} == {};
    }
  }

  lemma SmallestIsLowest(n: nat)
    requires n > 0
    ensures Lowest(n) in Ones(n) && forall v :: v in Ones(n) ==> Lowest(n) <= v
  {
    SomeBit(n);
    forall v | v in Ones(n) ensures Lowest(n) <= v {
      InOnes(n, v);
      LowestIsFirst(n, v);
    }
  }

  /** The one bits of `n`, each plus `i`, in increasing order */
  function BitList(n: nat, i: nat): seq<nat>
    decreases n
  {
    if n == 0 then [] else (if n % 2 == 1 then [i] else []) + BitList(n / 2, i + 1)
  }

  lemma {:induction false} InBitList(n: nat, i: nat, v: nat)
    ensures v in BitList(n, i) <==> v >= i && Bit(n, v - i)
    decreases n
  {
    if n == 0 {
      if v >= i {
        ZeroHasNoBit(v - i);
      }
    } else {
      InBitList(n / 2, i + 1, v);
    }
  }

  lemma {:induction false} BitListIncreases(n: nat, i: nat, k: nat, l: nat)
    requires k < l < |BitList(n, i)|
    ensures BitList(n, i)[k] < BitList(n, i)[l]
    decreases n
  {
    var rest := BitList(n / 2, i + 1);
    var d := if n % 2 == 1 then 1 else 0;
    if k >= d {
      BitListIncreases(n / 2, i + 1, k - d, l - d);
    } else {
      assert rest[l - 1] in rest;
      InBitList(n / 2, i + 1, rest[l - 1]);
    }
  }

  lemma {:induction false} SameSize(list: seq<nat>, s: set<nat>)
    requires forall v: nat :: v in list <==> v in s
    requires forall i, j :: 0 <= i < j < |list| ==> list[i] < list[j]
    ensures |list| == |s|
  {
    if list == [] {
      assert s == {};
    } else {
      var last := |list| - 1;
      forall v: nat ensures v in list[..last] <==> v in s - {list[last]} {
        assert v in list <==> v in list[..last] || v == list[last];
      }
      SameSize(list[..last], s - {list[last]});
    }
  }

  lemma BitListStep(list: seq<nat>, n: nat, i: nat)
    requires n != 0
    ensures list + BitList(n, i) == (if n % 2 == 1 then list + [i] else list) + BitList(n / 2, i + 1)
  {
  }

  lemma BitListIs(victims: nat)
    ensures |BitList(victims, 0)| == |Ones(victims)|
    ensures forall v: nat :: v in BitList(victims, 0) <==> v in Ones(victims)
    ensures forall i, j :: 0 <= i < j < |BitList(victims, 0)| ==> BitList(victims, 0)[i] < BitList(victims, 0)[j]
  {
    var list := BitList(victims, 0);
    forall v: nat ensures v in list <==> v in Ones(victims) {
      InBitList(victims, 0, v);
      InOnes(victims, v);
    }
    forall k, l | 0 <= k < l < |list| ensures list[k] < list[l] {
      BitListIncreases(victims, 0, k, l);
    }
    SameSize(list, Ones(victims));
  }

  /** The loop that lists the potential victims: all of them, once, in increasing order */
  method ListVictims(victims: nat, count: nat) returns (list: seq<nat>)
    requires count == |Ones(victims)|
    ensures |list| == count
    ensures forall v: nat :: v in list <==> v in Ones(victims)
    ensures forall i, j :: 0 <= i < j < |list| ==> list[i] < list[j]
  {
    list := [];
    var i, n := 0, victims;
    while n != 0
      invariant list + BitList(n, i) == BitList(victims, 0)
      decreases n
    {
      BitListStep(list, n, i);
      if n % 2 == 1 {
        list := list + [i];
      }
      i, n := i + 1, n / 2;
    }
    assert list == BitList(victims, 0);
    BitListIs(victims);
  }

  /** What random_victim asserts about the number of victims */
  lemma CountInRange(victims: nat, id: nat, n: nat)
    requires victims != 0 && Ones(victims) <= AllWorkers(n) && id < n && id !in Ones(victims)
    ensures 0 < |Ones(victims)| < n
  {
    SomeBit(victims);
    assert IsWorker(n, id) && Ones(victims) <= AllWorkers(n) - {id};
    RangeSize(n);
    SubsetSize(Ones(victims), AllWorkers(n) - {id});
  }

  /** random_victim: -1 without victims, otherwise a victim other than `id`, whatever is drawn */
  method RandomVictim(victims: nat, id: nat, n: nat, draws: seq<nat>) returns (victim: int)
    requires |draws| == 4 && Ones(victims) <= AllWorkers(n) && id < n && id !in Ones(victims)
    ensures victims == 0 ==> victim == -1
    ensures victims != 0 ==> 0 <= victim < n && victim in Ones(victims) && victim != id
  {
    if victims == 0 {
      return -1;
    }
    var i := 0;
    while i < 3
      invariant 0 <= i <= 3
    {
      var v := draws[i] % n;
      InOnes(victims, v);
      if Bit(victims, v) && v != id {
        return v;
      }
      i := i + 1;
    }
    SomeBit(victims);
    var count := CountOneBits(victims);
    CountInRange(victims, id, n);
    assert 0 < count < n;
    var list := ListVictims(victims, count);
    assert Lowest(victims) in list;
    victim := list[draws[3] % count];
    assert list[draws[3] % count] in list;
  }

  /** next_victim on a bit field does what Routed and IsNextVictim say on the set. */
  method NextVictim(x: Worker, w: nat, n: nat, id: nat, try: nat, bits: nat, draws: seq<nat>)
    returns (victim: nat, rest: nat)
    requires |draws| == 4 && w < n && id < n && try <= n - 1
    requires Ones(bits) <= AllWorkers(n) && id !in Ones(bits) - {w}
    ensures victim < n
    ensures forall r: Request :: r.id == id && r.try == try && r.victims == Ones(bits) ==>
              IsNextVictim(n, x, w, r, victim) && Routed(n, x, w, r) == r.(victims := Ones(rest))
  {
    ClearBit(bits, w);
    rest := AndNot(bits, Pow2(w));
    if try == n - 1 {
      return id, rest;
    }
    SubtreeSplit(n, 2 * w + 1);
    SubtreeSplit(n, 2 * w + 2);
    if x.left && x.right {
      rest := MarkAsIdle(rest, w, n);
    } else if x.left {
      rest := MarkAsIdle(rest, LeftChild(w, n - 1), n);
    } else if x.right {
      rest := MarkAsIdle(rest, RightChild(w, n - 1), n);
    }
    assert Ones(rest) == Pruned(n, x, w, Ones(bits));
    NoBits(rest);
    var v := RandomVictim(rest, id, n, draws);
    victim := if v == -1 then id else v;
  }
}
