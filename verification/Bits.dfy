/** Bit fields (src/bit.h): words as natural numbers, their bitwise operations, and the set of
    the one bits that a word stands for. */
module Bits {

  predicate Bit(n: nat, i: nat)
    decreases i
  {
    if i == 0 then n % 2 == 1 else Bit(n / 2, i - 1)
  }

  /** a & b */
  function And(a: nat, b: nat): nat
    decreases a
  {
    if a == 0 then 0 else (if a % 2 == 1 && b % 2 == 1 then 1 else 0) + 2 * And(a / 2, b / 2)
  }

  /** a & ~b */
  function AndNot(a: nat, b: nat): nat
    decreases a
  {
    if a == 0 then 0 else (if a % 2 == 1 && b % 2 == 0 then 1 else 0) + 2 * AndNot(a / 2, b / 2)
  }

  /** BIT(n) */
  function Pow2(n: nat): (p: nat)
    ensures p > 0
  {
    if n == 0 then 1 else 2 * Pow2(n - 1)
  }

  lemma {:induction false} BitBelow(n: nat, i: nat)
    requires Bit(n, i)
    ensures i < n
    decreases i
  {
    if i > 0 {
      BitBelow(n / 2, i - 1);
    }
  }

  lemma {:induction false} ZeroHasNoBit(i: nat)
    ensures !Bit(0, i)
  {
    if i > 0 {
      ZeroHasNoBit(i - 1);
    }
  }

  lemma {:induction false} AndBits(a: nat, b: nat, i: nat)
    ensures Bit(And(a, b), i) <==> Bit(a, i) && Bit(b, i)
    decreases i
  {
    if a == 0 {
      ZeroHasNoBit(i);
    } else if i > 0 {
      AndBits(a / 2, b / 2, i - 1);
    }
  }

  lemma {:induction false} AndNotBits(a: nat, b: nat, i: nat)
    ensures Bit(AndNot(a, b), i) <==> Bit(a, i) && !Bit(b, i)
    decreases i
  {
    if a == 0 {
      ZeroHasNoBit(i);
    } else if i > 0 {
      AndNotBits(a / 2, b / 2, i - 1);
    }
  }

  lemma {:induction false} Pow2Bits(n: nat, i: nat)
    ensures Bit(Pow2(n), i) <==> i == n
    decreases i
  {
    if n == 0 && i > 0 {
      ZeroHasNoBit(i - 1);
    } else if n > 0 && i > 0 {
      Pow2Bits(n - 1, i - 1);
    }
  }

  /** BIT(n) - 1 has the n lowest bits. */
  lemma {:induction false} MaskBits(n: nat, i: nat)
    ensures Bit(Pow2(n) - 1, i) <==> i < n
    decreases i
  {
    if n == 0 {
      ZeroHasNoBit(i);
    } else {
      assert (Pow2(n) - 1) / 2 == Pow2(n - 1) - 1 && (Pow2(n) - 1) % 2 == 1;
      if i > 0 {
        MaskBits(n - 1, i - 1);
      }
    }
  }

  /** BIT_MASK_32: the n lowest of 32 bits, or all of them */
  function Mask32(n: nat): nat
  {
    if n >= 32 then 0xFFFF_FFFF else Pow2(n) - 1
  }

  lemma Mask32Bits(n: nat, i: nat)
    ensures Bit(Mask32(n), i) <==> i < n && i < 32
  {
    assert Pow2(8) == 0x100;
    assert Pow2(16) == 0x1_0000 by {
      assert Pow2(12) == 0x1000;
    }
    assert Pow2(24) == 0x100_0000 by {
      assert Pow2(20) == 0x10_0000;
    }
    assert Pow2(32) == 0x1_0000_0000 by {
      assert Pow2(28) == 0x1000_0000;
    }
    MaskBits(if n >= 32 then 32 else n, i);
  }

  /** The set that a word stands for */
  function Ones(n: nat): set<nat>
  {
    set i: nat | i < n && Bit(n, i)
  }

  lemma InOnes(n: nat, i: nat)
    ensures i in Ones(n) <==> Bit(n, i)
  {
  }

  /** word &= ~BIT(i) */
  lemma ClearBit(n: nat, i: nat)
    ensures Ones(AndNot(n, Pow2(i))) == Ones(n) - {i}
  {
    forall j: nat ensures j in Ones(AndNot(n, Pow2(i))) <==> j in Ones(n) && j != i {
      InOnes(AndNot(n, Pow2(i)), j);
      InOnes(n, j);
      AndNotBits(n, Pow2(i), j);
      Pow2Bits(i, j);
    }
  }

  lemma {:induction false} SomeBit(n: nat)
    requires n > 0
    ensures Ones(n) != {} && Lowest(n) in Ones(n)
  {
    LowestIsFirst(n, 0);
    InOnes(n, Lowest(n));
  }

  lemma NoBits(n: nat)
    ensures n == 0 <==> Ones(n) == {}
  {
    if n > 0 {
      SomeBit(n);
    }
  }

  /** The position of the rightmost one bit */
  function Lowest(n: nat): nat
    requires n > 0
  {
    if n % 2 == 1 then 0 else 1 + Lowest(n / 2)
  }

  lemma {:induction false} LowestIsFirst(n: nat, i: nat)
    requires n > 0
    ensures Bit(n, Lowest(n)) && (Bit(n, i) ==> Lowest(n) <= i)
  {
    if n % 2 == 0 {
      LowestIsFirst(n / 2, if i > 0 then i - 1 else 0);
    }
  }

  /** ZERO_RIGHTMOST_ONE_BIT */
  function ZeroRightmost(n: nat): nat
    requires n > 0
  {
    And(n, n - 1)
  }

  lemma {:induction false} ZeroRightmostBits(n: nat, i: nat)
    requires n > 0
    ensures Bit(ZeroRightmost(n), i) <==> Bit(n, i) && i != Lowest(n)
    decreases n
  {
    if n % 2 == 1 {
      assert (n - 1) / 2 == n / 2;
      if i > 0 {
        AndBits(n / 2, n / 2, i - 1);
      }
    } else {
      assert (n - 1) / 2 == n / 2 - 1;
      if i > 0 {
        ZeroRightmostBits(n / 2, i - 1);
      }
    }
  }

  lemma ZeroRightmostOnes(n: nat)
    requires n > 0
    ensures Ones(ZeroRightmost(n)) == Ones(n) - {Lowest(n)} && Lowest(n) in Ones(n)
  {
    forall i: nat ensures i in Ones(ZeroRightmost(n)) <==> i in Ones(n) && i != Lowest(n) {
      InOnes(ZeroRightmost(n), i);
      InOnes(n, i);
      ZeroRightmostBits(n, i);
    }
    SomeBit(n);
  }

  /** ISOLATE_RIGHTMOST_ONE_BIT: n & ~(n - 1) */
  lemma {:induction false} IsolateRightmost(n: nat)
    requires n > 0
    ensures AndNot(n, n - 1) == Pow2(Lowest(n))
  {
    if n % 2 == 1 {
      assert (n - 1) / 2 == n / 2;
      NothingLeft(n / 2);
    } else {
      assert (n - 1) / 2 == n / 2 - 1;
      IsolateRightmost(n / 2);
    }
  }

  lemma {:induction false} NothingLeft(n: nat)
    ensures AndNot(n, n) == 0
  {
    if n > 0 {
      NothingLeft(n / 2);
    }
  }

  /** Each round clears one bit, so the rounds count the set. */
  method CountOneBits(n: nat) returns (count: nat)
    ensures count == |Ones(n)|
  {
    count := 0;
    var i := n;
    while i != 0
      invariant count + |Ones(i)| == |Ones(n)|
      decreases Ones(i)
    {
      ZeroRightmostOnes(i);
      i := ZeroRightmost(i);
      count := count + 1;
    }
    assert Ones(0) == {};
  }

  lemma HalfOfPow2(n: nat)
    ensures Pow2(n) / 2 == if n == 0 then 0 else Pow2(n - 1)
  {
  }

  /** The smallest element of the set, or -1 */
  method RightmostOneBitPos(n: nat) returns (pos: int)
    ensures n == 0 ==> pos == -1
    ensures n > 0 ==> pos == Lowest(n)
  {
    pos := -1;
    if n > 0 {
      IsolateRightmost(n);
    }
    ghost var p := if n == 0 then -1 else Lowest(n);
    var i := if n == 0 then 0 else AndNot(n, n - 1);
    while i != 0
      invariant -1 <= pos <= p && i == if pos == p then 0 else Pow2(p - pos - 1)
      decreases p - pos
    {
      HalfOfPow2(p - pos - 1);
      i := i / 2;
      pos := pos + 1;
    }
  }
}
