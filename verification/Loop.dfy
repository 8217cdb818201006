/** Splittable loop tasks: the three splitting strategies and `split_loop` (src/runtime.c), and the
    fold that REDUCE (include/future_internal.h) computes. */
module Loop {
  import opened Common

  // Splitting strategies

  /** A worker that splits adaptively has just received a request, so it counts at least one
      idle worker (NumIdle in the module WorkerTree). */
  datatype AnyStrategy = Half | Guided(numWorkers: nat) | Adaptive(numIdle: nat)

  type Strategy = s: AnyStrategy |
      (s.Guided? ==> s.numWorkers >= 1) && (s.Adaptive? ==> s.numIdle >= 1)
    witness Half

  /** C's division by two, which truncates toward zero */
  function Halved(x: int): int
  {
    if x < 0 then -(-x / 2) else x / 2
  }

  function SplitHalf(cur: int, end: int): int
  {
    cur + Halved(end - cur)
  }

  /** `split_half`, `split_guided` and `split_adaptive`, for every range that SPLITTABLE lets
      through */
  function SplitPoint(strategy: Strategy, start: int, cur: int, end: int): int
    requires Abs(end - cur) > 1
  {
    match strategy
    case Half => SplitHalf(cur, end)
    case Guided(numWorkers) =>
      var chunk := Max(Abs(end - start) / numWorkers, 1);
      if Abs(end - cur) <= chunk then SplitHalf(cur, end) else end - chunk
    case Adaptive(numIdle) => end - Max(Abs(end - cur) / (numIdle + 1), 1)
  }

  lemma QuotientShrinks(a: nat, b: nat)
    requires a > 1 && b > 1
    ensures a / b < a
  {
    var q := a / b;
    assert a == q * b + a % b;
    assert q * b >= q * 2 by {
      assert q * (b - 2) >= 0;
    }
  }

  /** Of a loop that counts up, both sides of a split get an iteration. */
  lemma SplitsInside(strategy: Strategy, start: int, cur: int, end: int)
    requires start <= cur && end - cur > 1
    ensures cur < SplitPoint(strategy, start, cur, end) < end
  {
    if strategy.Adaptive? {
      QuotientShrinks(end - cur, strategy.numIdle + 1);
    }
  }

  // How much the thief gets

  /** One of `parts` equal shares of `len` iterations, rounded down, but at least one iteration */
  predicate FairShare(share: int, len: nat, parts: nat)
  {
    if parts <= len then share * parts <= len < (share + 1) * parts else share == 1
  }

  /** Half of what is left stays, rounded down; the thief gets the other half. */
  predicate HalfStays(cur: int, split: int, end: int)
  {
    && 2 * Abs(split - cur) <= Abs(end - cur) <= 2 * Abs(split - cur) + 1
    && (cur <= split <= end || end <= split <= cur)
  }

  /** What the strategies promise, for every range that SPLITTABLE lets through: half of what is
      left; one worker's share of the whole range, until no more than that is left; or an equal
      share of what is left for each idle worker and for this one. */
  ghost predicate SharesOut(strategy: Strategy, start: int, cur: int, split: int, end: int)
  {
    match strategy
    case Half => HalfStays(cur, split, end)
    case Guided(numWorkers) => exists chunk :: GuidedBy(chunk, numWorkers, start, cur, split, end)
    case Adaptive(numIdle) => FairShare(end - split, Abs(end - cur), numIdle + 1)
  }

  predicate GuidedBy(chunk: int, numWorkers: nat, start: int, cur: int, split: int, end: int)
  {
    && FairShare(chunk, Abs(end - start), numWorkers)
    && if Abs(end - cur) <= chunk then HalfStays(cur, split, end) else split == end - chunk
  }

  lemma Multiples(a: int, b: int, parts: nat)
    requires a <= b
    ensures a * parts <= b * parts && (a + 1) * parts == a * parts + parts
  {
  }

  lemma FairQuotient(len: nat, parts: nat)
    requires parts >= 1
    ensures FairShare(Max(len / parts, 1), len, parts)
  {
    var q := len / parts;
    assert len == q * parts + len % parts;
    Multiples(q, q, parts);
    if q < 1 {
      Multiples(q, 0, parts);
    } else {
      Multiples(1, q, parts);
    }
  }

  /** There is only one fair share. */
  lemma FairShareUnique(a: int, b: int, len: nat, parts: nat)
    requires parts >= 1 && FairShare(a, len, parts) && FairShare(b, len, parts)
    ensures a == b
  {
    if a < b {
      Multiples(a + 1, b, parts);
    } else if b < a {
      Multiples(b + 1, a, parts);
    }
  }

  lemma SplitsFairly(strategy: Strategy, start: int, cur: int, end: int)
    requires Abs(end - cur) > 1
    ensures SharesOut(strategy, start, cur, SplitPoint(strategy, start, cur, end), end)
  {
    match strategy
    case Half =>
    case Guided(numWorkers) =>
      FairQuotient(Abs(end - start), numWorkers);
      var chunk := Max(Abs(end - start) / numWorkers, 1);
      assert GuidedBy(chunk, numWorkers, start, cur, SplitPoint(strategy, start, cur, end), end);
    case Adaptive(numIdle) =>
      FairQuotient(Abs(end - cur), numIdle + 1);
  }

  /** The range that is left is split in the middle. */
  predicate SplitsInMiddle(strategy: Strategy, start: int, cur: int, end: int)
  {
    strategy.Half? || (strategy.Guided? && Abs(end - cur) <= Max(Abs(end - start) / strategy.numWorkers, 1))
  }

  /** SPLITTABLE takes an absolute value, so it also lets through a loop whose end lies below its
      start, which has no iterations. The part that is split off is empty like the loop itself
      exactly when the range is halved; otherwise it gets iterations that the loop never had. */
  lemma EmptyLoopSplits(strategy: Strategy, start: int, cur: int, end: int)
    requires cur - end > 1
    ensures SplitPoint(strategy, start, cur, end) >= end <==> SplitsInMiddle(strategy, start, cur, end)
  {
  }

  /** A loop from 10 to 0, split with two workers: the thief runs -5, ..., -1. */
  lemma EmptyLoopWitness()
    ensures SplitPoint(Guided(2), 10, 10, 0) == -5
  {
    assert Abs(0 - 10) / 2 == 5;
  }

  // The specification: a left-to-right fold over the iterations visited

  /** An iteration of a loop */
  type Iteration = (nat, int)

  predicate AssociativeAt<T(==)>(op: (T, T) -> T, a: T, b: T, c: T)
  {
    op(op(a, b), c) == op(a, op(b, c))
  }

  ghost predicate Associative<T(!new)>(op: (T, T) -> T)
  {
    forall a, b, c {:trigger AssociativeAt(op, a, b, c)} :: AssociativeAt(op, a, b, c)
  }

  predicate UnitAt<T(==)>(op: (T, T) -> T, unit: T, a: T)
  {
    op(unit, a) == a && op(a, unit) == a
  }

  ghost predicate IsUnit<T(!new)>(op: (T, T) -> T, unit: T)
  {
    forall a {:trigger UnitAt(op, unit, a)} :: UnitAt(op, unit, a)
  }

  /** f(v[0]) op f(v[1]) op ... */
  function Fold<T>(f: Iteration -> T, op: (T, T) -> T, unit: T, v: seq<Iteration>): T
  {
    if v == [] then unit else op(Fold(f, op, unit, v[..|v| - 1]), f(v[|v| - 1]))
  }

  lemma {:induction false} FoldJoins<T(!new)>(f: Iteration -> T, op: (T, T) -> T, unit: T, a: seq<Iteration>,
                                              b: seq<Iteration>)
    requires Associative(op) && IsUnit(op, unit)
    ensures op(Fold(f, op, unit, a), Fold(f, op, unit, b)) == Fold(f, op, unit, a + b)
  {
    if b == [] {
      assert a + b == a;
      assert UnitAt(op, unit, Fold(f, op, unit, a));
    } else {
      var last := |b| - 1;
      FoldJoins(f, op, unit, a, b[..last]);
      assert (a + b)[..|a + b| - 1] == a + b[..last];
      assert AssociativeAt(op, Fold(f, op, unit, a), Fold(f, op, unit, b[..last]), f(b[last]));
    }
  }

  lemma FoldStep<T>(f: Iteration -> T, op: (T, T) -> T, unit: T, v: seq<Iteration>, x: Iteration)
    ensures Fold(f, op, unit, v + [x]) == op(Fold(f, op, unit, v), f(x))
  {
    assert (v + [x])[..|v|] == v;
  }

  /** The iterations from `lo` to `hi - 1`, in order */
  function Range(loop: nat, lo: int, hi: int): seq<Iteration>
  {
    seq(if lo <= hi then hi - lo else 0, i => (loop, lo + i))
  }

  lemma RangeJoins(loop: nat, lo: int, mid: int, hi: int)
    requires lo <= mid <= hi
    ensures Range(loop, lo, mid) + Range(loop, mid, hi) == Range(loop, lo, hi)
  {
  }

  /** One iteration more */
  lemma VisitStep<T>(f: Iteration -> T, op: (T, T) -> T, unit: T, loop: nat, lo: int, hi: int)
    requires lo <= hi
    ensures Range(loop, lo, hi) + [(loop, hi)] == Range(loop, lo, hi + 1)
    ensures Fold(f, op, unit, Range(loop, lo, hi + 1)) == op(Fold(f, op, unit, Range(loop, lo, hi)), f((loop, hi)))
  {
    assert Range(loop, lo, hi) + [(loop, hi)] == Range(loop, lo, hi + 1);
    FoldStep(f, op, unit, Range(loop, lo, hi), (loop, hi));
  }

  // Tasks

  /** The range of a piece, as its future's node on the list stands for it */
  datatype Piece = Piece(loop: nat, lo: int, hi: int)

  /** `futures` lists the split-off pieces whose results this task has to collect, the latest
      first; a piece stands for the future that its result is sent to. */
  class LoopTask {
    const loop: nat
    var start: int
    var cur: int
    var end: int
    var futures: seq<LoopTask>

    constructor (loop: nat, lo: int, hi: int)
      ensures this.loop == loop && start == lo && cur == lo && end == hi && futures == []
    {
      this.loop := loop;
      start, cur, end, futures := lo, lo, hi, [];
    }

    predicate Splittable()
      reads this
    {
      Abs(end - cur) > 1
    }

    /** Not started, and with the range of `p` */
    ghost predicate Is(p: Piece)
      reads this
    {
      loop == p.loop && start == cur == p.lo && end == p.hi && p.lo < p.hi && futures == []
    }

    /** split_loop, up to where it records the future of the new piece: the thief gets the upper part,
        and this task continues with the lower one. The iteration in progress, cur - 1, and the
        next one, cur, stay here. A loop whose end lies below has nothing to give away, and gives
        away nothing only if it is halved. */
    method SplitLoop(strategy: Strategy) returns (dup: LoopTask)
      requires Splittable()
      modifies this`end
      ensures fresh(dup) && dup.loop == loop && dup.start == dup.cur == end && dup.end == old(end) && dup.futures == []
      ensures end == SplitPoint(strategy, start, cur, old(end)) && SharesOut(strategy, start, cur, end, old(end))
      ensures start <= cur <= old(end) ==> cur < end < old(end) && dup.Is(Piece(loop, end, old(end)))
      ensures old(end) < cur ==> (dup.start >= dup.end <==> SplitsInMiddle(strategy, start, cur, old(end)))
    {
      if start <= cur <= end {
        SplitsInside(strategy, start, cur, end);
      } else if end < cur {
        EmptyLoopSplits(strategy, start, cur, end);
      }
      SplitsFairly(strategy, start, cur, end);
      var split := SplitPoint(strategy, start, cur, end);
      dup := new LoopTask(loop, split, end);
      end := split;
    }
  }
}
