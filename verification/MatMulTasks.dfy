/** The task-parallel multiplication of test/mm_dac.c: what its tasks add to the cells of the
    result, in every order in which the additions of concurrent tasks may interleave. */
module MatMulTasks {
  import opened Common
  import opened MatMul
  import opened Tasks

  /** Additions to the cells of the result, each known by its row and its column */
  type Adds<T> = seq<Update<(nat, nat), T>>

  type MatrixWork<T> = Work<(nat, nat), T>

  // What a log does to the matrix

  ghost predicate InRange<T>(dim: nat, log: Adds<T>)
  {
    forall i :: 0 <= i < |log| ==> log[i].key.0 < dim && log[i].key.1 < dim
  }

  ghost function Run<T>(op: Arith<T>, dim: nat, log: Adds<T>, t: seq<T>): (t1: seq<T>)
    requires InRange(dim, log) && Square(dim, t)
    ensures Square(dim, t1)
  {
    if log == [] then t
    else
      var x := log[|log| - 1];
      CellInRange(dim, x.key.0, x.key.1);
      var t1 := Run(op, dim, log[..|log| - 1], t);
      t1[Cell(dim, x.key.0, x.key.1) := op.add(t1[Cell(dim, x.key.0, x.key.1)], x.x)]
  }

  lemma {:induction false} RunAt<T>(op: Arith<T>, dim: nat, log: Adds<T>, t: seq<T>, r: nat, c: nat)
    requires InRange(dim, log) && Square(dim, t) && r < dim && c < dim
    ensures At(dim, Run(op, dim, log, t), r, c) == RunCell(op.add, log, (r, c), At(dim, t, r, c))
  {
    if log != [] {
      var x := log[|log| - 1];
      RunAt(op, dim, log[..|log| - 1], t, r, c);
      CellInRange(dim, x.key.0, x.key.1);
      CellInRange(dim, r, c);
      if x.key != (r, c) {
        CellInjective(dim, x.key.0, x.key.1, r, c);
      }
    }
  }

  // Which cells a log touches

  predicate InBlock(pc: Block, n: Shape, r: nat, c: nat)
  {
    pc.row <= r < pc.row + n.rows && pc.col <= c < pc.col + n.cols
  }

  predicate Within<T>(log: Adds<T>, pc: Block, n: Shape)
  {
    forall i :: 0 <= i < |log| ==> InBlock(pc, n, log[i].key.0, log[i].key.1)
  }

  lemma {:induction false} InterleavedWithin<T>(log: Adds<T>, l: Adds<T>, k: Adds<T>, pc: Block, n: Shape)
    requires Interleaves(log, l, k) && Within(l, pc, n) && Within(k, pc, n)
    ensures Within(log, pc, n)
  {
    if log != [] {
      var last, log0 := log[|log| - 1], log[..|log| - 1];
      if l != [] && l[|l| - 1] == last && Interleaves(log0, l[..|l| - 1], k) {
        InterleavedWithin(log0, l[..|l| - 1], k, pc, n);
      } else {
        InterleavedWithin(log0, l, k[..|k| - 1], pc, n);
      }
    }
  }

  lemma OutsideUntouched<T>(log: Adds<T>, pc: Block, n: Shape, r: nat, c: nat)
    requires Within(log, pc, n) && !InBlock(pc, n, r, c)
    ensures Untouched(log, (r, c))
  {
  }

  // The triple loop as a log

  function Product<T>(op: Arith<T>, dim: nat, a: seq<T>, ar: nat, ac: nat, b: seq<T>, br: nat, bc: nat): T
    requires Square(dim, a) && Square(dim, b) && ar < dim && ac < dim && br < dim && bc < dim
  {
    op.mul(At(dim, a, ar, ac), At(dim, b, br, bc))
  }

  /** The innermost loop: row `pc.row` of the result, for one k */
  function RowLog<T>(op: Arith<T>, dim: nat, a: seq<T>, pa: Block, b: seq<T>, pb: Block, pc: Block, cols: nat): Adds<T>
    requires Fits(dim, a, pa, b, pb, pc, Shape(1, 1, cols))
  {
    if cols == 0 then []
    else RowLog(op, dim, a, pa, b, pb, pc, cols - 1)
         + [Update((pc.row, pc.col + cols - 1), Product(op, dim, a, pa.row, pa.col, b, pb.row, pb.col + cols - 1))]
  }

  /** The middle loop, over k */
  function RowsLog<T>(op: Arith<T>, dim: nat, a: seq<T>, pa: Block, b: seq<T>, pb: Block, pc: Block, depth: nat,
                      cols: nat): Adds<T>
    requires Fits(dim, a, pa, b, pb, pc, Shape(1, depth, cols))
  {
    if depth == 0 then []
    else RowsLog(op, dim, a, pa, b, pb, pc, depth - 1, cols)
         + RowLog(op, dim, a, Block(pa.row, pa.col + depth - 1), b, Block(pb.row + depth - 1, pb.col), pc, cols)
  }

  /** The outer loop, over the rows */
  function BaseLog<T>(op: Arith<T>, dim: nat, a: seq<T>, pa: Block, b: seq<T>, pb: Block, pc: Block, rows: nat,
                      n: nat): Adds<T>
    requires Fits(dim, a, pa, b, pb, pc, Shape(rows, n, n))
  {
    if rows == 0 then []
    else BaseLog(op, dim, a, pa, b, pb, pc, rows - 1, n)
         + RowsLog(op, dim, a, Block(pa.row + rows - 1, pa.col), b, pb, Block(pc.row + rows - 1, pc.col), n, n)
  }

  /** `log` adds the product to the block at `pc`, cell by cell, and touches no other cell. */
  ghost predicate Multiplies<T(!new)>(op: Arith<T>, dim: nat, a: seq<T>, pa: Block, b: seq<T>, pb: Block, log: Adds<T>,
                                      pc: Block, n: Shape)
    requires Fits(dim, a, pa, b, pb, pc, n)
  {
    exists w: int :: MultipliesAt(w, op, dim, a, pa, b, pb, log, pc, n)
  }

  /** The verifier looks behind this only where Unfold is mentioned. */
  ghost predicate MultipliesAt<T(!new)>(w: int, op: Arith<T>, dim: nat, a: seq<T>, pa: Block, b: seq<T>, pb: Block,
                                        log: Adds<T>, pc: Block, n: Shape)
    requires Fits(dim, a, pa, b, pb, pc, n)
  {
    forall u: int {:trigger Unfold(u)} :: Unfold(u) ==>
      && Within(log, pc, n)
      && forall r: nat, c: nat, init: T ::
           RunCell(op.add, log, (r, c), init) == NewValue(op, dim, a, pa, b, pb, pc, n, r, c, init)
  }

  /** Two tasks that multiply into neighbouring blocks side by side, in whatever interleaving */
  lemma BothCols<T(!new)>(op: Arith<T>, dim: nat, a: seq<T>, pa: Block, b: seq<T>, pb: Block,
                          qb: Block, log: Adds<T>, l: Adds<T>, k: Adds<T>, pc: Block, qc: Block, n: Shape, m: Shape,
                          whole: Shape)
    requires Fits(dim, a, pa, b, pb, pc, whole) && Interleaves(log, l, k)
    requires whole == Shape(n.rows, n.depth, n.cols + m.cols) && m == Shape(n.rows, n.depth, m.cols)
    requires qb == Block(pb.row, pb.col + n.cols) && qc == Block(pc.row, pc.col + n.cols)
    requires Multiplies(op, dim, a, pa, b, pb, l, pc, n)
    requires Multiplies(op, dim, a, pa, b, qb, k, qc, m)
    ensures Multiplies(op, dim, a, pa, b, pb, log, pc, whole)
  {
    assert Unfold(0);
    InterleavedWithin(log, l, k, pc, whole);
    forall r: nat, c: nat, init: T
      ensures RunCell(op.add, log, (r, c), init) == NewValue(op, dim, a, pa, b, pb, pc, whole, r, c, init)
    {
      InterleavedCell(op.add, log, l, k, (r, c), init);
      if c < pc.col + n.cols {
        OutsideUntouched(k, qc, m, r, c);
      } else {
        OutsideUntouched(l, pc, n, r, c);
      }
    }
    assert MultipliesAt(0, op, dim, a, pa, b, pb, log, pc, whole);
  }

  lemma BothRows<T(!new)>(op: Arith<T>, dim: nat, a: seq<T>, pa: Block, b: seq<T>, pb: Block,
                          qa: Block, log: Adds<T>, l: Adds<T>, k: Adds<T>, pc: Block, qc: Block, n: Shape, m: Shape,
                          whole: Shape)
    requires Fits(dim, a, pa, b, pb, pc, whole) && Interleaves(log, l, k)
    requires whole == Shape(n.rows + m.rows, n.depth, n.cols) && m == Shape(m.rows, n.depth, n.cols)
    requires qa == Block(pa.row + n.rows, pa.col) && qc == Block(pc.row + n.rows, pc.col)
    requires Multiplies(op, dim, a, pa, b, pb, l, pc, n)
    requires Multiplies(op, dim, a, qa, b, pb, k, qc, m)
    ensures Multiplies(op, dim, a, pa, b, pb, log, pc, whole)
  {
    assert Unfold(0);
    InterleavedWithin(log, l, k, pc, whole);
    forall r: nat, c: nat, init: T
      ensures RunCell(op.add, log, (r, c), init) == NewValue(op, dim, a, pa, b, pb, pc, whole, r, c, init)
    {
      InterleavedCell(op.add, log, l, k, (r, c), init);
      if r < pc.row + n.rows {
        OutsideUntouched(k, qc, m, r, c);
      } else {
        OutsideUntouched(l, pc, n, r, c);
      }
    }
    assert MultipliesAt(0, op, dim, a, pa, b, pb, log, pc, whole);
  }

  /** Two phases one after the other, into the same block */
  lemma ThenDepth<T(!new)>(op: Arith<T>, dim: nat, a: seq<T>, pa: Block, b: seq<T>, pb: Block,
                           qa: Block, qb: Block, l: Adds<T>, k: Adds<T>, pc: Block, n: Shape, m: Shape, whole: Shape)
    requires Fits(dim, a, pa, b, pb, pc, whole)
    requires whole == Shape(n.rows, n.depth + m.depth, n.cols) && m == Shape(n.rows, m.depth, n.cols)
    requires qa == Block(pa.row, pa.col + n.depth) && qb == Block(pb.row + n.depth, pb.col)
    requires Multiplies(op, dim, a, pa, b, pb, l, pc, n)
    requires Multiplies(op, dim, a, qa, b, qb, k, pc, m)
    ensures Multiplies(op, dim, a, pa, b, pb, l + k, pc, whole)
  {
    assert Unfold(0);
    forall r: nat, c: nat, init: T
      ensures RunCell(op.add, l + k, (r, c), init) == NewValue(op, dim, a, pa, b, pb, pc, whole, r, c, init)
    {
      RunCellJoins(op.add, l, k, (r, c), init);
      if InBlock(pc, n, r, c) {
        AccSplits(op, dim, a, pa.row + (r - pc.row), pa.col, b, pb.row, pb.col + (c - pc.col), n.depth, m.depth, init);
      }
    }
    assert MultipliesAt(0, op, dim, a, pa, b, pb, l + k, pc, whole);
  }

  // The triple loop

  lemma OneMultiplies<T(!new)>(op: Arith<T>, dim: nat, a: seq<T>, pa: Block, b: seq<T>, pb: Block, pc: Block)
    requires Fits(dim, a, pa, b, pb, pc, Shape(1, 1, 1))
    ensures Multiplies(op, dim, a, pa, b, pb,
                       [Update((pc.row, pc.col), Product(op, dim, a, pa.row, pa.col, b, pb.row, pb.col))], pc,
                       Shape(1, 1, 1))
  {
    var add := Update((pc.row, pc.col), Product(op, dim, a, pa.row, pa.col, b, pb.row, pb.col));
    forall r: nat, c: nat, init: T
      ensures RunCell(op.add, [add], (r, c), init) == NewValue(op, dim, a, pa, b, pb, pc, Shape(1, 1, 1), r, c, init)
    {
      assert RunCell(op.add, [add][..0], (r, c), init) == init;
      AccOne(op, dim, a, pa.row, pa.col, b, pb.row, pb.col, init);
    }
    assert MultipliesAt(0, op, dim, a, pa, b, pb, [add], pc, Shape(1, 1, 1));
  }

  lemma {:induction false} RowMultiplies<T(!new)>(op: Arith<T>, dim: nat, a: seq<T>, pa: Block, b: seq<T>, pb: Block,
                                                  pc: Block, cols: nat)
    requires Fits(dim, a, pa, b, pb, pc, Shape(1, 1, cols))
    ensures Multiplies(op, dim, a, pa, b, pb, RowLog(op, dim, a, pa, b, pb, pc, cols), pc, Shape(1, 1, cols))
  {
    if cols > 0 {
      var qb, qc := Block(pb.row, pb.col + cols - 1), Block(pc.row, pc.col + cols - 1);
      var add := Update((qc.row, qc.col), Product(op, dim, a, pa.row, pa.col, b, qb.row, qb.col));
      var before := RowLog(op, dim, a, pa, b, pb, pc, cols - 1);
      RowMultiplies(op, dim, a, pa, b, pb, pc, cols - 1);
      OneMultiplies(op, dim, a, pa, b, qb, qc);
      ConcatInterleaves(before, [add]);
      BothCols(op, dim, a, pa, b, pb, qb, before + [add], before, [add], pc, qc, Shape(1, 1, cols - 1), Shape(1, 1, 1),
               Shape(1, 1, cols));
    } else {
      assert MultipliesAt(0, op, dim, a, pa, b, pb, [], pc, Shape(1, 1, 0));
    }
  }

  lemma {:induction false} RowsMultiply<T(!new)>(op: Arith<T>, dim: nat, a: seq<T>, pa: Block, b: seq<T>, pb: Block,
                                                 pc: Block, depth: nat, cols: nat)
    requires Fits(dim, a, pa, b, pb, pc, Shape(1, depth, cols))
    ensures Multiplies(op, dim, a, pa, b, pb, RowsLog(op, dim, a, pa, b, pb, pc, depth, cols), pc,
                       Shape(1, depth, cols))
  {
    if depth > 0 {
      var qa, qb := Block(pa.row, pa.col + depth - 1), Block(pb.row + depth - 1, pb.col);
      RowsMultiply(op, dim, a, pa, b, pb, pc, depth - 1, cols);
      RowMultiplies(op, dim, a, qa, b, qb, pc, cols);
      ThenDepth(op, dim, a, pa, b, pb, qa, qb, RowsLog(op, dim, a, pa, b, pb, pc, depth - 1, cols),
                RowLog(op, dim, a, qa, b, qb, pc, cols),
                pc, Shape(1, depth - 1, cols), Shape(1, 1, cols), Shape(1, depth, cols));
    } else {
      assert MultipliesAt(0, op, dim, a, pa, b, pb, [], pc, Shape(1, 0, cols));
    }
  }

  lemma RowBelow<T(!new)>(op: Arith<T>, dim: nat, a: seq<T>, pa: Block, b: seq<T>, pb: Block, qa: Block,
                          before: Adds<T>, row: Adds<T>, pc: Block, qc: Block, rows: nat, n: nat)
    requires Fits(dim, a, pa, b, pb, pc, Shape(rows, n, n)) && rows > 0
    requires qa == Block(pa.row + rows - 1, pa.col) && qc == Block(pc.row + rows - 1, pc.col)
    requires Multiplies(op, dim, a, pa, b, pb, before, pc, Shape(rows - 1, n, n))
    requires Multiplies(op, dim, a, qa, b, pb, row, qc, Shape(1, n, n))
    ensures Multiplies(op, dim, a, pa, b, pb, before + row, pc, Shape(rows, n, n))
  {
    ConcatInterleaves(before, row);
    BothRows(op, dim, a, pa, b, pb, qa, before + row, before, row, pc, qc, Shape(rows - 1, n, n), Shape(1, n, n),
             Shape(rows, n, n));
  }

  lemma {:induction false} BaseMultiplies<T(!new)>(op: Arith<T>, dim: nat, a: seq<T>, pa: Block, b: seq<T>, pb: Block,
                                                   pc: Block, rows: nat, n: nat)
    requires Fits(dim, a, pa, b, pb, pc, Shape(rows, n, n))
    ensures Multiplies(op, dim, a, pa, b, pb, BaseLog(op, dim, a, pa, b, pb, pc, rows, n), pc, Shape(rows, n, n))
  {
    if rows > 0 {
      var qa, qc := Block(pa.row + rows - 1, pa.col), Block(pc.row + rows - 1, pc.col);
      var before, row := BaseLog(op, dim, a, pa, b, pb, pc, rows - 1, n), RowsLog(op, dim, a, qa, b, pb, qc, n, n);
      BaseMultiplies(op, dim, a, pa, b, pb, pc, rows - 1, n);
      RowsMultiply(op, dim, a, qa, b, pb, qc, n, n);
      RowBelow(op, dim, a, pa, b, pb, qa, before, row, pc, qc, rows, n);
    } else {
      assert MultipliesAt(0, op, dim, a, pa, b, pb, [], pc, Shape(0, n, n));
    }
  }

  // The tasks of mm_dac

  /** Two phases of four tasks each; the tasks of a phase run side by side. */
  function DacWork<T>(op: Arith<T>, dim: nat, a: seq<T>, pa: Block, b: seq<T>, pb: Block, pc: Block, size: nat,
                      threshold: nat): MatrixWork<T>
    requires Fits(dim, a, pa, b, pb, pc, Shape(size, size, size)) && threshold >= 1 && Halves(size, threshold)
    decreases size, 0
  {
    if size <= threshold then Log(BaseLog(op, dim, a, pa, b, pb, pc, size, size))
    else
      var half := size / 2;
      Then(PhaseWork(op, dim, a, pa, b, pb, pc, half, threshold),
           PhaseWork(op, dim, a, Block(pa.row, pa.col + half), b, Block(pb.row + half, pb.col), pc, half, threshold))
  }

  function PhaseWork<T>(op: Arith<T>, dim: nat, a: seq<T>, pa: Block, b: seq<T>, pb: Block, pc: Block, half: nat,
                        threshold: nat): MatrixWork<T>
    requires Fits(dim, a, pa, b, pb, pc, Shape(2 * half, half, 2 * half)) && threshold >= 1 && Halves(half, threshold)
    decreases half, 2
  {
    Both(StripWork(op, dim, a, pa, b, pb, pc, half, threshold),
         StripWork(op, dim, a, Block(pa.row + half, pa.col), b, pb, Block(pc.row + half, pc.col), half, threshold))
  }

  /** The two tasks of a phase for the upper or the lower half of the block */
  function StripWork<T>(op: Arith<T>, dim: nat, a: seq<T>, pa: Block, b: seq<T>, pb: Block, pc: Block, half: nat,
                        threshold: nat): MatrixWork<T>
    requires Fits(dim, a, pa, b, pb, pc, Shape(half, half, 2 * half)) && threshold >= 1 && Halves(half, threshold)
    decreases half, 1
  {
    Both(DacWork(op, dim, a, pa, b, pb, pc, half, threshold),
         DacWork(op, dim, a, pa, b, Block(pb.row, pb.col + half), Block(pc.row, pc.col + half), half, threshold))
  }

  lemma {:induction false} DacMultiplies<T(!new)>(op: Arith<T>, dim: nat, a: seq<T>, pa: Block, b: seq<T>, pb: Block,
                                                  pc: Block, size: nat, threshold: nat, log: Adds<T>)
    requires Fits(dim, a, pa, b, pb, pc, Shape(size, size, size)) && threshold >= 1 && Halves(size, threshold)
    requires Executes(DacWork(op, dim, a, pa, b, pb, pc, size, threshold), log)
    ensures Multiplies(op, dim, a, pa, b, pb, log, pc, Shape(size, size, size))
    decreases size, 0
  {
    if size <= threshold {
      BaseMultiplies(op, dim, a, pa, b, pb, pc, size, size);
    } else {
      var half := size / 2;
      var qa, qb := Block(pa.row, pa.col + half), Block(pb.row + half, pb.col);
      var l, k := SplitThen(DacWork(op, dim, a, pa, b, pb, pc, size, threshold), log);
      PhaseMultiplies(op, dim, a, pa, b, pb, pc, half, threshold, l);
      PhaseMultiplies(op, dim, a, qa, b, qb, pc, half, threshold, k);
      var phase := Shape(size, half, size);
      ThenDepth(op, dim, a, pa, b, pb, qa, qb, l, k, pc, phase, phase, Shape(size, size, size));
    }
  }

  /** Whatever the order of the additions of its four tasks, a phase is a product of half depth. */
  lemma {:induction false} PhaseMultiplies<T(!new)>(op: Arith<T>, dim: nat, a: seq<T>, pa: Block, b: seq<T>, pb: Block,
                                                    pc: Block, half: nat, threshold: nat, log: Adds<T>)
    requires Fits(dim, a, pa, b, pb, pc, Shape(2 * half, half, 2 * half)) && threshold >= 1 && Halves(half, threshold)
    requires Executes(PhaseWork(op, dim, a, pa, b, pb, pc, half, threshold), log)
    ensures Multiplies(op, dim, a, pa, b, pb, log, pc, Shape(2 * half, half, 2 * half))
    decreases half, 2
  {
    var qa, qc := Block(pa.row + half, pa.col), Block(pc.row + half, pc.col);
    var strip := Shape(half, half, 2 * half);
    var l, k := SplitBoth(PhaseWork(op, dim, a, pa, b, pb, pc, half, threshold), log);
    StripMultiplies(op, dim, a, pa, b, pb, pc, half, threshold, l);
    StripMultiplies(op, dim, a, qa, b, pb, qc, half, threshold, k);
    BothRows(op, dim, a, pa, b, pb, qa, log, l, k, pc, qc, strip, strip, Shape(2 * half, half, 2 * half));
  }

  lemma {:induction false} StripMultiplies<T(!new)>(op: Arith<T>, dim: nat, a: seq<T>, pa: Block, b: seq<T>, pb: Block,
                                                    pc: Block, half: nat, threshold: nat, log: Adds<T>)
    requires Fits(dim, a, pa, b, pb, pc, Shape(half, half, 2 * half)) && threshold >= 1 && Halves(half, threshold)
    requires Executes(StripWork(op, dim, a, pa, b, pb, pc, half, threshold), log)
    ensures Multiplies(op, dim, a, pa, b, pb, log, pc, Shape(half, half, 2 * half))
    decreases half, 1
  {
    var qb, qc := Block(pb.row, pb.col + half), Block(pc.row, pc.col + half);
    var quarter := Shape(half, half, half);
    var l, k := SplitBoth(StripWork(op, dim, a, pa, b, pb, pc, half, threshold), log);
    DacMultiplies(op, dim, a, pa, b, pb, pc, half, threshold, l);
    DacMultiplies(op, dim, a, pa, b, qb, qc, half, threshold, k);
    BothCols(op, dim, a, pa, b, pb, qb, log, l, k, pc, qc, quarter, quarter, Shape(half, half, 2 * half));
  }

  /** mm_dac, in every interleaving of its tasks, leaves the matrix that the triple loop leaves. */
  lemma ParallelEqualsLoop<T(!new)>(op: Arith<T>, dim: nat, a: seq<T>, b: seq<T>, t: seq<T>, threshold: nat,
                                    log: Adds<T>, d: seq<T>)
    requires Square(dim, a) && Square(dim, b) && Square(dim, t) && PowerOfTwo(dim) && 1 <= threshold <= dim
    requires Halves(dim, threshold)
    requires Executes(DacWork(op, dim, a, Block(0, 0), b, Block(0, 0), Block(0, 0), dim, threshold), log)
    requires Multiplied(op, dim, a, Block(0, 0), b, Block(0, 0), t, d, Block(0, 0), Shape(dim, dim, dim))
    ensures InRange(dim, log) && Run(op, dim, log, t) == d
  {
    var o, n := Block(0, 0), Shape(dim, dim, dim);
    DacMultiplies(op, dim, a, o, b, o, o, dim, threshold, log);
    assert Unfold(0);
    forall i | 0 <= i < |log| ensures log[i].key.0 < dim && log[i].key.1 < dim {
      assert InBlock(o, n, log[i].key.0, log[i].key.1);
    }
    forall r: nat, c: nat | r < dim && c < dim
      ensures At(dim, Run(op, dim, log, t), r, c) == NewValue(op, dim, a, o, b, o, o, n, r, c, At(dim, t, r, c))
    {
      RunAt(op, dim, log, t, r, c);
    }
    MultipliedUnique(op, dim, a, o, b, o, t, Run(op, dim, log, t), d, o, n);
  }
}
