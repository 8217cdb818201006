/** The matrix multiplication of test/mm_dac.c: the triple loop and the divide-and-conquer
    version, on square matrices stored row by row. A pointer into a matrix is the row and the
    column of the block that starts there. Addition and multiplication are any two functions,
    so the two versions are compared without rounding, associativity or distribution laws. */
module MatMul {

  datatype Arith<!T> = Arith(add: (T, T) -> T, mul: (T, T) -> T)

  /** Where the element in row `r` and column `c` is stored */
  function Cell(dim: nat, r: nat, c: nat): (i: nat)
  {
    r * dim + c
  }

  lemma CellInRange(dim: nat, r: nat, c: nat)
    requires r < dim && c < dim
    ensures Cell(dim, r, c) < dim * dim
  {
    assert r * dim + c < r * dim + dim == (r + 1) * dim <= dim * dim;
  }

  lemma CellInjective(dim: nat, r1: nat, c1: nat, r2: nat, c2: nat)
    requires c1 < dim && c2 < dim && (r1 != r2 || c1 != c2)
    ensures Cell(dim, r1, c1) != Cell(dim, r2, c2)
  {
    if r1 < r2 {
      assert r1 * dim + dim == (r1 + 1) * dim <= r2 * dim;
    } else if r2 < r1 {
      assert r2 * dim + dim == (r2 + 1) * dim <= r1 * dim;
    }
  }

  lemma CellOf(dim: nat, i: nat)
    requires i < dim * dim
    ensures dim > 0 && i / dim < dim && Cell(dim, i / dim, i % dim) == i
  {
  }

  ghost predicate Square<T>(dim: nat, s: seq<T>)
  {
    |s| == dim * dim
  }

  function At<T>(dim: nat, s: seq<T>, r: nat, c: nat): T
    requires Square(dim, s) && r < dim && c < dim
  {
    CellInRange(dim, r, c);
    s[Cell(dim, r, c)]
  }

  /** `init` plus the first `k` products of row `ar` of `a` from column `ac` on with column `bc`
      of `b` from row `br` on, added one by one in this order */
  function Acc<T>(op: Arith<T>, dim: nat, a: seq<T>, ar: nat, ac: nat, b: seq<T>, br: nat, bc: nat, k: nat, init: T): T
    requires Square(dim, a) && Square(dim, b)
    requires ar < dim && bc < dim && ac + k <= dim && br + k <= dim
  {
    if k == 0 then init
    else op.add(Acc(op, dim, a, ar, ac, b, br, bc, k - 1, init),
                op.mul(At(dim, a, ar, ac + k - 1), At(dim, b, br + k - 1, bc)))
  }

  /** The products up to `k1 + k2` are those up to `k1` and then those from there on. */
  lemma {:induction false} AccSplits<T>(op: Arith<T>, dim: nat, a: seq<T>, ar: nat, ac: nat, b: seq<T>, br: nat,
                                        bc: nat, k1: nat, k2: nat, init: T)
    requires Square(dim, a) && Square(dim, b)
    requires ar < dim && bc < dim && ac + k1 + k2 <= dim && br + k1 + k2 <= dim
    ensures Acc(op, dim, a, ar, ac, b, br, bc, k1 + k2, init)
         == Acc(op, dim, a, ar, ac + k1, b, br + k1, bc, k2, Acc(op, dim, a, ar, ac, b, br, bc, k1, init))
    decreases k2
  {
    if k2 > 0 {
      AccSplits(op, dim, a, ar, ac, b, br, bc, k1, k2 - 1, init);
    }
  }

  datatype Block = Block(row: nat, col: nat)

  /** The sizes of a product: the blocks are rows x depth, depth x cols and rows x cols */
  datatype Shape = Shape(rows: nat, depth: nat, cols: nat)

  ghost predicate Fits<T>(dim: nat, a: seq<T>, pa: Block, b: seq<T>, pb: Block, pc: Block, n: Shape)
  {
    && Square(dim, a) && Square(dim, b)
    && pa.row + n.rows <= dim && pa.col + n.depth <= dim
    && pb.row + n.depth <= dim && pb.col + n.cols <= dim
    && pc.row + n.rows <= dim && pc.col + n.cols <= dim
  }

  /** What the cell (r, c) holds after the product has been added to the block at `pc` */
  ghost function NewValue<T>(op: Arith<T>, dim: nat, a: seq<T>, pa: Block, b: seq<T>, pb: Block, pc: Block, n: Shape,
                             r: nat, c: nat, init: T): T
    requires Fits(dim, a, pa, b, pb, pc, n)
  {
    if pc.row <= r < pc.row + n.rows && pc.col <= c < pc.col + n.cols then
      Acc(op, dim, a, pa.row + (r - pc.row), pa.col, b, pb.row, pb.col + (c - pc.col), n.depth, init)
    else init
  }

  /** `t1` is `t0` with the product added to the block at `pc`, and nothing else changed. */
  ghost predicate Multiplied<T>(op: Arith<T>, dim: nat, a: seq<T>, pa: Block, b: seq<T>, pb: Block,
                                t0: seq<T>, t1: seq<T>, pc: Block, n: Shape)
    requires Fits(dim, a, pa, b, pb, pc, n)
  {
    && Square(dim, t0) && Square(dim, t1)
    && forall r: nat, c: nat :: r < dim && c < dim ==>
         At(dim, t1, r, c) == NewValue(op, dim, a, pa, b, pb, pc, n, r, c, At(dim, t0, r, c))
  }

  lemma SameCells<T>(dim: nat, t1: seq<T>, t2: seq<T>)
    requires Square(dim, t1) && Square(dim, t2)
    requires forall r: nat, c: nat :: r < dim && c < dim ==> At(dim, t1, r, c) == At(dim, t2, r, c)
    ensures t1 == t2
  {
    forall i | 0 <= i < |t1| ensures t1[i] == t2[i] {
      CellOf(dim, i);
      assert At(dim, t1, i / dim, i % dim) == At(dim, t2, i / dim, i % dim);
    }
  }

  /** Only one matrix can result. */
  lemma MultipliedUnique<T>(op: Arith<T>, dim: nat, a: seq<T>, pa: Block, b: seq<T>, pb: Block,
                            t0: seq<T>, t1: seq<T>, t2: seq<T>, pc: Block, n: Shape)
    requires Fits(dim, a, pa, b, pb, pc, n)
    requires Multiplied(op, dim, a, pa, b, pb, t0, t1, pc, n) && Multiplied(op, dim, a, pa, b, pb, t0, t2, pc, n)
    ensures t1 == t2
  {
    SameCells(dim, t1, t2);
  }

  /** Two products side by side make a wider one. */
  lemma JoinCols<T>(op: Arith<T>, dim: nat, a: seq<T>, pa: Block, b: seq<T>, pb: Block,
                    t0: seq<T>, t1: seq<T>, t2: seq<T>, pc: Block, n: Shape, m: nat)
    requires Fits(dim, a, pa, b, pb, pc, n.(cols := n.cols + m))
    requires Multiplied(op, dim, a, pa, b, pb, t0, t1, pc, n)
    requires Multiplied(op, dim, a, pa, b, pb.(col := pb.col + n.cols), t1, t2, pc.(col := pc.col + n.cols),
                        n.(cols := m))
    ensures Multiplied(op, dim, a, pa, b, pb, t0, t2, pc, n.(cols := n.cols + m))
  {
  }

  /** Two products one below the other make a taller one. */
  lemma JoinRows<T>(op: Arith<T>, dim: nat, a: seq<T>, pa: Block, b: seq<T>, pb: Block,
                    t0: seq<T>, t1: seq<T>, t2: seq<T>, pc: Block, n: Shape, m: nat)
    requires Fits(dim, a, pa, b, pb, pc, n.(rows := n.rows + m))
    requires Multiplied(op, dim, a, pa, b, pb, t0, t1, pc, n)
    requires Multiplied(op, dim, a, pa.(row := pa.row + n.rows), b, pb, t1, t2, pc.(row := pc.row + n.rows),
                        n.(rows := m))
    ensures Multiplied(op, dim, a, pa, b, pb, t0, t2, pc, n.(rows := n.rows + m))
  {
  }

  /** Two products added to the same block make a deeper one. */
  lemma JoinDepth<T>(op: Arith<T>, dim: nat, a: seq<T>, pa: Block, b: seq<T>, pb: Block,
                     t0: seq<T>, t1: seq<T>, t2: seq<T>, pc: Block, n: Shape, m: nat)
    requires Fits(dim, a, pa, b, pb, pc, n.(depth := n.depth + m))
    requires Multiplied(op, dim, a, pa, b, pb, t0, t1, pc, n)
    requires Multiplied(op, dim, a, pa.(col := pa.col + n.depth), b, pb.(row := pb.row + n.depth), t1, t2, pc,
                        n.(depth := m))
    ensures Multiplied(op, dim, a, pa, b, pb, t0, t2, pc, n.(depth := n.depth + m))
  {
    forall r: nat, c: nat | pc.row <= r < pc.row + n.rows && pc.col <= c < pc.col + n.cols
      ensures At(dim, t2, r, c)
           == NewValue(op, dim, a, pa, b, pb, pc, n.(depth := n.depth + m), r, c, At(dim, t0, r, c))
    {
      AccSplits(op, dim, a, pa.row + (r - pc.row), pa.col, b, pb.row, pb.col + (c - pc.col), n.depth, m,
                At(dim, t0, r, c));
    }
  }

  /** Only the cell (r, c) has changed, to `x`. */
  ghost predicate CellSet<T>(dim: nat, t0: seq<T>, t1: seq<T>, r: nat, c: nat, x: T)
  {
    && Square(dim, t0) && Square(dim, t1) && r < dim && c < dim
    && forall r1: nat, c1: nat :: r1 < dim && c1 < dim ==>
         At(dim, t1, r1, c1) == if r1 == r && c1 == c then x else At(dim, t0, r1, c1)
  }

  /** C(i,j) += x */
  method AddTo<T>(op: Arith<T>, dim: nat, m: array<T>, r: nat, c: nat, x: T)
    requires Square(dim, m[..]) && r < dim && c < dim
    modifies m
    ensures CellSet(dim, old(m[..]), m[..], r, c, op.add(old(At(dim, m[..], r, c)), x))
  {
    CellInRange(dim, r, c);
    ghost var t0 := m[..];
    m[Cell(dim, r, c)] := op.add(m[Cell(dim, r, c)], x);
    forall r1: nat, c1: nat | r1 < dim && c1 < dim && (r1 != r || c1 != c)
      ensures At(dim, m[..], r1, c1) == At(dim, t0, r1, c1)
    {
      CellInRange(dim, r1, c1);
      CellInjective(dim, r, c, r1, c1);
    }
  }

  lemma AccOne<T>(op: Arith<T>, dim: nat, a: seq<T>, ar: nat, ac: nat, b: seq<T>, br: nat, bc: nat, init: T)
    requires Square(dim, a) && Square(dim, b) && ar < dim && bc < dim && ac < dim && br < dim
    ensures Acc(op, dim, a, ar, ac, b, br, bc, 1, init) == op.add(init, op.mul(At(dim, a, ar, ac), At(dim, b, br, bc)))
  {
  }

  lemma CellIsProduct<T>(op: Arith<T>, dim: nat, a: seq<T>, pa: Block, b: seq<T>, pb: Block, t0: seq<T>, t1: seq<T>,
                         pc: Block)
    requires Fits(dim, a, pa, b, pb, pc, Shape(1, 1, 1)) && Square(dim, t0)
    requires CellSet(dim, t0, t1, pc.row, pc.col,
                     op.add(At(dim, t0, pc.row, pc.col),
                            op.mul(At(dim, a, pa.row, pa.col), At(dim, b, pb.row, pb.col))))
    ensures Multiplied(op, dim, a, pa, b, pb, t0, t1, pc, Shape(1, 1, 1))
  {
    AccOne(op, dim, a, pa.row, pa.col, b, pb.row, pb.col, At(dim, t0, pc.row, pc.col));
    forall r: nat, c: nat | r < dim && c < dim
      ensures At(dim, t1, r, c) == NewValue(op, dim, a, pa, b, pb, pc, Shape(1, 1, 1), r, c, At(dim, t0, r, c))
    {
    }
  }

  /** The innermost loop of mm_base: one product more for each cell of row `i` */
  method AddRow<T>(op: Arith<T>, dim: nat, a: array<T>, pa: Block, b: array<T>, pb: Block, m: array<T>, pc: Block,
                   n: nat)
    requires a != m && b != m
    requires Fits(dim, a[..], pa, b[..], pb, pc, Shape(1, 1, n)) && Square(dim, m[..])
    modifies m
    ensures Multiplied(op, dim, a[..], pa, b[..], pb, old(m[..]), m[..], pc, Shape(1, 1, n))
  {
    ghost var sa, sb, t0 := a[..], b[..], m[..];
    var j := 0;
    while j < n
      invariant 0 <= j <= n
      invariant Multiplied(op, dim, sa, pa, sb, pb, t0, m[..], pc, Shape(1, 1, j))
    {
      CellInRange(dim, pa.row, pa.col);
      CellInRange(dim, pb.row, pb.col + j);
      ghost var t := m[..];
      AddTo(op, dim, m, pc.row, pc.col + j, op.mul(a[Cell(dim, pa.row, pa.col)], b[Cell(dim, pb.row, pb.col + j)]));
      CellIsProduct(op, dim, sa, pa, sb, pb.(col := pb.col + j), t, m[..], pc.(col := pc.col + j));
      JoinCols(op, dim, sa, pa, sb, pb, t0, t, m[..], pc, Shape(1, 1, j), 1);
      j := j + 1;
    }
  }

  /** The middle loop of mm_base */
  method AddRows<T>(op: Arith<T>, dim: nat, a: array<T>, pa: Block, b: array<T>, pb: Block, m: array<T>, pc: Block,
                    n: nat)
    requires a != m && b != m
    requires Fits(dim, a[..], pa, b[..], pb, pc, Shape(1, n, n)) && Square(dim, m[..])
    modifies m
    ensures Multiplied(op, dim, a[..], pa, b[..], pb, old(m[..]), m[..], pc, Shape(1, n, n))
  {
    ghost var sa, sb, t0 := a[..], b[..], m[..];
    var k := 0;
    while k < n
      invariant 0 <= k <= n
      invariant Multiplied(op, dim, sa, pa, sb, pb, t0, m[..], pc, Shape(1, k, n))
    {
      ghost var t := m[..];
      AddRow(op, dim, a, pa.(col := pa.col + k), b, pb.(row := pb.row + k), m, pc, n);
      JoinDepth(op, dim, sa, pa, sb, pb, t0, t, m[..], pc, Shape(1, k, n), 1);
      k := k + 1;
    }
  }

  /** The triple loop, in the order i, k, j */
  method MmBase<T>(op: Arith<T>, dim: nat, a: array<T>, pa: Block, b: array<T>, pb: Block, m: array<T>, pc: Block,
                   n: nat)
    requires a != m && b != m
    requires Fits(dim, a[..], pa, b[..], pb, pc, Shape(n, n, n)) && Square(dim, m[..])
    modifies m
    ensures Multiplied(op, dim, a[..], pa, b[..], pb, old(m[..]), m[..], pc, Shape(n, n, n))
  {
    ghost var sa, sb, t0 := a[..], b[..], m[..];
    var i := 0;
    while i < n
      invariant 0 <= i <= n
      invariant Multiplied(op, dim, sa, pa, sb, pb, t0, m[..], pc, Shape(i, n, n))
    {
      ghost var t := m[..];
      AddRows(op, dim, a, pa.(row := pa.row + i), b, pb, m, pc.(row := pc.row + i), n);
      JoinRows(op, dim, sa, pa, sb, pb, t0, t, m[..], pc, Shape(i, n, n), 1);
      i := i + 1;
    }
  }

  predicate PowerOfTwo(n: nat)
  {
    n == 1 || (n > 0 && n % 2 == 0 && PowerOfTwo(n / 2))
  }

  /** Every block above the threshold can be cut in half. */
  predicate Halves(n: nat, threshold: nat)
  {
    n <= threshold || n == 0 || (n % 2 == 0 && Halves(n / 2, threshold))
  }

  lemma {:induction false} PowersHalve(n: nat, threshold: nat)
    requires PowerOfTwo(n) && threshold >= 1
    ensures Halves(n, threshold)
  {
    if n > 1 {
      PowersHalve(n / 2, threshold);
    }
  }

  /** One phase: four products of half size, each for its own quadrant */
  method FourQuadrants<T>(op: Arith<T>, dim: nat, a: array<T>, pa: Block, b: array<T>, pb: Block, m: array<T>,
                          pc: Block, half: nat, threshold: nat)
    requires a != m && b != m && threshold >= 1 && Halves(half, threshold) && half > 0
    requires Fits(dim, a[..], pa, b[..], pb, pc, Shape(2 * half, half, 2 * half)) && Square(dim, m[..])
    modifies m
    ensures Multiplied(op, dim, a[..], pa, b[..], pb, old(m[..]), m[..], pc, Shape(2 * half, half, 2 * half))
    decreases half, 1
  {
    ghost var sa, sb, t0 := a[..], b[..], m[..];
    var lower, right := Block(pa.row + half, pa.col), Block(pb.row, pb.col + half);
    MmDac(op, dim, a, pa, b, pb, m, pc, half, threshold);
    ghost var t1 := m[..];
    MmDac(op, dim, a, pa, b, right, m, Block(pc.row, pc.col + half), half, threshold);
    ghost var t2 := m[..];
    JoinCols(op, dim, sa, pa, sb, pb, t0, t1, t2, pc, Shape(half, half, half), half);
    MmDac(op, dim, a, lower, b, pb, m, Block(pc.row + half, pc.col), half, threshold);
    ghost var t3 := m[..];
    MmDac(op, dim, a, lower, b, right, m, Block(pc.row + half, pc.col + half), half, threshold);
    JoinCols(op, dim, sa, lower, sb, pb, t2, t3, m[..], Block(pc.row + half, pc.col), Shape(half, half, half), half);
    JoinRows(op, dim, sa, pa, sb, pb, t0, t2, m[..], pc, Shape(half, half, 2 * half), half);
  }

  /** Divide and conquer adds the same products in the same order as the triple loop. */
  method MmDac<T>(op: Arith<T>, dim: nat, a: array<T>, pa: Block, b: array<T>, pb: Block, m: array<T>, pc: Block,
                  size: nat, threshold: nat)
    requires a != m && b != m && threshold >= 1 && Halves(size, threshold)
    requires Fits(dim, a[..], pa, b[..], pb, pc, Shape(size, size, size)) && Square(dim, m[..])
    modifies m
    ensures Multiplied(op, dim, a[..], pa, b[..], pb, old(m[..]), m[..], pc, Shape(size, size, size))
    decreases size, 0
  {
    if size <= threshold {
      MmBase(op, dim, a, pa, b, pb, m, pc, size);
    } else {
      var half := size / 2;
      ghost var sa, sb, t0 := a[..], b[..], m[..];
      FourQuadrants(op, dim, a, pa, b, pb, m, pc, half, threshold);
      ghost var t1 := m[..];
      FourQuadrants(op, dim, a, Block(pa.row, pa.col + half), b, Block(pb.row + half, pb.col), m, pc, half, threshold);
      JoinDepth(op, dim, sa, pa, sb, pb, t0, t1, m[..], pc, Shape(size, half, size), half);
    }
  }

  /** The comparison that the program ends with: started from equal matrices, divide and conquer
      and the triple loop leave equal matrices. */
  method CompareBoth<T>(op: Arith<T>, dim: nat, a: array<T>, b: array<T>, c: array<T>, d: array<T>, threshold: nat)
    requires a != c && a != d && b != c && b != d && c != d
    requires PowerOfTwo(dim) && 1 <= threshold <= dim
    requires Square(dim, a[..]) && Square(dim, b[..]) && Square(dim, c[..]) && c[..] == d[..]
    modifies c, d
    ensures c[..] == d[..]
  {
    ghost var sa, sb, t0 := a[..], b[..], c[..];
    PowersHalve(dim, threshold);
    MmDac(op, dim, a, Block(0, 0), b, Block(0, 0), c, Block(0, 0), dim, threshold);
    MmBase(op, dim, a, Block(0, 0), b, Block(0, 0), d, Block(0, 0), dim);
    MultipliedUnique(op, dim, sa, Block(0, 0), sb, Block(0, 0), t0, c[..], d[..], Block(0, 0), Shape(dim, dim, dim));
  }
}
