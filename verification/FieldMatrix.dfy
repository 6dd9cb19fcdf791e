/**
 Matrix algebra over the field of integers modulo Q, on flat row-major sequences.
 These are the laws (associativity, both distributivities) on which the masked product of
 the work relation rests.
 */
module FieldMatrix {

  const Q: int := 4294967291

  type Matrix = seq<int>

  /** Every cell is a reduced field element. */
  predicate InField(a: Matrix)
  {
    forall p :: 0 <= p < |a| ==> 0 <= a[p] < Q
  }

  function Entry(a: Matrix, cols: nat, i: int, j: int): int
  {
    var p := i * cols + j;
    if 0 <= p < |a| then a[p] else 0
  }

  /** The first n terms of row i of a times column j of b, unreduced. */
  function Dot(a: Matrix, b: Matrix, inner: nat, cols: nat, i: int, j: int, n: nat): int
  {
    if n == 0 then 0
    else Dot(a, b, inner, cols, i, j, n - 1) + Entry(a, inner, i, n - 1) * Entry(b, cols, n - 1, j)
  }

  /** The product of a rows*inner and an inner*cols matrix, reduced once per cell. */
  function MatMul(a: Matrix, b: Matrix, rows: nat, inner: nat, cols: nat): (r: Matrix)
    requires cols > 0
    ensures |r| == rows * cols
  {
    seq(rows * cols, p requires 0 <= p => Dot(a, b, inner, cols, p / cols, p % cols, inner) % Q)
  }

  function Add(a: Matrix, b: Matrix): (r: Matrix)
    requires |a| == |b|
  {
    seq(|a|, p requires 0 <= p < |a| => (a[p] + b[p]) % Q)
  }

  // ---------- congruence ----------

  ghost predicate Cong(x: int, y: int)
  {
    x % Q == y % Q
  }

  lemma {:induction false} CongMul(x: int, y: int, z: int)
    requires Cong(x, y)
    ensures Cong(x * z, y * z) && Cong(z * x, z * y)
  {
    var k := x / Q - y / Q;
    assert x == y + k * Q;
    ModShift(y * z, k * z);
    assert x * z == y * z + (k * z) * Q by {
      assert (y + k * Q) * z == y * z + k * Q * z;
    }
  }

  lemma {:induction false} CongAdd(x: int, y: int, u: int, v: int)
    requires Cong(x, y) && Cong(u, v)
    ensures Cong(x + u, y + v)
  {
  }

  /** One more product term on both sides of a distributed dot product. */
  lemma {:induction false} DistributeStep(d: int, d1: int, d2: int, t: int, x: int, y: int, z: int)
    requires Cong(d, d1 + d2) && Cong(t, x + y)
    ensures Cong(d + t * z, (d1 + x * z) + (d2 + y * z))
    ensures Cong(d + z * t, (d1 + z * x) + (d2 + z * y))
  {
    CongMul(t, x + y, z);
    CongAdd(d, d1 + d2, t * z, (x + y) * z);
    assert (x + y) * z == x * z + y * z;
  }

  /** One more reduced product term against its unreduced value. */
  lemma {:induction false} ReducedStep(d: int, s: int, c: int, w: int)
    requires Cong(d, s)
    ensures Cong(d + (c % Q) * w, s + c * w)
    ensures Cong(d + w * (c % Q), s + c * w)
  {
    CongMul(c % Q, c, w);
    CongAdd(d, s, (c % Q) * w, c * w);
  }

  lemma {:induction false} ReducedSum(x: int, y: int)
    ensures (x % Q + y % Q) % Q == (x + y) % Q
  {
  }

  lemma {:induction false} ModShift(x: int, m: int)
    ensures (x + m * Q) % Q == x % Q
  {
  }

  // ---------- cells ----------

  lemma {:induction false} CellIndex(i: nat, j: nat, rows: nat, cols: nat)
    requires i < rows && j < cols
    ensures 0 <= i * cols + j < rows * cols
    ensures (i * cols + j) / cols == i && (i * cols + j) % cols == j
  {
    RowBound(i, rows, cols);
    DivModUnique(i * cols + j, i, j, cols);
  }

  lemma {:induction false} RowBound(i: nat, rows: nat, cols: nat)
    requires i < rows
    ensures 0 <= i * cols && i * cols + cols <= rows * cols
  {
    var d: nat := rows - i - 1;
    assert rows * cols == (i + 1 + d) * cols == i * cols + cols + d * cols;
  }

  lemma {:induction false} DivModUnique(p: int, i: int, j: int, cols: nat)
    requires 0 <= j < cols && p == i * cols + j
    ensures p / cols == i && p % cols == j
  {
    var d := p / cols - i;
    assert d * cols == j - p % cols;
    assert d >= 1 ==> d * cols >= cols;
    assert d <= -1 ==> d * cols <= -1 * cols;
  }

  lemma {:induction false} MatMulCell(a: Matrix, b: Matrix, rows: nat, inner: nat, cols: nat, i: nat, j: nat)
    requires i < rows && j < cols
    ensures 0 <= i * cols + j < rows * cols
    ensures MatMul(a, b, rows, inner, cols)[i * cols + j] == Dot(a, b, inner, cols, i, j, inner) % Q
    ensures Entry(MatMul(a, b, rows, inner, cols), cols, i, j) == Dot(a, b, inner, cols, i, j, inner) % Q
  {
    CellIndex(i, j, rows, cols);
  }

  /** A cell number splits into a row and a column. */
  lemma {:induction false} CellSplit(p: nat, rows: nat, cols: nat)
    requires cols > 0 && p < rows * cols
    ensures 0 <= p / cols < rows && 0 <= p % cols < cols && p / cols * cols + p % cols == p
  {
    var d := p / cols;
    assert d >= rows ==> d * cols >= rows * cols;
  }

  /** A matrix whose cells are the reduced dot products is the product. */
  lemma {:induction false} MatMulByCells(r: Matrix, a: Matrix, b: Matrix, rows: nat, inner: nat, cols: nat)
    requires cols > 0 && |r| == rows * cols
    requires forall i: nat, j: nat :: i < rows && j < cols ==>
               Entry(r, cols, i, j) == Dot(a, b, inner, cols, i, j, inner) % Q
    ensures r == MatMul(a, b, rows, inner, cols)
  {
    var m := MatMul(a, b, rows, inner, cols);
    forall p | 0 <= p < |r|
      ensures r[p] == m[p]
    {
      CellSplit(p, rows, cols);
      assert Entry(r, cols, p / cols, p % cols) == r[p];
    }
  }

  lemma {:induction false} MatMulInField(a: Matrix, b: Matrix, rows: nat, inner: nat, cols: nat)
    requires cols > 0
    ensures InField(MatMul(a, b, rows, inner, cols))
  {
  }

  // ---------- finite sums ----------

  ghost function Sum(f: int -> int, n: nat): int
  {
    if n == 0 then 0 else Sum(f, n - 1) + f(n - 1)
  }

  ghost function SumSum(h: int -> int -> int, n: nat, m: nat): int
  {
    if n == 0 then 0 else SumSum(h, n - 1, m) + Sum(h(n - 1), m)
  }

  lemma {:induction false} SumSumPeel(h: int -> int -> int, g: int -> int, n: nat, m: nat)
    requires m > 0
    requires forall i :: 0 <= i < n ==> g(i) == h(i)(m - 1)
    ensures SumSum(h, n, m) == SumSum(h, n, m - 1) + Sum(g, n)
  {
    if n > 0 { SumSumPeel(h, g, n - 1, m); }
  }

  lemma {:induction false} SumExt(f: int -> int, g: int -> int, n: nat)
    requires forall i :: 0 <= i < n ==> f(i) == g(i)
    ensures Sum(f, n) == Sum(g, n)
  {
    if n > 0 { SumExt(f, g, n - 1); }
  }

  /** Exchanging the order of a double sum. */
  lemma {:induction false} SumSumSwap(h: int -> int -> int, k: int -> int -> int, n: nat, m: nat)
    requires forall i, j :: 0 <= i < n && 0 <= j < m ==> h(i)(j) == k(j)(i)
    ensures SumSum(h, n, m) == SumSum(k, m, n)
  {
    if n == 0 {
      SumSumZero(k, m);
    } else {
      SumSumSwap(h, k, n - 1, m);
      var g := (j: int) => k(j)(n - 1);
      SumSumPeel(k, g, m, n);
      SumExt(h(n - 1), g, m);
    }
  }

  lemma {:induction false} SumSumZero(k: int -> int -> int, m: nat)
    ensures SumSum(k, m, 0) == 0
  {
    if m > 0 { SumSumZero(k, m - 1); }
  }

  lemma {:induction false} ScaledDot(f: int -> int, z: int, a: Matrix, b: Matrix, inner: nat, cols: nat, i: int, j: int,
                                     n: nat)
    requires forall t :: 0 <= t < n ==> f(t) == Entry(a, inner, i, t) * Entry(b, cols, t, j) * z
    ensures Dot(a, b, inner, cols, i, j, n) * z == Sum(f, n)
  {
    if n > 0 { ScaledDot(f, z, a, b, inner, cols, i, j, n - 1); }
  }

  // ---------- associativity ----------

  /** One more term of a product with a reduced factor. */
  lemma {:induction false} LeftCell(x: Matrix, y: Matrix, z: Matrix, rows: nat, p: nat, q: nat, r: nat, i: nat, j: nat,
                                    n: nat)
    requires n < q && i < rows
    ensures Dot(MatMul(x, y, rows, p, q), z, q, r, i, j, n + 1)
            == Dot(MatMul(x, y, rows, p, q), z, q, r, i, j, n) + (Dot(x, y, p, q, i, n, p) % Q) * Entry(z, r, n, j)
  {
    MatMulCell(x, y, rows, p, q, i, n);
  }

  lemma {:induction false} RightCell(x: Matrix, y: Matrix, z: Matrix, p: nat, q: nat, r: nat, i: nat, j: nat, n: nat)
    requires n < p && j < r
    ensures Dot(x, MatMul(y, z, p, q, r), p, r, i, j, n + 1)
            == Dot(x, MatMul(y, z, p, q, r), p, r, i, j, n) + Entry(x, p, i, n) * (Dot(y, z, q, r, n, j, q) % Q)
  {
    MatMulCell(y, z, p, q, r, n, j);
  }

  lemma {:induction false} LeftStep(f: int -> int, x: Matrix, y: Matrix, z: Matrix, rows: nat, p: nat, q: nat, r: nat,
                                    i: nat, j: nat, n: nat, s: int)
    requires n < q && i < rows && Cong(Dot(MatMul(x, y, rows, p, q), z, q, r, i, j, n), s)
    requires forall t :: 0 <= t < p ==> f(t) == Entry(x, p, i, t) * Entry(y, q, t, n) * Entry(z, r, n, j)
    ensures Cong(Dot(MatMul(x, y, rows, p, q), z, q, r, i, j, n + 1), s + Sum(f, p))
  {
    ScaledDot(f, Entry(z, r, n, j), x, y, p, q, i, n, p);
    LeftCell(x, y, z, rows, p, q, r, i, j, n);
    ReducedStep(Dot(MatMul(x, y, rows, p, q), z, q, r, i, j, n), s, Dot(x, y, p, q, i, n, p), Entry(z, r, n, j));
  }

  lemma {:induction false} RightRow(f: int -> int, w: int, y: Matrix, z: Matrix, q: nat, r: nat, t: nat, j: nat)
    requires forall s :: 0 <= s < q ==> f(s) == w * Entry(y, q, t, s) * Entry(z, r, s, j)
    ensures Sum(f, q) == Dot(y, z, q, r, t, j, q) * w
  {
    forall s | 0 <= s < q ensures f(s) == Entry(y, q, t, s) * Entry(z, r, s, j) * w {
      ProductOrder(w, Entry(y, q, t, s), Entry(z, r, s, j));
    }
    ScaledDot(f, w, y, z, q, r, t, j, q);
  }

  lemma {:induction false} RightStep(f: int -> int, x: Matrix, y: Matrix, z: Matrix, p: nat, q: nat, r: nat, i: nat,
                                     j: nat, n: nat, s: int)
    requires n < p && j < r && Cong(Dot(x, MatMul(y, z, p, q, r), p, r, i, j, n), s)
    requires forall t :: 0 <= t < q ==> f(t) == Entry(x, p, i, n) * Entry(y, q, n, t) * Entry(z, r, t, j)
    ensures Cong(Dot(x, MatMul(y, z, p, q, r), p, r, i, j, n + 1), s + Sum(f, q))
  {
    RightRow(f, Entry(x, p, i, n), y, z, q, r, n, j);
    RightCell(x, y, z, p, q, r, i, j, n);
    ReducedStep(Dot(x, MatMul(y, z, p, q, r), p, r, i, j, n), s, Dot(y, z, q, r, n, j, q), Entry(x, p, i, n));
  }

  /** Row i of (x*y), times column j of z, as a double sum over the unreduced terms. */
  lemma {:induction false} LeftExpand(h: int -> int -> int, x: Matrix, y: Matrix, z: Matrix, rows: nat, p: nat, q: nat,
                                      r: nat, i: nat, j: nat, n: nat)
    requires n <= q && q > 0 && i < rows
    requires forall s, t :: 0 <= s < q && 0 <= t < p ==>
               h(s)(t) == Entry(x, p, i, t) * Entry(y, q, t, s) * Entry(z, r, s, j)
    ensures Cong(Dot(MatMul(x, y, rows, p, q), z, q, r, i, j, n), SumSum(h, n, p))
  {
    if n > 0 {
      LeftExpand(h, x, y, z, rows, p, q, r, i, j, n - 1);
      LeftStep(h(n - 1), x, y, z, rows, p, q, r, i, j, n - 1, SumSum(h, n - 1, p));
    }
  }

  /** Row i of x, times column j of (y*z), as a double sum over the unreduced terms. */
  lemma {:induction false} RightExpand(k: int -> int -> int, x: Matrix, y: Matrix, z: Matrix, p: nat, q: nat, r: nat,
                                       i: nat, j: nat, n: nat)
    requires n <= p && j < r
    requires forall t, s :: 0 <= t < p && 0 <= s < q ==>
               k(t)(s) == Entry(x, p, i, t) * Entry(y, q, t, s) * Entry(z, r, s, j)
    ensures Cong(Dot(x, MatMul(y, z, p, q, r), p, r, i, j, n), SumSum(k, n, q))
  {
    if n > 0 {
      RightExpand(k, x, y, z, p, q, r, i, j, n - 1);
      RightStep(k(n - 1), x, y, z, p, q, r, i, j, n - 1, SumSum(k, n - 1, q));
    }
  }

  lemma {:induction false} ProductOrder(a: int, b: int, c: int)
    ensures a * b * c == b * c * a
  {
  }

  lemma {:induction false} MatMulAssociative(x: Matrix, y: Matrix, z: Matrix, n: nat, p: nat, q: nat, r: nat)
    requires q > 0 && r > 0
    ensures MatMul(MatMul(x, y, n, p, q), z, n, q, r) == MatMul(x, MatMul(y, z, p, q, r), n, p, r)
  {
    var lhs := MatMul(MatMul(x, y, n, p, q), z, n, q, r);
    forall i: nat, j: nat | i < n && j < r
      ensures Entry(lhs, r, i, j) == Dot(x, MatMul(y, z, p, q, r), p, r, i, j, p) % Q
    {
      var h := (s: int) => ((t: int) => Entry(x, p, i, t) * Entry(y, q, t, s) * Entry(z, r, s, j));
      var k := (t: int) => ((s: int) => Entry(x, p, i, t) * Entry(y, q, t, s) * Entry(z, r, s, j));
      MatMulCell(MatMul(x, y, n, p, q), z, n, q, r, i, j);
      LeftExpand(h, x, y, z, n, p, q, r, i, j, q);
      RightExpand(k, x, y, z, p, q, r, i, j, p);
      SumSumSwap(h, k, q, p);
    }
    MatMulByCells(lhs, x, MatMul(y, z, p, q, r), n, p, r);
  }

  // ---------- distributivity ----------

  lemma {:induction false} AddEntry(a: Matrix, b: Matrix, cols: nat, i: int, j: int)
    requires |a| == |b|
    ensures Cong(Entry(Add(a, b), cols, i, j), Entry(a, cols, i, j) + Entry(b, cols, i, j))
  {
  }

  lemma {:induction false} DotAddLeft(a: Matrix, e: Matrix, b: Matrix, inner: nat, cols: nat, i: nat, j: nat, n: nat)
    requires |a| == |e|
    ensures Cong(Dot(Add(a, e), b, inner, cols, i, j, n),
                 Dot(a, b, inner, cols, i, j, n) + Dot(e, b, inner, cols, i, j, n))
  {
    if n > 0 {
      DotAddLeft(a, e, b, inner, cols, i, j, n - 1);
      var x, y, z := Entry(a, inner, i, n - 1), Entry(e, inner, i, n - 1), Entry(b, cols, n - 1, j);
      AddEntry(a, e, inner, i, n - 1);
      DistributeStep(Dot(Add(a, e), b, inner, cols, i, j, n - 1), Dot(a, b, inner, cols, i, j, n - 1),
                     Dot(e, b, inner, cols, i, j, n - 1), Entry(Add(a, e), inner, i, n - 1), x, y, z);
    }
  }

  lemma {:induction false} DotAddRight(a: Matrix, b: Matrix, f: Matrix, inner: nat, cols: nat, i: nat, j: nat, n: nat)
    requires |b| == |f|
    ensures Cong(Dot(a, Add(b, f), inner, cols, i, j, n),
                 Dot(a, b, inner, cols, i, j, n) + Dot(a, f, inner, cols, i, j, n))
  {
    if n > 0 {
      DotAddRight(a, b, f, inner, cols, i, j, n - 1);
      var x, y, z := Entry(b, cols, n - 1, j), Entry(f, cols, n - 1, j), Entry(a, inner, i, n - 1);
      AddEntry(b, f, cols, n - 1, j);
      DistributeStep(Dot(a, Add(b, f), inner, cols, i, j, n - 1), Dot(a, b, inner, cols, i, j, n - 1),
                     Dot(a, f, inner, cols, i, j, n - 1), Entry(Add(b, f), cols, n - 1, j), x, y, z);
    }
  }

  /** (a + e) * b == a * b + e * b */
  lemma {:induction false} MatMulAddLeft(a: Matrix, e: Matrix, b: Matrix, rows: nat, inner: nat, cols: nat)
    requires cols > 0 && |a| == |e|
    ensures MatMul(Add(a, e), b, rows, inner, cols) == Add(MatMul(a, b, rows, inner, cols),
                                                           MatMul(e, b, rows, inner, cols))
  {
    var l, r := MatMul(Add(a, e), b, rows, inner, cols), Add(MatMul(a, b, rows, inner, cols),
                                                             MatMul(e, b, rows, inner, cols));
    forall p | 0 <= p < rows * cols
      ensures l[p] == r[p]
    {
      CellSplit(p, rows, cols);
      var i, j := p / cols, p % cols;
      DotAddLeft(a, e, b, inner, cols, i, j, inner);
      ReducedSum(Dot(a, b, inner, cols, i, j, inner), Dot(e, b, inner, cols, i, j, inner));
    }
  }

  /** a * (b + f) == a * b + a * f */
  lemma {:induction false} MatMulAddRight(a: Matrix, b: Matrix, f: Matrix, rows: nat, inner: nat, cols: nat)
    requires cols > 0 && |b| == |f|
    ensures MatMul(a, Add(b, f), rows, inner, cols) == Add(MatMul(a, b, rows, inner, cols),
                                                           MatMul(a, f, rows, inner, cols))
  {
    var l, r := MatMul(a, Add(b, f), rows, inner, cols), Add(MatMul(a, b, rows, inner, cols),
                                                             MatMul(a, f, rows, inner, cols));
    forall p | 0 <= p < rows * cols
      ensures l[p] == r[p]
    {
      CellSplit(p, rows, cols);
      var i, j := p / cols, p % cols;
      DotAddRight(a, b, f, inner, cols, i, j, inner);
      ReducedSum(Dot(a, b, inner, cols, i, j, inner), Dot(a, f, inner, cols, i, j, inner));
    }
  }
}
