/**
 Evaluation of the work relation: the tiled loops over the masked matrices, the correction
 terms, and the proof and verification built on them.
 */
module PonWork {
  import opened Wrappers
  import opened FieldMatrix
  import opened WorkNoise

  const SQ: int := 18446744022169944100  // (Q - 1) * (Q - 1)

  lemma {:induction false} CellProduct(x: int, y: int)
    requires 0 <= x < Q && 0 <= y < Q
    ensures 0 <= x * y <= SQ
  {
    ProductBound(x, y, Q - 1);
  }

  lemma {:induction false} ProductBound(x: int, y: int, m: int)
    requires 0 <= x <= m && 0 <= y <= m
    ensures 0 <= x * y <= m * m
  {
    assert x * y <= m * y <= m * m;
  }

  // ---------- plain multiplication ----------

  method NativeDot(a: Matrix, b: Matrix, rows: nat, inner: nat, cols: nat, i: nat, j: nat) returns (sum: u128)
    requires InField(a) && InField(b) && |a| == rows * inner && |b| == inner * cols
    requires inner <= N && i < rows && j < cols
    ensures sum as int == Dot(a, b, inner, cols, i, j, inner)
  {
    sum := 0;
    var k := 0;
    while k < inner
      invariant 0 <= k <= inner
      invariant sum as int == Dot(a, b, inner, cols, i, j, k)
      invariant sum as int <= k * SQ
    {
      CellIndex(i, k, rows, inner);
      CellIndex(k, j, inner, cols);
      CellProduct(a[i * inner + k], b[k * cols + j]);
      sum := sum + a[i * inner + k] as u128 * b[k * cols + j] as u128;
      k := k + 1;
    }
  }

  method NativeMul(a: Matrix, b: Matrix, rows: nat, inner: nat, cols: nat) returns (product: Matrix)
    requires InField(a) && InField(b) && |a| == rows * inner && |b| == inner * cols
    requires inner <= N && cols > 0
    ensures product == MatMul(a, b, rows, inner, cols)
  {
    ghost var spec := MatMul(a, b, rows, inner, cols);
    var out := new int[rows * cols];
    var i := 0;
    ghost var done := 0;
    while i < rows
      invariant 0 <= i <= rows && done == i * cols <= |spec|
      invariant forall p :: 0 <= p < done ==> out[p] == spec[p]
    {
      CellIndex(i, cols - 1, rows, cols);
      NativeMulRow(out, a, b, rows, inner, cols, i);
      i, done := i + 1, done + cols;
      assert done == i * cols;
    }
    product := out[..];
  }

  method NativeMulRow(out: array<int>, a: Matrix, b: Matrix, rows: nat, inner: nat, cols: nat, i: nat)
    requires InField(a) && InField(b) && |a| == rows * inner && |b| == inner * cols
    requires inner <= N && cols > 0 && i < rows && out.Length == rows * cols && i * cols + cols <= rows * cols
    requires forall p :: 0 <= p < i * cols ==> out[p] == MatMul(a, b, rows, inner, cols)[p]
    modifies out
    ensures forall p :: 0 <= p < i * cols + cols ==> out[p] == MatMul(a, b, rows, inner, cols)[p]
  {
    var j := 0;
    while j < cols
      invariant 0 <= j <= cols
      invariant forall p :: 0 <= p < i * cols + j ==> out[p] == MatMul(a, b, rows, inner, cols)[p]
    {
      MatMulCell(a, b, rows, inner, cols, i, j);
      var sum := NativeDot(a, b, rows, inner, cols, i, j);
      out[i * cols + j] := (sum % Q as u128) as int;
      j := j + 1;
    }
  }

  // ---------- the tiled product ----------

  ghost predicate Square(a: Matrix) { |a| == CELLS && InField(a) }

  /** Cell (i, j) of the running product after n inner steps. */
  function Cell(ap: Matrix, bp: Matrix, i: int, j: int, n: nat): int
  {
    Dot(ap, bp, N, N, i, j, n) % Q
  }

  /** Rows r0..r1, columns c0..c1 hold the running product after n inner steps. */
  ghost predicate BlockAt(s: Matrix, ap: Matrix, bp: Matrix, r0: int, r1: int, c0: int, c1: int, n: nat)
  {
    forall i, j {:trigger Entry(s, N, i, j)} :: r0 <= i < r1 && c0 <= j < c1 ==>
      Entry(s, N, i, j) == Cell(ap, bp, i, j, n)
  }

  /** s and t agree outside rows r0..r1, columns c0..c1. */
  ghost predicate SameOutside(s: Matrix, t: Matrix, r0: int, r1: int, c0: int, c1: int)
  {
    forall i, j {:trigger Entry(s, N, i, j)} ::
      0 <= i < N && 0 <= j < N && !(r0 <= i < r1 && c0 <= j < c1) ==> Entry(s, N, i, j) == Entry(t, N, i, j)
  }

  lemma {:induction false} SameOutsideTrans(c: Matrix, d: Matrix, e: Matrix, i0: nat, i1: nat, j0: nat, j1: nat)
    requires |c| == |d| == |e| == CELLS && SameOutside(c, d, i0, i1, j0, j1) && SameOutside(d, e, i0, i1, j0, j1)
    ensures SameOutside(c, e, i0, i1, j0, j1)
  {
  }

  // The transcript, outermost loop last: row of a tile, tile, the bk tiles of one block,
  // the blocks of one band, the bands.
  function RowTrace(ap: Matrix, bp: Matrix, i: nat, c: nat, n: nat, k: nat): Matrix
  {
    if k == 0 then [] else RowTrace(ap, bp, i, c, n, k - 1) + [Cell(ap, bp, i, c + k - 1, n)]
  }

  function TileTrace(ap: Matrix, bp: Matrix, r0: nat, c: nat, n: nat, k: nat): Matrix
  {
    if k == 0 then [] else TileTrace(ap, bp, r0, c, n, k - 1) + RowTrace(ap, bp, r0 + k - 1, c, n, R)
  }

  function BlockTrace(ap: Matrix, bp: Matrix, r0: nat, c: nat, k: nat): Matrix
  {
    if k == 0 then [] else BlockTrace(ap, bp, r0, c, k - 1) + TileTrace(ap, bp, r0, c, k * R, R)
  }

  function BandTrace(ap: Matrix, bp: Matrix, r0: nat, k: nat): Matrix
  {
    if k == 0 then [] else BandTrace(ap, bp, r0, k - 1) + BlockTrace(ap, bp, r0, (k - 1) * R, N / R)
  }

  function Trace(ap: Matrix, bp: Matrix, k: nat): Matrix
  {
    if k == 0 then [] else Trace(ap, bp, k - 1) + BandTrace(ap, bp, (k - 1) * R, N / R)
  }

  lemma {:induction false} ReducedTerm(sum: int, d: int, t: int)
    requires sum % Q == d % Q
    ensures (sum + t) % Q == (d + t) % Q
  {
  }

  method NativeCell(start: int, ap: Matrix, bp: Matrix, i: nat, j: nat, k0: nat) returns (v: int)
    requires Square(ap) && Square(bp) && i < N && j < N && k0 + R <= N
    requires start == Cell(ap, bp, i, j, k0)
    ensures v == Cell(ap, bp, i, j, k0 + R)
  {
    var sum: u128 := start as u128;
    var k := k0;
    while k < k0 + R
      invariant k0 <= k <= k0 + R
      invariant sum as int % Q == Dot(ap, bp, N, N, i, j, k) % Q
      invariant sum as int <= Q + (k - k0) * SQ
    {
      var x, y := ap[i * N + k], bp[k * N + j];
      CellStep(ap, bp, i, j, k, sum as int, x, y);
      sum := MulAdd(sum, x, y);
      k := k + 1;
    }
    v := (sum % Q as u128) as int;
  }

  lemma {:induction false} CellStep(ap: Matrix, bp: Matrix, i: nat, j: nat, k: nat, sum: int, x: int, y: int)
    requires Square(ap) && Square(bp) && i < N && j < N && k < N && x == ap[i * N + k] && y == bp[k * N + j]
    requires sum % Q == Dot(ap, bp, N, N, i, j, k) % Q
    ensures 0 <= x < Q && 0 <= y < Q && (sum + x * y) % Q == Dot(ap, bp, N, N, i, j, k + 1) % Q
  {
    assert Entry(ap, N, i, k) == x && Entry(bp, N, k, j) == y;
    ReducedTerm(sum, Dot(ap, bp, N, N, i, j, k), x * y);
  }

  /** One multiply-and-add; neither operation leaves u128. */
  method MulAdd(sum: u128, x: int, y: int) returns (r: u128)
    requires 0 <= x < Q && 0 <= y < Q && sum as int <= Q + R * SQ
    ensures r as int == sum as int + x * y && r as int <= sum as int + SQ
  {
    CellProduct(x, y);
    r := sum + x as u128 * y as u128;
  }

  method SetCell(cp: array<int>, i: nat, j: nat, v: int)
    requires cp.Length == CELLS && i < N && j < N
    modifies cp
    ensures Entry(cp[..], N, i, j) == v && SameOutside(cp[..], old(cp[..]), i, i + 1, j, j + 1)
  {
    cp[i * N + j] := v;
  }

  method NativeTileRow(cp: array<int>, ap: Matrix, bp: Matrix, i: nat, c0: nat, k0: nat) returns (emitted: Matrix)
    requires Square(ap) && Square(bp) && cp.Length == CELLS && i < N && c0 + R <= N && k0 + R <= N
    requires BlockAt(cp[..], ap, bp, i, i + 1, c0, c0 + R, k0)
    modifies cp
    ensures BlockAt(cp[..], ap, bp, i, i + 1, c0, c0 + R, k0 + R)
    ensures SameOutside(cp[..], old(cp[..]), i, i + 1, c0, c0 + R)
    ensures emitted == RowTrace(ap, bp, i, c0, k0 + R, R)
  {
    emitted := [];
    ghost var before := cp[..];
    var j := c0;
    while j < c0 + R
      invariant c0 <= j <= c0 + R
      invariant BlockAt(cp[..], ap, bp, i, i + 1, c0, j, k0 + R)
      invariant BlockAt(cp[..], ap, bp, i, i + 1, j, c0 + R, k0)
      invariant SameOutside(cp[..], before, i, i + 1, c0, c0 + R)
      invariant emitted == RowTrace(ap, bp, i, c0, k0 + R, j - c0)
    {
      assert Entry(cp[..], N, i, j) == cp[i * N + j];
      var v := NativeCell(cp[i * N + j], ap, bp, i, j, k0);
      SetCell(cp, i, j, v);
      emitted := emitted + [v];
      j := j + 1;
    }
  }

  method NativeTile(cp: array<int>, ap: Matrix, bp: Matrix, r0: nat, c0: nat, k0: nat) returns (emitted: Matrix)
    requires Square(ap) && Square(bp) && cp.Length == CELLS && r0 + R <= N && c0 + R <= N && k0 + R <= N
    requires BlockAt(cp[..], ap, bp, r0, r0 + R, c0, c0 + R, k0)
    modifies cp
    ensures BlockAt(cp[..], ap, bp, r0, r0 + R, c0, c0 + R, k0 + R)
    ensures SameOutside(cp[..], old(cp[..]), r0, r0 + R, c0, c0 + R)
    ensures emitted == TileTrace(ap, bp, r0, c0, k0 + R, R)
  {
    emitted := [];
    ghost var before := cp[..];
    var i := r0;
    while i < r0 + R
      invariant r0 <= i <= r0 + R
      invariant BlockAt(cp[..], ap, bp, r0, i, c0, c0 + R, k0 + R)
      invariant BlockAt(cp[..], ap, bp, i, r0 + R, c0, c0 + R, k0)
      invariant SameOutside(cp[..], before, r0, r0 + R, c0, c0 + R)
      invariant emitted == TileTrace(ap, bp, r0, c0, k0 + R, i - r0)
    {
      var row := NativeTileRow(cp, ap, bp, i, c0, k0);
      emitted := emitted + row;
      i := i + 1;
    }
  }

  method NativeBlock(cp: array<int>, ap: Matrix, bp: Matrix, r0: nat, c0: nat) returns (emitted: Matrix)
    requires Square(ap) && Square(bp) && cp.Length == CELLS && r0 + R <= N && c0 + R <= N
    requires BlockAt(cp[..], ap, bp, r0, r0 + R, c0, c0 + R, 0)
    modifies cp
    ensures BlockAt(cp[..], ap, bp, r0, r0 + R, c0, c0 + R, N)
    ensures SameOutside(cp[..], old(cp[..]), r0, r0 + R, c0, c0 + R)
    ensures emitted == BlockTrace(ap, bp, r0, c0, N / R)
  {
    emitted := [];
    ghost var before := cp[..];
    var bk := 0;
    while bk < N / R
      invariant 0 <= bk <= N / R
      invariant BlockAt(cp[..], ap, bp, r0, r0 + R, c0, c0 + R, bk * R)
      invariant SameOutside(cp[..], before, r0, r0 + R, c0, c0 + R)
      invariant emitted == BlockTrace(ap, bp, r0, c0, bk)
    {
      assert (bk + 1) * R == bk * R + R;
      ghost var prior := cp[..];
      var tile := NativeTile(cp, ap, bp, r0, c0, bk * R);
      SameOutsideTrans(cp[..], prior, before, r0, r0 + R, c0, c0 + R);
      emitted := emitted + tile;
      bk := bk + 1;
    }
  }

  /** One more block of a band: what was done stays, what is to come is untouched. */
  lemma {:induction false} BandNext(s: Matrix, t: Matrix, ap: Matrix, bp: Matrix, r0: nat, c0: nat)
    requires BlockAt(s, ap, bp, r0, r0 + R, 0, c0, N) && BlockAt(s, ap, bp, r0, r0 + R, c0, N, 0) && r0 + R <= N
    requires c0 + R <= N
    requires BlockAt(t, ap, bp, r0, r0 + R, c0, c0 + R, N) && SameOutside(t, s, r0, r0 + R, c0, c0 + R)
    ensures BlockAt(t, ap, bp, r0, r0 + R, 0, c0 + R, N) && BlockAt(t, ap, bp, r0, r0 + R, c0 + R, N, 0)
  {
  }

  lemma {:induction false} BandOutside(s: Matrix, t: Matrix, before: Matrix, r0: nat, c0: nat)
    requires SameOutside(s, before, r0, r0 + R, 0, N) && SameOutside(t, s, r0, r0 + R, c0, c0 + R) && c0 + R <= N
    ensures SameOutside(t, before, r0, r0 + R, 0, N)
  {
  }

  method NativeBand(cp: array<int>, ap: Matrix, bp: Matrix, r0: nat) returns (emitted: Matrix)
    requires Square(ap) && Square(bp) && cp.Length == CELLS && r0 + R <= N
    requires BlockAt(cp[..], ap, bp, r0, r0 + R, 0, N, 0)
    modifies cp
    ensures BlockAt(cp[..], ap, bp, r0, r0 + R, 0, N, N)
    ensures SameOutside(cp[..], old(cp[..]), r0, r0 + R, 0, N)
    ensures emitted == BandTrace(ap, bp, r0, N / R)
  {
    emitted := [];
    ghost var before := cp[..];
    var bj := 0;
    while bj < N / R
      invariant 0 <= bj <= N / R
      invariant BlockAt(cp[..], ap, bp, r0, r0 + R, 0, bj * R, N)
      invariant BlockAt(cp[..], ap, bp, r0, r0 + R, bj * R, N, 0)
      invariant SameOutside(cp[..], before, r0, r0 + R, 0, N)
      invariant emitted == BandTrace(ap, bp, r0, bj)
    {
      ghost var last := cp[..];
      var block := NativeBlock(cp, ap, bp, r0, bj * R);
      BandNext(last, cp[..], ap, bp, r0, bj * R);
      BandOutside(last, cp[..], before, r0, bj * R);
      assert (bj + 1) * R == bj * R + R;
      emitted := emitted + block;
      bj := bj + 1;
    }
  }

  method NativeTiled(ap: Matrix, bp: Matrix) returns (product: Matrix, emitted: Matrix)
    requires Square(ap) && Square(bp)
    ensures product == MatMul(ap, bp, N, N, N)
    ensures emitted == Trace(ap, bp, N / R)
  {
    var cp := new int[CELLS](_ => 0);
    emitted := [];
    var bi := 0;
    while bi < N / R
      invariant 0 <= bi <= N / R
      invariant BlockAt(cp[..], ap, bp, 0, bi * R, 0, N, N)
      invariant BlockAt(cp[..], ap, bp, bi * R, N, 0, N, 0)
      invariant emitted == Trace(ap, bp, bi)
    {
      var band := NativeBand(cp, ap, bp, bi * R);
      emitted := emitted + band;
      bi := bi + 1;
    }
    product := cp[..];
    MatMulByCells(product, ap, bp, N, N, N);
  }

  // ---------- the Python oracle's tile loops ----------

  /** The inner products k0..k0+R of one cell, as the oracle's generator sums them. */
  function TileSum(ap: Matrix, bp: Matrix, i: int, j: int, k0: nat, n: nat): int
  {
    if n == 0 then 0 else TileSum(ap, bp, i, j, k0, n - 1) + Entry(ap, N, i, k0 + n - 1) * Entry(bp, N, k0 + n - 1, j)
  }

  lemma {:induction false} TileSumIsDot(ap: Matrix, bp: Matrix, i: int, j: int, k0: nat, n: nat)
    ensures Dot(ap, bp, N, N, i, j, k0) + TileSum(ap, bp, i, j, k0, n) == Dot(ap, bp, N, N, i, j, k0 + n)
  {
    if n > 0 { TileSumIsDot(ap, bp, i, j, k0, n - 1); }
  }

  lemma {:induction false} SeqSetCell(cp: Matrix, i: nat, j: nat, v: int)
    requires |cp| == CELLS && i < N && j < N
    ensures Entry(cp[i * N + j := v], N, i, j) == v && SameOutside(cp[i * N + j := v], cp, i, i + 1, j, j + 1)
  {
  }

  method OracleTileRow(before: Matrix, ap: Matrix, bp: Matrix, i: nat, c0: nat, k0: nat)
    returns (cp: Matrix, tile: Matrix)
    requires |before| == CELLS && i < N && c0 + R <= N && k0 + R <= N
    requires BlockAt(before, ap, bp, i, i + 1, c0, c0 + R, k0)
    ensures |cp| == CELLS && BlockAt(cp, ap, bp, i, i + 1, c0, c0 + R, k0 + R)
    ensures SameOutside(cp, before, i, i + 1, c0, c0 + R)
    ensures tile == RowTrace(ap, bp, i, c0, k0 + R, R)
  {
    cp, tile := before, [];
    for j := c0 to c0 + R
      invariant |cp| == CELLS
      invariant BlockAt(cp, ap, bp, i, i + 1, c0, j, k0 + R)
      invariant BlockAt(cp, ap, bp, i, i + 1, j, c0 + R, k0)
      invariant SameOutside(cp, before, i, i + 1, c0, c0 + R)
      invariant tile == RowTrace(ap, bp, i, c0, k0 + R, j - c0)
    {
      var pos := i * N + j;
      assert Entry(cp, N, i, j) == cp[pos];
      var v := (cp[pos] + TileSum(ap, bp, i, j, k0, R)) % Q;
      assert v == Cell(ap, bp, i, j, k0 + R) by {
        TileSumIsDot(ap, bp, i, j, k0, R);
        ReducedTerm(cp[pos], Dot(ap, bp, N, N, i, j, k0), TileSum(ap, bp, i, j, k0, R));
      }
      SeqSetCell(cp, i, j, v);
      cp := cp[pos := v];
      tile := tile + [v];
    }
  }

  method OracleTile(before: Matrix, ap: Matrix, bp: Matrix, r0: nat, c0: nat, k0: nat)
    returns (cp: Matrix, tile: Matrix)
    requires |before| == CELLS && r0 + R <= N && c0 + R <= N && k0 + R <= N
    requires BlockAt(before, ap, bp, r0, r0 + R, c0, c0 + R, k0)
    ensures |cp| == CELLS && BlockAt(cp, ap, bp, r0, r0 + R, c0, c0 + R, k0 + R)
    ensures SameOutside(cp, before, r0, r0 + R, c0, c0 + R)
    ensures tile == TileTrace(ap, bp, r0, c0, k0 + R, R)
  {
    cp, tile := before, [];
    for i := r0 to r0 + R
      invariant |cp| == CELLS
      invariant BlockAt(cp, ap, bp, r0, i, c0, c0 + R, k0 + R)
      invariant BlockAt(cp, ap, bp, i, r0 + R, c0, c0 + R, k0)
      invariant SameOutside(cp, before, r0, r0 + R, c0, c0 + R)
      invariant tile == TileTrace(ap, bp, r0, c0, k0 + R, i - r0)
    {
      var row;
      cp, row := OracleTileRow(cp, ap, bp, i, c0, k0);
      tile := tile + row;
    }
  }

  /** The k0 loop: one transcript update per tile. */
  method OracleBlock(before: Matrix, ap: Matrix, bp: Matrix, r0: nat, c0: nat) returns (cp: Matrix, trace: Bytes)
    requires |before| == CELLS && r0 + R <= N && c0 + R <= N
    requires BlockAt(before, ap, bp, r0, r0 + R, c0, c0 + R, 0)
    ensures |cp| == CELLS && BlockAt(cp, ap, bp, r0, r0 + R, c0, c0 + R, N)
    ensures SameOutside(cp, before, r0, r0 + R, c0, c0 + R)
    ensures Words(BlockTrace(ap, bp, r0, c0, N / R)) && trace == FieldBytes(BlockTrace(ap, bp, r0, c0, N / R))
  {
    cp, trace := before, [];
    for bk := 0 to N / R
      invariant |cp| == CELLS
      invariant BlockAt(cp, ap, bp, r0, r0 + R, c0, c0 + R, bk * R)
      invariant SameOutside(cp, before, r0, r0 + R, c0, c0 + R)
      invariant Words(BlockTrace(ap, bp, r0, c0, bk)) && trace == FieldBytes(BlockTrace(ap, bp, r0, c0, bk))
    {
      assert (bk + 1) * R == bk * R + R;
      var tile;
      ghost var last := cp;
      cp, tile := OracleTile(cp, ap, bp, r0, c0, bk * R);
      SameOutsideTrans(cp, last, before, r0, r0 + R, c0, c0 + R);
      BlockTraceNext(ap, bp, r0, c0, bk, tile);
      trace := trace + FieldBytes(tile);
    }
  }

  lemma {:induction false} BlockTraceNext(ap: Matrix, bp: Matrix, r0: nat, c0: nat, bk: nat, tile: Matrix)
    requires Words(BlockTrace(ap, bp, r0, c0, bk)) && tile == TileTrace(ap, bp, r0, c0, bk * R + R, R)
    ensures Words(tile) && Words(BlockTrace(ap, bp, r0, c0, bk + 1))
    ensures FieldBytes(BlockTrace(ap, bp, r0, c0, bk + 1))
            == FieldBytes(BlockTrace(ap, bp, r0, c0, bk)) + FieldBytes(tile)
  {
    assert (bk + 1) * R == bk * R + R;
    TileTraceInField(ap, bp, r0, c0, bk * R + R, R);
    FieldBytesConcat(BlockTrace(ap, bp, r0, c0, bk), tile);
  }

  method OracleBand(before: Matrix, ap: Matrix, bp: Matrix, r0: nat) returns (cp: Matrix, trace: Bytes)
    requires |before| == CELLS && r0 + R <= N
    requires BlockAt(before, ap, bp, r0, r0 + R, 0, N, 0)
    ensures |cp| == CELLS && BlockAt(cp, ap, bp, r0, r0 + R, 0, N, N)
    ensures SameOutside(cp, before, r0, r0 + R, 0, N)
    ensures Words(BandTrace(ap, bp, r0, N / R)) && trace == FieldBytes(BandTrace(ap, bp, r0, N / R))
  {
    cp, trace := before, [];
    for bj := 0 to N / R
      invariant |cp| == CELLS
      invariant BlockAt(cp, ap, bp, r0, r0 + R, 0, bj * R, N)
      invariant BlockAt(cp, ap, bp, r0, r0 + R, bj * R, N, 0)
      invariant SameOutside(cp, before, r0, r0 + R, 0, N)
      invariant Words(BandTrace(ap, bp, r0, bj)) && trace == FieldBytes(BandTrace(ap, bp, r0, bj))
    {
      var block;
      cp, block := OracleBlock(cp, ap, bp, r0, bj * R);
      FieldBytesConcat(BandTrace(ap, bp, r0, bj), BlockTrace(ap, bp, r0, bj * R, N / R));
      trace := trace + block;
    }
  }

  method OracleTiled(ap: Matrix, bp: Matrix) returns (product: Matrix, trace: Bytes)
    ensures product == MatMul(ap, bp, N, N, N)
    ensures Words(Trace(ap, bp, N / R)) && trace == FieldBytes(Trace(ap, bp, N / R))
  {
    var cp: Matrix := seq(CELLS, _ => 0);
    trace := [];
    for bi := 0 to N / R
      invariant |cp| == CELLS
      invariant BlockAt(cp, ap, bp, 0, bi * R, 0, N, N)
      invariant BlockAt(cp, ap, bp, bi * R, N, 0, N, 0)
      invariant Words(Trace(ap, bp, bi)) && trace == FieldBytes(Trace(ap, bp, bi))
    {
      var band;
      cp, band := OracleBand(cp, ap, bp, bi * R);
      FieldBytesConcat(Trace(ap, bp, bi), BandTrace(ap, bp, bi * R, N / R));
      trace := trace + band;
    }
    product := cp;
    MatMulByCells(product, ap, bp, N, N, N);
  }

  lemma {:induction false} RowTraceInField(ap: Matrix, bp: Matrix, i: nat, c: nat, n: nat, k: nat)
    ensures InField(RowTrace(ap, bp, i, c, n, k))
  {
    if k > 0 { RowTraceInField(ap, bp, i, c, n, k - 1); }
  }

  lemma {:induction false} TileTraceInField(ap: Matrix, bp: Matrix, r0: nat, c: nat, n: nat, k: nat)
    ensures InField(TileTrace(ap, bp, r0, c, n, k))
  {
    if k > 0 {
      TileTraceInField(ap, bp, r0, c, n, k - 1);
      RowTraceInField(ap, bp, r0 + k - 1, c, n, R);
    }
  }

  lemma {:induction false} BlockTraceInField(ap: Matrix, bp: Matrix, r0: nat, c: nat, k: nat)
    ensures InField(BlockTrace(ap, bp, r0, c, k))
  {
    if k > 0 {
      BlockTraceInField(ap, bp, r0, c, k - 1);
      TileTraceInField(ap, bp, r0, c, k * R, R);
    }
  }

  lemma {:induction false} BandTraceInField(ap: Matrix, bp: Matrix, r0: nat, k: nat)
    ensures InField(BandTrace(ap, bp, r0, k))
  {
    if k > 0 {
      BandTraceInField(ap, bp, r0, k - 1);
      BlockTraceInField(ap, bp, r0, (k - 1) * R, N / R);
    }
  }

  lemma {:induction false} TraceInField(ap: Matrix, bp: Matrix, k: nat)
    ensures InField(Trace(ap, bp, k)) && Words(Trace(ap, bp, k))
  {
    if k > 0 {
      TraceInField(ap, bp, k - 1);
      BandTraceInField(ap, bp, (k - 1) * R, N / R);
    }
  }

  // ---------- unmasking ----------

  /** The corrections cancel the masks: this is the algebra the whole relation rests on. */
  lemma {:induction false} UnmaskedProduct(a: Matrix, b: Matrix, el: Matrix, er: Matrix, fl: Matrix, fr: Matrix, p: nat)
    requires |a| == CELLS && |b| == CELLS && p < CELLS
    ensures var bp := Add(b, MatMul(fl, fr, N, R, N));
            var cp := MatMul(Add(a, MatMul(el, er, N, R, N)), bp, N, N, N);
            var c1 := MatMul(MatMul(a, fl, N, N, R), fr, N, R, N);
            var c2 := MatMul(el, MatMul(er, bp, R, N, N), N, R, N);
            (cp[p] - c1[p] - c2[p]) % Q == MatMul(a, b, N, N, N)[p]
  {
    var e, f := MatMul(el, er, N, R, N), MatMul(fl, fr, N, R, N);
    var bp := Add(b, f);
    MatMulAddLeft(a, e, bp, N, N, N);
    MatMulAddRight(a, b, f, N, N, N);
    MatMulAssociative(a, fl, fr, N, N, R, N);
    MatMulAssociative(el, er, bp, N, R, N, N);
    var ab, af, c2 := MatMul(a, b, N, N, N), MatMul(a, f, N, N, N), MatMul(e, bp, N, N, N);
    Cancel(ab[p], af[p], c2[p], Add(ab, af)[p], Add(Add(ab, af), c2)[p]);
  }

  lemma {:induction false} Cancel(ab: int, af: int, c2: int, abf: int, cp: int)
    requires 0 <= ab < Q && abf == (ab + af) % Q && cp == (abf + c2) % Q
    ensures (cp - af - c2) % Q == ab
  {
  }

  /** `(x + 2 * Q - y - z) % Q` in u128: the type checks that it neither wraps nor underflows. */
  function NativeCorrection(x: int, y: int, z: int): (r: int)
    requires 0 <= x < Q && 0 <= y < Q && 0 <= z < Q
    ensures r == (x - y - z) % Q
  {
    ((x as u128 + 2 * Q as u128 - y as u128 - z as u128) % Q as u128) as int
  }

  // ---------- evaluation ----------

  datatype Masks = Masks(el: Matrix, er: Matrix, fl: Matrix, fr: Matrix)

  function MaskNoise(sha: Sha, c: Hash): (r: Result<Masks>)
    ensures r.Ok? ==> |r.value.el| == |r.value.er| == |r.value.fl| == |r.value.fr| == N * R
  {
    var el, er, fl, fr := Noise(sha, c, 0, N * R), Noise(sha, c, 1, N * R), Noise(sha, c, 2, N * R), Noise(sha, c, 3,
        N * R);
    if el.Ok? && er.Ok? && fl.Ok? && fr.Ok? then Ok(Masks(el.value, er.value, fl.value, fr.value))
    else Err(NoiseBudget)
  }

  function MaskedTrace(m: Masks, a: Matrix, b: Matrix): Matrix
    requires |a| == CELLS && |b| == CELLS
  {
    Trace(Add(a, MatMul(m.el, m.er, N, R, N)), Add(b, MatMul(m.fl, m.fr, N, R, N)), N / R)
  }

  function Transcript(sha: Sha, c: Hash, trace: Matrix): Hash
    requires Words(trace)
  {
    sha(TRACE_PREFIX + c + FieldBytes(trace))
  }

  /**
   What evaluation must return: the plain product of the inputs, and the digest of the
   running cells of the masked product.
   */
  function Evaluation(sha: Sha, c: Hash, a: Matrix, b: Matrix): (r: Result<(Matrix, Hash)>)
    requires |a| == CELLS && |b| == CELLS && InField(a) && InField(b)
  {
    match MaskNoise(sha, c)
    case Err(e) => Err(e)
    case Ok(m) =>
      var t := MaskedTrace(m, a, b);
      TraceInField(Add(a, MatMul(m.el, m.er, N, R, N)), Add(b, MatMul(m.fl, m.fr, N, R, N)), N / R);
      Ok((MatMul(a, b, N, N, N), Transcript(sha, c, t)))
  }

  function NativeValidate(a: Matrix): Result<bool>
  {
    if |a| != CELLS then Err(Length) else if !InField(a) then Err(Field) else Ok(true)
  }

  function OracleCheck(a: Matrix): Result<bool>
  {
    if |a| != CELLS || !InField(a) then Err(Field) else Ok(true)
  }

  method NativeMasks(sha: Sha, c: Hash) returns (r: Result<Masks>)
    ensures r == MaskNoise(sha, c)
    ensures r.Ok? ==> InField(r.value.el) && InField(r.value.er) && InField(r.value.fl) && InField(r.value.fr)
  {
    NoiseInField(sha, c, 0, N * R);
    NoiseInField(sha, c, 1, N * R);
    NoiseInField(sha, c, 2, N * R);
    NoiseInField(sha, c, 3, N * R);
    var el := NativeExpand(sha, c, 0, N * R);
    if el.Err? { return Err(el.code); }
    var er := NativeExpand(sha, c, 1, R * N);
    if er.Err? { return Err(er.code); }
    var fl := NativeExpand(sha, c, 2, N * R);
    if fl.Err? { return Err(fl.code); }
    var fr := NativeExpand(sha, c, 3, R * N);
    if fr.Err? { return Err(fr.code); }
    r := Ok(Masks(el.value, er.value, fl.value, fr.value));
  }

  method NativeEvaluate(sha: Sha, c: Hash, a: Matrix, b: Matrix) returns (r: Result<(Matrix, Hash)>)
    ensures NativeValidate(a).Err? ==> r == Err(NativeValidate(a).code)
    ensures NativeValidate(a).Ok? && NativeValidate(b).Err? ==> r == Err(NativeValidate(b).code)
    ensures NativeValidate(a).Ok? && NativeValidate(b).Ok? ==> r == Evaluation(sha, c, a, b)
  {
    if |a| != CELLS { return Err(Length); }
    if !InField(a) { return Err(Field); }
    if |b| != CELLS { return Err(Length); }
    if !InField(b) { return Err(Field); }
    var masks := NativeMasks(sha, c);
    if masks.Err? { return Err(masks.code); }
    var product, trace := NativeProduct(masks.value, a, b);
    r := Ok((product, Transcript(sha, c, trace)));
  }

  method NativeProduct(m: Masks, a: Matrix, b: Matrix) returns (product: Matrix, trace: Matrix)
    requires Square(a) && Square(b)
    requires |m.el| == |m.er| == |m.fl| == |m.fr| == N * R
    requires InField(m.el) && InField(m.er) && InField(m.fl) && InField(m.fr)
    ensures product == MatMul(a, b, N, N, N)
    ensures trace == MaskedTrace(m, a, b) && Words(trace)
  {
    var e := NativeMul(m.el, m.er, N, R, N);
    var f := NativeMul(m.fl, m.fr, N, R, N);
    var ap, bp := Add(a, e), Add(b, f);
    var cp;
    cp, trace := NativeTiled(ap, bp);
    TraceInField(ap, bp, N / R);
    var c1, c2 := NativeCorrections(m, a, bp);
    MatMulInField(ap, bp, N, N, N);
    product := seq(CELLS, p requires 0 <= p < CELLS => NativeCorrection(cp[p], c1[p], c2[p]));
    forall p | 0 <= p < CELLS
      ensures product[p] == MatMul(a, b, N, N, N)[p]
    {
      UnmaskedProduct(a, b, m.el, m.er, m.fl, m.fr, p);
    }
  }

  method NativeCorrections(m: Masks, a: Matrix, bp: Matrix) returns (c1: Matrix, c2: Matrix)
    requires Square(a) && Square(bp)
    requires |m.el| == |m.er| == |m.fl| == |m.fr| == N * R
    requires InField(m.el) && InField(m.er) && InField(m.fl) && InField(m.fr)
    ensures c1 == MatMul(MatMul(a, m.fl, N, N, R), m.fr, N, R, N) && Square(c1)
    ensures c2 == MatMul(m.el, MatMul(m.er, bp, R, N, N), N, R, N) && Square(c2)
  {
    MatMulInField(a, m.fl, N, N, R);
    MatMulInField(m.er, bp, R, N, N);
    MatMulInField(MatMul(a, m.fl, N, N, R), m.fr, N, R, N);
    MatMulInField(m.el, MatMul(m.er, bp, R, N, N), N, R, N);
    var left := NativeMul(a, m.fl, N, N, R);
    c1 := NativeMul(left, m.fr, N, R, N);
    var right := NativeMul(m.er, bp, R, N, N);
    c2 := NativeMul(m.el, right, N, R, N);
  }

  method OracleEvaluate(sha: Sha, c: Hash, a: Matrix, b: Matrix) returns (r: Result<(Matrix, Hash)>)
    ensures OracleCheck(a).Err? || OracleCheck(b).Err? ==> r == Err(Field)
    ensures OracleCheck(a).Ok? && OracleCheck(b).Ok? ==> r == Evaluation(sha, c, a, b)
  {
    if OracleCheck(a).Err? || OracleCheck(b).Err? { return Err(Field); }
    var el := OracleExpand(sha, c, 0, N * R);
    if el.Err? { return Err(el.code); }
    var er := OracleExpand(sha, c, 1, N * R);
    if er.Err? { return Err(er.code); }
    var fl := OracleExpand(sha, c, 2, N * R);
    if fl.Err? { return Err(fl.code); }
    var fr := OracleExpand(sha, c, 3, N * R);
    if fr.Err? { return Err(fr.code); }
    var m := Masks(el.value, er.value, fl.value, fr.value);
    var product, trace := OracleProduct(m, a, b);
    r := Ok((product, sha(TRACE_PREFIX + c + trace)));
  }

  method OracleProduct(m: Masks, a: Matrix, b: Matrix) returns (product: Matrix, trace: Bytes)
    requires |a| == CELLS && |b| == CELLS
    ensures product == MatMul(a, b, N, N, N)
    ensures Words(MaskedTrace(m, a, b)) && trace == FieldBytes(MaskedTrace(m, a, b))
  {
    var e, f := MatMul(m.el, m.er, N, R, N), MatMul(m.fl, m.fr, N, R, N);
    var aa, bb := Add(a, e), Add(b, f);
    var cp;
    cp, trace := OracleTiled(aa, bb);
    var c1 := MatMul(MatMul(a, m.fl, N, N, R), m.fr, N, R, N);
    var c2 := MatMul(m.el, MatMul(m.er, bb, R, N, N), N, R, N);
    product := Unmask(cp, c1, c2);
    UnmaskExact(m, a, b);
  }

  function Unmask(cp: Matrix, c1: Matrix, c2: Matrix): Matrix
    requires |cp| == |c1| == |c2| == CELLS
  {
    seq(CELLS, p requires 0 <= p < CELLS => (cp[p] - c1[p] - c2[p]) % Q)
  }

  /** The masked product less both corrections is the true product. */
  lemma {:induction false} UnmaskExact(m: Masks, a: Matrix, b: Matrix)
    requires |a| == CELLS && |b| == CELLS
    ensures var aa, bb := Add(a, MatMul(m.el, m.er, N, R, N)), Add(b, MatMul(m.fl, m.fr, N, R, N));
            Unmask(MatMul(aa, bb, N, N, N), MatMul(MatMul(a, m.fl, N, N, R), m.fr, N, R, N),
                   MatMul(m.el, MatMul(m.er, bb, R, N, N), N, R, N)) == MatMul(a, b, N, N, N)
  {
    forall p | 0 <= p < CELLS { UnmaskedProduct(a, b, m.el, m.er, m.fl, m.fr, p); }
  }

  // ---------- proofs and verification ----------

  function TaskId(sha: Sha, a: Matrix, b: Matrix): Hash
    requires Words(a) && Words(b)
  {
    TaggedHash(sha, TASK, [FieldBytes(a), FieldBytes(b)])
  }

  function Ticket(sha: Sha, c: Hash, trace: Bytes): Hash
  {
    TaggedHash(sha, TICKET, [c, trace])
  }

  function ProofBytes(a: Matrix, b: Matrix, product: Matrix, trace: Hash): Bytes
    requires Words(a) && Words(b) && Words(product)
  {
    MAGIC + FieldBytes(a) + FieldBytes(b) + FieldBytes(product) + trace
  }

  function Prove(sha: Sha, c: Hash, a: Matrix, b: Matrix): Result<Bytes>
  {
    if NativeValidate(a).Err? then Err(NativeValidate(a).code)
    else if NativeValidate(b).Err? then Err(NativeValidate(b).code)
    else match Evaluation(sha, c, a, b)
      case Err(e) => Err(e)
      case Ok(v) =>
        MatMulInField(a, b, N, N, N);
        Ok(ProofBytes(a, b, v.0, v.1))
  }

  const ZEROS: Bytes := [0, 0, 0, 0, 0, 0, 0, 0, 0, 0, 0, 0, 0, 0, 0, 0, 0, 0, 0, 0, 0, 0, 0, 0, 0, 0, 0, 0, 0, 0, 0, 0]

  /** Big-endian comparison of byte arrays. */
  predicate Greater(x: Bytes, y: Bytes)
  {
    x != [] && (y == [] || x[0] > y[0] || (x[0] == y[0] && Greater(x[1..], y[1..])))
  }

  /** The k-th of the three matrices laid out in a proof. */
  function ProofMatrix(bytes: Bytes, k: nat): (m: Matrix)
    requires |bytes| == PROOF_BYTES && k < 3
    ensures |m| == CELLS && Words(m)
  {
    Unpack(bytes[4 + 4 * CELLS * k..4 + 4 * CELLS * (k + 1)])
  }

  /** The part of verification both implementations share, after their admission checks. */
  function Recheck(sha: Sha, c: Hash, task: Hash, ticket: Hash, a: Matrix, b: Matrix, claimed: Matrix,
                   trace: Bytes): Result<Verified>
    requires NativeValidate(a).Ok? && NativeValidate(b).Ok?
  {
    match Evaluation(sha, c, a, b)
    case Err(e) => Err(e)
    case Ok(v) =>
      if v.1 != trace then Err(WorkError.Transcript)
      else if v.0 != claimed then Err(Product)
      else Ok(Verified(c, task, ticket, v.0))
  }

  function NativeVerdictParsed(sha: Sha, c: Hash, expected: Hash, target: Hash, a: Matrix, b: Matrix, claimed: Matrix,
                              trace: Bytes): Result<Verified>
    requires Words(a) && Words(b)
  {
    if NativeValidate(claimed).Err? then Err(NativeValidate(claimed).code)
    else if NativeValidate(a).Err? then Err(NativeValidate(a).code)
    else if NativeValidate(b).Err? then Err(NativeValidate(b).code)
    else if TaskId(sha, a, b) != expected then Err(WorkError.Task)
    else if Greater(Ticket(sha, c, trace), target) then Err(Target)
    else Recheck(sha, c, expected, Ticket(sha, c, trace), a, b, claimed, trace)
  }

  function NativeVerdict(sha: Sha, c: Hash, expected: Hash, target: Hash, bytes: Bytes): Result<Verified>
  {
    if |bytes| != PROOF_BYTES then Err(Length)
    else if bytes[..4] != MAGIC then Err(Version)
    else if target == ZEROS then Err(Target)
    else
      NativeVerdictParsed(sha, c, expected, target, ProofMatrix(bytes, 0), ProofMatrix(bytes, 1), ProofMatrix(bytes, 2),
                         bytes[PROOF_BYTES - 32..])
  }

  function OracleVerdictParsed(sha: Sha, c: Hash, expected: Hash, target: Hash, a: Matrix, b: Matrix, claimed: Matrix,
                              trace: Bytes): Result<Verified>
    requires Words(a) && Words(b)
  {
    if OracleCheck(claimed).Err? then Err(Field)
    else if OracleCheck(a).Err? || OracleCheck(b).Err? then Err(Field)
    else if TaskId(sha, a, b) != expected then Err(WorkError.Task)
    else if target == ZEROS || Greater(Ticket(sha, c, trace), target) then Err(Target)
    else Recheck(sha, c, expected, Ticket(sha, c, trace), a, b, claimed, trace)
  }

  function OracleVerdict(sha: Sha, c: Hash, expected: Hash, target: Hash, bytes: Bytes): Result<Verified>
  {
    if |bytes| != PROOF_BYTES then Err(Length)
    else if bytes[..4] != MAGIC then Err(Version)
    else
      OracleVerdictParsed(sha, c, expected, target, ProofMatrix(bytes, 0), ProofMatrix(bytes, 1), ProofMatrix(bytes, 2),
                         bytes[PROOF_BYTES - 32..])
  }

  /** A proof for (a, b) whose task and ticket satisfy the caller's statement. */
  ghost predicate Proves(sha: Sha, c: Hash, expected: Hash, target: Hash, bytes: Bytes, a: Matrix, b: Matrix)
  {
    && Words(a) && Words(b)
    && Prove(sha, c, a, b) == Ok(bytes)
    && TaskId(sha, a, b) == expected
    && target != ZEROS
    && |bytes| >= 32 && !Greater(Ticket(sha, c, bytes[|bytes| - 32..]), target)
  }

  /** Parsing a laid-out proof gives back its three matrices and its trace. */
  lemma {:induction false} ProofLayout(a: Matrix, b: Matrix, product: Matrix, trace: Hash)
    requires Words(a) && Words(b) && Words(product) && |a| == CELLS && |b| == CELLS && |product| == CELLS
    ensures var bytes := ProofBytes(a, b, product, trace);
            |bytes| == PROOF_BYTES && bytes[..4] == MAGIC && bytes[PROOF_BYTES - 32..] == trace
            && ProofMatrix(bytes, 0) == a && ProofMatrix(bytes, 1) == b && ProofMatrix(bytes, 2) == product
  {
    var bytes := ProofBytes(a, b, product, trace);
    UnpackFieldBytes(a);
    UnpackFieldBytes(b);
    UnpackFieldBytes(product);
    assert bytes[4..4 + 4 * CELLS] == FieldBytes(a);
    assert bytes[4 + 4 * CELLS..4 + 8 * CELLS] == FieldBytes(b);
    assert bytes[4 + 8 * CELLS..4 + 12 * CELLS] == FieldBytes(product);
  }

  lemma {:induction false} ProofRebuild(bytes: Bytes)
    requires |bytes| == PROOF_BYTES && bytes[..4] == MAGIC
    ensures bytes == ProofBytes(ProofMatrix(bytes, 0), ProofMatrix(bytes, 1), ProofMatrix(bytes, 2),
                                bytes[PROOF_BYTES - 32..])
  {
    FieldBytesUnpack(bytes[4..4 + 4 * CELLS]);
    FieldBytesUnpack(bytes[4 + 4 * CELLS..4 + 8 * CELLS]);
    FieldBytesUnpack(bytes[4 + 8 * CELLS..4 + 12 * CELLS]);
  }

  /** Completeness: every honest proof whose ticket meets the target is accepted, with the true product. */
  lemma {:induction false} VerifyComplete(sha: Sha, c: Hash, expected: Hash, target: Hash, bytes: Bytes, a: Matrix,
                                          b: Matrix)
    requires Proves(sha, c, expected, target, bytes, a, b)
    ensures NativeVerdict(sha, c, expected, target, bytes).Ok?
    ensures NativeVerdict(sha, c, expected, target, bytes).value.product == MatMul(a, b, N, N, N)
  {
    var v := Evaluation(sha, c, a, b).value;
    MatMulInField(a, b, N, N, N);
    ProofLayout(a, b, v.0, v.1);
  }

  /** Soundness: whatever is accepted is byte for byte the honest proof of the parsed matrices. */
  lemma {:induction false} VerifySound(sha: Sha, c: Hash, expected: Hash, target: Hash, bytes: Bytes)
    requires NativeVerdict(sha, c, expected, target, bytes).Ok?
    ensures |bytes| == PROOF_BYTES
    ensures Proves(sha, c, expected, target, bytes, ProofMatrix(bytes, 0), ProofMatrix(bytes, 1))
    ensures NativeVerdict(sha, c, expected, target, bytes).value.product
            == MatMul(ProofMatrix(bytes, 0), ProofMatrix(bytes, 1), N, N, N) == ProofMatrix(bytes, 2)
  {
    ProofRebuild(bytes);
  }

  /** Verification accepts exactly the honest proofs for the stated task and target. */
  lemma {:induction false} VerifyExact(sha: Sha, c: Hash, expected: Hash, target: Hash, bytes: Bytes)
    ensures NativeVerdict(sha, c, expected, target, bytes).Ok?
            <==> exists a: Matrix, b: Matrix :: Proves(sha, c, expected, target, bytes, a, b)
  {
    if NativeVerdict(sha, c, expected, target, bytes).Ok? {
      VerifySound(sha, c, expected, target, bytes);
    }
    forall a: Matrix, b: Matrix | Proves(sha, c, expected, target, bytes, a, b)
      ensures NativeVerdict(sha, c, expected, target, bytes).Ok?
    {
      VerifyComplete(sha, c, expected, target, bytes, a, b);
    }
  }

  /** The oracle rejects a zero target later, but for the same inputs; otherwise the two agree on every outcome. */
  lemma {:induction false} OracleAgrees(sha: Sha, c: Hash, expected: Hash, target: Hash, bytes: Bytes)
    ensures target != ZEROS ==>
              OracleVerdict(sha, c, expected, target, bytes) == NativeVerdict(sha, c, expected, target, bytes)
    ensures target == ZEROS ==>
              OracleVerdict(sha, c, expected, target, bytes).Err? && NativeVerdict(sha, c, expected, target, bytes).Err?
  {
  }

  // ---------- the two implementations ----------

  /** The native prover returns the honest proof. */
  method NativeProve(sha: Sha, c: Hash, a: Matrix, b: Matrix) returns (r: Result<Bytes>)
    ensures r == Prove(sha, c, a, b)
  {
    var v := NativeEvaluate(sha, c, a, b);
    if v.Err? { return Err(v.code); }
    MatMulInField(a, b, N, N, N);
    r := Ok(ProofBytes(a, b, v.value.0, v.value.1));
  }

  /** The native verifier evaluates again with its own tiled product; it accepts exactly the honest proofs. */
  method NativeVerify(sha: Sha, c: Hash, expected: Hash, target: Hash, bytes: Bytes) returns (r: Result<Verified>)
    ensures r == NativeVerdict(sha, c, expected, target, bytes)
    ensures r.Ok? <==> exists a: Matrix, b: Matrix :: Proves(sha, c, expected, target, bytes, a, b)
  {
    VerifyExact(sha, c, expected, target, bytes);
    if |bytes| != PROOF_BYTES { return Err(Length); }
    if bytes[..4] != MAGIC { return Err(Version); }
    if target == ZEROS { return Err(Target); }
    var a, b, claimed := ProofMatrix(bytes, 0), ProofMatrix(bytes, 1), ProofMatrix(bytes, 2);
    r := NativeVerifyParsed(sha, c, expected, target, a, b, claimed, bytes[PROOF_BYTES - 32..]);
  }

  method NativeVerifyParsed(sha: Sha, c: Hash, expected: Hash, target: Hash, a: Matrix, b: Matrix, claimed: Matrix,
                            trace: Bytes) returns (r: Result<Verified>)
    requires Words(a) && Words(b)
    ensures r == NativeVerdictParsed(sha, c, expected, target, a, b, claimed, trace)
  {
    if NativeValidate(claimed).Err? { return Err(NativeValidate(claimed).code); }
    if NativeValidate(a).Err? { return Err(NativeValidate(a).code); }
    if NativeValidate(b).Err? { return Err(NativeValidate(b).code); }
    if TaskId(sha, a, b) != expected { return Err(WorkError.Task); }
    var ticket := Ticket(sha, c, trace);
    if Greater(ticket, target) { return Err(Target); }
    var v := NativeEvaluate(sha, c, a, b);
    if v.Err? { return Err(v.code); }
    if v.value.1 != trace { return Err(WorkError.Transcript); }
    if v.value.0 != claimed { return Err(Product); }
    r := Ok(Verified(c, expected, ticket, v.value.0));
  }

  /** The oracle evaluates with its own loops, and answers every nonzero target as the native verifier does. */
  method OracleVerify(sha: Sha, c: Hash, expected: Hash, target: Hash, bytes: Bytes) returns (r: Result<Verified>)
    ensures target != ZEROS ==> r == NativeVerdict(sha, c, expected, target, bytes)
    ensures target == ZEROS ==> r.Err?
    ensures r.Ok? <==> exists a: Matrix, b: Matrix :: Proves(sha, c, expected, target, bytes, a, b)
  {
    VerifyExact(sha, c, expected, target, bytes);
    OracleAgrees(sha, c, expected, target, bytes);
    if |bytes| != PROOF_BYTES { return Err(Length); }
    if bytes[..4] != MAGIC { return Err(Version); }
    var a, b, claimed := ProofMatrix(bytes, 0), ProofMatrix(bytes, 1), ProofMatrix(bytes, 2);
    r := OracleVerifyParsed(sha, c, expected, target, a, b, claimed, bytes[PROOF_BYTES - 32..]);
  }

  method OracleVerifyParsed(sha: Sha, c: Hash, expected: Hash, target: Hash, a: Matrix, b: Matrix, claimed: Matrix,
                            trace: Bytes) returns (r: Result<Verified>)
    requires Words(a) && Words(b)
    ensures r == OracleVerdictParsed(sha, c, expected, target, a, b, claimed, trace)
  {
    if OracleCheck(claimed).Err? || OracleCheck(a).Err? || OracleCheck(b).Err? { return Err(Field); }
    if TaskId(sha, a, b) != expected { return Err(WorkError.Task); }
    var ticket := Ticket(sha, c, trace);
    if target == ZEROS || Greater(ticket, target) { return Err(Target); }
    var v := OracleEvaluate(sha, c, a, b);
    if v.Err? { return Err(v.code); }
    if v.value.1 != trace { return Err(WorkError.Transcript); }
    if claimed != v.value.0 { return Err(Product); }
    r := Ok(Verified(c, expected, ticket, v.value.0));
  }
}
