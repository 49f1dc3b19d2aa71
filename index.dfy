/** Row-major index arithmetic shared by the fused linear kernel and its host
    dispatcher: flat offsets `row * cols + col`, ceiling division for the launch
    grid, and which tile of a blocked index space an index belongs to. */
module Index {

  /** Flat offset of element (row, col) of a row-major matrix with `cols`
      columns; the kernel forms `offs_m * K + x_k`, `w_k * N + offs_n` and
      `offs_m * N + offs_n` this way. */
  function Flat(row: nat, col: nat, cols: nat): nat
  {
    row * cols + col
  }

  lemma MulLeMono(x: nat, y: nat, b: nat)
    requires x <= y
    ensures x * b <= y * b
  {
    assert y * b == x * b + (y - x) * b;
  }

  /** An in-range (row, col) has an in-range flat offset. */
  lemma FlatInBounds(row: nat, col: nat, rows: nat, cols: nat)
    requires row < rows && col < cols
    ensures Flat(row, col, cols) < rows * cols
  {
    MulLeMono(row + 1, rows, cols);
    assert Flat(row, col, cols) < (row + 1) * cols;
  }

  /** The flat offset is injective on in-range columns. */
  lemma FlatInjective(r1: nat, c1: nat, r2: nat, c2: nat, cols: nat)
    requires c1 < cols && c2 < cols
    requires Flat(r1, c1, cols) == Flat(r2, c2, cols)
    ensures r1 == r2 && c1 == c2
  {
    if r1 < r2 {
      MulLeMono(r1 + 1, r2, cols);
    } else if r2 < r1 {
      MulLeMono(r2 + 1, r1, cols);
    }
  }

  /** Every offset below rows * cols is the flat offset of exactly the pair
      (f / cols, f % cols), and that pair is in range. */
  lemma FlatSplit(f: nat, rows: nat, cols: nat)
    requires f < rows * cols
    ensures cols > 0
    ensures f / cols < rows && f % cols < cols
    ensures Flat(f / cols, f % cols, cols) == f
  {
    if cols == 0 {
      assert false;
    }
    assert f == (f / cols) * cols + f % cols;
    if f / cols >= rows {
      MulLeMono(rows, f / cols, cols);
      assert false;
    }
  }

  /** Reading a flat offset back gives its row and column. */
  lemma FlatDecode(row: nat, col: nat, cols: nat)
    requires col < cols
    ensures Flat(row, col, cols) / cols == row
    ensures Flat(row, col, cols) % cols == col
  {
    var f := Flat(row, col, cols);
    FlatSplit(f, row + 1, cols);
    FlatInjective(row, col, f / cols, f % cols, cols);
  }

  /** Ceiling division as `triton.cdiv` computes it, `(a + b - 1) // b`: the
      least q with q * b >= a. */
  function CeilDiv(a: nat, b: nat): (q: nat)
    requires b > 0
    ensures q * b >= a
    ensures q == 0 || (q - 1) * b < a
  {
    var s := a + b - 1;
    assert s == (s / b) * b + s % b;
    assert (s / b - 1) * b == (s / b) * b - b;
    s / b
  }

  /** CeilDiv is the only number with its two defining properties. */
  lemma CeilDivUnique(a: nat, b: nat, q: nat)
    requires b > 0
    requires q * b >= a
    requires q == 0 || (q - 1) * b < a
    ensures q == CeilDiv(a, b)
  {
    var c := CeilDiv(a, b);
    if q < c {
      MulLeMono(q, c - 1, b);
    } else if c < q {
      MulLeMono(c, q - 1, b);
    }
  }

  /** Index i lies in block t of size B (the range [t * B, t * B + B)) exactly
      when t == i / B: blocks of size B partition the naturals. */
  lemma BlockOwner(i: nat, B: nat, t: nat)
    requires B > 0
    ensures (t * B <= i < t * B + B) <==> t == i / B
  {
    FlatSplit(i, i + 1, B);
    if t * B <= i < t * B + B {
      assert Flat(t, i - t * B, B) == i;
      FlatInjective(t, i - t * B, i / B, i % B, B);
    }
  }

  /** The block of an index below n is one of the CeilDiv(n, B) blocks of the
      grid. */
  lemma BlockInGrid(i: nat, n: nat, B: nat)
    requires B > 0 && i < n
    ensures i / B < CeilDiv(n, B)
  {
    var q := CeilDiv(n, B);
    assert (i / B) * B <= i;
    if i / B >= q {
      MulLeMono(q, i / B, B);
      assert false;
    }
  }

  /** The tile (pid_m, pid_n) of a BM x BN tiling of an M x N row-major
      output that holds flat offset f: the tile of its row f / N and of its
      column f % N. (An output with N == 0 has no elements.) */
  function Owner(f: nat, N: nat, BM: nat, BN: nat): (nat, nat)
    requires BM > 0 && BN > 0
  {
    if N == 0 then (0, 0) else ((f / N) / BM, (f % N) / BN)
  }

  /** Every element of an M x N output belongs to a tile of the
      CeilDiv(M, BM) x CeilDiv(N, BN) grid. */
  lemma OwnerInGrid(f: nat, M: nat, N: nat, BM: nat, BN: nat)
    requires BM > 0 && BN > 0 && f < M * N
    ensures Owner(f, N, BM, BN).0 < CeilDiv(M, BM)
    ensures Owner(f, N, BM, BN).1 < CeilDiv(N, BN)
  {
    FlatSplit(f, M, N);
    BlockInGrid(f / N, M, BM);
    BlockInGrid(f % N, N, BN);
  }
}
