/** Tile values and the block-level primitives the kernel applies to them.
    In the kernel a tile (the accumulator `z`, a loaded slice of `x` or `w`, the
    `z_offset` and `z_mask` blocks) is a whole block of values that one program
    instance holds; `tl.load`, `tl.dot`, `+=` and elementwise functions act on
    the whole block at once. Here a tile is a sequence of rows. */
module Tiles {
  import opened Index

  type Tile<T> = seq<seq<T>>

  /** t has `rows` rows of `cols` entries each. */
  predicate IsTile<T>(t: Tile<T>, rows: nat, cols: nat)
  {
    |t| == rows && forall r :: 0 <= r < rows ==> |t[r]| == cols
  }

  /** `start + tl.arange(0, n)`: n consecutive indices from start. */
  function Arange(start: nat, n: nat): seq<nat>
  {
    seq(n, t => start + t)
  }

  /** `tl.zeros((rows, cols))` */
  function Zeros(rows: nat, cols: nat): Tile<real>
  {
    seq(rows, _ => seq(cols, _ => 0.0))
  }

  /** One masked element read of a rows x cols row-major buffer: the element
      at the flat offset when (row, col) is in range, the `other=0.0` fill value
      when it is not. */
  function MaskedAt(buf: seq<real>, row: nat, col: nat, rows: nat, cols: nat): real
    requires |buf| == rows * cols
  {
    if row < rows && col < cols then
      FlatInBounds(row, col, rows, cols);
      buf[Flat(row, col, cols)]
    else
      0.0
  }

  /** The masked block load `tl.load(ptr + rowIdx[:, None] * cols + colIdx[None, :],
      mask=(rowIdx[:, None] < rows) & (colIdx[None, :] < cols), other=0.0)`. */
  function MaskedLoad(buf: seq<real>, rowIdx: seq<nat>, colIdx: seq<nat>, rows: nat, cols: nat): Tile<real>
    requires |buf| == rows * cols
  {
    seq(|rowIdx|, r requires 0 <= r < |rowIdx| =>
      seq(|colIdx|, c requires 0 <= c < |colIdx| => MaskedAt(buf, rowIdx[r], colIdx[c], rows, cols)))
  }

  /** The masked vector load `tl.load(ptr + idx, mask=idx < n, other=0.0)`. */
  function MaskedLoadVec(buf: seq<real>, idx: seq<nat>, n: nat): seq<real>
    requires |buf| == n
  {
    seq(|idx|, c requires 0 <= c < |idx| => if idx[c] < n then buf[idx[c]] else 0.0)
  }

  /** sum of xrow[t] * w[t][c] over t < n: one entry of a block product. */
  function Inner(xrow: seq<real>, w: Tile<real>, c: nat, n: nat): real
    requires n <= |xrow| && n <= |w|
    requires forall t :: 0 <= t < n ==> c < |w[t]|
  {
    if n == 0 then 0.0 else Inner(xrow, w, c, n - 1) + xrow[n - 1] * w[n - 1][c]
  }

  /** `tl.dot(x, w, acc=z)`: z plus the product of the m x k block x and the
      k x n block w. */
  function DotAcc(x: Tile<real>, w: Tile<real>, z: Tile<real>, m: nat, k: nat, n: nat): Tile<real>
    requires IsTile(x, m, k) && IsTile(w, k, n) && IsTile(z, m, n)
  {
    seq(m, r requires 0 <= r < m =>
      seq(n, c requires 0 <= c < n => z[r][c] + Inner(x[r], w, c, k)))
  }

  /** `z += b` for a row vector b, broadcast over the rows of z. */
  function AddRow(z: Tile<real>, b: seq<real>, m: nat, n: nat): Tile<real>
    requires IsTile(z, m, n) && |b| == n
  {
    seq(m, r requires 0 <= r < m => seq(n, c requires 0 <= c < n => z[r][c] + b[c]))
  }

  /** `z += y` for a tile y of the same shape. */
  function AddTile(z: Tile<real>, y: Tile<real>, m: nat, n: nat): Tile<real>
    requires IsTile(z, m, n) && IsTile(y, m, n)
  {
    seq(m, r requires 0 <= r < m => seq(n, c requires 0 <= c < n => z[r][c] + y[r][c]))
  }

  /** An elementwise function applied to every entry of z. */
  function MapTile(z: Tile<real>, f: real -> real, m: nat, n: nat): Tile<real>
    requires IsTile(z, m, n)
  {
    seq(m, r requires 0 <= r < m => seq(n, c requires 0 <= c < n => f(z[r][c])))
  }

  /** `rowIdx[:, None] * cols + colIdx[None, :]`: the flat offsets of a block. */
  function FlatOffsets(rowIdx: seq<nat>, colIdx: seq<nat>, cols: nat): Tile<nat>
  {
    seq(|rowIdx|, r requires 0 <= r < |rowIdx| =>
      seq(|colIdx|, c requires 0 <= c < |colIdx| => Flat(rowIdx[r], colIdx[c], cols)))
  }

  /** `(rowIdx[:, None] < rows) & (colIdx[None, :] < cols)`: the in-range mask of a block. */
  function InRange(rowIdx: seq<nat>, colIdx: seq<nat>, rows: nat, cols: nat): Tile<bool>
  {
    seq(|rowIdx|, r requires 0 <= r < |rowIdx| =>
      seq(|colIdx|, c requires 0 <= c < |colIdx| => rowIdx[r] < rows && colIdx[c] < cols))
  }
}
