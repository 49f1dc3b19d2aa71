/** The kernel's flat offsets as Triton evaluates them. `pid_m`, `tl.arange`
    and integer kernel arguments that fit in 32 bits are `int32`, so
    `offs_m * N + offs_n` (and `offs_m * K + x_k`, `w_k * N + offs_n`) is
    computed with 32-bit two's-complement wrap-around. The rest of the model
    uses the unbounded offset Index.Flat; this module shows where the two
    differ. */
module Offsets32 {
  import opened Index

  const TwoTo31: int := 0x8000_0000
  const TwoTo32: int := 0x1_0000_0000

  /** Two's-complement wrap of an integer to the int32 range. */
  function WrapI32(x: int): (w: int)
    ensures -TwoTo31 <= w < TwoTo31
    ensures (w - x) % TwoTo32 == 0
  {
    (x + TwoTo31) % TwoTo32 - TwoTo31
  }

  /** `row * cols + col` evaluated in int32, as written in the kernel. */
  function FlatI32(row: nat, col: nat, cols: nat): int
  {
    WrapI32(WrapI32(row * cols) + col)
  }

  /** An int32 value is its own wrap. */
  lemma WrapI32Id(x: int)
    requires -TwoTo31 <= x < TwoTo31
    ensures WrapI32(x) == x
  {
    assert 0 <= x + TwoTo31 < TwoTo32;
  }

  /** For a matrix of at most 2^31 elements the int32 offset of every
      in-range element is its true flat offset: below that size the model's
      unbounded offsets are exact. */
  lemma FlatI32Exact(row: nat, col: nat, rows: nat, cols: nat)
    requires row < rows && col < cols && rows * cols <= TwoTo31
    ensures FlatI32(row, col, cols) == Flat(row, col, cols)
  {
    FlatInBounds(row, col, rows, cols);
    assert row * cols <= Flat(row, col, cols) < TwoTo31;
    WrapI32Id(row * cols);
    WrapI32Id(row * cols + col);
  }

  /** An output of 65537 x 32768 elements: element (65536, 0) is in range
      and its flat offset 2^31 lies inside Z, but the int32 offset the kernel
      forms for it is -2^31, before the start of the buffer. */
  lemma FlatI32WrapsPastLimit()
    ensures Flat(65536, 0, 32768) == TwoTo31 < 65537 * 32768
    ensures FlatI32(65536, 0, 32768) == -TwoTo31
  {
    assert 65536 * 32768 == TwoTo31;
    assert WrapI32(TwoTo31) == -TwoTo31;
    WrapI32Id(-TwoTo31);
  }
}
