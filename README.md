# Fused linear kernel: a Dafny model

This project models the fused feed-forward kernel of `kernels/fused_linear.py`.
The kernel computes `Z = epilogue(X @ W)` for a row-major `X` (M x K) and `W` (K x N).
The epilogue runs in a fixed order: add an optional bias, apply an optional GELU activation, apply dropout when `p > 0`, then add an optional residual.
The output is split into `BLOCK_M x BLOCK_N` tiles, and one program instance computes each tile.
An instance accumulates its tile over `k` in steps of `BLOCK_K`, using masked loads.
It then applies the epilogue and does a masked store into the flat output buffer.
The host function `fused_ffn` flattens the leading dimensions of `x`, allocates the output, checks its assertions and launches a `cdiv(M, 128) x cdiv(N, 128)` grid.
It returns the output viewed with the shape of `x`, except that the last dimension is `N`.

Numeric values are exact `real`s, so only rounding is abstracted away.
Index arithmetic is exact integer arithmetic on `nat`.
Two things are parameters of the model, and nothing is assumed about their values:
- the activation `act: real -> real`, which stands for `gelu_new`;
- the counter-based generator `rand: (int, int) -> Unit`, which stands for `tl.rand`. The only assumption is that a draw lies in `[0, 1)`.

Modules:
- `Index` (index.dfy): row-major flat offsets, `cdiv`, and which tile owns an element.
- `Tiles` (tiles.dfy): a tile is a value, a sequence of rows. This file holds the block primitives on tiles: `tl.arange`, `tl.zeros`, masked `tl.load` (`MaskedAt`, `MaskedLoad`, `MaskedLoadVec`), `tl.dot` with an accumulator (`Inner`, `DotAcc`), `+=` (`AddRow`, `AddTile`), elementwise maps (`MapTile`), and the `z_offset`/`z_mask` blocks (`FlatOffsets`, `InRange`).
- `Epilogue` (epilogue.dfy): `dropout`, the four stages, and the reference order of the stages, `EpilogueAt`.
- `FusedLinear` (kernel.dfy): `fused_linear_kernel`. `Dot` is the plain dot product and `MaskedDot` is the masked reduction. `AccumulateTile` is the `k` loop. `RunTile` is one program instance, and `MaskedStore` is its store. `LaunchGrid` is the grid, with tiles run as loop iterations, row of tiles by row of tiles. `LaunchInOrder` runs the tiles in any order that covers the grid. `ReferenceOutput` is the specification the output must equal.
- `Dispatcher` (dispatcher.dfy): `fused_ffn`. `PlanLaunch` does the shape arithmetic and the assertions. `FusedFfn` does the allocation, the launch and the final view.
- `Offsets32` (offsets32.dfy): the kernel's offsets as Triton computes them, in int32 (see Findings).
- `Results` (results.dfy): `Option` and `Result`.

The output buffer `Z` is an `array<real>` of `M * N` elements.
A tile's accumulator is a local value, updated by the reduction loop and then by each epilogue stage.
The masked store is a simultaneous `forall` assignment into `Z`.
Before it, the model proves that the stored offsets are in bounds and pairwise distinct, so no entry of a tile overwrites another.
The model allocates the output after the checks rather than before them. A failing check discards the allocation, so the order has no effect.

How the code differs from a plain reading of the design:
- `fused_ffn` checks a residual only through `residual.view(z.shape)`. So the model requires `M * N` elements, not a particular shape.
- `fused_ffn` does not check that the dropout probability lies in `[0, 1)`. When `p >= 1`, no draw exceeds `p` and every value is zeroed, which the model follows through `Dropout`.
- No check in the code corresponds to an "unsupported configuration" error. The block sizes are constants, and the kernel's contract requires them to be positive.
- Two failures come from PyTorch rather than from an `assert`: a 0-dimensional `x` fails at `x.shape[-1]` (`NoFeatureDim`), and `K == 0` fails because `x.view((-1, 0))` cannot infer the flattened dimension (`AmbiguousFlatten`).

## Model

| member | source | states |
|---|---|---|
| `Index.FlatInBounds` | kernels/fused_linear.py:75-76 | an in-range (row, col) has a flat offset `row * cols + col` below `rows * cols`, so a masked load or the masked store never leaves its buffer |
| `Index.FlatInjective` | kernels/fused_linear.py:75-87 | two in-range positions with the same flat offset are the same position, so no two stores of a tile hit one element |
| `Index.FlatSplit` | kernels/fused_linear.py:75 | every offset below `rows * cols` is the flat offset of the in-range pair `(f / cols, f % cols)` |
| `Index.FlatDecode` | kernels/fused_linear.py:75 | dividing a flat offset by `cols` gives back its row, and the remainder gives back its column |
| `Index.CeilDiv` | kernels/fused_linear.py:128 | `triton.cdiv(a, b)` is the least `q` with `q * b >= a` |
| `Index.CeilDivUnique` | kernels/fused_linear.py:128 | no other number has the two defining properties of `cdiv` |
| `Index.BlockOwner` | kernels/fused_linear.py:51-52 | index `i` lies in the range `[t * B, t * B + B)` of block `t` if and only if `t == i / B`, so the blocks partition the indices |
| `Index.BlockInGrid` | kernels/fused_linear.py:128 | the block of an index below `n` is one of the `cdiv(n, B)` blocks of the grid |
| `Index.OwnerInGrid` | kernels/fused_linear.py:128 | every element of an `M x N` output belongs to a tile of the `cdiv(M, BM) x cdiv(N, BN)` grid |
| `Epilogue.Dropout` | kernels/fused_linear.py:26-29 | when the draw exceeds `p`, the result times `1 - p` is `x` and `p < 1`; otherwise the result is 0 |
| `Epilogue.DropoutKeepsOrZeroes` | kernels/fused_linear.py:28-29 | a value comes out nonzero only when its draw exceeds `p`, and a kept nonzero value stays nonzero |
| `Epilogue.ResidualAddedLast` | kernels/fused_linear.py:78-85 | with a residual, the final value is the value without the residual plus the residual element at offset `i * N + j`; the residual never passes through the activation or the dropout |
| `Epilogue.BiasAddedFirst` | kernels/fused_linear.py:70-72 | with the activation and dropout off, a bias shifts the final value by exactly `b[j]` |
| `Epilogue.ActivationInput` | kernels/fused_linear.py:70-79 | with the activation on and nothing after it, the final value is `act(acc + b[j])` (or `act(acc)` without a bias) |
| `Epilogue.EpilogueOff` | kernels/fused_linear.py:70-85 | with no bias, no activation, `p <= 0` and no residual, the epilogue leaves the accumulator unchanged |
| `FusedLinear.MaskedDotIsDot` | kernels/fused_linear.py:55-68 | for in-range (i, j), the masked reduction over any `n` indices equals the plain dot product `sum X[i*K+k] * W[k*N+j]` over `k < min(n, K)` |
| `FusedLinear.MaskedDotOutOfRange` | kernels/fused_linear.py:59-64 | a row at or past `M`, or a column at or past `N`, accumulates 0, because all of its loads are masked |
| `FusedLinear.MaskedDotPastK` | kernels/fused_linear.py:56-64 | running the reduction past `K` changes nothing |
| `FusedLinear.ChunkStep` | kernels/fused_linear.py:56-68 | one `tl.dot` of the masked `x` and `w` slices at `k` extends the masked reduction from `k` to `k + BLOCK_K` |
| `FusedLinear.AccumulateTile` | kernels/fused_linear.py:55-68 | after `for k in range(0, K, BLOCK_K)`, every accumulator entry is the masked reduction over all `k < K`, and the loop ran `cdiv(K, BLOCK_K)` times |
| `FusedLinear.ReferenceOutputAt` | kernels/fused_linear.py:101 | the reference output has `M * N` elements, and it holds `residual + D(A(X@W + b))` for (i, j) at offset `i * N + j` |
| `FusedLinear.RunTile` | kernels/fused_linear.py:47-87 | after the program instance for tile (pid_m, pid_n) runs, every element owned by that tile holds its reference value, and every other element is unchanged |
| `FusedLinear.MaskedStore` | kernels/fused_linear.py:75-87 | every in-range entry of the tile is stored at its flat offset, which lies inside `Z`, and no element owned by another tile is written |
| `FusedLinear.LaunchGrid` | kernels/fused_linear.py:128-141 | after a grid covering the output has run tile row by tile row, `Z` equals the reference output, whatever the block sizes |
| `FusedLinear.LaunchInOrder` | kernels/fused_linear.py:128-141 | when the program instances run one after another in any order that includes every tile of the grid (repeats and tiles past the grid allowed), `Z` equals the reference output |
| `Dispatcher.ProductSnoc` | kernels/fused_linear.py:103-106 | the element count of `leading + [d]` is the element count of `leading` times `d` |
| `Dispatcher.ProductZero` | kernels/fused_linear.py:103-106 | a shape has no elements if and only if one of its dimensions is 0, so an `x` with an empty leading dimension flattens to `M == 0` rows |
| `Dispatcher.PlanLaunch` | kernels/fused_linear.py:103-128 | the host checks succeed if and only if all of these hold: `x` has a dimension; `K > 0`; `x` and the weight are contiguous; `K` equals the weight's rows; a given bias is contiguous with `N` elements; a given residual has `M * N` elements and is contiguous. On success, `M` is the product of the leading dimensions and the grid is `cdiv(M, 128) x cdiv(N, 128)` |
| `Dispatcher.FusedFfn` | kernels/fused_linear.py:89-142 | fails exactly when, and with the error that, the checks give. On success it returns a contiguous tensor whose shape is the leading dimensions of `x` followed by `N`. That shape has exactly the elements of the output, and the data is the reference output for seed 1337 |
| `Offsets32.WrapI32` | kernels/fused_linear.py:75 | int32 wrap-around lands in `[-2^31, 2^31)` and differs from the input by a multiple of `2^32` |
| `Offsets32.FlatI32Exact` | kernels/fused_linear.py:75 | for a matrix of at most `2^31` elements, the int32 offset of every in-range element equals its true offset |
| `Offsets32.FlatI32WrapsPastLimit` | kernels/fused_linear.py:75 | for a 65537 x 32768 output, element (65536, 0) has true offset `2^31` inside `Z`, but its int32 offset is `-2^31` |

## Left out

- Floating point: the `float16` casts of the loaded slices, the precision of `tl.dot`, the `float32` accumulator, the casts of the bias and residual, and the TF32 switches. Values are exact reals.
- The value of `gelu_new` and of its `tanh` built from `2 * sigmoid(2x) - 1`. The activation is the parameter `act`, about which nothing is assumed.
- The generator behind `tl.rand`. It is the parameter `rand`, assumed only to return values in `[0, 1)`. Determinism for a given seed and offset holds because `rand` is a function.
- Parallel execution of the program instances. The tiles run as iterations of a loop, one at a time. `LaunchInOrder` covers every sequential order. Truly overlapping execution is not modelled, but each element is written only by its own tile.
- Device placement, `torch.no_grad` and the output dtype.
- The contents of `torch.empty`. The model allocates a zero-filled array, and the final contents do not depend on it.
- What `view` does with a non-contiguous tensor. Contiguity is a flag on each tensor. The flag of `x` is taken to describe `x` after flattening.
- A weight of rank other than 2 and a bias of rank other than 1. The source reads `shape[0]` and `shape[1]` without checking the rank. The model takes the weight as a matrix and the bias as a vector.
- The fill value of the residual load, which has no `other=`. The model uses 0.0. Masked entries are never stored, so the value has no effect.
- FusedLinear.AccumulateTile: the trip count is a ghost out-parameter. It states a property of the loop, not a value the source returns.
- Offsets: the main model uses unbounded offsets. The int32 behaviour is modelled separately, in `Offsets32` (see Findings).
- unit_test.py and the normalisation, softmax and attention kernels it imports. `torch_ffn` there follows the same order: matmul, bias, activation, residual.

## Findings

| source | as written | input that shows it | evidently intended | confidence | as-written member | corrected member |
|---|---|---|---|---|---|---|
| kernels/fused_linear.py:75 | `offs_m * N + offs_n` is evaluated in int32, because `pid_m`, `tl.arange` and the dimension arguments are int32. The load offsets at lines 59 and 64 are computed the same way | `M = 65537`, `N = 32768`, element (65536, 0): int32 offset `-2^31` | the row-major offset `2^31`, inside the output | medium, not executed | `Offsets32.FlatI32WrapsPastLimit` | `Index.FlatInBounds` |
