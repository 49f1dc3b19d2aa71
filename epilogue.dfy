/** The fused epilogue of the linear kernel: bias, activation, dropout and
    residual, applied in that fixed order to the accumulated dot product.
    The activation (`gelu_new`) and the random draw (`tl.rand`) are parameters
    of the model: nothing is assumed about their values except that a draw
    lies in [0, 1). */
module Epilogue {
  import opened Results
  import opened Index
  import opened Tiles

  /** The range of `tl.rand`: a uniform draw in [0, 1). */
  type Unit = r: real | 0.0 <= r < 1.0 witness 0.0

  /** The kernel's default dropout seed. */
  const DefaultSeed: int := 1337

  /** `dropout(x, p, seed, offset)` for a value x whose draw is `rand(seed, offset)`:
      `tl.where(draw > p, x / (1 - p), 0.0)`. */
  function Dropout(x: real, p: real, draw: Unit): (y: real)
    ensures draw > p ==> p < 1.0 && y * (1.0 - p) == x
    ensures draw <= p ==> y == 0.0
  {
    if draw > p then x / (1.0 - p) else 0.0
  }

  /** A value comes out of dropout nonzero only when it is kept, and a kept
      nonzero value stays nonzero. */
  lemma DropoutKeepsOrZeroes(x: real, p: real, draw: Unit)
    ensures Dropout(x, p, draw) == 0.0 || draw > p
    ensures draw > p && x != 0.0 ==> Dropout(x, p, draw) != 0.0
  {
    if draw > p && x != 0.0 {
      assert Dropout(x, p, draw) * (1.0 - p) == x;
    }
  }

  /** The epilogue's inputs: the optional bias (length N) and residual
      (length M * N) buffers, the `apply_gelu` flag with the activation it
      selects, the dropout probability, the seed and the counter-based random
      generator. */
  datatype Config = Config(
    bias: Option<seq<real>>,
    residual: Option<seq<real>>,
    applyGelu: bool,
    act: real -> real,
    dropoutProb: real,
    seed: int,
    rand: (int, int) -> Unit)

  /** The optional buffers have the lengths the kernel indexes them with. */
  predicate Fits(cfg: Config, M: nat, N: nat)
  {
    && (cfg.bias.Some? ==> |cfg.bias.value| == N)
    && (cfg.residual.Some? ==> |cfg.residual.value| == M * N)
  }

  /** Stage 1: `z += b` when a bias is given. */
  function BiasStage(cfg: Config, v: real, j: nat): real
    requires cfg.bias.Some? ==> j < |cfg.bias.value|
  {
    if cfg.bias.Some? then v + cfg.bias.value[j] else v
  }

  /** Stage 2: `z = gelu_new(z)` when `apply_gelu` is set. */
  function ActStage(cfg: Config, v: real): real
  {
    if cfg.applyGelu then cfg.act(v) else v
  }

  /** Stage 3: dropout keyed by the flat output offset, when `dropout_prob > 0`. */
  function DropoutStage(cfg: Config, v: real, offset: nat): real
  {
    if cfg.dropoutProb > 0.0 then Dropout(v, cfg.dropoutProb, cfg.rand(cfg.seed, offset)) else v
  }

  /** Stage 4: `z += r` when a residual is given. */
  function ResidualStage(cfg: Config, v: real, offset: nat): real
    requires cfg.residual.Some? ==> offset < |cfg.residual.value|
  {
    if cfg.residual.Some? then v + cfg.residual.value[offset] else v
  }

  /** The final value of output element (i, j) of an M x N output whose
      accumulated dot product is acc: bias, then activation, then dropout,
      then residual. */
  function EpilogueAt(cfg: Config, acc: real, M: nat, N: nat, i: nat, j: nat): real
    requires Fits(cfg, M, N) && i < M && j < N
  {
    FlatInBounds(i, j, M, N);
    var f := Flat(i, j, N);
    ResidualStage(cfg, DropoutStage(cfg, ActStage(cfg, BiasStage(cfg, acc, j)), f), f)
  }

  /** The residual is added last: with a residual, the final value is the
      value the epilogue gives without one plus the residual element at the
      flat offset of (i, j); the residual never reaches the activation or
      the dropout. */
  lemma ResidualAddedLast(cfg: Config, acc: real, M: nat, N: nat, i: nat, j: nat)
    requires Fits(cfg, M, N) && i < M && j < N && cfg.residual.Some?
    ensures EpilogueAt(cfg, acc, M, N, i, j)
            == EpilogueAt(cfg.(residual := None), acc, M, N, i, j) + MaskedAt(cfg.residual.value, i, j, M, N)
  {
  }

  /** The bias is added before the activation and the dropout: without those
      two stages, a bias shifts the final value by exactly b[j]. */
  lemma BiasAddedFirst(cfg: Config, acc: real, M: nat, N: nat, i: nat, j: nat)
    requires Fits(cfg, M, N) && i < M && j < N && cfg.bias.Some?
    requires !cfg.applyGelu && cfg.dropoutProb <= 0.0
    ensures EpilogueAt(cfg, acc, M, N, i, j) == EpilogueAt(cfg.(bias := None), acc, M, N, i, j) + cfg.bias.value[j]
  {
  }

  /** With the activation on, the activation sees acc + b[j] and nothing
      that comes later. */
  lemma ActivationInput(cfg: Config, acc: real, M: nat, N: nat, i: nat, j: nat)
    requires Fits(cfg, M, N) && i < M && j < N && cfg.applyGelu
    requires cfg.dropoutProb <= 0.0 && cfg.residual.None?
    ensures EpilogueAt(cfg, acc, M, N, i, j) == cfg.act(if cfg.bias.Some? then acc + cfg.bias.value[j] else acc)
  {
  }

  /** With no bias, no activation, no dropout and no residual the epilogue is
      the identity on the accumulator. */
  lemma EpilogueOff(cfg: Config, acc: real, M: nat, N: nat, i: nat, j: nat)
    requires Fits(cfg, M, N) && i < M && j < N
    requires cfg.bias.None? && !cfg.applyGelu && cfg.dropoutProb <= 0.0 && cfg.residual.None?
    ensures EpilogueAt(cfg, acc, M, N, i, j) == acc
  {
  }

  /** The dropout for a tile: `dropout(z, p, seed, z_offset)`, each entry
      with its own draw `rand(seed, offsets[r][c])`. */
  function DropoutTile(z: Tile<real>, p: real, seed: int, offsets: Tile<nat>, rand: (int, int) -> Unit, m: nat, n: nat): Tile<real>
    requires IsTile(z, m, n) && IsTile(offsets, m, n)
  {
    seq(m, r requires 0 <= r < m =>
      seq(n, c requires 0 <= c < n => Dropout(z[r][c], p, rand(seed, offsets[r][c]))))
  }
}
