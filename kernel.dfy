/** `fused_linear_kernel`: each program instance (pid_m, pid_n) computes one
    BLOCK_M x BLOCK_N tile of Z = epilogue(X @ W) for row-major X (M x K),
    W (K x N) and Z (M x N). The tile's accumulator is built by the only loop,
    over k in steps of BLOCK_K with masked loads; the epilogue follows
    (bias, activation, dropout, residual); a masked store writes the in-range
    part of the tile. The grid of program instances is run here as a loop over
    tiles. */
module FusedLinear {
  import opened Results
  import opened Index
  import opened Tiles
  import opened Epilogue

  /** The plain dot product of row i of X and column j of W over k < n:
      the sum of X[i * K + k] * W[k * N + j]. */
  function Dot(X: seq<real>, W: seq<real>, M: nat, N: nat, K: nat, i: nat, j: nat, n: nat): real
    requires |X| == M * K && |W| == K * N
    requires i < M && j < N && n <= K
  {
    if n == 0 then 0.0
    else
      FlatInBounds(i, n - 1, M, K);
      FlatInBounds(n - 1, j, K, N);
      Dot(X, W, M, N, K, i, j, n - 1) + X[Flat(i, n - 1, K)] * W[Flat(n - 1, j, N)]
  }

  /** The reduction the kernel performs for entry (i, j) of a tile, for any
      row and column index, after the k indices below n: the sum of the
      products of the masked loads of X and W. */
  function MaskedDot(X: seq<real>, W: seq<real>, M: nat, N: nat, K: nat, i: nat, j: nat, n: nat): real
    requires |X| == M * K && |W| == K * N
  {
    if n == 0 then 0.0
    else MaskedDot(X, W, M, N, K, i, j, n - 1) + MaskedAt(X, i, n - 1, M, K) * MaskedAt(W, n - 1, j, K, N)
  }

  /** For an in-range (i, j), the masked reduction over any n indices equals
      the plain dot product over the first min(n, K) of them: loads at
      k >= K contribute zero. */
  lemma {:induction false} MaskedDotIsDot(X: seq<real>, W: seq<real>, M: nat, N: nat, K: nat, i: nat, j: nat, n: nat)
    requires |X| == M * K && |W| == K * N
    requires i < M && j < N
    ensures MaskedDot(X, W, M, N, K, i, j, n) == Dot(X, W, M, N, K, i, j, if n < K then n else K)
  {
    if n > 0 {
      MaskedDotIsDot(X, W, M, N, K, i, j, n - 1);
    }
  }

  /** Rows at or past M and columns at or past N accumulate nothing: all their
      loads are masked. */
  lemma {:induction false} MaskedDotOutOfRange(X: seq<real>, W: seq<real>, M: nat, N: nat, K: nat, i: nat, j: nat, n: nat)
    requires |X| == M * K && |W| == K * N
    requires i >= M || j >= N
    ensures MaskedDot(X, W, M, N, K, i, j, n) == 0.0
  {
    if n > 0 {
      MaskedDotOutOfRange(X, W, M, N, K, i, j, n - 1);
    }
  }

  /** One step of the reduction loop: if xrow holds the masked loads of row i
      of X at k, k+1, ... and column c of w those of column j of W, their
      block product extends the masked reduction from k to k + t. */
  lemma {:induction false} ChunkStep(X: seq<real>, W: seq<real>, M: nat, N: nat, K: nat,
                                     xrow: seq<real>, w: Tile<real>, i: nat, j: nat, c: nat, k: nat, t: nat)
    requires |X| == M * K && |W| == K * N
    requires t <= |xrow| && t <= |w|
    requires forall s :: 0 <= s < t ==> c < |w[s]|
    requires forall s :: 0 <= s < t ==> xrow[s] == MaskedAt(X, i, k + s, M, K)
    requires forall s :: 0 <= s < t ==> w[s][c] == MaskedAt(W, k + s, j, K, N)
    ensures MaskedDot(X, W, M, N, K, i, j, k + t) == MaskedDot(X, W, M, N, K, i, j, k) + Inner(xrow, w, c, t)
  {
    if t > 0 {
      ChunkStep(X, W, M, N, K, xrow, w, i, j, c, k, t - 1);
    }
  }

  /** `z = tl.zeros(...)` and the reduction loop: the accumulator of the tile with row indices offsM and
      column indices offsN, built by `for k in range(0, K, BLOCK_K)` with one
      masked load of X and of W and one `tl.dot` per step. Every entry ends
      as the masked reduction over all k < K, and the loop runs
      ceil(K / BLOCK_K) times. */
  method AccumulateTile(X: seq<real>, W: seq<real>, M: nat, N: nat, K: nat,
                        offsM: seq<nat>, offsN: seq<nat>, BK: nat)
    returns (z: Tile<real>, ghost trips: nat)
    requires |X| == M * K && |W| == K * N && BK > 0
    ensures IsTile(z, |offsM|, |offsN|)
    ensures forall r, c :: 0 <= r < |offsM| && 0 <= c < |offsN| ==>
              z[r][c] == MaskedDot(X, W, M, N, K, offsM[r], offsN[c], K)
    ensures trips == CeilDiv(K, BK)
  {
    var m, n := |offsM|, |offsN|;
    z := Zeros(m, n);
    var k := 0;
    trips := 0;
    while k < K
      invariant k == trips * BK
      invariant k == 0 || k - BK < K
      invariant IsTile(z, m, n)
      invariant forall r, c :: 0 <= r < m && 0 <= c < n ==>
                  z[r][c] == MaskedDot(X, W, M, N, K, offsM[r], offsN[c], k)
    {
      var xk := Arange(k, BK);
      var x := MaskedLoad(X, offsM, xk, M, K);
      var wk := Arange(k, BK);
      var w := MaskedLoad(W, wk, offsN, K, N);
      forall r, c | 0 <= r < m && 0 <= c < n
        ensures MaskedDot(X, W, M, N, K, offsM[r], offsN[c], k + BK)
                == MaskedDot(X, W, M, N, K, offsM[r], offsN[c], k) + Inner(x[r], w, c, BK)
      {
        ChunkStep(X, W, M, N, K, x[r], w, offsM[r], offsN[c], c, k, BK);
      }
      z := DotAcc(x, w, z, m, BK, n);
      k := k + BK;
      trips := trips + 1;
    }
    forall r, c | 0 <= r < m && 0 <= c < n
      ensures z[r][c] == MaskedDot(X, W, M, N, K, offsM[r], offsN[c], K)
    {
      MaskedDotPastK(X, W, M, N, K, offsM[r], offsN[c], k);
    }
    CeilDivUnique(K, BK, trips);
  }

  /** Once n reaches K the masked reduction no longer changes. */
  lemma {:induction false} MaskedDotPastK(X: seq<real>, W: seq<real>, M: nat, N: nat, K: nat, i: nat, j: nat, n: nat)
    requires |X| == M * K && |W| == K * N
    requires n >= K
    ensures MaskedDot(X, W, M, N, K, i, j, n) == MaskedDot(X, W, M, N, K, i, j, K)
  {
    if n > K {
      MaskedDotPastK(X, W, M, N, K, i, j, n - 1);
    }
  }

  /** The value the kernel is meant to produce at in-range (i, j): the
      epilogue of the plain dot product. */
  function Expected(X: seq<real>, W: seq<real>, M: nat, N: nat, K: nat, cfg: Config, i: nat, j: nat): real
    requires |X| == M * K && |W| == K * N && Fits(cfg, M, N)
    requires i < M && j < N
  {
    EpilogueAt(cfg, Dot(X, W, M, N, K, i, j, K), M, N, i, j)
  }

  /** The whole M x N output, row-major. */
  function ReferenceOutput(X: seq<real>, W: seq<real>, M: nat, N: nat, K: nat, cfg: Config): seq<real>
    requires |X| == M * K && |W| == K * N && Fits(cfg, M, N)
  {
    seq(M * N, f requires 0 <= f < M * N =>
      FlatSplit(f, M, N);
      Expected(X, W, M, N, K, cfg, f / N, f % N))
  }

  /** The reference output has M * N elements and holds Expected(i, j) at the
      row-major offset of (i, j). */
  lemma ReferenceOutputAt(X: seq<real>, W: seq<real>, M: nat, N: nat, K: nat, cfg: Config, i: nat, j: nat)
    requires |X| == M * K && |W| == K * N && Fits(cfg, M, N)
    requires i < M && j < N
    ensures |ReferenceOutput(X, W, M, N, K, cfg)| == M * N
    ensures Flat(i, j, N) < M * N
    ensures ReferenceOutput(X, W, M, N, K, cfg)[Flat(i, j, N)] == Expected(X, W, M, N, K, cfg, i, j)
  {
    FlatInBounds(i, j, M, N);
    FlatDecode(i, j, N);
  }

  /** One program instance (pidM, pidN) of `fused_linear_kernel`, from
      `tl.program_id` to `tl.store`. Afterwards every
      element of Z whose tile is (pidM, pidN) holds its reference value and
      every other element is unchanged. */
  method RunTile(X: seq<real>, W: seq<real>, Z: array<real>, M: nat, N: nat, K: nat, cfg: Config,
                 pidM: nat, pidN: nat, BM: nat, BN: nat, BK: nat)
    requires |X| == M * K && |W| == K * N && Z.Length == M * N && Fits(cfg, M, N)
    requires BM > 0 && BN > 0 && BK > 0
    modifies Z
    ensures forall f :: 0 <= f < Z.Length ==>
              Z[f] == if Owner(f, N, BM, BN) == (pidM, pidN)
                      then ReferenceOutput(X, W, M, N, K, cfg)[f]
                      else old(Z[f])
  {
    var offsM := Arange(pidM * BM, BM);
    var offsN := Arange(pidN * BN, BN);
    var z, trips := AccumulateTile(X, W, M, N, K, offsM, offsN, BK);
    ghost var acc := z;
    if cfg.bias.Some? {
      var b := MaskedLoadVec(cfg.bias.value, offsN, N);
      z := AddRow(z, b, BM, BN);
    }
    ghost var biased := z;
    var zOffset := FlatOffsets(offsM, offsN, N);
    var zMask := InRange(offsM, offsN, M, N);
    if cfg.applyGelu {
      z := MapTile(z, cfg.act, BM, BN);
    }
    ghost var activated := z;
    if cfg.dropoutProb > 0.0 {
      z := DropoutTile(z, cfg.dropoutProb, cfg.seed, zOffset, cfg.rand, BM, BN);
    }
    ghost var dropped := z;
    if cfg.residual.Some? {
      // `tl.load(r_ptr + z_offset, mask=z_mask)`; masked entries are never stored
      var res := MaskedLoad(cfg.residual.value, offsM, offsN, M, N);
      z := AddTile(z, res, BM, BN);
    }

    // in range, each stage of the tile computes the stage of the epilogue
    forall r, c | 0 <= r < BM && 0 <= c < BN && zMask[r][c]
      ensures z[r][c] == Expected(X, W, M, N, K, cfg, offsM[r], offsN[c])
    {
      var i, j := offsM[r], offsN[c];
      FlatInBounds(i, j, M, N);
      MaskedDotIsDot(X, W, M, N, K, i, j, K);
      assert biased[r][c] == BiasStage(cfg, acc[r][c], j);
      assert activated[r][c] == ActStage(cfg, biased[r][c]);
      assert dropped[r][c] == DropoutStage(cfg, activated[r][c], zOffset[r][c]);
      assert z[r][c] == ResidualStage(cfg, dropped[r][c], zOffset[r][c]);
    }
    // `tl.store(z_ptr + z_offset, z, mask=z_mask)`
    MaskedStore(Z, z, M, N, offsM, offsN, zOffset, zMask, pidM, pidN, BM, BN);

    forall f | 0 <= f < Z.Length && Owner(f, N, BM, BN) == (pidM, pidN)
      ensures Z[f] == ReferenceOutput(X, W, M, N, K, cfg)[f]
    {
      FlatSplit(f, M, N);
      var i, j := f / N, f % N;
      BlockOwner(i, BM, pidM);
      BlockOwner(j, BN, pidN);
      var r, c := i - pidM * BM, j - pidN * BN;
      assert offsM[r] == i && offsN[c] == j;
      assert zMask[r][c] && zOffset[r][c] == f;
      ReferenceOutputAt(X, W, M, N, K, cfg, i, j);
    }
  }

  /** `tl.store(z_ptr + z_offset, z, mask=z_mask)` for tile
      (pidM, pidN): each in-range entry of the tile goes to its flat offset,
      which lies inside Z, and no element outside the tile is written. The
      store is a simultaneous assignment; the proof before it shows that
      the masked offsets are in bounds and pairwise distinct, so no stored
      entry overwrites another. */
  method MaskedStore(Z: array<real>, z: Tile<real>, M: nat, N: nat,
                     offsM: seq<nat>, offsN: seq<nat>, zOffset: Tile<nat>, zMask: Tile<bool>,
                     pidM: nat, pidN: nat, BM: nat, BN: nat)
    requires Z.Length == M * N && BM > 0 && BN > 0 && IsTile(z, BM, BN)
    requires offsM == Arange(pidM * BM, BM) && offsN == Arange(pidN * BN, BN)
    requires zOffset == FlatOffsets(offsM, offsN, N) && zMask == InRange(offsM, offsN, M, N)
    modifies Z
    ensures forall r, c :: 0 <= r < BM && 0 <= c < BN && zMask[r][c] ==>
              zOffset[r][c] < Z.Length && Z[zOffset[r][c]] == z[r][c]
    ensures forall f :: 0 <= f < Z.Length && Owner(f, N, BM, BN) != (pidM, pidN) ==> Z[f] == old(Z[f])
  {
    forall r, c | 0 <= r < BM && 0 <= c < BN && zMask[r][c]
      ensures zOffset[r][c] < Z.Length
    {
      FlatInBounds(offsM[r], offsN[c], M, N);
    }
    forall r1, c1, r2, c2 | 0 <= r1 < BM && 0 <= c1 < BN && 0 <= r2 < BM && 0 <= c2 < BN
                            && zMask[r1][c1] && zMask[r2][c2] && zOffset[r1][c1] == zOffset[r2][c2]
      ensures r1 == r2 && c1 == c2
    {
      FlatInjective(offsM[r1], offsN[c1], offsM[r2], offsN[c2], N);
    }
    forall r, c | 0 <= r < BM && 0 <= c < BN && zMask[r][c]
      ensures Owner(zOffset[r][c], N, BM, BN) == (pidM, pidN)
    {
      FlatDecode(offsM[r], offsN[c], N);
      BlockOwner(offsM[r], BM, pidM);
      BlockOwner(offsN[c], BN, pidN);
    }

    forall r, c | 0 <= r < BM && 0 <= c < BN && zMask[r][c] {
      Z[zOffset[r][c]] := z[r][c];
    }
  }

  /** The launch `fused_linear_kernel[grid]` over a gridM x gridN grid that
      covers the output (the host passes exactly cdiv(M, BLOCK_M) x
      cdiv(N, BLOCK_N); tiles past that would be fully masked). The program
      instances run as loop iterations, row of tiles by row of tiles, and Z
      ends as the reference output whatever the block sizes. LaunchInOrder
      shows the same for every other order of the instances. */
  method LaunchGrid(X: seq<real>, W: seq<real>, Z: array<real>, M: nat, N: nat, K: nat, cfg: Config,
                    gridM: nat, gridN: nat, BM: nat, BN: nat, BK: nat)
    requires |X| == M * K && |W| == K * N && Z.Length == M * N && Fits(cfg, M, N)
    requires BM > 0 && BN > 0 && BK > 0
    requires gridM >= CeilDiv(M, BM) && gridN >= CeilDiv(N, BN)
    modifies Z
    ensures Z[..] == ReferenceOutput(X, W, M, N, K, cfg)
  {
    var pidM := 0;
    while pidM < gridM
      invariant pidM <= gridM
      invariant forall f :: 0 <= f < Z.Length ==>
                  Z[f] == if Owner(f, N, BM, BN).0 < pidM then ReferenceOutput(X, W, M, N, K, cfg)[f]
                          else old(Z[f])
    {
      var pidN := 0;
      while pidN < gridN
        invariant pidN <= gridN
        invariant forall f :: 0 <= f < Z.Length ==>
                    Z[f] == if Owner(f, N, BM, BN).0 < pidM
                               || (Owner(f, N, BM, BN).0 == pidM && Owner(f, N, BM, BN).1 < pidN)
                            then ReferenceOutput(X, W, M, N, K, cfg)[f]
                            else old(Z[f])
      {
        RunTile(X, W, Z, M, N, K, cfg, pidM, pidN, BM, BN, BK);
        pidN := pidN + 1;
      }
      forall f | 0 <= f < Z.Length
        ensures Owner(f, N, BM, BN).1 < gridN
      {
        OwnerInGrid(f, M, N, BM, BN);
      }
      pidM := pidM + 1;
    }
    forall f | 0 <= f < Z.Length
      ensures Owner(f, N, BM, BN).0 < gridM
    {
      OwnerInGrid(f, M, N, BM, BN);
    }
  }

  /** The launch with its program instances run one after another in an
      arbitrary order: `order` lists the (pid_m, pid_n) of the instances as
      they run, may repeat an instance or contain instances past the grid,
      and must contain every tile of the cdiv(M, BM) x cdiv(N, BN) grid.
      Each element is written only by the tile that owns it, so Z ends as the
      reference output whatever the order. */
  method LaunchInOrder(X: seq<real>, W: seq<real>, Z: array<real>, M: nat, N: nat, K: nat, cfg: Config,
                       order: seq<(nat, nat)>, BM: nat, BN: nat, BK: nat)
    requires |X| == M * K && |W| == K * N && Z.Length == M * N && Fits(cfg, M, N)
    requires BM > 0 && BN > 0 && BK > 0
    requires forall pm: nat, pn: nat :: pm < CeilDiv(M, BM) && pn < CeilDiv(N, BN) ==> (pm, pn) in order
    modifies Z
    ensures Z[..] == ReferenceOutput(X, W, M, N, K, cfg)
  {
    var t := 0;
    while t < |order|
      invariant t <= |order|
      invariant forall f :: 0 <= f < Z.Length ==>
                  Z[f] == if Owner(f, N, BM, BN) in order[..t] then ReferenceOutput(X, W, M, N, K, cfg)[f]
                          else old(Z[f])
    {
      assert order[..t + 1] == order[..t] + [order[t]];
      RunTile(X, W, Z, M, N, K, cfg, order[t].0, order[t].1, BM, BN, BK);
      t := t + 1;
    }
    assert order[..t] == order;
    forall f | 0 <= f < Z.Length
      ensures Owner(f, N, BM, BN) in order
    {
      OwnerInGrid(f, M, N, BM, BN);
    }
  }
}
