/** `fused_ffn`, the host side of the fused linear kernel: it flattens the
    leading dimensions of x into M, allocates the (M, N) output, checks
    contiguity and the K and bias dimensions, views the residual as (M, N),
    launches a cdiv(M, 128) x cdiv(N, 128) grid of tiles and returns the
    output viewed as x.shape[:-1] + (N,). Device placement and the autograd
    switch are not modelled. The model allocates the output after the
    checks: a failing check discards the allocation, so the order has no
    effect on the result. */
module Dispatcher {
  import opened Results
  import opened Index
  import opened Epilogue
  import opened FusedLinear

  /** The block sizes `fused_ffn` launches with. */
  const BlockM: nat := 128
  const BlockN: nat := 128
  const BlockK: nat := 64

  /** A tensor of any rank: its shape, its elements in row-major order and
      whether its memory layout is contiguous. */
  datatype Tensor = Tensor(shape: seq<nat>, data: seq<real>, contiguous: bool)

  /** The weight, a (rows, cols) = (K, N) matrix. */
  datatype Matrix = Matrix(rows: nat, cols: nat, data: seq<real>, contiguous: bool)

  /** The bias, a vector of shape (len,). */
  datatype Vector = Vector(len: nat, data: seq<real>, contiguous: bool)

  /** The number of elements of a tensor of the given shape. */
  function Product(shape: seq<nat>): nat
  {
    if |shape| == 0 then 1 else Product(shape[..|shape| - 1]) * shape[|shape| - 1]
  }

  /** The element count of a shape with one more trailing dimension. */
  lemma ProductSnoc(leading: seq<nat>, d: nat)
    ensures Product(leading + [d]) == Product(leading) * d
  {
    assert (leading + [d])[..|leading|] == leading;
  }

  /** A shape has no elements exactly when one of its dimensions is 0; so
      an x with an empty leading dimension flattens to M == 0 rows. */
  lemma {:induction false} ProductZero(shape: seq<nat>)
    ensures Product(shape) == 0 <==> 0 in shape
  {
    if |shape| > 0 {
      var init := shape[..|shape| - 1];
      ProductZero(init);
      assert shape == init + [shape[|shape| - 1]];
      assert 0 in shape <==> 0 in init || shape[|shape| - 1] == 0;
    }
  }

  predicate TensorOk(t: Tensor) { |t.data| == Product(t.shape) }
  predicate MatrixOk(w: Matrix) { |w.data| == w.rows * w.cols }
  predicate VectorOk(b: Vector) { |b.data| == b.len }

  /** Which argument an assertion is about. */
  datatype Arg = Input | Weight | Bias | Residual

  /** Why `fused_ffn` fails before launching. */
  datatype Error =
    | NoFeatureDim          // x.shape[-1] of a 0-dimensional x
    | AmbiguousFlatten      // x.view((-1, 0)): the inferred dimension is ambiguous
    | NotContiguous(arg: Arg)
    | KMismatch             // x.shape[1] != weight.shape[0]
    | BiasLengthMismatch    // weight.shape[1] != bias.shape[0]
    | ResidualSizeMismatch  // residual.view((M, N)) with a different element count

  /** What the host passes to the launch: the leading dimensions of x, the
      problem sizes and the grid. */
  datatype Launch = Launch(leading: seq<nat>, M: nat, N: nat, K: nat, gridM: nat, gridN: nat)

  /** Integer division undoes multiplication by a positive number. */
  lemma MulDivCancel(a: nat, k: nat)
    requires k > 0
    ensures (a * k) / k == a
  {
    FlatDecode(a, 0, k);
  }

  /** The shape arithmetic and the assertions of `fused_ffn`, from
      `out_shape_0 = x.shape[:-1]` to the grid, in source order.
      It succeeds exactly when x has a dimension, K = x.shape[-1] is positive,
      x and the weight are contiguous, K matches the weight's rows, a given
      bias is contiguous with N elements, and a given residual has M * N
      elements and is contiguous. Then M is the product of the leading
      dimensions, K and N are the matrix sizes and the grid is
      cdiv(M, 128) x cdiv(N, 128). */
  function PlanLaunch(x: Tensor, weight: Matrix, bias: Option<Vector>, residual: Option<Tensor>): (r: Result<Launch, Error>)
    requires TensorOk(x) && (residual.Some? ==> TensorOk(residual.value))
    ensures r.Success? <==>
              && |x.shape| > 0
              && x.shape[|x.shape| - 1] > 0
              && x.contiguous && weight.contiguous
              && x.shape[|x.shape| - 1] == weight.rows
              && (bias.Some? ==> bias.value.contiguous && bias.value.len == weight.cols)
              && (residual.Some? ==>
                    Product(residual.value.shape) == Product(x.shape[..|x.shape| - 1]) * weight.cols
                    && residual.value.contiguous)
    ensures r.Success? ==>
              && x.shape == r.value.leading + [r.value.K]
              && r.value.M == Product(r.value.leading)
              && r.value.K == weight.rows && r.value.N == weight.cols
              && r.value.gridM == CeilDiv(r.value.M, BlockM)
              && r.value.gridN == CeilDiv(r.value.N, BlockN)
  {
    if |x.shape| == 0 then Failure(NoFeatureDim)
    else
      var leading := x.shape[..|x.shape| - 1];
      var K := x.shape[|x.shape| - 1];
      if K == 0 then Failure(AmbiguousFlatten)
      else
        assert x.shape == leading + [K];
        ProductSnoc(leading, K);
        MulDivCancel(Product(leading), K);
        var M := Product(x.shape) / K;
        var N := weight.cols;
        if !x.contiguous then Failure(NotContiguous(Input))
        else if !weight.contiguous then Failure(NotContiguous(Weight))
        else if K != weight.rows then Failure(KMismatch)
        else if bias.Some? && !bias.value.contiguous then Failure(NotContiguous(Bias))
        else if bias.Some? && N != bias.value.len then Failure(BiasLengthMismatch)
        else if residual.Some? && Product(residual.value.shape) != M * N then Failure(ResidualSizeMismatch)
        else if residual.Some? && !residual.value.contiguous then Failure(NotContiguous(Residual))
        else Success(Launch(leading, M, N, K, CeilDiv(M, BlockM), CeilDiv(N, BlockN)))
  }

  /** `fused_ffn(x, weight, bias, residual, add_gelu, dropout_prob)`: fails
      exactly as PlanLaunch does; otherwise returns a contiguous tensor of
      shape x.shape[:-1] + (N,), with as many elements as that shape has,
      holding the reference output of the kernel for the default seed 1337. */
  method FusedFfn(x: Tensor, weight: Matrix, bias: Option<Vector>, residual: Option<Tensor>,
                  addGelu: bool, dropoutProb: real, act: real -> real, rand: (int, int) -> Unit)
    returns (out: Result<Tensor, Error>)
    requires TensorOk(x) && MatrixOk(weight)
    requires bias.Some? ==> VectorOk(bias.value)
    requires residual.Some? ==> TensorOk(residual.value)
    ensures out.Success? <==> PlanLaunch(x, weight, bias, residual).Success?
    ensures out.Failure? ==> out.error == PlanLaunch(x, weight, bias, residual).error
    ensures out.Success? ==>
              var plan := PlanLaunch(x, weight, bias, residual).value;
              var cfg := Config(if bias.Some? then Some(bias.value.data) else None,
                                if residual.Some? then Some(residual.value.data) else None,
                                addGelu, act, dropoutProb, DefaultSeed, rand);
              && out.value.shape == x.shape[..|x.shape| - 1] + [weight.cols]
              && TensorOk(out.value)
              && out.value.contiguous
              && Fits(cfg, plan.M, plan.N)
              && |x.data| == plan.M * plan.K && |weight.data| == plan.K * plan.N
              && out.value.data == ReferenceOutput(x.data, weight.data, plan.M, plan.N, plan.K, cfg)
  {
    var plan :- PlanLaunch(x, weight, bias, residual);
    var M, N, K := plan.M, plan.N, plan.K;
    ProductSnoc(plan.leading, K);
    ProductSnoc(plan.leading, N);
    // z = torch.empty((M, N))
    var z := new real[M * N];
    var cfg := Config(if bias.Some? then Some(bias.value.data) else None,
                      if residual.Some? then Some(residual.value.data) else None,
                      addGelu, act, dropoutProb, DefaultSeed, rand);
    LaunchGrid(x.data, weight.data, z, M, N, K, cfg, plan.gridM, plan.gridN, BlockM, BlockN, BlockK);
    // z.view((*out_shape_0, N))
    out := Success(Tensor(plan.leading + [N], z[..], true));
  }
}
