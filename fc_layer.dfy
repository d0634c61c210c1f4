/** The fully connected layer (CNN/src/FC.cpp): `out = W x + b` over the
    flattened input, with gradients accumulated across calls to `backward` until
    `zero_gradients`.  Weights are row-major: row i, column j at `i * flat + j`. */
module FullyConnected {
  import opened Tensor

  datatype FCState = FCState(
    inputChannels: int, inputHeight: int, inputWidth: int, outputSize: int, flat: int,
    weights: seq<real>, biases: seq<real>, dWeights: seq<real>, dBiases: seq<real>,
    lastOutput: seq<real>, lastInput: seq<real>, dInput: seq<real>)
  {
    ghost predicate Valid() {
      inputChannels >= 0 && inputHeight >= 0 && inputWidth >= 0 && outputSize >= 0 &&
      flat == inputChannels * inputHeight * inputWidth && flat >= 0 &&
      |weights| == outputSize * flat && |dWeights| == outputSize * flat &&
      |biases| == outputSize && |dBiases| == outputSize && |lastOutput| == outputSize &&
      |lastInput| == flat && |dInput| == flat
    }
  }

  /** The state the constructor builds.  The He-normal draws are supplied as
      `initialWeights`; biases, gradients and the other buffers are 0. */
  function Init(c: int, h: int, w: int, m: int, initialWeights: seq<real>): (s: FCState)
    requires c >= 0 && h >= 0 && w >= 0 && m >= 0
    requires |initialWeights| == m * (c * h * w)
    ensures s.Valid()
    ensures forall i :: 0 <= i < |s.biases| ==> s.biases[i] == 0.0
  {
    MulMono(0, c, h);
    MulMono(0, c * h, w);
    var flat := c * h * w;
    MulMono(0, m, flat);
    FCState(c, h, w, m, flat, initialWeights, Zeros(m), Zeros(m * flat), Zeros(m),
            Zeros(m), Zeros(flat), Zeros(flat))
  }

  /** w[base] * x[0] + ... + w[base + j - 1] * x[j - 1] */
  function RowDot(w: seq<real>, base: int, x: seq<real>, j: int): real
    decreases j
  {
    if j <= 0 then 0.0 else RowDot(w, base, x, j - 1) + At(w, base + j - 1) * At(x, j - 1)
  }

  /** w[col] * d[0] + w[flat + col] * d[1] + ... over the first `i` rows. */
  function ColDot(w: seq<real>, flat: int, d: seq<real>, col: int, i: int): real
    decreases i
  {
    if i <= 0 then 0.0 else ColDot(w, flat, d, col, i - 1) + At(w, (i - 1) * flat + col) * At(d, i - 1)
  }

  /** `b + W x` for an m x flat matrix. */
  function Affine(w: seq<real>, b: seq<real>, x: seq<real>, m: nat, flat: int): (r: seq<real>)
    ensures |r| == m
  {
    seq(m, i => At(b, i) + RowDot(w, i * flat, x, flat))
  }

  /** `W^T d` for an m x flat matrix. */
  function Transposed(w: seq<real>, d: seq<real>, m: int, flat: nat): (r: seq<real>)
    ensures |r| == flat
  {
    seq(flat, j => ColDot(w, flat, d, j, m))
  }

  /** `dW + d x^T`: entry (i, j) gains `x[j] * d[i]`. */
  function OuterAcc(dW: seq<real>, x: seq<real>, d: seq<real>): (r: seq<real>)
    ensures |r| == |dW|
  {
    seq(|dW|, e requires 0 <= e < |dW| => OuterAccAt(dW, x, d, e))
  }

  function OuterAccAt(dW: seq<real>, x: seq<real>, d: seq<real>, e: int): real
    requires 0 <= e < |dW|
  {
    if |x| == 0 then dW[e] else dW[e] + At(x, e % |x|) * At(d, e / |x|)
  }

  /** The bias step of `update_biases`: plain gradient descent. */
  function SgdStep(b: seq<real>, g: seq<real>, lr: real): (r: seq<real>)
    requires |b| == |g|
    ensures |r| == |b|
  {
    seq(|b|, i requires 0 <= i < |b| => b[i] - lr * g[i])
  }

  // ---------------------------------------------------------------------
  // Transitions
  // ---------------------------------------------------------------------

  function ForwardStep(s: FCState, input: seq<real>): (FCState, Outcome<seq<real>>)
    requires s.Valid()
  {
    if |input| != s.flat then (s, Err("FCLayer::forward: input size mismatch."))
    else
      var out := Affine(s.weights, s.biases, input, s.outputSize, s.flat);
      (s.(lastInput := input, lastOutput := out), Ok(out))
  }

  function ZeroGradientsStep(s: FCState): FCState
    requires s.Valid()
  {
    s.(dWeights := Zeros(|s.dWeights|), dBiases := Zeros(|s.dBiases|))
  }

  /** `backward`: `d_input` is recomputed, the parameter gradients are added to. */
  function BackwardStep(s: FCState, dOut: seq<real>): (FCState, Outcome<seq<real>>)
    requires s.Valid()
  {
    if |dOut| != s.outputSize then (s, Err("FCLayer::backward: d_out size mismatch."))
    else
      var dIn := Transposed(s.weights, dOut, s.outputSize, s.flat);
      (s.(dInput := dIn,
          dBiases := AddSeq(s.dBiases, dOut),
          dWeights := OuterAcc(s.dWeights, s.lastInput, dOut)),
       Ok(dIn))
  }

  function UpdateWeightsStep(s: FCState, lr: real, l2: real): FCState
    requires s.Valid()
  {
    s.(weights := L2Step(s.weights, s.dWeights, lr, l2))
  }

  /** `update_biases` takes `l2_reg` but does not use it. */
  function UpdateBiasesStep(s: FCState, lr: real, l2: real): FCState
    requires s.Valid()
  {
    s.(biases := SgdStep(s.biases, s.dBiases, lr))
  }

  function OutputSize(s: FCState): seq<int> {
    [s.outputSize, 1, 1]
  }

  function LoadWeightsStep(s: FCState, w: seq<real>): FCState
    requires s.Valid() && |w| == |s.weights|
  {
    s.(weights := w)
  }

  function LoadBiasesStep(s: FCState, b: seq<real>): FCState
    requires s.Valid() && |b| == |s.biases|
  {
    s.(biases := b)
  }

  // ---------------------------------------------------------------------
  // Properties
  // ---------------------------------------------------------------------

  /** Every transition keeps the state well formed; forward and backward fail
      exactly on a length mismatch. */
  lemma StepsPreserveValid(s: FCState, x: seq<real>, d: seq<real>, lr: real, l2: real)
    requires s.Valid()
    ensures ForwardStep(s, x).0.Valid() && BackwardStep(s, d).0.Valid()
    ensures ZeroGradientsStep(s).Valid()
    ensures UpdateWeightsStep(s, lr, l2).Valid() && UpdateBiasesStep(s, lr, l2).Valid()
    ensures ForwardStep(s, x).1.Err? <==> |x| != s.flat
    ensures BackwardStep(s, d).1.Err? <==> |d| != s.outputSize
  {
  }

  lemma {:induction false} RowDotAsSum(w: seq<real>, base: int, x: seq<real>, j: int)
    ensures RowDot(w, base, x, j) == SumF(RowTerms(w, base, x), j)
    decreases j
  {
    if j > 0 {
      RowDotAsSum(w, base, x, j - 1);
    }
  }

  lemma {:induction false} ColDotAsSum(w: seq<real>, flat: int, d: seq<real>, col: int, i: int)
    ensures ColDot(w, flat, d, col, i) == SumF(ColTerms(w, flat, d, col), i)
    decreases i
  {
    if i > 0 {
      ColDotAsSum(w, flat, d, col, i - 1);
    }
  }

  /** t |-> w[base + t] * x[t] */
  function RowTerms(w: seq<real>, base: int, x: seq<real>): int -> real {
    t => At(w, base + t) * At(x, t)
  }

  /** r |-> w[r * flat + col] * d[r] */
  function ColTerms(w: seq<real>, flat: int, d: seq<real>, col: int): int -> real {
    r => At(w, r * flat + col) * At(d, r)
  }

  /** d[i] * w[i * flat + t] * x[t] */
  function Triple(w: seq<real>, d: seq<real>, x: seq<real>, flat: int): (int, int) -> real {
    (i, t) => At(d, i) * At(w, i * flat + t) * At(x, t)
  }

  /** Backward is the adjoint of forward: the input gradient `W^T d` satisfies
      `<d, W x + b> == <d, b> + <W^T d, x>` for every input and upstream
      gradient, which is what makes it the gradient of the affine map. */
  lemma BackwardIsAdjoint(w: seq<real>, b: seq<real>, x: seq<real>, d: seq<real>, m: nat, flat: nat)
    requires |b| == m && |d| == m && |x| == flat
    ensures Dot(d, Affine(w, b, x, m, flat)) == Dot(d, b) + Dot(Transposed(w, d, m, flat), x)
  {
    AdjointLeft(w, b, x, d, m, flat);
    AdjointRight(w, x, d, m, flat);
    SumFSwap(Triple(w, d, x, flat), m, flat);
  }

  lemma AdjointLeft(w: seq<real>, b: seq<real>, x: seq<real>, d: seq<real>, m: nat, flat: nat)
    requires |b| == m && |d| == m
    ensures Dot(d, Affine(w, b, x, m, flat)) == Dot(d, b) + SumF(RowTotals(Triple(w, d, x, flat), flat), m)
  {
    var A := Affine(w, b, x, m, flat);
    var G := Triple(w, d, x, flat);
    DotAsSum(d, A);
    DotAsSum(d, b);
    var lhs := Products(d, A);
    var db := Products(d, b);
    forall i | 0 <= i < m
      ensures lhs(i) == db(i) + RowTotals(G, flat)(i)
    {
      AdjointRow(w, b, x, d, m, flat, i);
    }
    SumFAdd(db, RowTotals(G, flat), lhs, m);
  }

  lemma AdjointRight(w: seq<real>, x: seq<real>, d: seq<real>, m: nat, flat: nat)
    requires |x| == flat
    ensures Dot(Transposed(w, d, m, flat), x) == SumF(ColTotals(Triple(w, d, x, flat), m), flat)
  {
    var T := Transposed(w, d, m, flat);
    var G := Triple(w, d, x, flat);
    DotAsSum(T, x);
    var rhs := Products(T, x);
    forall t | 0 <= t < flat
      ensures rhs(t) == ColTotals(G, m)(t)
    {
      AdjointCol(w, x, d, m, flat, t);
    }
    SumFExt(rhs, ColTotals(G, m), flat);
  }

  /** One row of the left side of `BackwardIsAdjoint`. */
  lemma AdjointRow(w: seq<real>, b: seq<real>, x: seq<real>, d: seq<real>, m: nat, flat: int, i: int)
    requires 0 <= i < m
    ensures Products(d, Affine(w, b, x, m, flat))(i)
         == Products(d, b)(i) + RowTotals(Triple(w, d, x, flat), flat)(i)
  {
    assert At(Affine(w, b, x, m, flat), i) == At(b, i) + RowDot(w, i * flat, x, flat);
    RowDotAsSum(w, i * flat, x, flat);
    TripleRow(w, d, x, flat, i);
  }

  /** Row i of the triple products is d[i] times the terms of row i of W x. */
  lemma TripleRow(w: seq<real>, d: seq<real>, x: seq<real>, flat: int, i: int)
    ensures SumF(RowOf(Triple(w, d, x, flat), i), flat) == At(d, i) * SumF(RowTerms(w, i * flat, x), flat)
  {
    var G := Triple(w, d, x, flat);
    var f := RowTerms(w, i * flat, x);
    forall t | 0 <= t < flat
      ensures RowOf(G, i)(t) == At(d, i) * f(t)
    {
      ProductAssoc(At(d, i), At(w, i * flat + t), At(x, t));
    }
    SumFScale(f, RowOf(G, i), At(d, i), flat);
  }

  /** One column of the right side of `BackwardIsAdjoint`. */
  lemma AdjointCol(w: seq<real>, x: seq<real>, d: seq<real>, m: nat, flat: nat, t: int)
    requires 0 <= t < flat
    ensures Products(Transposed(w, d, m, flat), x)(t) == ColTotals(Triple(w, d, x, flat), m)(t)
  {
    assert At(Transposed(w, d, m, flat), t) == ColDot(w, flat, d, t, m);
    ColDotAsSum(w, flat, d, t, m);
    ColScaled(w, x, d, m, flat, t);
  }

  lemma ColScaled(w: seq<real>, x: seq<real>, d: seq<real>, m: int, flat: int, t: int)
    ensures SumF(ColOf(Triple(w, d, x, flat), t), m) == At(x, t) * SumF(ColTerms(w, flat, d, t), m)
  {
    var G := Triple(w, d, x, flat);
    var f := ColTerms(w, flat, d, t);
    forall r | 0 <= r < m
      ensures ColOf(G, t)(r) == At(x, t) * f(r)
    {
      ProductRotate(At(d, r), At(w, r * flat + t), At(x, t));
    }
    SumFScale(f, ColOf(G, t), At(x, t), m);
  }

  lemma ProductAssoc(a: real, b: real, c: real)
    ensures a * b * c == a * (b * c)
  {
  }

  lemma ProductRotate(a: real, b: real, c: real)
    ensures a * b * c == c * (b * a)
  {
  }

  /** Gradients add up across a batch: after `zero_gradients`, two
      forward/backward passes leave `d_biases = d1 + d2` and
      `d_weights[i * flat + j] = x1[j] * d1[i] + x2[j] * d2[i]`. */
  lemma GradientsAccumulate(s: FCState, x1: seq<real>, d1: seq<real>, x2: seq<real>, d2: seq<real>)
    requires s.Valid() && |x1| == s.flat && |x2| == s.flat && |d1| == s.outputSize && |d2| == s.outputSize
    ensures var s1 := BackwardStep(ForwardStep(ZeroGradientsStep(s), x1).0, d1).0;
      var s2 := BackwardStep(ForwardStep(s1, x2).0, d2).0;
      s2.Valid() &&
      s2.dBiases == AddSeq(d1, d2) &&
      forall i, j :: 0 <= i < s.outputSize && 0 <= j < s.flat ==>
        s2.dWeights[FlatIndex(i, j, s.outputSize, s.flat)] == x1[j] * d1[i] + x2[j] * d2[i]
  {
    var s1 := BackwardStep(ForwardStep(ZeroGradientsStep(s), x1).0, d1).0;
    var s2 := BackwardStep(ForwardStep(s1, x2).0, d2).0;
    forall i, j | 0 <= i < s.outputSize && 0 <= j < s.flat
      ensures s2.dWeights[FlatIndex(i, j, s.outputSize, s.flat)] == x1[j] * d1[i] + x2[j] * d2[i]
    {
      var e := FlatIndex(i, j, s.outputSize, s.flat);
      DivModUnique(i, j, s.flat);
      assert s1.dWeights[e] == 0.0 + x1[j] * d1[i];
    }
  }

  /** Position of row i, column j in a row-major buffer with `cols` columns. */
  function FlatIndex(i: int, j: int, rows: int, cols: int): (e: int)
    requires 0 <= i < rows && 0 <= j < cols
    ensures 0 <= e < rows * cols
  {
    Idx2Bound(i, j, rows, cols);
    i * cols + j
  }

  /** `update_biases` ignores `l2_reg`: it is the L2 step with decay 0, while
      `update_weights` applies the decay. */
  lemma UpdateBiasesIgnoresL2(s: FCState, lr: real, l2: real)
    requires s.Valid()
    ensures UpdateBiasesStep(s, lr, l2) == UpdateBiasesStep(s, lr, 0.0)
    ensures UpdateBiasesStep(s, lr, l2).biases == L2Step(s.biases, s.dBiases, lr, 0.0)
    ensures UpdateWeightsStep(s, lr, l2).weights == L2Step(s.weights, s.dWeights, lr, l2)
  {
  }

  /** Loading what was saved changes nothing. */
  lemma LoadSaveIdentity(s: FCState)
    requires s.Valid()
    ensures LoadWeightsStep(s, s.weights) == s && LoadBiasesStep(s, s.biases) == s
  {
  }

  // ---------------------------------------------------------------------
  // The loops
  // ---------------------------------------------------------------------

  /** The forward loop: a running `sum` starting at the bias for each output. */
  method AffineLoop(w: seq<real>, b: seq<real>, x: seq<real>, m: int, flat: int, out0: seq<real>)
    returns (out: seq<real>)
    requires m >= 0 && flat >= 0 && |w| == m * flat && |b| == m && |x| == flat && |out0| == m
    ensures out == Affine(w, b, x, m, flat)
  {
    out := out0;
    var i := 0;
    while i < m
      invariant 0 <= i <= m && |out| == m
      invariant forall r :: 0 <= r < i ==> out[r] == Affine(w, b, x, m, flat)[r]
    {
      var sum := b[i];
      var j := 0;
      while j < flat
        invariant 0 <= j <= flat
        invariant sum == b[i] + RowDot(w, i * flat, x, j)
      {
        Idx2Bound(i, j, m, flat);
        sum := sum + w[i * flat + j] * x[j];
        j := j + 1;
      }
      out := out[i := sum];
      i := i + 1;
    }
  }

  /** The state of backward's outer loop after outputs 0, ..., i - 1. */
  ghost predicate BackwardAfter(w: seq<real>, x: seq<real>, d: seq<real>, m: int, flat: int,
                                dW0: seq<real>, dB0: seq<real>, i: int, dW: seq<real>, dB: seq<real>, dIn: seq<real>)
  {
    0 <= i <= m && |dW0| == |dW| == m * flat && |dB0| == |dB| == m && |dIn| == flat && |d| == m &&
    0 <= i * flat <= m * flat &&
    (forall r :: 0 <= r < i ==> dB[r] == dB0[r] + d[r]) &&
    (forall r :: i <= r < m ==> dB[r] == dB0[r]) &&
    (forall e :: 0 <= e < i * flat ==> dW[e] == OuterAccAt(dW0, x, d, e)) &&
    (forall e :: i * flat <= e < m * flat ==> dW[e] == dW0[e]) &&
    (forall t :: 0 <= t < flat ==> dIn[t] == ColDot(w, flat, d, t, i))
  }

  /** One pass of backward's outer loop, for output i. */
  method BackwardRow(w: seq<real>, x: seq<real>, d: seq<real>, m: int, flat: int, dW0: seq<real>, dB0: seq<real>,
                     i: int, dWi: seq<real>, dBi: seq<real>, dIni: seq<real>)
    returns (dW: seq<real>, dB: seq<real>, dIn: seq<real>)
    requires flat >= 0 && |w| == m * flat && |x| == flat && i < m
    requires BackwardAfter(w, x, d, m, flat, dW0, dB0, i, dWi, dBi, dIni)
    ensures BackwardAfter(w, x, d, m, flat, dW0, dB0, i + 1, dW, dB, dIn)
  {
    var g := d[i];
    dB := dBi[i := dBi[i] + g];
    var base := i * flat;
    assert (i + 1) * flat == base + flat;
    assert base + flat <= m * flat by {
      MulMono(i + 1, m, flat);
    }
    dW, dIn := AccumulateRow(w, x, g, base, dWi, dIni);
    forall e | 0 <= e < base + flat
      ensures dW[e] == OuterAccAt(dW0, x, d, e)
    {
      if e >= base {
        DivModUnique(i, e - base, flat);
      }
    }
  }

  /** The backward loop: for each output i, `d_biases[i] += g` and the row
      `i * flat .. i * flat + flat` is accumulated by `AccumulateRow`. */
  method BackwardLoop(w: seq<real>, x: seq<real>, d: seq<real>, m: int, flat: int,
                      dW0: seq<real>, dB0: seq<real>, dIn0: seq<real>)
    returns (dW: seq<real>, dB: seq<real>, dIn: seq<real>)
    requires m >= 0 && flat >= 0 && |w| == m * flat && |x| == flat && |d| == m
    requires |dW0| == m * flat && |dB0| == m && dIn0 == Zeros(flat)
    ensures dW == OuterAcc(dW0, x, d)
    ensures dB == AddSeq(dB0, d)
    ensures dIn == Transposed(w, d, m, flat)
  {
    dW, dB, dIn := dW0, dB0, dIn0;
    MulMono(0, m, flat);
    var i := 0;
    while i < m
      invariant BackwardAfter(w, x, d, m, flat, dW0, dB0, i, dW, dB, dIn)
    {
      dW, dB, dIn := BackwardRow(w, x, d, m, flat, dW0, dB0, i, dW, dB, dIn);
      i := i + 1;
    }
    assert forall e :: 0 <= e < |dW| ==> dW[e] == OuterAcc(dW0, x, d)[e];
    assert forall r :: 0 <= r < m ==> dB[r] == AddSeq(dB0, d)[r];
    assert forall t :: 0 <= t < flat ==> dIn[t] == Transposed(w, d, m, flat)[t];
  }

  /** The inner loop of backward for one output with gradient `g`:
      `d_weights[base + j] += x[j] * g` and `d_input[j] += w[base + j] * g`. */
  method AccumulateRow(w: seq<real>, x: seq<real>, g: real, base: int, dW0: seq<real>, dIn0: seq<real>)
    returns (dW: seq<real>, dIn: seq<real>)
    requires 0 <= base && base + |x| <= |dW0| && base + |x| <= |w| && |dIn0| == |x|
    ensures |dW| == |dW0| && |dIn| == |dIn0|
    ensures forall e :: 0 <= e < |dW0| ==>
      dW[e] == if base <= e < base + |x| then dW0[e] + x[e - base] * g else dW0[e]
    ensures forall t :: 0 <= t < |x| ==> dIn[t] == dIn0[t] + w[base + t] * g
  {
    dW, dIn := dW0, dIn0;
    var j := 0;
    while j < |x|
      invariant 0 <= j <= |x| && |dW| == |dW0| && |dIn| == |dIn0|
      invariant forall e :: 0 <= e < |dW0| ==>
        dW[e] == if base <= e < base + j then dW0[e] + x[e - base] * g else dW0[e]
      invariant forall t :: 0 <= t < |x| ==> dIn[t] == if t < j then dIn0[t] + w[base + t] * g else dIn0[t]
    {
      dW := dW[base + j := dW[base + j] + x[j] * g];
      dIn := dIn[j := dIn[j] + w[base + j] * g];
      j := j + 1;
    }
  }

  /** `weights[i * C*H*W + j] -= lr * (d_weights[..] + l2 * weights[..])`. */
  method UpdateWeightsLoop(w: seq<real>, dW: seq<real>, lr: real, l2: real, m: int, flat: int)
    returns (r: seq<real>)
    requires m >= 0 && flat >= 0 && |w| == m * flat && |dW| == m * flat
    ensures r == L2Step(w, dW, lr, l2)
  {
    r := w;
    MulMono(0, m, flat);
    var i := 0;
    while i < m
      invariant 0 <= i <= m && |r| == m * flat && 0 <= i * flat <= m * flat
      invariant forall e :: 0 <= e < i * flat ==> r[e] == w[e] - lr * (dW[e] + l2 * w[e])
      invariant forall e :: i * flat <= e < m * flat ==> r[e] == w[e]
    {
      assert (i + 1) * flat == i * flat + flat;
      MulMono(i + 1, m, flat);
      r := UpdateRow(w, dW, lr, l2, i * flat, flat, r);
      i := i + 1;
    }
    assert forall e :: 0 <= e < |w| ==> r[e] == L2Step(w, dW, lr, l2)[e];
  }

  /** The inner loop of `update_weights` over the row from flat index `base`. */
  method UpdateRow(w: seq<real>, dW: seq<real>, lr: real, l2: real, base: int, flat: int, r0: seq<real>)
    returns (r: seq<real>)
    requires 0 <= base && 0 <= flat && base + flat <= |w| == |dW| == |r0|
    requires forall e :: 0 <= e < base ==> r0[e] == w[e] - lr * (dW[e] + l2 * w[e])
    requires forall e :: base <= e < |w| ==> r0[e] == w[e]
    ensures |r| == |w|
    ensures forall e :: 0 <= e < base + flat ==> r[e] == w[e] - lr * (dW[e] + l2 * w[e])
    ensures forall e :: base + flat <= e < |w| ==> r[e] == w[e]
  {
    r := r0;
    var j := 0;
    while j < flat
      invariant 0 <= j <= flat && |r| == |w|
      invariant forall e :: 0 <= e < base + j ==> r[e] == w[e] - lr * (dW[e] + l2 * w[e])
      invariant forall e :: base + j <= e < |w| ==> r[e] == w[e]
    {
      var e := base + j;
      r := r[e := r[e] - lr * (dW[e] + l2 * r[e])];
      j := j + 1;
    }
  }

  /** `biases[i] -= lr * d_biases[i]`. */
  method UpdateBiasesLoop(b: seq<real>, dB: seq<real>, lr: real) returns (r: seq<real>)
    requires |b| == |dB|
    ensures r == SgdStep(b, dB, lr)
  {
    r := b;
    var i := 0;
    while i < |b|
      invariant 0 <= i <= |b| && |r| == |b|
      invariant forall k :: 0 <= k < i ==> r[k] == b[k] - lr * dB[k]
      invariant forall k :: i <= k < |b| ==> r[k] == b[k]
    {
      r := r[i := r[i] - lr * dB[i]];
      i := i + 1;
    }
    assert forall k :: 0 <= k < |b| ==> r[k] == SgdStep(b, dB, lr)[k];
  }

  // ---------------------------------------------------------------------
  // The layer object
  // ---------------------------------------------------------------------

  class FCLayer {
    const inputHeight: int
    const inputWidth: int
    const outputSize: int
    const inputChannels: int
    const flat: int
    var weights: seq<real>
    var biases: seq<real>
    var dWeights: seq<real>
    var dBiases: seq<real>
    var lastOutput: seq<real>
    var lastInput: seq<real>
    var dInput: seq<real>

    ghost function State(): FCState
      reads this
    {
      FCState(inputChannels, inputHeight, inputWidth, outputSize, flat,
              weights, biases, dWeights, dBiases, lastOutput, lastInput, dInput)
    }

    ghost predicate Valid()
      reads this
    {
      State().Valid()
    }

    constructor (inputChannels: int, inputHeight: int, inputWidth: int, outputSize: int,
                 initialWeights: seq<real>)
      requires inputChannels >= 0 && inputHeight >= 0 && inputWidth >= 0 && outputSize >= 0
      requires |initialWeights| == outputSize * (inputChannels * inputHeight * inputWidth)
      ensures Valid() && State() == Init(inputChannels, inputHeight, inputWidth, outputSize, initialWeights)
    {
      this.inputHeight := inputHeight;
      this.inputWidth := inputWidth;
      this.outputSize := outputSize;
      this.inputChannels := inputChannels;
      MulMono(0, inputChannels, inputHeight);
      MulMono(0, inputChannels * inputHeight, inputWidth);
      var n := inputChannels * inputHeight * inputWidth;
      this.flat := n;
      MulMono(0, outputSize, n);
      weights := initialWeights;
      dWeights := Zeros(outputSize * n);
      dBiases := Zeros(outputSize);
      dInput := Zeros(n);
      lastOutput := Zeros(outputSize);
      lastInput := Zeros(n);
      biases := Zeros(outputSize);
    }

    method Forward(input: seq<real>, train: bool) returns (r: Outcome<seq<real>>)
      requires Valid()
      modifies this
      ensures Valid()
      ensures (State(), r) == ForwardStep(old(State()), input)
    {
      if |input| != flat {
        return Err("FCLayer::forward: input size mismatch.");
      }
      lastInput := input;
      lastOutput := AffineLoop(weights, biases, lastInput, outputSize, flat, lastOutput);
      return Ok(lastOutput);
    }

    method ZeroGradients()
      requires Valid()
      modifies this
      ensures Valid() && State() == ZeroGradientsStep(old(State()))
    {
      dWeights := Zeros(|dWeights|);
      dBiases := Zeros(|dBiases|);
    }

    method Backward(dOut: seq<real>) returns (r: Outcome<seq<real>>)
      requires Valid()
      modifies this
      ensures Valid()
      ensures (State(), r) == BackwardStep(old(State()), dOut)
    {
      if |dOut| != outputSize {
        return Err("FCLayer::backward: d_out size mismatch.");
      }
      dInput := Zeros(flat);
      dWeights, dBiases, dInput := BackwardLoop(weights, lastInput, dOut, outputSize, flat,
                                                dWeights, dBiases, dInput);
      return Ok(dInput);
    }

    method UpdateWeights(learningRate: real, l2Reg: real)
      requires Valid()
      modifies this
      ensures Valid() && State() == UpdateWeightsStep(old(State()), learningRate, l2Reg)
    {
      weights := UpdateWeightsLoop(weights, dWeights, learningRate, l2Reg, outputSize, flat);
    }

    method UpdateBiases(learningRate: real, l2Reg: real)
      requires Valid()
      modifies this
      ensures Valid() && State() == UpdateBiasesStep(old(State()), learningRate, l2Reg)
    {
      biases := UpdateBiasesLoop(biases, dBiases, learningRate);
    }

    method GetOutputSize() returns (shape: seq<int>)
      ensures shape == OutputSize(State())
    {
      shape := [outputSize, 1, 1];
    }

    method SaveWeights() returns (w: seq<real>)
      ensures w == weights
    {
      w := weights;
    }

    method SaveBiases() returns (b: seq<real>)
      ensures b == biases
    {
      b := biases;
    }

    method LoadWeights(newWeights: seq<real>)
      requires Valid() && |newWeights| == |weights|
      modifies this
      ensures Valid() && State() == LoadWeightsStep(old(State()), newWeights)
    {
      weights := newWeights;
    }

    method LoadBiases(newBiases: seq<real>)
      requires Valid() && |newBiases| == |biases|
      modifies this
      ensures Valid() && State() == LoadBiasesStep(old(State()), newBiases)
    {
      biases := newBiases;
    }
  }
}
