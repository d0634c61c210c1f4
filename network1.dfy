/** The plain fully connected network of FNN/FNN1/Network1.cpp: sigmoid
    hidden layers, a softmax output layer, and one step of gradient descent
    per call to `training`.  `rand() / RAND_MAX` is a supplied stream of
    draws, and sigmoid and exp are left abstract. */
module Network1 {
  import opened Tensor
  import Softmax
  import Calculator

  /** The activation functions the source takes from `<cmath>`. */
  datatype Activation = Activation(sigmoid: real -> real, math: Math)

  /** `sigmoid(x) = 1 / (1 + exp(-x))` takes its values in [0, 1]. */
  ghost predicate SigmoidInUnit(act: Activation) {
    forall z :: 0.0 <= act.sigmoid(z) <= 1.0
  }

  // ---------------------------------------------------------------------
  // Layer sizes and the shape of the state
  // ---------------------------------------------------------------------

  /** What the constructor accepts: two layers or more, each of size > 0. */
  predicate ValidSizes(l: seq<int>) {
    |l| >= 2 && forall i :: 0 <= i < |l| ==> l[i] > 0
  }

  /** The first layer from i on whose size is not positive. */
  function FirstInvalid(l: seq<int>, i: nat): (r: Option<nat>)
    requires i <= |l|
    ensures r.None? <==> forall k :: i <= k < |l| ==> l[k] > 0
    ensures r.Some? ==> i <= r.value < |l| && l[r.value] <= 0 && forall k :: i <= k < r.value ==> l[k] > 0
    decreases |l| - i
  {
    if i == |l| then None
    else if l[i] <= 0 then Some(i)
    else FirstInvalid(l, i + 1)
  }

  /** A signed integer as `operator<<` writes it. */
  function IntText(v: int): string {
    if v < 0 then "-" + Calculator.NatText(-v) else Calculator.NatText(v)
  }

  const TooFewLayers: string := "NN Error : needs at least 2 layers \n"

  /** The message the constructor prints before `exit(1)`, if any. */
  function ConstructorError(l: seq<int>): (r: Option<string>)
    ensures r.None? <==> ValidSizes(l)
    ensures |l| < 2 ==> r == Some(TooFewLayers)
    ensures r.Some? ==> |r.value| > 0 && r.value[|r.value| - 1] == '\n'
  {
    if |l| < 2 then Some(TooFewLayers)
    else
      match FirstInvalid(l, 0)
      case None => None
      case Some(i) => Some("NN Error Layer " + Calculator.NatText(i) + " has invalid size " + IntText(l[i]) + "\n")
  }

  /** rows vectors of cols entries. */
  predicate IsMatrix(w: seq<seq<real>>, rows: int, cols: int) {
    |w| == rows && forall j :: 0 <= j < |w| ==> |w[j]| == cols
  }

  /** The fields of `_NN_`: `weights[i][j][k]` joins neuron j of layer i to
      neuron k of layer i - 1 (layer 0 has none). */
  datatype NetState = NetState(
    npl: seq<int>, weights: seq<seq<seq<real>>>, bias: seq<seq<real>>,
    outputs: seq<seq<real>>, backprop: seq<seq<real>>)
  {
    ghost predicate Valid() {
      ValidSizes(npl) && |weights| == |npl| && |bias| == |npl| && |outputs| == |npl| && |backprop| == |npl|
      && weights[0] == []
      && (forall i :: 0 <= i < |npl| ==> |bias[i]| == npl[i] && |outputs[i]| == npl[i] && |backprop[i]| == npl[i])
      && (forall i :: 1 <= i < |npl| ==> IsMatrix(weights[i], npl[i], npl[i - 1]))
    }

    function Last(): int
      requires |npl| >= 1
    {
      |npl| - 1
    }
  }

  // ---------------------------------------------------------------------
  // The constructor
  // ---------------------------------------------------------------------

  /** `((float)rand() / RAND_MAX - 0.5f) * 2.0f` for the draw d. */
  function Scale(d: real): real {
    (d - 0.5) * 2.0
  }

  /** The draws are taken layer by layer from layer 1, and within a layer
      neuron by neuron: the bias first, then one weight per neuron of the
      previous layer.  `LayerStart(l, i)` is the index of layer i's first
      draw. */
  function LayerStart(l: seq<int>, i: nat): (p: nat)
    requires ValidSizes(l) && 1 <= i <= |l|
  {
    if i == 1 then 0
    else
      MulMono(0, l[i - 1], l[i - 2] + 1);
      LayerStart(l, i - 1) + l[i - 1] * (l[i - 2] + 1)
  }

  /** The index of the draw for the bias of neuron j of layer i. */
  function RowStart(l: seq<int>, i: nat, j: nat): (p: nat)
    requires ValidSizes(l) && 1 <= i < |l|
  {
    MulMono(0, j, l[i - 1] + 1);
    LayerStart(l, i) + j * (l[i - 1] + 1)
  }

  /** The incoming weights of neuron j of layer i. */
  function InitRow(l: seq<int>, draws: nat -> real, i: nat, j: nat): (row: seq<real>)
    requires ValidSizes(l) && 1 <= i < |l|
    ensures |row| == l[i - 1]
  {
    seq(l[i - 1], k requires 0 <= k => Scale(draws(RowStart(l, i, j) + 1 + k)))
  }

  function InitLayerWeights(l: seq<int>, draws: nat -> real, i: nat): (w: seq<seq<real>>)
    requires ValidSizes(l) && 1 <= i < |l|
    ensures IsMatrix(w, l[i], l[i - 1])
  {
    seq(l[i], j requires 0 <= j => InitRow(l, draws, i, j))
  }

  function InitLayerBias(l: seq<int>, draws: nat -> real, i: nat): (b: seq<real>)
    requires ValidSizes(l) && 1 <= i < |l|
    ensures |b| == l[i]
  {
    seq(l[i], j requires 0 <= j => Scale(draws(RowStart(l, i, j))))
  }

  /** Every layer as zeros. */
  function ZeroLayers(l: seq<int>): (z: seq<seq<real>>)
    requires ValidSizes(l)
    ensures |z| == |l| && forall i :: 0 <= i < |l| ==> z[i] == Zeros(l[i])
  {
    seq(|l|, i requires 0 <= i < |l| => Zeros(l[i]))
  }

  function InitWeights(l: seq<int>, draws: nat -> real): (w: seq<seq<seq<real>>>)
    requires ValidSizes(l)
    ensures |w| == |l| && w[0] == []
    ensures forall i :: 1 <= i < |l| ==> w[i] == InitLayerWeights(l, draws, i)
  {
    seq(|l|, i requires 0 <= i < |l| => if i == 0 then [] else InitLayerWeights(l, draws, i))
  }

  function InitBias(l: seq<int>, draws: nat -> real): (b: seq<seq<real>>)
    requires ValidSizes(l)
    ensures |b| == |l| && b[0] == Zeros(l[0])
    ensures forall i :: 1 <= i < |l| ==> b[i] == InitLayerBias(l, draws, i)
  {
    seq(|l|, i requires 0 <= i < |l| => if i == 0 then Zeros(l[0]) else InitLayerBias(l, draws, i))
  }

  /** The state the constructor builds. */
  function Init(l: seq<int>, draws: nat -> real): NetState
    requires ValidSizes(l)
  {
    NetState(l, InitWeights(l, draws), InitBias(l, draws), ZeroLayers(l), ZeroLayers(l))
  }

  /** The constructor sizes every buffer as the layer sizes say. */
  lemma InitShapes(l: seq<int>, draws: nat -> real)
    requires ValidSizes(l)
    ensures Init(l, draws).Valid()
  {
  }

  /** With draws in [0, 1] every weight and bias starts in [-1, 1]. */
  lemma InitRange(l: seq<int>, draws: nat -> real)
    requires ValidSizes(l) && forall p :: 0.0 <= draws(p) <= 1.0
    ensures forall i, j :: 0 <= i < |l| && 0 <= j < l[i] ==> -1.0 <= Init(l, draws).bias[i][j] <= 1.0
    ensures forall i, j, k :: 1 <= i < |l| && 0 <= j < l[i] && 0 <= k < l[i - 1] ==>
      -1.0 <= Init(l, draws).weights[i][j][k] <= 1.0
  {
    var s := Init(l, draws);
    forall i, j | 0 <= i < |l| && 0 <= j < l[i]
      ensures -1.0 <= s.bias[i][j] <= 1.0
    {
      if i > 0 {
        assert s.bias[i][j] == Scale(draws(RowStart(l, i, j)));
      }
    }
    forall i, j, k | 1 <= i < |l| && 0 <= j < l[i] && 0 <= k < l[i - 1]
      ensures -1.0 <= s.weights[i][j][k] <= 1.0
    {
      assert s.weights[i][j][k] == Scale(draws(RowStart(l, i, j) + 1 + k));
    }
  }

  /** Two distinct parameters never share a draw: the positions of layer i
      end where those of layer i + 1 begin. */
  lemma DrawsInOrder(l: seq<int>, i: nat, j: nat, k: nat)
    requires ValidSizes(l) && 1 <= i < |l| && j < l[i] && k < l[i - 1]
    ensures LayerStart(l, i) <= RowStart(l, i, j) < RowStart(l, i, j) + 1 + k < LayerStart(l, i + 1)
  {
    MulMono(j + 1, l[i], l[i - 1] + 1);
  }

  // ---------------------------------------------------------------------
  // forward
  // ---------------------------------------------------------------------

  /** The row j of w, or nothing past its end. */
  function RowAt(w: seq<seq<real>>, j: int): seq<real> {
    if 0 <= j < |w| then w[j] else []
  }

  /** row[0] * x[0] + ... + row[n - 1] * x[n - 1], from the front. */
  function RowSum(row: seq<real>, x: seq<real>, n: nat): real {
    if n == 0 then 0.0 else RowSum(row, x, n - 1) + At(row, n - 1) * At(x, n - 1)
  }

  /** The pre-activations `z[j] = bias[j] + sum_k w[j][k] * x[k]`. */
  function PreActivation(w: seq<seq<real>>, b: seq<real>, x: seq<real>): (z: seq<real>)
    ensures |z| == |b|
  {
    seq(|b|, j requires 0 <= j < |b| => b[j] + RowSum(RowAt(w, j), x, |x|))
  }

  /** The sigmoid of every entry. */
  function Sigmoids(act: Activation, z: seq<real>): (a: seq<real>)
    ensures |a| == |z|
  {
    seq(|z|, j requires 0 <= j < |z| => act.sigmoid(z[j]))
  }

  /** `softmax_vec`: empty for an empty vector; otherwise the exponentials
      of z - max, divided by their sum, or by 1 when that sum is not
      positive. */
  function SoftmaxVec(m: Math, z: seq<real>): (p: seq<real>)
    ensures |p| == |z|
  {
    if |z| == 0 then []
    else
      var e := Softmax.Exps(m, z, Softmax.SeqMax(z));
      var total := Sum(e);
      Softmax.Normalized(e, if total <= 0.0 then 1.0 else total)
  }

  /** The output of a layer from its pre-activations. */
  function LayerOutput(act: Activation, z: seq<real>, last: bool): (a: seq<real>)
    ensures |a| == |z|
  {
    if last then SoftmaxVec(act.math, z) else Sigmoids(act, z)
  }

  /** `outputs[0..k)` after `forward(x)`. */
  function Propagate(act: Activation, s: NetState, x: seq<real>, k: nat): (outs: seq<seq<real>>)
    requires s.Valid() && |x| == s.npl[0] && 1 <= k <= |s.npl|
    ensures |outs| == k && outs[0] == x
    ensures forall i :: 0 <= i < k ==> |outs[i]| == s.npl[i]
    decreases k
  {
    if k == 1 then [x]
    else
      var prev := Propagate(act, s, x, k - 1);
      prev + [LayerOutput(act, PreActivation(s.weights[k - 1], s.bias[k - 1], prev[k - 2]), k == |s.npl|)]
  }

  function ForwardSizeError(n: int, expected: int): string {
    "Forward Error : Input Size " + IntText(n) + "expected " + IntText(expected) + "\n"
  }

  /** `forward`: an input of the wrong size is refused; otherwise every
      layer's output is recomputed and the last one returned. */
  function ForwardStep(s: NetState, act: Activation, x: seq<real>): (NetState, Outcome<seq<real>>)
    requires s.Valid()
  {
    if |x| != s.npl[0] then (s, Err(ForwardSizeError(|x|, s.npl[0])))
    else
      var outs := Propagate(act, s, x, |s.npl|);
      (s.(outputs := outs), Ok(outs[s.Last()]))
  }

  /** With exp > 0, `softmax_vec` of a non-empty vector is a probability
      distribution; if the sum of the exponentials is not positive the
      exponentials are returned as they are. */
  lemma SoftmaxVecDistribution(m: Math, z: seq<real>)
    requires |z| > 0
    ensures var e := Softmax.Exps(m, z, Softmax.SeqMax(z));
      Sum(e) <= 0.0 ==> SoftmaxVec(m, z) == e
    ensures ExpPositive(m) ==> Sum(SoftmaxVec(m, z)) == 1.0 && forall i :: 0 <= i < |z| ==> SoftmaxVec(m, z)[i] > 0.0
  {
    var e := Softmax.Exps(m, z, Softmax.SeqMax(z));
    var total := Sum(e);
    if total <= 0.0 {
      assert SoftmaxVec(m, z) == e;
    }
    if ExpPositive(m) {
      Softmax.ExpSumPositive(m, z);
      Softmax.SumNormalized(e, total);
      assert SoftmaxVec(m, z) == Softmax.Normalized(e, total);
      assert Sum(e) / total == 1.0;
      forall i | 0 <= i < |z|
        ensures SoftmaxVec(m, z)[i] > 0.0
      {
        assert e[i] == m.exp(z[i] - Softmax.SeqMax(z)) > 0.0;
        assert SoftmaxVec(m, z)[i] == e[i] / total;
      }
    }
  }

  /** `forward` refuses exactly the inputs of the wrong size and changes
      only `outputs`. */
  lemma ForwardKeeps(s: NetState, act: Activation, x: seq<real>)
    requires s.Valid()
    ensures var (s1, r) := ForwardStep(s, act, x);
      s1.Valid() && s1.npl == s.npl && s1.weights == s.weights && s1.bias == s.bias && s1.backprop == s.backprop
      && (r.Err? <==> |x| != s.npl[0])
  {
  }

  /** After `forward` the first output is the input, each later layer is
      its activation of `bias + weights * previous`, and the result is the
      last layer's output, of the output layer's size. */
  lemma ForwardOutputs(s: NetState, act: Activation, x: seq<real>)
    requires s.Valid() && |x| == s.npl[0]
    ensures var (s1, r) := ForwardStep(s, act, x);
      r.Ok? && |r.value| == s.npl[s.Last()] && r.value == s1.outputs[s.Last()] && s1.outputs[0] == x
      && forall i :: 1 <= i < |s.npl| ==>
           s1.outputs[i] == LayerOutput(act, PreActivation(s.weights[i], s.bias[i], s1.outputs[i - 1]), i == s.Last())
  {
    var n := |s.npl|;
    forall i | 1 <= i < n
      ensures Propagate(act, s, x, n)[i]
        == LayerOutput(act, PreActivation(s.weights[i], s.bias[i], Propagate(act, s, x, n)[i - 1]), i == s.Last())
    {
      PropagatePrefix(act, s, x, i + 1, n);
      PropagatePrefix(act, s, x, i, n);
    }
  }

  /** A shorter propagation is a prefix of a longer one. */
  lemma {:induction false} PropagatePrefix(act: Activation, s: NetState, x: seq<real>, k: nat, n: nat)
    requires s.Valid() && |x| == s.npl[0] && 1 <= k <= n <= |s.npl|
    ensures Propagate(act, s, x, k) == Propagate(act, s, x, n)[..k]
    decreases n - k
  {
    if k < n {
      PropagatePrefix(act, s, x, k, n - 1);
      assert Propagate(act, s, x, n)[..n - 1] == Propagate(act, s, x, n - 1);
      assert Propagate(act, s, x, n)[..n - 1][..k] == Propagate(act, s, x, n)[..k];
    }
  }

  /** With exp > 0 the network's answer is a probability distribution over
      the output neurons. */
  lemma ForwardIsDistribution(s: NetState, act: Activation, x: seq<real>)
    requires s.Valid() && |x| == s.npl[0] && ExpPositive(act.math)
    ensures ForwardStep(s, act, x).1.Ok? && Sum(ForwardStep(s, act, x).1.value) == 1.0
  {
    var n := |s.npl|;
    var prev := Propagate(act, s, x, n - 1);
    var z := PreActivation(s.weights[n - 1], s.bias[n - 1], prev[n - 2]);
    assert Propagate(act, s, x, n)[n - 1] == SoftmaxVec(act.math, z);
    SoftmaxVecDistribution(act.math, z);
  }

  // ---------------------------------------------------------------------
  // training
  // ---------------------------------------------------------------------

  /** `sigmoid_derivative(a) = a * (1 - a)` for a sigmoid output a. */
  function SigmoidDerivative(a: real): real {
    a * (1.0 - a)
  }

  /** For an activation in [0, 1] the derivative lies in [0, 1/4]. */
  lemma SigmoidDerivativeRange(a: real)
    requires 0.0 <= a <= 1.0
    ensures 0.0 <= SigmoidDerivative(a) <= 0.25
  {
    assert SigmoidDerivative(a) == 0.25 - (a - 0.5) * (a - 0.5);
    assert (a - 0.5) * (a - 0.5) >= 0.0;
    assert a * (1.0 - a) >= 0.0 * (1.0 - a);
  }

  /** The output layer's delta `target - output`. */
  function OutputDelta(t: seq<real>, o: seq<real>): (d: seq<real>)
    ensures |d| == |o|
  {
    seq(|o|, j requires 0 <= j < |o| => At(t, j) - o[j])
  }

  /** w[0][j] * d[0] + ... + w[n - 1][j] * d[n - 1]: the deltas of the next
      layer weighted by the connections leaving neuron j. */
  function ColumnSum(w: seq<seq<real>>, d: seq<real>, j: int, n: nat): real {
    if n == 0 then 0.0 else ColumnSum(w, d, j, n - 1) + At(RowAt(w, n - 1), j) * At(d, n - 1)
  }

  /** A hidden layer's delta from the next layer's weights and delta. */
  function HiddenDelta(wNext: seq<seq<real>>, dNext: seq<real>, a: seq<real>): (d: seq<real>)
    ensures |d| == |a|
  {
    seq(|a|, j requires 0 <= j < |a| => ColumnSum(wNext, dNext, j, |dNext|) * SigmoidDerivative(a[j]))
  }

  /** The delta of layer i (1 <= i), computed from the output layer down. */
  function DeltaAt(s: NetState, t: seq<real>, i: nat): (d: seq<real>)
    requires s.Valid() && 1 <= i < |s.npl|
    ensures |d| == s.npl[i]
    decreases |s.npl| - i
  {
    if i == s.Last() then OutputDelta(t, s.outputs[i])
    else HiddenDelta(s.weights[i + 1], DeltaAt(s, t, i + 1), s.outputs[i])
  }

  /** `backprop` after training: layer 0 is never written. */
  function Deltas(s: NetState, t: seq<real>): (d: seq<seq<real>>)
    requires s.Valid()
    ensures |d| == |s.npl| && d[0] == s.backprop[0]
    ensures forall i :: 0 <= i < |s.npl| ==> |d[i]| == s.npl[i]
    ensures forall i :: 1 <= i < |s.npl| ==> d[i] == DeltaAt(s, t, i)
  {
    seq(|s.npl|, i requires 0 <= i < |s.npl| => if i == 0 then s.backprop[0] else DeltaAt(s, t, i))
  }

  /** After `forward`, every hidden layer's output is a sigmoid value and
      so lies in [0, 1]. */
  lemma HiddenOutputsInUnit(s: NetState, act: Activation, x: seq<real>)
    requires s.Valid() && |x| == s.npl[0] && SigmoidInUnit(act)
    ensures var s1 := ForwardStep(s, act, x).0;
      forall i, j :: 1 <= i < s.Last() && 0 <= j < s.npl[i] ==> 0.0 <= s1.outputs[i][j] <= 1.0
  {
    ForwardOutputs(s, act, x);
    var s1 := ForwardStep(s, act, x).0;
    forall i, j | 1 <= i < s.Last() && 0 <= j < s.npl[i]
      ensures 0.0 <= s1.outputs[i][j] <= 1.0
    {
      var z := PreActivation(s.weights[i], s.bias[i], s1.outputs[i - 1]);
      assert s1.outputs[i] == Sigmoids(act, z);
      assert s1.outputs[i][j] == act.sigmoid(z[j]);
    }
  }

  /** For outputs in [0, 1], a hidden delta has the sign of its
      back-propagated sum c and lies between 0 and c / 4. */
  lemma HiddenDeltaBounded(wNext: seq<seq<real>>, dNext: seq<real>, a: seq<real>)
    requires forall j :: 0 <= j < |a| ==> 0.0 <= a[j] <= 1.0
    ensures forall j :: 0 <= j < |a| ==>
      var c := ColumnSum(wNext, dNext, j, |dNext|);
      (c >= 0.0 ==> 0.0 <= HiddenDelta(wNext, dNext, a)[j] <= c / 4.0)
      && (c <= 0.0 ==> c / 4.0 <= HiddenDelta(wNext, dNext, a)[j] <= 0.0)
  {
    forall j | 0 <= j < |a|
      ensures var c := ColumnSum(wNext, dNext, j, |dNext|);
        (c >= 0.0 ==> 0.0 <= HiddenDelta(wNext, dNext, a)[j] <= c / 4.0)
        && (c <= 0.0 ==> c / 4.0 <= HiddenDelta(wNext, dNext, a)[j] <= 0.0)
    {
      var c := ColumnSum(wNext, dNext, j, |dNext|);
      var g := SigmoidDerivative(a[j]);
      SigmoidDerivativeRange(a[j]);
      assert HiddenDelta(wNext, dNext, a)[j] == c * g;
      if c >= 0.0 {
        assert c * g <= c * 0.25;
      } else {
        assert c * g >= c * 0.25;
      }
    }
  }

  /** The deltas `training` computes after its forward pass: every hidden
      delta has the sign of the sum propagated back to it from the next
      layer, and at most a quarter of its magnitude. */
  lemma TrainingHiddenDeltas(s: NetState, act: Activation, x: seq<real>, t: seq<real>)
    requires s.Valid() && |x| == s.npl[0] && SigmoidInUnit(act)
    ensures var s1 := ForwardStep(s, act, x).0;
      forall i, j :: 1 <= i < s.Last() && 0 <= j < s.npl[i] ==>
        var c := ColumnSum(s.weights[i + 1], Deltas(s1, t)[i + 1], j, s.npl[i + 1]);
        (c >= 0.0 ==> 0.0 <= Deltas(s1, t)[i][j] <= c / 4.0)
        && (c <= 0.0 ==> c / 4.0 <= Deltas(s1, t)[i][j] <= 0.0)
  {
    ForwardKeeps(s, act, x);
    HiddenOutputsInUnit(s, act, x);
    var s1 := ForwardStep(s, act, x).0;
    forall i | 1 <= i < s.Last()
      ensures forall j :: 0 <= j < s.npl[i] ==>
        var c := ColumnSum(s.weights[i + 1], Deltas(s1, t)[i + 1], j, s.npl[i + 1]);
        (c >= 0.0 ==> 0.0 <= Deltas(s1, t)[i][j] <= c / 4.0)
        && (c <= 0.0 ==> c / 4.0 <= Deltas(s1, t)[i][j] <= 0.0)
    {
      assert Deltas(s1, t)[i] == HiddenDelta(s.weights[i + 1], Deltas(s1, t)[i + 1], s1.outputs[i]);
      HiddenDeltaBounded(s.weights[i + 1], Deltas(s1, t)[i + 1], s1.outputs[i]);
    }
  }

  /** `bias += lr * delta` for one layer. */
  function StepBias(b: seq<real>, d: seq<real>, lr: real): (r: seq<real>)
    ensures |r| == |b|
  {
    seq(|b|, j requires 0 <= j < |b| => b[j] + lr * At(d, j))
  }

  /** `weight += lr * out_prev * delta` for the row of one neuron. */
  function StepRow(row: seq<real>, prev: seq<real>, dj: real, lr: real): (r: seq<real>)
    ensures |r| == |row|
  {
    seq(|row|, k requires 0 <= k < |row| => row[k] + lr * At(prev, k) * dj)
  }

  function StepLayer(w: seq<seq<real>>, prev: seq<real>, d: seq<real>, lr: real): (r: seq<seq<real>>)
    ensures |r| == |w|
  {
    seq(|w|, j requires 0 <= j < |w| => StepRow(w[j], prev, At(d, j), lr))
  }

  /** The update of every layer from 1 on. */
  function UpdateWeights(s: NetState, d: seq<seq<real>>, lr: real): (w: seq<seq<seq<real>>>)
    requires s.Valid() && |d| == |s.npl|
    ensures |w| == |s.weights| && w[0] == s.weights[0]
    ensures forall i :: 1 <= i < |s.npl| ==> IsMatrix(w[i], s.npl[i], s.npl[i - 1])
  {
    seq(|s.npl|, i requires 0 <= i < |s.npl| =>
      if i == 0 then s.weights[0] else StepLayer(s.weights[i], s.outputs[i - 1], d[i], lr))
  }

  function UpdateBias(s: NetState, d: seq<seq<real>>, lr: real): (b: seq<seq<real>>)
    requires s.Valid() && |d| == |s.npl|
    ensures |b| == |s.bias| && b[0] == s.bias[0]
    ensures forall i :: 0 <= i < |s.npl| ==> |b[i]| == s.npl[i]
  {
    seq(|s.npl|, i requires 0 <= i < |s.npl| => if i == 0 then s.bias[0] else StepBias(s.bias[i], d[i], lr))
  }

  function InputSizeError(n: int, expected: int): string {
    "Training Error : Input Size " + IntText(n) + "expected " + IntText(expected) + "\n"
  }

  function TargetSizeError(n: int, expected: int): string {
    "Training Error : Target Size " + IntText(n) + "expected " + IntText(expected) + "\n"
  }

  /** `training`: both sizes are checked before anything changes; then a
      forward pass, the deltas from the output layer down, and one update
      of every weight and bias. */
  function TrainStep(s: NetState, act: Activation, x: seq<real>, t: seq<real>, lr: real): (NetState, Outcome<()>)
    requires s.Valid()
  {
    if |x| != s.npl[0] then (s, Err(InputSizeError(|x|, s.npl[0])))
    else if |t| != s.npl[s.Last()] then (s, Err(TargetSizeError(|t|, s.npl[s.Last()])))
    else (Learn(ForwardStep(s, act, x).0, t, lr), Ok(()))
  }

  /** The backward pass and the update after the forward pass. */
  function Learn(s1: NetState, t: seq<real>, lr: real): (s2: NetState)
    requires s1.Valid()
    ensures s2.Valid() && s2.npl == s1.npl && s2.outputs == s1.outputs
  {
    var d := Deltas(s1, t);
    s1.(backprop := d, weights := UpdateWeights(s1, d, lr), bias := UpdateBias(s1, d, lr))
  }

  /** Training refuses exactly the wrong sizes, and keeps every shape. */
  lemma TrainShapes(s: NetState, act: Activation, x: seq<real>, t: seq<real>, lr: real)
    requires s.Valid()
    ensures TrainStep(s, act, x, t, lr).0.Valid()
    ensures TrainStep(s, act, x, t, lr).1.Err? <==> |x| != s.npl[0] || |t| != s.npl[s.Last()]
    ensures TrainStep(s, act, x, t, lr).1.Err? ==> TrainStep(s, act, x, t, lr).0 == s
  {
    ForwardKeeps(s, act, x);
  }

  /** The weights and biases after a successful training step. */
  predicate ParametersKept(s: NetState, s1: NetState) {
    s1.weights == s.weights && s1.bias == s.bias
  }

  /** Deltas that are zero from layer 1 on, or a zero rate, change no
      weight and no bias. */
  lemma NoStepKeepsParameters(s1: NetState, d: seq<seq<real>>, lr: real)
    requires s1.Valid() && |d| == |s1.npl|
    requires lr == 0.0 || forall i, j :: 1 <= i < |d| && 0 <= j < s1.npl[i] ==> At(d[i], j) == 0.0
    ensures UpdateWeights(s1, d, lr) == s1.weights && UpdateBias(s1, d, lr) == s1.bias
  {
    forall i | 1 <= i < |s1.npl|
      ensures UpdateWeights(s1, d, lr)[i] == s1.weights[i] && UpdateBias(s1, d, lr)[i] == s1.bias[i]
    {
      StillLayer(s1.weights[i], s1.bias[i], s1.outputs[i - 1], d[i], lr);
    }
  }

  /** A layer whose step is zero keeps its weights and biases. */
  lemma StillLayer(w: seq<seq<real>>, b: seq<real>, prev: seq<real>, d: seq<real>, lr: real)
    requires |b| == |w| && (lr == 0.0 || forall j :: 0 <= j < |w| ==> At(d, j) == 0.0)
    ensures StepLayer(w, prev, d, lr) == w && StepBias(b, d, lr) == b
  {
    forall j | 0 <= j < |w|
      ensures StepLayer(w, prev, d, lr)[j] == w[j] && StepBias(b, d, lr)[j] == b[j]
    {
      StillRow(w[j], prev, At(d, j), lr);
    }
  }

  lemma StillRow(row: seq<real>, prev: seq<real>, dj: real, lr: real)
    requires lr == 0.0 || dj == 0.0
    ensures StepRow(row, prev, dj, lr) == row
  {
    forall k | 0 <= k < |row|
      ensures StepRow(row, prev, dj, lr)[k] == row[k]
    {
      if lr == 0.0 {
        assert lr * At(prev, k) == 0.0;
      }
    }
  }

  /** A zero learning rate trains nothing: weights and biases stay. */
  lemma ZeroRateKeepsParameters(s: NetState, act: Activation, x: seq<real>, t: seq<real>)
    requires s.Valid()
    ensures ParametersKept(s, TrainStep(s, act, x, t, 0.0).0)
  {
    if |x| == s.npl[0] && |t| == s.npl[s.Last()] {
      ForwardKeeps(s, act, x);
      var s1 := ForwardStep(s, act, x).0;
      NoStepKeepsParameters(s1, Deltas(s1, t), 0.0);
    }
  }

  /** The weighted sum of zero deltas is zero. */
  lemma {:induction false} ColumnSumOfZeros(w: seq<seq<real>>, d: seq<real>, j: int, n: nat)
    requires forall k :: 0 <= k < |d| ==> d[k] == 0.0
    ensures ColumnSum(w, d, j, n) == 0.0
  {
    if n > 0 {
      ColumnSumOfZeros(w, d, j, n - 1);
    }
  }

  /** When the output already equals the target every delta is zero. */
  lemma {:induction false} DeltasVanish(s: NetState, t: seq<real>, i: nat)
    requires s.Valid() && 1 <= i < |s.npl| && t == s.outputs[s.Last()]
    ensures forall j :: 0 <= j < s.npl[i] ==> DeltaAt(s, t, i)[j] == 0.0
    decreases |s.npl| - i
  {
    if i < s.Last() {
      DeltasVanish(s, t, i + 1);
      forall j | 0 <= j < s.npl[i]
        ensures DeltaAt(s, t, i)[j] == 0.0
      {
        ColumnSumOfZeros(s.weights[i + 1], DeltaAt(s, t, i + 1), j, s.npl[i + 1]);
      }
    }
  }

  /** A sample the network already answers exactly leaves every weight and
      bias where it was. */
  lemma ExactAnswerKeepsParameters(s: NetState, act: Activation, x: seq<real>, t: seq<real>, lr: real)
    requires s.Valid() && ForwardStep(s, act, x).1 == Ok(t)
    ensures TrainStep(s, act, x, t, lr).1.Ok?
    ensures ParametersKept(s, TrainStep(s, act, x, t, lr).0)
  {
    ForwardKeeps(s, act, x);
    ForwardOutputs(s, act, x);
    var s1 := ForwardStep(s, act, x).0;
    var d := Deltas(s1, t);
    forall i, j | 1 <= i < |d| && 0 <= j < s1.npl[i]
      ensures At(d[i], j) == 0.0
    {
      DeltasVanish(s1, t, i);
    }
    NoStepKeepsParameters(s1, d, lr);
  }

  lemma LearnBias(s1: NetState, t: seq<real>, lr: real)
    requires s1.Valid()
    ensures Learn(s1, t, lr).bias == UpdateBias(s1, Deltas(s1, t), lr)
  {
  }

  lemma BiasEntry(b: seq<real>, row: seq<real>, lr: real, j: nat)
    requires j < |b|
    ensures StepBias(b, row, lr)[j] == b[j] + lr * At(row, j)
  {
  }

  lemma BiasLayer(s1: NetState, d: seq<seq<real>>, lr: real, L: nat)
    requires s1.Valid() && |d| == |s1.npl| && 1 <= L < |d|
    ensures UpdateBias(s1, d, lr)[L] == StepBias(s1.bias[L], d[L], lr)
  {
  }

  lemma OutputDeltaEntry(s1: NetState, t: seq<real>, j: nat)
    requires s1.Valid() && |t| == s1.npl[s1.Last()] && j < |t|
    ensures Deltas(s1, t)[s1.Last()] == OutputDelta(t, s1.outputs[s1.Last()])
    ensures At(Deltas(s1, t)[s1.Last()], j) == t[j] - s1.outputs[s1.Last()][j]
  {
  }

  /** Bias j of the output layer takes one step of size lr along its delta. */
  lemma OutputBiasStep(s1: NetState, d: seq<seq<real>>, lr: real, j: nat)
    requires s1.Valid() && |d| == |s1.npl| && j < |s1.bias[s1.Last()]|
    ensures UpdateBias(s1, d, lr)[s1.Last()][j] == s1.bias[s1.Last()][j] + lr * At(d[s1.Last()], j)
  {
    var L := s1.Last();
    BiasLayer(s1, d, lr, L);
    BiasEntry(s1.bias[L], d[L], lr, j);
  }

  lemma LearnBiasEntry(s1: NetState, t: seq<real>, lr: real, j: nat)
    requires s1.Valid() && |t| == s1.npl[s1.Last()] && j < |t|
    ensures Learn(s1, t, lr).bias[s1.Last()][j] == UpdateBias(s1, Deltas(s1, t), lr)[s1.Last()][j]
  {
    LearnBias(s1, t, lr);
  }

  /** -1, 0 or 1 as x is negative, zero or positive. */
  function Sign(x: real): int {
    if x > 0.0 then 1 else if x < 0.0 then -1 else 0
  }

  /** A step x = b + lr * delta with lr > 0 moves b the way delta points. */
  lemma StepSign(x: real, b: real, lr: real, delta: real)
    requires lr > 0.0 && x == b + lr * delta
    ensures Sign(x - b) == Sign(delta)
  {
    if delta > 0.0 {
      assert lr * delta > 0.0;
    } else if delta < 0.0 {
      assert lr * (-delta) > 0.0;
    }
  }

  /** Any output delta equal to target - output moves the output bias
      towards the target. */
  lemma BiasSignAt(s1: NetState, d: seq<seq<real>>, t: seq<real>, lr: real, j: nat)
    requires s1.Valid() && |d| == |s1.npl| && |t| == s1.npl[s1.Last()] && j < |t| && lr > 0.0
    requires At(d[s1.Last()], j) == t[j] - s1.outputs[s1.Last()][j]
    ensures Sign(UpdateBias(s1, d, lr)[s1.Last()][j] - s1.bias[s1.Last()][j]) == Sign(t[j] - s1.outputs[s1.Last()][j])
  {
    OutputBiasStep(s1, d, lr, j);
    StepSign(UpdateBias(s1, d, lr)[s1.Last()][j], s1.bias[s1.Last()][j], lr, At(d[s1.Last()], j));
  }

  /** With a positive learning rate each output bias moves towards the
      target: up when the output is below it, down when above, and not at
      all when it is met. */
  lemma OutputBiasTowardTarget(s1: NetState, t: seq<real>, lr: real, j: nat)
    requires s1.Valid() && |t| == s1.npl[s1.Last()] && lr > 0.0 && j < |t|
    ensures Sign(Learn(s1, t, lr).bias[s1.Last()][j] - s1.bias[s1.Last()][j]) == Sign(t[j] - s1.outputs[s1.Last()][j])
  {
    LearnBiasEntry(s1, t, lr, j);
    OutputDeltaEntry(s1, t, j);
    BiasSignAt(s1, Deltas(s1, t), t, lr, j);
  }

  // ---------------------------------------------------------------------
  // The loops
  // ---------------------------------------------------------------------

  /** The draws from position p0 of a stream on. */
  function Offset(stream: nat -> real, p0: nat): nat -> real {
    (k: nat) => stream(p0 + k)
  }

  /** One neuron of the constructor: its bias, then one weight per neuron
      of the previous layer, each a fresh draw. */
  method InitRowLoop(l: seq<int>, i: nat, j: nat, rng: Rng, ghost p0: nat) returns (row: seq<real>, bj: real)
    requires ValidSizes(l) && 1 <= i < |l| && j < l[i] && rng.pos == p0 + RowStart(l, i, j)
    modifies rng
    ensures rng.pos == p0 + RowStart(l, i, j) + 1 + l[i - 1]
    ensures bj == Scale(rng.stream(p0 + RowStart(l, i, j)))
    ensures row == InitRow(l, Offset(rng.stream, p0), i, j)
  {
    row := Zeros(l[i - 1]);
    var d := rng.Next();
    bj := (d - 0.5) * 2.0;
    var k := 0;
    while k < l[i - 1]
      invariant 0 <= k <= l[i - 1] && |row| == l[i - 1]
      invariant rng.pos == p0 + RowStart(l, i, j) + 1 + k
      invariant forall r :: 0 <= r < k ==> row[r] == InitRow(l, Offset(rng.stream, p0), i, j)[r]
    {
      d := rng.Next();
      row := row[k := (d - 0.5) * 2.0];
      assert row[k] == Scale(Offset(rng.stream, p0)(RowStart(l, i, j) + 1 + k));
      k := k + 1;
    }
  }

  /** The weights and biases of layer i, neuron by neuron. */
  method InitLayerLoop(l: seq<int>, i: nat, rng: Rng, ghost p0: nat, b0: seq<real>)
    returns (w: seq<seq<real>>, b: seq<real>)
    requires ValidSizes(l) && 1 <= i < |l| && rng.pos == p0 + LayerStart(l, i) && |b0| == l[i]
    modifies rng
    ensures rng.pos == p0 + LayerStart(l, i + 1)
    ensures w == InitLayerWeights(l, Offset(rng.stream, p0), i)
    ensures b == InitLayerBias(l, Offset(rng.stream, p0), i)
  {
    w := seq(l[i], j => []);
    b := b0;
    var j := 0;
    while j < l[i]
      invariant 0 <= j <= l[i] && |w| == l[i] && |b| == l[i]
      invariant rng.pos == p0 + RowStart(l, i, j)
      invariant forall r :: 0 <= r < j ==> w[r] == InitLayerWeights(l, Offset(rng.stream, p0), i)[r]
      invariant forall r :: 0 <= r < j ==> b[r] == InitLayerBias(l, Offset(rng.stream, p0), i)[r]
    {
      var row, bj := InitRowLoop(l, i, j, rng, p0);
      w := w[j := row];
      b := b[j := bj];
      MulSucc(j, l[i - 1] + 1);
      j := j + 1;
    }
  }

  /** The pre-activations of one layer: for each neuron a running `sum`
      that starts at the bias. */
  method PreActivationLoop(w: seq<seq<real>>, b: seq<real>, x: seq<real>) returns (z: seq<real>)
    requires IsMatrix(w, |b|, |x|)
    ensures z == PreActivation(w, b, x)
  {
    z := Zeros(|b|);
    var j := 0;
    while j < |b|
      invariant 0 <= j <= |b| && |z| == |b|
      invariant forall r :: 0 <= r < j ==> z[r] == PreActivation(w, b, x)[r]
    {
      var sum := b[j];
      var k := 0;
      while k < |x|
        invariant 0 <= k <= |x|
        invariant sum == b[j] + RowSum(w[j], x, k)
      {
        sum := sum + w[j][k] * x[k];
        k := k + 1;
      }
      assert RowAt(w, j) == w[j];
      z := z[j := sum];
      j := j + 1;
    }
  }

  /** `outputs[i][j] = sigmoid(z[j])`, written over the old outputs. */
  method SigmoidLoop(act: Activation, z: seq<real>, out0: seq<real>) returns (a: seq<real>)
    requires |out0| == |z|
    ensures a == Sigmoids(act, z)
  {
    a := out0;
    var j := 0;
    while j < |z|
      invariant 0 <= j <= |z| && |a| == |z|
      invariant forall r :: 0 <= r < j ==> a[r] == act.sigmoid(z[r])
    {
      a := a[j := act.sigmoid(z[j])];
      j := j + 1;
    }
  }

  /** `softmax_vec`: the shifted exponentials and their sum in one loop,
      then the division. */
  method SoftmaxVecLoop(m: Math, z: seq<real>) returns (p: seq<real>)
    ensures p == SoftmaxVec(m, z)
  {
    p := Zeros(|z|);
    if |z| == 0 {
      return;
    }
    var mx := Softmax.SeqMax(z);
    var sum;
    p, sum := Softmax.ExpLoop(m, z, mx, p);
    if sum <= 0.0 {
      sum := 1.0;
    }
    p := Softmax.DivideLoop(p, sum);
  }

  /** The output layer's delta `target[j] - outputs[j]`. */
  method OutputDeltaLoop(t: seq<real>, o: seq<real>, d0: seq<real>) returns (d: seq<real>)
    requires |t| == |o| == |d0|
    ensures d == OutputDelta(t, o)
  {
    d := d0;
    var j := 0;
    while j < |o|
      invariant 0 <= j <= |o| && |d| == |o|
      invariant forall r :: 0 <= r < j ==> d[r] == t[r] - o[r]
    {
      d := d[j := t[j] - o[j]];
      j := j + 1;
    }
  }

  /** A hidden layer's delta: for each neuron the running `sum` of the next
      layer's deltas through its outgoing weights, times the sigmoid
      derivative at its output. */
  method HiddenDeltaLoop(wNext: seq<seq<real>>, dNext: seq<real>, a: seq<real>, d0: seq<real>) returns (d: seq<real>)
    requires IsMatrix(wNext, |dNext|, |a|) && |d0| == |a|
    ensures d == HiddenDelta(wNext, dNext, a)
  {
    d := d0;
    var j := 0;
    while j < |a|
      invariant 0 <= j <= |a| && |d| == |a|
      invariant forall r :: 0 <= r < j ==> d[r] == HiddenDelta(wNext, dNext, a)[r]
    {
      var sum := 0.0;
      var k := 0;
      while k < |dNext|
        invariant 0 <= k <= |dNext|
        invariant sum == ColumnSum(wNext, dNext, j, k)
      {
        assert RowAt(wNext, k) == wNext[k];
        sum := sum + wNext[k][j] * dNext[k];
        k := k + 1;
      }
      d := d[j := sum * SigmoidDerivative(a[j])];
      j := j + 1;
    }
  }

  /** `weights[j][k] += lr * prev[k] * delta[j]` along one row. */
  method StepRowLoop(row0: seq<real>, prev: seq<real>, dj: real, lr: real) returns (row: seq<real>)
    requires |row0| == |prev|
    ensures row == StepRow(row0, prev, dj, lr)
  {
    row := row0;
    var k := 0;
    while k < |prev|
      invariant 0 <= k <= |prev| && |row| == |prev|
      invariant forall c :: 0 <= c < k ==> row[c] == row0[c] + lr * prev[c] * dj
      invariant forall c :: k <= c < |prev| ==> row[c] == row0[c]
    {
      row := row[k := row[k] + lr * prev[k] * dj];
      k := k + 1;
    }
    forall c | 0 <= c < |row|
      ensures row[c] == StepRow(row0, prev, dj, lr)[c]
    {
      assert At(prev, c) == prev[c];
    }
  }

  /** The layer loop of the update in `training`: layer i's weights and
      biases move along the deltas of layer i and the outputs of layer i - 1. */
  method UpdateLayers(s: NetState, lr: real) returns (ws: seq<seq<seq<real>>>, bs: seq<seq<real>>)
    requires s.Valid()
    ensures ws == UpdateWeights(s, s.backprop, lr) && bs == UpdateBias(s, s.backprop, lr)
  {
    ws, bs := s.weights, s.bias;
    var i := 1;
    while i < |s.npl|
      invariant 1 <= i <= |s.npl| && |ws| == |s.npl| && |bs| == |s.npl| && ws[0] == s.weights[0] && bs[0] == s.bias[0]
      invariant forall r :: 1 <= r < i ==>
        ws[r] == UpdateWeights(s, s.backprop, lr)[r] && bs[r] == UpdateBias(s, s.backprop, lr)[r]
      invariant forall r :: i <= r < |s.npl| ==> ws[r] == s.weights[r] && bs[r] == s.bias[r]
    {
      var wi, bi := UpdateLayerLoop(ws[i], bs[i], s.outputs[i - 1], s.backprop[i], lr);
      ws := ws[i := wi];
      bs := bs[i := bi];
      i := i + 1;
    }
    assert ws == UpdateWeights(s, s.backprop, lr);
    assert bs == UpdateBias(s, s.backprop, lr);
  }

  /** The update of one layer: `bias[j] += lr * delta[j]`, then
      `weights[j][k] += lr * prev[k] * delta[j]`. */
  method UpdateLayerLoop(w0: seq<seq<real>>, b0: seq<real>, prev: seq<real>, d: seq<real>, lr: real)
    returns (w: seq<seq<real>>, b: seq<real>)
    requires IsMatrix(w0, |b0|, |prev|) && |d| == |b0|
    ensures w == StepLayer(w0, prev, d, lr) && b == StepBias(b0, d, lr)
  {
    w, b := w0, b0;
    var j := 0;
    while j < |b0|
      invariant 0 <= j <= |b0| && |w| == |b0| && |b| == |b0|
      invariant forall r :: 0 <= r < j ==> w[r] == StepLayer(w0, prev, d, lr)[r] && b[r] == StepBias(b0, d, lr)[r]
      invariant forall r :: j <= r < |b0| ==> w[r] == w0[r] && b[r] == b0[r]
    {
      b := b[j := b[j] + lr * d[j]];
      var row := StepRowLoop(w[j], prev, d[j], lr);
      w := w[j := row];
      j := j + 1;
    }
  }

  /** The first loop of the constructor: `bias`, `outputs` and `backprop`
      get one zero per neuron in every layer. */
  method ZeroLoop(l: seq<int>) returns (b: seq<seq<real>>, o: seq<seq<real>>, bp: seq<seq<real>>)
    requires ValidSizes(l)
    ensures b == ZeroLayers(l) && o == ZeroLayers(l) && bp == ZeroLayers(l)
  {
    var n := |l|;
    b := seq(n, i => []);
    o := seq(n, i => []);
    bp := seq(n, i => []);
    var i := 0;
    while i < n
      invariant 0 <= i <= n && |b| == n && |o| == n && |bp| == n
      invariant forall r :: 0 <= r < i ==> b[r] == Zeros(l[r]) && o[r] == Zeros(l[r]) && bp[r] == Zeros(l[r])
    {
      b := b[i := Zeros(l[i])];
      o := o[i := Zeros(l[i])];
      bp := bp[i := Zeros(l[i])];
      i := i + 1;
    }
  }

  /** The second loop of the constructor: the weights and the biases of
      every layer from 1 on. */
  method InitLoop(l: seq<int>, rng: Rng, b0: seq<seq<real>>) returns (w: seq<seq<seq<real>>>, b: seq<seq<real>>)
    requires ValidSizes(l) && b0 == ZeroLayers(l)
    modifies rng
    ensures rng.pos == old(rng.pos) + LayerStart(l, |l|)
    ensures w == InitWeights(l, Offset(rng.stream, old(rng.pos)))
    ensures b == InitBias(l, Offset(rng.stream, old(rng.pos)))
  {
    var n := |l|;
    ghost var p0 := rng.pos;
    w := seq(n, i => []);
    b := b0;
    var i := 1;
    while i < n
      invariant 1 <= i <= n && |w| == n && |b| == n && w[0] == [] && b[0] == Zeros(l[0])
      invariant rng.pos == p0 + LayerStart(l, i)
      invariant forall r :: 1 <= r < i ==>
        w[r] == InitLayerWeights(l, Offset(rng.stream, p0), r) && b[r] == InitLayerBias(l, Offset(rng.stream, p0), r)
      invariant forall r :: i <= r < n ==> b[r] == Zeros(l[r])
    {
      var wi, bi := InitLayerLoop(l, i, rng, p0, b[i]);
      w := w[i := wi];
      b := b[i := bi];
      i := i + 1;
    }
    assert w == InitWeights(l, Offset(rng.stream, p0));
    assert b == InitBias(l, Offset(rng.stream, p0));
  }

  // ---------------------------------------------------------------------
  // The network object
  // ---------------------------------------------------------------------

  class NN {
    const npl: seq<int>
    /** `sigmoid` and `std::exp`. */
    const act: Activation
    var weights: seq<seq<seq<real>>>
    var bias: seq<seq<real>>
    var outputs: seq<seq<real>>
    var backprop: seq<seq<real>>

    function State(): NetState
      reads this
    {
      NetState(npl, weights, bias, outputs, backprop)
    }

    ghost predicate Valid()
      reads this
    {
      State().Valid()
    }

    /** `_NN_(l)` for layer sizes it accepts: zeroed buffers, then one draw
        per bias and weight, layer by layer. */
    constructor (l: seq<int>, act: Activation, rng: Rng)
      requires ValidSizes(l)
      modifies rng
      ensures Valid() && State() == Init(l, Offset(rng.stream, old(rng.pos))) && this.act == act
      ensures rng.pos == old(rng.pos) + LayerStart(l, |l|)
    {
      var b, o, bp := ZeroLoop(l);
      var w;
      w, b := InitLoop(l, rng, b);
      npl := l;
      this.act := act;
      weights := w;
      bias := b;
      outputs := o;
      backprop := bp;
    }

    /** `forward(input)`: the size check, then each layer from the output
        of the one before. */
    method Forward(input: seq<real>) returns (r: Outcome<seq<real>>)
      requires Valid()
      modifies this
      ensures Valid()
      ensures (State(), r) == ForwardStep(old(State()), act, input)
    {
      if |input| != npl[0] {
        return Err(ForwardSizeError(|input|, npl[0]));
      }
      ghost var s := State();
      outputs := outputs[0 := input];
      var i := 1;
      while i < |npl|
        invariant 1 <= i <= |npl| && |outputs| == |npl|
        invariant weights == s.weights && bias == s.bias && backprop == s.backprop
        invariant outputs[..i] == Propagate(act, s, input, i)
        invariant forall r :: i <= r < |npl| ==> |outputs[r]| == npl[r]
      {
        var z := PreActivationLoop(weights[i], bias[i], outputs[i - 1]);
        var a;
        if i < |npl| - 1 {
          a := SigmoidLoop(act, z, outputs[i]);
        } else {
          a := SoftmaxVecLoop(act.math, z);
        }
        outputs := outputs[i := a];
        assert outputs[..i + 1] == outputs[..i] + [a];
        i := i + 1;
      }
      assert outputs == outputs[..|npl|];
      return Ok(outputs[|npl| - 1]);
    }

    /** `training(input, target, lr)`: the two size checks, a forward pass,
        the deltas from the output layer down, and the update of every
        bias and weight. */
    method Training(input: seq<real>, target: seq<real>, lr: real) returns (r: Outcome<()>)
      requires Valid()
      modifies this
      ensures Valid()
      ensures (State(), r) == TrainStep(old(State()), act, input, target, lr)
    {
      if |input| != npl[0] {
        return Err(InputSizeError(|input|, npl[0]));
      }
      if |target| != npl[|npl| - 1] {
        return Err(TargetSizeError(|target|, npl[|npl| - 1]));
      }
      ForwardKeeps(State(), act, input);
      var _ := Forward(input);
      ghost var s1 := State();
      Backpropagate(target);
      assert backprop == Deltas(s1, target);
      Update(lr);
      r := Ok(());
    }

    /** The backward loops of `training`: `backprop` becomes the deltas. */
    method Backpropagate(target: seq<real>)
      requires Valid() && |target| == npl[|npl| - 1]
      modifies this
      ensures Valid() && State() == old(State()).(backprop := Deltas(old(State()), target))
    {
      ghost var s := State();
      var last := |npl| - 1;
      var d := OutputDeltaLoop(target, outputs[last], backprop[last]);
      backprop := backprop[last := d];
      var i := |npl| - 2;
      while i > 0
        invariant 0 <= i <= |npl| - 2 && |backprop| == |npl|
        invariant weights == s.weights && bias == s.bias && outputs == s.outputs
        invariant forall r :: 0 <= r <= i ==> backprop[r] == s.backprop[r]
        invariant forall r :: i < r < |npl| ==> backprop[r] == DeltaAt(s, target, r)
      {
        d := HiddenDeltaLoop(weights[i + 1], backprop[i + 1], outputs[i], backprop[i]);
        backprop := backprop[i := d];
        i := i - 1;
      }
      assert backprop == Deltas(s, target);
    }

    /** The update loops of `training`, layer by layer. */
    method Update(lr: real)
      requires Valid()
      modifies this
      ensures Valid()
      ensures State() == old(State()).(weights := UpdateWeights(old(State()), backprop, lr),
                                      bias := UpdateBias(old(State()), backprop, lr))
    {
      weights, bias := UpdateLayers(State(), lr);
    }
  }

  /** The constructor as a whole: sizes it refuses give its message (where
      the source exits) and no draws; sizes it accepts give a new network. */
  method Create(l: seq<int>, act: Activation, rng: Rng) returns (r: Outcome<NN>)
    modifies rng
    ensures r.Err? <==> !ValidSizes(l)
    ensures r.Err? ==> ConstructorError(l) == Some(r.msg) && rng.pos == old(rng.pos)
    ensures r.Ok? ==> fresh(r.value) && r.value.Valid() && r.value.State() == Init(l, Offset(rng.stream, old(rng.pos)))
  {
    match ConstructorError(l)
    case Some(msg) =>
      return Err(msg);
    case None =>
      var nn := new NN(l, act, rng);
      return Ok(nn);
  }
}
