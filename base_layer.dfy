/** The layer interface (CNN/include/base_layer.h).  Every layer answers
    forward, backward and get_output_size; the parameter operations
    (zero_gradients, the updates, save and load) and the loss hooks
    (get_loss, set_targets) have defaults that do nothing, return 0 or return
    an empty vector, and only the layers that own parameters or a loss
    override them.  The six layer kinds of the network form a closed variant
    over their states; the dispatch functions below are the virtual calls. */
module Layers {
  import opened Tensor
  import C = Convolution
  import P = Pool
  import R = Relu
  import D = DropOut
  import F = FullyConnected
  import S = Softmax

  datatype Kind = ConvKind | PoolKind | ReluKind | DropOutKind | FCKind | SoftmaxKind

  datatype LayerState =
    | ConvLayer(conv: C.ConvState)
    | PoolLayer(pool: P.PoolState)
    | ReluLayer(relu: R.ReluState)
    | DropOutLayer(drop: D.DropState)
    | FCLayer(fc: F.FCState)
    | SoftmaxLayer(softmax: S.SoftmaxState, math: Math)
  {
    ghost predicate Valid() {
      match this
      case ConvLayer(s) => s.Valid()
      case PoolLayer(s) => s.Valid()
      case ReluLayer(s) => s.Valid()
      case DropOutLayer(s) => s.Valid()
      case FCLayer(s) => s.Valid()
      case SoftmaxLayer(s, _) => s.Valid()
    }

    function KindOf(): Kind {
      match this
      case ConvLayer(_) => ConvKind
      case PoolLayer(_) => PoolKind
      case ReluLayer(_) => ReluKind
      case DropOutLayer(_) => DropOutKind
      case FCLayer(_) => FCKind
      case SoftmaxLayer(_, _) => SoftmaxKind
    }

    /** The length of the input forward accepts, which is also the length of
        the gradient a successful backward returns (except for dropout in
        inference mode, which passes `d_out` through). */
    function InputLength(): int {
      match this
      case ConvLayer(s) => s.cfg.InSize()
      case PoolLayer(s) => s.InSize()
      case ReluLayer(s) => s.Size()
      case DropOutLayer(s) => s.Size()
      case FCLayer(s) => s.flat
      case SoftmaxLayer(s, _) => s.inputSize
    }

    /** The length of the output of a successful forward (again except for
        dropout in inference mode). */
    function OutputLength(): int {
      match this
      case ConvLayer(s) => s.cfg.OutSize()
      case PoolLayer(s) => s.OutSize()
      case ReluLayer(s) => s.Size()
      case DropOutLayer(s) => s.Size()
      case FCLayer(s) => s.outputSize
      case SoftmaxLayer(s, _) => s.inputSize
    }
  }

  /** Two states of the same layer: same kind and same shape. */
  predicate SameLayer(a: LayerState, b: LayerState) {
    a.KindOf() == b.KindOf() && a.InputLength() == b.InputLength() && a.OutputLength() == b.OutputLength()
  }

  // ---------------------------------------------------------------------
  // The virtual calls
  // ---------------------------------------------------------------------

  /** The contract every kind's `forward` shares: the state stays valid and
      keeps its shape; a wrong input length fails, exactly so for every kind
      but softmax; a success has the output length. */
  ghost predicate ForwardKeepsShape(l: LayerState, x: seq<real>, t: LayerState, o: Outcome<seq<real>>) {
    t.Valid() && SameLayer(l, t) &&
    (|x| != l.InputLength() ==> o.Err?) &&
    (!l.SoftmaxLayer? ==> (o.Err? <==> |x| != l.InputLength())) &&
    (o.Ok? ==> |o.value| == l.OutputLength())
  }

  function ConvForward(s: C.ConvState, x: seq<real>): (r: (LayerState, Outcome<seq<real>>))
    requires s.Valid()
    ensures ForwardKeepsShape(ConvLayer(s), x, r.0, r.1)
  {
    C.ForwardRecordsInput(s, x);
    C.ConfigSizes(s.cfg);
    var (t, o) := C.ForwardStep(s, x);
    (ConvLayer(t), o)
  }

  function PoolForward(s: P.PoolState, x: seq<real>): (r: (LayerState, Outcome<seq<real>>))
    requires s.Valid()
    ensures ForwardKeepsShape(PoolLayer(s), x, r.0, r.1)
  {
    P.SizeChecks(s, x, []);
    var (t, o) := P.ForwardStep(s, x);
    (PoolLayer(t), o)
  }

  function ReluForward(s: R.ReluState, x: seq<real>): (r: (LayerState, Outcome<seq<real>>))
    requires s.Valid()
    ensures ForwardKeepsShape(ReluLayer(s), x, r.0, r.1)
  {
    var (t, o) := R.ForwardStep(s, x);
    (ReluLayer(t), o)
  }

  function DropOutForward(s: D.DropState, x: seq<real>, train: bool, stream: nat -> real, pos: nat)
    : (r: (LayerState, Outcome<seq<real>>, nat))
    requires s.Valid()
    ensures r.0.Valid() && SameLayer(DropOutLayer(s), r.0) && r.2 >= pos
    ensures !train ==> r.1 == Ok(x) && r.2 == pos
    ensures train ==> ForwardKeepsShape(DropOutLayer(s), x, r.0, r.1)
  {
    if train && |x| == s.Size() then
      D.ForwardDropsAndRescales(s, x, stream, pos);
      var (t, o, p) := D.ForwardStep(s, x, train, stream, pos);
      (DropOutLayer(t), o, p)
    else
      var (t, o, p) := D.ForwardStep(s, x, train, stream, pos);
      (DropOutLayer(t), o, p)
  }

  function FCForward(s: F.FCState, x: seq<real>): (r: (LayerState, Outcome<seq<real>>))
    requires s.Valid()
    ensures ForwardKeepsShape(FCLayer(s), x, r.0, r.1)
  {
    F.StepsPreserveValid(s, x, [], 0.0, 0.0);
    var (t, o) := F.ForwardStep(s, x);
    (FCLayer(t), o)
  }

  function SoftmaxForward(s: S.SoftmaxState, m: Math, x: seq<real>): (r: (LayerState, Outcome<seq<real>>))
    requires s.Valid()
    ensures ForwardKeepsShape(SoftmaxLayer(s, m), x, r.0, r.1)
  {
    S.ForwardSizeCheck(s, m, x);
    var (t, o) := S.ForwardStep(s, m, x);
    (SoftmaxLayer(t, m), o)
  }

  /** `forward(input, train)`.  Dropout draws from the random stream at
      `pos`; the result carries the new stream position.  Every layer checks
      the input length (dropout only in training); the softmax layer can also
      fail on its target. */
  function Forward(l: LayerState, x: seq<real>, train: bool, stream: nat -> real, pos: nat)
    : (r: (LayerState, Outcome<seq<real>>, nat))
    requires l.Valid()
    ensures r.0.Valid() && SameLayer(l, r.0) && r.2 >= pos
    ensures !l.DropOutLayer? ==> r.2 == pos
    ensures l.DropOutLayer? && !train ==> r.1 == Ok(x) && r.2 == pos
    ensures !(l.DropOutLayer? && !train) ==>
      (|x| != l.InputLength() ==> r.1.Err?) &&
      (!l.SoftmaxLayer? ==> (r.1.Err? <==> |x| != l.InputLength())) &&
      (r.1.Ok? ==> |r.1.value| == l.OutputLength())
  {
    match l
    case ConvLayer(s) => var (t, o) := ConvForward(s, x); (t, o, pos)
    case PoolLayer(s) => var (t, o) := PoolForward(s, x); (t, o, pos)
    case ReluLayer(s) => var (t, o) := ReluForward(s, x); (t, o, pos)
    case DropOutLayer(s) => DropOutForward(s, x, train, stream, pos)
    case FCLayer(s) => var (t, o) := FCForward(s, x); (t, o, pos)
    case SoftmaxLayer(s, m) => var (t, o) := SoftmaxForward(s, m, x); (t, o, pos)
  }

  /** The contract of `backward` for the kinds that check `d_out` against
      their output length. */
  ghost predicate BackwardKeepsShape(l: LayerState, d: seq<real>, t: LayerState, o: Outcome<seq<real>>) {
    t.Valid() && SameLayer(l, t) &&
    (o.Ok? ==> |o.value| == l.InputLength()) &&
    (o.Err? <==> |d| != l.OutputLength())
  }

  function ConvBackward(s: C.ConvState, d: seq<real>): (r: (LayerState, Outcome<seq<real>>))
    requires s.Valid()
    ensures BackwardKeepsShape(ConvLayer(s), d, r.0, r.1)
  {
    C.BackwardChecks(s, d);
    var (t, o) := C.BackwardStep(s, d);
    (ConvLayer(t), o)
  }

  function PoolBackward(s: P.PoolState, d: seq<real>): (r: (LayerState, Outcome<seq<real>>))
    requires s.Valid()
    ensures BackwardKeepsShape(PoolLayer(s), d, r.0, r.1)
  {
    P.SizeChecks(s, [], d);
    var (t, o) := P.BackwardStep(s, d);
    (PoolLayer(t), o)
  }

  function FCBackward(s: F.FCState, d: seq<real>): (r: (LayerState, Outcome<seq<real>>))
    requires s.Valid()
    ensures BackwardKeepsShape(FCLayer(s), d, r.0, r.1)
  {
    F.StepsPreserveValid(s, [], d, 0.0, 0.0);
    var (t, o) := F.BackwardStep(s, d);
    (FCLayer(t), o)
  }

  function DropOutBackward(s: D.DropState, d: seq<real>): (r: (LayerState, Outcome<seq<real>>))
    requires s.Valid()
    ensures r.0.Valid() && SameLayer(DropOutLayer(s), r.0)
    ensures !s.train ==> r.1 == Ok(d)
    ensures s.train ==> BackwardKeepsShape(DropOutLayer(s), d, r.0, r.1)
  {
    var (t, o) := D.BackwardStep(s, d);
    (DropOutLayer(t), o)
  }

  /** `backward(d_out)`.  The convolution, pooling and fully connected
      layers, and dropout after a training forward, fail exactly on a `d_out`
      of the wrong length; ReLU never fails; softmax ignores `d_out` and fails
      exactly without a usable target; dropout after an inference forward
      passes `d_out` through. */
  function Backward(l: LayerState, d: seq<real>): (r: (LayerState, Outcome<seq<real>>))
    requires l.Valid()
    ensures r.0.Valid() && SameLayer(l, r.0)
    ensures l.DropOutLayer? && !l.drop.train ==> r.1 == Ok(d)
    ensures !(l.DropOutLayer? && !l.drop.train) && r.1.Ok? ==> |r.1.value| == l.InputLength()
    ensures l.ReluLayer? ==> r.1.Ok?
    ensures l.SoftmaxLayer? ==>
      (r.1.Err? <==> l.softmax.targets.None? || |l.softmax.targets.value| != l.softmax.inputSize)
    ensures l.ConvLayer? || l.PoolLayer? || l.FCLayer? || (l.DropOutLayer? && l.drop.train) ==>
      (r.1.Err? <==> |d| != l.OutputLength())
  {
    match l
    case ConvLayer(s) => ConvBackward(s, d)
    case PoolLayer(s) => PoolBackward(s, d)
    case ReluLayer(s) =>
      var (t, o) := R.BackwardStep(s, d);
      (ReluLayer(t), o)
    case DropOutLayer(s) => DropOutBackward(s, d)
    case FCLayer(s) => FCBackward(s, d)
    case SoftmaxLayer(s, m) =>
      var (t, o) := S.BackwardStep(s, d);
      (SoftmaxLayer(t, m), o)
  }

  /** `zero_gradients`: the convolution and fully connected layers clear
      their parameter gradients; the default does nothing. */
  function ZeroGradients(l: LayerState): (r: LayerState)
    requires l.Valid()
    ensures r.Valid() && SameLayer(l, r)
    ensures r.ConvLayer? ==> r.conv.dFilters == Zeros(|r.conv.dFilters|) && r.conv.dBiases == Zeros(|r.conv.dBiases|)
    ensures r.FCLayer? ==> r.fc.dWeights == Zeros(|r.fc.dWeights|) && r.fc.dBiases == Zeros(|r.fc.dBiases|)
    ensures !l.ConvLayer? && !l.FCLayer? ==> r == l
  {
    match l
    case ConvLayer(s) => ConvLayer(C.ZeroGradientsStep(s))
    case FCLayer(s) => FCLayer(F.ZeroGradientsStep(s))
    case _ => l
  }

  /** `update_weights`: only the fully connected layer has weights. */
  function UpdateWeights(l: LayerState, lr: real, l2: real): (r: LayerState)
    requires l.Valid()
    ensures r.Valid() && SameLayer(l, r)
    ensures r.FCLayer? ==> r == FCLayer(l.fc.(weights := L2Step(l.fc.weights, l.fc.dWeights, lr, l2)))
    ensures !l.FCLayer? ==> r == l
  {
    match l
    case FCLayer(s) => FCLayer(F.UpdateWeightsStep(s, lr, l2))
    case _ => l
  }

  /** `update_biases`: the convolution layer applies the L2 term, the fully
      connected layer does not. */
  function UpdateBiases(l: LayerState, lr: real, l2: real): (r: LayerState)
    requires l.Valid()
    ensures r.Valid() && SameLayer(l, r)
    ensures r.ConvLayer? ==> r == ConvLayer(l.conv.(biases := L2Step(l.conv.biases, l.conv.dBiases, lr, l2)))
    ensures r.FCLayer? ==> r == FCLayer(l.fc.(biases := F.SgdStep(l.fc.biases, l.fc.dBiases, lr)))
    ensures !l.ConvLayer? && !l.FCLayer? ==> r == l
  {
    match l
    case ConvLayer(s) => ConvLayer(C.UpdateBiasesStep(s, lr, l2))
    case FCLayer(s) => FCLayer(F.UpdateBiasesStep(s, lr, l2))
    case _ => l
  }

  /** `update_filters`: only the convolution layer has filters. */
  function UpdateFilters(l: LayerState, lr: real, l2: real): (r: LayerState)
    requires l.Valid()
    ensures r.Valid() && SameLayer(l, r)
    ensures r.ConvLayer? ==> r == ConvLayer(l.conv.(filters := L2Step(l.conv.filters, l.conv.dFilters, lr, l2)))
    ensures !l.ConvLayer? ==> r == l
  {
    match l
    case ConvLayer(s) => ConvLayer(C.UpdateFiltersStep(s, lr, l2))
    case _ => l
  }

  /** The three updates `train_step` applies to every layer, in its order. */
  function UpdateAll(l: LayerState, lr: real, l2: real): (r: LayerState)
    requires l.Valid()
    ensures r.Valid() && SameLayer(l, r)
  {
    UpdateFilters(UpdateBiases(UpdateWeights(l, lr, l2), lr, l2), lr, l2)
  }

  function SaveWeights(l: LayerState): seq<real> {
    if l.FCLayer? then l.fc.weights else []
  }

  function SaveBiases(l: LayerState): seq<real> {
    match l
    case ConvLayer(s) => s.biases
    case FCLayer(s) => s.biases
    case _ => []
  }

  function SaveFilters(l: LayerState): seq<real> {
    if l.ConvLayer? then l.conv.filters else []
  }

  /** `load_weights`: the default ignores its argument. */
  function LoadWeights(l: LayerState, w: seq<real>): (r: LayerState)
    requires l.Valid() && (l.FCLayer? ==> |w| == |l.fc.weights|)
    ensures r.Valid() && SameLayer(l, r) && SaveWeights(r) == (if l.FCLayer? then w else [])
  {
    if l.FCLayer? then FCLayer(F.LoadWeightsStep(l.fc, w)) else l
  }

  function LoadBiases(l: LayerState, b: seq<real>): (r: LayerState)
    requires l.Valid() && (l.FCLayer? ==> |b| == |l.fc.biases|) && (l.ConvLayer? ==> |b| == |l.conv.biases|)
    ensures r.Valid() && SameLayer(l, r) && SaveBiases(r) == (if l.FCLayer? || l.ConvLayer? then b else [])
  {
    match l
    case ConvLayer(s) => ConvLayer(C.LoadBiasesStep(s, b))
    case FCLayer(s) => FCLayer(F.LoadBiasesStep(s, b))
    case _ => l
  }

  function LoadFilters(l: LayerState, w: seq<real>): (r: LayerState)
    requires l.Valid() && (l.ConvLayer? ==> |w| == |l.conv.filters|)
    ensures r.Valid() && SameLayer(l, r) && SaveFilters(r) == (if l.ConvLayer? then w else [])
  {
    if l.ConvLayer? then ConvLayer(C.LoadFiltersStep(l.conv, w)) else l
  }

  /** `get_loss`: the softmax layer's loss, which throws without a target
      and is never negative; 0 for every other layer. */
  function GetLoss(l: LayerState): (r: Outcome<real>)
    ensures !l.SoftmaxLayer? ==> r == Ok(0.0)
    ensures r.Err? <==> l.SoftmaxLayer? && l.softmax.targets.None?
    ensures r.Ok? ==> r.value >= 0.0
  {
    match l
    case SoftmaxLayer(s, _) =>
      S.GetLossNonNegative(s);
      S.GetLossStep(s)
    case _ => Ok(0.0)
  }

  /** `set_targets`: the softmax layer keeps the target; the default ignores it. */
  function SetTargets(l: LayerState, t: Option<seq<real>>): (r: LayerState)
    requires l.Valid()
    ensures r.Valid() && SameLayer(l, r)
    ensures r.SoftmaxLayer? ==> r.softmax.targets == t
    ensures !l.SoftmaxLayer? ==> r == l
  {
    if l.SoftmaxLayer? then SoftmaxLayer(l.softmax.(targets := t), l.math) else l
  }

  function OutputSize(l: LayerState): seq<int> {
    match l
    case ConvLayer(s) => C.OutputSize(s)
    case PoolLayer(s) => P.OutputSize(s)
    case ReluLayer(s) => R.OutputSize(s)
    case DropOutLayer(s) => D.OutputSize(s)
    case FCLayer(s) => F.OutputSize(s)
    case SoftmaxLayer(s, _) => S.OutputSize(s)
  }

  // ---------------------------------------------------------------------
  // What the defaults give the layers without parameters
  // ---------------------------------------------------------------------

  /** A layer without parameters: pooling, ReLU, dropout and softmax. */
  predicate ParameterFree(l: LayerState) {
    l.PoolLayer? || l.ReluLayer? || l.DropOutLayer? || l.SoftmaxLayer?
  }

  /** The defaults make every parameter operation of a parameter-free layer
      a no-op: the updates, zero_gradients and the loads leave it as it is and
      the saves return empty vectors. */
  lemma ParameterFreeDefaults(l: LayerState, lr: real, l2: real, w: seq<real>)
    requires l.Valid() && ParameterFree(l)
    ensures ZeroGradients(l) == l && UpdateAll(l, lr, l2) == l
    ensures LoadWeights(l, w) == l && LoadBiases(l, w) == l && LoadFilters(l, w) == l
    ensures SaveWeights(l) == [] && SaveBiases(l) == [] && SaveFilters(l) == []
  {
  }

  /** Only the softmax layer reports a loss or keeps a target. */
  lemma LossDefaults(l: LayerState, t: Option<seq<real>>)
    requires l.Valid() && !l.SoftmaxLayer?
    ensures GetLoss(l) == Ok(0.0) && SetTargets(l, t) == l
  {
  }

  /** The update of a layer with parameters changes its parameters and
      nothing else: the convolution layer's filters and biases (both with
      the L2 term) and the fully connected layer's weights (with it) and
      biases (without it). */
  lemma UpdateAllChangesOnlyParameters(l: LayerState, lr: real, l2: real)
    requires l.Valid()
    ensures var r := UpdateAll(l, lr, l2);
      (l.ConvLayer? ==> r == ConvLayer(l.conv.(filters := L2Step(l.conv.filters, l.conv.dFilters, lr, l2),
                                               biases := L2Step(l.conv.biases, l.conv.dBiases, lr, l2)))) &&
      (l.FCLayer? ==> r == FCLayer(l.fc.(weights := L2Step(l.fc.weights, l.fc.dWeights, lr, l2),
                                         biases := F.SgdStep(l.fc.biases, l.fc.dBiases, lr)))) &&
      (ParameterFree(l) ==> r == l)
  {
  }
}
