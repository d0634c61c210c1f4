/** What the network does (CNN/src/CNN.cpp), on the layers' states as values:
    forward runs the layers front to back, backward back to front, and the
    first exception stops either pass; a training step zeroes the gradients,
    runs every sample of the mini-batch and then updates every layer; an
    epoch runs the mini-batches in order; the evaluation and prediction
    helpers take the first maximum of the network output.  The network
    object in module Model is proved against these functions. */
module Network {
  import opened Tensor
  import opened Layers
  import S = Softmax
  import F = FullyConnected

  // ---------------------------------------------------------------------
  // The network as a sequence of layer states
  // ---------------------------------------------------------------------

  ghost predicate AllValid(ls: seq<LayerState>) {
    forall i :: 0 <= i < |ls| ==> ls[i].Valid()
  }

  /** Two states of one network: the same kinds of layer in the same order,
      with the same input and output lengths. */
  predicate SameShape(a: seq<LayerState>, b: seq<LayerState>) {
    |a| == |b| && forall i :: 0 <= i < |a| ==> SameLayer(a[i], b[i])
  }

  /** What a layer's kind and lengths are, apart from its buffers. */
  datatype LayerShape = LayerShape(kind: Kind, inLen: int, outLen: int)

  function ShapeOf(l: LayerState): LayerShape {
    LayerShape(l.KindOf(), l.InputLength(), l.OutputLength())
  }

  function Shapes(ls: seq<LayerState>): (sh: seq<LayerShape>)
    ensures |sh| == |ls|
  {
    seq(|ls|, i requires 0 <= i < |ls| => ShapeOf(ls[i]))
  }

  lemma SameShapeTransitive(a: seq<LayerState>, b: seq<LayerState>, c: seq<LayerState>)
    requires SameShape(a, b) && SameShape(b, c)
    ensures SameShape(a, c)
  {
  }

  lemma SameShapeShapes(a: seq<LayerState>, b: seq<LayerState>)
    requires SameShape(a, b)
    ensures Shapes(a) == Shapes(b)
  {
    assert forall i :: 0 <= i < |a| ==> Shapes(a)[i] == Shapes(b)[i];
  }

  // ---------------------------------------------------------------------
  // forward and backward
  // ---------------------------------------------------------------------

  /** The first n layers of `forward`, each fed the output of the one before;
      an exception stops the pass and the layers after it are not touched. */
  function ForwardUpTo(ls: seq<LayerState>, x: seq<real>, train: bool, stream: nat -> real, pos: nat, n: nat)
    : (r: (seq<LayerState>, Outcome<seq<real>>, nat))
    requires AllValid(ls) && n <= |ls|
    ensures AllValid(r.0) && SameShape(ls, r.0) && r.2 >= pos
    ensures forall j :: n <= j < |ls| ==> r.0[j] == ls[j]
    decreases n, 0
  {
    if n == 0 then (ls, Ok(x), pos)
    else ForwardLayer(ls, x, train, stream, pos, n - 1)
  }

  /** Layer k of `forward`, run on what the layers below it left. */
  function ForwardLayer(ls: seq<LayerState>, x: seq<real>, train: bool, stream: nat -> real, pos: nat, k: nat)
    : (r: (seq<LayerState>, Outcome<seq<real>>, nat))
    requires AllValid(ls) && k < |ls|
    ensures AllValid(r.0) && SameShape(ls, r.0) && r.2 >= pos
    ensures forall j :: k < j < |ls| ==> r.0[j] == ls[j]
    decreases k, 1
  {
    var (ls1, o, p) := ForwardUpTo(ls, x, train, stream, pos, k);
    if o.Err? then (ls1, o, p)
    else
      var (l, o2, p2) := Forward(ls1[k], o.value, train, stream, p);
      (ls1[k := l], o2, p2)
  }

  /** `forward(input, train)`: all the layers; with no layer it returns the input. */
  function RunForward(ls: seq<LayerState>, x: seq<real>, train: bool, stream: nat -> real, pos: nat)
    : (r: (seq<LayerState>, Outcome<seq<real>>, nat))
    requires AllValid(ls)
    ensures AllValid(r.0) && SameShape(ls, r.0) && r.2 >= pos
    ensures |ls| == 0 ==> r == (ls, Ok(x), pos)
  {
    ForwardUpTo(ls, x, train, stream, pos, |ls|)
  }

  /** Backward through the layers from the top down to layer n, the gradient
      `d` entering the top one; an exception stops the pass and the layers
      below it are not touched. */
  function BackwardFrom(ls: seq<LayerState>, d: seq<real>, n: nat): (r: (seq<LayerState>, Outcome<seq<real>>))
    requires AllValid(ls) && n <= |ls|
    ensures AllValid(r.0) && SameShape(ls, r.0)
    ensures forall j :: 0 <= j < n ==> r.0[j] == ls[j]
    decreases |ls| - n, 0
  {
    if n == |ls| then (ls, Ok(d))
    else BackwardLayer(ls, d, n)
  }

  /** Layer k of `backward`, run on the gradient the layers above it returned. */
  function BackwardLayer(ls: seq<LayerState>, d: seq<real>, k: nat): (r: (seq<LayerState>, Outcome<seq<real>>))
    requires AllValid(ls) && k < |ls|
    ensures AllValid(r.0) && SameShape(ls, r.0)
    ensures forall j :: 0 <= j < k ==> r.0[j] == ls[j]
    decreases |ls| - k - 1, 1
  {
    var (ls1, o) := BackwardFrom(ls, d, k + 1);
    if o.Err? then (ls1, o)
    else
      var (l, o2) := Backward(ls1[k], o.value);
      (ls1[k := l], o2)
  }

  /** `backward(d_out)`: all the layers in reverse order. */
  function RunBackward(ls: seq<LayerState>, d: seq<real>): (r: (seq<LayerState>, Outcome<seq<real>>))
    requires AllValid(ls)
    ensures AllValid(r.0) && SameShape(ls, r.0)
    ensures |ls| == 0 ==> r == (ls, Ok(d))
  {
    BackwardFrom(ls, d, 0)
  }

  /** One more layer of the forward pass. */
  lemma ForwardNext(ls: seq<LayerState>, x: seq<real>, train: bool, stream: nat -> real, pos: nat, i: nat,
                    cur: seq<real>, mid: seq<LayerState>, p: nat,
                    l: LayerState, o: Outcome<seq<real>>, p2: nat)
    requires AllValid(ls) && i < |ls|
    requires ForwardUpTo(ls, x, train, stream, pos, i) == (mid, Ok(cur), p)
    requires i < |mid| && (l, o, p2) == Forward(mid[i], cur, train, stream, p)
    ensures ForwardUpTo(ls, x, train, stream, pos, i + 1) == (mid[i := l], o, p2)
  {
  }

  /** The loop of `forward` has run layers 0 to i-1 from `ls`, leaving the
      states `st`, the outcome `r` and the stream position `p`. */
  ghost predicate ForwardReached(ls: seq<LayerState>, x: seq<real>, train: bool, stream: nat -> real, pos: nat,
                                 i: nat, st: seq<LayerState>, r: Outcome<seq<real>>, p: nat) {
    AllValid(ls) && i <= |ls| && ForwardUpTo(ls, x, train, stream, pos, i) == (st, r, p)
  }

  /** When the loop of `forward` stops, by running out of layers or on an
      exception, it has computed the whole pass. */
  lemma ForwardFinished(ls: seq<LayerState>, x: seq<real>, train: bool, stream: nat -> real, pos: nat,
                        i: nat, st: seq<LayerState>, r: Outcome<seq<real>>, p: nat)
    requires ForwardReached(ls, x, train, stream, pos, i, st, r, p) && (i == |ls| || r.Err?)
    ensures RunForward(ls, x, train, stream, pos) == (st, r, p)
  {
    if r.Err? {
      ForwardStops(ls, x, train, stream, pos, i, |ls|);
    }
  }

  /** One more layer of the backward pass. */
  lemma BackwardNext(ls: seq<LayerState>, d: seq<real>, i: nat, cur: seq<real>, mid: seq<LayerState>,
                     l: LayerState, o: Outcome<seq<real>>)
    requires AllValid(ls) && i < |ls|
    requires BackwardFrom(ls, d, i + 1) == (mid, Ok(cur))
    requires i < |mid| && (l, o) == Backward(mid[i], cur)
    ensures BackwardFrom(ls, d, i) == (mid[i := l], o)
  {
  }

  /** After an exception the remaining layers are skipped. */
  lemma {:induction false} ForwardStops(ls: seq<LayerState>, x: seq<real>, train: bool, stream: nat -> real, pos: nat, k: nat, n: nat)
    requires AllValid(ls) && k <= n <= |ls| && ForwardUpTo(ls, x, train, stream, pos, k).1.Err?
    ensures ForwardUpTo(ls, x, train, stream, pos, n) == ForwardUpTo(ls, x, train, stream, pos, k)
    decreases n - k
  {
    if k < n {
      ForwardStops(ls, x, train, stream, pos, k, n - 1);
    }
  }

  /** After an exception the layers below are skipped. */
  lemma {:induction false} BackwardStops(ls: seq<LayerState>, d: seq<real>, k: nat, n: nat)
    requires AllValid(ls) && n <= k <= |ls| && BackwardFrom(ls, d, k).1.Err?
    ensures BackwardFrom(ls, d, n) == BackwardFrom(ls, d, k)
    decreases k - n
  {
    if n < k {
      BackwardStops(ls, d, k, n + 1);
    }
  }

  /** The loop of `backward` has run the layers from the top down to layer
      i, leaving the states `st` and the outcome `r`. */
  ghost predicate BackwardReached(ls: seq<LayerState>, d: seq<real>, i: nat, st: seq<LayerState>, r: Outcome<seq<real>>) {
    AllValid(ls) && i <= |ls| && BackwardFrom(ls, d, i) == (st, r)
  }

  /** The loop of `backward` starts above the top layer, with `d_out`. */
  lemma BackwardStart(ls: seq<LayerState>, d: seq<real>)
    requires AllValid(ls)
    ensures BackwardReached(ls, d, |ls|, ls, Ok(d))
  {
  }

  /** When the loop of `backward` stops, at the bottom or on an exception,
      it has computed the whole pass. */
  lemma BackwardFinished(ls: seq<LayerState>, d: seq<real>, i: nat, st: seq<LayerState>, r: Outcome<seq<real>>)
    requires BackwardReached(ls, d, i, st, r) && (i == 0 || r.Err?)
    ensures RunBackward(ls, d) == (st, r)
  {
    if r.Err? {
      BackwardStops(ls, d, i, 0);
    }
  }

  /** The lengths a successful output of the first k layers can have, for
      an input of xLen elements: the output length of layer k - 1, and also,
      when that layer is a dropout layer (which passes its input through
      unchecked in inference mode), whatever reached it. */
  function OutputLengths(sh: seq<LayerShape>, k: int, xLen: int): set<int>
    requires 0 <= k <= |sh|
    decreases k
  {
    if k == 0 then {xLen}
    else if sh[k - 1].kind == DropOutKind then {sh[k - 1].outLen} + OutputLengths(sh, k - 1, xLen)
    else {sh[k - 1].outLen}
  }

  /** A successful forward pass returns an output whose length is one of
      `OutputLengths`, whatever the mode and the buffers. */
  lemma {:induction false} ForwardOutputLength(ls: seq<LayerState>, x: seq<real>, train: bool, stream: nat -> real, pos: nat, k: nat)
    requires AllValid(ls) && k <= |ls|
    requires ForwardUpTo(ls, x, train, stream, pos, k).1.Ok?
    ensures |ForwardUpTo(ls, x, train, stream, pos, k).1.value| in OutputLengths(Shapes(ls), k, |x|)
    decreases k
  {
    if k > 0 {
      var (ls1, o, p) := ForwardUpTo(ls, x, train, stream, pos, k - 1);
      assert ls1[k - 1] == ls[k - 1];
      if ls[k - 1].DropOutLayer? && !train {
        ForwardOutputLength(ls, x, train, stream, pos, k - 1);
      }
    }
  }

  /** Every output a network of these shapes can return for each of `xs`
      has an element, so `out[0]` exists. */
  predicate OutputsNonEmpty(sh: seq<LayerShape>, xs: seq<seq<real>>) {
    forall k :: 0 <= k < |xs| ==> 0 !in OutputLengths(sh, |sh|, |xs[k]|)
  }

  /** Every output a network of these shapes can return for each of `xs`
      has between 1 and n elements, so its first maximum indexes a list of n names. */
  predicate OutputsIndexNames(sh: seq<LayerShape>, xs: seq<seq<real>>, n: int) {
    forall k, m :: 0 <= k < |xs| && m in OutputLengths(sh, |sh|, |xs[k]|) ==> 1 <= m <= n
  }

  /** Every successful gradient that reaches layer i from above has at
      least n elements: the gradient layer i + 1 passes down (or `d_out`
      itself above the top layer), looking through dropout layers, which
      pass their gradient through unchanged after an inference forward. */
  predicate GradientFits(sh: seq<LayerShape>, i: int, dLen: int, n: int)
    requires 0 <= i < |sh|
    decreases |sh| - i
  {
    if i + 1 == |sh| then dLen >= n
    else if sh[i + 1].kind == DropOutKind then sh[i + 1].inLen >= n && GradientFits(sh, i + 1, dLen, n)
    else sh[i + 1].inLen >= n
  }

  /** ReLU's backward reads `d_out[i]` for every input element without a
      size check: every ReLU layer must be handed a long enough gradient. */
  predicate ReluFed(sh: seq<LayerShape>, dLen: int) {
    forall i :: 0 <= i < |sh| && sh[i].kind == ReluKind ==> GradientFits(sh, i, dLen, sh[i].inLen)
  }

  /** The gradient that reaches layer i in a successful backward pass is as
      long as `GradientFits` says. */
  lemma {:induction false} GradientReaches(ls: seq<LayerState>, d: seq<real>, i: int, n: int)
    requires AllValid(ls) && 0 <= i < |ls| && GradientFits(Shapes(ls), i, |d|, n)
    requires BackwardFrom(ls, d, i + 1).1.Ok?
    ensures |BackwardFrom(ls, d, i + 1).1.value| >= n
    decreases |ls| - i
  {
    if i + 1 < |ls| {
      var (ls1, o) := BackwardFrom(ls, d, i + 2);
      assert ls1[i + 1] == ls[i + 1];
      if ls[i + 1].DropOutLayer? && !ls[i + 1].drop.train {
        GradientReaches(ls, d, i + 1, n);
      }
    }
  }

  /** In the network of CNN/src/train.cpp every ReLU is followed by a
      pooling or fully connected layer of the same input length and the
      last layer is the softmax: then backward with an empty `d_out` never
      reads past a gradient. */
  lemma ChainedReluFed(sh: seq<LayerShape>)
    requires |sh| > 0 && sh[|sh| - 1].kind == SoftmaxKind
    requires forall i :: 0 <= i < |sh| - 1 && sh[i].kind == ReluKind ==>
      sh[i + 1].kind != DropOutKind && sh[i + 1].inLen == sh[i].inLen
    ensures ReluFed(sh, 0)
  {
  }

  // ---------------------------------------------------------------------
  // train_step
  // ---------------------------------------------------------------------

  /** `layers.back()->set_targets(&target)`. */
  function SetLastTargets(ls: seq<LayerState>, t: seq<real>): (r: seq<LayerState>)
    requires AllValid(ls) && |ls| > 0
    ensures AllValid(r) && SameShape(ls, r)
    ensures r[..|ls| - 1] == ls[..|ls| - 1]
    ensures r[|ls| - 1].SoftmaxLayer? ==> r[|ls| - 1].softmax.targets == Some(t)
  {
    ls[|ls| - 1 := SetTargets(ls[|ls| - 1], Some(t))]
  }

  /** One sample of `train_step`: attach its target to the last layer,
      forward, add the last layer's loss, backward with an empty `d_out`. */
  function SampleStep(ls: seq<LayerState>, x: seq<real>, t: seq<real>, train: bool, stream: nat -> real, pos: nat)
    : (r: (seq<LayerState>, Outcome<real>, nat))
    requires AllValid(ls) && |ls| > 0
    ensures AllValid(r.0) && SameShape(ls, r.0) && r.2 >= pos
    ensures r.1.Ok? ==> r.1.value >= 0.0
  {
    var ls1 := SetLastTargets(ls, t);
    var (ls2, o, p) := RunForward(ls1, x, train, stream, pos);
    if o.Err? then (ls2, Err(o.msg), p)
    else
      var loss := GetLoss(ls2[|ls2| - 1]);
      if loss.Err? then (ls2, Err(loss.msg), p)
      else
        var (ls3, g) := RunBackward(ls2, []);
        if g.Err? then (ls3, Err(g.msg), p) else (ls3, Ok(loss.value), p)
  }

  /** Positions `from` to `end` of `indices` name samples that exist. */
  predicate SamplesInRange(inputs: seq<seq<real>>, targets: seq<seq<real>>, indices: seq<int>, from: int, end: int) {
    (from < end ==> 0 <= from && end <= |indices|) &&
    forall j :: from <= j < end ==> 0 <= indices[j] < |inputs| && indices[j] < |targets|
  }

  lemma SamplesInSubRange(inputs: seq<seq<real>>, targets: seq<seq<real>>, indices: seq<int>, a: int, b: int, c: int, d: int)
    requires SamplesInRange(inputs, targets, indices, a, b) && a <= c && d <= b
    ensures SamplesInRange(inputs, targets, indices, c, d)
  {
  }

  /** The samples `indices[idx]`, ..., `indices[end - 1]` of a mini-batch, the
      loss so far being `acc`; the loss returned is at least `acc`. */
  function SamplesFrom(ls: seq<LayerState>, inputs: seq<seq<real>>, targets: seq<seq<real>>, indices: seq<int>,
                       idx: int, end: int, acc: real, train: bool, stream: nat -> real, pos: nat)
    : (r: (seq<LayerState>, Outcome<real>, nat))
    requires AllValid(ls) && (idx < end ==> |ls| > 0)
    requires SamplesInRange(inputs, targets, indices, idx, end)
    ensures AllValid(r.0) && SameShape(ls, r.0) && r.2 >= pos
    ensures r.1.Ok? ==> r.1.value >= acc
    decreases end - idx, 0
  {
    if idx >= end then (ls, Ok(acc), pos)
    else SampleThenRest(ls, inputs, targets, indices, idx, end, acc, train, stream, pos)
  }

  /** Sample `indices[idx]`, then the rest of the mini-batch unless it failed. */
  function SampleThenRest(ls: seq<LayerState>, inputs: seq<seq<real>>, targets: seq<seq<real>>, indices: seq<int>,
                          idx: int, end: int, acc: real, train: bool, stream: nat -> real, pos: nat)
    : (r: (seq<LayerState>, Outcome<real>, nat))
    requires AllValid(ls) && idx < end && |ls| > 0
    requires SamplesInRange(inputs, targets, indices, idx, end)
    ensures AllValid(r.0) && SameShape(ls, r.0) && r.2 >= pos
    ensures r.1.Ok? ==> r.1.value >= acc
    decreases end - idx - 1, 1
  {
    var k := indices[idx];
    var (ls1, o, p) := SampleStep(ls, inputs[k], targets[k], train, stream, pos);
    if o.Err? then (ls1, o, p)
    else SamplesFrom(ls1, inputs, targets, indices, idx + 1, end, acc + o.value, train, stream, p)
  }

  /** The sample loop, at sample `idx` with running outcome `r`, is on its
      way to `goal`: the rest of it yields `goal`, or it has stopped there. */
  ghost predicate SamplesOnTrack(ls: seq<LayerState>, inputs: seq<seq<real>>, targets: seq<seq<real>>, indices: seq<int>,
                           idx: int, end: int, r: Outcome<real>, train: bool, stream: nat -> real, pos: nat,
                           goal: (seq<LayerState>, Outcome<real>, nat))
  {
    AllValid(ls) && (idx < end ==> |ls| > 0) && SamplesInRange(inputs, targets, indices, idx, end) &&
    if r.Ok? then SamplesFrom(ls, inputs, targets, indices, idx, end, r.value, train, stream, pos) == goal
    else (ls, r, pos) == goal
  }

  /** The sample loop starts on its way to the whole mini-batch. */
  lemma SamplesStart(ls: seq<LayerState>, inputs: seq<seq<real>>, targets: seq<seq<real>>, indices: seq<int>,
                     begin: int, end: int, train: bool, stream: nat -> real, pos: nat)
    requires AllValid(ls) && (begin < end ==> |ls| > 0) && SamplesInRange(inputs, targets, indices, begin, end)
    ensures SamplesOnTrack(ls, inputs, targets, indices, begin, end, Ok(0.0), train, stream, pos,
                           SamplesFrom(ls, inputs, targets, indices, begin, end, 0.0, train, stream, pos))
  {
  }

  /** When the sample loop stops, at `end` or on an exception, it has
      reached its goal. */
  lemma SamplesDone(ls: seq<LayerState>, inputs: seq<seq<real>>, targets: seq<seq<real>>, indices: seq<int>,
                    idx: int, end: int, r: Outcome<real>, train: bool, stream: nat -> real, pos: nat,
                    goal: (seq<LayerState>, Outcome<real>, nat))
    requires SamplesOnTrack(ls, inputs, targets, indices, idx, end, r, train, stream, pos, goal)
    requires idx >= end || r.Err?
    ensures (ls, r, pos) == goal
  {
  }

  /** One more sample of a mini-batch keeps the loop on its way. */
  lemma SamplesNext(ls: seq<LayerState>, inputs: seq<seq<real>>, targets: seq<seq<real>>, indices: seq<int>,
                    idx: int, end: int, acc: real, train: bool, stream: nat -> real, pos: nat,
                    goal: (seq<LayerState>, Outcome<real>, nat), ls1: seq<LayerState>, o: Outcome<real>, p: nat)
    requires AllValid(ls) && idx < end && |ls| > 0
    requires SamplesInRange(inputs, targets, indices, idx, end)
    requires SamplesFrom(ls, inputs, targets, indices, idx, end, acc, train, stream, pos) == goal
    requires (ls1, o, p) == SampleStep(ls, inputs[indices[idx]], targets[indices[idx]], train, stream, pos)
    ensures SamplesOnTrack(ls1, inputs, targets, indices, idx + 1, end, if o.Err? then o else Ok(acc + o.value),
                           train, stream, p, goal)
  {
    SamplesInSubRange(inputs, targets, indices, idx, end, idx + 1, end);
    if o.Err? {
      assert goal == (ls1, o, p);
    } else {
      assert goal == SamplesFrom(ls1, inputs, targets, indices, idx + 1, end, acc + o.value, train, stream, p);
    }
  }

  /** Every layer's `zero_gradients`. */
  function ZeroAll(ls: seq<LayerState>): (r: seq<LayerState>)
    requires AllValid(ls)
    ensures AllValid(r) && SameShape(ls, r)
  {
    seq(|ls|, i requires 0 <= i < |ls| && AllValid(ls) => ZeroGradients(ls[i]))
  }

  /** Every layer's `update_weights`, `update_biases` and `update_filters`. */
  function UpdateLayers(ls: seq<LayerState>, lr: real, l2: real): (r: seq<LayerState>)
    requires AllValid(ls)
    ensures AllValid(r) && SameShape(ls, r)
  {
    seq(|ls|, i requires 0 <= i < |ls| && AllValid(ls) => UpdateAll(ls[i], lr, l2))
  }

  /** The learning rate divided by the batch size, or by 1 for an empty batch. */
  function LrEff(lr: real, begin: int, end: int): real {
    lr / (if end - begin > 0 then (end - begin) as real else 1.0)
  }

  /** `train_step(inputs, targets, indices, begin, end, lr, l2, train)`. */
  function TrainStepSpec(ls: seq<LayerState>, inputs: seq<seq<real>>, targets: seq<seq<real>>, indices: seq<int>,
                         begin: int, end: int, lr: real, l2: real, train: bool, stream: nat -> real, pos: nat)
    : (r: (seq<LayerState>, Outcome<real>, nat))
    requires AllValid(ls) && (begin < end ==> |ls| > 0)
    requires SamplesInRange(inputs, targets, indices, begin, end)
    ensures AllValid(r.0) && SameShape(ls, r.0) && r.2 >= pos
    ensures r.1.Ok? ==> r.1.value >= 0.0
  {
    var (ls1, o, p) := SamplesFrom(ZeroAll(ls), inputs, targets, indices, begin, end, 0.0, train, stream, pos);
    if o.Err? then (ls1, o, p)
    else (UpdateLayers(ls1, LrEff(lr, begin, end), l2), o, p)
  }

  /** An empty batch still updates every layer, from zeroed gradients and
      with the undivided learning rate: a parameter-free layer is unchanged
      and a layer with parameters only sees the L2 decay. */
  lemma EmptyBatchOnlyDecays(ls: seq<LayerState>, inputs: seq<seq<real>>, targets: seq<seq<real>>, indices: seq<int>,
                             begin: int, end: int, lr: real, l2: real, train: bool, stream: nat -> real, pos: nat)
    requires AllValid(ls) && begin >= end
    ensures var r := TrainStepSpec(ls, inputs, targets, indices, begin, end, lr, l2, train, stream, pos);
      r.1 == Ok(0.0) && r.2 == pos && |r.0| == |ls| &&
      forall i :: 0 <= i < |ls| ==>
        (ParameterFree(ls[i]) ==> r.0[i] == ls[i]) &&
        (ls[i].ConvLayer? ==> r.0[i].conv.filters == L2Step(ls[i].conv.filters, Zeros(|ls[i].conv.filters|), lr, l2)) &&
        (ls[i].FCLayer? ==> r.0[i].fc.biases == ls[i].fc.biases)
  {
    var z := ZeroAll(ls);
    assert LrEff(lr, begin, end) == lr;
    forall i | 0 <= i < |ls|
      ensures ParameterFree(ls[i]) ==> UpdateAll(z[i], lr, l2) == ls[i]
      ensures ls[i].ConvLayer? ==> UpdateAll(z[i], lr, l2).conv.filters == L2Step(ls[i].conv.filters, Zeros(|ls[i].conv.filters|), lr, l2)
      ensures ls[i].FCLayer? ==> UpdateAll(z[i], lr, l2).fc.biases == ls[i].fc.biases
    {
      UpdateAllChangesOnlyParameters(z[i], lr, l2);
      if ls[i].FCLayer? {
        var b := ls[i].fc.biases;
        assert F.SgdStep(b, Zeros(|b|), lr) == b;
      }
    }
  }

  // ---------------------------------------------------------------------
  // The epochs of train
  // ---------------------------------------------------------------------

  /** `min(a, b)` */
  function Min(a: int, b: int): int {
    if a < b then a else b
  }

  /** The mini-batches of one epoch from position t of `order` on: batch
      `[t, min(t + batchSize, N))`, then the next one `batchSize` further,
      the losses added to `acc`. */
  function BatchesFrom(ls: seq<LayerState>, inputs: seq<seq<real>>, targets: seq<seq<real>>, order: seq<int>,
                       batchSize: int, lr: real, l2: real, train: bool, t: int, acc: real,
                       stream: nat -> real, pos: nat)
    : (r: (seq<LayerState>, Outcome<real>, nat))
    requires AllValid(ls) && batchSize >= 1 && t >= 0
    requires t < |inputs| ==> |ls| > 0
    requires SamplesInRange(inputs, targets, order, t, |inputs|)
    ensures AllValid(r.0) && SameShape(ls, r.0) && r.2 >= pos
    ensures r.1.Ok? ==> r.1.value >= acc
    decreases |inputs| - t
  {
    if t >= |inputs| then (ls, Ok(acc), pos)
    else
      var end := Min(t + batchSize, |inputs|);
      SamplesInSubRange(inputs, targets, order, t, |inputs|, t, end);
      SamplesInSubRange(inputs, targets, order, t, |inputs|, t + batchSize, |inputs|);
      var (ls1, o, p) := TrainStepSpec(ls, inputs, targets, order, t, end, lr, l2, train, stream, pos);
      if o.Err? then (ls1, o, p)
      else BatchesFrom(ls1, inputs, targets, order, batchSize, lr, l2, train, t + batchSize, acc + o.value, stream, p)
  }

  /** The sample positions the mini-batches from position t visit, in order. */
  function BatchPositions(n: int, batchSize: int, t: int): seq<int>
    requires batchSize >= 1 && t >= 0
    decreases n - t
  {
    if t >= n then [] else Range(t, Min(t + batchSize, n)) + BatchPositions(n, batchSize, t + batchSize)
  }

  /** `[a, a + 1, ..., b - 1]` */
  function Range(a: int, b: int): (r: seq<int>)
    requires a <= b
    ensures |r| == b - a && forall i :: 0 <= i < |r| ==> r[i] == a + i
  {
    seq(b - a, i requires 0 <= i < b - a => a + i)
  }

  /** One epoch visits every sample position once, in order: the batches
      `[t, min(t + bs, N))` for t = 0, bs, 2 bs, ... tile `[0, N)`. */
  lemma {:induction false} BatchesTile(n: int, batchSize: int, t: int)
    requires batchSize >= 1 && 0 <= t <= n
    ensures BatchPositions(n, batchSize, t) == Range(t, n)
    decreases n - t
  {
    if t < n {
      var m := Min(t + batchSize, n);
      BatchesTile(n, batchSize, if t + batchSize < n then t + batchSize else n);
      if t + batchSize >= n {
        assert BatchPositions(n, batchSize, t + batchSize) == [];
      }
      assert Range(t, m) + Range(m, n) == Range(t, n);
    }
  }

  /** `0.5` raised to the k-th power. */
  function Half(k: nat): (r: real)
    ensures 0.0 < r <= 1.0
  {
    if k == 0 then 1.0 else 0.5 * Half(k - 1)
  }

  /** The learning rate `train` uses in epoch e: halved at the start of
      every epoch e with `e % 4 == 0 && e != 0`. */
  function LrAt(lr0: real, e: nat): real {
    if e == 0 then lr0
    else if e % 4 == 0 then LrAt(lr0, e - 1) * 0.5
    else LrAt(lr0, e - 1)
  }

  /** The schedule halves the rate every four epochs: epoch e runs at
      `lr0 * 0.5^(e / 4)`. */
  lemma {:induction false} LrSchedule(lr0: real, e: nat)
    ensures LrAt(lr0, e) == lr0 * Half(e / 4)
  {
    if e > 0 {
      LrSchedule(lr0, e - 1);
      if e % 4 == 0 {
        assert e / 4 == (e - 1) / 4 + 1;
      } else {
        assert e / 4 == (e - 1) / 4;
      }
    }
  }

  /** `[0, 1, ..., n - 1]`: `iota` over the sample indices. */
  function Iota(n: nat): (r: seq<int>)
    ensures |r| == n && forall i :: 0 <= i < n ==> r[i] == i
  {
    seq(n, i requires 0 <= i < n => i)
  }

  /** A shuffle of the sample indices. */
  predicate IsPermutation(order: seq<int>, n: nat) {
    |order| == n && multiset(order) == multiset(Iota(n))
  }

  /** A shuffled order names every sample exactly once, so it is in range. */
  lemma PermutationInRange(order: seq<int>, n: nat)
    requires IsPermutation(order, n)
    ensures forall j :: 0 <= j < |order| ==> 0 <= order[j] < n
  {
    forall j | 0 <= j < |order|
      ensures 0 <= order[j] < n
    {
      assert order[j] in multiset(order);
      assert order[j] in multiset(Iota(n));
      assert order[j] in Iota(n);
    }
  }

  /** The training and test data of `train`. */
  datatype Dataset = Dataset(inputs: seq<seq<real>>, targets: seq<seq<real>>)

  /** The remaining arguments of `train`. */
  datatype TrainOptions = TrainOptions(epochs: int, batchSize: int, learningRate: real, l2Reg: real,
                                       shuffle: bool, metrics: bool, train: bool)

  /** What one epoch reports: the total loss (printed divided by the sample
      count) and, with metrics on, the train and test accuracies and the
      test loss written to the log. */
  datatype EpochLog = EpochLog(totalLoss: real, trainAccuracy: Option<real>, testAccuracy: Option<real>, testLoss: Option<real>)

  /** The order of the samples in epoch e: the indices shuffled for that
      epoch, or `0, 1, ..., N - 1`. */
  function OrderAt(data: Dataset, opts: TrainOptions, perm: nat -> seq<int>, e: nat): seq<int> {
    if opts.shuffle then perm(e) else Iota(|data.inputs|)
  }

  /** What `train` needs of its arguments for every index it reads to
      exist: enough targets, a positive batch size when there are samples,
      a shuffle that permutes the indices, a last layer for the targets, a
      long enough gradient for every ReLU, and, with metrics, outputs with a
      first element and enough test targets. */
  ghost predicate CanTrain(sh: seq<LayerShape>, data: Dataset, test: Dataset, opts: TrainOptions, perm: nat -> seq<int>) {
    |data.targets| >= |data.inputs| &&
    (|data.inputs| > 0 ==> opts.batchSize >= 1 && |sh| > 0) &&
    (opts.shuffle ==> forall e :: 0 <= e < opts.epochs ==> IsPermutation(perm(e), |data.inputs|)) &&
    ReluFed(sh, 0) &&
    (opts.metrics ==>
      |test.targets| >= |test.inputs| && (|test.inputs| > 0 ==> |sh| > 0) &&
      OutputsNonEmpty(sh, data.inputs) && OutputsNonEmpty(sh, test.inputs))
  }

  /** The order of every epoch names existing samples. */
  lemma OrderInRange(data: Dataset, opts: TrainOptions, perm: nat -> seq<int>, sh: seq<LayerShape>, test: Dataset, e: nat)
    requires CanTrain(sh, data, test, opts, perm) && e < opts.epochs
    ensures SamplesInRange(data.inputs, data.targets, OrderAt(data, opts, perm, e), 0, |data.inputs|)
  {
    if opts.shuffle {
      PermutationInRange(perm(e), |data.inputs|);
    }
  }

  // ---------------------------------------------------------------------
  // evaluate, calculate_test_loss, predict_classes, predict_pairs
  // ---------------------------------------------------------------------

  /** The index of the first largest entry: the running maximum with a
      strict `>` starting from `out[0]`. */
  function FirstArgMax(out: seq<real>): (p: int)
    requires |out| >= 1
    ensures 0 <= p < |out|
    ensures forall i :: 0 <= i < |out| ==> out[i] <= out[p]
    ensures forall i :: 0 <= i < p ==> out[i] < out[p]
    decreases |out|
  {
    if |out| == 1 then 0
    else
      var q := FirstArgMax(out[..|out| - 1]);
      if out[|out| - 1] > out[q] then |out| - 1 else q
  }

  /** There is only one first largest entry. */
  lemma FirstArgMaxUnique(out: seq<real>, p: int)
    requires 0 <= p < |out|
    requires forall i :: 0 <= i < |out| ==> out[i] <= out[p]
    requires forall i :: 0 <= i < p ==> out[i] < out[p]
    ensures p == FirstArgMax(out)
  {
  }

  /** The class a one-hot label names: its first 1.0, or 0 when it has none. */
  function LabelOf(t: seq<real>): (c: int)
    ensures 0 <= c && (|t| > 0 ==> c < |t|)
    ensures c > 0 ==> c < |t| && t[c] == 1.0
    ensures (exists i :: 0 <= i < |t| && t[i] == 1.0) ==> t[c] == 1.0 && forall i :: 0 <= i < c ==> t[i] != 1.0
  {
    if S.FirstOne(t) < 0 then 0 else S.FirstOne(t)
  }

  /** Images n, n + 1, ... of `evaluate`, `correct` of the earlier ones having
      been right: forward each, compare the first maximum with the label. */
  function EvaluateFrom(ls: seq<LayerState>, images: seq<seq<real>>, labels: seq<seq<real>>, n: int, correct: int,
                        train: bool, stream: nat -> real, pos: nat)
    : (r: (seq<LayerState>, Outcome<int>, nat))
    requires AllValid(ls) && 0 <= n <= |images| <= |labels| && 0 <= correct <= n
    requires OutputsNonEmpty(Shapes(ls), images)
    ensures AllValid(r.0) && SameShape(ls, r.0) && r.2 >= pos
    ensures r.1.Ok? ==> correct <= r.1.value <= correct + |images| - n
    decreases |images| - n
  {
    if n == |images| then (ls, Ok(correct), pos)
    else
      var (ls1, o, p) := RunForward(ls, images[n], train, stream, pos);
      if o.Err? then (ls1, Err(o.msg), p)
      else
        ForwardOutputLength(ls, images[n], train, stream, pos, |ls|);
        SameShapeShapes(ls, ls1);
        var hit := if FirstArgMax(o.value) == LabelOf(labels[n]) then 1 else 0;
        EvaluateFrom(ls1, images, labels, n + 1, correct + hit, train, stream, p)
  }

  lemma Fraction(a: int, n: int)
    requires 0 <= a <= n && n > 0
    ensures 0.0 <= a as real / n as real <= 1.0
  {
  }

  /** `evaluate(images, labels, train)`: the fraction of images whose first
      largest output is the labelled class, 0 for no image. */
  function EvaluateSpec(ls: seq<LayerState>, images: seq<seq<real>>, labels: seq<seq<real>>,
                        train: bool, stream: nat -> real, pos: nat)
    : (r: (seq<LayerState>, Outcome<real>, nat))
    requires AllValid(ls) && |images| <= |labels|
    requires OutputsNonEmpty(Shapes(ls), images)
    ensures AllValid(r.0) && SameShape(ls, r.0) && r.2 >= pos
    ensures r.1.Ok? ==> 0.0 <= r.1.value <= 1.0
    ensures |images| == 0 ==> r == (ls, Ok(0.0), pos)
  {
    if |images| == 0 then (ls, Ok(0.0), pos)
    else
      var (ls1, o, p) := EvaluateFrom(ls, images, labels, 0, 0, train, stream, pos);
      if o.Err? then (ls1, Err(o.msg), p)
      else
        Fraction(o.value, |images|);
        (ls1, Ok(o.value as real / |images| as real), p)
  }

  /** Samples n, n + 1, ... of `calculate_test_loss`: attach the target,
      forward, add the last layer's loss to `acc`. */
  function TestLossFrom(ls: seq<LayerState>, inputs: seq<seq<real>>, targets: seq<seq<real>>, n: int, acc: real,
                        train: bool, stream: nat -> real, pos: nat)
    : (r: (seq<LayerState>, Outcome<real>, nat))
    requires AllValid(ls) && 0 <= n <= |inputs| <= |targets| && (n < |inputs| ==> |ls| > 0)
    ensures AllValid(r.0) && SameShape(ls, r.0) && r.2 >= pos
    ensures r.1.Ok? ==> r.1.value >= acc
    decreases |inputs| - n
  {
    if n == |inputs| then (ls, Ok(acc), pos)
    else
      var (ls1, o, p) := RunForward(SetLastTargets(ls, targets[n]), inputs[n], train, stream, pos);
      if o.Err? then (ls1, Err(o.msg), p)
      else
        var loss := GetLoss(ls1[|ls1| - 1]);
        if loss.Err? then (ls1, Err(loss.msg), p)
        else TestLossFrom(ls1, inputs, targets, n + 1, acc + loss.value, train, stream, p)
  }

  /** A successful forward pass of image n of a set whose outputs index a
      list of names has a first maximum naming one of them, and leaves the
      shapes as they were. */
  lemma NamedOutput(ls: seq<LayerState>, images: seq<seq<real>>, names: seq<string>, n: int,
                    train: bool, stream: nat -> real, pos: nat)
    requires AllValid(ls) && 0 <= n < |images|
    requires OutputsIndexNames(Shapes(ls), images, |names|)
    requires RunForward(ls, images[n], train, stream, pos).1.Ok?
    ensures 1 <= |RunForward(ls, images[n], train, stream, pos).1.value|
    ensures FirstArgMax(RunForward(ls, images[n], train, stream, pos).1.value) < |names|
    ensures Shapes(RunForward(ls, images[n], train, stream, pos).0) == Shapes(ls)
  {
    ForwardOutputLength(ls, images[n], train, stream, pos, |ls|);
    SameShapeShapes(ls, RunForward(ls, images[n], train, stream, pos).0);
  }

  /** The names predicted for images n, n + 1, ... follow `acc` once the
      name of image n is appended to it. */
  lemma PredictStep(o: Outcome<seq<string>>, acc: seq<string>, name: string, acc1: seq<string>,
                    names: seq<string>, count: int, n: int)
    requires 0 <= n < count && name in names && acc1 == acc + [name]
    requires o.Ok? ==> |o.value| == |acc1| + count - (n + 1) && o.value[..|acc1|] == acc1
    requires o.Ok? ==> forall i :: |acc1| <= i < |o.value| ==> o.value[i] in names
    ensures o.Ok? ==> |o.value| == |acc| + count - n && o.value[..|acc|] == acc
    ensures o.Ok? ==> forall i :: |acc| <= i < |o.value| ==> o.value[i] in names
  {
    if o.Ok? {
      var v := o.value;
      assert v[..|acc|] == (acc + [name])[..|acc|];
      assert v[|acc|] == v[..|acc| + 1][|acc|] == name;
    }
  }

  /** Images n, n + 1, ... of `predict_classes`: the name of each image's
      first largest output, after the names in `acc`. */
  function PredictFrom(ls: seq<LayerState>, images: seq<seq<real>>, names: seq<string>, n: int, acc: seq<string>,
                       train: bool, stream: nat -> real, pos: nat)
    : (r: (seq<LayerState>, Outcome<seq<string>>, nat))
    requires AllValid(ls) && 0 <= n <= |images|
    requires OutputsIndexNames(Shapes(ls), images, |names|)
    ensures AllValid(r.0) && SameShape(ls, r.0) && r.2 >= pos
    ensures r.1.Ok? ==> |r.1.value| == |acc| + |images| - n && r.1.value[..|acc|] == acc
    ensures r.1.Ok? ==> forall i :: |acc| <= i < |r.1.value| ==> r.1.value[i] in names
    decreases |images| - n
  {
    if n == |images| then (ls, Ok(acc), pos)
    else
      var (ls1, o, p) := RunForward(ls, images[n], train, stream, pos);
      if o.Err? then (ls1, Err(o.msg), p)
      else
        NamedOutput(ls, images, names, n, train, stream, pos);
        var name := names[FirstArgMax(o.value)];
        var acc1 := acc + [name];
        var r := PredictFrom(ls1, images, names, n + 1, acc1, train, stream, p);
        PredictStep(r.1, acc, name, acc1, names, |images|, n);
        SameShapeTransitive(ls, ls1, r.0);
        r
  }

  /** v is `acc` followed by one pair per image n, ..., count - 1: the
      name of its labelled class and a name of the list. */
  predicate PairsFollow(v: seq<(string, string)>, acc: seq<(string, string)>, labels: seq<seq<real>>,
                        names: seq<string>, n: int, count: int) {
    0 <= n <= count <= |labels| && |v| == |acc| + count - n && v[..|acc|] == acc &&
    forall k :: n <= k < count ==>
      LabelOf(labels[k]) < |names| && v[|acc| + k - n].0 == names[LabelOf(labels[k])] && v[|acc| + k - n].1 in names
  }

  /** The pairs for images n, n + 1, ... follow `acc` once the pair of
      image n is appended to it. */
  lemma PairsStep(v: seq<(string, string)>, acc: seq<(string, string)>, pair: (string, string),
                  acc1: seq<(string, string)>, labels: seq<seq<real>>, names: seq<string>, count: int, n: int)
    requires 0 <= n < count <= |labels| && acc1 == acc + [pair]
    requires LabelOf(labels[n]) < |names| && pair.0 == names[LabelOf(labels[n])] && pair.1 in names
    requires PairsFollow(v, acc1, labels, names, n + 1, count)
    ensures PairsFollow(v, acc, labels, names, n, count)
  {
    assert v[..|acc|] == (acc + [pair])[..|acc|];
    assert v[|acc|] == v[..|acc| + 1][|acc|] == pair;
    forall k | n <= k < count
      ensures LabelOf(labels[k]) < |names| && v[|acc| + k - n].0 == names[LabelOf(labels[k])] && v[|acc| + k - n].1 in names
    {
      if k > n {
        assert |acc| + k - n == |acc1| + k - (n + 1);
      }
    }
  }

  /** Images n, n + 1, ... of `predict_pairs`: the name of each image's
      labelled class paired with the name of its first largest output. */
  function PairsFrom(ls: seq<LayerState>, images: seq<seq<real>>, labels: seq<seq<real>>, names: seq<string>,
                     n: int, acc: seq<(string, string)>, train: bool, stream: nat -> real, pos: nat)
    : (r: (seq<LayerState>, Outcome<seq<(string, string)>>, nat))
    requires AllValid(ls) && 0 <= n <= |images| <= |labels|
    requires OutputsIndexNames(Shapes(ls), images, |names|)
    requires forall k :: 0 <= k < |images| ==> LabelOf(labels[k]) < |names|
    ensures AllValid(r.0) && SameShape(ls, r.0) && r.2 >= pos
    ensures r.1.Ok? ==> PairsFollow(r.1.value, acc, labels, names, n, |images|)
    decreases |images| - n
  {
    if n == |images| then (ls, Ok(acc), pos)
    else
      var (ls1, o, p) := RunForward(ls, images[n], train, stream, pos);
      if o.Err? then (ls1, Err(o.msg), p)
      else
        NamedOutput(ls, images, names, n, train, stream, pos);
        var pair := (names[LabelOf(labels[n])], names[FirstArgMax(o.value)]);
        var acc1 := acc + [pair];
        var r := PairsFrom(ls1, images, labels, names, n + 1, acc1, train, stream, p);
        SameShapeTransitive(ls, ls1, r.0);
        if r.1.Ok? then PairsStep(r.1.value, acc, pair, acc1, labels, names, |images|, n); r else r
  }

  // ---------------------------------------------------------------------
  // train
  // ---------------------------------------------------------------------

  /** Epoch e of `train`: the shuffled order, the learning rate of the
      schedule, the mini-batches, and with metrics the evaluation on both
      sets and the test loss. */
  function EpochStep(ls: seq<LayerState>, data: Dataset, test: Dataset, opts: TrainOptions, perm: nat -> seq<int>,
                     e: nat, stream: nat -> real, pos: nat)
    : (r: (seq<LayerState>, Outcome<EpochLog>, nat))
    requires AllValid(ls) && CanTrain(Shapes(ls), data, test, opts, perm) && e < opts.epochs
    ensures AllValid(r.0) && SameShape(ls, r.0) && r.2 >= pos
    ensures r.1.Ok? ==> r.1.value.totalLoss >= 0.0 && (r.1.value.trainAccuracy.Some? <==> opts.metrics)
  {
    var order := OrderAt(data, opts, perm, e);
    OrderInRange(data, opts, perm, Shapes(ls), test, e);
    var bs := if opts.batchSize >= 1 then opts.batchSize else 1;
    var (ls1, o, p) := BatchesFrom(ls, data.inputs, data.targets, order, bs, LrAt(opts.learningRate, e),
                                   opts.l2Reg, opts.train, 0, 0.0, stream, pos);
    if o.Err? then (ls1, Err(o.msg), p)
    else if !opts.metrics then (ls1, Ok(EpochLog(o.value, None, None, None)), p)
    else
      MetricsReady(ls, ls1, data, test, opts, perm);
      var r := MetricsStep(ls1, data, test, o.value, stream, p);
      SameShapeTransitive(ls, ls1, r.0);
      r
  }

  /** A network of the same shape as one that can train with metrics can
      be evaluated on both sets. */
  lemma MetricsReady(ls: seq<LayerState>, ls1: seq<LayerState>, data: Dataset, test: Dataset, opts: TrainOptions,
                     perm: nat -> seq<int>)
    requires SameShape(ls, ls1) && CanTrain(Shapes(ls), data, test, opts, perm) && opts.metrics
    ensures |data.targets| >= |data.inputs| && |test.targets| >= |test.inputs| && (|test.inputs| > 0 ==> |ls1| > 0)
    ensures OutputsNonEmpty(Shapes(ls1), data.inputs) && OutputsNonEmpty(Shapes(ls1), test.inputs)
  {
    SameShapeShapes(ls, ls1);
  }

  /** The metrics of one epoch: accuracy on the training set, accuracy on
      the test set and the test loss, all in inference mode. */
  function MetricsStep(ls: seq<LayerState>, data: Dataset, test: Dataset, loss: real, stream: nat -> real, pos: nat)
    : (r: (seq<LayerState>, Outcome<EpochLog>, nat))
    requires AllValid(ls) && |data.targets| >= |data.inputs| && |test.targets| >= |test.inputs|
    requires |test.inputs| > 0 ==> |ls| > 0
    requires OutputsNonEmpty(Shapes(ls), data.inputs) && OutputsNonEmpty(Shapes(ls), test.inputs)
    ensures AllValid(r.0) && SameShape(ls, r.0) && r.2 >= pos
    ensures r.1.Ok? ==> r.1.value.totalLoss == loss && r.1.value.trainAccuracy.Some?
  {
    var (ls2, a1, p2) := EvaluateSpec(ls, data.inputs, data.targets, false, stream, pos);
    SameShapeShapes(ls, ls2);
    if a1.Err? then (ls2, Err(a1.msg), p2)
    else
      var (ls3, a2, p3) := EvaluateSpec(ls2, test.inputs, test.targets, false, stream, p2);
      if a2.Err? then (ls3, Err(a2.msg), p3)
      else
        var (ls4, tl, p4) := TestLossFrom(ls3, test.inputs, test.targets, 0, 0.0, false, stream, p3);
        if tl.Err? then (ls4, Err(tl.msg), p4)
        else (ls4, Ok(EpochLog(loss, Some(a1.value), Some(a2.value), Some(tl.value))), p4)
  }

  /** Epochs e, e + 1, ... of `train`, after the epoch reports in `logs`. */
  function EpochsFrom(ls: seq<LayerState>, data: Dataset, test: Dataset, opts: TrainOptions, perm: nat -> seq<int>,
                      e: nat, logs: seq<EpochLog>, stream: nat -> real, pos: nat)
    : (r: (seq<LayerState>, Outcome<seq<EpochLog>>, nat))
    requires AllValid(ls) && CanTrain(Shapes(ls), data, test, opts, perm)
    ensures AllValid(r.0) && SameShape(ls, r.0) && r.2 >= pos
    ensures r.1.Ok? ==> |r.1.value| == |logs| + (if opts.epochs > e then opts.epochs - e else 0)
    decreases opts.epochs - e
  {
    if e >= opts.epochs then (ls, Ok(logs), pos)
    else
      var (ls1, o, p) := EpochStep(ls, data, test, opts, perm, e, stream, pos);
      SameShapeShapes(ls, ls1);
      if o.Err? then (ls1, Err(o.msg), p)
      else EpochsFrom(ls1, data, test, opts, perm, e + 1, logs + [o.value], stream, p)
  }

  /** `train(...)`: the log file must open, then every epoch. */
  function TrainSpec(ls: seq<LayerState>, data: Dataset, test: Dataset, opts: TrainOptions, perm: nat -> seq<int>,
                     logOpened: bool, stream: nat -> real, pos: nat)
    : (r: (seq<LayerState>, Outcome<seq<EpochLog>>, nat))
    requires AllValid(ls) && CanTrain(Shapes(ls), data, test, opts, perm)
    ensures AllValid(r.0) && SameShape(ls, r.0) && r.2 >= pos
    ensures !logOpened ==> r == (ls, Err("CNN_model::train: Could not open log file."), pos)
    ensures r.1.Ok? ==> |r.1.value| == (if opts.epochs > 0 then opts.epochs else 0)
  {
    if !logOpened then (ls, Err("CNN_model::train: Could not open log file."), pos)
    else EpochsFrom(ls, data, test, opts, perm, 0, [], stream, pos)
  }

}
