/** The network object (CNN/include/CNN.h, CNN/src/CNN.cpp): a list of
    layer objects it calls through the base-layer interface.  Each method
    is proved against the function of module Network that says what it
    computes on the layers' states. */
module Model {
  import opened Tensor
  import opened Layers
  import opened Network
  import C = Convolution
  import P = Pool
  import R = Relu
  import D = DropOut
  import F = FullyConnected
  import S = Softmax

  /** A `BaseLayer*`: one of the six layer objects. */
  datatype Layer =
    | Conv(conv: C.ConvolutionLayer)
    | Pool(pool: P.PoolLayer)
    | Relu(relu: R.ReluLayer)
    | DropOut(drop: D.DropOutLayer)
    | FC(fc: F.FCLayer)
    | Softmax(softmax: S.SoftmaxLayer)
  {
    function Obj(): object {
      match this
      case Conv(o) => o
      case Pool(o) => o
      case Relu(o) => o
      case DropOut(o) => o
      case FC(o) => o
      case Softmax(o) => o
    }

    ghost predicate Valid()
      reads Obj()
    {
      match this
      case Conv(o) => o.Valid()
      case Pool(o) => o.Valid()
      case Relu(o) => o.Valid()
      case DropOut(o) => o.Valid()
      case FC(o) => o.Valid()
      case Softmax(o) => o.Valid()
    }

    ghost function State(): LayerState
      reads Obj()
    {
      match this
      case Conv(o) => ConvLayer(o.State())
      case Pool(o) => PoolLayer(o.State())
      case Relu(o) => ReluLayer(o.State())
      case DropOut(o) => DropOutLayer(o.State())
      case FC(o) => FCLayer(o.State())
      case Softmax(o) => SoftmaxLayer(o.State(), o.math)
    }
  }

  // ---------------------------------------------------------------------
  // The virtual calls on a layer object
  // ---------------------------------------------------------------------

  method LayerForward(h: Layer, x: seq<real>, train: bool, rng: Rng) returns (r: Outcome<seq<real>>)
    requires h.Valid()
    modifies h.Obj(), rng
    ensures h.Valid()
    ensures (h.State(), r, rng.pos) == Forward(old(h.State()), x, train, rng.stream, old(rng.pos))
  {
    match h
    case Conv(o) =>
      r := o.Forward(x, train);
      assert Forward(old(h.State()), x, train, rng.stream, old(rng.pos)) == (ConvLayer(o.State()), r, rng.pos);
    case Pool(o) =>
      r := o.Forward(x, train);
      assert Forward(old(h.State()), x, train, rng.stream, old(rng.pos)) == (PoolLayer(o.State()), r, rng.pos);
    case Relu(o) =>
      r := o.Forward(x, train);
      assert Forward(old(h.State()), x, train, rng.stream, old(rng.pos)) == (ReluLayer(o.State()), r, rng.pos);
    case DropOut(o) => r := o.Forward(x, train, rng);
    case FC(o) =>
      r := o.Forward(x, train);
      assert Forward(old(h.State()), x, train, rng.stream, old(rng.pos)) == (FCLayer(o.State()), r, rng.pos);
    case Softmax(o) =>
      r := o.Forward(x, train);
      assert Forward(old(h.State()), x, train, rng.stream, old(rng.pos)) == (SoftmaxLayer(o.State(), o.math), r, rng.pos);
  }

  method LayerBackward(h: Layer, d: seq<real>) returns (r: Outcome<seq<real>>)
    requires h.Valid()
    requires h.Relu? ==> |d| >= h.State().InputLength()
    modifies h.Obj()
    ensures h.Valid()
    ensures (h.State(), r) == Backward(old(h.State()), d)
  {
    match h
    case Conv(o) => r := o.Backward(d);
    case Pool(o) => r := o.Backward(d);
    case Relu(o) => r := o.Backward(d);
    case DropOut(o) => r := o.Backward(d);
    case FC(o) => r := o.Backward(d);
    case Softmax(o) => r := o.Backward(d);
  }

  method LayerZeroGradients(h: Layer)
    requires h.Valid()
    modifies h.Obj()
    ensures h.Valid() && h.State() == ZeroGradients(old(h.State()))
  {
    match h
    case Conv(o) => o.ZeroGradients();
    case FC(o) => o.ZeroGradients();
    case _ =>
  }

  /** `update_weights`, `update_biases` and `update_filters`, in that order. */
  method LayerUpdate(h: Layer, lr: real, l2: real)
    requires h.Valid()
    modifies h.Obj()
    ensures h.Valid() && h.State() == UpdateAll(old(h.State()), lr, l2)
  {
    match h
    case Conv(o) =>
      o.UpdateBiases(lr, l2);
      o.UpdateFilters(lr, l2);
    case FC(o) =>
      o.UpdateWeights(lr, l2);
      o.UpdateBiases(lr, l2);
    case _ =>
  }

  method LayerSetTargets(h: Layer, t: seq<real>)
    requires h.Valid()
    modifies h.Obj()
    ensures h.Valid() && h.State() == SetTargets(old(h.State()), Some(t))
  {
    match h
    case Softmax(o) => o.SetTargets(Some(t));
    case _ =>
  }

  method LayerGetLoss(h: Layer) returns (r: Outcome<real>)
    ensures r == GetLoss(h.State())
  {
    match h
    case Softmax(o) => r := o.GetLoss();
    case _ => r := Ok(0.0);
  }

  method LayerOutputSize(h: Layer) returns (shape: seq<int>)
    requires h.Valid()
    ensures shape == OutputSize(h.State())
  {
    match h
    case Conv(o) => shape := o.GetOutputSize();
    case Pool(o) => shape := o.GetOutputSize();
    case Relu(o) => shape := o.GetOutputSize();
    case DropOut(o) => shape := o.GetOutputSize();
    case FC(o) => shape := o.GetOutputSize();
    case Softmax(o) => shape := o.GetOutputSize();
  }

  // ---------------------------------------------------------------------
  // CNN_model
  // ---------------------------------------------------------------------

  class CNNModel {
    var layers: seq<Layer>
    /** The layers' states, in order. */
    ghost var states: seq<LayerState>
    ghost var Repr: set<object>
    /** The position of each layer object; that it is a function keeps the
        layer objects apart. */
    ghost var slot: map<object, int>

    /** The layer objects, one per position, none shared, and their states. */
    ghost predicate Valid()
      reads this, Repr
    {
      this !in Repr && |states| == |layers| &&
      forall i :: 0 <= i < |layers| ==>
        layers[i].Obj() in Repr && layers[i].Obj() in slot && slot[layers[i].Obj()] == i &&
        layers[i].Valid() && layers[i].State() == states[i]
    }

    lemma StatesValid()
      requires Valid()
      ensures AllValid(states)
    {
    }

    constructor ()
      ensures Valid() && layers == [] && states == []
    {
      layers := [];
      states := [];
      Repr := {};
      slot := map[];
    }

    /** `add_layer`: the model takes the layer. */
    method AddLayer(h: Layer)
      requires Valid() && h.Valid() && h.Obj() !in Repr && h.Obj() != this
      modifies this
      ensures Valid() && layers == old(layers) + [h]
      ensures states == old(states) + [h.State()]
    {
      layers := layers + [h];
      states := states + [h.State()];
      Repr := Repr + {h.Obj()};
      slot := slot[h.Obj() := |layers| - 1];
    }

    /** The virtual `forward` call on layer `i` alone. */
    method ForwardAt(i: nat, x: seq<real>, train: bool, rng: Rng) returns (o: Outcome<seq<real>>)
      requires Valid() && rng !in Repr && i < |layers|
      modifies this, layers[i].Obj(), rng
      ensures Valid() && layers == old(layers) && Repr == old(Repr) && slot == old(slot)
      ensures |states| == |old(states)| && states == old(states)[i := states[i]]
      ensures (states[i], o, rng.pos) == Layers.Forward(old(states)[i], x, train, rng.stream, old(rng.pos))
    {
      o := LayerForward(layers[i], x, train, rng);
      states := states[i := layers[i].State()];
    }

    /** One turn of the `forward` loop: layer `i` is called on the output of
        the layers below it. */
    method ForwardTurn(ghost ss0: seq<LayerState>, ghost input: seq<real>, ghost pos0: nat,
                       i: nat, cur: seq<real>, train: bool, rng: Rng) returns (o: Outcome<seq<real>>)
      requires Valid() && rng !in Repr && i < |layers| == |ss0|
      requires ForwardReached(ss0, input, train, rng.stream, pos0, i, states, Ok(cur), rng.pos)
      modifies this, layers[i].Obj(), rng
      ensures Valid() && layers == old(layers) && Repr == old(Repr) && slot == old(slot)
      ensures ForwardReached(ss0, input, train, rng.stream, pos0, i + 1, states, o, rng.pos)
    {
      ghost var mid, p := states, rng.pos;
      o := ForwardAt(i, cur, train, rng);
      ForwardNext(ss0, input, train, rng.stream, pos0, i, cur, mid, p, states[i], o, rng.pos);
    }

    /** `forward(input, train)`: each layer's output is the next one's input. */
    method Forward(input: seq<real>, train: bool, rng: Rng) returns (r: Outcome<seq<real>>)
      requires Valid() && rng !in Repr
      modifies this, Repr, rng
      ensures Valid() && layers == old(layers) && Repr == old(Repr) && slot == old(slot)
      ensures (states, r, rng.pos) == RunForward(old(states), input, train, rng.stream, old(rng.pos))
    {
      StatesValid();
      ghost var ss0 := states;
      ghost var pos0 := rng.pos;
      r := Ok(input);
      var i := 0;
      while i < |layers| && r.Ok?
        invariant 0 <= i <= |layers| && Valid() && layers == old(layers) && Repr == old(Repr) && slot == old(slot)
        invariant ForwardReached(ss0, input, train, rng.stream, pos0, i, states, r, rng.pos)
      {
        r := ForwardTurn(ss0, input, pos0, i, r.value, train, rng);
        i := i + 1;
      }
      ForwardFinished(ss0, input, train, rng.stream, pos0, i, states, r, rng.pos);
    }

    /** The virtual `backward` call on layer `i` alone. */
    method BackwardAt(i: nat, d: seq<real>) returns (o: Outcome<seq<real>>)
      requires Valid() && i < |layers|
      requires layers[i].Relu? ==> |d| >= states[i].InputLength()
      modifies this, layers[i].Obj()
      ensures Valid() && layers == old(layers) && Repr == old(Repr) && slot == old(slot)
      ensures |states| == |old(states)| && states == old(states)[i := states[i]]
      ensures (states[i], o) == Layers.Backward(old(states)[i], d)
    {
      o := LayerBackward(layers[i], d);
      states := states[i := layers[i].State()];
    }

    /** One turn of the `backward` loop: layer `i` is called on the gradient
        the layers above it returned. */
    method BackwardTurn(ghost ss0: seq<LayerState>, ghost dOut: seq<real>, i: nat, cur: seq<real>)
        returns (o: Outcome<seq<real>>)
      requires Valid() && i < |layers| == |ss0| && ReluFed(Shapes(ss0), |dOut|)
      requires BackwardReached(ss0, dOut, i + 1, states, Ok(cur))
      modifies this, layers[i].Obj()
      ensures Valid() && layers == old(layers) && Repr == old(Repr) && slot == old(slot)
      ensures BackwardReached(ss0, dOut, i, states, o)
    {
      ghost var mid := states;
      if layers[i].Relu? {
        assert Shapes(ss0)[i].kind == ReluKind;
        GradientReaches(ss0, dOut, i, ss0[i].InputLength());
      }
      o := BackwardAt(i, cur);
      BackwardNext(ss0, dOut, i, cur, mid, states[i], o);
    }

    /** `backward(d_out)`: each layer's input gradient is the gradient of
        the layer below.  Every ReLU must receive a long enough gradient. */
    method Backward(dOut: seq<real>) returns (r: Outcome<seq<real>>)
      requires Valid() && ReluFed(Shapes(states), |dOut|)
      modifies this, Repr
      ensures Valid() && layers == old(layers) && Repr == old(Repr) && slot == old(slot)
      ensures (states, r) == RunBackward(old(states), dOut)
    {
      StatesValid();
      ghost var ss0 := states;
      BackwardStart(ss0, dOut);
      r := Ok(dOut);
      var i := |layers|;
      while i > 0 && r.Ok?
        invariant 0 <= i <= |layers| && Valid() && layers == old(layers) && Repr == old(Repr) && slot == old(slot)
        invariant BackwardReached(ss0, dOut, i, states, r)
      {
        r := BackwardTurn(ss0, dOut, i - 1, r.value);
        i := i - 1;
      }
      BackwardFinished(ss0, dOut, i, states, r);
    }

    /** `zero_gradients` on layer `i` alone. */
    method ZeroAt(i: nat)
      requires Valid() && i < |layers|
      modifies this, layers[i].Obj()
      ensures Valid() && layers == old(layers) && Repr == old(Repr) && slot == old(slot)
      ensures states == old(states)[i := ZeroGradients(old(states)[i])]
    {
      LayerZeroGradients(layers[i]);
      states := states[i := layers[i].State()];
    }

    /** The three parameter updates on layer `i` alone. */
    method UpdateAt(i: nat, lr: real, l2: real)
      requires Valid() && i < |layers|
      modifies this, layers[i].Obj()
      ensures Valid() && layers == old(layers) && Repr == old(Repr) && slot == old(slot)
      ensures states == old(states)[i := UpdateAll(old(states)[i], lr, l2)]
    {
      LayerUpdate(layers[i], lr, l2);
      states := states[i := layers[i].State()];
    }

    /** The `zero_gradients` loop at the start of `train_step`. */
    method ZeroAllLayers()
      requires Valid()
      modifies this, Repr
      ensures Valid() && layers == old(layers) && Repr == old(Repr) && slot == old(slot)
      ensures states == ZeroAll(old(states))
    {
      StatesValid();
      ghost var ss0 := states;
      var i := 0;
      while i < |layers|
        invariant 0 <= i <= |layers| && Valid() && layers == old(layers) && Repr == old(Repr) && slot == old(slot)
        invariant |states| == |ss0|
        invariant forall j :: 0 <= j < |ss0| ==> states[j] == if j < i then ZeroGradients(ss0[j]) else ss0[j]
      {
        ZeroAt(i);
        i := i + 1;
      }
    }

    /** The update loop at the end of `train_step`. */
    method UpdateAllLayers(lr: real, l2: real)
      requires Valid()
      modifies this, Repr
      ensures Valid() && layers == old(layers) && Repr == old(Repr) && slot == old(slot)
      ensures states == UpdateLayers(old(states), lr, l2)
    {
      StatesValid();
      ghost var ss0 := states;
      var i := 0;
      while i < |layers|
        invariant 0 <= i <= |layers| && Valid() && layers == old(layers) && Repr == old(Repr) && slot == old(slot)
        invariant |states| == |ss0|
        invariant forall j :: 0 <= j < |ss0| ==> states[j] == if j < i then UpdateAll(ss0[j], lr, l2) else ss0[j]
      {
        UpdateAt(i, lr, l2);
        i := i + 1;
      }
    }

    /** `layers.back()->set_targets(&target)`. */
    method AttachTarget(t: seq<real>)
      requires Valid() && |layers| > 0
      modifies this, Repr
      ensures Valid() && layers == old(layers) && Repr == old(Repr) && slot == old(slot)
      ensures states == SetLastTargets(old(states), t)
    {
      StatesValid();
      LayerSetTargets(layers[|layers| - 1], t);
      states := states[|layers| - 1 := layers[|layers| - 1].State()];
    }

    /** `layers.back()->get_loss()`. */
    method LastLoss() returns (r: Outcome<real>)
      requires Valid() && |layers| > 0
      ensures r == GetLoss(states[|layers| - 1])
    {
      r := LayerGetLoss(layers[|layers| - 1]);
    }

    /** One sample of `train_step`: the target goes to the last layer, the
        input forward, the last layer's loss is read, and an empty `d_out`
        goes backward. */
    method SampleTurn(x: seq<real>, t: seq<real>, train: bool, rng: Rng) returns (r: Outcome<real>)
      requires Valid() && rng !in Repr && |layers| > 0 && ReluFed(Shapes(states), 0)
      modifies this, Repr, rng
      ensures Valid() && layers == old(layers) && Repr == old(Repr) && slot == old(slot)
      ensures Shapes(states) == Shapes(old(states))
      ensures (states, r, rng.pos) == SampleStep(old(states), x, t, train, rng.stream, old(rng.pos))
    {
      StatesValid();
      ghost var ss0 := states;
      AttachTarget(t);
      ghost var ss1 := states;
      SameShapeShapes(ss0, ss1);
      var o := Forward(x, train, rng);
      SameShapeShapes(ss1, states);
      if o.Err? {
        return Err(o.msg);
      }
      var loss := LastLoss();
      if loss.Err? {
        return Err(loss.msg);
      }
      ghost var ss2 := states;
      var g := Backward([]);
      SameShapeShapes(ss2, states);
      if g.Err? {
        return Err(g.msg);
      }
      r := Ok(loss.value);
    }

    /** One turn of the sample loop of `train_step`: sample `indices[idx]`
        is run and its loss added to `acc`; `goal` is what the whole loop
        is to return. */
    method SampleOfBatch(inputs: seq<seq<real>>, targets: seq<seq<real>>, indices: seq<int>, idx: int, end: int,
                         acc: real, train: bool, rng: Rng, ghost goal: (seq<LayerState>, Outcome<real>, nat))
        returns (r: Outcome<real>)
      requires Valid() && rng !in Repr && idx < end && ReluFed(Shapes(states), 0)
      requires SamplesOnTrack(states, inputs, targets, indices, idx, end, Ok(acc), train, rng.stream, rng.pos, goal)
      modifies this, Repr, rng
      ensures Valid() && layers == old(layers) && Repr == old(Repr) && slot == old(slot)
      ensures Shapes(states) == Shapes(old(states))
      ensures SamplesOnTrack(states, inputs, targets, indices, idx + 1, end, r, train, rng.stream, rng.pos, goal)
    {
      ghost var mid, p := states, rng.pos;
      var k := indices[idx];
      var o := SampleTurn(inputs[k], targets[k], train, rng);
      SamplesNext(mid, inputs, targets, indices, idx, end, acc, train, rng.stream, p, goal, states, o, rng.pos);
      r := if o.Err? then o else Ok(acc + o.value);
    }

    /** The sample loop of `train_step`: the samples `indices[begin..end]`
        in turn, their losses summed. */
    method RunSamples(inputs: seq<seq<real>>, targets: seq<seq<real>>, indices: seq<int>, begin: int, end: int,
                      train: bool, rng: Rng) returns (r: Outcome<real>)
      requires Valid() && rng !in Repr && (begin < end ==> |layers| > 0) && ReluFed(Shapes(states), 0)
      requires SamplesInRange(inputs, targets, indices, begin, end)
      modifies this, Repr, rng
      ensures Valid() && layers == old(layers) && Repr == old(Repr) && slot == old(slot)
      ensures Shapes(states) == Shapes(old(states))
      ensures (states, r, rng.pos) ==
        SamplesFrom(old(states), inputs, targets, indices, begin, end, 0.0, train, rng.stream, old(rng.pos))
    {
      StatesValid();
      ghost var ss0 := states;
      ghost var goal := SamplesFrom(ss0, inputs, targets, indices, begin, end, 0.0, train, rng.stream, rng.pos);
      SamplesStart(ss0, inputs, targets, indices, begin, end, train, rng.stream, rng.pos);
      r := Ok(0.0);
      var idx := begin;
      while idx < end && r.Ok?
        invariant Valid() && layers == old(layers) && Repr == old(Repr) && slot == old(slot)
        invariant Shapes(states) == Shapes(ss0)
        invariant SamplesOnTrack(states, inputs, targets, indices, idx, end, r, train, rng.stream, rng.pos, goal)
        decreases end - idx
      {
        r := SampleOfBatch(inputs, targets, indices, idx, end, r.value, train, rng, goal);
        idx := idx + 1;
      }
      SamplesDone(states, inputs, targets, indices, idx, end, r, train, rng.stream, rng.pos, goal);
    }

    /** `train_step(inputs, targets, indices, begin, end, lr, l2, train)`:
        gradients zeroed, the samples `indices[begin..end]` in turn, the
        losses summed, then every layer updated at `lr / (end - begin)`. */
    method TrainStep(inputs: seq<seq<real>>, targets: seq<seq<real>>, indices: seq<int>, begin: int, end: int,
                     lr: real, l2: real, train: bool, rng: Rng) returns (r: Outcome<real>)
      requires Valid() && rng !in Repr && (begin < end ==> |layers| > 0) && ReluFed(Shapes(states), 0)
      requires SamplesInRange(inputs, targets, indices, begin, end)
      modifies this, Repr, rng
      ensures Valid() && layers == old(layers) && Repr == old(Repr) && slot == old(slot)
      ensures Shapes(states) == Shapes(old(states))
      ensures (states, r, rng.pos) ==
        TrainStepSpec(old(states), inputs, targets, indices, begin, end, lr, l2, train, rng.stream, old(rng.pos))
    {
      StatesValid();
      ghost var ss0 := states;
      ZeroAllLayers();
      SameShapeShapes(ss0, states);
      r := RunSamples(inputs, targets, indices, begin, end, train, rng);
      if r.Ok? {
        ghost var ss1 := states;
        StatesValid();
        UpdateAllLayers(LrEff(lr, begin, end), l2);
        SameShapeShapes(ss1, states);
      }
    }

    /** `get_output_size`: the last layer's, or empty without layers. */
    method GetOutputSize() returns (shape: seq<int>)
      requires Valid()
      ensures shape == if |layers| == 0 then [] else OutputSize(states[|layers| - 1])
    {
      if |layers| == 0 {
        shape := [];
      } else {
        shape := LayerOutputSize(layers[|layers| - 1]);
      }
    }
  }
}
