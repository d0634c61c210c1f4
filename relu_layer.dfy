/** The ReLU layer (CNN/src/ReluLayer.cpp): element-wise max(0, x) forward and a
    gradient gate backward.  The layer's state as a value, its transitions as
    functions, and the layer object whose loop methods are proved against them. */
module Relu {
  import opened Tensor

  datatype ReluState = ReluState(
    inputChannels: int, inputHeight: int, inputWidth: int,
    lastInput: seq<real>, lastOutput: seq<real>, dInput: seq<real>)
  {
    function Size(): int {
      inputChannels * inputHeight * inputWidth
    }

    ghost predicate Valid() {
      inputChannels >= 0 && inputHeight >= 0 && inputWidth >= 0 &&
      |lastInput| == Size() && |dInput| == Size()
    }
  }

  /** The state the constructor builds: zero-filled `last_input` and `d_input`. */
  function Init(c: int, h: int, w: int): (s: ReluState)
    requires c >= 0 && h >= 0 && w >= 0
    ensures s.Valid()
  {
    var n := c * h * w;
    MulMono(0, c, h);
    MulMono(0, c * h, w);
    ReluState(c, h, w, Zeros(n), [], Zeros(n))
  }

  /** max(0, x) element by element. */
  function Rectify(x: seq<real>): (r: seq<real>)
    ensures |r| == |x|
  {
    seq(|x|, i requires 0 <= i < |x| => Max0(x[i]))
  }

  /** The upstream gradient where the retained input is positive, 0 elsewhere. */
  function Gate(last: seq<real>, dOut: seq<real>): (r: seq<real>)
    ensures |r| == |last|
  {
    seq(|last|, i requires 0 <= i < |last| => GateAt(last, dOut, i))
  }

  function GateAt(last: seq<real>, dOut: seq<real>, i: int): real
    requires 0 <= i < |last|
  {
    if last[i] <= 0.0 then 0.0 else At(dOut, i)
  }

  /** `forward`: size check, then `last_input = input` and the rectified output. */
  function ForwardStep(s: ReluState, input: seq<real>): (ReluState, Outcome<seq<real>>) {
    if |input| != s.Size() then (s, Err("ReluLayer::forward: input size mismatch."))
    else (s.(lastInput := input, lastOutput := Rectify(input)), Ok(Rectify(input)))
  }

  /** `backward`: no size check on `d_out`; `d_input` is rebuilt from the gate. */
  function BackwardStep(s: ReluState, dOut: seq<real>): (ReluState, Outcome<seq<real>>) {
    (s.(dInput := Gate(s.lastInput, dOut)), Ok(Gate(s.lastInput, dOut)))
  }

  function OutputSize(s: ReluState): seq<int> {
    [s.inputChannels, s.inputHeight, s.inputWidth]
  }

  // ---------------------------------------------------------------------
  // Properties of the transitions
  // ---------------------------------------------------------------------

  /** The output is non-negative, agrees with the input where the input is
      non-negative, and rectifying twice changes nothing. */
  lemma RectifyProperties(x: seq<real>)
    ensures forall i :: 0 <= i < |x| ==> Rectify(x)[i] >= 0.0
    ensures forall i :: 0 <= i < |x| ==> (Rectify(x)[i] == x[i] <==> x[i] >= 0.0)
    ensures Rectify(Rectify(x)) == Rectify(x)
  {
  }

  /** After a successful forward, backward passes `d_out[i]` through exactly where
      the input was strictly positive and gives 0 elsewhere, whatever the sign of
      `d_out[i]`; forward keeps the state valid and backward needs no size check. */
  lemma ForwardThenBackward(s: ReluState, x: seq<real>, d: seq<real>)
    requires s.Valid() && |d| >= s.Size()
    ensures ForwardStep(s, x).1.Ok? <==> |x| == s.Size()
    ensures ForwardStep(s, x).0.Valid()
    ensures ForwardStep(s, x).1.Ok? ==>
      var g := BackwardStep(ForwardStep(s, x).0, d).1.value;
      |g| == |x| &&
      (forall i :: 0 <= i < |x| ==> (x[i] > 0.0 ==> g[i] == d[i]) && (x[i] <= 0.0 ==> g[i] == 0.0))
  {
  }

  /** The gradient is non-zero only where the forward output is non-zero. */
  lemma GateSupport(x: seq<real>, d: seq<real>, i: int)
    requires 0 <= i < |x| && |d| >= |x|
    ensures Gate(x, d)[i] != 0.0 ==> Rectify(x)[i] == x[i] && x[i] > 0.0 && Gate(x, d)[i] == d[i]
  {
  }

  /** The output shape is the input shape. */
  lemma OutputShapeIsInputShape(s: ReluState)
    ensures |OutputSize(s)| == 3
    ensures OutputSize(s)[0] * OutputSize(s)[1] * OutputSize(s)[2] == s.Size()
  {
  }

  // ---------------------------------------------------------------------
  // The loops of forward and backward, over channel, row and column
  // ---------------------------------------------------------------------

  /** The forward loop: `last_output` starts as a copy of the input and each
      element is replaced by its rectified value, visiting the flat index
      `c*H*W + h*W + w` in row-major order. */
  method RectifyLoop(input: seq<real>, channels: int, height: int, width: int) returns (out: seq<real>)
    requires channels >= 0 && height >= 0 && width >= 0
    requires |input| == channels * height * width
    ensures out == Rectify(input)
  {
    var hw := height * width;
    var n := channels * hw;
    out := input;
    ghost var k := 0;
    var c := 0;
    while c < channels
      invariant 0 <= c <= channels && k == c * hw && k <= n && |out| == n
      invariant forall j :: 0 <= j < k ==> out[j] == Max0(input[j])
      invariant forall j :: k <= j < n ==> out[j] == input[j]
    {
      MulMono(c, channels, hw);
      var h := 0;
      while h < height
        invariant 0 <= h <= height && k == c * hw + h * width && k <= n && |out| == n
        invariant forall j :: 0 <= j < k ==> out[j] == Max0(input[j])
        invariant forall j :: k <= j < n ==> out[j] == input[j]
      {
        var w := 0;
        while w < width
          invariant 0 <= w <= width && k == c * hw + h * width + w && k <= n && |out| == n
          invariant forall j :: 0 <= j < k ==> out[j] == Max0(input[j])
          invariant forall j :: k <= j < n ==> out[j] == input[j]
        {
          Idx3Bound(c, h, w, channels, height, width);
          var i := c * hw + h * width + w;
          out := out[i := Max0(out[i])];
          w, k := w + 1, k + 1;
        }
        assert (h + 1) * width == h * width + width;
        h := h + 1;
      }
      assert (c + 1) * hw == c * hw + hw;
      c := c + 1;
    }
  }

  /** The backward loop: `d_input` is zero-filled, then each element takes the
      upstream gradient unless the retained input is `<= 0`. */
  /** The innermost loop of backward over one row: the width cells from
      flat index `base` on. */
  method GateRow(last: seq<real>, dOut: seq<real>, base: int, width: int, dIn0: seq<real>) returns (dIn: seq<real>)
    requires 0 <= base && 0 <= width && base + width <= |last| <= |dOut| && |dIn0| == |last|
    requires forall j :: 0 <= j < base ==> dIn0[j] == GateAt(last, dOut, j)
    ensures |dIn| == |last| && forall j :: 0 <= j < base + width ==> dIn[j] == GateAt(last, dOut, j)
  {
    dIn := dIn0;
    var w := 0;
    while w < width
      invariant 0 <= w <= width && |dIn| == |last|
      invariant forall j :: 0 <= j < base + w ==> dIn[j] == GateAt(last, dOut, j)
    {
      var i := base + w;
      if last[i] <= 0.0 {
        dIn := dIn[i := 0.0];
      } else {
        dIn := dIn[i := dOut[i]];
      }
      w := w + 1;
    }
  }

  method GateLoop(last: seq<real>, dOut: seq<real>, channels: int, height: int, width: int) returns (dIn: seq<real>)
    requires channels >= 0 && height >= 0 && width >= 0
    requires |last| == channels * height * width && |dOut| >= |last|
    ensures dIn == Gate(last, dOut)
  {
    var hw := height * width;
    var n := channels * hw;
    assert n == |last| by { MulAssoc(channels, height, width); }
    dIn := Zeros(n);
    var c := 0;
    while c < channels
      invariant 0 <= c <= channels && 0 <= c * hw <= n && |dIn| == n
      invariant forall j :: 0 <= j < c * hw ==> dIn[j] == GateAt(last, dOut, j)
    {
      var h := 0;
      while h < height
        invariant 0 <= h <= height && 0 <= c * hw + h * width <= n && |dIn| == n
        invariant forall j :: 0 <= j < c * hw + h * width ==> dIn[j] == GateAt(last, dOut, j)
      {
        if width > 0 {
          Idx3Bound(c, h, width - 1, channels, height, width);
        }
        dIn := GateRow(last, dOut, c * hw + h * width, width, dIn);
        assert (h + 1) * width == h * width + width;
        h := h + 1;
      }
      assert (c + 1) * hw == c * hw + hw;
      MulMono(c + 1, channels, hw);
      c := c + 1;
    }
  }


  // ---------------------------------------------------------------------
  // The layer object
  // ---------------------------------------------------------------------

  class ReluLayer {
    const inputHeight: int
    const inputWidth: int
    const outputHeight: int
    const outputWidth: int
    const inputChannels: int
    var lastInput: seq<real>
    var lastOutput: seq<real>
    var dInput: seq<real>

    ghost function State(): ReluState
      reads this
    {
      ReluState(inputChannels, inputHeight, inputWidth, lastInput, lastOutput, dInput)
    }

    ghost predicate Valid()
      reads this
    {
      State().Valid() && outputHeight == inputHeight && outputWidth == inputWidth
    }

    constructor (inputChannels: int, inputHeight: int, inputWidth: int)
      requires inputChannels >= 0 && inputHeight >= 0 && inputWidth >= 0
      ensures Valid() && State() == Init(inputChannels, inputHeight, inputWidth)
    {
      this.inputHeight := inputHeight;
      this.inputWidth := inputWidth;
      this.outputHeight := inputHeight;
      this.outputWidth := inputWidth;
      this.inputChannels := inputChannels;
      var n := inputChannels * inputHeight * inputWidth;
      MulMono(0, inputChannels, inputHeight);
      MulMono(0, inputChannels * inputHeight, inputWidth);
      dInput := Zeros(n);
      lastInput := Zeros(n);
      lastOutput := [];
    }

    method Forward(input: seq<real>, train: bool) returns (r: Outcome<seq<real>>)
      requires Valid()
      modifies this
      ensures Valid()
      ensures (State(), r) == ForwardStep(old(State()), input)
    {
      if |input| != inputChannels * inputHeight * inputWidth {
        return Err("ReluLayer::forward: input size mismatch.");
      }
      lastInput := input;
      lastOutput := RectifyLoop(lastInput, inputChannels, inputHeight, inputWidth);
      return Ok(lastOutput);
    }

    method Backward(dOut: seq<real>) returns (r: Outcome<seq<real>>)
      requires Valid()
      requires |dOut| >= inputChannels * inputHeight * inputWidth
      modifies this
      ensures Valid()
      ensures (State(), r) == BackwardStep(old(State()), dOut)
    {
      dInput := GateLoop(lastInput, dOut, inputChannels, inputHeight, inputWidth);
      return Ok(dInput);
    }

    method GetOutputSize() returns (shape: seq<int>)
      requires Valid()
      ensures shape == OutputSize(State())
    {
      shape := [inputChannels, outputHeight, outputWidth];
    }
  }
}
