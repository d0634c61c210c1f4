/** The dropout layer (CNN/src/DropOutLayer.cpp).  In training mode each element
    is dropped when its random draw is below the drop probability and the kept
    elements are scaled by 1 / (1 - p); backward applies the same mask and scale.
    Outside training both directions are the identity. */
module DropOut {
  import opened Tensor

  datatype DropState = DropState(
    dropProbability: real,
    inputChannels: int, inputHeight: int, inputWidth: int,
    train: bool,
    maskDrop: seq<int>, lastOutput: seq<real>, dInput: seq<real>)
  {
    function Size(): int {
      inputChannels * inputHeight * inputWidth
    }

    ghost predicate Valid() {
      dropProbability != 1.0 &&
      inputChannels >= 0 && inputHeight >= 0 && inputWidth >= 0 &&
      |maskDrop| == Size() && |lastOutput| == Size() && |dInput| == Size() &&
      forall i :: 0 <= i < |maskDrop| ==> maskDrop[i] == 0 || maskDrop[i] == 1
    }
  }

  /** The state the constructor builds: mask all ones, buffers zero. */
  function Init(p: real, c: int, h: int, w: int, train: bool): (s: DropState)
    requires p != 1.0 && c >= 0 && h >= 0 && w >= 0
    ensures s.Valid()
  {
    MulMono(0, c, h);
    MulMono(0, c * h, w);
    var n := c * h * w;
    DropState(p, c, h, w, train, seq(n, i => 1), Zeros(n), Zeros(n))
  }

  /** The mask drawn from `n` consecutive values of the random stream from `pos`:
      0 (dropped) when the draw is below `p`, 1 (kept) otherwise. */
  function MaskOf(stream: nat -> real, pos: nat, p: real, n: nat): (m: seq<int>)
    ensures |m| == n
  {
    seq(n, i requires 0 <= i < n => if stream(pos + i) < p then 0 else 1)
  }

  /** Kept elements scaled by `mask / (1 - p)`, dropped elements 0. */
  function Scale(mask: seq<int>, x: seq<real>, p: real): (r: seq<real>)
    requires |x| == |mask| && p != 1.0
    ensures |r| == |x|
  {
    seq(|x|, i requires 0 <= i < |x| => ScaleAt(mask, x, p, i))
  }

  function ScaleAt(mask: seq<int>, x: seq<real>, p: real, i: int): real
    requires |x| == |mask| && p != 1.0 && 0 <= i < |x|
  {
    if mask[i] == 1 then x[i] * (mask[i] as real) / (1.0 - p) else 0.0
  }

  /** `forward`: records the mode first; outside training the input is returned
      and no random value is drawn; in training one value is drawn per element,
      so the stream position advances by the element count. */
  function ForwardStep(s: DropState, input: seq<real>, train: bool, stream: nat -> real, pos: nat)
    : (DropState, Outcome<seq<real>>, nat)
    requires s.Valid()
  {
    var s1 := s.(train := train);
    if !train then (s1, Ok(input), pos)
    else if |input| != s.Size() then (s1, Err("DropOutLayer::forward: input size mismatch."), pos)
    else
      var m := MaskOf(stream, pos, s.dropProbability, |input|);
      var out := Scale(m, input, s.dropProbability);
      (s1.(maskDrop := m, lastOutput := out), Ok(out), pos + |input|)
  }

  /** `backward`: identity when the last forward was not in training mode. */
  function BackwardStep(s: DropState, dOut: seq<real>): (DropState, Outcome<seq<real>>)
    requires s.Valid()
  {
    if !s.train then (s, Ok(dOut))
    else if |dOut| != s.Size() then (s, Err("DropOutLayer::backward: d_out size mismatch."))
    else
      var d := Scale(s.maskDrop, dOut, s.dropProbability);
      (s.(dInput := d), Ok(d))
  }

  function OutputSize(s: DropState): seq<int> {
    [s.inputChannels, s.inputHeight, s.inputWidth]
  }

  // ---------------------------------------------------------------------
  // Properties
  // ---------------------------------------------------------------------

  /** Forward keeps the state valid; in training it drops exactly the elements
      whose draw is below `p` and rescales the others so that `out * (1 - p)`
      gives back the input. */
  lemma ForwardDropsAndRescales(s: DropState, x: seq<real>, stream: nat -> real, pos: nat)
    requires s.Valid() && |x| == s.Size()
    ensures ForwardStep(s, x, true, stream, pos).0.Valid()
    ensures ForwardStep(s, x, true, stream, pos).1.Ok?
    ensures var out := ForwardStep(s, x, true, stream, pos).1.value;
      var m := ForwardStep(s, x, true, stream, pos).0.maskDrop;
      |out| == |x| &&
      forall i :: 0 <= i < |x| ==>
        (m[i] == 0 <==> stream(pos + i) < s.dropProbability) &&
        (m[i] == 0 ==> out[i] == 0.0) &&
        (m[i] == 1 ==> out[i] * (1.0 - s.dropProbability) == x[i])
  {
    var p := s.dropProbability;
    var out := ForwardStep(s, x, true, stream, pos).1.value;
    var m := MaskOf(stream, pos, p, |x|);
    forall i | 0 <= i < |x| && m[i] == 1
      ensures out[i] * (1.0 - p) == x[i]
    {
      assert out[i] == x[i] * 1.0 / (1.0 - p);
    }
  }

  /** Outside training, forward and the backward after it are the identity and
      no random value is consumed. */
  lemma EvalModeIsIdentity(s: DropState, x: seq<real>, d: seq<real>, stream: nat -> real, pos: nat)
    requires s.Valid()
    ensures var (s1, r, pos1) := ForwardStep(s, x, false, stream, pos);
      r == Ok(x) && pos1 == pos && s1.Valid() && BackwardStep(s1, d) == (s1, Ok(d))
  {
  }

  /** Backward is the adjoint of forward: with the mask forward used,
      `<forward(x), d> == <x, backward(d)>`. */
  lemma {:induction false} ScaleAdjoint(mask: seq<int>, x: seq<real>, d: seq<real>, p: real)
    requires |x| == |mask| && |d| == |mask| && p != 1.0
    ensures Dot(Scale(mask, x, p), d) == Dot(x, Scale(mask, d, p))
  {
    var n := |mask|;
    if n > 0 {
      var m' := mask[..n - 1];
      ScalePrefix(mask, x, p);
      ScalePrefix(mask, d, p);
      ScaleAdjoint(m', x[..n - 1], d[..n - 1], p);
      ScaleMoves(mask, x, d, p, n - 1);
    }
  }

  /** Scaling commutes with dropping the last element. */
  lemma ScalePrefix(mask: seq<int>, x: seq<real>, p: real)
    requires |x| == |mask| > 0 && p != 1.0
    ensures Scale(mask, x, p)[..|x| - 1] == Scale(mask[..|x| - 1], x[..|x| - 1], p)
  {
  }

  /** The scale of element i can move from x to d. */
  lemma ScaleMoves(mask: seq<int>, x: seq<real>, d: seq<real>, p: real, i: int)
    requires |x| == |mask| && |d| == |mask| && p != 1.0 && 0 <= i < |mask|
    ensures Scale(mask, x, p)[i] * d[i] == x[i] * Scale(mask, d, p)[i]
  {
    if mask[i] == 1 {
      calc {
        Scale(mask, x, p)[i] * d[i];
        x[i] / (1.0 - p) * d[i];
        x[i] * (d[i] / (1.0 - p));
        x[i] * Scale(mask, d, p)[i];
      }
    }
  }

  /** After a training forward, backward sends `d_out` through the kept elements
      with the forward scale and stops it at the dropped ones, so it is the
      adjoint of that forward. */
  lemma BackwardIsAdjointOfForward(s: DropState, x: seq<real>, d: seq<real>, stream: nat -> real, pos: nat)
    requires s.Valid() && |x| == s.Size() && |d| == s.Size()
    ensures var (s1, r, _) := ForwardStep(s, x, true, stream, pos);
      var (s2, g) := BackwardStep(s1, d);
      r.Ok? && g.Ok? && |r.value| == |d| && |g.value| == |x| &&
      Dot(r.value, d) == Dot(x, g.value)
  {
    var m := MaskOf(stream, pos, s.dropProbability, |x|);
    ScaleAdjoint(m, x, d, s.dropProbability);
  }

  // ---------------------------------------------------------------------
  // The loops of forward and backward
  // ---------------------------------------------------------------------

  /** The training-mode forward loop over channel, row and column: one draw per
      element, in flat index order, writing the mask and the output in place. */
  method DropLoop(input: seq<real>, p: real, channels: int, height: int, width: int,
                  rng: Rng, mask0: seq<int>, out0: seq<real>)
    returns (mask: seq<int>, out: seq<real>)
    requires channels >= 0 && height >= 0 && width >= 0 && p != 1.0
    requires |input| == channels * height * width && |mask0| == |input| && |out0| == |input|
    modifies rng
    ensures rng.pos == old(rng.pos) + |input|
    ensures mask == MaskOf(rng.stream, old(rng.pos), p, |input|)
    ensures out == Scale(mask, input, p)
  {
    var hw := height * width;
    var n := channels * hw;
    ghost var pos0 := rng.pos;
    ghost var m := MaskOf(rng.stream, pos0, p, n);
    mask, out := mask0, out0;
    ghost var k := 0;
    var c := 0;
    while c < channels
      invariant 0 <= c <= channels && k == c * hw && k <= n && |mask| == n && |out| == n
      invariant rng.pos == pos0 + k
      invariant forall j :: 0 <= j < k ==> mask[j] == m[j] && out[j] == ScaleAt(m, input, p, j)
    {
      MulMono(c, channels, hw);
      var h := 0;
      while h < height
        invariant 0 <= h <= height && k == c * hw + h * width && k <= n && |mask| == n && |out| == n
        invariant rng.pos == pos0 + k
        invariant forall j :: 0 <= j < k ==> mask[j] == m[j] && out[j] == ScaleAt(m, input, p, j)
      {
        var w := 0;
        while w < width
          invariant 0 <= w <= width && k == c * hw + h * width + w && k <= n && |mask| == n && |out| == n
          invariant rng.pos == pos0 + k
          invariant forall j :: 0 <= j < k ==> mask[j] == m[j] && out[j] == ScaleAt(m, input, p, j)
        {
          Idx3Bound(c, h, w, channels, height, width);
          var i := c * hw + h * width + w;
          var randVal := rng.Next();
          if randVal < p {
            mask := mask[i := 0];
            out := out[i := 0.0];
          } else {
            mask := mask[i := 1];
            out := out[i := input[i] / (1.0 - p)];
          }
          w, k := w + 1, k + 1;
        }
        assert (h + 1) * width == h * width + width;
        h := h + 1;
      }
      assert (c + 1) * hw == c * hw + hw;
      c := c + 1;
    }
  }

  /** The training-mode backward loop: `d_out * mask / (1 - p)` where the mask
      is 1, 0 elsewhere. */
  method UnmaskLoop(dOut: seq<real>, mask: seq<int>, p: real, channels: int, height: int, width: int,
                    dIn0: seq<real>)
    returns (dIn: seq<real>)
    requires channels >= 0 && height >= 0 && width >= 0 && p != 1.0
    requires |dOut| == channels * height * width && |mask| == |dOut| && |dIn0| == |dOut|
    ensures dIn == Scale(mask, dOut, p)
  {
    var hw := height * width;
    var n := channels * hw;
    dIn := dIn0;
    ghost var k := 0;
    var c := 0;
    while c < channels
      invariant 0 <= c <= channels && k == c * hw && k <= n && |dIn| == n
      invariant forall j :: 0 <= j < k ==> dIn[j] == ScaleAt(mask, dOut, p, j)
    {
      MulMono(c, channels, hw);
      var h := 0;
      while h < height
        invariant 0 <= h <= height && k == c * hw + h * width && k <= n && |dIn| == n
        invariant forall j :: 0 <= j < k ==> dIn[j] == ScaleAt(mask, dOut, p, j)
      {
        var w := 0;
        while w < width
          invariant 0 <= w <= width && k == c * hw + h * width + w && k <= n && |dIn| == n
          invariant forall j :: 0 <= j < k ==> dIn[j] == ScaleAt(mask, dOut, p, j)
        {
          Idx3Bound(c, h, w, channels, height, width);
          var i := c * hw + h * width + w;
          if mask[i] == 1 {
            dIn := dIn[i := dOut[i] * (mask[i] as real) / (1.0 - p)];
          } else {
            dIn := dIn[i := 0.0];
          }
          w, k := w + 1, k + 1;
        }
        assert (h + 1) * width == h * width + width;
        h := h + 1;
      }
      assert (c + 1) * hw == c * hw + hw;
      c := c + 1;
    }
  }

  // ---------------------------------------------------------------------
  // The layer object
  // ---------------------------------------------------------------------

  class DropOutLayer {
    const dropProbability: real
    const inputHeight: int
    const inputWidth: int
    const outputHeight: int
    const outputWidth: int
    const inputChannels: int
    var train: bool
    var maskDrop: seq<int>
    var lastOutput: seq<real>
    var dInput: seq<real>

    ghost function State(): DropState
      reads this
    {
      DropState(dropProbability, inputChannels, inputHeight, inputWidth, train, maskDrop, lastOutput, dInput)
    }

    ghost predicate Valid()
      reads this
    {
      State().Valid() && outputHeight == inputHeight && outputWidth == inputWidth
    }

    constructor (dropProbability: real, inputChannels: int, inputHeight: int, inputWidth: int, train: bool)
      requires dropProbability != 1.0 && inputChannels >= 0 && inputHeight >= 0 && inputWidth >= 0
      ensures Valid() && State() == Init(dropProbability, inputChannels, inputHeight, inputWidth, train)
    {
      this.dropProbability := dropProbability;
      this.inputHeight := inputHeight;
      this.inputWidth := inputWidth;
      this.outputHeight := inputHeight;
      this.outputWidth := inputWidth;
      this.inputChannels := inputChannels;
      this.train := train;
      MulMono(0, inputChannels, inputHeight);
      MulMono(0, inputChannels * inputHeight, inputWidth);
      var n := inputChannels * inputHeight * inputWidth;
      lastOutput := Zeros(n);
      maskDrop := seq(n, i => 1);
      dInput := Zeros(n);
    }

    method Forward(input: seq<real>, train: bool, rng: Rng) returns (r: Outcome<seq<real>>)
      requires Valid()
      modifies this, rng
      ensures Valid()
      ensures (State(), r, rng.pos) == ForwardStep(old(State()), input, train, rng.stream, old(rng.pos))
    {
      this.train := train;
      if !train {
        return Ok(input);
      }
      if |input| != inputChannels * inputHeight * inputWidth {
        return Err("DropOutLayer::forward: input size mismatch.");
      }
      maskDrop, lastOutput := DropLoop(input, dropProbability, inputChannels, inputHeight, inputWidth,
                                       rng, maskDrop, lastOutput);
      return Ok(lastOutput);
    }

    method Backward(dOut: seq<real>) returns (r: Outcome<seq<real>>)
      requires Valid()
      modifies this
      ensures Valid()
      ensures (State(), r) == BackwardStep(old(State()), dOut)
    {
      if !train {
        return Ok(dOut);
      }
      if |dOut| != inputChannels * inputHeight * inputWidth {
        return Err("DropOutLayer::backward: d_out size mismatch.");
      }
      dInput := UnmaskLoop(dOut, maskDrop, dropProbability, inputChannels, inputHeight, inputWidth, dInput);
      return Ok(dInput);
    }

    method GetOutputSize() returns (shape: seq<int>)
      requires Valid()
      ensures shape == OutputSize(State())
    {
      shape := [inputChannels, outputHeight, outputWidth];
    }
  }
}
