/** The softmax output layer (CNN/src/SoftmaxLayer.cpp): a shifted, normalised
    exponential with a uniform fallback, the cross-entropy loss against an
    attached one-hot target, and the `output - target` gradient. */
module Softmax {
  import opened Tensor

  datatype SoftmaxState = SoftmaxState(
    inputSize: int,
    lastInput: seq<real>, lastOutput: seq<real>, dInput: seq<real>,
    targets: Option<seq<real>>, lastLoss: real)
  {
    ghost predicate Valid() {
      inputSize >= 1 && |lastInput| == inputSize && |lastOutput| == inputSize && |dInput| == inputSize
    }
  }

  /** The state the constructor builds: zero buffers, no target, loss 0. */
  function Init(n: int): (s: SoftmaxState)
    requires n >= 1
    ensures s.Valid() && s.targets.None? && s.lastLoss == 0.0
  {
    SoftmaxState(n, Zeros(n), Zeros(n), Zeros(n), None, 0.0)
  }

  /** The floor below which a probability is not passed to `log`. */
  const Eps: real := 0.000000000001

  /** The largest element (`*max_element`). */
  function SeqMax(x: seq<real>): real
    requires |x| > 0
  {
    MaxPrefix(x, |x|)
  }

  /** The largest of `x[0..n)`. */
  function MaxPrefix(x: seq<real>, n: int): real
    requires 1 <= n <= |x|
  {
    if n == 1 then x[0]
    else
      var m := MaxPrefix(x, n - 1);
      if x[n - 1] > m then x[n - 1] else m
  }

  /** `MaxPrefix(x, n)` bounds `x[0..n)` and is one of its elements. */
  lemma {:induction false} MaxPrefixIsMax(x: seq<real>, n: int)
    requires 1 <= n <= |x|
    ensures forall i :: 0 <= i < n ==> x[i] <= MaxPrefix(x, n)
    ensures exists i :: 0 <= i < n && x[i] == MaxPrefix(x, n)
  {
    if n == 1 {
      assert x[0] == MaxPrefix(x, n);
    } else {
      MaxPrefixIsMax(x, n - 1);
      var k :| 0 <= k < n - 1 && x[k] == MaxPrefix(x, n - 1);
      if x[n - 1] <= MaxPrefix(x, n - 1) {
        assert x[k] == MaxPrefix(x, n);
      } else {
        assert x[n - 1] == MaxPrefix(x, n);
      }
    }
  }

  /** exp(x[i] - mx) element by element. */
  function Exps(m: Math, x: seq<real>, mx: real): (e: seq<real>)
    ensures |e| == |x|
  {
    seq(|x|, i requires 0 <= i < |x| => m.exp(x[i] - mx))
  }

  function Normalized(e: seq<real>, total: real): (r: seq<real>)
    requires total != 0.0
    ensures |r| == |e|
  {
    seq(|e|, i requires 0 <= i < |e| => e[i] / total)
  }

  /** Every entry 1/n. */
  function Uniform(n: nat): (r: seq<real>)
    requires n >= 1
    ensures |r| == n
  {
    seq(n, i => 1.0 / (n as real))
  }

  /** The index of the first entry equal to 1.0, or -1 when there is none. */
  function FirstOne(t: seq<real>): (r: int)
    ensures -1 <= r < |t|
    ensures r == -1 <==> forall i :: 0 <= i < |t| ==> t[i] != 1.0
    ensures r >= 0 ==> t[r] == 1.0 && forall i :: 0 <= i < r ==> t[i] != 1.0
  {
    if |t| == 0 then -1
    else if t[0] == 1.0 then 0
    else
      var r := FirstOne(t[1..]);
      assert forall i :: 1 <= i < |t| ==> t[1..][i - 1] == t[i];
      if r < 0 then -1 else r + 1
  }

  /** The cross-entropy term for the probability p of the labelled class. */
  function LossOf(m: Math, p: real): real {
    if !Finite(p) || p < Eps then -m.log(Eps) else -m.log(p)
  }

  /** `forward`: the size check, then the exponentials of `x - max`; a
      non-finite or non-positive sum gives the uniform distribution and loss 0
      with no look at the target; otherwise the normalised exponentials, and,
      with a target attached, its size check, the label search and the loss. */
  function ForwardStep(s: SoftmaxState, m: Math, input: seq<real>): (SoftmaxState, Outcome<seq<real>>)
    requires s.Valid()
  {
    if |input| != s.inputSize then (s, Err("SoftmaxLayer::forward: input size mismatch."))
    else
      var e := Exps(m, input, SeqMax(input));
      var total := Sum(e);
      if !Finite(total) || total <= 0.0 then
        (s.(lastInput := input, lastOutput := Uniform(s.inputSize), lastLoss := 0.0), Ok(Uniform(s.inputSize)))
      else
        AttachLoss(s.(lastInput := input, lastOutput := Normalized(e, total), lastLoss := 0.0), m)
  }

  /** The loss part of forward on the normal path, from the state whose
      output has just been written and whose loss is reset to 0. */
  function AttachLoss(s1: SoftmaxState, m: Math): (SoftmaxState, Outcome<seq<real>>)
    requires s1.Valid()
  {
    match s1.targets
    case None => (s1, Ok(s1.lastOutput))
    case Some(t) =>
      if |t| != s1.inputSize then (s1, Err("SoftmaxLayer::forward: targets size mismatch."))
      else
        var labelIndex := FirstOne(t);
        if labelIndex == -1 then (s1, Err("SoftmaxLayer::forward: invalid target vector, no class marked as 1."))
        else (s1.(lastLoss := LossOf(m, s1.lastOutput[labelIndex])), Ok(s1.lastOutput))
  }

  /** `backward`: `d_out` is not read; the gradient is `output - target`. */
  function BackwardStep(s: SoftmaxState, dOut: seq<real>): (SoftmaxState, Outcome<seq<real>>)
    requires s.Valid()
  {
    match s.targets
    case None => (s, Err("SoftmaxLayer::backward: targets not set."))
    case Some(t) =>
      if |t| != s.inputSize then (s, Err("SoftmaxLayer::backward: targets size mismatch."))
      else
        var d := Residual(s.lastOutput, t);
        (s.(dInput := d), Ok(d))
  }

  /** output - target, element by element. */
  function Residual(out: seq<real>, t: seq<real>): (d: seq<real>)
    requires |out| == |t|
    ensures |d| == |out|
  {
    seq(|out|, i requires 0 <= i < |out| => out[i] - t[i])
  }

  function GetLossStep(s: SoftmaxState): Outcome<real> {
    if s.targets.None? then Err("SoftmaxLayer::get_loss: targets not set.")
    else if s.lastLoss < 0.0 then Ok(0.0)
    else Ok(s.lastLoss)
  }

  function OutputSize(s: SoftmaxState): seq<int> {
    [s.inputSize, 1, 1]
  }

  // ---------------------------------------------------------------------
  // Properties
  // ---------------------------------------------------------------------

  lemma {:induction false} SumNormalized(e: seq<real>, total: real)
    requires total != 0.0
    ensures Sum(Normalized(e, total)) == Sum(e) / total
    decreases |e|
  {
    if |e| > 0 {
      var n := |e|;
      assert Normalized(e, total)[..n - 1] == Normalized(e[..n - 1], total);
      SumNormalized(e[..n - 1], total);
    }
  }

  lemma {:induction false} SumUniform(n: nat, k: nat)
    requires n >= 1 && k <= n
    ensures Sum(Uniform(n)[..k]) == (k as real) / (n as real)
    decreases k
  {
    if k > 0 {
      assert Uniform(n)[..k][..k - 1] == Uniform(n)[..k - 1];
      SumUniform(n, k - 1);
    }
  }

  lemma {:induction false} SumPositive(e: seq<real>)
    requires forall i :: 0 <= i < |e| ==> e[i] > 0.0
    ensures |e| > 0 ==> Sum(e) > 0.0
    decreases |e|
  {
    if |e| > 1 {
      SumPositive(e[..|e| - 1]);
    }
  }

  lemma {:induction false} SumDifference(a: seq<real>, b: seq<real>, d: seq<real>)
    requires |a| == |b| == |d| && forall i :: 0 <= i < |d| ==> d[i] == a[i] - b[i]
    ensures Sum(d) == Sum(a) - Sum(b)
    decreases |d|
  {
    if |d| > 0 {
      var n := |d|;
      SumDifference(a[..n - 1], b[..n - 1], d[..n - 1]);
    }
  }

  /** With exp > 0 the sum of the exponentials is positive, so the fallback is
      taken only when that sum overflows. */
  lemma ExpSumPositive(m: Math, x: seq<real>)
    requires ExpPositive(m) && |x| > 0
    ensures Sum(Exps(m, x, SeqMax(x))) > 0.0
  {
    SumPositive(Exps(m, x, SeqMax(x)));
  }

  /** Forward throws the input-size error exactly when the length is wrong. */
  lemma ForwardSizeCheck(s: SoftmaxState, m: Math, x: seq<real>)
    requires s.Valid()
    ensures ForwardStep(s, m, x).1 == Err("SoftmaxLayer::forward: input size mismatch.") <==> |x| != s.inputSize
    ensures ForwardStep(s, m, x).0.Valid()
  {
  }

  /** On an input of the right length, forward can only fail on the normal
      path, with a target attached that has the wrong length or no 1.0. */
  lemma ForwardFailsOnlyOnTarget(s: SoftmaxState, m: Math, x: seq<real>)
    requires s.Valid() && |x| == s.inputSize
    ensures var total := Sum(Exps(m, x, SeqMax(x)));
      ForwardStep(s, m, x).1.Err? ==>
        Finite(total) && total > 0.0 && s.targets.Some? &&
        (|s.targets.value| != s.inputSize || forall i :: 0 <= i < s.inputSize ==> s.targets.value[i] != 1.0)
  {
  }

  /** The fallback: a non-finite or non-positive sum gives the uniform
      distribution and loss 0, whatever the target. */
  lemma ForwardFallback(s: SoftmaxState, m: Math, x: seq<real>)
    requires s.Valid() && |x| == s.inputSize
    requires var total := Sum(Exps(m, x, SeqMax(x))); !Finite(total) || total <= 0.0
    ensures ForwardStep(s, m, x).1 == Ok(Uniform(s.inputSize))
    ensures ForwardStep(s, m, x).0.lastLoss == 0.0
  {
  }

  /** The uniform distribution sums to 1. */
  lemma UniformIsDistribution(n: nat)
    requires n >= 1
    ensures Sum(Uniform(n)) == 1.0 && forall i :: 0 <= i < n ==> Uniform(n)[i] > 0.0
  {
    SumUniform(n, n);
    assert Uniform(n)[..n] == Uniform(n);
  }

  /** The normal path: the output is `exp(x[i] - max) / sum`. */
  lemma ForwardNormal(s: SoftmaxState, m: Math, x: seq<real>)
    requires s.Valid() && |x| == s.inputSize
    requires var total := Sum(Exps(m, x, SeqMax(x))); Finite(total) && total > 0.0
    ensures ForwardStep(s, m, x).0.lastOutput == Normalized(Exps(m, x, SeqMax(x)), Sum(Exps(m, x, SeqMax(x))))
    ensures ForwardStep(s, m, x).1.Ok? ==> ForwardStep(s, m, x).1.value == ForwardStep(s, m, x).0.lastOutput
  {
    var e := Exps(m, x, SeqMax(x));
    var out := Normalized(e, Sum(e));
    if s.targets.Some? && |s.targets.value| == s.inputSize && FirstOne(s.targets.value) >= 0 {
      assert ForwardStep(s, m, x).1 == Ok(out);
    }
  }

  /** Positive values divided by their sum are positive and sum to 1. */
  lemma NormalizedIsDistribution(e: seq<real>)
    requires |e| > 0 && forall i :: 0 <= i < |e| ==> e[i] > 0.0
    ensures Sum(e) > 0.0
    ensures Sum(Normalized(e, Sum(e))) == 1.0
    ensures forall i :: 0 <= i < |e| ==> Normalized(e, Sum(e))[i] > 0.0
  {
    SumPositive(e);
    var total := Sum(e);
    SumNormalized(e, total);
    SelfQuotient(total);
    forall i | 0 <= i < |e| ensures Normalized(e, total)[i] > 0.0 {
      PositiveQuotient(e[i], total);
    }
  }

  lemma SelfQuotient(t: real)
    requires t > 0.0
    ensures t / t == 1.0
  {
  }

  lemma PositiveQuotient(a: real, b: real)
    requires a > 0.0 && b > 0.0
    ensures a / b > 0.0
  {
  }

  /** Whenever forward succeeds its output is a probability distribution. */
  lemma ForwardIsDistribution(s: SoftmaxState, m: Math, x: seq<real>)
    requires s.Valid() && ExpPositive(m)
    requires ForwardStep(s, m, x).1.Ok?
    ensures var out := ForwardStep(s, m, x).1.value;
      |out| == s.inputSize && Sum(out) == 1.0 && forall i :: 0 <= i < |out| ==> out[i] >= 0.0
  {
    var e := Exps(m, x, SeqMax(x));
    var total := Sum(e);
    if !Finite(total) || total <= 0.0 {
      ForwardFallback(s, m, x);
      UniformIsDistribution(s.inputSize);
    } else {
      ForwardNormal(s, m, x);
      NormalizedIsDistribution(e);
    }
  }

  /** With a target attached and forward successful on the normal path, the
      labelIndex is the first 1.0 of the target and the loss is the cross-entropy of
      its probability, floored at `Eps`; without a target the loss is 0. */
  lemma ForwardLoss(s: SoftmaxState, m: Math, x: seq<real>)
    requires s.Valid() && |x| == s.inputSize
    requires ForwardStep(s, m, x).1.Ok?
    ensures var s1, r := ForwardStep(s, m, x).0, ForwardStep(s, m, x).1;
      var total := Sum(Exps(m, x, SeqMax(x)));
      s1.lastOutput == r.value && s1.lastInput == x &&
      (s.targets.None? || !Finite(total) || total <= 0.0 ==> s1.lastLoss == 0.0) &&
      (s.targets.Some? && Finite(total) && total > 0.0 ==>
        exists k :: 0 <= k < s.inputSize && s.targets.value[k] == 1.0 &&
          (forall i :: 0 <= i < k ==> s.targets.value[i] != 1.0) &&
          s1.lastLoss == LossOf(m, r.value[k]))
  {
    var total := Sum(Exps(m, x, SeqMax(x)));
    if s.targets.Some? && Finite(total) && total > 0.0 {
      var k := FirstOne(s.targets.value);
      assert 0 <= k < s.inputSize;
    }
  }

  /** After forward, backward gives `output - target`; for a target whose
      entries sum to 1 (one-hot) the gradient entries sum to 0. */
  lemma BackwardGradient(s: SoftmaxState, m: Math, x: seq<real>, d: seq<real>)
    requires s.Valid() && ExpPositive(m) && ForwardStep(s, m, x).1.Ok?
    ensures var s1 := ForwardStep(s, m, x).0;
      var g := BackwardStep(s1, d).1;
      (g.Err? <==> s.targets.None? || |s.targets.value| != s.inputSize) &&
      (g.Ok? ==>
        |g.value| == s.inputSize &&
        (forall i :: 0 <= i < s.inputSize ==> g.value[i] == s1.lastOutput[i] - s.targets.value[i]) &&
        (Sum(s.targets.value) == 1.0 ==> Sum(g.value) == 0.0))
  {
    ForwardIsDistribution(s, m, x);
    var s1 := ForwardStep(s, m, x).0;
    var g := BackwardStep(s1, d).1;
    if g.Ok? {
      SumDifference(s1.lastOutput, s.targets.value, g.value);
    }
  }

  /** `get_loss` throws without a target and never returns a negative loss. */
  lemma GetLossNonNegative(s: SoftmaxState)
    ensures GetLossStep(s).Err? <==> s.targets.None?
    ensures GetLossStep(s).Ok? ==> GetLossStep(s).value >= 0.0 && (s.lastLoss >= 0.0 ==> GetLossStep(s).value == s.lastLoss)
  {
  }

  // ---------------------------------------------------------------------
  // The loops of forward
  // ---------------------------------------------------------------------

  /** The first loop: the shifted exponentials and their running sum. */
  method ExpLoop(m: Math, input: seq<real>, mx: real, out0: seq<real>) returns (out: seq<real>, sumExp: real)
    requires |out0| == |input|
    ensures out == Exps(m, input, mx) && sumExp == Sum(out)
  {
    out := out0;
    sumExp := 0.0;
    var i := 0;
    while i < |input|
      invariant 0 <= i <= |input| && |out| == |input|
      invariant forall j :: 0 <= j < i ==> out[j] == m.exp(input[j] - mx)
      invariant sumExp == Sum(out[..i])
    {
      out := out[i := m.exp(input[i] - mx)];
      assert out[..i + 1][..i] == out[..i];
      sumExp := sumExp + out[i];
      i := i + 1;
    }
    assert out[..i] == out;
  }

  /** The second loop: divide each exponential by the sum. */
  method DivideLoop(e: seq<real>, total: real) returns (out: seq<real>)
    requires total != 0.0
    ensures out == Normalized(e, total)
  {
    out := e;
    var i := 0;
    while i < |e|
      invariant 0 <= i <= |e| && |out| == |e|
      invariant forall j :: 0 <= j < i ==> out[j] == e[j] / total
      invariant forall j :: i <= j < |e| ==> out[j] == e[j]
    {
      out := out[i := out[i] / total];
      i := i + 1;
    }
  }

  /** The labelIndex search: the first index whose target is 1.0, else -1. */
  method FindLabel(t: seq<real>) returns (labelIndex: int)
    ensures labelIndex == FirstOne(t)
  {
    labelIndex := -1;
    var i := 0;
    while i < |t|
      invariant 0 <= i <= |t|
      invariant forall j :: 0 <= j < i ==> t[j] != 1.0
    {
      if t[i] == 1.0 {
        labelIndex := i;
        break;
      }
      i := i + 1;
    }
  }

  /** The backward loop. */
  method ResidualLoop(out: seq<real>, t: seq<real>, d0: seq<real>) returns (d: seq<real>)
    requires |out| == |t| == |d0|
    ensures d == Residual(out, t)
  {
    d := d0;
    var i := 0;
    while i < |out|
      invariant 0 <= i <= |out| && |d| == |out|
      invariant forall j :: 0 <= j < i ==> d[j] == out[j] - t[j]
    {
      d := d[i := out[i] - t[i]];
      i := i + 1;
    }
  }

  // ---------------------------------------------------------------------
  // The layer object
  // ---------------------------------------------------------------------

  class SoftmaxLayer {
    const inputSize: int
    /** `std::exp` and `std::log`. */
    const math: Math
    var lastInput: seq<real>
    var lastOutput: seq<real>
    var dInput: seq<real>
    var targets: Option<seq<real>>
    var lastLoss: real

    function State(): SoftmaxState
      reads this
    {
      SoftmaxState(inputSize, lastInput, lastOutput, dInput, targets, lastLoss)
    }

    ghost predicate Valid()
      reads this
    {
      State().Valid()
    }

    constructor (inputSize: int, math: Math)
      requires inputSize >= 1
      ensures Valid() && State() == Init(inputSize) && this.math == math
    {
      this.inputSize := inputSize;
      this.math := math;
      lastInput := Zeros(inputSize);
      lastOutput := Zeros(inputSize);
      dInput := Zeros(inputSize);
      targets := None;
      lastLoss := 0.0;
    }

    method Forward(input: seq<real>, train: bool) returns (r: Outcome<seq<real>>)
      requires Valid()
      modifies this
      ensures Valid()
      ensures (State(), r) == ForwardStep(old(State()), math, input)
    {
      if |input| != inputSize {
        return Err("SoftmaxLayer::forward: input size mismatch.");
      }
      lastInput := input;
      var maxInput := SeqMax(input);
      var sumExp;
      lastOutput, sumExp := ExpLoop(math, input, maxInput, lastOutput);
      if !Finite(sumExp) || sumExp <= 0.0 {
        lastOutput := Uniform(inputSize);
        lastLoss := 0.0;
        return Ok(lastOutput);
      }
      lastOutput := DivideLoop(lastOutput, sumExp);
      lastLoss := 0.0;
      r := ComputeLoss();
    }

    /** The target checks, the label search and the loss of forward. */
    method ComputeLoss() returns (r: Outcome<seq<real>>)
      requires Valid()
      modifies this
      ensures Valid()
      ensures (State(), r) == AttachLoss(old(State()), math)
    {
      if targets.Some? {
        if |targets.value| != inputSize {
          return Err("SoftmaxLayer::forward: targets size mismatch.");
        }
        var labelIndex := FindLabel(targets.value);
        if labelIndex == -1 {
          return Err("SoftmaxLayer::forward: invalid target vector, no class marked as 1.");
        }
        if !Finite(lastOutput[labelIndex]) || lastOutput[labelIndex] < Eps {
          lastLoss := -math.log(Eps);
        } else {
          lastLoss := -math.log(lastOutput[labelIndex]);
        }
      }
      return Ok(lastOutput);
    }

    method Backward(dOut: seq<real>) returns (r: Outcome<seq<real>>)
      requires Valid()
      modifies this
      ensures Valid()
      ensures (State(), r) == BackwardStep(old(State()), dOut)
    {
      if targets.None? {
        return Err("SoftmaxLayer::backward: targets not set.");
      }
      if |targets.value| != inputSize {
        return Err("SoftmaxLayer::backward: targets size mismatch.");
      }
      dInput := ResidualLoop(lastOutput, targets.value, dInput);
      return Ok(dInput);
    }

    method GetLoss() returns (r: Outcome<real>)
      ensures r == GetLossStep(State())
    {
      if targets.None? {
        return Err("SoftmaxLayer::get_loss: targets not set.");
      }
      if lastLoss < 0.0 {
        return Ok(0.0);
      }
      return Ok(lastLoss);
    }

    /** Attach (or detach, with `None`) the target of the next forward. */
    method SetTargets(t: Option<seq<real>>)
      requires Valid()
      modifies this
      ensures Valid() && State() == old(State()).(targets := t)
    {
      targets := t;
    }

    method GetOutputSize() returns (shape: seq<int>)
      ensures shape == OutputSize(State())
    {
      shape := [inputSize, 1, 1];
    }
  }
}
