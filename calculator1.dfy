/** The second calculator (FNN/FNN1/Calculator1.cpp): the same evaluation as
    Calculator.cpp, written as a `for` loop whose index the number branch
    steps back by one, and with its own error texts. */
module Calculator1 {
  import opened Tensor
  import opened Calculator

  const Texts1: Messages := Messages("Not enough operands", "Unknown operator", "Invalid Character: ", "Bad Expression")

  /** The main loop of Calculator1's `tryEvaluateExpression`: every pass ends
      with the loop's `i++`, so the number branch leaves `i` on the last
      character of the number. */
  method EvaluateForLoop(m: Messages, expr: string) returns (r: Outcome<real>)
    ensures r == Evaluate(m, expr)
  {
    var values: seq<real> := [];
    var ops: seq<char> := [];
    var i := 0;
    while i < |expr|
      invariant 0 <= i <= |expr|
      invariant Resume(m, false, expr, i, Stacks(values, ops)) == Evaluate(m, expr)
      decreases |expr| - i
    {
      var pass := ForBody(m, expr, i, values, ops);
      if pass.Err? {
        ResumeErr(m, false, expr, i, Stacks(values, ops), pass.msg);
        return Err(pass.msg);
      }
      ResumeOk(m, false, expr, i, Stacks(values, ops), pass.value.0 + 1, pass.value.1);
      values, ops, i := pass.value.1.values, pass.value.1.ops, pass.value.0;
      i := i + 1;
    }
    r := FinishLoop(m, values, ops);
  }

  /** The body of the `for` loop at index i, up to the `i++`: the index it
      leaves (the last character it read) and the new stacks, or the error. */
  method ForBody(m: Messages, expr: string, i: nat, values: seq<real>, ops: seq<char>) returns (r: Outcome<(nat, Stacks)>)
    requires i < |expr|
    ensures r.Err? ==> Step(m, false, expr, i, Stacks(values, ops)) == Err(r.msg)
    ensures r.Ok? ==> Step(m, false, expr, i, Stacks(values, ops)) == Ok((r.value.0 + 1, r.value.1))
  {
    var c := expr[i];
    var st0 := Stacks(values, ops);
    if IsSpace(c) {
      return Ok((i, st0));
    } else if IsDigit(c) || c == '.' {
      var j := NumberRun(expr, i);
      var val := Stod(expr[i..j]);
      if val.None? {
        return Err("invalid number");
      }
      var st := Stacks(values + [val.value], ops);
      return Ok((j - 1, st));
    } else if c == '(' {
      var st := Stacks(values, ops + [c]);
      return Ok((i, st));
    } else if c == ')' {
      var reduced := ReduceLoop(m, values, ops, ToOpen);
      if reduced.Err? {
        return Err(reduced.msg);
      }
      var s := reduced.value;
      if |s.ops| == 0 {
        return Err("mismatched parentheses");
      }
      var st := Stacks(s.values, s.ops[..|s.ops| - 1]);
      return Ok((i, st));
    } else if c == '+' || c == '-' || c == '*' || c == '/' {
      var vs := values;
      if c == '-' && (i == 0 || expr[i - 1] == '(' || expr[i - 1] == '+' || expr[i - 1] == '-' ||
                      expr[i - 1] == '*' || expr[i - 1] == '/') {
        vs := vs + [0.0];
      }
      var reduced := ReduceLoop(m, vs, ops, ToPrecedence(Precedence(c)));
      if reduced.Err? {
        return Err(reduced.msg);
      }
      var st := Stacks(reduced.value.values, reduced.value.ops + [c]);
      return Ok((i, st));
    } else {
      return Err(m.invalidCharacter + [c]);
    }
  }

  /** Calculator1's `tryEvaluateExpression(expr, result, error)`. */
  method TryEvaluateExpression(expr: string, result0: real) returns (ok: bool, result: real, error: string)
    ensures ok <==> Evaluate(Texts1, expr).Ok?
    ensures ok ==> result == Evaluate(Texts1, expr).value && error == ""
    ensures !ok ==> result == result0 && error == Evaluate(Texts1, expr).msg
  {
    var r := EvaluateForLoop(Texts1, expr);
    if r.Ok? {
      return true, r.value, "";
    }
    return false, result0, r.msg;
  }

  /** The two calculators accept the same expressions with the same values;
      only their error texts differ. */
  lemma SameAsCalculator(expr: string)
    ensures SameSuccess(Evaluate(Texts1, expr), Evaluate(Calculator.Texts, expr))
    ensures Distinguishable(Texts1)
  {
    TextsOnlyNameErrors(Texts1, Calculator.Texts, expr);
  }
}
