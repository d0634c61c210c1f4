/** The arithmetic evaluator (FNN/FNN/Calculator.cpp): a single left-to-right
    pass with a stack of values and a stack of operators, `+ - * /` with the
    usual precedence, parentheses and decimal numbers.  The pass is specified
    as a machine (`Step`, `Run`, `Finish`) and the imperative evaluator is
    proved to compute it.  FNN/FNN1/Calculator1.cpp runs the same machine with
    other error texts, so the texts are a parameter. */
module Calculator {
  import opened Tensor

  /** The error texts that differ between the two calculators. */
  datatype Messages = Messages(notEnough: string, unknownOperator: string, invalidCharacter: string, badExpression: string)

  const Texts: Messages := Messages("not enough operands", "unknown operator", "invalid character: ", "bad expression")

  /** The two stacks, their tops at the ends of the sequences. */
  datatype Stacks = Stacks(values: seq<real>, ops: seq<char>)

  /** `isspace` in the C locale. */
  predicate IsSpace(c: char) {
    c == ' ' || '\t' <= c <= '\r'
  }

  predicate IsDigit(c: char) {
    '0' <= c <= '9'
  }

  predicate IsNumberChar(c: char) {
    IsDigit(c) || c == '.'
  }

  predicate IsOperator(c: char) {
    c == '+' || c == '-' || c == '*' || c == '/'
  }

  /** The operator a corrected unary minus pushes with its 0: it binds more
      tightly than every binary operator and is applied as `0 - x`. */
  const Negation: char := '~'

  /** The operators the reductions apply. */
  predicate Applicable(op: char) {
    IsOperator(op) || op == Negation
  }

  function Precedence(op: char): int {
    if op == '+' || op == '-' then 1 else if op == '*' || op == '/' then 2 else if op == Negation then 3 else 0
  }

  function Top(ops: seq<char>): char
    requires |ops| > 0
  {
    ops[|ops| - 1]
  }

  function DigitValue(c: char): int {
    c as int - '0' as int
  }

  // ---------------------------------------------------------------------
  // stod on a run of digits and dots
  // ---------------------------------------------------------------------

  /** The number of leading digits of t. */
  function LeadingDigits(t: string): (n: nat)
    ensures n <= |t| && (n < |t| ==> !IsDigit(t[n])) && forall k :: 0 <= k < n ==> IsDigit(t[k])
  {
    if |t| == 0 || !IsDigit(t[0]) then 0 else 1 + LeadingDigits(t[1..])
  }

  /** The value of a run of decimal digits. */
  function DigitsValue(ds: string): int {
    if |ds| == 0 then 0 else DigitsValue(ds[..|ds| - 1]) * 10 + DigitValue(ds[|ds| - 1])
  }

  function Pow10(n: nat): (p: int)
    ensures p >= 1
  {
    if n == 0 then 1 else 10 * Pow10(n - 1)
  }

  /** `stod` of a run of digits and dots: the longest prefix of the form
      digits, then optionally a dot and more digits, with at least one digit
      in all; `None` (the exception) when there is no digit before the
      second dot. */
  function Stod(t: string): Option<real> {
    var d1 := LeadingDigits(t);
    var fraction := if d1 < |t| && t[d1] == '.' then t[d1 + 1..] else [];
    var d2 := LeadingDigits(fraction);
    if d1 + d2 == 0 then None
    else Some(DigitsValue(t[..d1]) as real + DigitsValue(fraction[..d2]) as real / Pow10(d2) as real)
  }

  /** The index just past the run of digits and dots starting at i. */
  function NumberEnd(expr: string, i: nat): (j: nat)
    requires i <= |expr|
    ensures i <= j <= |expr| && (j < |expr| ==> !IsNumberChar(expr[j]))
    ensures forall k :: i <= k < j ==> IsNumberChar(expr[k])
    decreases |expr| - i
  {
    if i < |expr| && IsNumberChar(expr[i]) then NumberEnd(expr, i + 1) else i
  }

  // ---------------------------------------------------------------------
  // The machine
  // ---------------------------------------------------------------------

  /** The value of `a op b` for one of the four operators and the negation. */
  function Arith(op: char, a: real, b: real): real
    requires op == '/' ==> b != 0.0
  {
    if op == '+' then a + b else if op == '-' || op == Negation then a - b else if op == '*' then a * b else if op == '/' then a / b else 0.0
  }

  /** `applyOp`: pop b, pop a, push `a op b`. */
  function Apply(m: Messages, values: seq<real>, op: char): Outcome<seq<real>> {
    if |values| < 2 then Err(m.notEnough)
    else
      var a, b, rest := values[|values| - 2], values[|values| - 1], values[..|values| - 2];
      if op == '/' && b == 0.0 then Err("division by zero")
      else if Applicable(op) then Ok(rest + [Arith(op, a, b)])
      else Err(m.unknownOperator)
  }

  /** Where a reduction loop stops: at an opening parenthesis, or at an
      operator binding less tightly than p. */
  datatype Until = ToOpen | ToPrecedence(p: int)

  predicate Continues(u: Until, top: char) {
    match u
    case ToOpen => top != '('
    case ToPrecedence(p) => Precedence(top) >= p
  }

  /** A reduction loop: apply and pop the top operator while it continues. */
  function Reduce(m: Messages, st: Stacks, u: Until): Outcome<Stacks>
    decreases |st.ops|
  {
    if |st.ops| == 0 || !Continues(u, Top(st.ops)) then Ok(st)
    else
      match Apply(m, st.values, Top(st.ops))
      case Err(e) => Err(e)
      case Ok(v) => Reduce(m, Stacks(v, st.ops[..|st.ops| - 1]), u)
  }

  /** A minus is unary after one of these characters. */
  predicate OpensOperand(c: char) {
    c == '(' || IsOperator(c)
  }

  /** The character before i that is not a space, if any. */
  function PreviousToken(expr: string, i: nat): Option<char>
    requires i <= |expr|
  {
    if i == 0 then None
    else if IsSpace(expr[i - 1]) then PreviousToken(expr, i - 1)
    else Some(expr[i - 1])
  }

  /** Whether the minus at i is read as unary.  As written, it looks at the
      raw previous character; the corrected reading skips spaces. */
  predicate IsUnary(expr: string, i: nat, corrected: bool)
    requires i < |expr|
  {
    expr[i] == '-' &&
    if corrected then OperandStart(expr, i)
    else i == 0 || OpensOperand(expr[i - 1])
  }

  /** Position i starts an operand: no character but spaces before it, or
      the last one is `(` or an operator. */
  predicate OperandStart(expr: string, i: nat) {
    i <= |expr| && (PreviousToken(expr, i).None? || OpensOperand(PreviousToken(expr, i).value))
  }

  /** One pass of the main loop at position i, giving the next position. */
  function Step(m: Messages, corrected: bool, expr: string, i: nat, st: Stacks): (r: Outcome<(nat, Stacks)>)
    requires i < |expr|
    ensures r.Ok? ==> i < r.value.0 <= |expr|
  {
    var c := expr[i];
    if IsSpace(c) then Ok((i + 1, st))
    else if IsNumberChar(c) then NumberStep(expr, i, st)
    else if c == '(' then Ok((i + 1, Stacks(st.values, st.ops + ['('])))
    else if c == ')' then CloseStep(m, i, st)
    else if IsOperator(c) then OperatorStep(m, corrected, expr, i, st)
    else Err(m.invalidCharacter + [c])
  }

  /** A number: the run of digits and dots is converted and pushed. */
  function NumberStep(expr: string, i: nat, st: Stacks): (r: Outcome<(nat, Stacks)>)
    requires i < |expr| && IsNumberChar(expr[i])
    ensures r.Ok? ==> i < r.value.0 <= |expr|
  {
    var j := NumberEnd(expr, i);
    match Stod(expr[i..j])
    case None => Err("invalid number")
    case Some(v) => Ok((j, Stacks(st.values + [v], st.ops)))
  }

  /** A `)`: reduce down to the `(` and pop it. */
  function CloseStep(m: Messages, i: nat, st: Stacks): Outcome<(nat, Stacks)> {
    match Reduce(m, st, ToOpen)
    case Err(e) => Err(e)
    case Ok(s) =>
      if |s.ops| == 0 then Err("mismatched parentheses")
      else Ok((i + 1, Stacks(s.values, s.ops[..|s.ops| - 1])))
  }

  /** An operator: a unary minus pushes its 0; corrected, it pushes the
      negation and reduces nothing, and otherwise the operators binding at
      least as tightly are applied and the operator is pushed. */
  function OperatorStep(m: Messages, corrected: bool, expr: string, i: nat, st: Stacks): Outcome<(nat, Stacks)>
    requires i < |expr|
  {
    var c := expr[i];
    if corrected && IsUnary(expr, i, true) then
      Ok((i + 1, Stacks(st.values + [0.0], st.ops + [Negation])))
    else
      var v := if IsUnary(expr, i, corrected) then st.values + [0.0] else st.values;
      match Reduce(m, Stacks(v, st.ops), ToPrecedence(Precedence(c)))
      case Err(e) => Err(e)
      case Ok(s) => Ok((i + 1, Stacks(s.values, s.ops + [c])))
  }

  /** The main loop from position i on. */
  function Run(m: Messages, corrected: bool, expr: string, i: nat, st: Stacks): Outcome<Stacks>
    requires i <= |expr|
    decreases |expr| - i
  {
    if i == |expr| then Ok(st)
    else
      match Step(m, corrected, expr, i, st)
      case Err(e) => Err(e)
      case Ok(next) => Run(m, corrected, expr, next.0, next.1)
  }

  /** The final reductions and the check that one value is left. */
  function Finish(m: Messages, st: Stacks): Outcome<real>
    decreases |st.ops|
  {
    if |st.ops| == 0 then
      if |st.values| != 1 then Err(m.badExpression) else Ok(st.values[0])
    else if Top(st.ops) == '(' || Top(st.ops) == ')' then Err("mismatched parentheses")
    else
      match Apply(m, st.values, Top(st.ops))
      case Err(e) => Err(e)
      case Ok(v) => Finish(m, Stacks(v, st.ops[..|st.ops| - 1]))
  }

  /** The rest of the evaluation from position i with stacks st. */
  function Resume(m: Messages, corrected: bool, expr: string, i: nat, st: Stacks): Outcome<real>
    requires i <= |expr|
  {
    match Run(m, corrected, expr, i, st)
    case Err(e) => Err(e)
    case Ok(s) => Finish(m, s)
  }

  /** `tryEvaluateExpression` as written: the value or the error text. */
  function Evaluate(m: Messages, expr: string): Outcome<real> {
    Resume(m, false, expr, 0, Stacks([], []))
  }

  /** The evaluator with the unary minus read as intended. */
  function EvaluateCorrected(m: Messages, expr: string): Outcome<real> {
    Resume(m, true, expr, 0, Stacks([], []))
  }

  // ---------------------------------------------------------------------
  // The evaluator
  // ---------------------------------------------------------------------

  /** A reduction loop: `while (!ops.empty() && <continues>) { applyOp; pop }`. */
  method ReduceLoop(m: Messages, values: seq<real>, ops: seq<char>, u: Until) returns (r: Outcome<Stacks>)
    ensures r == Reduce(m, Stacks(values, ops), u)
  {
    var vs, os := values, ops;
    while |os| > 0 && Continues(u, os[|os| - 1])
      invariant Reduce(m, Stacks(vs, os), u) == Reduce(m, Stacks(values, ops), u)
      decreases |os|
    {
      var applied := Apply(m, vs, os[|os| - 1]);
      if applied.Err? {
        return Err(applied.msg);
      }
      vs, os := applied.value, os[..|os| - 1];
    }
    return Ok(Stacks(vs, os));
  }

  /** The final reductions after the main loop. */
  method FinishLoop(m: Messages, values: seq<real>, ops: seq<char>) returns (r: Outcome<real>)
    ensures r == Finish(m, Stacks(values, ops))
  {
    var vs, os := values, ops;
    while |os| > 0
      invariant Finish(m, Stacks(vs, os)) == Finish(m, Stacks(values, ops))
      decreases |os|
    {
      if os[|os| - 1] == '(' || os[|os| - 1] == ')' {
        return Err("mismatched parentheses");
      }
      var applied := Apply(m, vs, os[|os| - 1]);
      if applied.Err? {
        return Err(applied.msg);
      }
      vs, os := applied.value, os[..|os| - 1];
    }
    if |vs| != 1 {
      return Err(m.badExpression);
    }
    return Ok(vs[0]);
  }

  /** `while (i < expr.size() && (isdigit(expr[i]) || expr[i] == '.')) i++`. */
  method NumberRun(expr: string, start: nat) returns (i: nat)
    requires start <= |expr|
    ensures i == NumberEnd(expr, start)
  {
    i := start;
    while i < |expr| && (IsDigit(expr[i]) || expr[i] == '.')
      invariant start <= i <= |expr| && NumberEnd(expr, i) == NumberEnd(expr, start)
      decreases |expr| - i
    {
      i := i + 1;
    }
  }

  /** A step that succeeds hands the rest of the evaluation to position j. */
  lemma ResumeOk(m: Messages, corrected: bool, e: string, i: nat, st: Stacks, j: nat, s: Stacks)
    requires i < |e| && Step(m, corrected, e, i, st) == Ok((j, s))
    ensures Resume(m, corrected, e, i, st) == Resume(m, corrected, e, j, s)
  {
  }

  /** A step that throws ends the evaluation with its text. */
  lemma ResumeErr(m: Messages, corrected: bool, e: string, i: nat, st: Stacks, msg: string)
    requires i < |e| && Step(m, corrected, e, i, st) == Err(msg)
    ensures Resume(m, corrected, e, i, st) == Err(msg)
  {
  }

  /** The main loop, shared with Calculator1: the value or the error text. */
  method EvaluateLoop(m: Messages, expr: string) returns (r: Outcome<real>)
    ensures r == Evaluate(m, expr)
  {
    var values: seq<real> := [];
    var ops: seq<char> := [];
    var i := 0;
    while i < |expr|
      invariant 0 <= i <= |expr|
      invariant Resume(m, false, expr, i, Stacks(values, ops)) == Evaluate(m, expr)
      decreases |expr| - i
    {
      var c := expr[i];
      ghost var i0, st0 := i, Stacks(values, ops);
      if IsSpace(c) {
        i := i + 1;
        ResumeOk(m, false, expr, i0, st0, i, Stacks(values, ops));
      } else if IsDigit(c) || c == '.' {
        var start := i;
        i := NumberRun(expr, start);
        var val := Stod(expr[start..i]);
        if val.None? {
          ResumeErr(m, false, expr, i0, st0, "invalid number");
          return Err("invalid number");
        }
        values := values + [val.value];
        ResumeOk(m, false, expr, i0, st0, i, Stacks(values, ops));
      } else if c == '(' {
        ops := ops + [c];
        i := i + 1;
        ResumeOk(m, false, expr, i0, st0, i, Stacks(values, ops));
      } else if c == ')' {
        var reduced := ReduceLoop(m, values, ops, ToOpen);
        if reduced.Err? {
          ResumeErr(m, false, expr, i0, st0, reduced.msg);
          return Err(reduced.msg);
        }
        values, ops := reduced.value.values, reduced.value.ops;
        if |ops| == 0 {
          ResumeErr(m, false, expr, i0, st0, "mismatched parentheses");
          return Err("mismatched parentheses");
        }
        ops := ops[..|ops| - 1];
        i := i + 1;
        ResumeOk(m, false, expr, i0, st0, i, Stacks(values, ops));
      } else if c == '+' || c == '-' || c == '*' || c == '/' {
        if c == '-' && (i == 0 || expr[i - 1] == '(' || expr[i - 1] == '+' || expr[i - 1] == '-' ||
                        expr[i - 1] == '*' || expr[i - 1] == '/') {
          values := values + [0.0];
        }
        var reduced := ReduceLoop(m, values, ops, ToPrecedence(Precedence(c)));
        if reduced.Err? {
          ResumeErr(m, false, expr, i0, st0, reduced.msg);
          return Err(reduced.msg);
        }
        values, ops := reduced.value.values, reduced.value.ops + [c];
        i := i + 1;
        ResumeOk(m, false, expr, i0, st0, i, Stacks(values, ops));
      } else {
        ResumeErr(m, false, expr, i0, st0, m.invalidCharacter + [c]);
        return Err(m.invalidCharacter + [c]);
      }
    }
    r := FinishLoop(m, values, ops);
  }

  /** `tryEvaluateExpression(expr, result, error)`: `error` is cleared, and
      `result` is written only on success. */
  method TryEvaluateExpression(expr: string, result0: real) returns (ok: bool, result: real, error: string)
    ensures ok <==> Evaluate(Texts, expr).Ok?
    ensures ok ==> result == Evaluate(Texts, expr).value && error == ""
    ensures !ok ==> result == result0 && error == Evaluate(Texts, expr).msg
  {
    var r := EvaluateLoop(Texts, expr);
    if r.Ok? {
      return true, r.value, "";
    }
    return false, result0, r.msg;
  }

  // ---------------------------------------------------------------------
  // Steps of the machine on small inputs
  // ---------------------------------------------------------------------

  lemma StodDigit(d: char)
    requires IsDigit(d)
    ensures Stod([d]) == Some(DigitValue(d) as real)
  {
    assert LeadingDigits([d]) == 1 by {
      assert [d][1..] == [];
    }
    assert [d][..1] == [d];
    assert DigitsValue([d]) == DigitsValue([]) * 10 + DigitValue(d);
  }

  /** A lone digit pushes its value. */
  lemma DigitStep(m: Messages, corrected: bool, e: string, i: nat, st: Stacks)
    requires i < |e| && IsDigit(e[i]) && (i + 1 == |e| || !IsNumberChar(e[i + 1]))
    ensures Step(m, corrected, e, i, st) == Ok((i + 1, Stacks(st.values + [DigitValue(e[i]) as real], st.ops)))
  {
    assert NumberEnd(e, i) == i + 1;
    assert e[i..i + 1] == [e[i]];
    StodDigit(e[i]);
  }

  /** `applyOp` replaces the two top values by `a op b`. */
  lemma ApplyPush(m: Messages, vs: seq<real>, a: real, b: real, op: char)
    requires Applicable(op) && (op == '/' ==> b != 0.0)
    ensures Apply(m, vs + [a, b], op) == Ok(vs + [Arith(op, a, b)])
  {
    var w := vs + [a, b];
    assert w[..|w| - 2] == vs && w[|w| - 2] == a && w[|w| - 1] == b;
  }

  /** An operator reduces what binds at least as tightly, then is pushed. */
  lemma PushOperator(m: Messages, corrected: bool, e: string, i: nat, st: Stacks, s: Stacks)
    requires i < |e| && IsOperator(e[i]) && !(corrected && IsUnary(e, i, true))
    requires Reduce(m, Stacks(if IsUnary(e, i, corrected) then st.values + [0.0] else st.values, st.ops),
                    ToPrecedence(Precedence(e[i]))) == Ok(s)
    ensures Step(m, corrected, e, i, st) == Ok((i + 1, Stacks(s.values, s.ops + [e[i]])))
  {
  }

  /** A step that succeeds hands over to the rest of the loop. */
  lemma RunStep(m: Messages, corrected: bool, e: string, i: nat, st: Stacks, j: nat, s: Stacks)
    requires i < |e| && j <= |e| && Step(m, corrected, e, i, st) == Ok((j, s))
    ensures Run(m, corrected, e, i, st) == Run(m, corrected, e, j, s)
  {
  }

  /** A lone digit hands the rest of the loop a stack with its value. */
  lemma RunDigit(m: Messages, corrected: bool, e: string, i: nat, st: Stacks)
    requires i < |e| && IsDigit(e[i]) && (i + 1 == |e| || !IsNumberChar(e[i + 1]))
    ensures Run(m, corrected, e, i, st) == Run(m, corrected, e, i + 1, Stacks(st.values + [DigitValue(e[i]) as real], st.ops))
  {
    DigitStep(m, corrected, e, i, st);
    RunStep(m, corrected, e, i, st, i + 1, Stacks(st.values + [DigitValue(e[i]) as real], st.ops));
  }

  /** An operator hands the rest of the loop the reduced stacks with the
      operator pushed. */
  lemma RunOperator(m: Messages, corrected: bool, e: string, i: nat, st: Stacks, s: Stacks)
    requires i < |e| && IsOperator(e[i]) && !(corrected && IsUnary(e, i, true))
    requires Reduce(m, Stacks(if IsUnary(e, i, corrected) then st.values + [0.0] else st.values, st.ops),
                    ToPrecedence(Precedence(e[i]))) == Ok(s)
    ensures Run(m, corrected, e, i, st) == Run(m, corrected, e, i + 1, Stacks(s.values, s.ops + [e[i]]))
  {
    PushOperator(m, corrected, e, i, st, s);
    RunStep(m, corrected, e, i, st, i + 1, Stacks(s.values, s.ops + [e[i]]));
  }

  /** The loop over a whole text hands its stacks to the final reductions. */
  lemma ResumeAt(m: Messages, corrected: bool, e: string, st: Stacks)
    requires Run(m, corrected, e, 0, Stacks([], [])) == Ok(st)
    ensures Resume(m, corrected, e, 0, Stacks([], [])) == Finish(m, st)
  {
  }

  /** A reduction that finds no operator binding tightly enough changes nothing. */
  lemma ReduceStops(m: Messages, st: Stacks, u: Until)
    requires |st.ops| == 0 || !Continues(u, Top(st.ops))
    ensures Reduce(m, st, u) == Ok(st)
  {
  }

  /** A reduction loop applies a continuing top operator. */
  lemma ReduceApply(m: Messages, vs: seq<real>, a: real, b: real, ops: seq<char>, op: char, u: Until)
    requires Applicable(op) && Continues(u, op) && (op == '/' ==> b != 0.0)
    ensures Reduce(m, Stacks(vs + [a, b], ops + [op]), u) == Reduce(m, Stacks(vs + [Arith(op, a, b)], ops), u)
  {
    ApplyPush(m, vs, a, b, op);
    assert (ops + [op])[..|ops|] == ops;
  }

  /** A leading digit and operator leave the digit and the operator on the stacks. */
  lemma LeadingOperand(m: Messages, corrected: bool, e: string)
    requires |e| >= 2 && IsDigit(e[0]) && IsOperator(e[1])
    ensures Run(m, corrected, e, 0, Stacks([], [])) == Run(m, corrected, e, 2, Stacks([DigitValue(e[0]) as real], [e[1]]))
  {
    var A := DigitValue(e[0]) as real;
    assert [] + [A] == [A] && [] + [e[1]] == [e[1]];
    RunDigit(m, corrected, e, 0, Stacks([], []));
    assert !IsUnary(e, 1, corrected) by {
      if corrected {
        assert PreviousToken(e, 1) == Some(e[0]);
      }
    }
    ReduceStops(m, Stacks([A], []), ToPrecedence(Precedence(e[1])));
    RunOperator(m, corrected, e, 1, Stacks([A], []), Stacks([A], []));
  }

  /** The final reductions of one and of two pending operators. */
  lemma FinishOne(m: Messages, a: real, b: real, op: char)
    requires Applicable(op) && (op == '/' ==> b != 0.0)
    ensures Finish(m, Stacks([a, b], [op])) == Ok(Arith(op, a, b))
  {
    ApplyPush(m, [], a, b, op);
    assert [a, b] == [] + [a, b] && [op][..0] == [];
    assert Finish(m, Stacks([] + [Arith(op, a, b)], [])) == Ok(Arith(op, a, b));
  }

  lemma FinishTwo(m: Messages, a: real, b: real, c: real, op1: char, op2: char)
    requires Applicable(op1) && Applicable(op2) && (op2 == '/' ==> c != 0.0)
    requires op1 == '/' ==> Arith(op2, b, c) != 0.0
    ensures Finish(m, Stacks([a, b, c], [op1, op2])) == Ok(Arith(op1, a, Arith(op2, b, c)))
  {
    ApplyPush(m, [a], b, c, op2);
    assert [a, b, c] == [a] + [b, c] && [op1, op2][..1] == [op1] && [a] + [Arith(op2, b, c)] == [a, Arith(op2, b, c)];
    FinishOne(m, a, Arith(op2, b, c), op1);
  }

  // ---------------------------------------------------------------------
  // Digits and operators at the end of the text
  // ---------------------------------------------------------------------

  /** A last character that is a digit pushes its value and ends the loop. */
  lemma TailDigit(m: Messages, corrected: bool, e: string, i: nat, st: Stacks)
    requires i + 1 == |e| && IsDigit(e[i])
    ensures Run(m, corrected, e, i, st) == Ok(Stacks(st.values + [DigitValue(e[i]) as real], st.ops))
  {
    RunDigit(m, corrected, e, i, st);
  }

  /** An operator and a digit at the end of the text. */
  lemma TailOperatorDigit(m: Messages, corrected: bool, e: string, i: nat, st: Stacks, s: Stacks)
    requires i + 2 == |e| && IsOperator(e[i]) && IsDigit(e[i + 1]) && !(corrected && IsUnary(e, i, true))
    requires Reduce(m, Stacks(if IsUnary(e, i, corrected) then st.values + [0.0] else st.values, st.ops),
                    ToPrecedence(Precedence(e[i]))) == Ok(s)
    ensures Run(m, corrected, e, i, st) == Ok(Stacks(s.values + [DigitValue(e[i + 1]) as real], s.ops + [e[i]]))
  {
    RunOperator(m, corrected, e, i, st, s);
    TailDigit(m, corrected, e, i + 1, Stacks(s.values, s.ops + [e[i]]));
  }

  // ---------------------------------------------------------------------
  // The grammar: expr := term (± term)*, term := factor (*,/ factor)*,
  // factor := number | (expr) | -factor; its value, and the machine
  // computing it
  // ---------------------------------------------------------------------

  /** A text of the grammar as a tree: sums and products group to the left,
      as the repetitions of the grammar are read. */
  datatype Expr = Single(term: Term) | Sum(left: Expr, op: char, right: Term)
  datatype Term = Operand(factor: Factor) | Product(left: Term, op: char, right: Factor)
  /** A number is its digits before the dot and, if any, after it; a
      negation is a unary minus before a factor. */
  datatype Factor = Number(whole: string, fraction: string) | Group(inner: Expr) | Neg(negated: Factor)

  predicate Digits(t: string) {
    forall k :: 0 <= k < |t| ==> IsDigit(t[k])
  }

  predicate WellFormedExpr(x: Expr) {
    match x
    case Single(t) => WellFormedTerm(t)
    case Sum(l, op, r) => (op == '+' || op == '-') && WellFormedExpr(l) && WellFormedTerm(r)
  }

  predicate WellFormedTerm(t: Term) {
    match t
    case Operand(f) => WellFormedFactor(f)
    case Product(l, op, r) => (op == '*' || op == '/') && WellFormedTerm(l) && WellFormedFactor(r)
  }

  predicate WellFormedFactor(f: Factor) {
    match f
    case Number(w, d) => Digits(w) && Digits(d) && |w| + |d| > 0
    case Group(x) => WellFormedExpr(x)
    case Neg(f) => WellFormedFactor(f)
  }

  /** A text without a unary minus, which the evaluator as written reads
      differently. */
  predicate PlainExpr(x: Expr) {
    match x
    case Single(t) => PlainTerm(t)
    case Sum(l, _, r) => PlainExpr(l) && PlainTerm(r)
  }

  predicate PlainTerm(t: Term) {
    match t
    case Operand(f) => PlainFactor(f)
    case Product(l, _, r) => PlainTerm(l) && PlainFactor(r)
  }

  predicate PlainFactor(f: Factor) {
    match f
    case Number(_, _) => true
    case Group(x) => PlainExpr(x)
    case Neg(_) => false
  }

  /** A text that ends an operand: its last character is a digit or `)`. */
  predicate Delimited(s: string) {
    |s| > 0 && (IsDigit(s[|s| - 1]) || s[|s| - 1] == ')')
  }

  function NumberText(w: string, d: string): string {
    if |d| == 0 then w else w + "." + d
  }

  function ExprText(x: Expr): (s: string)
    ensures WellFormedExpr(x) ==> Delimited(s)
  {
    match x
    case Single(t) => TermText(t)
    case Sum(l, op, r) => ExprText(l) + [op] + TermText(r)
  }

  function TermText(t: Term): (s: string)
    ensures WellFormedTerm(t) ==> Delimited(s)
  {
    match t
    case Operand(f) => FactorText(f)
    case Product(l, op, r) => TermText(l) + [op] + FactorText(r)
  }

  function FactorText(f: Factor): (s: string)
    ensures WellFormedFactor(f) ==> Delimited(s)
  {
    match f
    case Number(w, d) => NumberText(w, d)
    case Group(x) => "(" + ExprText(x) + ")"
    case Neg(g) => "-" + FactorText(g)
  }

  /** The value of a number: its whole part plus its fraction. */
  function NumberValue(w: string, d: string): real {
    DigitsValue(w) as real + DigitsValue(d) as real / Pow10(|d|) as real
  }

  /** The value of an expression, evaluated left to right; a zero divisor
      is an error. */
  function ExprValue(x: Expr): Outcome<real> {
    match x
    case Single(t) => TermValue(t)
    case Sum(l, op, r) =>
      match ExprValue(l)
      case Err(msg) => Err(msg)
      case Ok(a) =>
        match TermValue(r)
        case Err(msg) => Err(msg)
        case Ok(b) => if op == '+' then Ok(a + b) else Ok(a - b)
  }

  function TermValue(t: Term): Outcome<real> {
    match t
    case Operand(f) => FactorValue(f)
    case Product(l, op, r) =>
      match TermValue(l)
      case Err(msg) => Err(msg)
      case Ok(a) =>
        match FactorValue(r)
        case Err(msg) => Err(msg)
        case Ok(b) =>
          if op == '*' then Ok(a * b) else if b == 0.0 then Err("division by zero") else Ok(a / b)
  }

  function FactorValue(f: Factor): Outcome<real> {
    match f
    case Number(w, d) => Ok(NumberValue(w, d))
    case Group(x) => ExprValue(x)
    case Neg(g) =>
      match FactorValue(g)
      case Err(msg) => Err(msg)
      case Ok(v) => Ok(-v)
  }

  /** The text s stands in e at position i. */
  predicate At(e: string, i: nat, s: string) {
    i + |s| <= |e| && e[i..i + |s|] == s
  }

  lemma AtSplit(e: string, i: nat, a: string, b: string)
    requires At(e, i, a + b)
    ensures At(e, i, a) && At(e, i + |a|, b)
  {
    assert e[i..i + |a|] == e[i..i + |a + b|][..|a|];
    assert e[i + |a|..i + |a + b|] == e[i..i + |a + b|][|a|..];
  }

  /** Three pieces standing one after the other. */
  lemma AtSplit3(e: string, i: nat, a: string, c: char, b: string)
    requires At(e, i, a + [c] + b)
    ensures At(e, i, a) && i + |a| < |e| && e[i + |a|] == c && At(e, i + |a| + 1, b)
  {
    AtSplit(e, i, a + [c], b);
    AtSplit(e, i, a, [c]);
    assert e[i + |a|] == e[i + |a|..i + |a| + 1][0];
  }

  /** A delimited text standing in e ends an operand. */
  lemma AtDelimited(e: string, i: nat, s: string)
    requires At(e, i, s) && Delimited(s)
    ensures i < |e| && EndsOperand(e, i + |s|)
  {
    assert e[i + |s| - 1] == e[i..i + |s|][|s| - 1];
  }

  /** The position after `(` or an operator starts an operand. */
  lemma StartAfter(e: string, k: nat)
    requires k < |e| && OpensOperand(e[k])
    ensures OperandStart(e, k + 1)
  {
    assert PreviousToken(e, k + 1) == Some(e[k]);
  }

  /** Nothing on the operator stack binds at least as tightly as p. */
  predicate Quiet(ops: seq<char>, p: int) {
    |ops| == 0 || Precedence(Top(ops)) < p
  }

  /** What may follow a term: an operator, `)` or the end of the text. */
  predicate FollowsTerm(e: string, j: nat) {
    j == |e| || (j < |e| && (e[j] == ')' || IsOperator(e[j])))
  }

  /** What may follow an expression: `+`, `-`, `)` or the end of the text. */
  predicate FollowsExpr(e: string, j: nat) {
    j == |e| || (j < |e| && (e[j] == ')' || e[j] == '+' || e[j] == '-'))
  }

  /** A character that ends an operand. */
  predicate EndsOperand(e: string, j: nat) {
    0 < j <= |e| && (IsDigit(e[j - 1]) || e[j - 1] == ')')
  }

  /** A minus right after an operand is binary, as written and corrected. */
  lemma BinaryAfterOperand(e: string, k: nat, corrected: bool)
    requires k < |e| && EndsOperand(e, k)
    ensures !IsUnary(e, k, corrected)
  {
    if corrected {
      assert PreviousToken(e, k) == Some(e[k - 1]);
    }
  }

  /** An operator after an operand, over a stack with nothing binding at
      least as tightly, is pushed. */
  lemma PushAfterOperand(m: Messages, corrected: bool, e: string, k: nat, vs: seq<real>, ops: seq<char>)
    requires k < |e| && IsOperator(e[k]) && EndsOperand(e, k) && Quiet(ops, Precedence(e[k]))
    ensures Resume(m, corrected, e, k, Stacks(vs, ops)) == Resume(m, corrected, e, k + 1, Stacks(vs, ops + [e[k]]))
  {
    BinaryAfterOperand(e, k, corrected);
    ReduceStops(m, Stacks(vs, ops), ToPrecedence(Precedence(e[k])));
    PushOperator(m, corrected, e, k, Stacks(vs, ops), Stacks(vs, ops));
    ResumeOk(m, corrected, e, k, Stacks(vs, ops), k + 1, Stacks(vs, ops + [e[k]]));
  }

  /** The operator left pending after an operand is applied by whatever
      follows: an operator binding no more tightly, `)` or the end. */
  lemma Settle(m: Messages, corrected: bool, e: string, j: nat, vs: seq<real>, ops: seq<char>, a: real, b: real, op: char)
    requires Applicable(op) && EndsOperand(e, j)
    requires j == |e| || e[j] == ')' || (IsOperator(e[j]) && Precedence(e[j]) <= Precedence(op))
    ensures op == '/' && b == 0.0 ==>
      Resume(m, corrected, e, j, Stacks(vs + [a] + [b], ops + [op])) == Err("division by zero")
    ensures !(op == '/' && b == 0.0) ==>
      Resume(m, corrected, e, j, Stacks(vs + [a] + [b], ops + [op])) == Resume(m, corrected, e, j, Stacks(vs + [Arith(op, a, b)], ops))
  {
    assert vs + [a] + [b] == vs + [a, b];
    if j == |e| {
      SettleAtEnd(m, corrected, e, vs, ops, a, b, op);
    } else if e[j] == ')' {
      SettleAtClose(m, corrected, e, j, vs, ops, a, b, op);
    } else {
      SettleAtOperator(m, corrected, e, j, vs, ops, a, b, op);
    }
  }

  /** At the end of the text the final reductions apply the pending operator. */
  lemma SettleAtEnd(m: Messages, corrected: bool, e: string, vs: seq<real>, ops: seq<char>, a: real, b: real, op: char)
    requires Applicable(op)
    ensures op == '/' && b == 0.0 ==>
      Resume(m, corrected, e, |e|, Stacks(vs + [a, b], ops + [op])) == Err("division by zero")
    ensures !(op == '/' && b == 0.0) ==>
      Resume(m, corrected, e, |e|, Stacks(vs + [a, b], ops + [op])) == Resume(m, corrected, e, |e|, Stacks(vs + [Arith(op, a, b)], ops))
  {
    var w := vs + [a, b];
    assert w[..|w| - 2] == vs && w[|w| - 2] == a && w[|w| - 1] == b;
    assert (ops + [op])[..|ops|] == ops && Top(ops + [op]) == op;
    if op == '/' && b == 0.0 {
      assert Apply(m, w, op) == Err("division by zero");
    } else {
      ApplyPush(m, vs, a, b, op);
    }
  }

  /** `)` applies the pending operator before it pops the `(`. */
  lemma SettleAtClose(m: Messages, corrected: bool, e: string, j: nat, vs: seq<real>, ops: seq<char>, a: real, b: real, op: char)
    requires Applicable(op) && j < |e| && e[j] == ')'
    ensures op == '/' && b == 0.0 ==>
      Resume(m, corrected, e, j, Stacks(vs + [a, b], ops + [op])) == Err("division by zero")
    ensures !(op == '/' && b == 0.0) ==>
      Resume(m, corrected, e, j, Stacks(vs + [a, b], ops + [op])) == Resume(m, corrected, e, j, Stacks(vs + [Arith(op, a, b)], ops))
  {
    var w := vs + [a, b];
    assert w[..|w| - 2] == vs && w[|w| - 2] == a && w[|w| - 1] == b;
    assert (ops + [op])[..|ops|] == ops && Top(ops + [op]) == op;
    var p := Stacks(w, ops + [op]);
    if op == '/' && b == 0.0 {
      assert Apply(m, w, op) == Err("division by zero");
    } else {
      ReduceApply(m, vs, a, b, ops, op, ToOpen);
      assert Step(m, corrected, e, j, p) == Step(m, corrected, e, j, Stacks(vs + [Arith(op, a, b)], ops));
    }
  }

  /** An operator binding no more tightly applies the pending one first. */
  lemma SettleAtOperator(m: Messages, corrected: bool, e: string, j: nat, vs: seq<real>, ops: seq<char>, a: real, b: real, op: char)
    requires Applicable(op) && j < |e| && EndsOperand(e, j) && IsOperator(e[j]) && Precedence(e[j]) <= Precedence(op)
    ensures op == '/' && b == 0.0 ==>
      Resume(m, corrected, e, j, Stacks(vs + [a, b], ops + [op])) == Err("division by zero")
    ensures !(op == '/' && b == 0.0) ==>
      Resume(m, corrected, e, j, Stacks(vs + [a, b], ops + [op])) == Resume(m, corrected, e, j, Stacks(vs + [Arith(op, a, b)], ops))
  {
    var w := vs + [a, b];
    assert w[..|w| - 2] == vs && w[|w| - 2] == a && w[|w| - 1] == b;
    assert (ops + [op])[..|ops|] == ops && Top(ops + [op]) == op;
    var p := Stacks(w, ops + [op]);
    BinaryAfterOperand(e, j, corrected);
    if op == '/' && b == 0.0 {
      assert Apply(m, w, op) == Err("division by zero");
    } else {
      ReduceApply(m, vs, a, b, ops, op, ToPrecedence(Precedence(e[j])));
      assert Step(m, corrected, e, j, p) == Step(m, corrected, e, j, Stacks(vs + [Arith(op, a, b)], ops));
    }
  }

  lemma {:induction false} LeadingDigitsOfDigits(a: string, b: string)
    requires Digits(a)
    ensures LeadingDigits(a + b) == |a| + LeadingDigits(b)
    decreases |a|
  {
    if |a| > 0 {
      assert (a + b)[1..] == a[1..] + b;
      LeadingDigitsOfDigits(a[1..], b);
    } else {
      assert a + b == b;
    }
  }

  /** `stod` of a text whose leading digits and fraction are known. */
  lemma StodParts(t: string, n: nat, fraction: string, q: nat)
    requires LeadingDigits(t) == n && LeadingDigits(fraction) == q && n + q > 0
    requires fraction == if n < |t| && t[n] == '.' then t[n + 1..] else []
    ensures Stod(t).Some? && Stod(t).value == DigitsValue(t[..n]) as real + DigitsValue(fraction[..q]) as real / Pow10(q) as real
  {
  }

  /** `stod` reads a number's text as its value. */
  lemma StodNumber(w: string, d: string)
    requires Digits(w) && Digits(d) && |w| + |d| > 0
    ensures Stod(NumberText(w, d)).Some? && Stod(NumberText(w, d)).value == NumberValue(w, d)
  {
    if |d| == 0 {
      StodWhole(w);
    } else {
      StodFraction(w, d);
    }
  }

  lemma StodWhole(w: string)
    requires Digits(w) && |w| > 0
    ensures Stod(w).Some? && Stod(w).value == NumberValue(w, [])
  {
    AllDigits(w);
    var none: string := [];
    assert w[..|w|] == w && none[..0] == none;
    StodParts(w, |w|, none, 0);
  }

  lemma StodFraction(w: string, d: string)
    requires Digits(w) && Digits(d) && |d| > 0
    ensures Stod(w + "." + d).Some? && Stod(w + "." + d).value == NumberValue(w, d)
  {
    var t := w + "." + d;
    assert t == w + ("." + d);
    LeadingDigitsOfDigits(w, "." + d);
    AllDigits(d);
    assert t[|w|] == '.' && t[|w| + 1..] == d;
    StodParts(t, |w|, d, |d|);
    assert t[..|w|] == w && d[..|d|] == d;
    assert DigitsValue(t[..|w|]) == DigitsValue(w);
  }

  /** The number scan stops at the first character that is not a digit or
      a dot. */
  lemma {:induction false} NumberEndAt(e: string, i: nat, j: nat)
    requires i <= j <= |e| && (j == |e| || !IsNumberChar(e[j]))
    requires forall k :: i <= k < j ==> IsNumberChar(e[k])
    ensures NumberEnd(e, i) == j
    decreases j - i
  {
    if i < j {
      NumberEndAt(e, i + 1, j);
    }
  }

  /** A number pushes its value. */
  lemma ReadNumber(m: Messages, corrected: bool, e: string, i: nat, w: string, d: string, vs: seq<real>, ops: seq<char>)
    requires Digits(w) && Digits(d) && |w| + |d| > 0
    requires At(e, i, NumberText(w, d)) && FollowsTerm(e, i + |NumberText(w, d)|)
    ensures Resume(m, corrected, e, i, Stacks(vs, ops)) ==
      Resume(m, corrected, e, i + |NumberText(w, d)|, Stacks(vs + [NumberValue(w, d)], ops))
  {
    var t := NumberText(w, d);
    var j := i + |t|;
    forall k | i <= k < j
      ensures IsNumberChar(e[k])
    {
      assert e[k] == t[k - i];
    }
    NumberEndAt(e, i, j);
    assert e[i..j] == t;
    StodNumber(w, d);
    var v := Stod(e[i..j]).value;
    assert IsNumberChar(e[i]) && !IsSpace(e[i]);
    assert NumberStep(e, i, Stacks(vs, ops)) == Ok((j, Stacks(vs + [v], ops)));
    ResumeOk(m, corrected, e, i, Stacks(vs, ops), j, Stacks(vs + [v], ops));
  }

  /** The value of a product is `applyOp` of its operands' values. */
  lemma ProductValue(l: Term, op: char, r: Factor)
    requires (op == '*' || op == '/') && TermValue(l).Ok? && FactorValue(r).Ok?
    ensures op == '/' && FactorValue(r).value == 0.0 ==> TermValue(Product(l, op, r)) == Err("division by zero")
    ensures !(op == '/' && FactorValue(r).value == 0.0) ==>
      TermValue(Product(l, op, r)).Ok? && TermValue(Product(l, op, r)).value == Arith(op, TermValue(l).value, FactorValue(r).value)
  {
  }

  /** The value of a sum or difference is `applyOp` of its operands' values. */
  lemma SumValue(l: Expr, op: char, r: Term)
    requires (op == '+' || op == '-') && ExprValue(l).Ok? && TermValue(r).Ok?
    ensures ExprValue(Sum(l, op, r)).Ok? && ExprValue(Sum(l, op, r)).value == Arith(op, ExprValue(l).value, TermValue(r).value)
  {
  }

  /** Reading a factor leaves its value on the value stack, or fails with
      its error. */
  lemma {:induction false} ReadFactor(m: Messages, corrected: bool, e: string, i: nat, j: nat, f: Factor, vs: seq<real>, ops: seq<char>)
    requires WellFormedFactor(f) && (corrected || PlainFactor(f)) && OperandStart(e, i)
    requires At(e, i, FactorText(f)) && j == i + |FactorText(f)| && FollowsTerm(e, j)
    ensures FactorValue(f).Err? ==> Resume(m, corrected, e, i, Stacks(vs, ops)) == Err(FactorValue(f).msg)
    ensures FactorValue(f).Ok? ==>
      Resume(m, corrected, e, i, Stacks(vs, ops)) == Resume(m, corrected, e, j, Stacks(vs + [FactorValue(f).value], ops))
    decreases f, 3
  {
    match f
    case Number(w, d) =>
      ReadNumber(m, corrected, e, i, w, d, vs, ops);
    case Group(x) =>
      ReadGroup(m, corrected, e, i, j, x, vs, ops);
    case Neg(g) =>
      ReadNegation(m, e, i, j, g, vs, ops);
  }

  /** Corrected, a unary minus pushes 0 and the negation, its factor is
      read, and whatever follows the factor applies the negation first. */
  lemma {:induction false} ReadNegation(m: Messages, e: string, i: nat, j: nat, f: Factor, vs: seq<real>, ops: seq<char>)
    requires WellFormedFactor(f) && OperandStart(e, i)
    requires At(e, i, "-" + FactorText(f)) && j == i + 1 + |FactorText(f)| && FollowsTerm(e, j)
    ensures FactorValue(f).Err? ==> Resume(m, true, e, i, Stacks(vs, ops)) == Err(FactorValue(f).msg)
    ensures FactorValue(f).Ok? ==>
      Resume(m, true, e, i, Stacks(vs, ops)) == Resume(m, true, e, j, Stacks(vs + [-FactorValue(f).value], ops))
    decreases Neg(f), 2
  {
    assert "-" + FactorText(f) == [] + ['-'] + FactorText(f);
    AtSplit3(e, i, [], '-', FactorText(f));
    StartAfter(e, i);
    assert i < |e| && e[i] == '-' && OperandStart(e, i + 1) && At(e, i + 1, FactorText(f));
    ReadNegated(m, e, i + 1, j, f, vs, ops);
    PushNegation(m, e, i, vs, ops);
  }

  /** The factor after a pushed negation is read, and whatever follows it
      applies the negation to its value. */
  lemma {:induction false} ReadNegated(m: Messages, e: string, k: nat, j: nat, f: Factor, vs: seq<real>, ops: seq<char>)
    requires WellFormedFactor(f) && OperandStart(e, k)
    requires At(e, k, FactorText(f)) && j == k + |FactorText(f)| && FollowsTerm(e, j)
    ensures FactorValue(f).Err? ==> Resume(m, true, e, k, Stacks(vs + [0.0], ops + [Negation])) == Err(FactorValue(f).msg)
    ensures FactorValue(f).Ok? ==>
      Resume(m, true, e, k, Stacks(vs + [0.0], ops + [Negation])) == Resume(m, true, e, j, Stacks(vs + [-FactorValue(f).value], ops))
    decreases Neg(f), 1
  {
    AtDelimited(e, k, FactorText(f));
    if FactorValue(f).Ok? {
      SettleNegation(m, e, j, vs, ops, FactorValue(f).value);
    }
    ReadFactor(m, true, e, k, j, f, vs + [0.0], ops + [Negation]);
  }

  /** Whatever may follow a factor applies a pending negation to it. */
  lemma SettleNegation(m: Messages, e: string, j: nat, vs: seq<real>, ops: seq<char>, v: real)
    requires EndsOperand(e, j) && FollowsTerm(e, j)
    ensures Resume(m, true, e, j, Stacks(vs + [0.0] + [v], ops + [Negation])) == Resume(m, true, e, j, Stacks(vs + [-v], ops))
  {
    assert Applicable(Negation) && (j == |e| || e[j] == ')' || (IsOperator(e[j]) && Precedence(e[j]) <= Precedence(Negation)));
    Settle(m, true, e, j, vs, ops, 0.0, v, Negation);
    assert Arith(Negation, 0.0, v) == -v;
  }

  /** Corrected, a minus that starts an operand pushes 0 and the negation. */
  lemma PushNegation(m: Messages, e: string, i: nat, vs: seq<real>, ops: seq<char>)
    requires i < |e| && e[i] == '-' && OperandStart(e, i)
    ensures Resume(m, true, e, i, Stacks(vs, ops)) == Resume(m, true, e, i + 1, Stacks(vs + [0.0], ops + [Negation]))
  {
    assert Step(m, true, e, i, Stacks(vs, ops)) == Ok((i + 1, Stacks(vs + [0.0], ops + [Negation])));
    ResumeOk(m, true, e, i, Stacks(vs, ops), i + 1, Stacks(vs + [0.0], ops + [Negation]));
  }

  /** A parenthesised expression: `(` is pushed, the expression read, and
      `)` pops the `(`. */
  lemma {:induction false} ReadGroup(m: Messages, corrected: bool, e: string, i: nat, j: nat, x: Expr, vs: seq<real>, ops: seq<char>)
    requires WellFormedExpr(x) && (corrected || PlainExpr(x)) && At(e, i, "(" + ExprText(x) + ")") && j == i + |ExprText(x)| + 2
    ensures ExprValue(x).Err? ==> Resume(m, corrected, e, i, Stacks(vs, ops)) == Err(ExprValue(x).msg)
    ensures ExprValue(x).Ok? ==>
      Resume(m, corrected, e, i, Stacks(vs, ops)) == Resume(m, corrected, e, j, Stacks(vs + [ExprValue(x).value], ops))
    decreases x, 4
  {
    var s := ExprText(x);
    var k := j - 1;
    assert "(" + s + ")" == [] + ['('] + (s + ")");
    AtSplit3(e, i, [], '(', s + ")");
    assert s + ")" == s + [')'] + [];
    AtSplit3(e, i + 1, s, ')', []);
    var o := ops + ['('];
    StartAfter(e, i);
    assert Quiet(o, 1) && FollowsExpr(e, k) && At(e, i + 1, s) && i < |e| && e[i] == '(';
    if ExprValue(x).Ok? {
      CloseGroup(m, corrected, e, k, vs + [ExprValue(x).value], ops);
    }
    ReadExpr(m, corrected, e, i + 1, k, x, vs, o);
    OpenGroup(m, corrected, e, i, vs, ops);
  }

  /** `(` is pushed. */
  lemma OpenGroup(m: Messages, corrected: bool, e: string, i: nat, vs: seq<real>, ops: seq<char>)
    requires i < |e| && e[i] == '('
    ensures Resume(m, corrected, e, i, Stacks(vs, ops)) == Resume(m, corrected, e, i + 1, Stacks(vs, ops + ['(']))
  {
    assert Step(m, corrected, e, i, Stacks(vs, ops)) == Ok((i + 1, Stacks(vs, ops + ['('])));
    ResumeOk(m, corrected, e, i, Stacks(vs, ops), i + 1, Stacks(vs, ops + ['(']));
  }

  /** `)` right after an operand pops the `(` on top. */
  lemma CloseGroup(m: Messages, corrected: bool, e: string, k: nat, vs: seq<real>, ops: seq<char>)
    requires k < |e| && e[k] == ')'
    ensures Resume(m, corrected, e, k, Stacks(vs, ops + ['('])) == Resume(m, corrected, e, k + 1, Stacks(vs, ops))
  {
    var o := ops + ['('];
    ReduceStops(m, Stacks(vs, o), ToOpen);
    assert o[..|o| - 1] == ops;
    assert Step(m, corrected, e, k, Stacks(vs, o)) == Ok((k + 1, Stacks(vs, ops)));
    ResumeOk(m, corrected, e, k, Stacks(vs, o), k + 1, Stacks(vs, ops));
  }

  /** Reading a term over a stack with no `*` or `/` on top leaves its
      value on the value stack, or fails with its error. */
  lemma {:induction false} ReadTerm(m: Messages, corrected: bool, e: string, i: nat, j: nat, t: Term, vs: seq<real>, ops: seq<char>)
    requires WellFormedTerm(t) && (corrected || PlainTerm(t)) && OperandStart(e, i)
    requires At(e, i, TermText(t)) && j == i + |TermText(t)| && FollowsTerm(e, j) && Quiet(ops, 2)
    ensures TermValue(t).Err? ==> Resume(m, corrected, e, i, Stacks(vs, ops)) == Err(TermValue(t).msg)
    ensures TermValue(t).Ok? ==>
      Resume(m, corrected, e, i, Stacks(vs, ops)) == Resume(m, corrected, e, j, Stacks(vs + [TermValue(t).value], ops))
    decreases t, 3
  {
    match t
    case Operand(f) =>
      ReadFactor(m, corrected, e, i, j, f, vs, ops);
    case Product(l, op, r) =>
      ReadProduct(m, corrected, e, i, j, l, op, r, vs, ops);
  }

  /** A product: the left term, then the operator and the factor. */
  lemma {:induction false} ReadProduct(m: Messages, corrected: bool, e: string, i: nat, j: nat, l: Term, op: char, r: Factor, vs: seq<real>, ops: seq<char>)
    requires WellFormedTerm(Product(l, op, r)) && (corrected || PlainTerm(Product(l, op, r))) && OperandStart(e, i)
    requires At(e, i, TermText(Product(l, op, r)))
    requires j == i + |TermText(Product(l, op, r))| && FollowsTerm(e, j) && Quiet(ops, 2)
    ensures TermValue(Product(l, op, r)).Err? ==> Resume(m, corrected, e, i, Stacks(vs, ops)) == Err(TermValue(Product(l, op, r)).msg)
    ensures TermValue(Product(l, op, r)).Ok? ==>
      Resume(m, corrected, e, i, Stacks(vs, ops)) == Resume(m, corrected, e, j, Stacks(vs + [TermValue(Product(l, op, r)).value], ops))
    decreases Product(l, op, r), 2
  {
    var k := i + |TermText(l)|;
    AtSplit3(e, i, TermText(l), op, FactorText(r));
    AtDelimited(e, i, TermText(l));
    assert WellFormedTerm(l) && (corrected || PlainTerm(l)) && At(e, i, TermText(l)) && FollowsTerm(e, k) && EndsOperand(e, k);
    if TermValue(l).Ok? {
      ReadFactorAfter(m, corrected, e, k, j, TermValue(l).value, op, r, vs, ops);
      if FactorValue(r).Ok? {
        ProductValue(l, op, r);
      }
    }
    ReadTerm(m, corrected, e, i, k, l, vs, ops);
  }

  /** The `*` or `/` of a product and its factor, after the left operand a. */
  lemma {:induction false} ReadFactorAfter(m: Messages, corrected: bool, e: string, k: nat, j: nat, a: real, op: char, r: Factor, vs: seq<real>, ops: seq<char>)
    requires (op == '*' || op == '/') && WellFormedFactor(r) && (corrected || PlainFactor(r)) && k < |e| && e[k] == op && EndsOperand(e, k)
    requires At(e, k + 1, FactorText(r)) && j == k + 1 + |FactorText(r)| && FollowsTerm(e, j) && Quiet(ops, 2)
    ensures FactorValue(r).Err? ==> Resume(m, corrected, e, k, Stacks(vs + [a], ops)) == Err(FactorValue(r).msg)
    ensures FactorValue(r).Ok? && op == '/' && FactorValue(r).value == 0.0 ==>
      Resume(m, corrected, e, k, Stacks(vs + [a], ops)) == Err("division by zero")
    ensures FactorValue(r).Ok? && !(op == '/' && FactorValue(r).value == 0.0) ==>
      Resume(m, corrected, e, k, Stacks(vs + [a], ops)) == Resume(m, corrected, e, j, Stacks(vs + [Arith(op, a, FactorValue(r).value)], ops))
    decreases r, 5
  {
    AtDelimited(e, k + 1, FactorText(r));
    assert IsOperator(op) && (j == |e| || e[j] == ')' || (IsOperator(e[j]) && Precedence(e[j]) <= Precedence(op)));
    if FactorValue(r).Ok? {
      Settle(m, corrected, e, j, vs, ops, a, FactorValue(r).value, op);
    }
    PushFactor(m, corrected, e, k, j, r, vs + [a], ops);
  }

  /** The `*` or `/` is pushed and its factor read. */
  lemma {:induction false} PushFactor(m: Messages, corrected: bool, e: string, k: nat, j: nat, r: Factor, vs: seq<real>, ops: seq<char>)
    requires k < |e| && (e[k] == '*' || e[k] == '/') && WellFormedFactor(r) && (corrected || PlainFactor(r)) && EndsOperand(e, k)
    requires At(e, k + 1, FactorText(r)) && j == k + 1 + |FactorText(r)| && FollowsTerm(e, j) && Quiet(ops, 2)
    ensures FactorValue(r).Err? ==> Resume(m, corrected, e, k, Stacks(vs, ops)) == Err(FactorValue(r).msg)
    ensures FactorValue(r).Ok? ==>
      Resume(m, corrected, e, k, Stacks(vs, ops)) == Resume(m, corrected, e, j, Stacks(vs + [FactorValue(r).value], ops + [e[k]]))
    decreases r, 4
  {
    AtDelimited(e, k + 1, FactorText(r));
    StartAfter(e, k);
    assert IsOperator(e[k]) && Quiet(ops, Precedence(e[k])) && FollowsTerm(e, j);
    PushAfterOperand(m, corrected, e, k, vs, ops);
    ReadFactor(m, corrected, e, k + 1, j, r, vs, ops + [e[k]]);
  }

  /** Reading an expression over a stack with no operator on top leaves its
      value on the value stack, or fails with its error. */
  lemma {:induction false} ReadExpr(m: Messages, corrected: bool, e: string, i: nat, j: nat, x: Expr, vs: seq<real>, ops: seq<char>)
    requires WellFormedExpr(x) && (corrected || PlainExpr(x)) && OperandStart(e, i)
    requires At(e, i, ExprText(x)) && j == i + |ExprText(x)| && FollowsExpr(e, j) && Quiet(ops, 1)
    ensures ExprValue(x).Err? ==> Resume(m, corrected, e, i, Stacks(vs, ops)) == Err(ExprValue(x).msg)
    ensures ExprValue(x).Ok? ==>
      Resume(m, corrected, e, i, Stacks(vs, ops)) == Resume(m, corrected, e, j, Stacks(vs + [ExprValue(x).value], ops))
    decreases x, 3
  {
    match x
    case Single(t) =>
      ReadTerm(m, corrected, e, i, j, t, vs, ops);
    case Sum(l, op, r) =>
      ReadSum(m, corrected, e, i, j, l, op, r, vs, ops);
  }

  /** A sum or difference: the left expression, then the operator and the term. */
  lemma {:induction false} ReadSum(m: Messages, corrected: bool, e: string, i: nat, j: nat, l: Expr, op: char, r: Term, vs: seq<real>, ops: seq<char>)
    requires WellFormedExpr(Sum(l, op, r)) && (corrected || PlainExpr(Sum(l, op, r))) && OperandStart(e, i)
    requires At(e, i, ExprText(Sum(l, op, r)))
    requires j == i + |ExprText(Sum(l, op, r))| && FollowsExpr(e, j) && Quiet(ops, 1)
    ensures ExprValue(Sum(l, op, r)).Err? ==> Resume(m, corrected, e, i, Stacks(vs, ops)) == Err(ExprValue(Sum(l, op, r)).msg)
    ensures ExprValue(Sum(l, op, r)).Ok? ==>
      Resume(m, corrected, e, i, Stacks(vs, ops)) == Resume(m, corrected, e, j, Stacks(vs + [ExprValue(Sum(l, op, r)).value], ops))
    decreases Sum(l, op, r), 2
  {
    var k := i + |ExprText(l)|;
    AtSplit3(e, i, ExprText(l), op, TermText(r));
    AtDelimited(e, i, ExprText(l));
    assert WellFormedExpr(l) && (corrected || PlainExpr(l)) && At(e, i, ExprText(l)) && FollowsExpr(e, k) && EndsOperand(e, k);
    if ExprValue(l).Ok? {
      ReadTermAfter(m, corrected, e, k, j, ExprValue(l).value, op, r, vs, ops);
      if TermValue(r).Ok? {
        SumValue(l, op, r);
      }
    }
    ReadExpr(m, corrected, e, i, k, l, vs, ops);
  }

  /** The `+` or `-` of a sum and its term, after the left operand a. */
  lemma {:induction false} ReadTermAfter(m: Messages, corrected: bool, e: string, k: nat, j: nat, a: real, op: char, r: Term, vs: seq<real>, ops: seq<char>)
    requires (op == '+' || op == '-') && WellFormedTerm(r) && (corrected || PlainTerm(r)) && k < |e| && e[k] == op && EndsOperand(e, k)
    requires At(e, k + 1, TermText(r)) && j == k + 1 + |TermText(r)| && FollowsExpr(e, j) && Quiet(ops, 1)
    ensures TermValue(r).Err? ==> Resume(m, corrected, e, k, Stacks(vs + [a], ops)) == Err(TermValue(r).msg)
    ensures TermValue(r).Ok? ==>
      Resume(m, corrected, e, k, Stacks(vs + [a], ops)) == Resume(m, corrected, e, j, Stacks(vs + [Arith(op, a, TermValue(r).value)], ops))
    decreases r, 5
  {
    AtDelimited(e, k + 1, TermText(r));
    assert IsOperator(op) && (j == |e| || e[j] == ')' || (IsOperator(e[j]) && Precedence(e[j]) <= Precedence(op)));
    if TermValue(r).Ok? {
      Settle(m, corrected, e, j, vs, ops, a, TermValue(r).value, op);
    }
    PushTerm(m, corrected, e, k, j, r, vs + [a], ops);
  }

  /** The `+` or `-` is pushed and its term read. */
  lemma {:induction false} PushTerm(m: Messages, corrected: bool, e: string, k: nat, j: nat, r: Term, vs: seq<real>, ops: seq<char>)
    requires k < |e| && (e[k] == '+' || e[k] == '-') && WellFormedTerm(r) && (corrected || PlainTerm(r)) && EndsOperand(e, k)
    requires At(e, k + 1, TermText(r)) && j == k + 1 + |TermText(r)| && FollowsExpr(e, j) && Quiet(ops, 1)
    ensures TermValue(r).Err? ==> Resume(m, corrected, e, k, Stacks(vs, ops)) == Err(TermValue(r).msg)
    ensures TermValue(r).Ok? ==>
      Resume(m, corrected, e, k, Stacks(vs, ops)) == Resume(m, corrected, e, j, Stacks(vs + [TermValue(r).value], ops + [e[k]]))
    decreases r, 4
  {
    AtDelimited(e, k + 1, TermText(r));
    StartAfter(e, k);
    assert IsOperator(e[k]) && Quiet(ops, Precedence(e[k])) && FollowsTerm(e, j) && Quiet(ops + [e[k]], 2);
    PushAfterOperand(m, corrected, e, k, vs, ops);
    ReadTerm(m, corrected, e, k + 1, j, r, vs, ops + [e[k]]);
  }

  /** Every text of the grammar evaluates to its value with the corrected
      unary minus, and every text without a unary minus also as written:
      `*` and `/` bind more tightly than `+` and `-`, operators of equal
      precedence apply from left to right, parentheses group, a unary minus
      negates the factor that follows it, numbers of any length are read
      whole, and a zero divisor is the division-by-zero error. */
  lemma GrammarValue(m: Messages, x: Expr)
    requires WellFormedExpr(x)
    ensures PlainExpr(x) ==> Evaluate(m, ExprText(x)) == ExprValue(x)
    ensures EvaluateCorrected(m, ExprText(x)) == ExprValue(x)
  {
    var e := ExprText(x);
    assert At(e, 0, e) by {
      assert e[0..|e|] == e;
    }
    assert OperandStart(e, 0);
    if PlainExpr(x) {
      ReadExpr(m, false, e, 0, |e|, x, [], []);
    }
    ReadExpr(m, true, e, 0, |e|, x, [], []);
    if ExprValue(x).Ok? {
      var v := ExprValue(x).value;
      assert [] + [v] == [v];
      assert Resume(m, false, e, |e|, Stacks([v], [])) == Ok(v);
      assert Resume(m, true, e, |e|, Stacks([v], [])) == Ok(v);
    }
  }

  /** Regrouping a text of three parts joined by two characters. */
  lemma Regroup(a: string, b: string, c: string, p: char, q: char)
    ensures a + [p] + b + [q] + c == a + [p] + (b + [q] + c)
  {
  }

  /** The tree of "a+b*c": the sum of a and the product of b and c. */
  lemma SumOfProduct(a: Factor, b: Factor, c: Factor)
    requires WellFormedFactor(a) && WellFormedFactor(b) && WellFormedFactor(c)
    requires FactorValue(a).Ok? && FactorValue(b).Ok? && FactorValue(c).Ok?
    ensures WellFormedExpr(Sum(Single(Operand(a)), '+', Product(Operand(b), '*', c)))
    ensures ExprText(Sum(Single(Operand(a)), '+', Product(Operand(b), '*', c))) == FactorText(a) + "+" + FactorText(b) + "*" + FactorText(c)
    ensures ExprValue(Sum(Single(Operand(a)), '+', Product(Operand(b), '*', c))).Ok?
    ensures ExprValue(Sum(Single(Operand(a)), '+', Product(Operand(b), '*', c))).value == FactorValue(a).value + FactorValue(b).value * FactorValue(c).value
  {
    var A, B, C := FactorText(a), FactorText(b), FactorText(c);
    Regroup(A, B, C, '+', '*');
    assert TermText(Operand(a)) == A && TermText(Operand(b)) == B;
    assert TermValue(Operand(b)) == FactorValue(b);
    assert ExprValue(Single(Operand(a))) == FactorValue(a);
    ProductValue(Operand(b), '*', c);
    SumValue(Single(Operand(a)), '+', Product(Operand(b), '*', c));
  }

  /** `*` binds more tightly than `+`: "a+b*c" is a + (b · c) for any three
      factors, numbers of any length or parenthesised expressions. */
  lemma MultiplicationFirst(m: Messages, a: Factor, b: Factor, c: Factor)
    requires WellFormedFactor(a) && WellFormedFactor(b) && WellFormedFactor(c)
    requires FactorValue(a).Ok? && FactorValue(b).Ok? && FactorValue(c).Ok?
    ensures ExprText(Sum(Single(Operand(a)), '+', Product(Operand(b), '*', c))) == FactorText(a) + "+" + FactorText(b) + "*" + FactorText(c)
    ensures PlainFactor(a) && PlainFactor(b) && PlainFactor(c) ==>
      Evaluate(m, ExprText(Sum(Single(Operand(a)), '+', Product(Operand(b), '*', c)))) == ExprValue(Sum(Single(Operand(a)), '+', Product(Operand(b), '*', c)))
    ensures ExprValue(Sum(Single(Operand(a)), '+', Product(Operand(b), '*', c))).Ok? && ExprValue(Sum(Single(Operand(a)), '+', Product(Operand(b), '*', c))).value == FactorValue(a).value + FactorValue(b).value * FactorValue(c).value
  {
    SumOfProduct(a, b, c);
    var x := Sum(Single(Operand(a)), '+', Product(Operand(b), '*', c));
    if PlainFactor(a) && PlainFactor(b) && PlainFactor(c) {
      assert PlainTerm(Operand(a)) && PlainTerm(Operand(b));
      assert PlainExpr(Single(Operand(a))) && PlainTerm(Product(Operand(b), '*', c));
      GrammarValue(m, x);
    }
  }

  /** The tree of "a-b-c": the difference of a - b and c. */
  lemma DifferenceOfDifference(a: Term, b: Term, c: Term)
    requires WellFormedTerm(a) && WellFormedTerm(b) && WellFormedTerm(c)
    requires TermValue(a).Ok? && TermValue(b).Ok? && TermValue(c).Ok?
    ensures WellFormedExpr(Sum(Sum(Single(a), '-', b), '-', c))
    ensures ExprText(Sum(Sum(Single(a), '-', b), '-', c)) == TermText(a) + "-" + TermText(b) + "-" + TermText(c)
    ensures ExprValue(Sum(Sum(Single(a), '-', b), '-', c)).Ok?
    ensures ExprValue(Sum(Sum(Single(a), '-', b), '-', c)).value == (TermValue(a).value - TermValue(b).value) - TermValue(c).value
  {
    var A, B, C := TermText(a), TermText(b), TermText(c);
    assert ExprText(Single(a)) == A;
    assert ExprText(Sum(Single(a), '-', b)) == A + "-" + B;
    assert ExprValue(Single(a)) == TermValue(a);
    SumValue(Single(a), '-', b);
    SumValue(Sum(Single(a), '-', b), '-', c);
  }

  /** Operators of equal precedence group to the left: "a-b-c" is
      (a - b) - c for any three terms. */
  lemma LeftToRight(m: Messages, a: Term, b: Term, c: Term)
    requires WellFormedTerm(a) && WellFormedTerm(b) && WellFormedTerm(c)
    requires TermValue(a).Ok? && TermValue(b).Ok? && TermValue(c).Ok?
    ensures ExprText(Sum(Sum(Single(a), '-', b), '-', c)) == TermText(a) + "-" + TermText(b) + "-" + TermText(c)
    ensures PlainTerm(a) && PlainTerm(b) && PlainTerm(c) ==>
      Evaluate(m, ExprText(Sum(Sum(Single(a), '-', b), '-', c))) == ExprValue(Sum(Sum(Single(a), '-', b), '-', c))
    ensures ExprValue(Sum(Sum(Single(a), '-', b), '-', c)).Ok? && ExprValue(Sum(Sum(Single(a), '-', b), '-', c)).value == (TermValue(a).value - TermValue(b).value) - TermValue(c).value
  {
    DifferenceOfDifference(a, b, c);
    if PlainTerm(a) && PlainTerm(b) && PlainTerm(c) {
      assert PlainExpr(Sum(Single(a), '-', b));
      GrammarValue(m, Sum(Sum(Single(a), '-', b), '-', c));
    }
  }

  /** Regrouping a text followed by a character and a parenthesised text. */
  lemma RegroupGroup(a: string, p: char, x: string)
    ensures a + [p, '('] + x + ")" == a + [p] + ("(" + x + ")")
  {
  }

  /** The tree of "a*(x)": the product of a and the group of x. */
  lemma ProductOfGroup(a: Factor, x: Expr)
    requires WellFormedFactor(a) && WellFormedExpr(x)
    requires FactorValue(a).Ok? && ExprValue(x).Ok?
    ensures WellFormedExpr(Single(Product(Operand(a), '*', Group(x))))
    ensures ExprText(Single(Product(Operand(a), '*', Group(x)))) == FactorText(a) + "*(" + ExprText(x) + ")"
    ensures ExprValue(Single(Product(Operand(a), '*', Group(x)))).Ok?
    ensures ExprValue(Single(Product(Operand(a), '*', Group(x)))).value == FactorValue(a).value * ExprValue(x).value
  {
    var A, X := FactorText(a), ExprText(x);
    RegroupGroup(A, '*', X);
    assert TermText(Operand(a)) == A && FactorText(Group(x)) == "(" + X + ")";
    assert TermValue(Operand(a)) == FactorValue(a) && FactorValue(Group(x)) == ExprValue(x);
    ProductValue(Operand(a), '*', Group(x));
  }

  /** A parenthesised expression is evaluated before the operator around
      it: "a*(x)" is a · x for any factor a and expression x. */
  lemma ParenthesesFirst(m: Messages, a: Factor, x: Expr)
    requires WellFormedFactor(a) && WellFormedExpr(x)
    requires FactorValue(a).Ok? && ExprValue(x).Ok?
    ensures ExprText(Single(Product(Operand(a), '*', Group(x)))) == FactorText(a) + "*(" + ExprText(x) + ")"
    ensures PlainFactor(a) && PlainExpr(x) ==>
      Evaluate(m, ExprText(Single(Product(Operand(a), '*', Group(x))))) == ExprValue(Single(Product(Operand(a), '*', Group(x))))
    ensures ExprValue(Single(Product(Operand(a), '*', Group(x)))).Ok? && ExprValue(Single(Product(Operand(a), '*', Group(x)))).value == FactorValue(a).value * ExprValue(x).value
  {
    ProductOfGroup(a, x);
    if PlainFactor(a) && PlainExpr(x) {
      assert PlainTerm(Operand(a)) && PlainFactor(Group(x));
      assert PlainExpr(Single(Product(Operand(a), '*', Group(x))));
      GrammarValue(m, Single(Product(Operand(a), '*', Group(x))));
    }
  }

  // ---------------------------------------------------------------------
  // The unary minus, as written and corrected
  // ---------------------------------------------------------------------

  lemma RunTimesMinus(m: Messages, e: string)
    requires |e| == 4 && IsDigit(e[0]) && e[1] == '*' && e[2] == '-' && IsDigit(e[3])
    ensures Run(m, false, e, 0, Stacks([], [])) == Ok(Stacks([0.0, DigitValue(e[3]) as real], ['-']))
  {
    var A, B := DigitValue(e[0]) as real, DigitValue(e[3]) as real;
    LeadingOperand(m, false, e);
    ReduceProductWithZero(m, A);
    TailOperatorDigit(m, false, e, 2, Stacks([A], ['*']), Stacks([0.0], []));
    assert [] + ['-'] == ['-'] && [0.0] + [B] == [0.0, B];
  }

  /** The pending `*` takes the 0 pushed for a unary minus. */
  lemma ReduceProductWithZero(m: Messages, A: real)
    ensures Reduce(m, Stacks([A] + [0.0], ['*']), ToPrecedence(1)) == Ok(Stacks([0.0], []))
  {
    assert [A] + [0.0] == [] + [A, 0.0] && ['*'] == [] + ['*'];
    ReduceApply(m, [], A, 0.0, [], '*', ToPrecedence(1));
    assert [] + [Arith('*', A, 0.0)] == [0.0];
    ReduceStops(m, Stacks([0.0], []), ToPrecedence(1));
  }

  /** As written, the 0 pushed for a unary minus after `*` is consumed by
      the pending `*`: "a*-b" gives -b instead of -(a * b). */
  lemma UnaryMinusAfterTimes(m: Messages, a: char, b: char)
    requires IsDigit(a) && IsDigit(b)
    ensures Evaluate(m, [a, '*', '-', b]) == Ok(-(DigitValue(b) as real))
  {
    var e := [a, '*', '-', b];
    var B := DigitValue(b) as real;
    RunTimesMinus(m, e);
    ResumeAt(m, false, e, Stacks([0.0, B], ['-']));
    FinishOne(m, 0.0, B, '-');
  }

  lemma RunDivideMinus(m: Messages, e: string)
    requires |e| == 4 && IsDigit(e[0]) && e[1] == '/' && e[2] == '-' && IsDigit(e[3])
    ensures Run(m, false, e, 0, Stacks([], [])) == Err("division by zero")
  {
    var A := DigitValue(e[0]) as real;
    LeadingOperand(m, false, e);
    assert [A] + [0.0] == [A, 0.0];
    assert Apply(m, [A, 0.0], '/') == Err("division by zero");
    assert Step(m, false, e, 2, Stacks([A], ['/'])) == Err("division by zero");
  }

  /** As written, "a/-b" divides by the pushed 0. */
  lemma UnaryMinusAfterDivide(m: Messages, a: char, b: char)
    requires IsDigit(a) && IsDigit(b)
    ensures Evaluate(m, [a, '/', '-', b]) == Err("division by zero")
  {
    RunDivideMinus(m, [a, '/', '-', b]);
  }

  lemma RunSpaceMinus(m: Messages, e: string)
    requires |e| == 3 && e[0] == ' ' && e[1] == '-' && IsDigit(e[2])
    ensures Run(m, false, e, 0, Stacks([], [])) == Ok(Stacks([DigitValue(e[2]) as real], ['-']))
  {
    assert Step(m, false, e, 0, Stacks([], [])) == Ok((1, Stacks([], [])));
    RunStep(m, false, e, 0, Stacks([], []), 1, Stacks([], []));
    ReduceStops(m, Stacks([], []), ToPrecedence(1));
    TailOperatorDigit(m, false, e, 1, Stacks([], []), Stacks([], []));
    assert [] + [DigitValue(e[2]) as real] == [DigitValue(e[2]) as real] && [] + ['-'] == ['-'];
  }

  /** As written, a minus after a space is never unary: " -a" has too few
      operands. */
  lemma UnaryMinusAfterSpace(m: Messages, a: char)
    requires IsDigit(a)
    ensures Evaluate(m, [' ', '-', a]) == Err(m.notEnough)
  {
    var e := [' ', '-', a];
    RunSpaceMinus(m, e);
    ResumeAt(m, false, e, Stacks([DigitValue(a) as real], ['-']));
  }

  /** Corrected, a unary minus and a digit at the end of the text push 0,
      the negation and the digit. */
  lemma TailUnaryDigit(m: Messages, e: string, i: nat, st: Stacks)
    requires i + 2 == |e| && IsUnary(e, i, true) && IsDigit(e[i + 1])
    ensures Run(m, true, e, i, st) == Ok(Stacks(st.values + [0.0, DigitValue(e[i + 1]) as real], st.ops + [Negation]))
  {
    var s := Stacks(st.values + [0.0], st.ops + [Negation]);
    var j: nat := i + 1;
    assert Step(m, true, e, i, st) == Ok((j, s));
    RunStep(m, true, e, i, st, i + 1, s);
    TailDigit(m, true, e, i + 1, s);
    assert st.values + [0.0] + [DigitValue(e[i + 1]) as real] == st.values + [0.0, DigitValue(e[i + 1]) as real];
  }

  /** The tree of "a*-b" or "a/-b": a times or divided by the negation of b. */
  lemma ProductOfNegation(a: Factor, op: char, b: Factor)
    requires WellFormedFactor(a) && WellFormedFactor(b) && (op == '*' || op == '/')
    requires FactorValue(a).Ok? && FactorValue(b).Ok? && (op == '/' ==> FactorValue(b).value != 0.0)
    ensures WellFormedExpr(Single(Product(Operand(a), op, Neg(b))))
    ensures TermText(Product(Operand(a), op, Neg(b))) == FactorText(a) + [op, '-'] + FactorText(b)
    ensures TermValue(Product(Operand(a), op, Neg(b))).Ok?
    ensures TermValue(Product(Operand(a), op, Neg(b))).value == Arith(op, FactorValue(a).value, -FactorValue(b).value)
  {
    var A, B := FactorText(a), FactorText(b);
    assert TermText(Operand(a)) == A && FactorText(Neg(b)) == "-" + B;
    assert A + [op] + ("-" + B) == A + [op, '-'] + B;
    assert TermValue(Operand(a)) == FactorValue(a) && FactorValue(Neg(b)) == Ok(-FactorValue(b).value);
    ProductValue(Operand(a), op, Neg(b));
  }

  /** Corrected, a minus after `*` or `/` negates the factor that follows:
      "a*-b" is a · (-b) and "a/-b" is a / (-b) for any two factors. */
  lemma UnaryMinusCorrected(m: Messages, a: Factor, op: char, b: Factor)
    requires WellFormedFactor(a) && WellFormedFactor(b) && (op == '*' || op == '/')
    requires FactorValue(a).Ok? && FactorValue(b).Ok? && (op == '/' ==> FactorValue(b).value != 0.0)
    ensures ExprText(Single(Product(Operand(a), op, Neg(b)))) == FactorText(a) + [op, '-'] + FactorText(b)
    ensures EvaluateCorrected(m, ExprText(Single(Product(Operand(a), op, Neg(b))))) == ExprValue(Single(Product(Operand(a), op, Neg(b))))
    ensures ExprValue(Single(Product(Operand(a), op, Neg(b)))).Ok? &&
      ExprValue(Single(Product(Operand(a), op, Neg(b)))).value == Arith(op, FactorValue(a).value, -FactorValue(b).value)
  {
    ProductOfNegation(a, op, b);
    GrammarValue(m, Single(Product(Operand(a), op, Neg(b))));
  }

  /** The tree of "a/-b*c" or "a/-b/c": the quotient of a and -b, then
      the operator and c. */
  lemma NegatedQuotientThen(a: Factor, b: Factor, op: char, c: Factor)
    requires WellFormedFactor(a) && WellFormedFactor(b) && WellFormedFactor(c) && (op == '*' || op == '/')
    requires FactorValue(a).Ok? && FactorValue(b).Ok? && FactorValue(c).Ok?
    requires FactorValue(b).value != 0.0 && (op == '/' ==> FactorValue(c).value != 0.0)
    ensures WellFormedExpr(Single(Product(Product(Operand(a), '/', Neg(b)), op, c)))
    ensures ExprText(Single(Product(Product(Operand(a), '/', Neg(b)), op, c))) == FactorText(a) + "/-" + FactorText(b) + [op] + FactorText(c)
    ensures ExprValue(Single(Product(Product(Operand(a), '/', Neg(b)), op, c))).Ok?
    ensures ExprValue(Single(Product(Product(Operand(a), '/', Neg(b)), op, c))).value ==
      Arith(op, FactorValue(a).value / -FactorValue(b).value, FactorValue(c).value)
  {
    var l := Product(Operand(a), '/', Neg(b));
    ProductOfNegation(a, '/', b);
    ProductValue(l, op, c);
    NegatedQuotientText(a, b, op, c);
  }

  lemma NegatedQuotientText(a: Factor, b: Factor, op: char, c: Factor)
    ensures ExprText(Single(Product(Product(Operand(a), '/', Neg(b)), op, c))) == FactorText(a) + "/-" + FactorText(b) + [op] + FactorText(c)
  {
    var A, B := FactorText(a), FactorText(b);
    assert TermText(Product(Operand(a), '/', Neg(b))) == A + ['/'] + ("-" + B);
    assert A + ['/'] + ("-" + B) == A + "/-" + B;
  }

  /** Corrected, the negation binds more tightly than `*` and `/`: "a/-b*c"
      is (a / (-b)) · c and "a/-b/c" is (a / (-b)) / c for any three
      factors, not a / -(b · c) or a / -(b / c). */
  lemma NegationBindsTightly(m: Messages, a: Factor, b: Factor, op: char, c: Factor)
    requires WellFormedFactor(a) && WellFormedFactor(b) && WellFormedFactor(c) && (op == '*' || op == '/')
    requires FactorValue(a).Ok? && FactorValue(b).Ok? && FactorValue(c).Ok?
    requires FactorValue(b).value != 0.0 && (op == '/' ==> FactorValue(c).value != 0.0)
    ensures ExprText(Single(Product(Product(Operand(a), '/', Neg(b)), op, c))) == FactorText(a) + "/-" + FactorText(b) + [op] + FactorText(c)
    ensures EvaluateCorrected(m, ExprText(Single(Product(Product(Operand(a), '/', Neg(b)), op, c)))) ==
      ExprValue(Single(Product(Product(Operand(a), '/', Neg(b)), op, c)))
    ensures ExprValue(Single(Product(Product(Operand(a), '/', Neg(b)), op, c))).Ok? &&
      ExprValue(Single(Product(Product(Operand(a), '/', Neg(b)), op, c))).value ==
      Arith(op, FactorValue(a).value / -FactorValue(b).value, FactorValue(c).value)
  {
    NegatedQuotientThen(a, b, op, c);
    GrammarValue(m, Single(Product(Product(Operand(a), '/', Neg(b)), op, c)));
  }

  lemma RunSpaceMinusCorrected(m: Messages, e: string)
    requires |e| == 3 && e[0] == ' ' && e[1] == '-' && IsDigit(e[2])
    ensures Run(m, true, e, 0, Stacks([], [])) == Ok(Stacks([0.0, DigitValue(e[2]) as real], [Negation]))
  {
    assert Step(m, true, e, 0, Stacks([], [])) == Ok((1, Stacks([], [])));
    RunStep(m, true, e, 0, Stacks([], []), 1, Stacks([], []));
    assert PreviousToken(e, 1) == None;
    TailUnaryDigit(m, e, 1, Stacks([], []));
    assert [] + [0.0, DigitValue(e[2]) as real] == [0.0, DigitValue(e[2]) as real] && [] + [Negation] == [Negation];
  }

  /** Corrected, a minus at the start stays unary after leading spaces. */
  lemma UnaryMinusCorrectedAfterSpace(m: Messages, a: char)
    requires IsDigit(a)
    ensures EvaluateCorrected(m, [' ', '-', a]) == Ok(-(DigitValue(a) as real))
  {
    var e := [' ', '-', a];
    RunSpaceMinusCorrected(m, e);
    ResumeAt(m, true, e, Stacks([0.0, DigitValue(a) as real], [Negation]));
    FinishOne(m, 0.0, DigitValue(a) as real, Negation);
  }

  // ---------------------------------------------------------------------
  // What any input gives
  // ---------------------------------------------------------------------

  /** Both succeed or both fail, and when they succeed they agree. */
  predicate SameSuccess<T(==)>(x: Outcome<T>, y: Outcome<T>) {
    x.Ok? == y.Ok? && (x.Ok? ==> x.value == y.value)
  }

  lemma {:induction false} ReduceSameSuccess(m1: Messages, m2: Messages, st: Stacks, u: Until)
    ensures SameSuccess(Reduce(m1, st, u), Reduce(m2, st, u))
    decreases |st.ops|
  {
    if |st.ops| > 0 && Continues(u, Top(st.ops)) {
      var a1, a2 := Apply(m1, st.values, Top(st.ops)), Apply(m2, st.values, Top(st.ops));
      assert SameSuccess(a1, a2);
      if a1.Ok? {
        ReduceSameSuccess(m1, m2, Stacks(a1.value, st.ops[..|st.ops| - 1]), u);
      }
    }
  }

  lemma StepSameSuccess(m1: Messages, m2: Messages, corrected: bool, e: string, i: nat, st: Stacks)
    requires i < |e|
    ensures SameSuccess(Step(m1, corrected, e, i, st), Step(m2, corrected, e, i, st))
  {
    ReduceSameSuccess(m1, m2, st, ToOpen);
    var v := if IsUnary(e, i, corrected) then st.values + [0.0] else st.values;
    ReduceSameSuccess(m1, m2, Stacks(v, st.ops), ToPrecedence(Precedence(e[i])));
  }

  lemma {:induction false} RunSameSuccess(m1: Messages, m2: Messages, corrected: bool, e: string, i: nat, st: Stacks)
    requires i <= |e|
    ensures SameSuccess(Run(m1, corrected, e, i, st), Run(m2, corrected, e, i, st))
    decreases |e| - i
  {
    if i < |e| {
      StepSameSuccess(m1, m2, corrected, e, i, st);
      var s := Step(m1, corrected, e, i, st);
      if s.Ok? {
        RunSameSuccess(m1, m2, corrected, e, s.value.0, s.value.1);
      }
    }
  }

  lemma {:induction false} FinishSameSuccess(m1: Messages, m2: Messages, st: Stacks)
    ensures SameSuccess(Finish(m1, st), Finish(m2, st))
    decreases |st.ops|
  {
    if |st.ops| > 0 && Top(st.ops) != '(' && Top(st.ops) != ')' {
      var a := Apply(m1, st.values, Top(st.ops));
      if a.Ok? {
        FinishSameSuccess(m1, m2, Stacks(a.value, st.ops[..|st.ops| - 1]));
      }
    }
  }

  /** The error texts change nothing else: with any two sets of texts the
      evaluator succeeds on the same inputs, with the same value. */
  lemma TextsOnlyNameErrors(m1: Messages, m2: Messages, e: string)
    ensures SameSuccess(Evaluate(m1, e), Evaluate(m2, e))
  {
    RunSameSuccess(m1, m2, false, e, 0, Stacks([], []));
    var r := Run(m1, false, e, 0, Stacks([], []));
    if r.Ok? {
      FinishSameSuccess(m1, m2, r.value);
    }
  }

  /** The characters the evaluator accepts. */
  predicate Allowed(c: char) {
    IsSpace(c) || IsNumberChar(c) || c == '(' || c == ')' || IsOperator(c)
  }

  lemma {:induction false} RunAllowed(m: Messages, corrected: bool, e: string, i: nat, st: Stacks)
    requires i <= |e| && Run(m, corrected, e, i, st).Ok?
    ensures forall k :: i <= k < |e| ==> Allowed(e[k])
    decreases |e| - i
  {
    if i < |e| {
      var s := Step(m, corrected, e, i, st);
      RunAllowed(m, corrected, e, s.value.0, s.value.1);
    }
  }

  /** A successful evaluation has read nothing but spaces, digits, dots,
      parentheses and the four operators. */
  lemma SuccessMeansAllowed(m: Messages, e: string)
    requires Evaluate(m, e).Ok?
    ensures forall k :: 0 <= k < |e| ==> Allowed(e[k])
  {
    RunAllowed(m, false, e, 0, Stacks([], []));
  }

  /** No other error text has the length of an invalid-character text. */
  predicate Distinguishable(m: Messages) {
    var n := |m.invalidCharacter| + 1;
    n != |m.notEnough| && n != |m.unknownOperator| && n != |m.badExpression| &&
    n != |"division by zero"| && n != |"invalid number"| && n != |"mismatched parentheses"|
  }

  lemma ReduceErrors(m: Messages, st: Stacks, u: Until)
    requires Reduce(m, st, u).Err?
    ensures Reduce(m, st, u).msg in {m.notEnough, m.unknownOperator, "division by zero"}
    decreases |st.ops|
  {
  }

  lemma FinishErrors(m: Messages, st: Stacks)
    requires Finish(m, st).Err?
    ensures Finish(m, st).msg in {m.notEnough, m.unknownOperator, m.badExpression, "division by zero", "mismatched parentheses"}
    decreases |st.ops|
  {
  }

  /** A step that throws either names its own character as invalid or
      throws one of the other texts. */
  lemma StepError(m: Messages, corrected: bool, e: string, i: nat, st: Stacks)
    requires i < |e| && Step(m, corrected, e, i, st).Err?
    ensures var msg := Step(m, corrected, e, i, st).msg;
      (!Allowed(e[i]) && msg == m.invalidCharacter + [e[i]]) ||
      msg in {m.notEnough, m.unknownOperator, "division by zero", "invalid number", "mismatched parentheses"}
  {
    if e[i] == ')' && Reduce(m, st, ToOpen).Err? {
      ReduceErrors(m, st, ToOpen);
    } else if IsOperator(e[i]) && !(corrected && IsUnary(e, i, true)) {
      var v := if IsUnary(e, i, corrected) then st.values + [0.0] else st.values;
      if Reduce(m, Stacks(v, st.ops), ToPrecedence(Precedence(e[i]))).Err? {
        ReduceErrors(m, Stacks(v, st.ops), ToPrecedence(Precedence(e[i])));
      }
    }
  }

  /** A step that succeeds has read only allowed characters. */
  lemma StepAllowed(m: Messages, corrected: bool, e: string, i: nat, st: Stacks)
    requires i < |e| && Step(m, corrected, e, i, st).Ok?
    ensures forall j :: i <= j < Step(m, corrected, e, i, st).value.0 ==> Allowed(e[j])
  {
  }

  lemma {:induction false} RunInvalidCharacter(m: Messages, corrected: bool, e: string, i: nat, st: Stacks, c: char)
    requires i <= |e| && Distinguishable(m) && Run(m, corrected, e, i, st) == Err(m.invalidCharacter + [c])
    ensures exists k :: i <= k < |e| && e[k] == c && !Allowed(c) && forall j :: i <= j < k ==> Allowed(e[j])
    decreases |e| - i
  {
    var s := Step(m, corrected, e, i, st);
    if s.Ok? {
      RunInvalidCharacter(m, corrected, e, s.value.0, s.value.1, c);
      var k :| s.value.0 <= k < |e| && e[k] == c && !Allowed(c) && forall j :: s.value.0 <= j < k ==> Allowed(e[j]);
      StepAllowed(m, corrected, e, i, st);
    } else {
      var msg := m.invalidCharacter + [c];
      assert s.msg == msg;
      StepError(m, corrected, e, i, st);
      assert !Allowed(e[i]) && msg == m.invalidCharacter + [e[i]];
      assert msg[|msg| - 1] == c;
    }
  }

  /** An invalid-character error names the first character that is not a
      space, digit, dot, parenthesis or operator. */
  lemma InvalidCharacterIsFirstOne(m: Messages, e: string, c: char)
    requires Distinguishable(m) && Evaluate(m, e) == Err(m.invalidCharacter + [c])
    ensures exists k :: 0 <= k < |e| && e[k] == c && !Allowed(c) && forall j :: 0 <= j < k ==> Allowed(e[j])
  {
    var r := Run(m, false, e, 0, Stacks([], []));
    if r.Ok? {
      FinishErrors(m, r.value);
    } else {
      RunInvalidCharacter(m, false, e, 0, Stacks([], []), c);
    }
  }

  /** The texts of both calculators tell an invalid character from the rest. */
  lemma TextsDistinguishable()
    ensures Distinguishable(Texts)
  {
  }

  // ---------------------------------------------------------------------
  // Parentheses
  // ---------------------------------------------------------------------

  /** Opening minus closing parentheses among the first n characters. */
  function Depth(e: string, n: nat): int
    requires n <= |e|
  {
    if n == 0 then 0
    else Depth(e, n - 1) + (if e[n - 1] == '(' then 1 else if e[n - 1] == ')' then -1 else 0)
  }

  /** Every prefix closes no more parentheses than it opens, and the whole
      text closes all it opens. */
  predicate Balanced(e: string) {
    (forall n :: 0 <= n <= |e| ==> Depth(e, n) >= 0) && Depth(e, |e|) == 0
  }

  /** The number of `(` on the operator stack. */
  function Opens(ops: seq<char>): nat {
    if |ops| == 0 then 0 else Opens(ops[..|ops| - 1]) + (if Top(ops) == '(' then 1 else 0)
  }

  lemma OpensPush(ops: seq<char>, c: char)
    ensures Opens(ops + [c]) == Opens(ops) + (if c == '(' then 1 else 0)
  {
    assert (ops + [c])[..|ops|] == ops;
  }

  /** A reduction only pops operators, never a `(`; the `)` loop stops at one. */
  lemma {:induction false} ReduceKeepsOpens(m: Messages, st: Stacks, u: Until)
    requires Reduce(m, st, u).Ok?
    ensures Opens(Reduce(m, st, u).value.ops) == Opens(st.ops)
    ensures u == ToOpen && |Reduce(m, st, u).value.ops| > 0 ==> Top(Reduce(m, st, u).value.ops) == '('
    decreases |st.ops|
  {
    if |st.ops| > 0 && Continues(u, Top(st.ops)) {
      var a := Apply(m, st.values, Top(st.ops));
      ReduceKeepsOpens(m, Stacks(a.value, st.ops[..|st.ops| - 1]), u);
    }
  }

  lemma NumberKeepsDepth(e: string, i: nat, j: nat)
    requires i <= j <= |e| && forall k :: i <= k < j ==> IsNumberChar(e[k])
    ensures forall n :: i <= n <= j ==> Depth(e, n) == Depth(e, i)
    decreases j - i
  {
    if i < j {
      NumberKeepsDepth(e, i, j - 1);
    }
  }

  lemma StepKeepsDepth(m: Messages, corrected: bool, e: string, i: nat, st: Stacks)
    requires i < |e| && Opens(st.ops) == Depth(e, i) && Step(m, corrected, e, i, st).Ok?
    ensures var (j, s) := Step(m, corrected, e, i, st).value;
      Opens(s.ops) == Depth(e, j) && forall n :: i <= n <= j ==> Depth(e, n) >= 0
  {
    var (j, s) := Step(m, corrected, e, i, st).value;
    var c := e[i];
    if IsSpace(c) {
    } else if IsNumberChar(c) {
      NumberKeepsDepth(e, i, j);
    } else if c == '(' {
      OpensPush(st.ops, '(');
    } else if c == ')' {
      var r := Reduce(m, st, ToOpen).value;
      ReduceKeepsOpens(m, st, ToOpen);
      assert r.ops == r.ops[..|r.ops| - 1] + ['('];
      OpensPush(r.ops[..|r.ops| - 1], '(');
    } else {
      var v := if IsUnary(e, i, corrected) then st.values + [0.0] else st.values;
      if corrected && IsUnary(e, i, true) {
        OpensPush(st.ops, Negation);
      } else {
        ReduceKeepsOpens(m, Stacks(v, st.ops), ToPrecedence(Precedence(c)));
        OpensPush(Reduce(m, Stacks(v, st.ops), ToPrecedence(Precedence(c))).value.ops, c);
      }
    }
  }

  lemma {:induction false} RunKeepsDepth(m: Messages, corrected: bool, e: string, i: nat, st: Stacks)
    requires i <= |e| && Opens(st.ops) == Depth(e, i) && Run(m, corrected, e, i, st).Ok?
    ensures Opens(Run(m, corrected, e, i, st).value.ops) == Depth(e, |e|)
    ensures forall n :: i <= n <= |e| ==> Depth(e, n) >= 0
    decreases |e| - i
  {
    if i < |e| {
      StepKeepsDepth(m, corrected, e, i, st);
      var (j, s) := Step(m, corrected, e, i, st).value;
      RunKeepsDepth(m, corrected, e, j, s);
    }
  }

  /** The final reductions fail on any `(` left on the stack. */
  lemma {:induction false} FinishNeedsNoOpens(m: Messages, st: Stacks)
    requires Finish(m, st).Ok?
    ensures Opens(st.ops) == 0
    decreases |st.ops|
  {
    if |st.ops| > 0 {
      var a := Apply(m, st.values, Top(st.ops));
      FinishNeedsNoOpens(m, Stacks(a.value, st.ops[..|st.ops| - 1]));
    }
  }

  /** Mismatched parentheses are always rejected: an expression that
      evaluates (as written or corrected) has balanced parentheses. */
  lemma SuccessMeansBalanced(m: Messages, corrected: bool, e: string)
    requires Resume(m, corrected, e, 0, Stacks([], [])).Ok?
    ensures Balanced(e)
  {
    RunKeepsDepth(m, corrected, e, 0, Stacks([], []));
    FinishNeedsNoOpens(m, Run(m, corrected, e, 0, Stacks([], [])).value);
  }

  // ---------------------------------------------------------------------
  // Numbers
  // ---------------------------------------------------------------------

  /** A run of digits and dots fails to convert exactly when it starts with a
      dot that is not followed by a digit. */
  lemma StodFailure(t: string)
    requires |t| > 0 && forall k :: 0 <= k < |t| ==> IsNumberChar(t[k])
    ensures Stod(t).None? <==> t[0] == '.' && (|t| == 1 || t[1] == '.')
  {
    if t[0] == '.' && |t| > 1 {
      assert t[1..][0] == t[1];
    }
  }

  /** The decimal text of a natural number. */
  function NatText(n: nat): (t: string)
    ensures |t| > 0 && forall k :: 0 <= k < |t| ==> IsDigit(t[k])
  {
    var d := ['0' + (n % 10) as char];
    if n < 10 then d else NatText(n / 10) + d
  }

  lemma {:induction false} NatTextValue(n: nat)
    ensures DigitsValue(NatText(n)) == n
  {
    var t := NatText(n);
    assert t[..|t| - 1] == (if n < 10 then [] else NatText(n / 10));
    if n >= 10 {
      NatTextValue(n / 10);
    }
  }

  lemma {:induction false} AllDigits(t: string)
    requires forall k :: 0 <= k < |t| ==> IsDigit(t[k])
    ensures LeadingDigits(t) == |t|
    decreases |t|
  {
    if |t| > 0 {
      AllDigits(t[1..]);
    }
  }

  /** Reading back the decimal text of a natural number gives the number. */
  lemma StodNatText(n: nat)
    ensures Stod(NatText(n)) == Some(n as real)
  {
    var t := NatText(n);
    AllDigits(t);
    NatTextValue(n);
    assert t[..|t|] == t;
    assert LeadingDigits([]) == 0;
  }
}
