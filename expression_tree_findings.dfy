/** Three defects of `buildTree` and `multiply` (CNN/src/expression_tree.cpp),
    each shown on one input as written (`fixed == false`) and corrected
    (`fixed == true`). */
module ExpressionTreeFindings {
  import opened Tensor
  import Calculator
  import opened ExpressionTree

  // ------------------------------------------------------------------
  // A lone operator: `while (!ops.empty()) process();` never ends
  // ------------------------------------------------------------------

  /** The scan of "-": the minus is unary, so '~' is pushed with no node. */
  lemma MinusScan(s: string, fixed: bool)
    requires s == "-"
    ensures Preprocessed(s) == s
    ensures BuildTree(s, fixed) == Finish(Stacks([], ['~']), fixed)
  {
    PreprocessedOne('-');
    assert Drain(Stacks([], []), Below('~'), fixed) == Some(Stacks([], []));
    assert ScanMove(s, 0, Stacks([], []), true, fixed) == Go(1, Stacks([], ['~']), true);
    assert Scan(s, 1, Stacks([], ['~']), true, fixed) == Finish(Stacks([], ['~']), fixed);
    assert BuildTree(s, fixed) == Scan(s, 0, Stacks([], []), true, fixed);
  }

  /** As written, "-" never returns: the final loop finds no node for '~'
      and so never pops it. */
  lemma LoneMinusHangs(s: string)
    requires s == "-"
    ensures Run(s, false) == Hangs
  {
    MinusScan(s, false);
    assert Drain(Stacks([], ['~']), ToBottom, false) == None;
    assert Balanced(s) by {
      assert Depth(s[..0]) == 0 && Depth(s[..1]) == 0;
    }
    assert IndexOf(s, '=') == None;
  }

  /** Corrected, the operator without an operand is dropped and "-" reads
      as the empty tree, whose value is 0. */
  lemma LoneMinusCorrected(s: string)
    requires s == "-"
    ensures Run(s, true) == Value(0.0)
  {
    MinusScan(s, true);
    assert Drain(Stacks([], ['~']), ToBottom, true) == Some(Stacks([], []));
    assert Balanced(s) by {
      assert Depth(s[..0]) == 0 && Depth(s[..1]) == 0;
    }
    assert IndexOf(s, '=') == None;
  }

  // ------------------------------------------------------------------
  // Exponents that cancel stay in the key of a product
  // ------------------------------------------------------------------

  const X: Entries := [Term(map["x" := 1], 1.0)]
  const InverseX: Entries := [Term(map["x" := -1], 1.0)]
  const OneTerm: Entries := [Term(map[], 1.0)]

  /** The tree of x*(1/x). */
  const XOverX: Tree := Op('*', false, Var("x"), Op('/', false, Num(1.0), Var("x")))

  /** 1/x is the single term x^-1. */
  lemma Reciprocal(fixed: bool)
    ensures Normalize(Op('/', false, Num(1.0), Var("x")), fixed) == InverseX
  {
    NormalizeBinary('/', Num(1.0), Var("x"), fixed);
    assert Normalize(Num(1.0), fixed) == OneTerm;
    assert Normalize(Var("x"), fixed) == X;
    assert "x" in X[0].key;
    assert "x" in Variables(X);
    assert Shift(map[], map["x" := 1]) == map["x" := -1];
    assert DivFrom([], OneTerm, map["x" := 1], 1.0) == InverseX;
  }

  /** The product x * x^-1: as written its key keeps "x" with exponent 0;
      corrected, the key is empty. */
  lemma ProductWithInverse(fixed: bool)
    ensures Normalize(XOverX, fixed) == [Term(if fixed then map[] else map["x" := 0], 1.0)]
  {
    var k := if fixed then map[] else map["x" := 0];
    NormalizeBinary('*', Var("x"), Op('/', false, Num(1.0), Var("x")), fixed);
    Reciprocal(fixed);
    assert Normalize(Var("x"), fixed) == X;
    assert Combine(map["x" := 1], map["x" := -1], fixed) == k;
    assert MulRow([], X[0], InverseX, fixed) == [Term(k, 1.0)];
    assert MulAll([], X, InverseX, fixed) == [Term(k, 1.0)];
  }

  /** As written, the sides x*(1/x) and 1 of "x*(1/x)=1" do not cancel:
      the left side still names x, so the difference x^0 - 1 is handed to
      the root search instead of being reported as an identity. */
  lemma ZeroExponentAsWritten()
    ensures Compare(XOverX, Num(1.0), false).OneUnknown?
    ensures Compare(XOverX, Num(1.0), false).verdict.SearchRoots?
  {
    var kx := map["x" := 0];
    ProductWithInverse(false);
    var pl := Normalize(XOverX, false);
    var pr := Normalize(Num(1.0), false);
    assert pr == OneTerm;
    assert "x" in pl[0].key;
    assert Variables(pl) == {"x"};
    assert Variables(pr) == {};
    assert kx != map[];
    var d := Minus(pl, pr);
    MinusAt(pl, pr, kx);
    assert Coeff(d, kx) == 1.0;
    assert Term(kx, 1.0) in d by {
      CoeffPresent(d, kx);
    }
    assert "x" in Variables(d);
  }

  /** Corrected, x*(1/x) is the constant 1 and "x*(1/x)=1" is an identity. */
  lemma ZeroExponentCorrected()
    ensures Compare(XOverX, Num(1.0), true) == Text(IdentityText)
  {
    ProductWithInverse(true);
    assert Normalize(Num(1.0), true) == OneTerm;
    assert Variables(OneTerm) == {};
    assert HasVariables(XOverX);
  }

  /** A non-zero coefficient belongs to an entry with that key. */
  lemma {:induction false} CoeffPresent(p: Entries, k: TermKey)
    requires Coeff(p, k) != 0.0
    ensures Term(k, Coeff(p, k)) in p
    decreases |p|
  {
    if p[0].key != k {
      CoeffPresent(p[1..], k);
    }
  }

  // ------------------------------------------------------------------
  // Outer parentheses that do not match each other
  // ------------------------------------------------------------------

  /** A one-digit number ends the pass on the character after it. */
  lemma DigitMove(s: string, i: nat, st: Stacks, u: bool, fixed: bool, n: nat)
    requires n < 10 && i < |s| && s[i] == '0' + n as char
    requires i + 1 == |s| || !Calculator.IsNumberChar(s[i + 1])
    ensures ScanMove(s, i, st, u, fixed) == Go(i + 1, Stacks(st.nodes + [Num(n as real)], st.ops), false)
  {
    assert Calculator.NumberEnd(s, i) == i + 1;
    assert s[i..i + 1] == Calculator.NatText(n);
    Calculator.StodNatText(n);
  }

  const One: Tree := Num(1.0)
  const Two: Tree := Num(2.0)

  /** What `buildTree` makes of "1)+(2": '(' applied to 1 and 2, under a
      '+' with no left operand. */
  const Misread: Tree := Op('+', false, Nil, Op('(', false, One, Two))

  /** An operator pass: the reductions run, then the operator is pushed. */
  lemma OperatorMove(s: string, i: nat, st: Stacks, u: bool, fixed: bool, d: Stacks)
    requires i < |s| && s[i] == '+' && Drain(st, Below('+'), fixed) == Some(d)
    ensures ScanMove(s, i, st, u, fixed) == Go(i + 1, Stacks(d.nodes, d.ops + ['+']), true)
  {
  }

  /** A '(' pass pushes '('. */
  lemma OpenMove(s: string, i: nat, st: Stacks, u: bool, fixed: bool)
    requires i < |s| && s[i] == '('
    ensures ScanMove(s, i, st, u, fixed) == Go(i + 1, Stacks(st.nodes, st.ops + ['(']), true)
  {
  }

  /** A ')' pass: the reductions down to '(' run, then '(' is popped. */
  lemma CloseMove(s: string, i: nat, st: Stacks, u: bool, fixed: bool, d: Stacks)
    requires i < |s| && s[i] == ')' && Drain(st, ToParen, fixed) == Some(d)
    ensures ScanMove(s, i, st, u, fixed) == Go(i + 1, PopParen(d), false)
  {
  }

  /** One more pass of the scan. */
  lemma ScanGo(s: string, i: nat, st: Stacks, u: bool, fixed: bool, j: nat, st2: Stacks, u2: bool)
    requires i < |s| && ScanMove(s, i, st, u, fixed) == Go(j, st2, u2)
    ensures Scan(s, i, st, u, fixed) == Scan(s, j, st2, u2, fixed)
  {
  }

  /** The final reduction of two nodes under one binary operator. */
  lemma FinishOne(a: Tree, b: Tree, o: char, fixed: bool)
    requires o != '~'
    ensures Finish(Stacks([a, b], [o]), fixed) == Built(Op(o, false, a, b))
  {
    var st := Stacks([a, b], [o]);
    var st1 := Stacks([Op(o, false, a, b)], []);
    assert Reduce(st) == st1;
    assert Drain(st1, ToBottom, fixed) == Some(st1);
  }

  /** The final reduction of two nodes under two binary operators: the
      lower one finds no left operand and takes Nil. */
  lemma FinishTwo(a: Tree, b: Tree, o1: char, o2: char, fixed: bool)
    requires o1 != '~' && o2 != '~'
    ensures Finish(Stacks([a, b], [o1, o2]), fixed) == Built(Op(o1, false, Nil, Op(o2, false, a, b)))
  {
    var st := Stacks([a, b], [o1, o2]);
    var st1 := Stacks([Op(o2, false, a, b)], [o1]);
    var st2 := Stacks([Op(o1, false, Nil, Op(o2, false, a, b))], []);
    assert Reduce(st) == st1;
    assert Drain(st, ToBottom, fixed) == Drain(st1, ToBottom, fixed);
    assert Reduce(st1) == st2;
    assert Drain(st1, ToBottom, fixed) == Drain(st2, ToBottom, fixed);
    assert Drain(st2, ToBottom, fixed) == Some(st2);
  }

  /** The scan of "1)+(2" as written. */
  lemma MisreadScan(t: string)
    requires |t| == 5 && t[0] == '1' && t[1] == ')' && t[2] == '+' && t[3] == '(' && t[4] == '2'
    ensures Scan(t, 0, Stacks([], []), true, false) == Built(Misread)
  {
    DigitMove(t, 0, Stacks([], []), true, false, 1);
    ScanGo(t, 0, Stacks([], []), true, false, 1, Stacks([One], []), false);
    var st1 := Stacks([One], []);
    assert Drain(st1, ToParen, false) == Some(st1);
    CloseMove(t, 1, st1, false, false, st1);
    ScanGo(t, 1, st1, false, false, 2, st1, false);
    assert Drain(st1, Below('+'), false) == Some(st1);
    OperatorMove(t, 2, st1, false, false, st1);
    ScanGo(t, 2, st1, false, false, 3, Stacks([One], ['+']), true);
    OpenMove(t, 3, Stacks([One], ['+']), true, false);
    ScanGo(t, 3, Stacks([One], ['+']), true, false, 4, Stacks([One], ['+', '(']), true);
    DigitMove(t, 4, Stacks([One], ['+', '(']), true, false, 2);
    ScanGo(t, 4, Stacks([One], ['+', '(']), true, false, 5, Stacks([One, Two], ['+', '(']), false);
    FinishTwo(One, Two, '+', '(', false);
  }

  /** As written, "(1)+(2)" loses its first and last characters, and
      "1)+(2" is read with '(' taken for an operator; the value is 0. */
  lemma StripAsWritten(s: string)
    requires s == "(1)+(2)"
    ensures BuildTree(s, false) == Built(Misread)
    ensures EvaluateUnassigned(Normalize(Misread, false)) == 0.0
  {
    MisreadValue();
    var t := s[1..|s| - 1];
    assert |s| == 7 && s[0] == '(' && s[6] == ')';
    assert BuildTree(s, false) == BuildTree(t, false);
    assert |t| == 5 && t[0] == s[1] && t[1] == s[2] && t[2] == s[3] && t[3] == s[4] && t[4] == s[5];
    assert BuildTree(t, false) == Scan(t, 0, Stacks([], []), true, false);
    MisreadScan(t);
  }

  /** The scan of "+(2)" at the end of "(1)+(2)", corrected, with the 1
      already read. */
  lemma SumTail(s: string)
    requires |s| == 7 && s[3] == '+' && s[4] == '(' && s[5] == '2' && s[6] == ')'
    ensures Scan(s, 3, Stacks([One], []), false, true) == Built(Op('+', false, One, Two))
  {
    var st3 := Stacks([One], []);
    assert Drain(st3, Below('+'), true) == Some(st3);
    OperatorMove(s, 3, st3, false, true, st3);
    ScanGo(s, 3, st3, false, true, 4, Stacks([One], ['+']), true);
    OpenMove(s, 4, Stacks([One], ['+']), true, true);
    ScanGo(s, 4, Stacks([One], ['+']), true, true, 5, Stacks([One], ['+', '(']), true);
    DigitMove(s, 5, Stacks([One], ['+', '(']), true, true, 2);
    var st6 := Stacks([One, Two], ['+', '(']);
    ScanGo(s, 5, Stacks([One], ['+', '(']), true, true, 6, st6, false);
    assert Drain(st6, ToParen, true) == Some(st6);
    CloseMove(s, 6, st6, false, true, st6);
    var st7 := Stacks([One, Two], ['+']);
    ScanGo(s, 6, st6, false, true, 7, st7, false);
    FinishOne(One, Two, '+', true);
  }

  /** The scan of "(1)+(2)", corrected. */
  lemma SumScan(s: string)
    requires |s| == 7 && s[0] == '(' && s[1] == '1' && s[2] == ')' && s[3] == '+'
    requires s[4] == '(' && s[5] == '2' && s[6] == ')'
    ensures Scan(s, 0, Stacks([], []), true, true) == Built(Op('+', false, One, Two))
  {
    OpenMove(s, 0, Stacks([], []), true, true);
    ScanGo(s, 0, Stacks([], []), true, true, 1, Stacks([], ['(']), true);
    DigitMove(s, 1, Stacks([], ['(']), true, true, 1);
    var st2 := Stacks([One], ['(']);
    ScanGo(s, 1, Stacks([], ['(']), true, true, 2, st2, false);
    assert Drain(st2, ToParen, true) == Some(st2);
    CloseMove(s, 2, st2, false, true, st2);
    ScanGo(s, 2, st2, false, true, 3, Stacks([One], []), false);
    SumTail(s);
  }

  /** A text that opens with "(" and one other character and then closes
      is not enclosed by its first '('. */
  lemma CloseAfterOne(s: string)
    requires |s| > 3 && s[0] == '(' && s[1] != '(' && s[1] != ')' && s[2] == ')'
    ensures !Encloses(s)
  {
    var a := s[..3];
    assert a[..2][..1][..0] == [];
    assert Depth(a[..2][..1]) == 1;
    assert Depth(a[..2]) == 1;
    assert Depth(a) == 0;
  }

  /** Corrected, the outer parentheses of "(1)+(2)" are not a pair, so the
      whole text is read: the sum of 1 and 2, whose value is 3. */
  lemma StripCorrected(s: string)
    requires s == "(1)+(2)"
    ensures BuildTree(s, true) == Built(Op('+', false, One, Two))
    ensures EvaluateUnassigned(Normalize(Op('+', false, One, Two), true)) == 3.0
  {
    SumValue();
    assert |s| == 7 && s[0] == '(' && s[1] == '1' && s[2] == ')' && s[3] == '+';
    assert s[4] == '(' && s[5] == '2' && s[6] == ')';
    CloseAfterOne(s);
    assert BuildTree(s, true) == Scan(s, 0, Stacks([], []), true, true);
    SumScan(s);
  }

  /** A character the operator table does not know gives the empty map. */
  lemma ApplyUnknown(op: char, lp: Entries, rp: Entries, fixed: bool)
    requires Keyed(lp) && op != '+' && op != '-' && op != '*' && op != '/' && op != '^'
    ensures Apply(op, lp, rp, fixed) == []
  {
  }

  /** The tree as written has value 0: a '(' node has no meaning for
      `normalize`. */
  lemma MisreadValue()
    ensures EvaluateUnassigned(Normalize(Misread, false)) == 0.0
  {
    NormalizeBinary('+', Nil, Op('(', false, One, Two), false);
    NormalizeBinary('(', One, Two, false);
    ApplyUnknown('(', Normalize(One, false), Normalize(Two, false), false);
    assert Normalize(Nil, false) == [];
    assert Accumulate([], [], false) == [];
    assert Plus([], []) == [];
  }

  /** The sum 1 + 2 has value 3. */
  lemma SumValue()
    ensures EvaluateUnassigned(Normalize(Op('+', false, One, Two), true)) == 3.0
  {
    NormalizeBinary('+', One, Two, true);
    var p1 := [Term(map[], 1.0)];
    var p2 := [Term(map[], 2.0)];
    assert Normalize(One, true) == p1 && Normalize(Two, true) == p2;
    assert Accumulate(p1, p2, false) == [Term(map[], 3.0)];
    assert Plus(p1, p2) == [Term(map[], 3.0)];
  }
}
