/** The polynomial equation solver (FNN/FNN/polySolver.cpp): dense
    polynomials in one unknown x, a lexer and a recursive-descent parser for
    sums of products of numbers, x and brackets, the insertion of implicit
    '*', the split at '=', and the dispatch of `trySolvePolynomial` on the
    degree of lhs - rhs.  The complex quadratic and cubic formulas are not
    modelled: their coefficients are returned instead of their roots. */
module PolySolver {
  import opened Tensor
  import opened Calculator

  // ---------------------------------------------------------------------
  // Dense polynomials
  // ---------------------------------------------------------------------

  /** `Poly::c`: c[k] is the coefficient of x^k; never empty. */
  type Poly = c: seq<real> | |c| >= 1 witness [0.0]

  /** The threshold `1e-12` below which a coefficient counts as zero. */
  const Eps: real := 0.000000000001

  function AbsR(v: real): real {
    if v < 0.0 then -v else v
  }

  predicate Significant(v: real) {
    AbsR(v) >= Eps
  }

  /** The coefficient of x^k, 0 beyond the stored ones. */
  function Coef(c: seq<real>, k: int): real {
    if 0 <= k < |c| then c[k] else 0.0
  }

  /** The `deg` loop started at d. */
  function DegFrom(c: seq<real>, d: nat): (r: nat)
    requires d < |c|
    ensures r <= d && (r == 0 || Significant(c[r]))
    ensures forall k :: r < k <= d ==> !Significant(c[k])
  {
    if d > 0 && !Significant(c[d]) then DegFrom(c, d - 1) else d
  }

  /** `Poly::deg`: the highest index whose coefficient is significant, 0 when
      there is none. */
  function Degree(c: Poly): (d: nat)
    ensures d < |c| && (d == 0 || Significant(c[d]))
    ensures forall k :: d < k < |c| ==> !Significant(c[k])
  {
    DegFrom(c, |c| - 1)
  }

  /** `Poly::trim`: resize to `deg() + 1`. */
  function Trim(c: Poly): Poly {
    c[..Degree(c) + 1]
  }

  predicate Trimmed(c: Poly) {
    |c| == Degree(c) + 1
  }

  /** Trimming keeps the coefficients up to the degree and drops only
      insignificant ones; the result is trimmed and has the same degree. */
  lemma TrimProperties(c: Poly)
    ensures |Trim(c)| <= |c| && forall k :: 0 <= k < |Trim(c)| ==> Trim(c)[k] == c[k]
    ensures forall k :: |Trim(c)| <= k < |c| ==> !Significant(c[k])
    ensures Degree(Trim(c)) == Degree(c) && Trimmed(Trim(c)) && Trim(Trim(c)) == Trim(c)
  {
    var t := Trim(c);
    var d := Degree(c);
    if d > 0 {
      assert Significant(t[d]);
      assert DegFrom(t, d) == d;
    } else {
      assert DegFrom(t, 0) == 0;
    }
  }

  /** The loop of `Poly::deg`. */
  method Deg(c: Poly) returns (d: nat)
    ensures d == Degree(c)
  {
    d := |c| - 1;
    while d > 0 && AbsR(c[d]) < Eps
      invariant d < |c| && DegFrom(c, d) == Degree(c)
      decreases d
    {
      d := d - 1;
    }
  }

  /** The coefficient-wise sum before trimming. */
  function SumCoeffs(a: Poly, b: Poly): (r: Poly)
    ensures |r| == Max0(|a|, |b|)
  {
    seq(Max0(|a|, |b|), k => Coef(a, k) + Coef(b, k))
  }

  function Max0(m: int, n: int): int {
    if m >= n then m else n
  }

  /** The coefficient-wise difference before trimming. */
  function DiffCoeffs(a: Poly, b: Poly): (r: Poly)
    ensures |r| == Max0(|a|, |b|)
  {
    seq(Max0(|a|, |b|), k => Coef(a, k) - Coef(b, k))
  }

  /** `add`. */
  function Add(a: Poly, b: Poly): Poly {
    Trim(SumCoeffs(a, b))
  }

  /** `subp`. */
  function Sub(a: Poly, b: Poly): Poly {
    Trim(DiffCoeffs(a, b))
  }

  /** The coefficient-wise negation before trimming. */
  function Negated(a: Poly): (r: Poly)
    ensures |r| == |a|
  {
    seq(|a|, k => -Coef(a, k))
  }

  /** `neg`. */
  function Neg(a: Poly): Poly {
    Trim(Negated(a))
  }

  /** `add` keeps x^k's coefficient a_k + b_k wherever that sum is
      significant: up to the result's length it holds the sums, past it
      every sum is insignificant; the result is trimmed. */
  lemma AddCoefficients(a: Poly, b: Poly)
    ensures forall k :: 0 <= k < |Add(a, b)| ==> Add(a, b)[k] == Coef(a, k) + Coef(b, k)
    ensures forall k :: |Add(a, b)| <= k ==> !Significant(Coef(a, k) + Coef(b, k))
    ensures Trimmed(Add(a, b))
  {
    var full := SumCoeffs(a, b);
    TrimProperties(full);
    forall k | |Add(a, b)| <= k
      ensures !Significant(Coef(a, k) + Coef(b, k))
    {
      if k < |full| {
        assert full[k] == Coef(a, k) + Coef(b, k);
      }
    }
  }

  /** `subp` keeps a_k - b_k in the same way. */
  lemma SubCoefficients(a: Poly, b: Poly)
    ensures forall k :: 0 <= k < |Sub(a, b)| ==> Sub(a, b)[k] == Coef(a, k) - Coef(b, k)
    ensures forall k :: |Sub(a, b)| <= k ==> !Significant(Coef(a, k) - Coef(b, k))
    ensures Trimmed(Sub(a, b))
  {
    var full := DiffCoeffs(a, b);
    TrimProperties(full);
    forall k | |Sub(a, b)| <= k
      ensures !Significant(Coef(a, k) - Coef(b, k))
    {
      if k < |full| {
        assert full[k] == Coef(a, k) - Coef(b, k);
      }
    }
  }

  /** `neg` keeps -a_k in the same way. */
  lemma NegCoefficients(a: Poly)
    ensures forall k :: 0 <= k < |Neg(a)| ==> Neg(a)[k] == -Coef(a, k)
    ensures forall k :: |Neg(a)| <= k ==> !Significant(-Coef(a, k))
    ensures Trimmed(Neg(a))
  {
    var full := Negated(a);
    TrimProperties(full);
    forall k | |Neg(a)| <= k
      ensures !Significant(-Coef(a, k))
    {
      if k < |full| {
        assert full[k] == -Coef(a, k);
      }
    }
  }

  /** Addition does not depend on the order of the operands. */
  lemma AddCommutes(a: Poly, b: Poly)
    ensures Add(a, b) == Add(b, a)
  {
    assert SumCoeffs(a, b) == SumCoeffs(b, a);
  }

  /** A polynomial less itself is the zero polynomial, so `lhs = lhs` is an
      identity. */
  lemma SubSelf(a: Poly)
    ensures Sub(a, a) == [0.0]
  {
    var d := DiffCoeffs(a, a);
    assert forall k :: 0 <= k < |d| ==> d[k] == 0.0;
    assert Degree(d) == 0;
  }

  /** Negating twice gives back a trimmed polynomial. */
  lemma NegNeg(a: Poly)
    requires Trimmed(a)
    ensures Neg(Neg(a)) == a
  {
    var m := Negated(a);
    assert Degree(m) == Degree(a) by {
      DegreeOfNegated(a, m, |a| - 1);
    }
    assert Neg(a) == m;
    var mm := Negated(m);
    assert mm == a;
    TrimProperties(a);
  }

  lemma {:induction false} DegreeOfNegated(a: Poly, m: Poly, d: nat)
    requires |m| == |a| && d < |a| && forall k :: 0 <= k < |a| ==> m[k] == -a[k]
    ensures DegFrom(m, d) == DegFrom(a, d)
  {
    if d > 0 {
      DegreeOfNegated(a, m, d - 1);
    }
  }

  /** The loops of `add`. */
  method AddLoop(a: Poly, b: Poly) returns (r: Poly)
    ensures r == Add(a, b)
  {
    var n := Max0(|a|, |b|);
    var acc := new real[n](k => 0.0);
    for i := 0 to |a|
      invariant forall k :: 0 <= k < n ==> acc[k] == (if k < i then Coef(a, k) else 0.0)
    {
      acc[i] := acc[i] + a[i];
    }
    for i := 0 to |b|
      invariant forall k :: 0 <= k < n ==> acc[k] == Coef(a, k) + (if k < i then Coef(b, k) else 0.0)
    {
      acc[i] := acc[i] + b[i];
    }
    assert acc[..] == SumCoeffs(a, b);
    var d := Deg(acc[..]);
    r := acc[..d + 1];
  }

  /** The loops of `subp`. */
  method SubLoop(a: Poly, b: Poly) returns (r: Poly)
    ensures r == Sub(a, b)
  {
    var n := Max0(|a|, |b|);
    var acc := new real[n](k => 0.0);
    for i := 0 to |a|
      invariant forall k :: 0 <= k < n ==> acc[k] == (if k < i then Coef(a, k) else 0.0)
    {
      acc[i] := acc[i] + a[i];
    }
    for i := 0 to |b|
      invariant forall k :: 0 <= k < n ==> acc[k] == Coef(a, k) - (if k < i then Coef(b, k) else 0.0)
    {
      acc[i] := acc[i] - b[i];
    }
    assert acc[..] == DiffCoeffs(a, b);
    var d := Deg(acc[..]);
    r := acc[..d + 1];
  }

  /** The loop of `neg`. */
  method NegLoop(a: Poly) returns (r: Poly)
    ensures r == Neg(a)
  {
    var acc := new real[|a|](k requires 0 <= k < |a| => a[k]);
    for i := 0 to |a|
      invariant forall k :: 0 <= k < |a| ==> acc[k] == (if k < i then -a[k] else a[k])
    {
      acc[i] := -acc[i];
    }
    assert acc[..] == Negated(a);
    var d := Deg(acc[..]);
    r := acc[..d + 1];
  }

  /** The sum a_0 b_(k) + ... + a_(n-1) b_(k-n+1): the first n rows of the
      product's coefficient k. */
  function Conv(a: Poly, b: Poly, n: nat, k: int): real
    requires n <= |a|
  {
    if n == 0 then 0.0 else Conv(a, b, n - 1, k) + a[n - 1] * Coef(b, k - (n - 1))
  }

  /** The product's coefficients before trimming: coefficient k is the sum
      of a_i b_j over i + j = k. */
  function MulCoeffs(a: Poly, b: Poly): (r: Poly)
    ensures |r| == |a| + |b| - 1
  {
    seq(|a| + |b| - 1, k => Conv(a, b, |a|, k))
  }

  /** `mul`. */
  function Mul(a: Poly, b: Poly): Poly {
    Trim(MulCoeffs(a, b))
  }

  /** The degree of a product of trimmed polynomials is at most the sum of
      their degrees, and its coefficients are the sums of a_i b_j over
      i + j = k up to trimming. */
  lemma MulDegree(a: Poly, b: Poly)
    requires Trimmed(a) && Trimmed(b)
    ensures Degree(Mul(a, b)) <= Degree(a) + Degree(b)
    ensures forall k :: 0 <= k < |Mul(a, b)| ==> Mul(a, b)[k] == Conv(a, b, |a|, k)
    ensures forall k :: |Mul(a, b)| <= k < |a| + |b| - 1 ==> !Significant(Conv(a, b, |a|, k))
  {
    var full := MulCoeffs(a, b);
    TrimProperties(full);
    forall k | |Mul(a, b)| <= k < |full|
      ensures !Significant(Conv(a, b, |a|, k))
    {
      assert full[k] == Conv(a, b, |a|, k);
    }
  }

  /** The nested loops of `mul`: `r[i + j] += a[i] * b[j]`. */
  method MulLoop(a: Poly, b: Poly) returns (r: Poly)
    ensures r == Mul(a, b)
  {
    var n := |a| + |b| - 1;
    var acc := new real[n](k => 0.0);
    for i := 0 to |a|
      invariant forall k :: 0 <= k < n ==> acc[k] == Conv(a, b, i, k)
    {
      for j := 0 to |b|
        invariant forall k :: 0 <= k < n ==> acc[k] == Conv(a, b, i, k) + (if i <= k < i + j then a[i] * b[k - i] else 0.0)
      {
        acc[i + j] := acc[i + j] + a[i] * b[j];
      }
      forall k | 0 <= k < n
        ensures acc[k] == Conv(a, b, i + 1, k)
      {
        if !(i <= k < i + |b|) {
          assert Coef(b, k - i) == 0.0;
        }
      }
    }
    assert acc[..] == MulCoeffs(a, b);
    var d := Deg(acc[..]);
    r := acc[..d + 1];
  }

  // ---------------------------------------------------------------------
  // Lexer
  // ---------------------------------------------------------------------

  datatype Tok = End | Num(v: real) | X | Plus | Minus | Times | LParen | RParen

  /** The text of the exception `std::stod` throws on a run without a digit. */
  const StodError: string := "stod"

  /** The index of the first non-space character from i on. */
  function SkipSpaces(s: string, i: nat): (j: nat)
    requires i <= |s|
    ensures i <= j <= |s| && (j < |s| ==> !IsSpace(s[j]))
    ensures forall k :: i <= k < j ==> IsSpace(s[k])
    decreases |s| - i
  {
    if i < |s| && IsSpace(s[i]) then SkipSpaces(s, i + 1) else i
  }

  /** The tokens of one character. */
  function Punctuation(c: char): (t: Option<Tok>)
    ensures t.Some? ==> !IsNumberChar(c) && !t.value.End? && !t.value.Num?
  {
    if c == '+' then Some(Plus)
    else if c == '-' then Some(Minus)
    else if c == '*' then Some(Times)
    else if c == '(' then Some(LParen)
    else if c == ')' then Some(RParen)
    else if c == 'x' || c == 'X' then Some(X)
    else None
  }

  /** The token starting at the non-space character s[j]: a number runs to
      the end of its digits and dots, and a character the lexer does not
      know reads as `End`. */
  function TokenAt(s: string, j: nat): (r: Outcome<(Tok, nat)>)
    requires j < |s|
    ensures r.Err? ==> r.msg == StodError
  {
    match Punctuation(s[j])
    case Some(t) => Ok((t, j + 1))
    case None =>
      if IsNumberChar(s[j]) then
        var e := NumberEnd(s, j);
        match Stod(s[j..e])
        case None => Err(StodError)
        case Some(v) => Ok((Num(v), e))
      else Ok((End, j + 1))
  }

  /** `Lexer::next` from index i: the token and the index after it. */
  function NextToken(s: string, i: nat): (r: Outcome<(Tok, nat)>)
    requires i <= |s|
    ensures r.Err? ==> r.msg == StodError
  {
    var j := SkipSpaces(s, i);
    if j >= |s| then Ok((End, j)) else TokenAt(s, j)
  }

  /** The lexer never moves backwards and stops in place only at the end of
      the text. */
  lemma NextTokenProgress(s: string, i: nat)
    requires i <= |s|
    ensures NextToken(s, i).Ok? ==> var (t, j) := NextToken(s, i).value;
      i <= j <= |s| && (j == i ==> t == End && i == |s|)
  {
    var k := SkipSpaces(s, i);
    if k < |s| && IsNumberChar(s[k]) {
      var e := NumberEnd(s, k);
      assert k < e;
    }
  }

  /** A number token spans a maximal run of digits and dots. */
  lemma NextTokenNumber(s: string, i: nat)
    requires i <= |s|
    requires NextToken(s, i).Ok? && NextToken(s, i).value.0.Num?
    ensures var k := SkipSpaces(s, i); var j := NextToken(s, i).value.1;
      k < j && (forall m :: k <= m < j ==> IsNumberChar(s[m])) && (j < |s| ==> !IsNumberChar(s[j]))
  {
  }

  /** The only error is `stod` failing on a run of dots without a digit. */
  lemma NextTokenFails(s: string, i: nat)
    requires i <= |s|
    ensures var k := SkipSpaces(s, i);
      NextToken(s, i).Err? <==> (k < |s| && IsNumberChar(s[k]) && Stod(s[k..NumberEnd(s, k)]).None?)
  {
  }

  /** `Lexer`: the text and the index of the next unread character. */
  class Lexer {
    const s: string
    var i: nat

    constructor(text: string)
      ensures s == text && i == 0
    {
      s := text;
      i := 0;
    }

    /** `Lexer::next`: spaces are skipped before anything else, so when
        `stod` throws the index rests on the number. */
    method Next() returns (t: Outcome<Tok>)
      requires i <= |s|
      modifies this
      ensures i <= |s|
      ensures NextToken(s, old(i)).Ok? ==> t == Ok(NextToken(s, old(i)).value.0) && i == NextToken(s, old(i)).value.1
      ensures NextToken(s, old(i)).Err? ==> t == Err(NextToken(s, old(i)).msg) && i == SkipSpaces(s, old(i))
    {
      while i < |s| && IsSpace(s[i])
        invariant i <= |s| && SkipSpaces(s, i) == SkipSpaces(s, old(i))
        decreases |s| - i
      {
        i := i + 1;
      }
      if i >= |s| {
        return Ok(End);
      }
      var c := s[i];
      if c == '+' {
        i := i + 1;
        return Ok(Plus);
      }
      if c == '-' {
        i := i + 1;
        return Ok(Minus);
      }
      if c == '*' {
        i := i + 1;
        return Ok(Times);
      }
      if c == '(' {
        i := i + 1;
        return Ok(LParen);
      }
      if c == ')' {
        i := i + 1;
        return Ok(RParen);
      }
      if c == 'x' || c == 'X' {
        i := i + 1;
        return Ok(X);
      }
      if IsNumberChar(c) {
        var j := i;
        while j < |s| && IsNumberChar(s[j])
          invariant i <= j <= |s| && NumberEnd(s, j) == NumberEnd(s, i)
          decreases |s| - j
        {
          j := j + 1;
        }
        var val := Stod(s[i..j]);
        if val.None? {
          return Err(StodError);
        }
        i := j;
        return Ok(Num(val.value));
      }
      i := i + 1;
      return Ok(End);
    }
  }

  // ---------------------------------------------------------------------
  // Parser
  // ---------------------------------------------------------------------

  /** The parser's state: the lexer's index and the current token `cur`. */
  datatype Cursor = Cursor(pos: nat, cur: Tok)

  const MissingParen: string := "missing ')'"
  const BadSyntax: string := "bad polynomial syntax"

  /** The messages the lexer and the parser throw. */
  predicate ParseError(m: string) {
    m == StodError || m == MissingParen || m == BadSyntax
  }

  /** What is left to read: the characters after the lexer's index, and one
      more while the current token is not `End`. */
  function Weight(s: string, st: Cursor): nat
    requires st.pos <= |s|
  {
    |s| - st.pos + (if st.cur.End? then 0 else 1)
  }

  /** `cur = lex.next()`. */
  function Advance(s: string, st: Cursor): (r: Outcome<Cursor>)
    requires st.pos <= |s|
    ensures r.Ok? ==> r.value.pos <= |s| && Weight(s, r.value) <= Weight(s, st) + 1
    ensures r.Err? ==> ParseError(r.msg)
    ensures r.Ok? && !st.cur.End? ==> Weight(s, r.value) < Weight(s, st)
  {
    NextTokenProgress(s, st.pos);
    match NextToken(s, st.pos)
    case Err(m) => Err(m)
    case Ok((t, j)) => Ok(Cursor(j, t))
  }

  /** `Parser::parseExpr`: term (('+' | '-') term)*. */
  function ParseExpr(s: string, st: Cursor): (r: Outcome<(Poly, Cursor)>)
    requires st.pos <= |s|
    ensures r.Ok? ==> r.value.1.pos <= |s| && Weight(s, r.value.1) <= Weight(s, st)
    ensures r.Err? ==> ParseError(r.msg)
    decreases Weight(s, st), 3
  {
    match ParseTerm(s, st)
    case Err(m) => Err(m)
    case Ok((left, st1)) => ExprRest(s, left, st1)
  }

  /** The `while` loop of `parseExpr` with the sum so far. */
  function ExprRest(s: string, left: Poly, st: Cursor): (r: Outcome<(Poly, Cursor)>)
    requires st.pos <= |s|
    ensures r.Ok? ==> r.value.1.pos <= |s| && Weight(s, r.value.1) <= Weight(s, st)
    ensures r.Err? ==> ParseError(r.msg)
    decreases Weight(s, st), 2
  {
    if st.cur == Plus || st.cur == Minus then
      match Advance(s, st)
      case Err(m) => Err(m)
      case Ok(st1) =>
        match ParseTerm(s, st1)
        case Err(m) => Err(m)
        case Ok((right, st2)) =>
          ExprRest(s, if st.cur == Plus then Add(left, right) else Sub(left, right), st2)
    else Ok((left, st))
  }

  /** `Parser::parseTerm`: factor ('*' factor)*. */
  function ParseTerm(s: string, st: Cursor): (r: Outcome<(Poly, Cursor)>)
    requires st.pos <= |s|
    ensures r.Ok? ==> r.value.1.pos <= |s| && Weight(s, r.value.1) <= Weight(s, st)
    ensures r.Err? ==> ParseError(r.msg)
    decreases Weight(s, st), 2
  {
    match ParseFactor(s, st)
    case Err(m) => Err(m)
    case Ok((left, st1)) => TermRest(s, left, st1)
  }

  /** The `while` loop of `parseTerm` with the product so far. */
  function TermRest(s: string, left: Poly, st: Cursor): (r: Outcome<(Poly, Cursor)>)
    requires st.pos <= |s|
    ensures r.Ok? ==> r.value.1.pos <= |s| && Weight(s, r.value.1) <= Weight(s, st)
    ensures r.Err? ==> ParseError(r.msg)
    decreases Weight(s, st), 1
  {
    if st.cur == Times then
      match Advance(s, st)
      case Err(m) => Err(m)
      case Ok(st1) =>
        match ParseFactor(s, st1)
        case Err(m) => Err(m)
        case Ok((right, st2)) => TermRest(s, Mul(left, right), st2)
    else Ok((left, st))
  }

  /** The polynomial of a number token. */
  function Constant(v: real): (p: Poly)
    ensures Degree(p) == 0 && p[0] == v
  {
    [v]
  }

  /** The polynomial of `x`. */
  const Identity: Poly := [0.0, 1.0]

  /** `Parser::parseFactor`: a signed factor, a number, x, or a bracketed
      expression; anything else is "bad polynomial syntax". */
  function ParseFactor(s: string, st: Cursor): (r: Outcome<(Poly, Cursor)>)
    requires st.pos <= |s|
    ensures r.Ok? ==> r.value.1.pos <= |s| && Weight(s, r.value.1) < Weight(s, st)
    ensures r.Err? ==> ParseError(r.msg)
    decreases Weight(s, st), 0
  {
    match st.cur
    case Plus =>
      (match Advance(s, st)
       case Err(m) => Err(m)
       case Ok(st1) => ParseFactor(s, st1))
    case Minus =>
      (match Advance(s, st)
       case Err(m) => Err(m)
       case Ok(st1) =>
         match ParseFactor(s, st1)
         case Err(m) => Err(m)
         case Ok((p, st2)) => Ok((Neg(p), st2)))
    case Num(v) =>
      (match Advance(s, st)
       case Err(m) => Err(m)
       case Ok(st1) => Ok((Constant(v), st1)))
    case X =>
      (match Advance(s, st)
       case Err(m) => Err(m)
       case Ok(st1) => Ok((Identity, st1)))
    case LParen =>
      (match Advance(s, st)
       case Err(m) => Err(m)
       case Ok(st1) =>
         match ParseExpr(s, st1)
         case Err(m) => Err(m)
         case Ok((inside, st2)) =>
           if st2.cur != RParen then Err(MissingParen)
           else
             match Advance(s, st2)
             case Err(m) => Err(m)
             case Ok(st3) => Ok((inside, st3)))
    case _ => Err(BadSyntax)
  }

  /** `Parser pL(text); pL.parseExpr()`: the constructor reads the first
      token; whatever follows the expression is not looked at. */
  function Parse(text: string): (r: Outcome<Poly>)
    ensures r.Err? ==> ParseError(r.msg)
  {
    match Advance(text, Cursor(0, End))
    case Err(m) => Err(m)
    case Ok(st) =>
      match ParseExpr(text, st)
      case Err(m) => Err(m)
      case Ok((p, _)) => Ok(p)
  }

  // ---------------------------------------------------------------------
  // Normalisation of the equation text
  // ---------------------------------------------------------------------

  /** `stripSpaces`: the text without its white space. */
  function StripSpaces(s: string): (r: string)
    ensures |r| <= |s| && forall k :: 0 <= k < |r| ==> !IsSpace(r[k])
  {
    if |s| == 0 then []
    else if IsSpace(s[0]) then StripSpaces(s[1..])
    else [s[0]] + StripSpaces(s[1..])
  }

  /** Removing white space keeps every other character in order: it splits
      over concatenation and leaves a text without spaces as it is. */
  lemma {:induction false} StripSpacesAppend(a: string, b: string)
    ensures StripSpaces(a + b) == StripSpaces(a) + StripSpaces(b)
    decreases |a|
  {
    if |a| == 0 {
      assert a + b == b;
    } else {
      assert (a + b)[1..] == a[1..] + b;
      StripSpacesAppend(a[1..], b);
    }
  }

  lemma {:induction false} StripSpacesIdempotent(s: string)
    ensures StripSpaces(StripSpaces(s)) == StripSpaces(s)
    ensures (forall k :: 0 <= k < |s| ==> !IsSpace(s[k])) ==> StripSpaces(s) == s
    decreases |s|
  {
    if |s| > 0 {
      StripSpacesIdempotent(s[1..]);
      if !IsSpace(s[0]) {
        assert ([s[0]] + StripSpaces(s[1..]))[1..] == StripSpaces(s[1..]);
      }
    }
  }

  /** Any character other than white space occurs after stripping iff it
      occurred before. */
  lemma {:induction false} StripSpacesKeeps(s: string, c: char)
    requires !IsSpace(c)
    ensures c in StripSpaces(s) <==> c in s
    decreases |s|
  {
    if |s| > 0 {
      StripSpacesKeeps(s[1..], c);
      assert s == [s[0]] + s[1..];
    }
  }

  /** The loop of `stripSpaces`. */
  method StripSpacesLoop(s: string) returns (out: string)
    ensures out == StripSpaces(s)
  {
    out := [];
    var i := 0;
    while i < |s|
      invariant 0 <= i <= |s|
      invariant out + StripSpaces(s[i..]) == StripSpaces(s)
    {
      assert s[i..][1..] == s[i + 1..];
      if !IsSpace(s[i]) {
        out := out + [s[i]];
      }
      i := i + 1;
    }
    assert s[i..] == [];
  }

  predicate IsOp(c: char) {
    c == '+' || c == '-' || c == '*' || c == '='
  }

  predicate AtomLeft(c: char) {
    IsDigit(c) || c == 'x' || c == 'X' || c == ')'
  }

  predicate AtomRight(c: char) {
    IsDigit(c) || c == 'x' || c == 'X' || c == '('
  }

  /** Whether `insertImplicitMul` puts a '*' between the neighbours c and n.
      As written, two digits count as neighbouring atoms; the corrected
      rule leaves the digits of one number together. */
  predicate NeedsStar(c: char, n: char, corrected: bool) {
    !IsOp(c) && !IsOp(n) && AtomLeft(c) && AtomRight(n)
    && !(IsDigit(c) && n == '.') && !(c == '.' && IsDigit(n))
    && !(corrected && IsDigit(c) && IsDigit(n))
  }

  /** `insertImplicitMul`: every character, followed by '*' where it and the
      next character need one. */
  function InsertMul(s: string, corrected: bool): string
    decreases |s|
  {
    if |s| <= 1 then s
    else [s[0]] + (if NeedsStar(s[0], s[1], corrected) then "*" else "") + InsertMul(s[1..], corrected)
  }

  /** The text without its '*'. */
  function Unstar(s: string): (r: string)
    ensures |r| <= |s| && '*' !in r
  {
    if |s| == 0 then []
    else if s[0] == '*' then Unstar(s[1..])
    else [s[0]] + Unstar(s[1..])
  }

  /** Only '*' is ever inserted: dropping every '*' gives the same text
      before and after. */
  lemma {:induction false} InsertMulOnlyStars(s: string, corrected: bool)
    ensures Unstar(InsertMul(s, corrected)) == Unstar(s)
    decreases |s|
  {
    if |s| > 1 {
      InsertMulOnlyStars(s[1..], corrected);
      var rest := InsertMul(s[1..], corrected);
      var star: string := if NeedsStar(s[0], s[1], corrected) then "*" else "";
      UnstarAppend([s[0]] + star, rest);
      UnstarAppend([s[0]], s[1..]);
      assert s == [s[0]] + s[1..];
      if star == "*" {
        UnstarAppend([s[0]], star);
      } else {
        assert [s[0]] + star == [s[0]];
      }
    }
  }

  lemma {:induction false} UnstarAppend(a: string, b: string)
    ensures Unstar(a + b) == Unstar(a) + Unstar(b)
    decreases |a|
  {
    if |a| == 0 {
      assert a + b == b;
    } else {
      assert (a + b)[1..] == a[1..] + b;
      UnstarAppend(a[1..], b);
    }
  }

  /** Every character other than '*' occurs after the insertion iff it
      occurred before. */
  lemma {:induction false} InsertMulKeeps(s: string, corrected: bool, c: char)
    requires c != '*'
    ensures c in InsertMul(s, corrected) <==> c in s
    decreases |s|
  {
    if |s| > 1 {
      InsertMulKeeps(s[1..], corrected, c);
      assert s == [s[0]] + s[1..];
    }
  }

  /** With the corrected rule a number written in the text stays one token:
      no '*' goes between its digits and dots. */
  lemma {:induction false} InsertMulKeepsNumbers(s: string)
    requires forall k :: 0 <= k < |s| ==> IsNumberChar(s[k])
    ensures InsertMul(s, true) == s
    decreases |s|
  {
    if |s| > 1 {
      InsertMulKeepsNumbers(s[1..]);
      assert !NeedsStar(s[0], s[1], true);
      assert [s[0]] + s[1..] == s;
    }
  }

  /** The products the source's own comment promises: 6x, x2, )(, )x, 2(
      and x( each get a '*'. */
  lemma InsertMulExamples(corrected: bool)
    ensures InsertMul("6x", corrected) == "6*x"
    ensures InsertMul("x2", corrected) == "x*2"
    ensures InsertMul(")(", corrected) == ")*("
    ensures InsertMul(")x", corrected) == ")*x"
    ensures InsertMul("2(", corrected) == "2*("
    ensures InsertMul("x(", corrected) == "x*("
  {
  }

  /** As written, the rule splits a number: "12" becomes "1*2". */
  lemma InsertMulSplitsNumbers()
    ensures InsertMul("12", false) == "1*2"
    ensures InsertMul("12", true) == "12"
  {
  }

  /** One step of `insertImplicitMul` on a non-empty text. */
  lemma InsertMulStep(t: string, corrected: bool)
    requires |t| >= 1
    ensures InsertMul(t, corrected) == [t[0]]
      + (if |t| > 1 && NeedsStar(t[0], t[1], corrected) then "*" else "") + InsertMul(t[1..], corrected)
  {
    if |t| == 1 {
      assert t[1..] == [];
    }
  }

  /** What the loop of `insertImplicitMul` puts after the character at `i`. */
  function StarAt(s: string, i: nat, corrected: bool): string
    requires i < |s|
  {
    if i + 1 < |s| && NeedsStar(s[i], s[i + 1], corrected) then "*" else ""
  }

  /** The step of that loop at index `i`: the character, a '*' when the
      rule asks for one, then the rest. */
  lemma InsertMulAt(s: string, i: nat, corrected: bool, out: string)
    requires i < |s|
    ensures out + InsertMul(s[i..], corrected) == (out + [s[i]] + StarAt(s, i, corrected)) + InsertMul(s[i + 1..], corrected)
  {
    InsertMulStep(s[i..], corrected);
    assert s[i..][1..] == s[i + 1..];
  }

  /** The loop of `insertImplicitMul`. */
  method InsertImplicitMul(s: string, corrected: bool) returns (out: string)
    ensures out == InsertMul(s, corrected)
  {
    out := [];
    var i := 0;
    assert s[0..] == s;
    while i < |s|
      invariant 0 <= i <= |s|
      invariant out + InsertMul(s[i..], corrected) == InsertMul(s, corrected)
    {
      InsertMulAt(s, i, corrected, out);
      out := out + [s[i]] + StarAt(s, i, corrected);
      i := i + 1;
    }
    assert s[i..] == [] && InsertMul([], corrected) == [];
    assert out + [] == out;
  }

  /** The index of the first '=', if any. */
  function FindEquals(s: string): (r: Option<nat>)
    ensures r.Some? ==> r.value < |s| && s[r.value] == '=' && '=' !in s[..r.value]
    ensures r.None? <==> '=' !in s
  {
    if |s| == 0 then None
    else if s[0] == '=' then Some(0)
    else
      match FindEquals(s[1..])
      case None => None
      case Some(k) =>
        assert s[..k + 1] == [s[0]] + s[1..][..k];
        Some(k + 1)
  }

  /** `splitEquation`: the sides of the first '='; without '=' the right
      side is "0", and an empty side of an '=' becomes "0". */
  function SplitEquation(s: string): (string, string) {
    match FindEquals(s)
    case None => (s, "0")
    case Some(p) =>
      var l := s[..p];
      var r := s[p + 1..];
      (if l == [] then "0" else l, if r == [] then "0" else r)
  }

  /** s is l, '=', r with no '=' in l, and splitting it yields l and r
      (an empty side standing for "0"). */
  predicate Joined(s: string, l: string, r: string) {
    s == l + "=" + r && '=' !in l && SplitEquation(s) == (if l == [] then "0" else l, if r == [] then "0" else r)
  }

  /** The sides put back together around the first '=' give the text again
      (an empty side standing for "0"), and the left side has no '='. */
  lemma SplitEquationJoins(s: string)
    ensures '=' !in s ==> SplitEquation(s) == (s, "0")
    ensures '=' in s ==> exists l, r :: Joined(s, l, r)
  {
    if '=' in s {
      var p := FindEquals(s).value;
      assert s == s[..p] + "=" + s[p + 1..];
      assert Joined(s, s[..p], s[p + 1..]);
    }
  }

  /** Conversely, the text is split at the '=' that follows a left side
      without one. */
  lemma SplitEquationAt(l: string, r: string)
    requires '=' !in l
    ensures SplitEquation(l + "=" + r) == (if l == [] then "0" else l, if r == [] then "0" else r)
  {
    var s := l + "=" + r;
    var p := FindEquals(s).value;
    assert s[|l|] == '=';
    assert s[..|l|] == l && s[|l| + 1..] == r;
  }

  /** A character other than '=' and '0' occurs in one of the sides iff it
      occurs in the text. */
  lemma SplitEquationKeeps(s: string, c: char)
    requires c != '=' && c != '0'
    ensures c in SplitEquation(s).0 || c in SplitEquation(s).1 <==> c in s
  {
    if '=' in s {
      var p := FindEquals(s).value;
      assert s == s[..p] + "=" + s[p + 1..];
    }
  }

  // ---------------------------------------------------------------------
  // Solving
  // ---------------------------------------------------------------------

  /** What the solvers hand back.  The complex roots of the quadratic and
      cubic formulas are not modelled, so those carry their coefficients
      (highest first, as passed); `NoRoots` is the empty vector. */
  datatype Roots = NoRoots | Linear(root: real) | QuadraticOf(a: real, b: real, c: real)
                 | CubicOf(a: real, b: real, c: real, d: real)

  /** `solveLinear(a, b)`: the root of a*x + b. */
  function SolveLinear(a: real, b: real): (r: Roots)
    ensures r.NoRoots? <==> !Significant(a)
    ensures r.Linear? ==> a * r.root + b == 0.0
  {
    if !Significant(a) then NoRoots else Linear(-b / a)
  }

  /** `solveQuadratic`: falls back to the linear solver when a is zero. */
  function SolveQuadratic(a: real, b: real, c: real): (r: Roots)
    ensures r.NoRoots? <==> !Significant(a) && !Significant(b)
    ensures r.Linear? ==> !Significant(a) && b * r.root + c == 0.0
  {
    if !Significant(a) then SolveLinear(b, c) else QuadraticOf(a, b, c)
  }

  /** `solveCubic`: falls back to the quadratic solver when a is zero. */
  function SolveCubic(a: real, b: real, c: real, d: real): (r: Roots)
    ensures r.NoRoots? <==> !Significant(a) && !Significant(b) && !Significant(c)
    ensures r.CubicOf? <==> Significant(a)
  {
    if !Significant(a) then SolveQuadratic(b, c, d) else CubicOf(a, b, c, d)
  }

  const DivisionMsg: string := "polynomial solver does not support division '/'"
  const IdentityMsg: string := "identity equation (infinite solutions)"
  const NoSolutionMsg: string := "no solution"
  const DegreeMsg: string := "degree>3 not supported (yet)"

  /** The outputs of `trySolvePolynomial`: its result and its three out
      parameters. */
  datatype Solution = Solution(ok: bool, roots: Roots, normalized: string, err: string)

  /** The normalised text: spaces stripped, implicit '*' inserted. */
  function Normalize(expr: string, corrected: bool): string {
    InsertMul(StripSpaces(expr), corrected)
  }

  /** lhs - rhs, trimmed, when both sides parse. */
  function Difference(lhs: string, rhs: string): Outcome<Poly> {
    match Parse(lhs)
    case Err(m) => Err(m)
    case Ok(pl) =>
      match Parse(rhs)
      case Err(m) => Err(m)
      case Ok(pr) => Ok(Trim(Sub(pl, pr)))
  }

  /** The roots of lhs - rhs by its degree. */
  function SolveByDegree(p: Poly, normalized: string): Solution {
    var d := Degree(p);
    if d == 0 then Solution(false, NoRoots, normalized, if !Significant(p[0]) then IdentityMsg else NoSolutionMsg)
    else if d > 3 then Solution(false, NoRoots, normalized, DegreeMsg)
    else
      var roots := if d == 1 then SolveLinear(p[1], p[0])
                   else if d == 2 then SolveQuadratic(p[2], p[1], p[0])
                   else SolveCubic(p[3], p[2], p[1], p[0]);
      Solution(roots != NoRoots, roots, normalized, "")
  }

  /** `trySolvePolynomial`: division is refused before anything is
      parsed; a parser exception leaves its message in `err` and keeps the
      normalised text. */
  function Solve(expr: string, corrected: bool): Solution {
    var (lhs, rhs) := SplitEquation(Normalize(expr, corrected));
    if '/' in lhs || '/' in rhs then Solution(false, NoRoots, "", DivisionMsg)
    else
      var normalized := lhs + "=(" + rhs + ")";
      match Difference(lhs, rhs)
      case Err(m) => Solution(false, NoRoots, normalized, m)
      case Ok(p) => SolveByDegree(p, normalized)
  }

  /** The two sides `trySolvePolynomial` parses. */
  function Sides(expr: string, corrected: bool): (string, string) {
    SplitEquation(Normalize(expr, corrected))
  }

  /** p evaluated at x. */
  function Eval(p: seq<real>, x: real): real {
    if |p| == 0 then 0.0 else p[0] + x * Eval(p[1..], x)
  }

  /** Division is refused exactly when the equation contains a '/'. */
  lemma DivisionRejected(expr: string, corrected: bool)
    ensures Solve(expr, corrected).err == DivisionMsg <==> '/' in expr
    ensures '/' in expr ==> Solve(expr, corrected) == Solution(false, NoRoots, "", DivisionMsg)
  {
    StripSpacesKeeps(expr, '/');
    InsertMulKeeps(StripSpaces(expr), corrected, '/');
    SplitEquationKeeps(Normalize(expr, corrected), '/');
    var (lhs, rhs) := Sides(expr, corrected);
    if '/' !in expr {
      match Difference(lhs, rhs)
      case Err(m) =>
      case Ok(p) =>
    }
  }

  /** On a trimmed lhs - rhs the dispatch succeeds iff the degree is 1, 2
      or 3, and then leaves `err` empty; a linear root makes p vanish. */
  lemma SolveByDegreeSucceeds(p: Poly, normalized: string)
    requires Trimmed(p)
    ensures SolveByDegree(p, normalized).ok <==> 1 <= Degree(p) <= 3
    ensures SolveByDegree(p, normalized).ok ==> SolveByDegree(p, normalized).err == ""
    ensures SolveByDegree(p, normalized).roots.Linear? ==> Eval(p, SolveByDegree(p, normalized).roots.root) == 0.0
  {
    var d := Degree(p);
    if d == 1 {
      var r := SolveLinear(p[1], p[0]);
      assert p[1..][1..] == [];
      assert Eval(p[1..], r.root) == p[1] + r.root * 0.0;
      assert Eval(p, r.root) == p[0] + r.root * p[1];
    }
  }

  /** `trySolvePolynomial` succeeds iff both sides parse and lhs - rhs has
      degree 1, 2 or 3; then `err` is empty, and a linear equation's root
      makes lhs - rhs vanish. */
  lemma SolveSucceeds(expr: string, corrected: bool)
    ensures var (lhs, rhs) := Sides(expr, corrected);
      Solve(expr, corrected).ok <==>
        '/' !in lhs && '/' !in rhs && Difference(lhs, rhs).Ok? && 1 <= Degree(Difference(lhs, rhs).value) <= 3
    ensures Solve(expr, corrected).ok ==> Solve(expr, corrected).err == ""
    ensures var (lhs, rhs) := Sides(expr, corrected);
      Solve(expr, corrected).roots.Linear? ==>
        Difference(lhs, rhs).Ok? && Eval(Difference(lhs, rhs).value, Solve(expr, corrected).roots.root) == 0.0
  {
    var (lhs, rhs) := Sides(expr, corrected);
    if '/' !in lhs && '/' !in rhs && Difference(lhs, rhs).Ok? {
      TrimProperties(Sub(Parse(lhs).value, Parse(rhs).value));
      SolveByDegreeSucceeds(Difference(lhs, rhs).value, lhs + "=(" + rhs + ")");
    }
  }

  /** `trySolvePolynomial` with its loops: strip the spaces, insert the
      implicit '*', split at '=' and solve. */
  method TrySolvePolynomial(expr: string, corrected: bool)
    returns (ok: bool, roots: Roots, normalized: string, err: string)
    ensures Solution(ok, roots, normalized, err) == Solve(expr, corrected)
  {
    var s := StripSpacesLoop(expr);
    s := InsertImplicitMul(s, corrected);
    var (lhs, rhs) := SplitEquation(s);
    if '/' in lhs || '/' in rhs {
      return false, NoRoots, "", DivisionMsg;
    }
    normalized := lhs + "=(" + rhs + ")";
    var diff := Difference(lhs, rhs);
    if diff.Err? {
      return false, NoRoots, normalized, diff.msg;
    }
    var p := diff.value;
    var d := Deg(p);
    if d == 0 {
      err := if !Significant(p[0]) then IdentityMsg else NoSolutionMsg;
      return false, NoRoots, normalized, err;
    }
    if d > 3 {
      return false, NoRoots, normalized, DegreeMsg;
    }
    if d == 1 {
      roots := SolveLinear(p[1], p[0]);
    } else if d == 2 {
      roots := SolveQuadratic(p[2], p[1], p[0]);
    } else {
      roots := SolveCubic(p[3], p[2], p[1], p[0]);
    }
    return roots != NoRoots, roots, normalized, "";
  }

  // ---------------------------------------------------------------------
  // The digit-splitting '*' of insertImplicitMul
  // ---------------------------------------------------------------------

  /** A one-digit number followed by a character that ends it. */
  lemma DigitToken(s: string, i: nat)
    requires i < |s| && IsDigit(s[i]) && (i + 1 == |s| || !IsNumberChar(s[i + 1]))
    ensures NextToken(s, i) == Ok((Num(DigitValue(s[i]) as real), i + 1))
  {
    assert SkipSpaces(s, i) == i;
    assert NumberEnd(s, i) == i + 1 by {
      assert NumberEnd(s, i + 1) == i + 1;
    }
    assert s[i..i + 1] == [s[i]];
    StodDigit(s[i]);
  }

  /** A one-character token. */
  lemma PunctuationToken(s: string, i: nat)
    requires i < |s| && Punctuation(s[i]).Some?
    ensures NextToken(s, i) == Ok((Punctuation(s[i]).value, i + 1))
  {
    assert SkipSpaces(s, i) == i;
  }

  /** The end of the text. */
  lemma EndToken(s: string)
    ensures NextToken(s, |s|) == Ok((End, |s|))
  {
  }

  lemma ProductsAsWritten()
    ensures Mul(Constant(1.0), Constant(2.0)) == Constant(2.0)
    ensures Mul(Constant(2.0), Identity) == [0.0, 2.0]
    ensures Mul(Constant(2.0), Constant(4.0)) == Constant(8.0)
  {
    assert MulCoeffs(Constant(1.0), Constant(2.0)) == [2.0];
    assert MulCoeffs(Constant(2.0), Identity) == [0.0, 2.0];
    assert Degree([0.0, 2.0]) == 1 by {
      assert Significant(2.0);
    }
    assert MulCoeffs(Constant(2.0), Constant(4.0)) == [8.0];
  }

  /** A number or x as a factor, and the steps of the product loop. */
  lemma FactorStep(s: string, st: Cursor)
    requires st.pos <= |s| && (st.cur.Num? || st.cur.X?) && Advance(s, st).Ok?
    ensures ParseFactor(s, st) == Ok((if st.cur.X? then Identity else Constant(st.cur.v), Advance(s, st).value))
  {
  }

  lemma TermRestStep(s: string, left: Poly, st: Cursor)
    requires st.pos <= |s| && st.cur == Times && Advance(s, st).Ok?
    requires ParseFactor(s, Advance(s, st).value).Ok?
    ensures var (right, st2) := ParseFactor(s, Advance(s, st).value).value;
      TermRest(s, left, st) == TermRest(s, Mul(left, right), st2)
  {
  }

  lemma TermEnd(s: string, p: Poly, st: Cursor)
    requires st.pos <= |s| && st.cur == End
    ensures TermRest(s, p, st) == Ok((p, st)) && ExprRest(s, p, st) == Ok((p, st))
  {
  }

  /** The first tokens of "1*2*x". */
  lemma TokensOneTimesTwo()
    ensures Advance("1*2*x", Cursor(0, End)) == Ok(Cursor(1, Num(1.0)))
    ensures Advance("1*2*x", Cursor(1, Num(1.0))) == Ok(Cursor(2, Times))
    ensures Advance("1*2*x", Cursor(2, Times)) == Ok(Cursor(3, Num(2.0)))
  {
    var s := "1*2*x";
    DigitToken(s, 0);
    PunctuationToken(s, 1);
    DigitToken(s, 2);
  }

  /** The tokens of "1*2*x". */
  lemma TokensOneTimesTwoTimesX()
    ensures Advance("1*2*x", Cursor(0, End)) == Ok(Cursor(1, Num(1.0)))
    ensures Advance("1*2*x", Cursor(1, Num(1.0))) == Ok(Cursor(2, Times))
    ensures Advance("1*2*x", Cursor(2, Times)) == Ok(Cursor(3, Num(2.0)))
    ensures Advance("1*2*x", Cursor(3, Num(2.0))) == Ok(Cursor(4, Times))
    ensures Advance("1*2*x", Cursor(4, Times)) == Ok(Cursor(5, X))
    ensures Advance("1*2*x", Cursor(5, X)) == Ok(Cursor(5, End))
  {
    var s := "1*2*x";
    TokensOneTimesTwo();
    PunctuationToken(s, 3);
    PunctuationToken(s, 4);
    EndToken(s);
  }

  /** "1*2*x" reads as 2x. */
  lemma ParseOneTimesTwoTimesX(s: string)
    requires s == "1*2*x"
    ensures Parse(s).Ok? && Parse(s).value == [0.0, 2.0]
  {
    var twoX: Poly := [0.0, 2.0];
    TokensOneTimesTwoTimesX();
    ProductsAsWritten();
    FactorStep(s, Cursor(1, Num(1.0)));
    FactorStep(s, Cursor(3, Num(2.0)));
    FactorStep(s, Cursor(5, X));
    TermEnd(s, twoX, Cursor(5, End));
    TermRestStep(s, Constant(2.0), Cursor(4, Times));
    TermRestStep(s, Constant(1.0), Cursor(2, Times));
    assert ParseTerm(s, Cursor(1, Num(1.0))) == Ok((twoX, Cursor(5, End)));
  }

  /** The tokens of "2*4". */
  lemma TokensTwoTimesFour()
    ensures Advance("2*4", Cursor(0, End)) == Ok(Cursor(1, Num(2.0)))
    ensures Advance("2*4", Cursor(1, Num(2.0))) == Ok(Cursor(2, Times))
    ensures Advance("2*4", Cursor(2, Times)) == Ok(Cursor(3, Num(4.0)))
    ensures Advance("2*4", Cursor(3, Num(4.0))) == Ok(Cursor(3, End))
  {
    var s := "2*4";
    DigitToken(s, 0);
    PunctuationToken(s, 1);
    DigitToken(s, 2);
    EndToken(s);
  }

  /** "2*4" reads as 8. */
  lemma ParseTwoTimesFour(s: string)
    requires s == "2*4"
    ensures Parse(s) == Ok(Constant(8.0))
  {
    TokensTwoTimesFour();
    ProductsAsWritten();
    FactorStep(s, Cursor(1, Num(2.0)));
    FactorStep(s, Cursor(3, Num(4.0)));
    TermEnd(s, Constant(8.0), Cursor(3, End));
    TermRestStep(s, Constant(2.0), Cursor(2, Times));
    assert ParseTerm(s, Cursor(1, Num(2.0))) == Ok((Constant(8.0), Cursor(3, End)));
  }

  /** A two-digit number token. */
  lemma TwoDigitToken(s: string, i: nat, n: nat)
    requires 10 <= n < 100 && i + 2 <= |s| && s[i..i + 2] == NatText(n)
    requires i + 2 == |s| || !IsNumberChar(s[i + 2])
    ensures NextToken(s, i) == Ok((Num(n as real), i + 2))
  {
    assert IsDigit(s[i]) && IsDigit(s[i + 1]) by {
      assert s[i] == s[i..i + 2][0] && s[i + 1] == s[i..i + 2][1];
    }
    assert SkipSpaces(s, i) == i;
    assert NumberEnd(s, i) == i + 2 by {
      assert NumberEnd(s, i + 2) == i + 2;
    }
    StodNatText(n);
  }

  /** The first tokens of "12*x". */
  lemma TokensTwelveTimes()
    ensures Advance("12*x", Cursor(0, End)) == Ok(Cursor(2, Num(12.0)))
    ensures Advance("12*x", Cursor(2, Num(12.0))) == Ok(Cursor(3, Times))
  {
    var s := "12*x";
    assert NatText(12) == "12";
    TwoDigitToken(s, 0, 12);
    PunctuationToken(s, 2);
  }

  /** The tokens of "12*x". */
  lemma TokensTwelveTimesX()
    ensures Advance("12*x", Cursor(0, End)) == Ok(Cursor(2, Num(12.0)))
    ensures Advance("12*x", Cursor(2, Num(12.0))) == Ok(Cursor(3, Times))
    ensures Advance("12*x", Cursor(3, Times)) == Ok(Cursor(4, X))
    ensures Advance("12*x", Cursor(4, X)) == Ok(Cursor(4, End))
  {
    var s := "12*x";
    TokensTwelveTimes();
    PunctuationToken(s, 3);
    EndToken(s);
  }

  /** The tokens of "24". */
  lemma TokensTwentyFour()
    ensures Advance("24", Cursor(0, End)) == Ok(Cursor(2, Num(24.0)))
    ensures Advance("24", Cursor(2, Num(24.0))) == Ok(Cursor(2, End))
  {
    assert NatText(24) == "24";
    assert "24"[0..2] == "24";
    TwoDigitToken("24", 0, 24);
    EndToken("24");
  }

  lemma ProductTwelveX()
    ensures Mul(Constant(12.0), Identity) == [0.0, 12.0]
  {
    assert MulCoeffs(Constant(12.0), Identity) == [0.0, 12.0];
    assert Degree([0.0, 12.0]) == 1 by {
      assert Significant(12.0);
    }
  }

  /** "12*x" reads as 12x. */
  lemma ParseTwelveTimesX(s: string)
    requires s == "12*x"
    ensures Parse(s).Ok? && Parse(s).value == [0.0, 12.0]
  {
    var twelveX: Poly := [0.0, 12.0];
    TokensTwelveTimesX();
    ProductTwelveX();
    FactorStep(s, Cursor(2, Num(12.0)));
    FactorStep(s, Cursor(4, X));
    TermEnd(s, twelveX, Cursor(4, End));
    TermRestStep(s, Constant(12.0), Cursor(3, Times));
    assert ParseTerm(s, Cursor(2, Num(12.0))) == Ok((twelveX, Cursor(4, End)));
  }

  /** "24" reads as 24. */
  lemma ParseTwentyFour(s: string)
    requires s == "24"
    ensures Parse(s) == Ok(Constant(24.0))
  {
    TokensTwentyFour();
    FactorStep(s, Cursor(2, Num(24.0)));
    TermEnd(s, Constant(24.0), Cursor(2, End));
  }

  /** `insertImplicitMul` on one more character in front of a text whose
      result is known. */
  lemma InsertMulPrepend(c: char, t: string, corrected: bool, r: string)
    requires |t| >= 1 && InsertMul(t, corrected) == r
    ensures InsertMul([c] + t, corrected) == [c] + (if NeedsStar(c, t[0], corrected) then "*" else "") + r
  {
    assert ([c] + t)[1..] == t;
  }

  lemma InsertMulTwentyFour(corrected: bool)
    ensures InsertMul("=24", corrected) == if corrected then "=24" else "=2*4"
  {
    var r: string := if corrected then "24" else "2*4";
    assert InsertMul("4", corrected) == "4";
    assert NeedsStar('2', '4', corrected) == !corrected;
    InsertMulPrepend('2', "4", corrected, "4");
    assert ['2'] + "4" == "24";
    InsertMulPrepend('=', "24", corrected, r);
    assert ['='] + "24" == "=24";
  }

  lemma InsertMulXTwentyFour(corrected: bool)
    ensures InsertMul("2x=24", corrected) == if corrected then "2*x=24" else "2*x=2*4"
  {
    var r: string := if corrected then "=24" else "=2*4";
    InsertMulTwentyFour(corrected);
    InsertMulPrepend('x', "=24", corrected, r);
    assert ['x'] + "=24" == "x=24";
    assert NeedsStar('2', 'x', corrected);
    InsertMulPrepend('2', "x=24", corrected, ['x'] + r);
    assert ['2'] + "x=24" == "2x=24";
  }

  lemma InsertMulTwelveX(corrected: bool)
    ensures InsertMul("12x=24", corrected) == if corrected then "12*x=24" else "1*2*x=2*4"
  {
    var r: string := if corrected then "2*x=24" else "2*x=2*4";
    InsertMulXTwentyFour(corrected);
    assert NeedsStar('1', '2', corrected) == !corrected;
    InsertMulPrepend('1', "2x=24", corrected, r);
    assert ['1'] + "2x=24" == "12x=24";
  }

  /** The text "12x=24" after normalisation, as written and corrected. */
  lemma NormalizeTwelveX(e: string, corrected: bool)
    requires e == "12x=24"
    ensures Normalize(e, corrected) == if corrected then "12*x=24" else "1*2*x=2*4"
  {
    NoSpacesInTwelveX();
    InsertMulTwelveX(corrected);
  }

  /** The sides of a text that joins l and r with one '='. */
  lemma SidesOfJoined(e: string, corrected: bool, l: string, r: string)
    requires Normalize(e, corrected) == l + "=" + r && '=' !in l && l != [] && r != []
    ensures Sides(e, corrected) == (l, r)
  {
    SplitEquationAt(l, r);
  }

  /** The sides of "12x=24", as written and corrected. */
  lemma SidesOfTwelveX(e: string, corrected: bool)
    requires e == "12x=24"
    ensures Sides(e, corrected) == if corrected then ("12*x", "24") else ("1*2*x", "2*4")
  {
    NormalizeTwelveX(e, corrected);
    if corrected {
      assert "12*x=24" == "12*x" + "=" + "24";
      SidesOfJoined(e, corrected, "12*x", "24");
    } else {
      assert "1*2*x=2*4" == "1*2*x" + "=" + "2*4";
      SidesOfJoined(e, corrected, "1*2*x", "2*4");
    }
  }

  lemma NoSpacesInTwelveX()
    ensures StripSpaces("12x=24") == "12x=24"
  {
    var e := "12x=24";
    assert forall k :: 0 <= k < |e| ==> !IsSpace(e[k]);
    StripSpacesIdempotent(e);
  }

  /** (a x) - b, for a significant. */
  lemma SubLinear(a: real, b: real)
    requires Significant(a)
    ensures Sub([0.0, a], Constant(b)) == [-b, a]
  {
    var d := DiffCoeffs([0.0, a], Constant(b));
    assert d == [-b, a];
    assert Degree(d) == 1;
  }

  /** What `trySolvePolynomial` does once the sides are known to parse. */
  lemma SolveOfSides(expr: string, corrected: bool, l: string, r: string, p: Poly)
    requires Sides(expr, corrected) == (l, r) && '/' !in l && '/' !in r
    requires Parse(l).Ok? && Parse(r).Ok? && Sub(Parse(l).value, Parse(r).value) == p && Degree(p) == 1
    ensures Solve(expr, corrected).roots == SolveLinear(p[1], p[0])
  {
    TrimProperties(p);
    SubCoefficients(Parse(l).value, Parse(r).value);
  }

  /** A text whose sides parse to a x and b, with a significant, has the
      root b / a. */
  lemma SolveOfParsed(e: string, corrected: bool, a: real, b: real)
    requires Significant(a)
    requires '/' !in Sides(e, corrected).0 && '/' !in Sides(e, corrected).1
    requires Parse(Sides(e, corrected).0).Ok? && Parse(Sides(e, corrected).0).value == [0.0, a]
    requires Parse(Sides(e, corrected).1) == Ok(Constant(b))
    ensures Solve(e, corrected).roots == Linear(b / a)
  {
    var (l, r) := Sides(e, corrected);
    SubLinear(a, b);
    SolveOfSides(e, corrected, l, r, [-b, a]);
  }

  /** As written, "12x=24" is read as 1*2*x = 2*4, whose root is 4. */
  lemma SolveTwelveXAsWritten(e: string)
    requires e == "12x=24"
    ensures Solve(e, false).roots == Linear(4.0)
  {
    SidesOfTwelveX(e, false);
    ParseOneTimesTwoTimesX("1*2*x");
    ParseTwoTimesFour("2*4");
    SolveOfParsed(e, false, 2.0, 8.0);
  }

  /** Corrected, "12x=24" is read as 12*x = 24, whose root is 2. */
  lemma SolveTwelveXCorrected(e: string)
    requires e == "12x=24"
    ensures Solve(e, true).roots == Linear(2.0)
  {
    SidesOfTwelveX(e, true);
    ParseTwelveTimesX("12*x");
    ParseTwentyFour("24");
    SolveOfParsed(e, true, 12.0, 24.0);
  }
}
