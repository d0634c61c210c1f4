/** Shared vocabulary of the model: flat row-major buffers of reals, the error
    outcome that replaces C++ exceptions, C++ integer division, the float range,
    the abstract transcendental functions and the random source. */
module Tensor {

  /** The result of an operation that may throw: `Err` carries the exception text. */
  datatype Outcome<T> = Ok(value: T) | Err(msg: string)

  /** A value that may be absent: a null `const vector<float>*`, `std::string::npos`, an optional
      log entry, a failed drain. A null child `shared_ptr` inside an expression tree is the `Nil`
      case of that recursive tree instead, so the tree needs no wrapper around each child. */
  datatype Option<T> = None | Some(value: T)

  /** Largest finite IEEE-754 single-precision value; beyond it a float sum is `inf`. */
  const FloatMax: real := 340282346638528859811704183484516925440.0

  /** `std::isfinite` on a float that holds the real `x`. */
  predicate Finite(x: real) {
    -FloatMax <= x <= FloatMax
  }

  /** `std::exp` and `std::log` are not modelled; they are supplied, with exp > 0. */
  datatype Math = Math(exp: real -> real, log: real -> real)

  ghost predicate ExpPositive(m: Math) {
    forall x :: m.exp(x) > 0.0
  }

  /** C++ `a / b` on `int`: the quotient is truncated toward zero. */
  function CDiv(a: int, b: int): (q: int)
    requires b > 0
    ensures a >= 0 ==> q == a / b
    ensures a < 0 ==> q == -((-a) / b)
  {
    if a >= 0 then a / b else -((-a) / b)
  }

  /** Element `i` of `s`, or 0 outside the buffer. */
  function At(s: seq<real>, i: int): real {
    if 0 <= i < |s| then s[i] else 0.0
  }

  function Zeros(n: nat): (z: seq<real>)
    ensures |z| == n && forall i :: 0 <= i < n ==> z[i] == 0.0
  {
    seq(n, i => 0.0)
  }

  /** Sum of the elements, accumulated from the front as a C++ loop does. */
  function Sum(s: seq<real>): real {
    if |s| == 0 then 0.0 else Sum(s[..|s| - 1]) + s[|s| - 1]
  }

  /** Inner product, accumulated from the front. */
  function Dot(a: seq<real>, b: seq<real>): real
    requires |a| == |b|
  {
    if |a| == 0 then 0.0 else Dot(a[..|a| - 1], b[..|b| - 1]) + a[|a| - 1] * b[|b| - 1]
  }

  /** Element-wise sum. */
  function AddSeq(a: seq<real>, b: seq<real>): (r: seq<real>)
    requires |a| == |b|
    ensures |r| == |a|
  {
    seq(|a|, i requires 0 <= i < |a| => a[i] + b[i])
  }

  /** One gradient step with L2 weight decay: `p[i] - lr * (g[i] + l2 * p[i])`. */
  function L2Step(p: seq<real>, g: seq<real>, lr: real, l2: real): (r: seq<real>)
    requires |p| == |g|
    ensures |r| == |p|
  {
    seq(|p|, i requires 0 <= i < |p| => p[i] - lr * (g[i] + l2 * p[i]))
  }

  function Max0(x: real): real {
    if x > 0.0 then x else 0.0
  }

  lemma {:induction false} SumUpdate(s: seq<real>, j: int, v: real)
    requires 0 <= j < |s|
    ensures Sum(s[j := v]) == Sum(s) - s[j] + v
  {
    var n := |s|;
    if j == n - 1 {
      assert s[j := v][..n - 1] == s[..n - 1];
    } else {
      assert s[j := v][..n - 1] == s[..n - 1][j := v];
      SumUpdate(s[..n - 1], j, v);
    }
  }

  lemma {:induction false} SumZeros(n: nat)
    ensures Sum(Zeros(n)) == 0.0
  {
    if n > 0 {
      assert Zeros(n)[..n - 1] == Zeros(n - 1);
      SumZeros(n - 1);
    }
  }

  lemma {:induction false} SumAppend(s: seq<real>, t: seq<real>)
    ensures Sum(s + t) == Sum(s) + Sum(t)
    decreases |t|
  {
    if |t| > 0 {
      assert (s + t)[..|s + t| - 1] == s + t[..|t| - 1];
      SumAppend(s, t[..|t| - 1]);
    } else {
      assert s + t == s;
    }
  }

  // ---------------------------------------------------------------------
  // Finite sums of an index function, used to state adjointness of layers.
  // ---------------------------------------------------------------------

  /** f(0) + ... + f(n - 1). */
  function SumF(f: int -> real, n: int): real
    decreases n
  {
    if n <= 0 then 0.0 else SumF(f, n - 1) + f(n - 1)
  }

  lemma {:induction false} SumFExt(f: int -> real, g: int -> real, n: int)
    requires forall i :: 0 <= i < n ==> f(i) == g(i)
    ensures SumF(f, n) == SumF(g, n)
    decreases n
  {
    if n > 0 {
      SumFExt(f, g, n - 1);
    }
  }

  lemma {:induction false} SumFAdd(f: int -> real, g: int -> real, h: int -> real, n: int)
    requires forall i :: 0 <= i < n ==> h(i) == f(i) + g(i)
    ensures SumF(h, n) == SumF(f, n) + SumF(g, n)
    decreases n
  {
    if n > 0 {
      SumFAdd(f, g, h, n - 1);
    }
  }

  lemma {:induction false} SumFScale(f: int -> real, g: int -> real, c: real, n: int)
    requires forall i :: 0 <= i < n ==> g(i) == c * f(i)
    ensures SumF(g, n) == c * SumF(f, n)
    decreases n
  {
    if n > 0 {
      SumFScale(f, g, c, n - 1);
    }
  }

  function RowOf(F: (int, int) -> real, i: int): int -> real {
    j => F(i, j)
  }

  function ColOf(F: (int, int) -> real, j: int): int -> real {
    i => F(i, j)
  }

  /** i |-> F(i, 0) + ... + F(i, m - 1) */
  function RowTotals(F: (int, int) -> real, m: int): int -> real {
    i => SumF(RowOf(F, i), m)
  }

  /** j |-> F(0, j) + ... + F(n - 1, j) */
  function ColTotals(F: (int, int) -> real, n: int): int -> real {
    j => SumF(ColOf(F, j), n)
  }

  /** Exchanging the order of a double sum. */
  lemma {:induction false} SumFSwap(F: (int, int) -> real, n: int, m: int)
    ensures SumF(RowTotals(F, m), n) == SumF(ColTotals(F, n), m)
    decreases n
  {
    if n > 0 {
      SumFSwap(F, n - 1, m);
      forall j | 0 <= j < m
        ensures ColTotals(F, n)(j) == ColTotals(F, n - 1)(j) + RowOf(F, n - 1)(j)
      {
      }
      SumFAdd(ColTotals(F, n - 1), RowOf(F, n - 1), ColTotals(F, n), m);
    } else {
      forall j | 0 <= j < m
        ensures ColTotals(F, n)(j) == 0.0
      {
      }
      SumFZero(ColTotals(F, n), m);
    }
  }

  lemma {:induction false} SumFZero(f: int -> real, n: int)
    requires forall i :: 0 <= i < n ==> f(i) == 0.0
    ensures SumF(f, n) == 0.0
    decreases n
  {
    if n > 0 {
      SumFZero(f, n - 1);
    }
  }

  /** Changing one term changes the sum by the difference. */
  lemma {:induction false} SumFPoint(f: int -> real, g: int -> real, k: int, n: int)
    requires 0 <= k < n
    requires forall i :: 0 <= i < n && i != k ==> f(i) == g(i)
    ensures SumF(g, n) == SumF(f, n) + (g(k) - f(k))
    decreases n
  {
    if n - 1 == k {
      SumFExt(f, g, n - 1);
    } else {
      SumFPoint(f, g, k, n - 1);
    }
  }

  /** b |-> f(m + b) */
  function Shifted(f: int -> real, m: int): int -> real {
    b => f(m + b)
  }

  /** Splitting a sum after its first m terms. */
  lemma {:induction false} SumFShift(f: int -> real, m: int, n: int)
    requires m >= 0 && n >= 0
    ensures SumF(f, m + n) == SumF(f, m) + SumF(Shifted(f, m), n)
    decreases n
  {
    if n > 0 {
      SumFShift(f, m, n - 1);
    }
  }

  /** (a, b) |-> f(a * B + b) */
  function Blocks(f: int -> real, B: int): (int, int) -> real {
    (a, b) => f(a * B + b)
  }

  /** A sum over A * B terms as A sums of B consecutive terms. */
  lemma {:induction false} SumFBlocks(f: int -> real, A: int, B: int)
    requires A >= 0 && B >= 0
    ensures SumF(f, A * B) == SumF(RowTotals(Blocks(f, B), B), A)
    decreases A
  {
    if A > 0 {
      SumFBlocks(f, A - 1, B);
      assert A * B == (A - 1) * B + B;
      MulMono(0, A - 1, B);
      SumFShift(f, (A - 1) * B, B);
      SumFExt(Shifted(f, (A - 1) * B), RowOf(Blocks(f, B), A - 1), B);
    }
  }

  /** i |-> a[i] * b[i] */
  function Products(a: seq<real>, b: seq<real>): int -> real {
    i => At(a, i) * At(b, i)
  }

  /** The inner product as a sum of element products. */
  lemma {:induction false} DotAsSum(a: seq<real>, b: seq<real>)
    requires |a| == |b|
    ensures Dot(a, b) == SumF(Products(a, b), |a|)
    decreases |a|
  {
    var n := |a|;
    if n > 0 {
      var a', b' := a[..n - 1], b[..n - 1];
      DotAsSum(a', b');
      SumFExt(Products(a', b'), Products(a, b), n - 1);
    }
  }

  // ---------------------------------------------------------------------
  // Arithmetic on row-major indices.  Z3 does not reason about products of
  // variables on its own; these lemmas give it the few facts the loops need.
  // ---------------------------------------------------------------------

  lemma {:induction false} MulMono(a: int, b: int, c: int)
    requires a <= b && c >= 0
    ensures a * c <= b * c
  {
    if c > 0 {
      MulMono(a, b, c - 1);
      assert a * c == a * (c - 1) + a;
      assert b * c == b * (c - 1) + b;
    }
  }

  lemma MulSucc(a: int, b: int)
    ensures (a + 1) * b == a * b + b
  {
  }

  lemma DivModUnique(q: int, r: int, n: int)
    requires n > 0 && 0 <= r < n
    ensures (q * n + r) / n == q && (q * n + r) % n == r
  {
    var i := q * n + r;
    var q', r' := i / n, i % n;
    assert i == q' * n + r';
    if q' > q {
      assert (q + 1) * n == q * n + n;
      MulMono(q + 1, q', n);
    }
    if q' < q {
      assert (q' + 1) * n == q' * n + n;
      MulMono(q' + 1, q, n);
    }
  }

  lemma Idx2Bound(a: int, b: int, A: int, B: int)
    requires 0 <= a < A && 0 <= b < B
    ensures 0 <= a * B + b < A * B
  {
    MulMono(0, a, B);
    assert (a + 1) * B == a * B + B;
    MulMono(a + 1, A, B);
  }

  lemma Idx3Bound(a: int, b: int, c: int, A: int, B: int, C: int)
    requires 0 <= a < A && 0 <= b < B && 0 <= c < C
    ensures 0 <= b * C + c < B * C
    ensures 0 <= a * (B * C) + b * C + c < A * (B * C)
  {
    Idx2Bound(b, c, B, C);
    Idx2Bound(a, b * C + c, A, B * C);
  }

  /** The flat position reached after the first `b` cells of row a. */
  lemma Idx2Prefix(a: int, b: int, A: int, B: int)
    requires 0 <= a < A && 0 <= b <= B
    ensures 0 <= a * B + b <= A * B
  {
    MulMono(0, a, B);
    MulSucc(a, B);
    MulMono(a + 1, A, B);
  }

  /** The flat position reached after the first `c` cells of row (a, b). */
  lemma Idx3Prefix(a: int, b: int, c: int, A: int, B: int, C: int)
    requires 0 <= a < A && 0 <= b < B && 0 <= c <= C
    ensures 0 <= a * (B * C) + b * C + c <= A * (B * C)
  {
    MulMono(0, a, B * C);
    MulMono(0, b, C);
    MulSucc(b, C);
    MulMono(b + 1, B, C);
    MulSucc(a, B * C);
    MulMono(a + 1, A, B * C);
  }

  lemma Idx4Bound(a: int, b: int, c: int, d: int, A: int, B: int, C: int, D: int)
    requires 0 <= a < A && 0 <= b < B && 0 <= c < C && 0 <= d < D
    ensures 0 <= c * D + d < C * D
    ensures 0 <= b * (C * D) + c * D + d < B * (C * D)
    ensures 0 <= a * (B * (C * D)) + b * (C * D) + c * D + d < A * (B * (C * D))
  {
    Idx3Bound(b, c, d, B, C, D);
    Idx2Bound(a, b * (C * D) + c * D + d, A, B * (C * D));
  }

  /** Row-major decoding of a flat index into (plane, row, column). */
  function Plane(i: int, rows: int, cols: int): int
    requires rows > 0 && cols > 0
  {
    i / (rows * cols)
  }

  function Row(i: int, rows: int, cols: int): int
    requires rows > 0 && cols > 0
  {
    (i % (rows * cols)) / cols
  }

  function Col(i: int, cols: int): int
    requires cols > 0
  {
    i % cols
  }

  lemma Decode3(a: int, b: int, c: int, B: int, C: int)
    requires 0 <= b < B && 0 <= c < C
    ensures Plane(a * (B * C) + b * C + c, B, C) == a
    ensures Row(a * (B * C) + b * C + c, B, C) == b
    ensures Col(a * (B * C) + b * C + c, C) == c
  {
    Idx2Bound(b, c, B, C);
    DivModUnique(a, b * C + c, B * C);
    DivModUnique(b, c, C);
    var i := a * (B * C) + b * C + c;
    assert i % (B * C) == b * C + c;
    assert (a * B + b) * C + c == i;
    DivModUnique(a * B + b, c, C);
  }

  lemma Encode3(i: int, B: int, C: int)
    requires i >= 0 && B > 0 && C > 0
    ensures 0 <= Row(i, B, C) < B && 0 <= Col(i, C) < C && Plane(i, B, C) >= 0
    ensures i == Plane(i, B, C) * (B * C) + Row(i, B, C) * C + Col(i, C)
  {
    MulMono(1, B, C);
    var N := B * C;
    DivModOf(i, N);
    var q, r := i / N, i % N;
    DivModOf(r, C);
    var rr, rc := r / C, r % C;
    RowBelow(r, B, C);
    ColOfSplit(q, rr, rc, B, C);
  }

  /** A flat index below A * (B * C) names plane, row and column in range. */
  lemma Decode3Range(i: int, A: int, B: int, C: int)
    requires A >= 0 && B >= 0 && C >= 0 && 0 <= i < A * (B * C)
    ensures B > 0 && C > 0
    ensures 0 <= Plane(i, B, C) < A && 0 <= Row(i, B, C) < B && 0 <= Col(i, C) < C
    ensures i == Plane(i, B, C) * (B * C) + Row(i, B, C) * C + Col(i, C)
  {
    assert B * C > 0;
    Encode3(i, B, C);
    if Plane(i, B, C) >= A {
      MulMono(A, Plane(i, B, C), B * C);
    }
  }

  lemma DivModOf(i: int, n: int)
    requires i >= 0 && n > 0
    ensures i == (i / n) * n + i % n && 0 <= i % n < n && i / n >= 0
  {
  }

  lemma RowBelow(r: int, B: int, C: int)
    requires B > 0 && C > 0 && 0 <= r < B * C
    ensures 0 <= r / C < B
  {
    if r / C >= B {
      MulMono(B, r / C, C);
    }
  }

  lemma ColOfSplit(q: int, rr: int, rc: int, B: int, C: int)
    requires C > 0 && 0 <= rc < C
    ensures (q * (B * C) + (rr * C + rc)) % C == rc
    ensures q * (B * C) + (rr * C + rc) == q * (B * C) + rr * C + rc
  {
    assert q * (B * C) == (q * B) * C by {
      MulAssoc(q, B, C);
    }
    assert q * (B * C) + (rr * C + rc) == (q * B + rr) * C + rc;
    DivModUnique(q * B + rr, rc, C);
  }

  lemma MulDistrib(a: int, b: int, c: int)
    ensures (a + b) * c == a * c + b * c
  {
  }

  lemma MulAssoc(a: int, b: int, c: int)
    ensures a * (b * c) == (a * b) * c
  {
  }

  // ---------------------------------------------------------------------
  // The random source.  `rand() / RAND_MAX` is the next element of a fixed
  // stream; the generator that produces the stream is not modelled.
  // ---------------------------------------------------------------------

  class Rng {
    const stream: nat -> real
    var pos: nat

    constructor (stream: nat -> real)
      ensures this.stream == stream && pos == 0
    {
      this.stream := stream;
      pos := 0;
    }

    method Next() returns (v: real)
      modifies this
      ensures v == stream(old(pos)) && pos == old(pos) + 1
    {
      v := stream(pos);
      pos := pos + 1;
    }
  }
}
