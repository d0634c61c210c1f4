/** The symbolic evaluator (CNN/src/expression_tree.cpp): a text is cleaned
    and given its implicit '*' (`Preprocessed`), parsed by a two-stack pass
    into a tree (`BuildTree`), and the tree is normalised into a polynomial in
    several variables (`Normalize`), a map from exponent maps to coefficients.
    `Run` dispatches between a single expression and an equation.

    The polynomial is a sequence of `Term`s with pairwise different keys; the
    coefficient of a key is read with `Coeff`, which is 0 for an absent key.
    Doubles are modelled as reals.  Three defects of the source are modelled
    both as written (`fixed == false`) and corrected (`fixed == true`). */
module ExpressionTree {
  import opened Tensor
  import Calculator

  // ------------------------------------------------------------------
  // Polynomials
  // ------------------------------------------------------------------

  /** Exponent by variable name. */
  type TermKey = map<string, int>

  /** One entry of the coefficient map. */
  datatype Term = Term(key: TermKey, coeff: real)

  /** The entries of the coefficient map, in an order the model leaves open. */
  type Entries = seq<Term>

  /** The threshold of `cleanup`, 1e-9. */
  const Tiny: real := 0.000000001

  /** The zero test of `divideByMonomial`, 1e-12. */
  const TinyDivisor: real := 0.000000000001

  function Abs(x: real): real {
    if x < 0.0 then -x else x
  }

  /** What `cleanup` leaves of a coefficient: near-zero values vanish. */
  function Clip(v: real): real {
    if Abs(v) < Tiny then 0.0 else v
  }

  /** The exponent of `v` in `k`; a missing variable has exponent 0. */
  function Exp(k: TermKey, v: string): int {
    if v in k then k[v] else 0
  }

  function Keys(p: Entries): set<TermKey> {
    set t | t in p :: t.key
  }

  /** No key occurs twice, as in a `std::map`. */
  predicate Keyed(p: Entries) {
    forall i, j :: 0 <= i < j < |p| ==> p[i].key != p[j].key
  }

  /** No coefficient is small enough for `cleanup` to erase. */
  predicate Clean(p: Entries) {
    forall t :: t in p ==> Abs(t.coeff) >= Tiny
  }

  /** Two kinds of key a polynomial can be limited to: keys without an
      explicit exponent 0, and the empty key of a constant. */
  datatype KeyClass = NoZero | Empty

  predicate InClass(k: TermKey, c: KeyClass) {
    match c
    case NoZero => forall v :: v in k ==> k[v] != 0
    case Empty => k == map[]
  }

  predicate AllKeys(p: Entries, c: KeyClass) {
    forall k :: k in Keys(p) ==> InClass(k, c)
  }

  /** No key holds an explicit exponent 0. */
  predicate ZeroFree(p: Entries) {
    AllKeys(p, NoZero)
  }

  /** The coefficient of key `k`: the map's value, or 0 when it is absent. */
  function Coeff(p: Entries, k: TermKey): real {
    if |p| == 0 then 0.0
    else if p[0].key == k then p[0].coeff
    else Coeff(p[1..], k)
  }

  /** A key that is not in the map has coefficient 0. */
  lemma {:induction false} CoeffAbsent(p: Entries, k: TermKey)
    requires k !in Keys(p)
    ensures Coeff(p, k) == 0.0
    decreases |p|
  {
    if |p| > 0 {
      assert p[0] in p;
      assert forall t :: t in p[1..] ==> t in p;
      CoeffAbsent(p[1..], k);
    }
  }

  lemma KeyedCons(t: Term, q: Entries)
    ensures Keyed([t] + q) <==> t.key !in Keys(q) && Keyed(q)
  {
    var p := [t] + q;
    if Keyed(p) {
      forall i, j | 0 <= i < j < |q|
        ensures q[i].key != q[j].key
      {
        assert p[i + 1] == q[i] && p[j + 1] == q[j];
      }
      forall u | u in q
        ensures u.key != t.key
      {
        var j :| 0 <= j < |q| && q[j] == u;
        assert p[0] == t && p[j + 1] == u;
      }
    }
    if t.key !in Keys(q) && Keyed(q) {
      forall i, j | 0 <= i < j < |p|
        ensures p[i].key != p[j].key
      {
        assert p[j] == q[j - 1] && q[j - 1] in q;
        if i > 0 {
          assert p[i] == q[i - 1];
        }
      }
    }
  }

  lemma KeyedTail(p: Entries)
    requires Keyed(p) && |p| > 0
    ensures p[0].key !in Keys(p[1..]) && Keyed(p[1..])
  {
    assert p == [p[0]] + p[1..];
    KeyedCons(p[0], p[1..]);
  }

  /** `data[k] += c`: an absent key is inserted with 0 first. */
  function AddTo(p: Entries, k: TermKey, c: real): (r: Entries)
    ensures Keys(r) == Keys(p) + {k}
    ensures forall m :: Coeff(r, m) == Coeff(p, m) + (if m == k then c else 0.0)
    ensures Keyed(p) ==> Keyed(r)
  {
    if |p| == 0 then [Term(k, c)]
    else if p[0].key == k then
      var r := [Term(k, p[0].coeff + c)] + p[1..];
      AddToHead(p, k, c, r);
      r
    else
      var rest := AddTo(p[1..], k, c);
      var r := [p[0]] + rest;
      AddToBehind(p, k, c, rest, r);
      r
  }

  lemma AddToHead(p: Entries, k: TermKey, c: real, r: Entries)
    requires |p| > 0 && p[0].key == k && r == [Term(k, p[0].coeff + c)] + p[1..]
    ensures Keys(r) == Keys(p) + {k}
    ensures forall m :: Coeff(r, m) == Coeff(p, m) + (if m == k then c else 0.0)
    ensures Keyed(p) ==> Keyed(r)
  {
    assert r[1..] == p[1..];
    if Keyed(p) {
      KeyedTail(p);
      KeyedCons(r[0], p[1..]);
    }
    assert p == [p[0]] + p[1..];
  }

  lemma AddToBehind(p: Entries, k: TermKey, c: real, rest: Entries, r: Entries)
    requires |p| > 0 && p[0].key != k && r == [p[0]] + rest
    requires Keys(rest) == Keys(p[1..]) + {k}
    requires forall m :: Coeff(rest, m) == Coeff(p[1..], m) + (if m == k then c else 0.0)
    requires Keyed(p[1..]) ==> Keyed(rest)
    ensures Keys(r) == Keys(p) + {k}
    ensures forall m :: Coeff(r, m) == Coeff(p, m) + (if m == k then c else 0.0)
    ensures Keyed(p) ==> Keyed(r)
  {
    assert p == [p[0]] + p[1..];
    KeysCons(p[0], rest);
    KeysCons(p[0], p[1..]);
    forall m
      ensures Coeff(r, m) == Coeff(p, m) + (if m == k then c else 0.0)
    {
      CoeffCons(p[0], rest, m);
      CoeffCons(p[0], p[1..], m);
    }
    if Keyed(p) {
      KeyedTail(p);
      KeyedCons(p[0], rest);
    }
  }

  lemma KeysCons(t: Term, q: Entries)
    ensures Keys([t] + q) == {t.key} + Keys(q)
  {
    assert forall u :: u in [t] + q <==> u == t || u in q;
  }

  lemma CoeffCons(t: Term, q: Entries, m: TermKey)
    ensures Coeff([t] + q, m) == if t.key == m then t.coeff else Coeff(q, m)
  {
    assert ([t] + q)[1..] == q;
  }

  lemma StepCoeff(p: Entries, key: TermKey, c: real, k: TermKey, share: real)
    requires share == if k == key then c else 0.0
    ensures Coeff(AddTo(p, key, c), k) == Coeff(p, k) + share
  {
  }

  lemma ShareIs(t: Term, u: Term, k: TermKey, fixed: bool)
    ensures Share(t, u, k, fixed) == if k == Combine(t.key, u.key, fixed) then Times(t.coeff, u.coeff) else 0.0
  {
  }

  lemma AddToAt(p: Entries, key: TermKey, c: real, k: TermKey)
    ensures Coeff(AddTo(p, key, c), k) == Coeff(p, k) + (if k == key then c else 0.0)
  {
  }

  /** A key that is not there yet is appended. */
  lemma AddToFresh(p: Entries, k: TermKey, c: real)
    requires k !in Keys(p)
    ensures AddTo(p, k, c) == p + [Term(k, c)]
  {
    if |p| > 0 {
      assert p == [p[0]] + p[1..];
      assert p[0].key != k by {
        assert p[0] in p;
      }
      assert k !in Keys(p[1..]) by {
        forall t | t in p[1..]
          ensures t.key != k
        {
          assert t in p;
        }
      }
      AddToFresh(p[1..], k, c);
      assert AddTo(p, k, c) == [p[0]] + AddTo(p[1..], k, c);
    }
  }

  /** `cleanup`: the entries whose coefficient is at least 1e-9 in size.
      What it guarantees is stated by `CleanedSpec`. */
  function Cleaned(p: Entries): Entries {
    if |p| == 0 then []
    else if Abs(p[0].coeff) < Tiny then Cleaned(p[1..])
    else [p[0]] + Cleaned(p[1..])
  }

  /** `cleanup` leaves a clean map with no new key; a clean map is left as
      it is. */
  lemma {:induction false} CleanedClean(p: Entries)
    ensures Clean(Cleaned(p)) && Keys(Cleaned(p)) <= Keys(p)
    ensures Clean(p) ==> Cleaned(p) == p
    decreases |p|
  {
    if |p| > 0 {
      var rest := Cleaned(p[1..]);
      CleanedClean(p[1..]);
      assert p == [p[0]] + p[1..];
      KeysCons(p[0], p[1..]);
      assert p[0] in p;
      if Abs(p[0].coeff) >= Tiny {
        KeysCons(p[0], rest);
        assert forall t :: t in [p[0]] + rest <==> t == p[0] || t in rest;
      }
      if Clean(p) {
        assert forall t :: t in p[1..] ==> t in p;
      }
    }
  }

  /** `cleanup` keeps a keyed map keyed. */
  lemma {:induction false} CleanedKeyed(p: Entries)
    requires Keyed(p)
    ensures Keyed(Cleaned(p))
    decreases |p|
  {
    if |p| > 0 {
      KeyedTail(p);
      CleanedKeyed(p[1..]);
      if Abs(p[0].coeff) >= Tiny {
        CleanedClean(p[1..]);
        KeyedCons(p[0], Cleaned(p[1..]));
      }
    }
  }

  /** `cleanup` clips every coefficient of a keyed map to 0 below 1e-9. */
  lemma {:induction false} CleanedCoeff(p: Entries, k: TermKey)
    requires Keyed(p)
    ensures Coeff(Cleaned(p), k) == Clip(Coeff(p, k))
    decreases |p|
  {
    if |p| > 0 {
      KeyedTail(p);
      CleanedCoeff(p[1..], k);
      assert p == [p[0]] + p[1..];
      CoeffCons(p[0], p[1..], k);
      if p[0].key == k {
        CoeffAbsent(p[1..], k);
      }
      if Abs(p[0].coeff) >= Tiny {
        CoeffCons(p[0], Cleaned(p[1..]), k);
      }
    }
  }

  /** The facts about `cleanup` together. */
  lemma CleanedSpec(p: Entries)
    ensures Clean(Cleaned(p)) && Keys(Cleaned(p)) <= Keys(p)
    ensures Keyed(p) ==> Keyed(Cleaned(p)) && forall k :: Coeff(Cleaned(p), k) == Clip(Coeff(p, k))
    ensures Clean(p) ==> Cleaned(p) == p
  {
    CleanedClean(p);
    if Keyed(p) {
      CleanedKeyed(p);
      forall k
        ensures Coeff(Cleaned(p), k) == Clip(Coeff(p, k))
      {
        CleanedCoeff(p, k);
      }
    }
  }

  lemma CleanedHead(p: Entries)
    requires |p| > 0
    ensures Cleaned(p) == if Abs(p[0].coeff) < Tiny then Cleaned(p[1..]) else [p[0]] + Cleaned(p[1..])
  {
  }

  /** Erasing a small entry at `i` leaves what `Cleanup` still has to do unchanged. */
  lemma CleanupDrop(d: Entries, i: nat)
    requires i < |d| && Abs(d[i].coeff) < Tiny
    ensures var e := d[..i] + d[i + 1..]; e[..i] + Cleaned(e[i..]) == d[..i] + Cleaned(d[i..])
  {
    var e := d[..i] + d[i + 1..];
    CleanedHead(d[i..]);
    assert d[i..][1..] == d[i + 1..];
    assert e[..i] == d[..i] && e[i..] == d[i + 1..];
  }

  /** Stepping over a kept entry at `i` does the same. */
  lemma CleanupKeep(d: Entries, i: nat)
    requires i < |d| && Abs(d[i].coeff) >= Tiny
    ensures d[..i + 1] + Cleaned(d[i + 1..]) == d[..i] + Cleaned(d[i..])
  {
    CleanedHead(d[i..]);
    assert d[i..][1..] == d[i + 1..];
    assert d[..i + 1] == d[..i] + [d[i]];
  }

  /** A clean polynomial with every coefficient zero has no entries. */
  lemma CleanZeroIsEmpty(r: Entries)
    requires Clean(r) && forall k :: Coeff(r, k) == 0.0
    ensures r == []
  {
    if |r| > 0 {
      CleanHeadNonZero(r);
    }
  }

  lemma CleanHeadNonZero(r: Entries)
    requires Clean(r) && |r| > 0
    ensures Coeff(r, r[0].key) != 0.0
  {
    assert r[0] in r;
  }

  function Signed(c: real, negate: bool): real {
    if negate then -c else c
  }

  /** The loop of `add` (of `subtract` with `negate`), before its `cleanup`. */
  function Accumulate(d: Entries, q: Entries, negate: bool): (r: Entries)
    ensures Keys(r) == Keys(d) + Keys(q)
    ensures Keyed(d) ==> Keyed(r)
    decreases |q|
  {
    if |q| == 0 then d
    else
      assert q == [q[0]] + q[1..];
      Accumulate(AddTo(d, q[0].key, Signed(q[0].coeff, negate)), q[1..], negate)
  }

  lemma {:induction false} AccumulateCoeff(d: Entries, q: Entries, negate: bool, k: TermKey)
    requires Keyed(q)
    ensures Coeff(Accumulate(d, q, negate), k) == Coeff(d, k) + Signed(Coeff(q, k), negate)
    decreases |q|
  {
    if |q| > 0 {
      KeyedTail(q);
      if q[0].key == k {
        CoeffAbsent(q[1..], k);
      }
      AccumulateCoeff(AddTo(d, q[0].key, Signed(q[0].coeff, negate)), q[1..], negate, k);
    }
  }

  /** `add`: the entry-wise sum, cleaned. */
  function Plus(p: Entries, q: Entries): (r: Entries)
    ensures Clean(r) && (Keyed(p) ==> Keyed(r))
  {
    CleanedClean(Accumulate(p, q, false));
    if Keyed(p) then CleanedKeyed(Accumulate(p, q, false)); Cleaned(Accumulate(p, q, false))
    else Cleaned(Accumulate(p, q, false))
  }

  /** `subtract`: the entry-wise difference, cleaned. */
  function Minus(p: Entries, q: Entries): (r: Entries)
    ensures Clean(r) && (Keyed(p) ==> Keyed(r))
  {
    CleanedClean(Accumulate(p, q, true));
    if Keyed(p) then CleanedKeyed(Accumulate(p, q, true)); Cleaned(Accumulate(p, q, true))
    else Cleaned(Accumulate(p, q, true))
  }

  /** Every coefficient of `add`'s result is the sum of the two, unless
      that sum is below 1e-9 in size. */
  lemma PlusCoeff(p: Entries, q: Entries)
    requires Keyed(p) && Keyed(q)
    ensures forall k :: Coeff(Plus(p, q), k) == Clip(Coeff(p, k) + Coeff(q, k))
  {
    forall k
      ensures Coeff(Plus(p, q), k) == Clip(Coeff(p, k) + Coeff(q, k))
    {
      PlusAt(p, q, k);
    }
  }

  lemma PlusAt(p: Entries, q: Entries, k: TermKey)
    requires Keyed(p) && Keyed(q)
    ensures Coeff(Plus(p, q), k) == Clip(Coeff(p, k) + Coeff(q, k))
  {
    CleanedCoeff(Accumulate(p, q, false), k);
    AccumulateCoeff(p, q, false, k);
  }

  /** The same for `subtract`, with the difference. */
  lemma {:induction false} MinusCoeff(p: Entries, q: Entries)
    requires Keyed(p) && Keyed(q)
    ensures forall k :: Coeff(Minus(p, q), k) == Clip(Coeff(p, k) - Coeff(q, k))
  {
    forall k
      ensures Coeff(Minus(p, q), k) == Clip(Coeff(p, k) - Coeff(q, k))
    {
      MinusAt(p, q, k);
    }
  }

  lemma MinusAt(p: Entries, q: Entries, k: TermKey)
    requires Keyed(p) && Keyed(q)
    ensures Coeff(Minus(p, q), k) == Clip(Coeff(p, k) - Coeff(q, k))
  {
    CleanedCoeff(Accumulate(p, q, true), k);
    AccumulateCoeff(p, q, true, k);
  }

  /** A polynomial minus itself is the empty map. */
  lemma MinusSelf(p: Entries)
    requires Keyed(p)
    ensures Minus(p, p) == []
  {
    MinusCoeff(p, p);
    CleanZeroIsEmpty(Minus(p, p));
  }

  /** The polynomial the source keeps in `data` and changes in place. */
  class MultiPolynomial {
    var data: Entries

    ghost predicate Valid()
      reads this
    {
      Keyed(data)
    }

    constructor ()
      ensures data == [] && Valid()
    {
      data := [];
    }

    /** `cleanup`: erases, in place, every entry below 1e-9 in size. */
    method Cleanup()
      modifies this
      ensures data == Cleaned(old(data))
      ensures old(Valid()) ==> Valid()
    {
      var d, i := data, 0;
      ghost var target := Cleaned(data);
      while i < |d|
        invariant i <= |d|
        invariant d[..i] + Cleaned(d[i..]) == target
        decreases |d| - i
      {
        if Abs(d[i].coeff) < Tiny {
          CleanupDrop(d, i);
          d := d[..i] + d[i + 1..];
        } else {
          CleanupKeep(d, i);
          i := i + 1;
        }
      }
      assert Cleaned(d[i..]) == [] && d[..i] == d;
      data := d;
      if old(Valid()) {
        CleanedKeyed(old(data));
      }
    }

    /** `add`: adds every entry of `other` in place, then cleans up. */
    method Add(other: Entries)
      modifies this
      ensures data == Plus(old(data), other)
      ensures old(Valid()) ==> Valid()
    {
      AccumulateLoop(other, false);
      Cleanup();
    }

    /** `subtract`: subtracts every entry of `other` in place, then cleans up. */
    method Subtract(other: Entries)
      modifies this
      ensures data == Minus(old(data), other)
      ensures old(Valid()) ==> Valid()
    {
      AccumulateLoop(other, true);
      Cleanup();
    }

    method AccumulateLoop(other: Entries, negate: bool)
      modifies this
      ensures data == Accumulate(old(data), other, negate)
    {
      var i := 0;
      while i < |other|
        invariant i <= |other|
        invariant Accumulate(data, other[i..], negate) == Accumulate(old(data), other, negate)
      {
        assert other[i..][0] == other[i] && other[i..][1..] == other[i + 1..];
        data := AddTo(data, other[i].key, Signed(other[i].coeff, negate));
        i := i + 1;
      }
    }
  }

  // ------------------------------------------------------------------
  // Products, powers, derivatives, variables, values
  // ------------------------------------------------------------------

  /** The key of a product term: exponents add.  As written an exponent that
      adds up to 0 stays in the key; corrected, it is erased. */
  function Combine(a: TermKey, b: TermKey, fixed: bool): TermKey {
    map v | v in a.Keys + b.Keys && (!fixed || Exp(a, v) + Exp(b, v) != 0) :: Exp(a, v) + Exp(b, v)
  }

  /** `multiply` adds the exponent maps of the two keys, in both versions. */
  lemma CombineExponents(a: TermKey, b: TermKey, fixed: bool)
    ensures forall v :: Exp(Combine(a, b, fixed), v) == Exp(a, v) + Exp(b, v)
  {
  }

  /** The corrected product key carries no exponent 0. */
  lemma CombineZeroFree(a: TermKey, b: TermKey)
    ensures forall v :: v in Combine(a, b, true) ==> Combine(a, b, true)[v] != 0
  {
  }

  /** A key with no exponent 0 is unchanged by the empty key. */
  lemma CombineUnit(b: TermKey, fixed: bool)
    requires fixed ==> forall v :: v in b ==> b[v] != 0
    ensures Combine(map[], b, fixed) == b
  {
    var r := Combine(map[], b, fixed);
    assert r.Keys == b.Keys;
  }

  /** The product of two coefficients. */
  function Times(a: real, b: real): real {
    a * b
  }

  /** The inner loop of `multiply` for one term `t` of the left factor. */
  function MulRow(acc: Entries, t: Term, q: Entries, fixed: bool): (r: Entries)
    ensures Keyed(acc) ==> Keyed(r)
    decreases |q|
  {
    if |q| == 0 then acc
    else MulRow(AddTo(acc, Combine(t.key, q[0].key, fixed), Times(t.coeff, q[0].coeff)), t, q[1..], fixed)
  }

  /** The outer loop of `multiply`. */
  function MulAll(acc: Entries, p: Entries, q: Entries, fixed: bool): (r: Entries)
    ensures Keyed(acc) ==> Keyed(r)
    decreases |p|
  {
    if |p| == 0 then acc
    else MulAll(MulRow(acc, p[0], q, fixed), p[1..], q, fixed)
  }

  /** `multiply`: every pair of terms, then `cleanup`. */
  function Product(p: Entries, q: Entries, fixed: bool): (r: Entries)
    ensures Keyed(r) && Clean(r)
  {
    CleanedSpec(MulAll([], p, q, fixed));
    Cleaned(MulAll([], p, q, fixed))
  }

  /** The textbook coefficient of `k` in a product, for one left term. */
  function RowSum(t: Term, q: Entries, k: TermKey, fixed: bool): real
    decreases |q|
  {
    if |q| == 0 then 0.0 else Share(t, q[0], k, fixed) + RowSum(t, q[1..], k, fixed)
  }

  /** What the pair of terms `t`, `u` adds to the coefficient of `k`. */
  function Share(t: Term, u: Term, k: TermKey, fixed: bool): real {
    if Combine(t.key, u.key, fixed) == k then Times(t.coeff, u.coeff) else 0.0
  }

  /** The textbook coefficient of `k` in the product of `p` and `q`: the
      sum of c1 * c2 over the pairs of terms whose keys combine into `k`. */
  function PairSum(p: Entries, q: Entries, k: TermKey, fixed: bool): real
    decreases |p|
  {
    if |p| == 0 then 0.0 else RowSum(p[0], q, k, fixed) + PairSum(p[1..], q, k, fixed)
  }

  lemma {:induction false} MulRowCoeff(acc: Entries, t: Term, q: Entries, k: TermKey, fixed: bool)
    ensures Coeff(MulRow(acc, t, q, fixed), k) == Coeff(acc, k) + RowSum(t, q, k, fixed)
    decreases |q|
  {
    if |q| > 0 {
      var key := Combine(t.key, q[0].key, fixed);
      var c := Times(t.coeff, q[0].coeff);
      MulRowCoeff(AddTo(acc, key, c), t, q[1..], k, fixed);
      ShareIs(t, q[0], k, fixed);
      StepCoeff(acc, key, c, k, Share(t, q[0], k, fixed));
    }
  }

  lemma {:induction false} MulAllCoeff(acc: Entries, p: Entries, q: Entries, k: TermKey, fixed: bool)
    ensures Coeff(MulAll(acc, p, q, fixed), k) == Coeff(acc, k) + PairSum(p, q, k, fixed)
    decreases |p|
  {
    if |p| > 0 {
      MulRowCoeff(acc, p[0], q, k, fixed);
      MulAllCoeff(MulRow(acc, p[0], q, fixed), p[1..], q, k, fixed);
    }
  }

  /** Every coefficient of `multiply`'s result is the sum over the pairs of
      terms whose exponents add up to its key, unless below 1e-9 in size. */
  lemma ProductCoeff(p: Entries, q: Entries, fixed: bool)
    ensures forall k :: Coeff(Product(p, q, fixed), k) == Clip(PairSum(p, q, k, fixed))
  {
    forall k
      ensures Coeff(Product(p, q, fixed), k) == Clip(PairSum(p, q, k, fixed))
    {
      CleanedSpec(MulAll([], p, q, fixed));
      MulAllCoeff([], p, q, k, fixed);
    }
  }

  /** The constant polynomial 1. */
  const One: Entries := [Term(map[], 1.0)]

  lemma {:induction false} MulRowByOne(acc: Entries, q: Entries, fixed: bool)
    requires Keyed(acc + q)
    requires fixed ==> ZeroFree(q)
    ensures MulRow(acc, One[0], q, fixed) == acc + q
    decreases |q|
  {
    if |q| > 0 {
      assert q[0] in q && q[0].key in Keys(q);
      CombineUnit(q[0].key, fixed);
      assert acc + q == (acc + [q[0]]) + q[1..];
      KeyedSplit(acc, q);
      AddToFresh(acc, q[0].key, Times(1.0, q[0].coeff));
      assert forall t :: t in q[1..] ==> t in q;
      MulRowByOne(acc + [q[0]], q[1..], fixed);
    } else {
      assert acc + q == acc;
    }
  }

  lemma KeyedSplit(acc: Entries, q: Entries)
    requires Keyed(acc + q) && |q| > 0
    ensures q[0].key !in Keys(acc)
  {
    forall t | t in acc
      ensures t.key != q[0].key
    {
      var i :| 0 <= i < |acc| && acc[i] == t;
      assert (acc + q)[i] == t && (acc + q)[|acc|] == q[0];
    }
  }

  /** 1 times a clean polynomial is that polynomial, entry for entry
      (corrected: when its keys hold no exponent 0). */
  lemma OneTimes(q: Entries, fixed: bool)
    requires Keyed(q) && Clean(q)
    requires fixed ==> ZeroFree(q)
    ensures Product(One, q, fixed) == q
  {
    assert [] + q == q;
    MulRowByOne([], q, fixed);
    assert MulAll([], One, q, fixed) == MulAll(MulRow([], One[0], q, fixed), [], q, fixed);
    CleanedSpec(q);
  }

  /** The power loop of `normalize`: `exp` products with the base, from 1. */
  function Power(base: Entries, exp: nat, fixed: bool): (r: Entries)
    ensures Keyed(r) && Clean(r)
  {
    if exp == 0 then One else Product(Power(base, exp - 1, fixed), base, fixed)
  }

  /** The first power of a clean polynomial is itself. */
  lemma PowerOne(base: Entries, fixed: bool)
    requires Keyed(base) && Clean(base)
    requires fixed ==> ZeroFree(base)
    ensures Power(base, 1, fixed) == base
  {
    OneTimes(base, fixed);
  }

  /** `for (i = 0; i < exp; i++) res = res.multiply(L)`. */
  method PowerLoop(base: Entries, exp: nat, fixed: bool) returns (res: Entries)
    ensures res == Power(base, exp, fixed)
  {
    res := One;
    var i := 0;
    while i < exp
      invariant i <= exp && res == Power(base, i, fixed)
    {
      res := Product(res, base, fixed);
      i := i + 1;
    }
  }

  /** The key of a derivative term: the exponent of `v` drops by one, and the
      variable is erased when it reaches 0. */
  function Lower(k: TermKey, v: string): TermKey
    requires v in k
  {
    if k[v] == 1 then k - {v} else k[v := k[v] - 1]
  }

  /** Whether `derivative` keeps a term: `v` occurs with a positive exponent. */
  predicate Depends(k: TermKey, v: string) {
    v in k && k[v] > 0
  }

  /** The loop of `derivative`. */
  function DerivFrom(acc: Entries, p: Entries, v: string): (r: Entries)
    ensures Keyed(acc) ==> Keyed(r)
    decreases |p|
  {
    if |p| == 0 then acc
    else
      var next := if Depends(p[0].key, v) then AddTo(acc, Lower(p[0].key, v), p[0].coeff * p[0].key[v] as real) else acc;
      DerivFrom(next, p[1..], v)
  }

  /** `derivative`: no `cleanup` follows it. */
  function Derivative(p: Entries, v: string): (r: Entries)
    ensures Keyed(r)
  {
    DerivFrom([], p, v)
  }

  /** The sum of coeff * exponent over the terms whose lowered key is `m`. */
  function SlopeSum(p: Entries, v: string, m: TermKey): real
    decreases |p|
  {
    if |p| == 0 then 0.0
    else
      var here := if Depends(p[0].key, v) && Lower(p[0].key, v) == m then p[0].coeff * p[0].key[v] as real else 0.0;
      here + SlopeSum(p[1..], v, m)
  }

  lemma {:induction false} DerivFromCoeff(acc: Entries, p: Entries, v: string, m: TermKey)
    ensures Coeff(DerivFrom(acc, p, v), m) == Coeff(acc, m) + SlopeSum(p, v, m)
    decreases |p|
  {
    if |p| > 0 {
      var next := if Depends(p[0].key, v) then AddTo(acc, Lower(p[0].key, v), p[0].coeff * p[0].key[v] as real) else acc;
      DerivFromCoeff(next, p[1..], v, m);
    }
  }

  /** Lowering is one-to-one on the keys where `v` has a positive exponent. */
  lemma LowerInjective(a: TermKey, b: TermKey, v: string)
    requires Depends(a, v) && Depends(b, v) && Lower(a, v) == Lower(b, v)
    ensures a == b
  {
    var la := Lower(a, v);
    assert a[v] == b[v] by {
      if a[v] == 1 {
        assert v !in la;
      } else {
        assert la[v] == a[v] - 1;
      }
    }
    assert a.Keys == b.Keys by {
      forall u
        ensures u in a <==> u in b
      {
        if u != v {
          assert u in a <==> u in la;
        }
      }
    }
    forall u | u in a
      ensures a[u] == b[u]
    {
      if u != v {
        assert la[u] == a[u];
      }
    }
  }

  lemma {:induction false} SlopeSumAt(p: Entries, v: string, k: TermKey)
    requires Keyed(p) && Depends(k, v)
    ensures SlopeSum(p, v, Lower(k, v)) == Coeff(p, k) * k[v] as real
    decreases |p|
  {
    if |p| > 0 {
      KeyedTail(p);
      SlopeSumAt(p[1..], v, k);
      if p[0].key == k {
        CoeffAbsent(p[1..], k);
      }
      if p[0].key != k && Depends(p[0].key, v) && Lower(p[0].key, v) == Lower(k, v) {
        LowerInjective(p[0].key, k, v);
      }
    }
  }

  /** `derivative` with respect to `v`: the term with key k, where v has
      exponent e > 0, gives the term with v lowered to e - 1 (erased at 0)
      and coefficient multiplied by e. */
  lemma DerivativeCoeff(p: Entries, v: string, k: TermKey)
    requires Keyed(p) && Depends(k, v)
    ensures Coeff(Derivative(p, v), Lower(k, v)) == Coeff(p, k) * k[v] as real
  {
    DerivFromCoeff([], p, v, Lower(k, v));
    SlopeSumAt(p, v, k);
  }

  /** Terms that do not depend on `v` contribute nothing. */
  lemma {:induction false} DerivativeDropsOthers(acc: Entries, p: Entries, v: string)
    requires forall t :: t in p ==> !Depends(t.key, v)
    ensures DerivFrom(acc, p, v) == acc
    decreases |p|
  {
    if |p| > 0 {
      assert p[0] in p;
      assert forall t :: t in p[1..] ==> t in p;
      DerivativeDropsOthers(acc, p[1..], v);
    }
  }

  /** `getVariables`: every variable named in some key. */
  function Variables(p: Entries): set<string> {
    set t, v | t in p && v in t.key :: v
  }

  /** No variables iff every key is the empty map. */
  lemma VariablesEmpty(p: Entries)
    ensures Variables(p) == {} <==> forall t :: t in p ==> t.key == map[]
  {
    if Variables(p) == {} {
      forall t | t in p
        ensures t.key == map[]
      {
        assert forall v :: v in t.key ==> v in Variables(p);
        assert t.key.Keys == {};
      }
    }
    if forall t :: t in p ==> t.key == map[] {
      assert forall v :: v !in Variables(p);
    }
  }

  /** Whether `evaluate({})` keeps a term: no variable has a positive exponent. */
  predicate Inert(k: TermKey) {
    forall v :: v in k ==> k[v] <= 0
  }

  /** `evaluate({})`: a term with an unassigned variable of positive
      exponent counts 0, any other term its coefficient. */
  function EvaluateUnassigned(p: Entries): real
    decreases |p|
  {
    if |p| == 0 then 0.0
    else (if Inert(p[0].key) then p[0].coeff else 0.0) + EvaluateUnassigned(p[1..])
  }

  /** A polynomial without variables evaluates to its constant term. */
  lemma ConstantValue(p: Entries)
    requires Keyed(p) && Variables(p) == {}
    ensures EvaluateUnassigned(p) == Coeff(p, map[])
  {
    VariablesEmpty(p);
    assert |p| > 1 ==> p[0] in p && p[1] in p && p[0].key != p[1].key;
    assert |p| == 1 ==> p[0] in p;
  }

  /** `coeff /= div` on every entry. */
  function Scaled(p: Entries, d: real): (r: Entries)
    requires d != 0.0
    ensures |r| == |p| && forall i :: 0 <= i < |p| ==> r[i] == Term(p[i].key, p[i].coeff / d)
    ensures Keyed(p) ==> Keyed(r)
  {
    if |p| == 0 then [] else [Term(p[0].key, p[0].coeff / d)] + Scaled(p[1..], d)
  }

  /** The key of a quotient term: the divisor's exponents are subtracted,
      and each of its variables whose exponent reaches 0 is erased. */
  function Shift(k: TermKey, mk: TermKey): TermKey {
    map v | v in k.Keys + mk.Keys && (v !in mk || Exp(k, v) - mk[v] != 0) :: Exp(k, v) - Exp(mk, v)
  }

  /** Dividing subtracts the divisor's exponents. */
  lemma ShiftExponents(k: TermKey, mk: TermKey)
    ensures forall v :: Exp(Shift(k, mk), v) == Exp(k, v) - Exp(mk, v)
  {
  }

  /** Multiplying back by the divisor's key restores every exponent. */
  lemma ShiftUndone(k: TermKey, mk: TermKey, fixed: bool)
    ensures forall v :: Exp(Combine(Shift(k, mk), mk, fixed), v) == Exp(k, v)
  {
    ShiftExponents(k, mk);
    CombineExponents(Shift(k, mk), mk, fixed);
  }

  /** The loop of `divideByMonomial`. */
  function DivFrom(acc: Entries, p: Entries, mk: TermKey, mc: real): (r: Entries)
    requires mc != 0.0
    ensures Keyed(acc) ==> Keyed(r)
    decreases |p|
  {
    if |p| == 0 then acc
    else DivFrom(AddTo(acc, Shift(p[0].key, mk), p[0].coeff / mc), p[1..], mk, mc)
  }

  /** `divideByMonomial`: empty for a divisor below 1e-12 in size. */
  function DivideByMonomial(p: Entries, mk: TermKey, mc: real): (r: Entries)
    ensures Keyed(r) && Clean(r)
  {
    if Abs(mc) < TinyDivisor then [] else CleanedSpec(DivFrom([], p, mk, mc)); Cleaned(DivFrom([], p, mk, mc))
  }

  /** The sum of coeff / mc over the terms whose shifted key is `m`. */
  function QuotientSum(p: Entries, mk: TermKey, mc: real, m: TermKey): real
    requires mc != 0.0
    decreases |p|
  {
    if |p| == 0 then 0.0
    else (if Shift(p[0].key, mk) == m then p[0].coeff / mc else 0.0) + QuotientSum(p[1..], mk, mc, m)
  }

  lemma {:induction false} DivFromCoeff(acc: Entries, p: Entries, mk: TermKey, mc: real, m: TermKey)
    requires mc != 0.0
    ensures Coeff(DivFrom(acc, p, mk, mc), m) == Coeff(acc, m) + QuotientSum(p, mk, mc, m)
    decreases |p|
  {
    if |p| > 0 {
      DivFromCoeff(AddTo(acc, Shift(p[0].key, mk), p[0].coeff / mc), p[1..], mk, mc, m);
    }
  }

  /** Every coefficient of the quotient is the sum of coeff / mc over the
      terms whose key, less the divisor's exponents, is its key. */
  lemma DivideCoeff(p: Entries, mk: TermKey, mc: real)
    requires Abs(mc) >= TinyDivisor
    ensures forall m :: Coeff(DivideByMonomial(p, mk, mc), m) == Clip(QuotientSum(p, mk, mc, m))
  {
    forall m
      ensures Coeff(DivideByMonomial(p, mk, mc), m) == Clip(QuotientSum(p, mk, mc, m))
    {
      CleanedSpec(DivFrom([], p, mk, mc));
      DivFromCoeff([], p, mk, mc, m);
    }
  }

  // ------------------------------------------------------------------
  // Text: implicit multiplication and parentheses
  // ------------------------------------------------------------------

  /** `isalpha` in the C locale. */
  predicate IsAlpha(c: char) {
    'a' <= c <= 'z' || 'A' <= c <= 'Z'
  }

  /** Whether `preprocess` puts a '*' between the kept character `p` and the
      next character `c`: after a digit, letter or ')' before a letter or
      '(', and after a letter or ')' before a digit. */
  predicate NeedsStar(p: char, c: char) {
    ((Calculator.IsDigit(p) || IsAlpha(p) || p == ')') && (IsAlpha(c) || c == '('))
    || ((IsAlpha(p) || p == ')') && Calculator.IsDigit(c))
  }

  /** What `preprocess` returns: white space dropped, '*' inserted. */
  function Preprocessed(s: string): string
    decreases |s|
  {
    if |s| == 0 then []
    else
      var r := Preprocessed(s[..|s| - 1]);
      var c := s[|s| - 1];
      if Calculator.IsSpace(c) then r
      else r + (if |r| > 0 && NeedsStar(r[|r| - 1], c) then "*" else "") + [c]
  }

  /** `preprocess`. */
  method Preprocess(s: string) returns (res: string)
    ensures res == Preprocessed(s)
  {
    res := "";
    var i := 0;
    while i < |s|
      invariant i <= |s| && res == Preprocessed(s[..i])
    {
      assert s[..i + 1][..i] == s[..i];
      if !Calculator.IsSpace(s[i]) {
        if i > 0 && |res| > 0 {
          if NeedsStar(res[|res| - 1], s[i]) {
            res := res + "*";
          }
        }
        res := res + [s[i]];
      }
      i := i + 1;
    }
    assert s[..i] == s;
  }

  /** The text without white space. */
  function Unspaced(s: string): string
    decreases |s|
  {
    if |s| == 0 then [] else Unspaced(s[..|s| - 1]) + (if Calculator.IsSpace(s[|s| - 1]) then [] else [s[|s| - 1]])
  }

  /** The text without '*'. */
  function Unstarred(s: string): string
    decreases |s|
  {
    if |s| == 0 then [] else Unstarred(s[..|s| - 1]) + (if s[|s| - 1] == '*' then [] else [s[|s| - 1]])
  }

  lemma {:induction false} UnstarredAppend(a: string, b: string)
    ensures Unstarred(a + b) == Unstarred(a) + Unstarred(b)
    decreases |b|
  {
    if |b| > 0 {
      assert (a + b)[..|a + b| - 1] == a + b[..|b| - 1];
      UnstarredAppend(a, b[..|b| - 1]);
    } else {
      assert a + b == a;
    }
  }

  /** `preprocess` only drops white space and inserts '*': dropping every
      '*' from its result gives the text without white space and '*'. */
  lemma {:induction false} PreprocessOnlyStars(s: string)
    ensures Unstarred(Preprocessed(s)) == Unstarred(Unspaced(s))
    decreases |s|
  {
    if |s| > 0 {
      var init := s[..|s| - 1];
      var c := s[|s| - 1];
      PreprocessOnlyStars(init);
      assert Unspaced(s) == Unspaced(init) + (if Calculator.IsSpace(c) then [] else [c]);
      if !Calculator.IsSpace(c) {
        var r := Preprocessed(init);
        var star: string := if |r| > 0 && NeedsStar(r[|r| - 1], c) then "*" else "";
        assert Preprocessed(s) == r + star + [c];
        UnstarredAppend(r + star, [c]);
        UnstarredAppend(r, star);
        UnstarredAppend(Unspaced(init), [c]);
        assert Unstarred(star) == [] by {
          if star == "*" {
            assert star[..0] == [];
          }
        }
        assert [c][..0] == [];
      } else {
        assert Preprocessed(s) == Preprocessed(init);
        assert Unspaced(s) == Unspaced(init) + [] == Unspaced(init);
      }
    }
  }

  /** No white space survives `preprocess`. */
  lemma {:induction false} PreprocessDropsSpaces(s: string)
    ensures forall k :: 0 <= k < |Preprocessed(s)| ==> !Calculator.IsSpace(Preprocessed(s)[k])
    decreases |s|
  {
    if |s| > 0 {
      PreprocessDropsSpaces(s[..|s| - 1]);
    }
  }

  /** `preprocess` on one more character `c` after the text `s`. */
  lemma PreprocessedSnoc(s: string, c: char)
    ensures var r := Preprocessed(s);
      Preprocessed(s + [c]) ==
        if Calculator.IsSpace(c) then r
        else r + (if |r| > 0 && NeedsStar(r[|r| - 1], c) then "*" else "") + [c]
  {
    assert (s + [c])[..|s + [c]| - 1] == s;
  }

  lemma PreprocessedOne(c: char)
    requires !Calculator.IsSpace(c)
    ensures Preprocessed([c]) == [c]
  {
    PreprocessedSnoc([], c);
    assert [] + [c] == [c];
  }

  /** A digit before a letter gets a '*': "2x" becomes "2*x". */
  lemma PreprocessDigitLetter()
    ensures Preprocessed("2x") == "2*x"
  {
    PreprocessedOne('2');
    PreprocessedSnoc("2", 'x');
    assert "2" + ['x'] == "2x";
  }

  /** A letter before a digit gets a '*': "x2" becomes "x*2". */
  lemma PreprocessLetterDigit()
    ensures Preprocessed("x2") == "x*2"
  {
    PreprocessedOne('x');
    PreprocessedSnoc("x", '2');
    assert "x" + ['2'] == "x2";
  }

  /** Adjacent parentheses get a '*': ")(" becomes ")*(". */
  lemma PreprocessCloseOpen()
    ensures Preprocessed(")(") == ")*("
  {
    PreprocessedOne(')');
    PreprocessedSnoc(")", '(');
    assert ")" + ['('] == ")(";
  }

  lemma PreprocessTwoSpaceOpen()
    ensures Preprocessed("2 (") == "2*("
  {
    PreprocessedOne('2');
    PreprocessedSnoc("2", ' ');
    assert "2" + [' '] == "2 ";
    assert Preprocessed("2 ") == "2";
    PreprocessedSnoc("2 ", '(');
    assert "2 " + ['('] == "2 (";
  }

  /** White space is dropped before the check: "2 (x)" becomes "2*(x)". */
  lemma PreprocessSpaceParenthesis()
    ensures Preprocessed("2 (x)") == "2*(x)"
  {
    PreprocessTwoSpaceOpen();
    PreprocessedSnoc("2 (", 'x');
    assert "2 (" + ['x'] == "2 (x";
    assert Preprocessed("2 (x") == "2*(x";
    PreprocessedSnoc("2 (x", ')');
    assert "2 (x" + [')'] == "2 (x)";
  }

  /** Two digits are one number and get no '*'. */
  lemma PreprocessDigits()
    ensures Preprocessed("12") == "12"
  {
    PreprocessedOne('1');
    PreprocessedSnoc("1", '2');
    assert !NeedsStar('1', '2');
    assert "1" + "" + ['2'] == "1" + ['2'] == "12";
  }

  /** How far the parentheses of `s` are open: '(' minus ')'. */
  function Depth(s: string): int
    decreases |s|
  {
    if |s| == 0 then 0
    else Depth(s[..|s| - 1]) + (if s[|s| - 1] == '(' then 1 else if s[|s| - 1] == ')' then -1 else 0)
  }

  /** Every ')' closes an earlier '(' and none is left open. */
  predicate Balanced(s: string) {
    Depth(s) == 0 && forall k :: 0 <= k <= |s| ==> Depth(s[..k]) >= 0
  }

  /** `checkParentheses`: true exactly for balanced text. */
  method CheckParentheses(s: string) returns (ok: bool)
    ensures ok <==> Balanced(s)
  {
    var balance := 0;
    var i := 0;
    while i < |s|
      invariant i <= |s| && balance == Depth(s[..i])
      invariant forall k :: 0 <= k <= i ==> Depth(s[..k]) >= 0
    {
      assert s[..i + 1][..i] == s[..i];
      if s[i] == '(' {
        balance := balance + 1;
      } else if s[i] == ')' {
        balance := balance - 1;
        if balance < 0 {
          assert Depth(s[..i + 1]) < 0;
          return false;
        }
      }
      i := i + 1;
    }
    assert s[..i] == s;
    return balance == 0;
  }

  // ------------------------------------------------------------------
  // Trees and the two-stack pass of `buildTree`
  // ------------------------------------------------------------------

  /** `shared_ptr<Node>`: `Nil` is the null pointer. */
  datatype Tree = Nil | Num(val: real) | Var(name: string) | Op(op: char, unary: bool, left: Tree, right: Tree)

  /** The table `prec`; a character missing from it reads 0. */
  function Prec(c: char): int {
    if c == '+' || c == '-' then 1
    else if c == '*' || c == '/' then 2
    else if c == '^' then 3
    else if c == '~' then 4
    else 0
  }

  /** The two stacks, their tops at the ends of the sequences. */
  datatype Stacks = Stacks(nodes: seq<Tree>, ops: seq<char>)

  /** `process` when both stacks are non-empty: the top operator takes the
      top node as its right operand and, unless it is '~', the next node as
      its left operand when there is one. */
  function Reduce(st: Stacks): (r: Stacks)
    requires |st.ops| > 0 && |st.nodes| > 0
    ensures r.ops == st.ops[..|st.ops| - 1] && 0 < |r.nodes| <= |st.nodes|
  {
    var op := st.ops[|st.ops| - 1];
    var right := st.nodes[|st.nodes| - 1];
    var rest := st.nodes[..|st.nodes| - 1];
    if op != '~' && |rest| > 0 then Stacks(rest[..|rest| - 1] + [Op(op, false, rest[|rest| - 1], right)], st.ops[..|st.ops| - 1])
    else Stacks(rest + [Op(op, op == '~', Nil, right)], st.ops[..|st.ops| - 1])
  }

  /** Which of the three `while (...) process();` loops runs. */
  datatype Until = ToParen | Below(c: char) | ToBottom

  /** The loop condition, given a non-empty operator stack with top `top`:
      ')' reduces down to '('; an operator reduces what binds tighter, or as
      tight unless it is the right-associative '^' or '~'; the end reduces all. */
  predicate Continues(top: char, u: Until) {
    match u
    case ToParen => top != '('
    case Below(c) => top != '(' && (Prec(top) > Prec(c) || (Prec(top) == Prec(c) && c != '^' && c != '~'))
    case ToBottom => true
  }

  /** One of those loops.  When no node is left, `process` returns without
      popping: as written the loop then never ends (`None`); corrected, the
      operator is dropped. */
  function Drain(st: Stacks, u: Until, fixed: bool): (r: Option<Stacks>)
    ensures fixed ==> r.Some?
    decreases |st.ops|
  {
    if |st.ops| == 0 || !Continues(st.ops[|st.ops| - 1], u) then Some(st)
    else if |st.nodes| == 0 then
      if fixed then Drain(Stacks(st.nodes, st.ops[..|st.ops| - 1]), u, fixed) else None
    else Drain(Reduce(st), u, fixed)
  }

  /** The three ends of `buildTree`: a tree, the exception `stod` throws
      on a run of dots, or a loop that never ends. */
  datatype Built = Built(tree: Tree) | Threw | Spins

  /** The index just past the run of letters starting at i. */
  function AlphaEnd(s: string, i: nat): (j: nat)
    requires i <= |s|
    ensures i <= j <= |s| && (j < |s| ==> !IsAlpha(s[j]))
    ensures forall k :: i <= k < j ==> IsAlpha(s[k])
    decreases |s| - i
  {
    if i < |s| && IsAlpha(s[i]) then AlphaEnd(s, i + 1) else i
  }

  /** The stacks after ')' once the operators above '(' are reduced. */
  function PopParen(d: Stacks): Stacks {
    if |d.ops| > 0 && d.ops[|d.ops| - 1] == '(' then Stacks(d.nodes, d.ops[..|d.ops| - 1]) else d
  }

  /** What one pass of the loop of `buildTree` does: stop with a result, or
      go on from a later index with new stacks and a new `unary` flag. */
  datatype Move = Stop(result: Built) | Go(next: nat, st: Stacks, unary: bool)

  /** One pass of the loop of `buildTree` at index `i`. */
  function ScanMove(s: string, i: nat, st: Stacks, unary: bool, fixed: bool): (r: Move)
    requires i < |s|
    ensures r.Go? ==> i < r.next <= |s|
  {
    if Calculator.IsNumberChar(s[i]) then
      var j := Calculator.NumberEnd(s, i);
      match Calculator.Stod(s[i..j])
      case None => Stop(Threw)
      case Some(v) => Go(j, Stacks(st.nodes + [Num(v)], st.ops), false)
    else if IsAlpha(s[i]) then
      var j := AlphaEnd(s, i);
      Go(j, Stacks(st.nodes + [Var(s[i..j])], st.ops), false)
    else if s[i] == '(' then
      Go(i + 1, Stacks(st.nodes, st.ops + ['(']), true)
    else if s[i] == ')' then
      match Drain(st, ToParen, fixed)
      case None => Stop(Spins)
      case Some(d) => Go(i + 1, PopParen(d), false)
    else
      var o := if s[i] == '-' && unary then '~' else s[i];
      match Drain(st, Below(o), fixed)
      case None => Stop(Spins)
      case Some(d) => Go(i + 1, Stacks(d.nodes, d.ops + [o]), true)
  }

  /** The final reduction of `buildTree`: the last node left is the tree. */
  function Finish(st: Stacks, fixed: bool): Built {
    match Drain(st, ToBottom, fixed)
    case None => Spins
    case Some(e) => Built(if |e.nodes| == 0 then Nil else e.nodes[|e.nodes| - 1])
  }

  /** The loop of `buildTree` from index `i`, then the final reduction. */
  function Scan(s: string, i: nat, st: Stacks, unary: bool, fixed: bool): Built
    requires i <= |s|
    decreases |s| - i
  {
    if i == |s| then Finish(st, fixed)
    else
      match ScanMove(s, i, st, unary, fixed)
      case Stop(b) => b
      case Go(j, next, u) => Scan(s, j, next, u, fixed)
  }

  /** The '(' at the front of `s` is closed by its last character. */
  predicate Encloses(s: string) {
    forall k :: 1 <= k < |s| ==> Depth(s[..k]) > 0
  }

  /** `buildTree`: as written a text that starts with '(' and ends with ')'
      loses both, even when they do not match each other; corrected, only a
      pair that encloses the whole text is removed. */
  function BuildTree(s: string, fixed: bool): Built
    decreases |s|
  {
    if |s| == 0 then Built(Nil)
    else if s[0] == '(' && s[|s| - 1] == ')' && (!fixed || Encloses(s)) then BuildTree(s[1..|s| - 1], fixed)
    else Scan(s, 0, Stacks([], []), true, fixed)
  }

  /** The `unary` flag is up after '(' and after an operator and down after
      an operand or ')'; a '-' read while it is up goes on the stack as the
      unary '~', otherwise as subtraction. */
  lemma UnaryFlag(s: string, i: nat, st: Stacks, unary: bool, fixed: bool)
    requires i < |s|
    ensures var r := ScanMove(s, i, st, unary, fixed);
      r.Go? ==> (r.unary <==> !Calculator.IsNumberChar(s[i]) && !IsAlpha(s[i]) && s[i] != ')')
    ensures var r := ScanMove(s, i, st, unary, fixed);
      r.Go? && s[i] == '-' ==> |r.st.ops| > 0 && r.st.ops[|r.st.ops| - 1] == (if unary then '~' else '-')
  {
  }

  /** '^' and '~' are right-associative: reading one does not reduce an
      operator of the same precedence on the stack; every other operator
      reduces it first, which makes + - * / left-associative. */
  lemma Associativity(st: Stacks, c: char, fixed: bool)
    requires |st.ops| > 0 && |st.nodes| > 0
    requires st.ops[|st.ops| - 1] != '(' && Prec(st.ops[|st.ops| - 1]) == Prec(c)
    ensures c == '^' || c == '~' ==> Drain(st, Below(c), fixed) == Some(st)
    ensures c != '^' && c != '~' ==> Drain(st, Below(c), fixed) == Drain(Reduce(st), Below(c), fixed)
  {
  }

  /** A `while (...) process();` loop. */
  method DrainLoop(st: Stacks, u: Until, fixed: bool) returns (r: Option<Stacks>)
    ensures r == Drain(st, u, fixed)
  {
    var cur := st;
    while |cur.ops| > 0 && Continues(cur.ops[|cur.ops| - 1], u)
      invariant Drain(cur, u, fixed) == Drain(st, u, fixed)
      decreases |cur.ops|
    {
      if |cur.nodes| == 0 {
        if !fixed {
          return None;
        }
        cur := Stacks(cur.nodes, cur.ops[..|cur.ops| - 1]);
      } else {
        cur := Reduce(cur);
      }
    }
    return Some(cur);
  }

  /** The inner loop of `buildTree` that collects a number. */
  method NumberRun(s: string, i: nat) returns (j: nat)
    requires i <= |s|
    ensures j == Calculator.NumberEnd(s, i)
  {
    j := i;
    while j < |s| && Calculator.IsNumberChar(s[j])
      invariant i <= j <= |s| && Calculator.NumberEnd(s, j) == Calculator.NumberEnd(s, i)
    {
      j := j + 1;
    }
  }

  /** The inner loop of `buildTree` that collects a name. */
  method AlphaRun(s: string, i: nat) returns (j: nat)
    requires i <= |s|
    ensures j == AlphaEnd(s, i)
  {
    j := i;
    while j < |s| && IsAlpha(s[j])
      invariant i <= j <= |s| && AlphaEnd(s, j) == AlphaEnd(s, i)
    {
      j := j + 1;
    }
  }

  /** `buildTree`. */
  method BuildTreeLoop(s: string, fixed: bool) returns (b: Built)
    ensures b == BuildTree(s, fixed)
    decreases |s|
  {
    if |s| == 0 {
      return Built(Nil);
    }
    if s[0] == '(' && s[|s| - 1] == ')' && (!fixed || Encloses(s)) {
      b := BuildTreeLoop(s[1..|s| - 1], fixed);
      return;
    }
    b := ScanLoop(s, fixed);
  }

  /** The loop of `buildTree` over the characters of `s`. */
  method ScanLoop(s: string, fixed: bool) returns (b: Built)
    ensures b == Scan(s, 0, Stacks([], []), true, fixed)
  {
    var st := Stacks([], []);
    var unary := true;
    var i := 0;
    while i < |s|
      invariant i <= |s| && Scan(s, i, st, unary, fixed) == Scan(s, 0, Stacks([], []), true, fixed)
      decreases |s| - i
    {
      var m := ScanPass(s, i, st, unary, fixed);
      if m.Stop? {
        return m.result;
      }
      i, st, unary := m.next, m.st, m.unary;
    }
    var e := DrainLoop(st, ToBottom, fixed);
    if e.None? {
      return Spins;
    }
    b := Built(if |e.value.nodes| == 0 then Nil else e.value.nodes[|e.value.nodes| - 1]);
  }

  /** The body of that loop. */
  method ScanPass(s: string, i: nat, st: Stacks, unary: bool, fixed: bool) returns (m: Move)
    requires i < |s|
    ensures m == ScanMove(s, i, st, unary, fixed)
  {
    if Calculator.IsNumberChar(s[i]) {
      var j := NumberRun(s, i);
      var v := Calculator.Stod(s[i..j]);
      if v.None? {
        return Stop(Threw);
      }
      m := Go(j, Stacks(st.nodes + [Num(v.value)], st.ops), false);
    } else if IsAlpha(s[i]) {
      var j := AlphaRun(s, i);
      m := Go(j, Stacks(st.nodes + [Var(s[i..j])], st.ops), false);
    } else if s[i] == '(' {
      m := Go(i + 1, Stacks(st.nodes, st.ops + ['(']), true);
    } else if s[i] == ')' {
      var d := DrainLoop(st, ToParen, fixed);
      if d.None? {
        return Stop(Spins);
      }
      m := Go(i + 1, PopParen(d.value), false);
    } else {
      var o := if s[i] == '-' && unary then '~' else s[i];
      var d := DrainLoop(st, Below(o), fixed);
      if d.None? {
        return Stop(Spins);
      }
      m := Go(i + 1, Stacks(d.value.nodes, d.value.ops + [o]), true);
    }
  }

  /** Corrected, `buildTree` always ends. */
  lemma {:induction false} ScanEnds(s: string, i: nat, st: Stacks, unary: bool)
    requires i <= |s|
    ensures Scan(s, i, st, unary, true) != Spins
    decreases |s| - i
  {
    if i < |s| {
      ScanMoveEnds(s, i, st, unary);
      match ScanMove(s, i, st, unary, true)
      case Stop(_) =>
      case Go(j, next, u) => ScanEnds(s, j, next, u);
    }
  }

  /** Corrected, no single pass of the loop spins. */
  lemma ScanMoveEnds(s: string, i: nat, st: Stacks, unary: bool)
    requires i < |s|
    ensures ScanMove(s, i, st, unary, true) != Stop(Spins)
  {
  }

  lemma {:induction false} BuildTreeEnds(s: string)
    ensures BuildTree(s, true) != Spins
    decreases |s|
  {
    if |s| > 0 {
      if s[0] == '(' && s[|s| - 1] == ')' && Encloses(s) {
        BuildTreeEnds(s[1..|s| - 1]);
      } else {
        ScanEnds(s, 0, Stacks([], []), true);
      }
    }
  }

  lemma {:induction false} DepthAppend(a: string, b: string)
    ensures Depth(a + b) == Depth(a) + Depth(b)
    decreases |b|
  {
    if |b| == 0 {
      assert a + b == a;
    } else {
      assert (a + b)[..|a + b| - 1] == a + b[..|b| - 1];
      DepthAppend(a, b[..|b| - 1]);
    }
  }

  /** Corrected, wrapping a balanced text in one more pair of parentheses
      builds the same tree. */
  lemma WrapBalanced(s: string)
    requires Balanced(s)
    ensures BuildTree("(" + s + ")", true) == BuildTree(s, true)
  {
    var w := "(" + s + ")";
    assert w[1..|w| - 1] == s;
    forall k | 1 <= k < |w|
      ensures Depth(w[..k]) > 0
    {
      assert w[..k] == "(" + s[..k - 1];
      DepthAppend("(", s[..k - 1]);
      assert Depth("(") == 1 by {
        assert "("[..0] == [];
      }
    }
  }

  // ------------------------------------------------------------------
  // Normal forms
  // ------------------------------------------------------------------

  /** `hasVariables`: the tree holds a variable node. */
  predicate HasVariables(t: Tree) {
    match t
    case Nil => false
    case Num(_) => false
    case Var(_) => true
    case Op(_, _, l, r) => HasVariables(l) || HasVariables(r)
  }

  /** `llround`: the nearest integer, halves away from zero. */
  function Round(x: real): int {
    if x >= 0.0 then (x + 0.5).Floor else -((-x + 0.5).Floor)
  }

  /** The '/' case of `normalize`: by a constant, by a single term, or not
      at all (a polynomial divisor); a divisor that is 0 gives the empty map. */
  function Quotient(l: Entries, r: Entries): (p: Entries)
    requires Keyed(l)
    ensures Keyed(p) && Clean(p)
  {
    if Variables(r) == {} then
      var d := EvaluateUnassigned(r);
      if Abs(d) < Tiny then [] else CleanedSpec(Scaled(l, d)); Cleaned(Scaled(l, d))
    else if |r| == 1 then
      if Abs(r[0].coeff) < TinyDivisor then [] else DivideByMonomial(l, r[0].key, r[0].coeff)
    else []
  }

  /** The '^' case of `normalize`: the exponent is the right side evaluated
      with no variable assigned; one that is not within 1e-9 of a
      non-negative integer gives the empty map. */
  function Raise(l: Entries, r: Entries, fixed: bool): (p: Entries)
    ensures Keyed(p) && Clean(p)
  {
    var rv := EvaluateUnassigned(r);
    var e := Round(rv);
    if Abs(rv - e as real) > Tiny || e < 0 then [] else CleanedSpec(Power(l, e, fixed)); Cleaned(Power(l, e, fixed))
  }

  /** `normalize`: the polynomial a tree stands for.  Every result is a
      clean map. */
  function Normalize(t: Tree, fixed: bool): (p: Entries)
    ensures Keyed(p) && Clean(p)
    decreases t
  {
    match t
    case Nil => []
    case Num(v) => CleanedSpec([Term(map[], v)]); Cleaned([Term(map[], v)])
    case Var(x) => CleanedSpec([Term(map[x := 1], 1.0)]); Cleaned([Term(map[x := 1], 1.0)])
    case Op(op, unary, l, r) =>
      var rp := Normalize(r, fixed);
      if unary then Minus([], rp) else Apply(op, Normalize(l, fixed), rp, fixed)
  }

  /** A binary operator on the normal forms of its operands; an operator
      the table does not know gives the empty map. */
  function Apply(op: char, lp: Entries, rp: Entries, fixed: bool): (p: Entries)
    requires Keyed(lp)
    ensures Keyed(p) && Clean(p)
  {
    if op == '+' then Plus(lp, rp)
    else if op == '-' then Minus(lp, rp)
    else if op == '*' then Product(lp, rp, fixed)
    else if op == '/' then Quotient(lp, rp)
    else if op == '^' then Raise(lp, rp, fixed)
    else []
  }

  lemma CleanedClass(p: Entries, c: KeyClass)
    requires AllKeys(p, c)
    ensures AllKeys(Cleaned(p), c)
  {
    CleanedClean(p);
  }

  lemma AccumulateClass(d: Entries, q: Entries, negate: bool, c: KeyClass)
    requires AllKeys(d, c) && AllKeys(q, c)
    ensures AllKeys(Accumulate(d, q, negate), c)
  {
  }

  lemma CombineClass(a: TermKey, b: TermKey, fixed: bool, c: KeyClass)
    requires InClass(a, c) && InClass(b, c) && (c == NoZero ==> fixed)
    ensures InClass(Combine(a, b, fixed), c)
  {
    if c == Empty {
      assert Combine(a, b, fixed).Keys == {};
    }
  }

  lemma {:induction false} MulRowClass(acc: Entries, t: Term, q: Entries, fixed: bool, c: KeyClass)
    requires AllKeys(acc, c) && InClass(t.key, c) && AllKeys(q, c) && (c == NoZero ==> fixed)
    ensures AllKeys(MulRow(acc, t, q, fixed), c)
    decreases |q|
  {
    if |q| > 0 {
      assert q[0].key in Keys(q);
      assert forall u :: u in q[1..] ==> u in q;
      CombineClass(t.key, q[0].key, fixed, c);
      MulRowClass(AddTo(acc, Combine(t.key, q[0].key, fixed), Times(t.coeff, q[0].coeff)), t, q[1..], fixed, c);
    }
  }

  lemma {:induction false} MulAllClass(acc: Entries, p: Entries, q: Entries, fixed: bool, c: KeyClass)
    requires AllKeys(acc, c) && AllKeys(p, c) && AllKeys(q, c) && (c == NoZero ==> fixed)
    ensures AllKeys(MulAll(acc, p, q, fixed), c)
    decreases |p|
  {
    if |p| > 0 {
      assert p[0].key in Keys(p);
      assert forall u :: u in p[1..] ==> u in p;
      MulRowClass(acc, p[0], q, fixed, c);
      MulAllClass(MulRow(acc, p[0], q, fixed), p[1..], q, fixed, c);
    }
  }

  /** A product of polynomials of one class stays in it (corrected, for
      keys without exponent 0). */
  lemma ProductClass(p: Entries, q: Entries, fixed: bool, c: KeyClass)
    requires AllKeys(p, c) && AllKeys(q, c) && (c == NoZero ==> fixed)
    ensures AllKeys(Product(p, q, fixed), c)
  {
    MulAllClass([], p, q, fixed, c);
    CleanedClass(MulAll([], p, q, fixed), c);
  }

  lemma {:induction false} PowerClass(base: Entries, exp: nat, fixed: bool, c: KeyClass)
    requires AllKeys(base, c) && (c == NoZero ==> fixed)
    ensures AllKeys(Power(base, exp, fixed), c)
  {
    if exp == 0 {
      assert Keys(One) == {map[]};
    } else {
      PowerClass(base, exp - 1, fixed, c);
      ProductClass(Power(base, exp - 1, fixed), base, fixed, c);
    }
  }

  lemma ShiftClass(k: TermKey, mk: TermKey, c: KeyClass)
    requires InClass(k, c) && InClass(mk, c)
    ensures InClass(Shift(k, mk), c)
  {
    if c == Empty {
      assert Shift(k, mk).Keys == {};
    }
  }

  lemma {:induction false} DivFromClass(acc: Entries, p: Entries, mk: TermKey, mc: real, c: KeyClass)
    requires mc != 0.0
    requires AllKeys(acc, c) && AllKeys(p, c) && InClass(mk, c)
    ensures AllKeys(DivFrom(acc, p, mk, mc), c)
    decreases |p|
  {
    if |p| > 0 {
      assert p[0].key in Keys(p);
      assert forall u :: u in p[1..] ==> u in p;
      ShiftClass(p[0].key, mk, c);
      DivFromClass(AddTo(acc, Shift(p[0].key, mk), p[0].coeff / mc), p[1..], mk, mc, c);
    }
  }

  lemma ScaledKeys(p: Entries, d: real)
    requires d != 0.0
    ensures Keys(Scaled(p, d)) == Keys(p)
  {
    var r := Scaled(p, d);
    forall k | k in Keys(p)
      ensures k in Keys(r)
    {
      var t :| t in p && t.key == k;
      var i :| 0 <= i < |p| && p[i] == t;
      assert r[i] in r;
    }
    forall k | k in Keys(r)
      ensures k in Keys(p)
    {
      var t :| t in r && t.key == k;
      var i :| 0 <= i < |r| && r[i] == t;
      assert p[i] in p;
    }
  }

  /** Variables stay out of the normal form of a tree without variables,
      and, corrected, no key of a normal form holds an exponent 0. */
  lemma {:induction false} NormalizeClass(t: Tree, fixed: bool, c: KeyClass)
    requires c == NoZero ==> fixed
    requires c == Empty ==> !HasVariables(t)
    ensures AllKeys(Normalize(t, fixed), c)
    decreases t
  {
    match t
    case Nil =>
    case Num(v) =>
      assert Keys([Term(map[], v)]) == {map[]};
      CleanedClass([Term(map[], v)], c);
    case Var(x) =>
      assert Keys([Term(map[x := 1], 1.0)]) == {map[x := 1]};
      CleanedClass([Term(map[x := 1], 1.0)], c);
    case Op(op, unary, l, r) =>
      NormalizeClass(l, fixed, c);
      NormalizeClass(r, fixed, c);
      var lp := Normalize(l, fixed);
      var rp := Normalize(r, fixed);
      if unary {
        AccumulateClass([], rp, true, c);
        CleanedClass(Accumulate([], rp, true), c);
      } else {
        ApplyClass(op, lp, rp, fixed, c);
      }
  }

  /** A binary operator keeps the normal forms of its operands in their class. */
  lemma ApplyClass(op: char, lp: Entries, rp: Entries, fixed: bool, c: KeyClass)
    requires Keyed(lp) && AllKeys(lp, c) && AllKeys(rp, c) && (c == NoZero ==> fixed)
    ensures AllKeys(Apply(op, lp, rp, fixed), c)
  {
    if op == '+' {
      AccumulateClass(lp, rp, false, c);
      CleanedClass(Accumulate(lp, rp, false), c);
    } else if op == '-' {
      AccumulateClass(lp, rp, true, c);
      CleanedClass(Accumulate(lp, rp, true), c);
    } else if op == '*' {
      ProductClass(lp, rp, fixed, c);
    } else if op == '/' {
      QuotientClass(lp, rp, c);
    } else if op == '^' {
      var rv := EvaluateUnassigned(rp);
      var e := Round(rv);
      if !(Abs(rv - e as real) > Tiny || e < 0) {
        PowerClass(lp, e, fixed, c);
        CleanedClass(Power(lp, e, fixed), c);
      }
    }
  }

  lemma QuotientClass(l: Entries, r: Entries, c: KeyClass)
    requires Keyed(l) && AllKeys(l, c) && AllKeys(r, c)
    ensures AllKeys(Quotient(l, r), c)
  {
    if c == Empty {
      assert forall t :: t in r ==> t.key in Keys(r);
      VariablesEmpty(r);
    }
    if Variables(r) == {} {
      var d := EvaluateUnassigned(r);
      if Abs(d) >= Tiny {
        ScaledKeys(l, d);
        CleanedClass(Scaled(l, d), c);
      }
    } else if c == NoZero && |r| == 1 && Abs(r[0].coeff) >= TinyDivisor {
      assert r[0].key in Keys(r);
      DivFromClass([], l, r[0].key, r[0].coeff, c);
      CleanedClass(DivFrom([], l, r[0].key, r[0].coeff), c);
    }
  }

  lemma {:induction false} ScaledCoeff(p: Entries, d: real, k: TermKey)
    requires d != 0.0
    ensures Coeff(Scaled(p, d), k) == Coeff(p, k) / d
    decreases |p|
  {
    if |p| > 0 {
      assert Scaled(p, d)[1..] == Scaled(p[1..], d);
      ScaledCoeff(p[1..], d, k);
    }
  }

  /** A difference of a tree with itself normalises to the empty map, even
      when the tree holds variables. */
  lemma SelfDifference(a: Tree, fixed: bool)
    ensures Normalize(Op('-', false, a, a), fixed) == []
  {
    MinusSelf(Normalize(a, fixed));
  }

  /** A divisor that normalises to 0 gives the empty map. */
  lemma DivisionByZero(a: Tree, b: Tree, fixed: bool)
    requires Normalize(b, fixed) == []
    ensures Normalize(Op('/', false, a, b), fixed) == []
  {
  }

  /** A divisor without variables that is not 0 divides every coefficient. */
  lemma DivisionByConstant(a: Tree, b: Tree, fixed: bool)
    requires !HasVariables(b) && Normalize(b, fixed) != []
    ensures Coeff(Normalize(b, fixed), map[]) != 0.0
    ensures forall k ::
      Coeff(Normalize(Op('/', false, a, b), fixed), k) == Clip(Coeff(Normalize(a, fixed), k) / Coeff(Normalize(b, fixed), map[]))
  {
    var lp := Normalize(a, fixed);
    var rp := Normalize(b, fixed);
    NormalizeClass(b, fixed, Empty);
    ConstantDivisor(rp);
    assert Normalize(Op('/', false, a, b), fixed) == Quotient(lp, rp);
    forall k
      ensures Coeff(Quotient(lp, rp), k) == Clip(Coeff(lp, k) / Coeff(rp, map[]))
    {
      QuotientByConstant(lp, rp, k);
    }
  }

  /** A clean, non-empty constant normal form has no variable and a value
      that is its constant coefficient, at least 1e-9 in size. */
  lemma ConstantDivisor(rp: Entries)
    requires Keyed(rp) && Clean(rp) && rp != [] && AllKeys(rp, Empty)
    ensures Variables(rp) == {}
    ensures EvaluateUnassigned(rp) == Coeff(rp, map[]) && Abs(Coeff(rp, map[])) >= Tiny
  {
    assert forall t :: t in rp ==> t.key in Keys(rp);
    VariablesEmpty(rp);
    ConstantValue(rp);
    assert rp[0] in rp;
  }

  lemma QuotientByConstant(lp: Entries, rp: Entries, k: TermKey)
    requires Keyed(lp) && Variables(rp) == {}
    requires Abs(EvaluateUnassigned(rp)) >= Tiny
    ensures Coeff(Quotient(lp, rp), k) == Clip(Coeff(lp, k) / EvaluateUnassigned(rp))
  {
    var d := EvaluateUnassigned(rp);
    ScaledCoeff(lp, d, k);
    CleanedCoeff(Scaled(lp, d), k);
  }

  /** A divisor of more than one term with a variable is not supported:
      x + 1 gives the empty map. */
  lemma DivisionByPolynomial(a: Tree, fixed: bool)
    ensures Normalize(Op('/', false, a, Op('+', false, Var("x"), Num(1.0))), fixed) == []
  {
    var b := Op('+', false, Var("x"), Num(1.0));
    var sum := Normalize(b, fixed);
    XPlusOne(fixed);
    assert sum[0] in sum;
    assert "x" in Variables(sum);
    NormalizeBinary('/', a, b, fixed);
    QuotientByPolynomial(Normalize(a, fixed), sum);
  }

  /** Division by two or more terms, one with a variable, gives the empty map. */
  lemma QuotientByPolynomial(l: Entries, r: Entries)
    requires Keyed(l) && Variables(r) != {} && |r| != 1
    ensures Quotient(l, r) == []
  {
  }

  /** x + 1 normalises to its two terms. */
  lemma XPlusOne(fixed: bool)
    ensures Normalize(Op('+', false, Var("x"), Num(1.0)), fixed) == [Term(map["x" := 1], 1.0), Term(map[], 1.0)]
  {
    var x := [Term(map["x" := 1], 1.0)];
    var one := [Term(map[], 1.0)];
    CleanedClean(x);
    CleanedClean(one);
    assert Normalize(Var("x"), fixed) == x;
    assert Normalize(Num(1.0), fixed) == one;
    assert map["x" := 1] != map[] by {
      assert "x" in map["x" := 1];
    }
    AddToFresh(x, map[], 1.0);
    assert Accumulate(x, one, false) == x + one;
    CleanedClean(x + one);
    NormalizeBinary('+', Var("x"), Num(1.0), fixed);
  }

  lemma RoundWhole(n: int)
    ensures Round(n as real) == n
  {
    if n < 0 {
      assert ((-n) as real + 0.5).Floor == -n;
    }
  }

  /** A whole, non-negative exponent multiplies the base by itself. */
  lemma ExponentWhole(a: Tree, n: nat, fixed: bool)
    ensures Normalize(Op('^', false, a, Num(n as real)), fixed) == Power(Normalize(a, fixed), n, fixed)
  {
    NormalizeBinary('^', a, Num(n as real), fixed);
    WholeValue(n, fixed);
    RaiseWhole(Normalize(a, fixed), Normalize(Num(n as real), fixed), n, fixed);
  }

  /** A binary operator node normalises to the operator applied to the
      normal forms of its operands. */
  lemma NormalizeBinary(op: char, l: Tree, r: Tree, fixed: bool)
    ensures Normalize(Op(op, false, l, r), fixed) == Apply(op, Normalize(l, fixed), Normalize(r, fixed), fixed)
  {
  }

  lemma WholeValue(n: nat, fixed: bool)
    ensures EvaluateUnassigned(Normalize(Num(n as real), fixed)) == n as real
  {
    var rp := Normalize(Num(n as real), fixed);
    if n > 0 {
      CleanedClean([Term(map[], n as real)]);
      assert rp == [Term(map[], n as real)];
    } else {
      assert [Term(map[], 0.0)][1..] == [];
      assert rp == [];
    }
  }

  lemma RaiseWhole(lp: Entries, rp: Entries, n: nat, fixed: bool)
    requires Keyed(lp) && EvaluateUnassigned(rp) == n as real
    ensures Apply('^', lp, rp, fixed) == Power(lp, n, fixed)
  {
    RoundWhole(n);
    var p := Power(lp, n, fixed);
    CleanedClean(p);
  }

  /** The first power of a tree normalises to the tree's own normal form. */
  lemma ExponentOne(a: Tree, fixed: bool)
    ensures Normalize(Op('^', false, a, Num(1.0)), fixed) == Normalize(a, fixed)
  {
    ExponentWhole(a, 1, fixed);
    if fixed {
      NormalizeClass(a, fixed, NoZero);
    }
    PowerOne(Normalize(a, fixed), fixed);
  }

  /** A fractional exponent gives the empty map. */
  lemma ExponentFraction(a: Tree, fixed: bool)
    ensures Normalize(Op('^', false, a, Num(0.5)), fixed) == []
  {
    assert Normalize(Num(0.5), fixed) == [Term(map[], 0.5)];
    assert Round(0.5) == 1;
  }

  /** A negative exponent gives the empty map. */
  lemma ExponentNegative(a: Tree, fixed: bool)
    ensures Normalize(Op('^', false, a, Op('~', true, Nil, Num(2.0))), fixed) == []
  {
    var two := [Term(map[], 2.0)];
    CleanedClean(two);
    assert Normalize(Num(2.0), fixed) == two;
    assert Accumulate([], two, true) == [Term(map[], -2.0)];
    CleanedClean([Term(map[], -2.0)]);
    assert Normalize(Op('~', true, Nil, Num(2.0)), fixed) == [Term(map[], -2.0)];
    assert Round(-2.0) == -2 by {
      RoundWhole(-2);
    }
  }

  // ------------------------------------------------------------------
  // The dispatcher
  // ------------------------------------------------------------------

  /** The verdict on an equation in one variable. */
  datatype Verdict = Identity | NoSolution | SearchRoots(diff: Entries)

  /** What `run_expression_tree` returns.  Texts that print numbers or
      polynomials are kept as the values they print. */
  datatype Answer =
    | Silent
    | Text(text: string)
    | Compared(left: real, right: real, correct: bool)
    | OneUnknown(lhs: Entries, rhs: Entries, verdict: Verdict)
    | Residual(diff: Entries)
    | Value(v: real)
    | AskValues(p: Entries)
    | Crashed
    | Hangs

  const MismatchedSides: string := "Error: Mismatched parentheses in equation sides!"
  const Mismatched: string := "Error: Mismatched parentheses!"
  const IdentityText: string := "Result: The equation is an identity."
  const NoSolutionText: string := "Result: No solution."
  const EqualText: string := "They are equal."

  /** `find`: the first index of `c`. */
  function IndexOf(s: string, c: char): (r: Option<nat>)
    ensures r.Some? ==> r.value < |s| && s[r.value] == c && c !in s[..r.value]
    ensures r.None? ==> c !in s
  {
    if |s| == 0 then None
    else if s[0] == c then Some(0)
    else match IndexOf(s[1..], c)
      case None => None
      case Some(j) => assert s[..j + 1] == [s[0]] + s[1..][..j]; Some(j + 1)
  }

  /** `run_expression_tree`: "" and "exit" give nothing; one trailing '=' is
      dropped; with a '=' the two sides are compared, otherwise the
      expression is evaluated. */
  function Run(input: string, fixed: bool): Answer {
    if input == "" || input == "exit" then Silent
    else
      var s := if input[|input| - 1] == '=' then input[..|input| - 1] else input;
      match IndexOf(s, '=')
      case Some(e) => Equation(s[..e], s[e + 1..], fixed)
      case None => Expression(s, fixed)
  }

  /** An expression: parentheses are checked before anything is parsed; a
      result with variables asks for their values. */
  function Expression(s: string, fixed: bool): Answer {
    if !Balanced(s) then Text(Mismatched)
    else match BuildTree(Preprocessed(s), fixed)
      case Threw => Crashed
      case Spins => Hangs
      case Built(t) =>
        var p := Normalize(t, fixed);
        if Variables(p) != {} then AskValues(p) else Value(EvaluateUnassigned(p))
  }

  /** An equation: both sides' parentheses are checked first; the left side
      is built before the right. */
  function Equation(l: string, r: string, fixed: bool): Answer {
    if !Balanced(l) || !Balanced(r) then Text(MismatchedSides)
    else match BuildTree(Preprocessed(l), fixed)
      case Threw => Crashed
      case Spins => Hangs
      case Built(tl) =>
        match BuildTree(Preprocessed(r), fixed)
        case Threw => Crashed
        case Spins => Hangs
        case Built(tr) => Compare(tl, tr, fixed)
  }

  /** The comparison of the two sides: without variables the values are
      compared within 1e-9 (an identity or no solution when the text named a
      variable that cancelled); with one variable the difference is judged;
      with more it is shown. */
  function Compare(tl: Tree, tr: Tree, fixed: bool): Answer {
    var isEquation := HasVariables(tl) || HasVariables(tr);
    var pl := Normalize(tl, fixed);
    var pr := Normalize(tr, fixed);
    var vars := Variables(pl) + Variables(pr);
    if vars == {} then
      var vl := EvaluateUnassigned(pl);
      var vr := EvaluateUnassigned(pr);
      if Abs(vl - vr) < Tiny then (if isEquation then Text(IdentityText) else Compared(vl, vr, true))
      else if isEquation then Text(NoSolutionText) else Compared(vl, vr, false)
    else
      var d := Minus(pl, pr);
      if |vars| == 1 then
        var verdict :=
          if d == [] then Identity
          else if Variables(d) == {} then (if Abs(EvaluateUnassigned(d)) > Tiny then NoSolution else Identity)
          else SearchRoots(d);
        OneUnknown(pl, pr, verdict)
      else if d == [] then Text(EqualText) else Residual(d)
  }

  /** Nothing is returned exactly for "" and "exit". */
  lemma RunSilent(input: string, fixed: bool)
    ensures Run(input, fixed) == Silent <==> input == "" || input == "exit"
  {
    if input != "" && input != "exit" {
      var s := if input[|input| - 1] == '=' then input[..|input| - 1] else input;
      match IndexOf(s, '=')
      case Some(e) =>
        EquationAnswers(s[..e], s[e + 1..], fixed);
      case None =>
    }
  }

  /** The kinds of answer an equation can give. */
  lemma EquationAnswers(l: string, r: string, fixed: bool)
    ensures Equation(l, r, fixed) != Silent
    ensures Equation(l, r, fixed).Text? ==> Equation(l, r, fixed).text in {MismatchedSides, IdentityText, NoSolutionText, EqualText}
  {
    if Balanced(l) && Balanced(r) {
      var bl := BuildTree(Preprocessed(l), fixed);
      var br := BuildTree(Preprocessed(r), fixed);
      if bl.Built? && br.Built? {
        CompareAnswers(bl.tree, br.tree, fixed);
      }
    }
  }

  lemma CompareAnswers(tl: Tree, tr: Tree, fixed: bool)
    ensures Compare(tl, tr, fixed) != Silent
    ensures Compare(tl, tr, fixed).Text? ==> Compare(tl, tr, fixed).text in {IdentityText, NoSolutionText, EqualText}
  {
    var pl := Normalize(tl, fixed);
    var pr := Normalize(tr, fixed);
    var a := Compare(tl, tr, fixed);
    if Variables(pl) + Variables(pr) == {} {
      assert a.Text? ==> a.text == IdentityText || a.text == NoSolutionText;
    } else {
      assert a.OneUnknown? || a.Residual? || a == Text(EqualText);
    }
  }

  /** One trailing '=' is dropped. */
  lemma RunDropsTrailingEquals(s: string, fixed: bool)
    requires s != "" && s != "exit" && s[|s| - 1] != '='
    ensures Run(s + "=", fixed) == Run(s, fixed)
  {
    assert (s + "=")[..|s|] == s;
    assert s + "=" != "exit" by {
      assert (s + "=")[|s|] == '=';
    }
  }

  /** Without '=', the parentheses are reported iff they are unbalanced. */
  lemma ExpressionParentheses(s: string, fixed: bool)
    requires s != "" && s != "exit" && '=' !in s
    ensures Run(s, fixed) == Text(Mismatched) <==> !Balanced(s)
  {
    assert s[|s| - 1] in s;
  }

  /** With '=', mismatched parentheses on either side are reported, and
      nothing else gives that text. */
  lemma EquationParentheses(l: string, r: string, fixed: bool)
    requires '=' !in l && r != "" && r[|r| - 1] != '='
    ensures Run(l + "=" + r, fixed) == Text(MismatchedSides) <==> !Balanced(l) || !Balanced(r)
  {
    var input := l + "=" + r;
    assert input[|l|] == '=' && input[|input| - 1] == r[|r| - 1];
    assert input != "exit" by {
      if |input| == 4 {
        assert input[|l|] == '=';
      }
    }
    assert input[..|l|] == l && input[|l| + 1..] == r;
    assert IndexOf(input, '=') == Some(|l|);
    assert MismatchedSides !in {IdentityText, NoSolutionText, EqualText} by {
      assert |MismatchedSides| == 48 && |IdentityText| == 36 && |NoSolutionText| == 20 && |EqualText| == 15;
    }
    assert Run(input, fixed) == Equation(l, r, fixed);
    if Balanced(l) && Balanced(r) {
      var bl := BuildTree(Preprocessed(l), fixed);
      var br := BuildTree(Preprocessed(r), fixed);
      if bl.Built? && br.Built? {
        CompareAnswers(bl.tree, br.tree, fixed);
      }
    }
  }

  /** Corrected, `run_expression_tree` always returns. */
  lemma RunEnds(input: string)
    ensures Run(input, true) != Hangs
  {
    if input != "" && input != "exit" {
      var s := if input[|input| - 1] == '=' then input[..|input| - 1] else input;
      match IndexOf(s, '=')
      case Some(e) =>
        EquationEnds(s[..e], s[e + 1..]);
      case None =>
        BuildTreeEnds(Preprocessed(s));
    }
  }

  lemma EquationEnds(l: string, r: string)
    ensures Equation(l, r, true) != Hangs
  {
    BuildTreeEnds(Preprocessed(l));
    BuildTreeEnds(Preprocessed(r));
    if Balanced(l) && Balanced(r) {
      var bl := BuildTree(Preprocessed(l), true);
      var br := BuildTree(Preprocessed(r), true);
      if bl.Built? && br.Built? {
        CompareEnds(bl.tree, br.tree, true);
      }
    }
  }

  /** The comparison of two built sides always gives an answer. */
  lemma CompareEnds(tl: Tree, tr: Tree, fixed: bool)
    ensures Compare(tl, tr, fixed) != Hangs
  {
  }
}
