/** Symbol boxes of a handwritten line (FNN/FNN/Extraction.cpp): the
    geometry of integer rectangles, the pairing of two thin bars into an '='
    box, the merge of split pieces, and the padding of each box before it is
    cut out of the image.  The contour search that produces the boxes and the
    cutting itself are OpenCV calls and are not modelled; a contour arrives as
    its area and bounding box. */
module Extraction {
  import opened Tensor

  /** `cv::Rect`: top-left corner and size. */
  datatype Rect = Rect(x: int, y: int, width: int, height: int)
  {
    /** `Rect::empty()`. */
    predicate Empty() {
      width <= 0 || height <= 0
    }

    function Right(): int {
      x + width
    }

    function Bottom(): int {
      y + height
    }
  }

  function Min(a: int, b: int): int {
    if a <= b then a else b
  }

  function Max(a: int, b: int): int {
    if a >= b then a else b
  }

  function Abs(v: real): real {
    if v < 0.0 then -v else v
  }

  /** The single-precision values of the literals `0.65f` and `0.35f`. */
  const Ratio065: real := 0.64999997615814208984375
  const Ratio035: real := 0.3499999940395355224609375

  /** `a | b`: the bounding box of both, or the other one when one is empty. */
  function Union(a: Rect, b: Rect): Rect {
    if a.Empty() then b
    else if b.Empty() then a
    else
      var x1, y1 := Min(a.x, b.x), Min(a.y, b.y);
      Rect(x1, y1, Max(a.Right(), b.Right()) - x1, Max(a.Bottom(), b.Bottom()) - y1)
  }

  /** Whether `outer` covers `inner`. */
  predicate Contains(outer: Rect, inner: Rect) {
    outer.x <= inner.x && inner.Right() <= outer.Right() && outer.y <= inner.y && inner.Bottom() <= outer.Bottom()
  }

  /** The union of two non-empty boxes is non-empty and covers both. */
  lemma UnionCovers(a: Rect, b: Rect)
    requires !a.Empty() && !b.Empty()
    ensures !Union(a, b).Empty() && Contains(Union(a, b), a) && Contains(Union(a, b), b)
  {
  }

  lemma ContainsTransitive(a: Rect, b: Rect, c: Rect)
    requires Contains(a, b) && Contains(b, c)
    ensures Contains(a, c)
  {
  }

  // ---------------------------------------------------------------------
  // Overlaps
  // ---------------------------------------------------------------------

  /** `overlap1D`: the length shared by [a0, a1) and [b0, b1). */
  function Overlap1D(a0: int, a1: int, b0: int, b1: int): real {
    var lo, hi := Max(a0, b0), Min(a1, b1);
    if hi > lo then (hi - lo) as real else 0.0
  }

  /** The shared length is symmetric, never negative, no longer than either
      interval, and zero exactly when the intervals are disjoint. */
  lemma Overlap1DProperties(a0: int, a1: int, b0: int, b1: int)
    requires a0 <= a1 && b0 <= b1
    ensures Overlap1D(a0, a1, b0, b1) == Overlap1D(b0, b1, a0, a1)
    ensures 0.0 <= Overlap1D(a0, a1, b0, b1) <= (Min(a1 - a0, b1 - b0)) as real
    ensures Overlap1D(a0, a1, b0, b1) > 0.0 <==> a0 < a1 && b0 < b1 && a0 < b1 && b0 < a1
  {
  }

  /** `overlapRatioX`: the shared x-extent over the narrower width, 0 when
      that width is not positive. */
  function OverlapRatioX(a: Rect, b: Rect): real {
    var ov := Overlap1D(a.x, a.Right(), b.x, b.Right());
    var denom := Min(a.width, b.width) as real;
    if denom > 0.0 then ov / denom else 0.0
  }

  /** The ratio is symmetric and lies in [0, 1]; it is 1 when one box spans
      the other horizontally. */
  lemma OverlapRatioXProperties(a: Rect, b: Rect)
    ensures OverlapRatioX(a, b) == OverlapRatioX(b, a)
    ensures a.width >= 0 && b.width >= 0 ==> 0.0 <= OverlapRatioX(a, b) <= 1.0
    ensures 0 < a.width && 0 < b.width && a.x <= b.x && b.Right() <= a.Right() ==> OverlapRatioX(a, b) == 1.0
  {
    var ov := Overlap1D(a.x, a.Right(), b.x, b.Right());
    var denom := Min(a.width, b.width) as real;
    if a.width >= 0 && b.width >= 0 {
      Overlap1DProperties(a.x, a.Right(), b.x, b.Right());
      if denom > 0.0 {
        assert ov <= denom;
        QuotientAtMostOne(ov, denom);
      }
    }
  }

  lemma QuotientAtMostOne(a: real, b: real)
    requires 0.0 <= a <= b && b > 0.0
    ensures 0.0 <= a / b <= 1.0
  {
  }

  // ---------------------------------------------------------------------
  // '=' bars
  // ---------------------------------------------------------------------

  /** A thin horizontal bar. */
  predicate Thin(r: Rect) {
    r.height <= 12 && r.width >= 8 && r.width >= 2 * r.height
  }

  /** The pair ordered so that the first is not below the second. */
  function TopFirst(a: Rect, b: Rect): (Rect, Rect) {
    if a.y > b.y then (b, a) else (a, b)
  }

  /** The vertical gap from the bottom of `top` to the top of `bot`, 0 when
      they overlap. */
  function GapY(top: Rect, bot: Rect): int {
    var g := bot.y - top.Bottom();
    if g < 0 then 0 else g
  }

  function CentreX(r: Rect): real {
    r.x as real + r.width as real * 0.5
  }

  /** `isEqualsPair`: two thin bars of similar width, overlapping in x,
      close in y and centred on each other. */
  predicate IsEqualsPair(a: Rect, b: Rect) {
    var (top, bot) := TopFirst(a, b);
    Thin(top) && Thin(bot) &&
    Min(top.width, bot.width) as real / Max(top.width, bot.width) as real >= Ratio065 &&
    OverlapRatioX(top, bot) >= Ratio065 &&
    GapY(top, bot) <= 18 &&
    Abs(CentreX(top) - CentreX(bot)) <= Ratio035 * Max(top.width, bot.width) as real
  }

  /** The verdict does not depend on the order of the arguments. */
  lemma EqualsPairSymmetric(a: Rect, b: Rect)
    requires a.height >= 0 && b.height >= 0
    ensures IsEqualsPair(a, b) == IsEqualsPair(b, a)
  {
    if a.y != b.y {
      assert TopFirst(a, b) == TopFirst(b, a);
    } else {
      OverlapRatioXProperties(a, b);
      assert Min(a.width, b.width) == Min(b.width, a.width) && Max(a.width, b.width) == Max(b.width, a.width);
      assert Abs(CentreX(a) - CentreX(b)) == Abs(CentreX(b) - CentreX(a));
      assert GapY(a, b) == 0 && GapY(b, a) == 0;
    }
  }

  /** Two bars that pair overlap horizontally and are at most 18 apart
      vertically. */
  lemma EqualsPairIsClose(a: Rect, b: Rect)
    requires IsEqualsPair(a, b)
    ensures Overlap1D(a.x, a.Right(), b.x, b.Right()) > 0.0
    ensures a.y <= b.y ==> b.y - a.Bottom() <= 18
    ensures b.y < a.y ==> a.y - b.Bottom() <= 18
  {
    OverlapRatioXProperties(a, b);
    var (top, bot) := TopFirst(a, b);
  }

  /** The greedy score of a pair: the x-overlap in percent, truncated, less
      the vertical gap. */
  function Score(a: Rect, b: Rect): int {
    var (top, bot) := TopFirst(a, b);
    (OverlapRatioX(top, bot) * 100.0).Floor - GapY(top, bot)
  }

  /** Two pairing bars always score above the initial `bestScore` of -1. */
  lemma PairScorePositive(a: Rect, b: Rect)
    requires IsEqualsPair(a, b)
    ensures Score(a, b) >= 46
  {
    var (top, bot) := TopFirst(a, b);
    assert OverlapRatioX(top, bot) * 100.0 >= 64.0;
  }

  /** The quick reject: box centres, in C++ integer arithmetic, more than
      200 apart. */
  predicate Far(a: Rect, b: Rect) {
    var d := (a.x + CDiv(a.width, 2)) - (b.x + CDiv(b.width, 2));
    d > 200 || d < -200
  }

  /** The greedy pairing of `mergeEqualsBars` is stated over its pair test
      and its score, so that the counting below does not depend on the
      geometry; `mergeEqualsBars` itself uses `EqualsBars`. */
  datatype Greedy = Greedy(pair: (Rect, Rect) -> bool, score: (Rect, Rect) -> int)

  const EqualsBars: Greedy := Greedy(IsEqualsPair, Score)

  /** Every pair the test accepts scores above the initial best score -1. */
  ghost predicate ScoresAbove(g: Greedy) {
    forall a, b :: g.pair(a, b) ==> g.score(a, b) > -1
  }

  lemma EqualsBarsScoresAbove()
    ensures ScoresAbove(EqualsBars)
  {
    forall a, b | IsEqualsPair(a, b)
      ensures Score(a, b) > -1
    {
      PairScorePositive(a, b);
    }
  }

  /** Whether j is a candidate partner for i. */
  predicate Eligible(g: Greedy, rs: seq<Rect>, used: seq<bool>, i: int, j: int)
    requires |used| == |rs| && 0 <= i < |rs| && 0 <= j < |rs|
  {
    !used[j] && !Far(rs[i], rs[j]) && g.pair(rs[i], rs[j])
  }

  /** The inner loop of `mergeEqualsBars` from j on, with the best partner
      and score found so far. */
  function Best(g: Greedy, rs: seq<Rect>, used: seq<bool>, i: int, j: int, bestJ: int, bestScore: int): (b: int)
    requires |used| == |rs| && 0 <= i < j <= |rs|
    ensures b == bestJ || (i < b < |rs| && !used[b])
    decreases |rs| - j
  {
    if j == |rs| then bestJ
    else if !Eligible(g, rs, used, i, j) then Best(g, rs, used, i, j + 1, bestJ, bestScore)
    else
      var score := g.score(rs[i], rs[j]);
      if score > bestScore then Best(g, rs, used, i, j + 1, j, score)
      else Best(g, rs, used, i, j + 1, bestJ, bestScore)
  }

  /** No box in (i, lim) is a candidate partner for i. */
  predicate NoneEligible(g: Greedy, rs: seq<Rect>, used: seq<bool>, i: int, lim: int)
    requires |used| == |rs| && 0 <= i < |rs| && lim <= |rs|
  {
    forall k :: i < k < lim ==> !Eligible(g, rs, used, i, k)
  }

  /** b is the first of the highest-scoring candidates in (i, lim). */
  predicate BestUpTo(g: Greedy, rs: seq<Rect>, used: seq<bool>, i: int, lim: int, b: int)
    requires |used| == |rs| && 0 <= i < |rs| && lim <= |rs|
  {
    i < b < lim && Eligible(g, rs, used, i, b) &&
    (forall k :: i < k < lim && Eligible(g, rs, used, i, k) ==> g.score(rs[i], rs[k]) <= g.score(rs[i], rs[b])) &&
    (forall k :: i < k < b && Eligible(g, rs, used, i, k) ==> g.score(rs[i], rs[k]) < g.score(rs[i], rs[b]))
  }

  /** The partner chosen for i: none exactly when no later unused box pairs
      with it; otherwise the first of the highest-scoring candidates. */
  lemma BestPartner(g: Greedy, rs: seq<Rect>, used: seq<bool>, i: int)
    requires ScoresAbove(g) && |used| == |rs| && 0 <= i < |rs|
    ensures var b := Best(g, rs, used, i, i + 1, -1, -1);
      (b == -1 <==> forall j :: i < j < |rs| ==> !Eligible(g, rs, used, i, j)) &&
      (b != -1 ==> BestUpTo(g, rs, used, i, |rs|, b))
  {
    BestInvariant(g, rs, used, i, i + 1, -1, -1);
  }

  /** The state of the inner loop of `mergeEqualsBars` before box j: no
      candidate yet, or the best one so far with its score. */
  ghost predicate BestSoFar(g: Greedy, rs: seq<Rect>, used: seq<bool>, i: int, j: int, bestJ: int, bestScore: int)
    requires |used| == |rs| && 0 <= i < j <= |rs|
  {
    (bestJ == -1 && bestScore == -1 && NoneEligible(g, rs, used, i, j)) ||
    (BestUpTo(g, rs, used, i, j, bestJ) && bestScore == g.score(rs[i], rs[bestJ]))
  }

  /** One pass of the inner loop keeps its state right. */
  lemma BestStep(g: Greedy, rs: seq<Rect>, used: seq<bool>, i: int, j: int, bestJ: int, bestScore: int)
    requires ScoresAbove(g) && |used| == |rs| && 0 <= i < j < |rs|
    requires BestSoFar(g, rs, used, i, j, bestJ, bestScore)
    ensures Eligible(g, rs, used, i, j) && g.score(rs[i], rs[j]) > bestScore ==>
      BestSoFar(g, rs, used, i, j + 1, j, g.score(rs[i], rs[j]))
    ensures !(Eligible(g, rs, used, i, j) && g.score(rs[i], rs[j]) > bestScore) ==>
      BestSoFar(g, rs, used, i, j + 1, bestJ, bestScore)
  {
    if Eligible(g, rs, used, i, j) {
      var score := g.score(rs[i], rs[j]);
      if score > bestScore {
        assert BestUpTo(g, rs, used, i, j + 1, j);
      } else {
        assert BestUpTo(g, rs, used, i, j + 1, bestJ);
      }
    }
  }

  lemma {:induction false} BestInvariant(g: Greedy, rs: seq<Rect>, used: seq<bool>, i: int, j: int, bestJ: int, bestScore: int)
    requires ScoresAbove(g) && |used| == |rs| && 0 <= i < j <= |rs|
    requires BestSoFar(g, rs, used, i, j, bestJ, bestScore)
    ensures var b := Best(g, rs, used, i, j, bestJ, bestScore);
      (b == -1 && NoneEligible(g, rs, used, i, |rs|)) || BestUpTo(g, rs, used, i, |rs|, b)
    decreases |rs| - j
  {
    if j < |rs| {
      BestStep(g, rs, used, i, j, bestJ, bestScore);
      if Eligible(g, rs, used, i, j) && g.score(rs[i], rs[j]) > bestScore {
        BestInvariant(g, rs, used, i, j + 1, j, g.score(rs[i], rs[j]));
      } else {
        BestInvariant(g, rs, used, i, j + 1, bestJ, bestScore);
      }
    }
  }

  // ---------------------------------------------------------------------
  // mergeEqualsBars
  // ---------------------------------------------------------------------

  /** What the outer loop emits for one box: the box alone, or the box and
      its partner. */
  datatype Pick = Single(i: int) | Pair(i: int, j: int)

  /** The outer loop of `mergeEqualsBars` from box i on. */
  function PicksFrom(g: Greedy, rs: seq<Rect>, used: seq<bool>, i: int): (ps: seq<Pick>)
    requires |used| == |rs| && 0 <= i <= |rs|
    ensures forall k :: 0 <= k < |ps| ==> ps[k].Single? ==> i <= ps[k].i < |rs|
    ensures forall k :: 0 <= k < |ps| ==> ps[k].Pair? ==> i <= ps[k].i < ps[k].j < |rs|
    decreases |rs| - i
  {
    if i == |rs| then []
    else if used[i] then PicksFrom(g, rs, used, i + 1)
    else
      var b := Best(g, rs, used, i, i + 1, -1, -1);
      if b != -1 then [Pair(i, b)] + PicksFrom(g, rs, used[i := true][b := true], i + 1)
      else [Single(i)] + PicksFrom(g, rs, used[i := true], i + 1)
  }

  /** The box a pick emits: the merged '=' box for a pair. */
  function PickBox(rs: seq<Rect>, p: Pick): Rect
    requires p.Single? ==> 0 <= p.i < |rs|
    requires p.Pair? ==> 0 <= p.i < |rs| && 0 <= p.j < |rs|
  {
    match p
    case Single(i) => rs[i]
    case Pair(i, j) => Union(rs[i], rs[j])
  }

  function PickBoxes(rs: seq<Rect>, ps: seq<Pick>): (out: seq<Rect>)
    requires forall k :: 0 <= k < |ps| ==> 0 <= ps[k].i < |rs| && (ps[k].Pair? ==> 0 <= ps[k].j < |rs|)
    ensures |out| == |ps|
    ensures forall k :: 0 <= k < |ps| ==> out[k] == PickBox(rs, ps[k])
  {
    if |ps| == 0 then [] else [PickBox(rs, ps[0])] + PickBoxes(rs, ps[1..])
  }

  /** The order of the first sort: by y, then by x. */
  datatype Order = ByYThenX | ByXThenY

  predicate Less(o: Order, a: Rect, b: Rect) {
    match o
    case ByYThenX => if a.y == b.y then a.x < b.x else a.y < b.y
    case ByXThenY => if a.x == b.x then a.y < b.y else a.x < b.x
  }

  predicate SortedBy(o: Order, s: seq<Rect>) {
    forall i, j :: 0 <= i < j < |s| ==> !Less(o, s[j], s[i])
  }

  /** Insertion of r before the first element not less than it. */
  function Insert(o: Order, r: Rect, s: seq<Rect>): (t: seq<Rect>)
    ensures multiset(t) == multiset(s) + multiset{r} && |t| == |s| + 1
  {
    if |s| == 0 then [r]
    else if !Less(o, s[0], r) then [r] + s
    else
      var t := [s[0]] + Insert(o, r, s[1..]);
      assert s == [s[0]] + s[1..];
      t
  }

  lemma NotLessTransitive(o: Order, a: Rect, b: Rect, c: Rect)
    requires !Less(o, b, a) && !Less(o, c, b)
    ensures !Less(o, c, a)
  {
  }

  lemma LessAsymmetric(o: Order, a: Rect, b: Rect)
    requires Less(o, a, b)
    ensures !Less(o, b, a)
  {
  }

  /** Insertion keeps a sequence sorted. */
  lemma {:induction false} InsertSorted(o: Order, r: Rect, s: seq<Rect>)
    requires SortedBy(o, s)
    ensures SortedBy(o, Insert(o, r, s))
  {
    if |s| == 0 {
    } else if !Less(o, s[0], r) {
      PrependSorted(o, r, s);
    } else {
      assert SortedBy(o, s[1..]);
      InsertSorted(o, r, s[1..]);
      var rest := Insert(o, r, s[1..]);
      forall q | 0 <= q < |rest|
        ensures !Less(o, rest[q], s[0])
      {
        InsertStaysAbove(o, s[0], r, s[1..], q);
      }
      ConsSorted(o, s[0], rest);
    }
  }

  /** A box not above the head of a sorted sequence can go in front of it. */
  lemma PrependSorted(o: Order, r: Rect, s: seq<Rect>)
    requires SortedBy(o, s) && |s| > 0 && !Less(o, s[0], r)
    ensures SortedBy(o, [r] + s)
  {
    var t := [r] + s;
    forall p, q | 0 <= p < q < |t|
      ensures !Less(o, t[q], t[p])
    {
      if p == 0 {
        if q > 1 {
          NotLessTransitive(o, r, s[0], s[q - 1]);
        }
      } else {
        assert t[q] == s[q - 1] && t[p] == s[p - 1];
      }
    }
  }

  /** A sorted sequence whose elements are all above h stays sorted with h
      in front. */
  lemma ConsSorted(o: Order, h: Rect, rest: seq<Rect>)
    requires SortedBy(o, rest) && forall q :: 0 <= q < |rest| ==> !Less(o, rest[q], h)
    ensures SortedBy(o, [h] + rest)
  {
    var t := [h] + rest;
    forall p, q | 0 <= p < q < |t|
      ensures !Less(o, t[q], t[p])
    {
      if p == 0 {
        assert t[q] == rest[q - 1];
      } else {
        assert t[q] == rest[q - 1] && t[p] == rest[p - 1];
      }
    }
  }

  /** Inserting r above h into a sequence whose elements are all above h
      leaves every element above h. */
  lemma InsertStaysAbove(o: Order, h: Rect, r: Rect, s: seq<Rect>, q: int)
    requires Less(o, h, r) && forall m :: 0 <= m < |s| ==> !Less(o, s[m], h)
    requires 0 <= q < |Insert(o, r, s)|
    ensures !Less(o, Insert(o, r, s)[q], h)
  {
    var x := Insert(o, r, s)[q];
    assert x in multiset(Insert(o, r, s));
    if x == r {
      LessAsymmetric(o, h, r);
    } else {
      assert x in multiset(s);
      var m :| 0 <= m < |s| && s[m] == x;
    }
  }

  /** `std::sort` with the comparator of the order. */
  function Sort(o: Order, s: seq<Rect>): (t: seq<Rect>)
    ensures multiset(t) == multiset(s) && |t| == |s| && SortedBy(o, t)
  {
    if |s| == 0 then []
    else
      assert s == [s[0]] + s[1..];
      InsertSorted(o, s[0], Sort(o, s[1..]));
      Insert(o, s[0], Sort(o, s[1..]))
  }

  /** `mergeEqualsBars`: fewer than two boxes come back as they are;
      otherwise the boxes sorted by y then x are paired greedily. */
  function MergeEqualsBarsSpec(rects: seq<Rect>): (r: (seq<Rect>, seq<Pick>))
  {
    if |rects| < 2 then (rects, [])
    else
      var rs := Sort(ByYThenX, rects);
      var ps := PicksFrom(EqualsBars, rs, seq(|rs|, k => false), 0);
      (PickBoxes(rs, ps), ps)
  }

  /** How often box k is emitted. */
  function Uses(ps: seq<Pick>, k: int): nat {
    if |ps| == 0 then 0
    else (if ps[0].i == k || (ps[0].Pair? && ps[0].j == k) then 1 else 0) + Uses(ps[1..], k)
  }

  /** The unused boxes from i on. */
  function Free(used: seq<bool>, i: nat): nat
    requires i <= |used|
    decreases |used| - i
  {
    if i == |used| then 0 else (if used[i] then 0 else 1) + Free(used, i + 1)
  }

  lemma {:induction false} FreeUpdate(used: seq<bool>, i: nat, b: nat)
    requires i <= b < |used| && !used[b]
    ensures Free(used[b := true], i) == Free(used, i) - 1
    decreases |used| - i
  {
    if i < b {
      FreeUpdate(used, i + 1, b);
    } else {
      FreeSame(used, used[b := true], i + 1);
    }
  }

  lemma {:induction false} FreeSame(u: seq<bool>, v: seq<bool>, i: nat)
    requires |u| == |v| && i <= |u| && forall k :: i <= k < |u| ==> u[k] == v[k]
    ensures Free(u, i) == Free(v, i)
    decreases |u| - i
  {
    if i < |u| {
      FreeSame(u, v, i + 1);
    }
  }

  lemma UsesCons(p: Pick, ps: seq<Pick>, k: int)
    ensures Uses([p] + ps, k) == (if p.i == k || (p.Pair? && p.j == k) then 1 else 0) + Uses(ps, k)
  {
    assert ([p] + ps)[1..] == ps;
  }

  /** Every unused box from i on is emitted exactly once, the used ones and
      those before i never. */
  lemma {:induction false} PicksUseEachOnce(g: Greedy, rs: seq<Rect>, used: seq<bool>, i: int, k: int)
    requires |used| == |rs| && 0 <= i <= |rs|
    ensures Uses(PicksFrom(g, rs, used, i), k) == (if i <= k < |rs| && !used[k] then 1 else 0)
    decreases |rs| - i
  {
    if i < |rs| && !used[i] {
      var b := Best(g, rs, used, i, i + 1, -1, -1);
      var u := if b != -1 then used[i := true][b := true] else used[i := true];
      PicksUseEachOnce(g, rs, u, i + 1, k);
      UsesAfterPick(g, rs, used, i, k);
    } else if i < |rs| {
      assert PicksFrom(g, rs, used, i) == PicksFrom(g, rs, used, i + 1);
      PicksUseEachOnce(g, rs, used, i + 1, k);
    }
  }

  /** The step of `PicksUseEachOnce` at an unused box i. */
  lemma UsesAfterPick(g: Greedy, rs: seq<Rect>, used: seq<bool>, i: int, k: int)
    requires |used| == |rs| && 0 <= i < |rs| && !used[i]
    requires var b := Best(g, rs, used, i, i + 1, -1, -1);
      var u := if b != -1 then used[i := true][b := true] else used[i := true];
      Uses(PicksFrom(g, rs, u, i + 1), k) == (if i + 1 <= k < |rs| && !u[k] then 1 else 0)
    ensures Uses(PicksFrom(g, rs, used, i), k) == (if i <= k < |rs| && !used[k] then 1 else 0)
  {
    var b := Best(g, rs, used, i, i + 1, -1, -1);
    if b != -1 {
      var u := used[i := true][b := true];
      assert PicksFrom(g, rs, used, i) == [Pair(i, b)] + PicksFrom(g, rs, u, i + 1);
      UsesCons(Pair(i, b), PicksFrom(g, rs, u, i + 1), k);
    } else {
      var u := used[i := true];
      assert PicksFrom(g, rs, used, i) == [Single(i)] + PicksFrom(g, rs, u, i + 1);
      UsesCons(Single(i), PicksFrom(g, rs, u, i + 1), k);
    }
  }

  /** Every pick holds one or two of the free boxes, so the number of picks
      lies between half the free boxes and all of them. */
  lemma {:induction false} PicksCount(g: Greedy, rs: seq<Rect>, used: seq<bool>, i: int)
    requires |used| == |rs| && 0 <= i <= |rs|
    ensures |PicksFrom(g, rs, used, i)| <= Free(used, i) <= 2 * |PicksFrom(g, rs, used, i)|
    decreases |rs| - i
  {
    if i < |rs| && !used[i] {
      var b := Best(g, rs, used, i, i + 1, -1, -1);
      if b != -1 {
        var u := used[i := true][b := true];
        assert |PicksFrom(g, rs, used, i)| == 1 + |PicksFrom(g, rs, u, i + 1)|;
        PicksCount(g, rs, u, i + 1);
        FreeAfterPair(used, i, b);
      } else {
        var u := used[i := true];
        assert |PicksFrom(g, rs, used, i)| == 1 + |PicksFrom(g, rs, u, i + 1)|;
        PicksCount(g, rs, u, i + 1);
        FreeAfterSingle(used, i);
      }
    } else if i < |rs| {
      PicksCount(g, rs, used, i + 1);
    }
  }

  lemma FreeAfterPair(used: seq<bool>, i: nat, b: nat)
    requires i < b < |used| && !used[i] && !used[b]
    ensures Free(used[i := true][b := true], i + 1) == Free(used, i) - 2
  {
    FreeSame(used[i := true], used, i + 1);
    FreeUpdate(used[i := true], i + 1, b);
  }

  lemma FreeAfterSingle(used: seq<bool>, i: nat)
    requires i < |used| && !used[i]
    ensures Free(used[i := true], i + 1) == Free(used, i) - 1
  {
    FreeSame(used[i := true], used, i + 1);
  }

  lemma {:induction false} FreeAll(n: nat, i: nat)
    requires i <= n
    ensures Free(seq(n, k => false), i) == n - i
    decreases n - i
  {
    if i < n {
      FreeAll(n, i + 1);
    }
  }

  /** `mergeEqualsBars` emits every box exactly once, alone or merged with
      one partner, so it returns between n/2 and n boxes; each box of the
      input lies inside one of the output boxes. */
  lemma MergeEqualsBarsUsesEachOnce(rects: seq<Rect>)
    requires |rects| >= 2
    ensures var (out, ps) := MergeEqualsBarsSpec(rects);
      var rs := Sort(ByYThenX, rects);
      (forall k :: 0 <= k < |rs| ==> Uses(ps, k) == 1) &&
      |out| <= |rects| <= 2 * |out|
  {
    var rs := Sort(ByYThenX, rects);
    var unused0 := seq(|rs|, k => false);
    FreeAll(|rs|, 0);
    PicksCount(EqualsBars, rs, unused0, 0);
    forall k | 0 <= k < |rs|
      ensures Uses(PicksFrom(EqualsBars, rs, unused0, 0), k) == 1
    {
      PicksUseEachOnce(EqualsBars, rs, unused0, 0, k);
    }
  }

  /** A box that is used is covered by the box of the pick that uses it. */
  lemma {:induction false} UsedIsCovered(rs: seq<Rect>, ps: seq<Pick>, k: int)
    requires forall q :: 0 <= q < |ps| ==> 0 <= ps[q].i < |rs| && (ps[q].Pair? ==> 0 <= ps[q].j < |rs|)
    requires forall r :: r in rs ==> !r.Empty()
    requires 0 <= k < |rs| && Uses(ps, k) >= 1
    ensures exists q :: 0 <= q < |ps| && Contains(PickBoxes(rs, ps)[q], rs[k])
    decreases |ps|
  {
    var out := PickBoxes(rs, ps);
    if ps[0].i == k || (ps[0].Pair? && ps[0].j == k) {
      if ps[0].Pair? {
        UnionCovers(rs[ps[0].i], rs[ps[0].j]);
      }
      assert Contains(out[0], rs[k]);
    } else {
      UsedIsCovered(rs, ps[1..], k);
      var q :| 0 <= q < |ps[1..]| && Contains(PickBoxes(rs, ps[1..])[q], rs[k]);
      assert Contains(out[q + 1], rs[k]);
    }
  }

  /** No box is lost: each non-empty input box lies inside an output box. */
  lemma MergeEqualsBarsCovers(rects: seq<Rect>, r: Rect)
    requires forall b :: b in rects ==> !b.Empty()
    requires r in rects
    ensures exists q :: 0 <= q < |MergeEqualsBarsSpec(rects).0| && Contains(MergeEqualsBarsSpec(rects).0[q], r)
  {
    if |rects| < 2 {
      var q :| 0 <= q < |rects| && rects[q] == r;
      assert MergeEqualsBarsSpec(rects).0 == rects;
      assert Contains(rects[q], r);
    } else {
      var rs := Sort(ByYThenX, rects);
      assert multiset(rs) == multiset(rects);
      assert r in multiset(rs);
      var k :| 0 <= k < |rs| && rs[k] == r;
      forall b | b in rs
        ensures !b.Empty()
      {
        assert b in multiset(rects);
      }
      MergeEqualsBarsUsesEachOnce(rects);
      UsedIsCovered(rs, MergeEqualsBarsSpec(rects).1, k);
    }
  }

  /** The loops of `mergeEqualsBars`: `used` is set for each box emitted and
      `out` grows by one box per pick. */
  method MergeEqualsBars(rects: seq<Rect>) returns (out: seq<Rect>)
    ensures out == MergeEqualsBarsSpec(rects).0
  {
    if |rects| < 2 {
      return rects;
    }
    var rs := Sort(ByYThenX, rects);
    out := PairUp(EqualsBars, rs);
  }

  /** The loops of `mergeEqualsBars` over the sorted boxes, with the pair
      test and score of `g`. */
  method PairUp(g: Greedy, rs: seq<Rect>) returns (out: seq<Rect>)
    ensures out == PickBoxes(rs, PicksFrom(g, rs, seq(|rs|, k => false), 0))
  {
    var n := |rs|;
    var used := seq(n, k => false);
    ghost var all := Remaining(g, rs, used, 0);
    out := [];
    var i := 0;
    while i < n
      invariant 0 <= i <= n && |used| == n
      invariant out + Remaining(g, rs, used, i) == all
      decreases n - i
    {
      ghost var before := used;
      var emitted;
      used, emitted := PairTurn(g, rs, used, i);
      assert out + Remaining(g, rs, before, i) == (out + emitted) + Remaining(g, rs, used, i + 1);
      out := out + emitted;
      i := i + 1;
    }
  }

  /** The boxes the outer loop of `mergeEqualsBars` emits from box i on. */
  function Remaining(g: Greedy, rs: seq<Rect>, used: seq<bool>, i: int): seq<Rect>
    requires |used| == |rs| && 0 <= i <= |rs|
  {
    PickBoxes(rs, PicksFrom(g, rs, used, i))
  }

  /** One pass of the outer loop of `mergeEqualsBars`: box i, unless already
      used, is emitted alone or merged with its best partner. */
  method PairTurn(g: Greedy, rs: seq<Rect>, used: seq<bool>, i: int) returns (after: seq<bool>, emitted: seq<Rect>)
    requires |used| == |rs| && 0 <= i < |rs|
    ensures |after| == |rs|
    ensures Remaining(g, rs, used, i) == emitted + Remaining(g, rs, after, i + 1)
  {
    if !used[i] {
      var bestJ := BestPartnerLoop(g, rs, used, i);
      var pick: Pick;
      if bestJ != -1 {
        after := used[i := true][bestJ := true];
        pick := Pair(i, bestJ);
      } else {
        after := used[i := true];
        pick := Single(i);
      }
      NextPick(g, rs, used, i, pick, after);
      emitted := [PickBox(rs, pick)];
    } else {
      after, emitted := used, [];
      assert PicksFrom(g, rs, used, i) == PicksFrom(g, rs, used, i + 1);
    }
  }

  /** One pass of the outer loop of `mergeEqualsBars` emits the box of the
      first pick of what remains. */
  lemma NextPick(g: Greedy, rs: seq<Rect>, used: seq<bool>, i: int, p: Pick, after: seq<bool>)
    requires |used| == |rs| && 0 <= i < |rs| && !used[i]
    requires var b := Best(g, rs, used, i, i + 1, -1, -1);
      if b != -1 then p == Pair(i, b) && after == used[i := true][b := true]
      else p == Single(i) && after == used[i := true]
    ensures |after| == |rs| && 0 <= p.i < |rs| && (p.Pair? ==> 0 <= p.j < |rs|)
    ensures Remaining(g, rs, used, i) == [PickBox(rs, p)] + Remaining(g, rs, after, i + 1)
  {
    var rest := PicksFrom(g, rs, after, i + 1);
    assert PicksFrom(g, rs, used, i) == [p] + rest;
    assert ([p] + rest)[1..] == rest;
  }

  /** The inner loop of `mergeEqualsBars`: the partner of box i, or -1. */
  method BestPartnerLoop(g: Greedy, rs: seq<Rect>, used: seq<bool>, i: int) returns (bestJ: int)
    requires |used| == |rs| && 0 <= i < |rs|
    ensures bestJ == Best(g, rs, used, i, i + 1, -1, -1)
  {
    var n := |rs|;
    bestJ := -1;
    var bestScore := -1;
    var j := i + 1;
    while j < n
      invariant i < j <= n
      invariant Best(g, rs, used, i, j, bestJ, bestScore) == Best(g, rs, used, i, i + 1, -1, -1)
      decreases n - j
    {
      if !used[j] && !Far(rs[i], rs[j]) && g.pair(rs[i], rs[j]) {
        var score := g.score(rs[i], rs[j]);
        if score > bestScore {
          bestScore := score;
          bestJ := j;
        }
      }
      j := j + 1;
    }
  }


  // ---------------------------------------------------------------------
  // The merge pass of detectSymbols
  // ---------------------------------------------------------------------

  /** `shouldMerge`: the boxes share more than three quarters of the lower
      one's height and are at most 2 apart horizontally without overlapping. */
  predicate ShouldMerge(a: Rect, b: Rect) {
    var yov := Overlap1D(a.y, a.Bottom(), b.y, b.Bottom());
    var yovMin := Min(a.height, b.height) as real;
    var yRatio := if yovMin > 0.0 then yov / yovMin else 0.0;
    var gap := if b.x >= a.x then b.x - a.Right() else a.x - b.Right();
    yRatio > 0.75 && gap >= 0 && gap <= 2
  }

  /** Two boxes merge only when they are side by side, at most 2 apart, and
      their vertical overlap exceeds three quarters of the lower height; for
      boxes of positive width the verdict is symmetric. */
  lemma ShouldMergeMeans(a: Rect, b: Rect)
    requires a.width > 0 && b.width > 0
    ensures ShouldMerge(a, b) == ShouldMerge(b, a)
    ensures ShouldMerge(a, b) ==>
      a.height > 0 && b.height > 0 &&
      ((a.Right() <= b.x <= a.Right() + 2) || (b.Right() <= a.x <= b.Right() + 2)) &&
      Overlap1D(a.y, a.Bottom(), b.y, b.Bottom()) > 0.75 * Min(a.height, b.height) as real
  {
    var yov := Overlap1D(a.y, a.Bottom(), b.y, b.Bottom());
    var m := Min(a.height, b.height) as real;
    if ShouldMerge(a, b) {
      assert m > 0.0;
      RatioAbove(yov, m);
    }
  }

  lemma RatioAbove(a: real, b: real)
    requires b > 0.0 && a / b > 0.75
    ensures a > 0.75 * b
  {
    assert a == (a / b) * b;
  }

  /** The merge pass from box k on, with the box `cur` being grown. */
  function MergeFrom(rs: seq<Rect>, k: nat, cur: Rect): (out: seq<Rect>)
    requires k <= |rs|
    ensures 1 <= |out| <= |rs| - k + 1
    decreases |rs| - k
  {
    if k == |rs| then [cur]
    else if ShouldMerge(cur, rs[k]) then MergeFrom(rs, k + 1, Union(cur, rs[k]))
    else [cur] + MergeFrom(rs, k + 1, rs[k])
  }

  /** The conservative merge pass of `detectSymbols`. */
  function MergePass(rs: seq<Rect>): (out: seq<Rect>)
    requires |rs| >= 1
    ensures 1 <= |out| <= |rs|
  {
    MergeFrom(rs, 1, rs[0])
  }

  /** No box is lost by the merge pass: the growing box and every box after
      k end up inside an output box. */
  lemma {:induction false} MergeFromCovers(rs: seq<Rect>, k: nat, cur: Rect)
    requires k <= |rs| && !cur.Empty() && forall b :: b in rs ==> !b.Empty()
    ensures forall out :: out in MergeFrom(rs, k, cur) ==> !out.Empty()
    ensures exists q :: 0 <= q < |MergeFrom(rs, k, cur)| && Contains(MergeFrom(rs, k, cur)[q], cur)
    ensures forall m :: k <= m < |rs| ==> exists q :: 0 <= q < |MergeFrom(rs, k, cur)| && Contains(MergeFrom(rs, k, cur)[q], rs[m])
    decreases |rs| - k
  {
    var out := MergeFrom(rs, k, cur);
    if k == |rs| {
      assert Contains(out[0], cur);
    } else if ShouldMerge(cur, rs[k]) {
      var grown := Union(cur, rs[k]);
      UnionCovers(cur, rs[k]);
      MergeFromCovers(rs, k + 1, grown);
      var q :| 0 <= q < |out| && Contains(out[q], grown);
      ContainsTransitive(out[q], grown, cur);
      ContainsTransitive(out[q], grown, rs[k]);
    } else {
      var rest := MergeFrom(rs, k + 1, rs[k]);
      MergeFromCovers(rs, k + 1, rs[k]);
      assert out == [cur] + rest;
      assert Contains(out[0], cur);
      forall m | k <= m < |rs|
        ensures exists q :: 0 <= q < |out| && Contains(out[q], rs[m])
      {
        var q :| 0 <= q < |rest| && Contains(rest[q], rs[m]);
        assert out[q + 1] == rest[q];
      }
    }
  }

  /** The loop of the merge pass: `cur` grows while the next box merges
      into it and is pushed when one does not. */
  method MergePassLoop(rs: seq<Rect>) returns (out: seq<Rect>)
    requires |rs| >= 1
    ensures out == MergePass(rs)
  {
    out := [];
    var cur := rs[0];
    var i := 1;
    while i < |rs|
      invariant 1 <= i <= |rs|
      invariant out + MergeFrom(rs, i, cur) == MergePass(rs)
      decreases |rs| - i
    {
      if ShouldMerge(cur, rs[i]) {
        cur := Union(cur, rs[i]);
      } else {
        assert MergeFrom(rs, i, cur) == [cur] + MergeFrom(rs, i + 1, rs[i]);
        out := out + [cur];
        cur := rs[i];
      }
      i := i + 1;
    }
    out := out + [cur];
  }

  // ---------------------------------------------------------------------
  // detectSymbols
  // ---------------------------------------------------------------------

  /** An external contour: its area and its bounding box. */
  datatype Contour = Contour(area: real, box: Rect)

  /** The noise filter: area at least 20 and both sides at least 2. */
  predicate Keep(c: Contour) {
    c.area >= 20.0 && c.box.width >= 2 && c.box.height >= 2
  }

  /** The boxes of the contours that pass the filter, in order. */
  function Kept(cs: seq<Contour>): (rects: seq<Rect>)
    ensures |rects| <= |cs|
    ensures forall r :: r in rects ==> r.width >= 2 && r.height >= 2
  {
    if |cs| == 0 then []
    else Kept(cs[..|cs| - 1]) + (if Keep(cs[|cs| - 1]) then [cs[|cs| - 1].box] else [])
  }

  /** A box passes the filter exactly when its contour does. */
  lemma {:induction false} KeptMeans(cs: seq<Contour>, r: Rect)
    ensures r in Kept(cs) <==> exists c :: c in cs && Keep(c) && c.box == r
  {
    if |cs| > 0 {
      var init := cs[..|cs| - 1];
      KeptMeans(init, r);
      assert cs == init + [cs[|cs| - 1]];
      if r in Kept(cs) && r !in Kept(init) {
        assert Keep(cs[|cs| - 1]) && cs[|cs| - 1].box == r;
      }
      if c :| c in cs && Keep(c) && c.box == r {
        if c in init {
        } else {
          assert c == cs[|cs| - 1];
        }
      }
    }
  }

  /** Every output of `mergeEqualsBars` on non-empty boxes is non-empty, and
      there is at least one when there was at least one box. */
  lemma MergeEqualsBarsNonEmpty(rects: seq<Rect>)
    requires forall b :: b in rects ==> !b.Empty()
    ensures forall b :: b in MergeEqualsBarsSpec(rects).0 ==> !b.Empty()
    ensures |rects| >= 1 ==> |MergeEqualsBarsSpec(rects).0| >= 1
  {
    if |rects| >= 2 {
      var rs := Sort(ByYThenX, rects);
      var (out, ps) := MergeEqualsBarsSpec(rects);
      MergeEqualsBarsUsesEachOnce(rects);
      forall b | b in out
        ensures !b.Empty()
      {
        var q :| 0 <= q < |out| && out[q] == b;
        PickBoxNonEmpty(rects, rs, ps[q]);
      }
    }
  }

  /** A box emitted from non-empty boxes is not empty. */
  lemma PickBoxNonEmpty(rects: seq<Rect>, rs: seq<Rect>, p: Pick)
    requires multiset(rs) == multiset(rects) && forall b :: b in rects ==> !b.Empty()
    requires 0 <= p.i < |rs| && (p.Pair? ==> 0 <= p.j < |rs|)
    ensures !PickBox(rs, p).Empty()
  {
    assert rs[p.i] in multiset(rects);
    if p.Pair? {
      assert rs[p.j] in multiset(rects);
    }
  }

  /** `detectSymbols` after the contour search. */
  function DetectSymbolsSpec(cs: seq<Contour>): (out: seq<Rect>)
  {
    var rects := Kept(cs);
    if |rects| == 0 then []
    else
      var merged := MergeEqualsBarsSpec(rects).0;
      MergeEqualsBarsNonEmpty(rects);
      Sort(ByXThenY, MergePass(Sort(ByXThenY, merged)))
  }

  /** `detectSymbols` returns nothing exactly when no contour passes the
      filter, otherwise at most one box per kept contour, ordered left to
      right. */
  lemma DetectSymbolsShape(cs: seq<Contour>)
    ensures var out := DetectSymbolsSpec(cs);
      (|out| == 0 <==> forall c :: c in cs ==> !Keep(c)) &&
      |out| <= |Kept(cs)| &&
      SortedBy(ByXThenY, out)
  {
    var rects := Kept(cs);
    if |rects| > 0 {
      MergeEqualsBarsNonEmpty(rects);
      if |rects| >= 2 {
        MergeEqualsBarsUsesEachOnce(rects);
      }
      KeptMeans(cs, rects[0]);
    } else {
      forall c | c in cs && Keep(c)
        ensures false
      {
        KeptMeans(cs, c.box);
      }
    }
  }

  /** Sorting keeps a box that covers r. */
  lemma SortKeepsCover(o: Order, s: seq<Rect>, r: Rect, m: int)
    requires 0 <= m < |s| && Contains(s[m], r)
    ensures exists q :: 0 <= q < |Sort(o, s)| && Contains(Sort(o, s)[q], r)
  {
    var t := Sort(o, s);
    assert s[m] in multiset(t);
    var q :| 0 <= q < |t| && t[q] == s[m];
  }

  /** The merge pass keeps r covered: the box that covered it ends up inside
      an output box. */
  lemma PassKeepsCover(rs: seq<Rect>, r: Rect, s: int)
    requires forall b :: b in rs ==> !b.Empty()
    requires 0 <= s < |rs| && Contains(rs[s], r)
    ensures exists p :: 0 <= p < |MergePass(rs)| && Contains(MergePass(rs)[p], r)
  {
    MergeFromCovers(rs, 1, rs[0]);
    var passed := MergePass(rs);
    var p: int;
    if s == 0 {
      p :| 0 <= p < |passed| && Contains(passed[p], rs[0]);
    } else {
      p :| 0 <= p < |passed| && Contains(passed[p], rs[s]);
    }
    ContainsTransitive(passed[p], rs[s], r);
  }

  /** No symbol is lost: every box that passes the filter lies inside one of
      the boxes `detectSymbols` returns. */
  lemma DetectSymbolsCovers(cs: seq<Contour>, c: Contour)
    requires c in cs && Keep(c)
    ensures exists q :: 0 <= q < |DetectSymbolsSpec(cs)| && Contains(DetectSymbolsSpec(cs)[q], c.box)
  {
    var rects := Kept(cs);
    KeptMeans(cs, c.box);
    var merged := MergeEqualsBarsSpec(rects).0;
    MergeEqualsBarsNonEmpty(rects);
    MergeEqualsBarsCovers(rects, c.box);
    var m :| 0 <= m < |merged| && Contains(merged[m], c.box);
    var sorted := Sort(ByXThenY, merged);
    SortKeepsCover(ByXThenY, merged, c.box, m);
    var s :| 0 <= s < |sorted| && Contains(sorted[s], c.box);
    forall b | b in sorted
      ensures !b.Empty()
    {
      assert b in multiset(merged);
    }
    PassKeepsCover(sorted, c.box, s);
    var passed := MergePass(sorted);
    var p :| 0 <= p < |passed| && Contains(passed[p], c.box);
    SortKeepsCover(ByXThenY, passed, c.box, p);
    assert Sort(ByXThenY, passed) == DetectSymbolsSpec(cs);
  }

  /** The filter loop of `detectSymbols`. */
  method KeepLoop(cs: seq<Contour>) returns (rects: seq<Rect>)
    ensures rects == Kept(cs)
  {
    rects := [];
    var i := 0;
    while i < |cs|
      invariant 0 <= i <= |cs| && rects == Kept(cs[..i])
      decreases |cs| - i
    {
      assert cs[..i + 1][..i] == cs[..i];
      var c := cs[i];
      if c.area < 20.0 || c.box.width < 2 || c.box.height < 2 {
        i := i + 1;
        continue;
      }
      rects := rects + [c.box];
      i := i + 1;
    }
    assert cs[..i] == cs;
  }

  /** `detectSymbols` from the contours on. */
  method DetectSymbols(cs: seq<Contour>) returns (out: seq<Rect>)
    ensures out == DetectSymbolsSpec(cs)
  {
    var rects := KeepLoop(cs);
    if |rects| == 0 {
      return [];
    }
    MergeEqualsBarsNonEmpty(rects);
    rects := MergeEqualsBars(rects);
    rects := Sort(ByXThenY, rects);
    out := MergePassLoop(rects);
    out := Sort(ByXThenY, out);
  }

  // ---------------------------------------------------------------------
  // extractSymbols
  // ---------------------------------------------------------------------

  /** The box of `extractSymbols`: padded by 2 on each side and clipped to
      the image of `cols` by `rows`. */
  function Pad(r: Rect, cols: int, rows: int): Rect {
    var x := Max(0, r.x - 2);
    var y := Max(0, r.y - 2);
    Rect(x, y, Min(cols - x, r.width + 4), Min(rows - y, r.height + 4))
  }

  /** The padded box starts inside the image and never runs past its right
      or bottom edge; a box lying in the image stays inside its padded box. */
  lemma PadBounds(r: Rect, cols: int, rows: int)
    ensures var p := Pad(r, cols, rows);
      0 <= p.x && 0 <= p.y && p.Right() <= cols && p.Bottom() <= rows &&
      p.x >= r.x - 2 && p.y >= r.y - 2 && p.width <= r.width + 4 && p.height <= r.height + 4
    ensures 0 <= r.x && r.Right() <= cols && 0 <= r.y && r.Bottom() <= rows ==> Contains(Pad(r, cols, rows), r)
  {
  }

  /** The loop of `extractSymbols`, up to the crop: the box cut out for each
      rectangle. */
  method ExtractBoxes(rects: seq<Rect>, cols: int, rows: int) returns (boxes: seq<Rect>)
    ensures |boxes| == |rects|
    ensures forall k :: 0 <= k < |rects| ==> boxes[k] == Pad(rects[k], cols, rows)
  {
    boxes := [];
    for i := 0 to |rects|
      invariant |boxes| == i
      invariant forall k :: 0 <= k < i ==> boxes[k] == Pad(rects[k], cols, rows)
    {
      var r := rects[i];
      r := r.(x := Max(0, r.x - 2));
      r := r.(y := Max(0, r.y - 2));
      r := r.(width := Min(cols - r.x, r.width + 4));
      r := r.(height := Min(rows - r.y, r.height + 4));
      boxes := boxes + [r];
    }
  }
}
