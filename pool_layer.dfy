/** The max-pooling layer (CNN/src/Pool.cpp).  Forward takes the maximum of each
    K x K window (first maximum in scan order) and flags its cell in a mask that
    is cleared on every call; backward sends each upstream gradient to the LAST
    flagged cell of its window in scan order. */
module Pool {
  import opened Tensor

  /** A float that may be `-infinity`, the start value of the running maximum. */
  datatype ExtReal = NegInf | Fin(r: real)

  /** `v > m` for a finite `v`. */
  predicate Gt(v: real, m: ExtReal) {
    m.NegInf? || v > m.r
  }

  /** The running state of one window scan: the scan index of the best cell so
      far (-1 when there is none yet) and its value. */
  datatype Scan = Scan(t: int, v: ExtReal)

  datatype PoolState = PoolState(
    inputChannels: int, inputHeight: int, inputWidth: int,
    poolHeight: int, poolWidth: int, stride: int,
    outputHeight: int, outputWidth: int,
    lastOutput: seq<real>, maxMask: seq<real>, dInput: seq<real>)
  {
    function InSize(): int {
      inputChannels * (inputHeight * inputWidth)
    }

    function OutSize(): int {
      inputChannels * (outputHeight * outputWidth)
    }

    /** The configurations for which every window lies inside the input. */
    ghost predicate Fits() {
      inputChannels >= 0 && stride >= 1 &&
      1 <= poolHeight == poolWidth && poolHeight <= inputHeight && poolWidth <= inputWidth &&
      outputHeight == CDiv(inputHeight - poolHeight, stride) + 1 &&
      outputWidth == CDiv(inputWidth - poolWidth, stride) + 1
    }

    /** A fitting configuration with buffers of its sizes. */
    ghost predicate Valid() {
      Fits() && |lastOutput| == OutSize() && |maxMask| == InSize() && |dInput| == InSize()
    }
  }

  /** The state the constructor builds: `(H - K) / S + 1` output rows and columns
      and zero-filled buffers. */
  function Init(c: int, h: int, w: int, poolSize: int, stride: int): (s: PoolState)
    requires c >= 0 && stride >= 1 && 1 <= poolSize <= h && poolSize <= w
    ensures s.Valid()
  {
    var ho := CDiv(h - poolSize, stride) + 1;
    var wo := CDiv(w - poolSize, stride) + 1;
    MulMono(0, ho, wo);
    MulMono(0, c, ho * wo);
    MulMono(0, h, w);
    MulMono(0, c, h * w);
    PoolState(c, h, w, poolSize, poolSize, stride, ho, wo,
              Zeros(c * (ho * wo)), Zeros(c * (h * w)), Zeros(c * (h * w)))
  }

  // ---------------------------------------------------------------------
  // Index maps
  // ---------------------------------------------------------------------

  /** Flat index of input cell (c, ih, iw). */
  function InIdx(s: PoolState, c: int, ih: int, iw: int): int {
    c * (s.inputHeight * s.inputWidth) + ih * s.inputWidth + iw
  }

  /** Input row and column of scan step t of the window at output (h, w):
      step t is pool cell (t / K, t % K). */
  function ScanH(s: PoolState, h: int, t: int): int
    requires s.poolWidth > 0
  {
    h * s.stride + t / s.poolWidth
  }

  function ScanW(s: PoolState, w: int, t: int): int
    requires s.poolWidth > 0
  {
    w * s.stride + t % s.poolWidth
  }

  /** Every window lies inside the input: `h * S + K <= H` for `h < Ho`. */
  lemma WindowFits(h: int, stride: int, outH: int, inH: int, k: int)
    requires stride >= 1 && 1 <= k <= inH && outH == CDiv(inH - k, stride) + 1 && 0 <= h < outH
    ensures 0 <= h * stride && h * stride + k <= inH
  {
    var q := (inH - k) / stride;
    MulMono(0, h, stride);
    MulMono(h, q, stride);
    assert q * stride <= inH - k;
  }

  /** The output dimensions count exactly the window positions that fit:
      the last window fits and one more would not. */
  lemma OutputDimsExact(s: PoolState)
    requires s.Valid()
    ensures s.outputHeight >= 1 && s.outputWidth >= 1
    ensures (s.outputHeight - 1) * s.stride + s.poolHeight <= s.inputHeight < s.outputHeight * s.stride + s.poolHeight
    ensures (s.outputWidth - 1) * s.stride + s.poolWidth <= s.inputWidth < s.outputWidth * s.stride + s.poolWidth
  {
    WindowFits(s.outputHeight - 1, s.stride, s.outputHeight, s.inputHeight, s.poolHeight);
    WindowFits(s.outputWidth - 1, s.stride, s.outputWidth, s.inputWidth, s.poolWidth);
    DivBelow(s.inputHeight - s.poolHeight, s.stride);
    DivBelow(s.inputWidth - s.poolWidth, s.stride);
    assert s.outputHeight * s.stride == (s.outputHeight - 1) * s.stride + s.stride;
    assert s.outputWidth * s.stride == (s.outputWidth - 1) * s.stride + s.stride;
  }

  lemma DivBelow(a: int, b: int)
    requires a >= 0 && b >= 1
    ensures a < (a / b) * b + b
  {
  }

  /** Scan step t of a K x K window is pool cell (t / K, t % K). */
  lemma CellInWindow(t: int, k: int)
    requires k >= 1 && 0 <= t < k * k
    ensures 0 <= t / k < k && 0 <= t % k < k
  {
    if t / k >= k {
      MulMono(k, t / k, k);
    }
  }

  /** The scan cell lies inside the input and its flat index is in range. */
  lemma ScanInRange(s: PoolState, c: int, h: int, w: int, t: int)
    requires s.Valid() && 0 <= c < s.inputChannels && 0 <= h < s.outputHeight && 0 <= w < s.outputWidth
    requires 0 <= t < s.poolHeight * s.poolWidth
    ensures 0 <= ScanH(s, h, t) < s.inputHeight && 0 <= ScanW(s, w, t) < s.inputWidth
    ensures 0 <= InIdx(s, c, ScanH(s, h, t), ScanW(s, w, t)) < s.InSize()
  {
    var k := s.poolWidth;
    WindowFits(h, s.stride, s.outputHeight, s.inputHeight, k);
    WindowFits(w, s.stride, s.outputWidth, s.inputWidth, k);
    CellInWindow(t, k);
    var ih, iw := h * s.stride + t / k, w * s.stride + t % k;
    assert 0 <= ih < s.inputHeight && 0 <= iw < s.inputWidth;
    Idx3Bound(c, ih, iw, s.inputChannels, s.inputHeight, s.inputWidth);
  }

  /** Window j of the output, decoded into (channel, row, column). */
  function WinC(s: PoolState, j: int): int
    requires s.outputHeight > 0 && s.outputWidth > 0
  {
    Plane(j, s.outputHeight, s.outputWidth)
  }

  function WinH(s: PoolState, j: int): int
    requires s.outputHeight > 0 && s.outputWidth > 0
  {
    Row(j, s.outputHeight, s.outputWidth)
  }

  function WinW(s: PoolState, j: int): int
    requires s.outputWidth > 0
  {
    Col(j, s.outputWidth)
  }

  lemma WindowDecode(s: PoolState, j: int)
    requires s.Valid() && 0 <= j < s.OutSize()
    ensures 0 <= WinC(s, j) < s.inputChannels && 0 <= WinH(s, j) < s.outputHeight && 0 <= WinW(s, j) < s.outputWidth
  {
    OutputDimsExact(s);
    Encode3(j, s.outputHeight, s.outputWidth);
    if WinC(s, j) >= s.inputChannels {
      MulMono(s.inputChannels, WinC(s, j), s.outputHeight * s.outputWidth);
    }
  }

  // ---------------------------------------------------------------------
  // Forward
  // ---------------------------------------------------------------------

  /** Value at scan step t of window (c, h, w). */
  function CellVal(s: PoolState, x: seq<real>, c: int, h: int, w: int, t: int): real
    requires s.poolWidth > 0
  {
    At(x, InIdx(s, c, ScanH(s, h, t), ScanW(s, w, t)))
  }

  /** The running maximum after the first t scan steps, replaced only on a
      strictly greater value, starting from (-1, -infinity). */
  function WinScan(s: PoolState, x: seq<real>, c: int, h: int, w: int, t: int): Scan
    requires s.poolWidth > 0
    decreases t
  {
    if t <= 0 then Scan(-1, NegInf)
    else
      var prev := WinScan(s, x, c, h, w, t - 1);
      var v := CellVal(s, x, c, h, w, t - 1);
      if Gt(v, prev.v) then Scan(t - 1, Fin(v)) else prev
  }

  function WindowSize(s: PoolState): int {
    s.poolHeight * s.poolWidth
  }

  /** The maximum of window j (the scan always finds one, since K >= 1). */
  function WinMax(s: PoolState, x: seq<real>, j: int): real
    requires s.Valid()
  {
    var b := WinScan(s, x, WinC(s, j), WinH(s, j), WinW(s, j), WindowSize(s));
    if b.v.Fin? then b.v.r else 0.0
  }

  /** Flat input index of the maximum of window j. */
  function ArgIdx(s: PoolState, x: seq<real>, j: int): (i: int)
    requires s.Valid() && 0 <= j < s.OutSize()
    ensures 0 <= i < s.InSize()
  {
    var c, h, w := WinC(s, j), WinH(s, j), WinW(s, j);
    WindowDecode(s, j);
    WinScanIsFirstMax(s, x, c, h, w, WindowSize(s));
    var b := WinScan(s, x, c, h, w, WindowSize(s));
    ScanInRange(s, c, h, w, b.t);
    InIdx(s, c, ScanH(s, h, b.t), ScanW(s, w, b.t))
  }

  function PoolOut(s: PoolState, x: seq<real>): (r: seq<real>)
    requires s.Valid()
    ensures |r| == s.OutSize()
  {
    seq(s.OutSize(), j => WinMax(s, x, j))
  }

  /** The mask after the first n windows: cleared, then the maximum of each
      window flagged in turn. */
  function MaskAfter(s: PoolState, x: seq<real>, n: int): (m: seq<real>)
    requires s.Valid() && n <= s.OutSize()
    ensures |m| == s.InSize()
    decreases n
  {
    if n <= 0 then Zeros(s.InSize()) else MaskAfter(s, x, n - 1)[ArgIdx(s, x, n - 1) := 1.0]
  }

  function ForwardStep(s: PoolState, input: seq<real>): (PoolState, Outcome<seq<real>>)
    requires s.Valid()
  {
    if |input| != s.InSize() then (s, Err("PoolLayer::forward: input size mismatch."))
    else
      var out := PoolOut(s, input);
      (s.(maxMask := MaskAfter(s, input, s.OutSize()), lastOutput := out), Ok(out))
  }

  // ---------------------------------------------------------------------
  // Backward
  // ---------------------------------------------------------------------

  predicate Flagged(s: PoolState, mask: seq<real>, c: int, h: int, w: int, t: int)
    requires s.poolWidth > 0
  {
    At(mask, InIdx(s, c, ScanH(s, h, t), ScanW(s, w, t))) == 1.0
  }

  /** The last flagged scan step among the first t of window (c, h, w), or -1. */
  function LastFlag(s: PoolState, mask: seq<real>, c: int, h: int, w: int, t: int): int
    requires s.poolWidth > 0
    decreases t
  {
    if t <= 0 then -1
    else if Flagged(s, mask, c, h, w, t - 1) then t - 1
    else LastFlag(s, mask, c, h, w, t - 1)
  }

  /** Flat input index of the last flagged cell of window j, or -1 when the
      window holds none. */
  function FlagIdx(s: PoolState, mask: seq<real>, j: int): (i: int)
    requires s.Valid() && 0 <= j < s.OutSize()
    ensures -1 <= i < s.InSize()
    ensures i >= 0 <==> LastFlag(s, mask, WinC(s, j), WinH(s, j), WinW(s, j), WindowSize(s)) >= 0
  {
    var c, h, w := WinC(s, j), WinH(s, j), WinW(s, j);
    var t := LastFlag(s, mask, c, h, w, WindowSize(s));
    if t < 0 then -1
    else
      WindowDecode(s, j);
      LastFlagRange(s, mask, c, h, w, WindowSize(s));
      ScanInRange(s, c, h, w, t);
      InIdx(s, c, ScanH(s, h, t), ScanW(s, w, t))
  }

  /** The input gradient after the first n windows: each window adds its
      upstream gradient at its last flagged cell, if any. */
  function DInAfter(s: PoolState, mask: seq<real>, dOut: seq<real>, n: int): (r: seq<real>)
    requires s.Valid() && n <= s.OutSize()
    ensures |r| == s.InSize()
    decreases n
  {
    if n <= 0 then Zeros(s.InSize())
    else
      var prev := DInAfter(s, mask, dOut, n - 1);
      var i := FlagIdx(s, mask, n - 1);
      if i >= 0 then prev[i := prev[i] + At(dOut, n - 1)] else prev
  }

  function BackwardStep(s: PoolState, dOut: seq<real>): (PoolState, Outcome<seq<real>>)
    requires s.Valid()
  {
    if |dOut| != s.OutSize() then (s, Err("PoolLayer::backward: d_out size mismatch."))
    else
      var d := DInAfter(s, s.maxMask, dOut, s.OutSize());
      (s.(dInput := d), Ok(d))
  }

  function OutputSize(s: PoolState): seq<int> {
    [s.inputChannels, s.outputHeight, s.outputWidth]
  }

  // ---------------------------------------------------------------------
  // Properties
  // ---------------------------------------------------------------------

  /** The scan returns the FIRST maximum: its value is at least every scanned
      value and strictly greater than every value scanned before it. */
  lemma {:induction false} WinScanIsFirstMax(s: PoolState, x: seq<real>, c: int, h: int, w: int, t: int)
    requires s.poolWidth > 0 && t >= 1
    ensures var b := WinScan(s, x, c, h, w, t);
      0 <= b.t < t && b.v == Fin(CellVal(s, x, c, h, w, b.t)) &&
      (forall u :: 0 <= u < t ==> CellVal(s, x, c, h, w, u) <= b.v.r) &&
      (forall u :: 0 <= u < b.t ==> CellVal(s, x, c, h, w, u) < b.v.r)
    decreases t
  {
    if t > 1 {
      WinScanIsFirstMax(s, x, c, h, w, t - 1);
    }
  }

  /** Each output is the maximum of its window, attained at the flagged cell. */
  lemma ForwardIsWindowMax(s: PoolState, x: seq<real>, j: int)
    requires s.Valid() && |x| == s.InSize() && 0 <= j < s.OutSize()
    ensures var out := ForwardStep(s, x).1.value;
      var c, h, w := WinC(s, j), WinH(s, j), WinW(s, j);
      (forall u :: 0 <= u < WindowSize(s) ==> CellVal(s, x, c, h, w, u) <= out[j]) &&
      out[j] == x[ArgIdx(s, x, j)]
  {
    var c, h, w := WinC(s, j), WinH(s, j), WinW(s, j);
    WindowDecode(s, j);
    WinScanIsFirstMax(s, x, c, h, w, WindowSize(s));
    var b := WinScan(s, x, c, h, w, WindowSize(s));
    ScanInRange(s, c, h, w, b.t);
    var out := PoolOut(s, x);
    assert ForwardStep(s, x).1.value == out;
    assert out[j] == WinMax(s, x, j) == b.v.r;
    assert b.v.r == CellVal(s, x, c, h, w, b.t) == x[ArgIdx(s, x, j)];
  }

  /** A flag set by window j survives the later windows. */
  lemma {:induction false} MaskKeepsFlags(s: PoolState, x: seq<real>, j: int, n: int)
    requires s.Valid() && 0 <= j < n <= s.OutSize()
    ensures MaskAfter(s, x, n)[ArgIdx(s, x, j)] == 1.0
    decreases n
  {
    if n - 1 > j {
      MaskKeepsFlags(s, x, j, n - 1);
    }
  }

  /** A flagged step among the first t makes the backward scan succeed. */
  lemma {:induction false} LastFlagFinds(s: PoolState, mask: seq<real>, c: int, h: int, w: int, t: int, u: int)
    requires s.poolWidth > 0 && 0 <= u < t && Flagged(s, mask, c, h, w, u)
    ensures u <= LastFlag(s, mask, c, h, w, t) < t
    decreases t
  {
    if !Flagged(s, mask, c, h, w, t - 1) {
      LastFlagFinds(s, mask, c, h, w, t - 1, u);
    }
  }

  lemma {:induction false} LastFlagRange(s: PoolState, mask: seq<real>, c: int, h: int, w: int, t: int)
    requires s.poolWidth > 0
    ensures -1 <= LastFlag(s, mask, c, h, w, t) < t || (t <= 0 && LastFlag(s, mask, c, h, w, t) == -1)
    decreases t
  {
    if t > 0 && !Flagged(s, mask, c, h, w, t - 1) {
      LastFlagRange(s, mask, c, h, w, t - 1);
    }
  }

  /** After forward, every window holds a flagged cell, so backward finds one
      for every window. */
  lemma ForwardFlagsEveryWindow(s: PoolState, x: seq<real>, j: int)
    requires s.Valid() && |x| == s.InSize() && 0 <= j < s.OutSize()
    ensures FlagIdx(s, MaskAfter(s, x, s.OutSize()), j) >= 0
  {
    OutputDimsExact(s);
    var c, h, w := WinC(s, j), WinH(s, j), WinW(s, j);
    var m := MaskAfter(s, x, s.OutSize());
    WindowDecode(s, j);
    WinScanIsFirstMax(s, x, c, h, w, WindowSize(s));
    var b := WinScan(s, x, c, h, w, WindowSize(s));
    ScanInRange(s, c, h, w, b.t);
    MaskKeepsFlags(s, x, j, s.OutSize());
    assert Flagged(s, m, c, h, w, b.t);
    LastFlagFinds(s, m, c, h, w, WindowSize(s), b.t);
  }

  /** When every one of the first n windows finds a flagged cell, the input
      gradient sums to the sum of the first n upstream gradients: each upstream
      value is added exactly once. */
  lemma {:induction false} DInAfterSum(s: PoolState, mask: seq<real>, dOut: seq<real>, n: int)
    requires s.Valid() && 0 <= n <= |dOut| && n <= s.OutSize()
    requires forall j :: 0 <= j < n ==> FlagIdx(s, mask, j) >= 0
    ensures Sum(DInAfter(s, mask, dOut, n)) == Sum(dOut[..n])
    decreases n
  {
    if n == 0 {
      SumZeros(s.InSize());
    } else {
      var j := n - 1;
      DInAfterSum(s, mask, dOut, j);
      var prev := DInAfter(s, mask, dOut, j);
      var i := FlagIdx(s, mask, j);
      assert DInAfter(s, mask, dOut, n) == prev[i := prev[i] + dOut[j]];
      SumUpdate(prev, i, prev[i] + dOut[j]);
      assert dOut[..n][..j] == dOut[..j];
    }
  }

  /** The window scans read only the configuration, not the buffers. */
  lemma {:induction false} LastFlagSameConfig(s: PoolState, s1: PoolState, mask: seq<real>, c: int, h: int, w: int, t: int)
    requires s.poolWidth > 0
    requires s1 == s.(maxMask := s1.maxMask, lastOutput := s1.lastOutput, dInput := s1.dInput)
    ensures LastFlag(s, mask, c, h, w, t) == LastFlag(s1, mask, c, h, w, t)
    decreases t
  {
    if t > 0 {
      LastFlagSameConfig(s, s1, mask, c, h, w, t - 1);
    }
  }

  /** Backward after forward conserves the gradient: the input gradient sums to
      the sum of `d_out`, whatever the stride. */
  lemma BackwardConservesSum(s: PoolState, x: seq<real>, d: seq<real>)
    requires s.Valid() && |x| == s.InSize() && |d| == s.OutSize()
    ensures var s1 := ForwardStep(s, x).0;
      s1.Valid() && BackwardStep(s1, d).1.Ok? && Sum(BackwardStep(s1, d).1.value) == Sum(d)
  {
    var s1 := ForwardStep(s, x).0;
    var m := MaskAfter(s, x, s.OutSize());
    assert s1.maxMask == m;
    forall j | 0 <= j < s.OutSize()
      ensures FlagIdx(s1, m, j) >= 0
    {
      ForwardFlagsEveryWindow(s, x, j);
      LastFlagSameConfig(s, s1, m, WinC(s, j), WinH(s, j), WinW(s, j), WindowSize(s));
    }
    DInAfterSum(s1, m, d, s.OutSize());
    assert d[..s.OutSize()] == d;
  }

  /** Forward and backward fail exactly on a length mismatch; the output
      shape is `{C, Ho, Wo}`. */
  lemma SizeChecks(s: PoolState, x: seq<real>, d: seq<real>)
    requires s.Valid()
    ensures ForwardStep(s, x).1.Err? <==> |x| != s.InSize()
    ensures BackwardStep(s, d).1.Err? <==> |d| != s.OutSize()
    ensures ForwardStep(s, x).0.Valid() && BackwardStep(s, d).0.Valid()
    ensures OutputSize(s)[0] * (OutputSize(s)[1] * OutputSize(s)[2]) == |ForwardStep(s, x).0.lastOutput|
  {
  }

  // ---------------------------------------------------------------------
  // The loops
  // ---------------------------------------------------------------------

  /** The two inner loops of forward over one window: running maximum with a
      strict `>`, starting from -infinity. */
  method WindowMax(s: PoolState, x: seq<real>, c: int, h: int, w: int)
    returns (maxVal: ExtReal, maxH: int, maxW: int)
    requires s.Valid() && |x| == s.InSize()
    requires 0 <= c < s.inputChannels && 0 <= h < s.outputHeight && 0 <= w < s.outputWidth
    ensures var b := WinScan(s, x, c, h, w, WindowSize(s));
      maxVal == b.v && maxH == ScanH(s, h, b.t) && maxW == ScanW(s, w, b.t)
  {
    maxVal, maxH, maxW := NegInf, -1, -1;
    ghost var t := 0;
    ghost var best := -1;
    var ph := 0;
    while ph < s.poolHeight
      invariant 0 <= ph <= s.poolHeight && t == ph * s.poolWidth
      invariant WinScan(s, x, c, h, w, t) == Scan(best, maxVal)
      invariant best >= 0 ==> maxH == ScanH(s, h, best) && maxW == ScanW(s, w, best)
      invariant best < 0 ==> maxH == -1 && maxW == -1
      invariant best < t
    {
      var pw := 0;
      while pw < s.poolWidth
        invariant 0 <= pw <= s.poolWidth && t == ph * s.poolWidth + pw
        invariant WinScan(s, x, c, h, w, t) == Scan(best, maxVal)
        invariant best >= 0 ==> maxH == ScanH(s, h, best) && maxW == ScanW(s, w, best)
        invariant best < 0 ==> maxH == -1 && maxW == -1
        invariant best < t
      {
        var inputH := h * s.stride + ph;
        var inputW := w * s.stride + pw;
        DivModUnique(ph, pw, s.poolWidth);
        assert t < s.poolHeight * s.poolWidth by {
          assert (ph + 1) * s.poolWidth == ph * s.poolWidth + s.poolWidth;
          MulMono(ph + 1, s.poolHeight, s.poolWidth);
        }
        ScanInRange(s, c, h, w, t);
        var v := x[c * (s.inputHeight * s.inputWidth) + inputH * s.inputWidth + inputW];
        if Gt(v, maxVal) {
          maxVal := Fin(v);
          maxH := inputH;
          maxW := inputW;
          best := t;
        }
        pw := pw + 1;
        t := t + 1;
      }
      assert (ph + 1) * s.poolWidth == ph * s.poolWidth + s.poolWidth;
      ph := ph + 1;
    }
    WinScanIsFirstMax(s, x, c, h, w, WindowSize(s));
  }

  /** The forward loops over channel and output position: flag the maximum of
      each window and write it to the output. */
  /** The body of forward's inner loop: window (c, h, w), window j in
      output order, has its maximum at input index i, of value v. */
  method PoolWindow(s: PoolState, x: seq<real>, c: int, h: int, w: int) returns (i: int, v: real)
    requires s.Valid() && |x| == s.InSize()
    requires 0 <= c < s.inputChannels && 0 <= h < s.outputHeight && 0 <= w < s.outputWidth
    ensures var j := c * (s.outputHeight * s.outputWidth) + h * s.outputWidth + w;
      0 <= j < s.OutSize() && i == ArgIdx(s, x, j) && v == WinMax(s, x, j)
  {
    OutputDimsExact(s);
    Idx3Bound(c, h, w, s.inputChannels, s.outputHeight, s.outputWidth);
    Decode3(c, h, w, s.outputHeight, s.outputWidth);
    var maxVal, maxH, maxW := WindowMax(s, x, c, h, w);
    WinScanIsFirstMax(s, x, c, h, w, WindowSize(s));
    ScanInRange(s, c, h, w, WinScan(s, x, c, h, w, WindowSize(s)).t);
    i := c * (s.inputHeight * s.inputWidth) + maxH * s.inputWidth + maxW;
    v := maxVal.r;
  }

  /** The inner loop of forward over one output row: windows base, ...,
      base + W_out - 1 in output order, those of row h of channel c. */
  method PoolRow(s: PoolState, x: seq<real>, c: int, h: int, ghost base: int, mask0: seq<real>, out0: seq<real>)
    returns (mask: seq<real>, out: seq<real>)
    requires s.Valid() && |x| == s.InSize() && 0 <= c < s.inputChannels && 0 <= h < s.outputHeight
    requires base == c * (s.outputHeight * s.outputWidth) + h * s.outputWidth
    requires 0 <= base && base + s.outputWidth <= s.OutSize()
    requires mask0 == MaskAfter(s, x, base) && |out0| == s.OutSize()
    requires forall j :: 0 <= j < base ==> out0[j] == WinMax(s, x, j)
    ensures mask == MaskAfter(s, x, base + s.outputWidth) && |out| == s.OutSize()
    ensures forall j :: 0 <= j < base + s.outputWidth ==> out[j] == WinMax(s, x, j)
  {
    mask, out := mask0, out0;
    var w := 0;
    while w < s.outputWidth
      invariant 0 <= w <= s.outputWidth
      invariant mask == MaskAfter(s, x, base + w) && |out| == s.OutSize()
      invariant forall j :: 0 <= j < base + w ==> out[j] == WinMax(s, x, j)
    {
      var i, v := PoolWindow(s, x, c, h, w);
      mask := mask[i := 1.0];
      out := out[c * (s.outputHeight * s.outputWidth) + h * s.outputWidth + w := v];
      w := w + 1;
    }
  }

  method ForwardLoop(s: PoolState, x: seq<real>, mask0: seq<real>, out0: seq<real>)
    returns (mask: seq<real>, out: seq<real>)
    requires s.Valid() && |x| == s.InSize() && mask0 == Zeros(s.InSize()) && |out0| == s.OutSize()
    ensures mask == MaskAfter(s, x, s.OutSize())
    ensures out == PoolOut(s, x)
  {
    var how := s.outputHeight * s.outputWidth;
    OutputDimsExact(s);
    mask, out := mask0, out0;
    ghost var base := 0;
    var c := 0;
    while c < s.inputChannels
      invariant 0 <= c <= s.inputChannels && base == c * how && 0 <= base <= s.OutSize()
      invariant mask == MaskAfter(s, x, base) && |out| == s.OutSize()
      invariant forall j :: 0 <= j < base ==> out[j] == WinMax(s, x, j)
    {
      var h := 0;
      while h < s.outputHeight
        invariant 0 <= h <= s.outputHeight && base == c * how + h * s.outputWidth && 0 <= base <= s.OutSize()
        invariant mask == MaskAfter(s, x, base) && |out| == s.OutSize()
        invariant forall j :: 0 <= j < base ==> out[j] == WinMax(s, x, j)
      {
        Idx3Bound(c, h, s.outputWidth - 1, s.inputChannels, s.outputHeight, s.outputWidth);
        mask, out := PoolRow(s, x, c, h, base, mask, out);
        assert (h + 1) * s.outputWidth == h * s.outputWidth + s.outputWidth;
        base := base + s.outputWidth;
        h := h + 1;
      }
      assert (c + 1) * how == c * how + s.outputHeight * s.outputWidth;
      MulMono(c + 1, s.inputChannels, how);
      c := c + 1;
    }
  }

  /** The two inner loops of backward over one window: remember the last
      flagged cell in scan order. */
  method WindowLastFlag(s: PoolState, mask: seq<real>, c: int, h: int, w: int)
    returns (maxH: int, maxW: int)
    requires s.Valid() && |mask| == s.InSize()
    requires 0 <= c < s.inputChannels && 0 <= h < s.outputHeight && 0 <= w < s.outputWidth
    ensures var t := LastFlag(s, mask, c, h, w, WindowSize(s));
      (t >= 0 ==> maxH == ScanH(s, h, t) && maxW == ScanW(s, w, t)) &&
      (t < 0 ==> maxH == -1 && maxW == -1)
  {
    maxH, maxW := -1, -1;
    ghost var t := 0;
    var oh := 0;
    while oh < s.poolHeight
      invariant 0 <= oh <= s.poolHeight && t == oh * s.poolWidth
      invariant var l := LastFlag(s, mask, c, h, w, t);
        (l >= 0 ==> maxH == ScanH(s, h, l) && maxW == ScanW(s, w, l)) && (l < 0 ==> maxH == -1 && maxW == -1)
    {
      var ow := 0;
      while ow < s.poolWidth
        invariant 0 <= ow <= s.poolWidth && t == oh * s.poolWidth + ow
        invariant var l := LastFlag(s, mask, c, h, w, t);
          (l >= 0 ==> maxH == ScanH(s, h, l) && maxW == ScanW(s, w, l)) && (l < 0 ==> maxH == -1 && maxW == -1)
      {
        var ih := h * s.stride + oh;
        var iw := w * s.stride + ow;
        DivModUnique(oh, ow, s.poolWidth);
        assert t < s.poolHeight * s.poolWidth by {
          assert (oh + 1) * s.poolWidth == oh * s.poolWidth + s.poolWidth;
          MulMono(oh + 1, s.poolHeight, s.poolWidth);
        }
        ScanInRange(s, c, h, w, t);
        if mask[c * (s.inputHeight * s.inputWidth) + ih * s.inputWidth + iw] == 1.0 {
          maxH := ih;
          maxW := iw;
        }
        ow := ow + 1;
        t := t + 1;
      }
      assert (oh + 1) * s.poolWidth == oh * s.poolWidth + s.poolWidth;
      oh := oh + 1;
    }
  }

  /** The backward loops over channel and output position. */
  method BackwardLoop(s: PoolState, mask: seq<real>, d: seq<real>, dIn0: seq<real>)
    returns (dIn: seq<real>)
    requires s.Valid() && |mask| == s.InSize() && |d| == s.OutSize() && dIn0 == Zeros(s.InSize())
    ensures dIn == DInAfter(s, mask, d, s.OutSize())
  {
    var how := s.outputHeight * s.outputWidth;
    var n := s.inputChannels * how;
    OutputDimsExact(s);
    dIn := dIn0;
    ghost var k := 0;
    var c := 0;
    while c < s.inputChannels
      invariant 0 <= c <= s.inputChannels && k == c * how && k <= n
      invariant dIn == DInAfter(s, mask, d, k)
    {
      MulMono(c, s.inputChannels, how);
      var h := 0;
      while h < s.outputHeight
        invariant 0 <= h <= s.outputHeight && k == c * how + h * s.outputWidth && k <= n
        invariant dIn == DInAfter(s, mask, d, k)
      {
        var w := 0;
        while w < s.outputWidth
          invariant 0 <= w <= s.outputWidth && k == c * how + h * s.outputWidth + w && k <= n
          invariant dIn == DInAfter(s, mask, d, k)
        {
          Idx3Bound(c, h, w, s.inputChannels, s.outputHeight, s.outputWidth);
          Decode3(c, h, w, s.outputHeight, s.outputWidth);
          var maxH, maxW := WindowLastFlag(s, mask, c, h, w);
          var t := LastFlag(s, mask, c, h, w, WindowSize(s));
          LastFlagRange(s, mask, c, h, w, WindowSize(s));
          if t >= 0 {
            ScanInRange(s, c, h, w, t);
          }
          if maxH >= 0 && maxW >= 0 {
            var i := c * (s.inputHeight * s.inputWidth) + maxH * s.inputWidth + maxW;
            assert i == FlagIdx(s, mask, k);
            dIn := dIn[i := dIn[i] + d[c * how + h * s.outputWidth + w]];
          } else {
            assert FlagIdx(s, mask, k) == -1;
          }
          w, k := w + 1, k + 1;
        }
        assert (h + 1) * s.outputWidth == h * s.outputWidth + s.outputWidth;
        h := h + 1;
      }
      assert (c + 1) * how == c * how + how;
      c := c + 1;
    }
  }

  // ---------------------------------------------------------------------
  // The layer object
  // ---------------------------------------------------------------------

  class PoolLayer {
    const inputHeight: int
    const inputWidth: int
    const inputChannels: int
    const poolHeight: int
    const poolWidth: int
    const outputHeight: int
    const outputWidth: int
    const stride: int
    var lastOutput: seq<real>
    var maxMask: seq<real>
    var dInput: seq<real>

    function State(): PoolState
      reads this
    {
      PoolState(inputChannels, inputHeight, inputWidth, poolHeight, poolWidth, stride,
                outputHeight, outputWidth, lastOutput, maxMask, dInput)
    }

    ghost predicate Valid()
      reads this
    {
      State().Valid()
    }

    constructor (inputChannels: int, inputHeight: int, inputWidth: int, poolSize: int, stride: int)
      requires inputChannels >= 0 && stride >= 1 && 1 <= poolSize <= inputHeight && poolSize <= inputWidth
      ensures Valid() && State() == Init(inputChannels, inputHeight, inputWidth, poolSize, stride)
    {
      this.inputChannels := inputChannels;
      this.inputHeight := inputHeight;
      this.inputWidth := inputWidth;
      this.poolHeight := poolSize;
      this.poolWidth := poolSize;
      this.stride := stride;
      var ho := CDiv(inputHeight - poolSize, stride) + 1;
      var wo := CDiv(inputWidth - poolSize, stride) + 1;
      this.outputHeight := ho;
      this.outputWidth := wo;
      MulMono(0, ho, wo);
      MulMono(0, inputChannels, ho * wo);
      MulMono(0, inputHeight, inputWidth);
      MulMono(0, inputChannels, inputHeight * inputWidth);
      lastOutput := Zeros(inputChannels * (ho * wo));
      dInput := Zeros(inputChannels * (inputHeight * inputWidth));
      maxMask := Zeros(inputChannels * (inputHeight * inputWidth));
    }

    method Forward(input: seq<real>, train: bool) returns (r: Outcome<seq<real>>)
      requires Valid()
      modifies this
      ensures Valid()
      ensures (State(), r) == ForwardStep(old(State()), input)
    {
      if |input| != inputChannels * (inputHeight * inputWidth) {
        return Err("PoolLayer::forward: input size mismatch.");
      }
      var s0 := State();
      maxMask := Zeros(|maxMask|);
      maxMask, lastOutput := ForwardLoop(s0, input, maxMask, lastOutput);
      return Ok(lastOutput);
    }

    method Backward(dOut: seq<real>) returns (r: Outcome<seq<real>>)
      requires Valid()
      modifies this
      ensures Valid()
      ensures (State(), r) == BackwardStep(old(State()), dOut)
    {
      if |dOut| != inputChannels * (outputHeight * outputWidth) {
        return Err("PoolLayer::backward: d_out size mismatch.");
      }
      var s0 := State();
      dInput := Zeros(|dInput|);
      dInput := BackwardLoop(s0, maxMask, dOut, dInput);
      return Ok(dInput);
    }

    method GetOutputSize() returns (shape: seq<int>)
      ensures shape == OutputSize(State())
    {
      shape := [inputChannels, outputHeight, outputWidth];
    }
  }
}
