/** The convolution layer (CNN/src/ConvolutionLayer.cpp): F filters of size
    K x K over C channels with stride S and zero padding P.  Forward pads the
    input when P > 0 and takes, for every filter and output position, the bias
    plus the dot product of the filter with its window.  Backward RESETS the
    filter and bias gradients on every call, then accumulates the gradients of
    that one call; with P > 0 the input gradient is accumulated in a padded
    buffer and cropped. */
module Convolution {
  import opened Tensor

  /** The constructor's arguments and the shape arithmetic derived from them. */
  datatype ConvConfig = ConvConfig(
    numFilters: int, filterSize: int, stride: int, padding: int,
    inputHeight: int, inputWidth: int, outputHeight: int, outputWidth: int,
    initChannels: int, paddedHeight: int, paddedWidth: int)
  {
    function KK(): int { filterSize * filterSize }
    /** Weights per filter. */
    function CKK(): int { initChannels * KK() }
    function OHW(): int { outputHeight * outputWidth }
    function PHW(): int { paddedHeight * paddedWidth }
    function InHW(): int { inputHeight * inputWidth }
    function FilterCount(): int { numFilters * CKK() }
    function OutSize(): int { numFilters * OHW() }
    function PaddedSize(): int { initChannels * PHW() }
    function InSize(): int { initChannels * InHW() }

    /** What the index maps need. */
    predicate Indexable() {
      outputHeight > 0 && outputWidth > 0 && filterSize > 0
    }

    /** The configurations whose windows all lie inside the padded input. */
    ghost predicate Valid() {
      numFilters >= 0 && filterSize >= 1 && stride >= 1 && padding >= 0 &&
      inputHeight >= 0 && inputWidth >= 0 && initChannels >= 0 &&
      paddedHeight == inputHeight + 2 * padding && paddedWidth == inputWidth + 2 * padding &&
      filterSize <= paddedHeight && filterSize <= paddedWidth &&
      outputHeight == CDiv(inputHeight - filterSize + 2 * padding, stride) + 1 &&
      outputWidth == CDiv(inputWidth - filterSize + 2 * padding, stride) + 1 &&
      outputHeight >= 1 && outputWidth >= 1
    }
  }

  /** The shape arithmetic of the constructor: `Ho = (H - K + 2P) / S + 1` with
      C++ truncating division, and the padded dimensions `H + 2P`, `W + 2P`. */
  function MakeConfig(f: int, k: int, s: int, p: int, h: int, w: int, c: int): (cfg: ConvConfig)
    requires f >= 0 && k >= 1 && s >= 1 && p >= 0 && h >= 0 && w >= 0 && c >= 0
    requires k <= h + 2 * p && k <= w + 2 * p
    ensures cfg.Valid()
    ensures cfg.outputHeight == (h - k + 2 * p) / s + 1 && cfg.outputWidth == (w - k + 2 * p) / s + 1
    ensures cfg.paddedHeight == h + 2 * p && cfg.paddedWidth == w + 2 * p
  {
    ConvConfig(f, k, s, p, h, w, CDiv(h - k + 2 * p, s) + 1, CDiv(w - k + 2 * p, s) + 1,
               c, h + 2 * p, w + 2 * p)
  }

  /** All the sizes are non-negative and the output has at least one row and
      one column. */
  lemma ConfigSizes(cfg: ConvConfig)
    requires cfg.Valid()
    ensures cfg.outputHeight >= 1 && cfg.outputWidth >= 1 && cfg.paddedHeight >= 1 && cfg.paddedWidth >= 1
    ensures cfg.KK() >= 1 && cfg.CKK() >= 0 && cfg.OHW() >= 1 && cfg.PHW() >= 1 && cfg.InHW() >= 0
    ensures cfg.FilterCount() >= 0 && cfg.OutSize() >= 0 && cfg.PaddedSize() >= 0 && cfg.InSize() >= 0
    ensures cfg.padding == 0 ==> cfg.PHW() == cfg.InHW() && cfg.PaddedSize() == cfg.InSize()
  {
    MulMono(1, cfg.filterSize, cfg.filterSize);
    MulMono(0, cfg.initChannels, cfg.KK());
    MulMono(1, cfg.outputHeight, cfg.outputWidth);
    MulMono(1, cfg.paddedHeight, cfg.paddedWidth);
    MulMono(0, cfg.inputHeight, cfg.inputWidth);
    MulMono(0, cfg.numFilters, cfg.CKK());
    MulMono(0, cfg.numFilters, cfg.OHW());
    MulMono(0, cfg.initChannels, cfg.PHW());
    MulMono(0, cfg.initChannels, cfg.InHW());
  }

  datatype ConvState = ConvState(
    cfg: ConvConfig,
    filters: seq<real>, biases: seq<real>, dFilters: seq<real>, dBiases: seq<real>,
    lastOutput: seq<real>, dPaddedInput: seq<real>, dInputGrad: seq<real>, lastInput: seq<real>)
  {
    ghost predicate Valid() {
      cfg.Valid() &&
      |filters| == cfg.FilterCount() && |biases| == cfg.numFilters &&
      |dFilters| == cfg.FilterCount() && |dBiases| == cfg.numFilters &&
      |lastOutput| == cfg.OutSize() && |lastInput| == cfg.PaddedSize() &&
      |dPaddedInput| == cfg.PaddedSize() && |dInputGrad| == cfg.InSize()
    }
  }

  /** The state the constructor builds.  The He-normal draws are supplied as
      `initialFilters`; every bias starts at 0 and every other buffer is zero. */
  function Init(cfg: ConvConfig, initialFilters: seq<real>): (s: ConvState)
    requires cfg.Valid() && |initialFilters| == cfg.FilterCount()
    ensures s.Valid() && s.filters == initialFilters
    ensures s.biases == Zeros(cfg.numFilters) && s.dFilters == Zeros(cfg.FilterCount())
  {
    ConfigSizes(cfg);
    ConvState(cfg, initialFilters, Zeros(cfg.numFilters), Zeros(cfg.FilterCount()), Zeros(cfg.numFilters),
              Zeros(cfg.OutSize()), Zeros(cfg.PaddedSize()), Zeros(cfg.InSize()), Zeros(cfg.PaddedSize()))
  }

  // ---------------------------------------------------------------------
  // Index maps.  Output j is (filter, row, column) of an F x Ho x Wo buffer;
  // tap t is (channel, row, column) of a C x K x K filter.
  // ---------------------------------------------------------------------

  function OutF(cfg: ConvConfig, j: int): int
    requires cfg.outputHeight > 0 && cfg.outputWidth > 0
  {
    Plane(j, cfg.outputHeight, cfg.outputWidth)
  }

  function OutH(cfg: ConvConfig, j: int): int
    requires cfg.outputHeight > 0 && cfg.outputWidth > 0
  {
    Row(j, cfg.outputHeight, cfg.outputWidth)
  }

  function OutW(cfg: ConvConfig, j: int): int
    requires cfg.outputWidth > 0
  {
    Col(j, cfg.outputWidth)
  }

  function TapC(cfg: ConvConfig, t: int): int
    requires cfg.filterSize > 0
  {
    Plane(t, cfg.filterSize, cfg.filterSize)
  }

  function TapH(cfg: ConvConfig, t: int): int
    requires cfg.filterSize > 0
  {
    Row(t, cfg.filterSize, cfg.filterSize)
  }

  function TapW(cfg: ConvConfig, t: int): int
    requires cfg.filterSize > 0
  {
    Col(t, cfg.filterSize)
  }

  /** Index in the (padded) input buffer read by tap t of output j. */
  function XIdx(cfg: ConvConfig, j: int, t: int): int
    requires cfg.outputHeight > 0 && cfg.outputWidth > 0 && cfg.filterSize > 0
  {
    TapC(cfg, t) * cfg.PHW() + (OutH(cfg, j) * cfg.stride + TapH(cfg, t)) * cfg.paddedWidth
      + (OutW(cfg, j) * cfg.stride + TapW(cfg, t))
  }

  /** Index of the weight of tap t of the filter of output j. */
  function WIdx(cfg: ConvConfig, j: int, t: int): int
    requires cfg.outputHeight > 0 && cfg.outputWidth > 0
  {
    OutF(cfg, j) * cfg.CKK() + t
  }

  /** Every window lies inside the padded input: `h * S + K <= Hp` for `h < Ho`. */
  lemma WindowFits(h: int, stride: int, outH: int, paddedH: int, k: int)
    requires stride >= 1 && 1 <= k <= paddedH && outH == CDiv(paddedH - k, stride) + 1 && 0 <= h < outH
    ensures 0 <= h * stride && h * stride + k <= paddedH
  {
    var q := (paddedH - k) / stride;
    MulMono(0, h, stride);
    MulMono(h, q, stride);
    assert q * stride <= paddedH - k;
  }

  lemma OutputDecode(cfg: ConvConfig, j: int)
    requires cfg.Valid() && 0 <= j < cfg.OutSize()
    ensures 0 <= OutF(cfg, j) < cfg.numFilters && 0 <= OutH(cfg, j) < cfg.outputHeight && 0 <= OutW(cfg, j) < cfg.outputWidth
    ensures j == OutF(cfg, j) * cfg.OHW() + OutH(cfg, j) * cfg.outputWidth + OutW(cfg, j)
  {
    ConfigSizes(cfg);
    Encode3(j, cfg.outputHeight, cfg.outputWidth);
    if OutF(cfg, j) >= cfg.numFilters {
      MulMono(cfg.numFilters, OutF(cfg, j), cfg.OHW());
    }
  }

  lemma TapDecode(cfg: ConvConfig, t: int)
    requires cfg.Valid() && 0 <= t < cfg.CKK()
    ensures 0 <= TapC(cfg, t) < cfg.initChannels && 0 <= TapH(cfg, t) < cfg.filterSize && 0 <= TapW(cfg, t) < cfg.filterSize
    ensures t == TapC(cfg, t) * cfg.KK() + TapH(cfg, t) * cfg.filterSize + TapW(cfg, t)
  {
    ConfigSizes(cfg);
    Encode3(t, cfg.filterSize, cfg.filterSize);
    if TapC(cfg, t) >= cfg.initChannels {
      MulMono(cfg.initChannels, TapC(cfg, t), cfg.KK());
    }
  }

  /** Every tap of every output reads inside the padded input and the filters. */
  lemma TapInRange(cfg: ConvConfig, j: int, t: int)
    requires cfg.Valid() && 0 <= j < cfg.OutSize() && 0 <= t < cfg.CKK()
    ensures 0 <= XIdx(cfg, j, t) < cfg.PaddedSize()
    ensures 0 <= WIdx(cfg, j, t) < cfg.FilterCount()
  {
    OutputDecode(cfg, j);
    TapDecode(cfg, t);
    var oh, ow := OutH(cfg, j), OutW(cfg, j);
    WindowFits(oh, cfg.stride, cfg.outputHeight, cfg.paddedHeight, cfg.filterSize);
    WindowFits(ow, cfg.stride, cfg.outputWidth, cfg.paddedWidth, cfg.filterSize);
    var ih, iw := oh * cfg.stride + TapH(cfg, t), ow * cfg.stride + TapW(cfg, t);
    assert 0 <= ih < cfg.paddedHeight && 0 <= iw < cfg.paddedWidth;
    Idx3Bound(TapC(cfg, t), ih, iw, cfg.initChannels, cfg.paddedHeight, cfg.paddedWidth);
    Idx2Bound(OutF(cfg, j), t, cfg.numFilters, cfg.CKK());
  }

  // ---------------------------------------------------------------------
  // Padding and cropping
  // ---------------------------------------------------------------------

  /** Whether padded cell i lies in the interior copied from the input. */
  predicate Interior(cfg: ConvConfig, i: int)
    requires cfg.paddedHeight > 0 && cfg.paddedWidth > 0
  {
    var ph, pw := Row(i, cfg.paddedHeight, cfg.paddedWidth), Col(i, cfg.paddedWidth);
    cfg.padding <= ph < cfg.padding + cfg.inputHeight && cfg.padding <= pw < cfg.padding + cfg.inputWidth
  }

  /** The input index an interior padded cell is copied from. */
  function Src(cfg: ConvConfig, i: int): int
    requires cfg.paddedHeight > 0 && cfg.paddedWidth > 0
  {
    var c, ph, pw := Plane(i, cfg.paddedHeight, cfg.paddedWidth), Row(i, cfg.paddedHeight, cfg.paddedWidth), Col(i, cfg.paddedWidth);
    c * cfg.InHW() + (ph - cfg.padding) * cfg.inputWidth + (pw - cfg.padding)
  }

  /** The padded index input cell k is copied to. */
  function PIdx(cfg: ConvConfig, k: int): int
    requires cfg.inputHeight > 0 && cfg.inputWidth > 0
  {
    var c, h, w := Plane(k, cfg.inputHeight, cfg.inputWidth), Row(k, cfg.inputHeight, cfg.inputWidth), Col(k, cfg.inputWidth);
    c * cfg.PHW() + (h + cfg.padding) * cfg.paddedWidth + (w + cfg.padding)
  }

  /** The zero-padded input: the input in the interior, 0 in the border. */
  function Pad(cfg: ConvConfig, x: seq<real>): (r: seq<real>)
    requires cfg.Valid()
    ensures |r| == cfg.PaddedSize()
  {
    ConfigSizes(cfg);
    seq(cfg.PaddedSize(), i => if Interior(cfg, i) then At(x, Src(cfg, i)) else 0.0)
  }

  /** The interior of a padded buffer, at offset P. */
  function Crop(cfg: ConvConfig, dp: seq<real>): (r: seq<real>)
    requires cfg.Valid()
    ensures |r| == cfg.InSize()
  {
    ConfigSizes(cfg);
    seq(cfg.InSize(), k => if cfg.inputHeight > 0 && cfg.inputWidth > 0 then At(dp, PIdx(cfg, k)) else 0.0)
  }

  /** Copying the input cells `0 .. n-1` into a zeroed padded buffer, in the
      order of the copy loop. */
  function PadPrefix(cfg: ConvConfig, x: seq<real>, n: int): (r: seq<real>)
    requires cfg.Valid() && n <= cfg.InSize()
    ensures |r| == cfg.PaddedSize()
    decreases n
  {
    ConfigSizes(cfg);
    if n <= 0 then Zeros(cfg.PaddedSize())
    else
      var prev := PadPrefix(cfg, x, n - 1);
      var i := PIdx(cfg, n - 1);
      if 0 <= i < |prev| then prev[i := At(x, n - 1)] else prev
  }

  lemma InputDecode(cfg: ConvConfig, k: int)
    requires cfg.Valid() && 0 <= k < cfg.InSize()
    ensures cfg.inputHeight > 0 && cfg.inputWidth > 0
    ensures 0 <= Plane(k, cfg.inputHeight, cfg.inputWidth) < cfg.initChannels
    ensures 0 <= Row(k, cfg.inputHeight, cfg.inputWidth) < cfg.inputHeight
    ensures 0 <= Col(k, cfg.inputWidth) < cfg.inputWidth
    ensures k == Plane(k, cfg.inputHeight, cfg.inputWidth) * cfg.InHW()
               + Row(k, cfg.inputHeight, cfg.inputWidth) * cfg.inputWidth + Col(k, cfg.inputWidth)
  {
    Decode3Range(k, cfg.initChannels, cfg.inputHeight, cfg.inputWidth);
  }

  lemma PaddedDecode(cfg: ConvConfig, i: int)
    requires cfg.Valid() && 0 <= i < cfg.PaddedSize()
    ensures 0 <= Plane(i, cfg.paddedHeight, cfg.paddedWidth) < cfg.initChannels
    ensures 0 <= Row(i, cfg.paddedHeight, cfg.paddedWidth) < cfg.paddedHeight
    ensures 0 <= Col(i, cfg.paddedWidth) < cfg.paddedWidth
    ensures i == Plane(i, cfg.paddedHeight, cfg.paddedWidth) * cfg.PHW()
               + Row(i, cfg.paddedHeight, cfg.paddedWidth) * cfg.paddedWidth + Col(i, cfg.paddedWidth)
  {
    ConfigSizes(cfg);
    Decode3Range(i, cfg.initChannels, cfg.paddedHeight, cfg.paddedWidth);
  }

  /** Input cell k goes to an interior padded cell, which is copied from k. */
  lemma PIdxInterior(cfg: ConvConfig, k: int)
    requires cfg.Valid() && 0 <= k < cfg.InSize()
    ensures cfg.inputHeight > 0 && cfg.inputWidth > 0
    ensures 0 <= PIdx(cfg, k) < cfg.PaddedSize()
    ensures Interior(cfg, PIdx(cfg, k)) && Src(cfg, PIdx(cfg, k)) == k
  {
    InputDecode(cfg, k);
    ConfigSizes(cfg);
    var c, h, w := Plane(k, cfg.inputHeight, cfg.inputWidth), Row(k, cfg.inputHeight, cfg.inputWidth), Col(k, cfg.inputWidth);
    Idx3Bound(c, h + cfg.padding, w + cfg.padding, cfg.initChannels, cfg.paddedHeight, cfg.paddedWidth);
    Decode3(c, h + cfg.padding, w + cfg.padding, cfg.paddedHeight, cfg.paddedWidth);
  }

  /** An interior padded cell is the image of its source input cell. */
  lemma SrcInverse(cfg: ConvConfig, i: int)
    requires cfg.Valid() && 0 <= i < cfg.PaddedSize() && Interior(cfg, i)
    ensures cfg.inputHeight > 0 && cfg.inputWidth > 0
    ensures 0 <= Src(cfg, i) < cfg.InSize() && PIdx(cfg, Src(cfg, i)) == i
  {
    PaddedDecode(cfg, i);
    var c, ph, pw := Plane(i, cfg.paddedHeight, cfg.paddedWidth), Row(i, cfg.paddedHeight, cfg.paddedWidth), Col(i, cfg.paddedWidth);
    Idx3Bound(c, ph - cfg.padding, pw - cfg.padding, cfg.initChannels, cfg.inputHeight, cfg.inputWidth);
    Decode3(c, ph - cfg.padding, pw - cfg.padding, cfg.inputHeight, cfg.inputWidth);
  }

  /** After copying the first n input cells, an interior cell holds its input
      value when its source is among them and every other cell is 0. */
  lemma {:induction false} PadPrefixAt(cfg: ConvConfig, x: seq<real>, n: int, i: int)
    requires cfg.Valid() && 0 <= n <= cfg.InSize() && 0 <= i < cfg.PaddedSize()
    ensures PadPrefix(cfg, x, n)[i] == if Interior(cfg, i) && Src(cfg, i) < n then At(x, Src(cfg, i)) else 0.0
    decreases n
  {
    if n > 0 {
      PadPrefixAt(cfg, x, n - 1, i);
      PIdxInterior(cfg, n - 1);
      if Interior(cfg, i) {
        SrcInverse(cfg, i);
      }
    }
  }

  /** The copy loop builds the zero-padded input. */
  lemma PadPrefixIsPad(cfg: ConvConfig, x: seq<real>)
    requires cfg.Valid()
    ensures PadPrefix(cfg, x, cfg.InSize()) == Pad(cfg, x)
  {
    ConfigSizes(cfg);
    forall i | 0 <= i < cfg.PaddedSize()
      ensures PadPrefix(cfg, x, cfg.InSize())[i] == Pad(cfg, x)[i]
    {
      PadPrefixAt(cfg, x, cfg.InSize(), i);
      if Interior(cfg, i) {
        SrcInverse(cfg, i);
      }
    }
  }

  /** The padded buffer is 0 outside the interior and holds input (c, h, w)
      at (c, h + P, w + P). */
  lemma PadCells(cfg: ConvConfig, x: seq<real>, c: int, ph: int, pw: int)
    requires cfg.Valid() && 0 <= c < cfg.initChannels && 0 <= ph < cfg.paddedHeight && 0 <= pw < cfg.paddedWidth
    ensures var i := c * cfg.PHW() + ph * cfg.paddedWidth + pw;
      0 <= i < cfg.PaddedSize() &&
      Pad(cfg, x)[i] ==
        if cfg.padding <= ph < cfg.padding + cfg.inputHeight && cfg.padding <= pw < cfg.padding + cfg.inputWidth
        then At(x, c * cfg.InHW() + (ph - cfg.padding) * cfg.inputWidth + (pw - cfg.padding))
        else 0.0
  {
    Idx3Bound(c, ph, pw, cfg.initChannels, cfg.paddedHeight, cfg.paddedWidth);
    Decode3(c, ph, pw, cfg.paddedHeight, cfg.paddedWidth);
  }

  /** Without padding the padded buffer is the input itself, so the two
      forward paths read the same buffer. */
  lemma PadWithoutPadding(cfg: ConvConfig, x: seq<real>)
    requires cfg.Valid() && cfg.padding == 0 && |x| == cfg.InSize()
    ensures Pad(cfg, x) == x
  {
    ConfigSizes(cfg);
    forall i | 0 <= i < |x| ensures Pad(cfg, x)[i] == x[i] {
      PaddedDecode(cfg, i);
    }
  }

  /** Cropping the padded input gives the input back. */
  lemma CropOfPad(cfg: ConvConfig, x: seq<real>)
    requires cfg.Valid() && |x| == cfg.InSize()
    ensures Crop(cfg, Pad(cfg, x)) == x
  {
    forall k | 0 <= k < |x| ensures Crop(cfg, Pad(cfg, x))[k] == x[k] {
      PIdxInterior(cfg, k);
    }
  }

  /** The cropped buffer holds padded cell (c, h + P, w + P) at (c, h, w). */
  lemma CropCells(cfg: ConvConfig, dp: seq<real>, c: int, h: int, w: int)
    requires cfg.Valid() && 0 <= c < cfg.initChannels && 0 <= h < cfg.inputHeight && 0 <= w < cfg.inputWidth
    ensures var k := c * cfg.InHW() + h * cfg.inputWidth + w;
      0 <= k < cfg.InSize() &&
      Crop(cfg, dp)[k] == At(dp, c * cfg.PHW() + (h + cfg.padding) * cfg.paddedWidth + (w + cfg.padding))
  {
    Idx3Bound(c, h, w, cfg.initChannels, cfg.inputHeight, cfg.inputWidth);
    Decode3(c, h, w, cfg.inputHeight, cfg.inputWidth);
  }

  // ---------------------------------------------------------------------
  // Forward
  // ---------------------------------------------------------------------

  /** t |-> X[window tap t of output j] * W[tap t of the filter of output j] */
  function Taps(cfg: ConvConfig, x: seq<real>, w: seq<real>, j: int): int -> real
    requires cfg.outputHeight > 0 && cfg.outputWidth > 0 && cfg.filterSize > 0
  {
    t => Mul(At(x, XIdx(cfg, j, t)), At(w, WIdx(cfg, j, t)))
  }

  /** Output j: the bias of its filter plus the dot product of the filter with
      its stride-offset window of X. */
  function Cell(cfg: ConvConfig, x: seq<real>, w: seq<real>, b: seq<real>, j: int): real
    requires cfg.Valid()
  {
    ConfigSizes(cfg);
    At(b, OutF(cfg, j)) + SumF(Taps(cfg, x, w, j), cfg.CKK())
  }

  function ConvOut(cfg: ConvConfig, x: seq<real>, w: seq<real>, b: seq<real>): (r: seq<real>)
    requires cfg.Valid()
    ensures |r| == cfg.OutSize()
  {
    ConfigSizes(cfg);
    seq(cfg.OutSize(), j => Cell(cfg, x, w, b, j))
  }

  /** `forward`: the size check; then `last_input` is the input itself
      (P == 0) or its zero-padded copy (P > 0), and the output is the
      convolution of it. */
  function ForwardStep(s: ConvState, input: seq<real>): (ConvState, Outcome<seq<real>>)
    requires s.Valid()
  {
    if |input| != s.cfg.InSize() then (s, Err("ConvolutionLayer::forward: Input size mismatch."))
    else
      var x := if s.cfg.padding == 0 then input else Pad(s.cfg, input);
      var out := ConvOut(s.cfg, x, s.filters, s.biases);
      (s.(lastInput := x, lastOutput := out), Ok(out))
  }

  // ---------------------------------------------------------------------
  // Backward.  The accumulations are folds in the order of the source loops:
  // outputs j in (filter, row, column) order and, inside, the taps in
  // (channel, row, column) order without padding, or (row, column, channel)
  // order with padding.
  // ---------------------------------------------------------------------

  /** The tap visited at step u of the inner loops. */
  function TapOf(cfg: ConvConfig, u: int, channelLast: bool): int
    requires cfg.filterSize > 0
  {
    if !channelLast || cfg.initChannels <= 0 then u
    else
      Col(u, cfg.initChannels) * cfg.KK() + Plane(u, cfg.filterSize, cfg.initChannels) * cfg.filterSize
        + Row(u, cfg.filterSize, cfg.initChannels)
  }

  /** A product kept as one term, so that unfolding the folds below does not
      hand the solver non-linear arithmetic. */
  function Mul(a: real, b: real): real {
    a * b
  }

  function AddAt(d: seq<real>, i: int, v: real): (r: seq<real>)
    ensures |r| == |d|
  {
    if 0 <= i < |d| then d[i := d[i] + v] else d
  }

  /** `d_filters` after the first u taps of output j. */
  function DFInner(cfg: ConvConfig, x: seq<real>, d: seq<real>, acc: seq<real>, j: int, u: int, channelLast: bool): (r: seq<real>)
    requires cfg.Indexable()
    ensures |r| == |acc|
    decreases u
  {
    if u <= 0 then acc
    else
      var t := TapOf(cfg, u - 1, channelLast);
      AddAt(DFInner(cfg, x, d, acc, j, u - 1, channelLast), WIdx(cfg, j, t), Mul(At(x, XIdx(cfg, j, t)), At(d, j)))
  }

  /** `d_filters` after the first n outputs, from zero. */
  function DFFold(cfg: ConvConfig, x: seq<real>, d: seq<real>, n: int, channelLast: bool): (r: seq<real>)
    requires cfg.Valid()
    ensures |r| == cfg.FilterCount()
    decreases n
  {
    ConfigSizes(cfg);
    if n <= 0 then Zeros(cfg.FilterCount())
    else DFInner(cfg, x, d, DFFold(cfg, x, d, n - 1, channelLast), n - 1, cfg.CKK(), channelLast)
  }

  /** The (padded) input gradient after the first u taps of output j. */
  function DXInner(cfg: ConvConfig, w: seq<real>, d: seq<real>, acc: seq<real>, j: int, u: int, channelLast: bool): (r: seq<real>)
    requires cfg.Indexable()
    ensures |r| == |acc|
    decreases u
  {
    if u <= 0 then acc
    else
      var t := TapOf(cfg, u - 1, channelLast);
      AddAt(DXInner(cfg, w, d, acc, j, u - 1, channelLast), XIdx(cfg, j, t), Mul(At(w, WIdx(cfg, j, t)), At(d, j)))
  }

  function DXFold(cfg: ConvConfig, w: seq<real>, d: seq<real>, n: int, channelLast: bool): (r: seq<real>)
    requires cfg.Valid()
    ensures |r| == cfg.PaddedSize()
    decreases n
  {
    ConfigSizes(cfg);
    if n <= 0 then Zeros(cfg.PaddedSize())
    else DXInner(cfg, w, d, DXFold(cfg, w, d, n - 1, channelLast), n - 1, cfg.CKK(), channelLast)
  }

  /** `d_biases` after the first n outputs: each adds its gradient to its filter. */
  function DBFold(cfg: ConvConfig, d: seq<real>, n: int): (r: seq<real>)
    requires cfg.Valid()
    ensures |r| == cfg.numFilters
    decreases n
  {
    ConfigSizes(cfg);
    if n <= 0 then Zeros(cfg.numFilters)
    else AddAt(DBFold(cfg, d, n - 1), OutF(cfg, n - 1), At(d, n - 1))
  }

  /** `backward`: the gradients are zeroed first (even when a check then
      throws), then the `d_out` size check, the zeroing of `d_input_grad`,
      the `last_input` size check of the path taken, and the accumulations. */
  function BackwardStep(s: ConvState, dOut: seq<real>): (ConvState, Outcome<seq<real>>)
    requires s.Valid()
  {
    var cfg := s.cfg;
    var s0 := s.(dFilters := Zeros(|s.dFilters|), dBiases := Zeros(|s.dBiases|));
    if |dOut| != cfg.OutSize() then (s0, Err("ConvolutionLayer::backward: d_out size mismatch."))
    else
      var s1 := s0.(dInputGrad := Zeros(|s.dInputGrad|));
      var n := cfg.OutSize();
      if cfg.padding == 0 then
        if |s.lastInput| != cfg.InSize() then (s1, Err("ConvolutionLayer::backward: last_input size mismatch."))
        else
          var dx := DXFold(cfg, s.filters, dOut, n, false);
          (s1.(dFilters := DFFold(cfg, s.lastInput, dOut, n, false), dBiases := DBFold(cfg, dOut, n), dInputGrad := dx), Ok(dx))
      else
        if |s.lastInput| != cfg.PaddedSize() then (s1, Err("ConvolutionLayer::backward: last_input (padded) size mismatch."))
        else
          var dp := DXFold(cfg, s.filters, dOut, n, true);
          var dx := Crop(cfg, dp);
          (s1.(dBiases := DBFold(cfg, dOut, n), dFilters := DFFold(cfg, s.lastInput, dOut, n, true),
               dPaddedInput := dp, dInputGrad := dx), Ok(dx))
  }

  function ZeroGradientsStep(s: ConvState): ConvState {
    s.(dFilters := Zeros(|s.dFilters|), dBiases := Zeros(|s.dBiases|))
  }

  /** `update_filters`: `filters[i] -= lr * (d_filters[i] + l2 * filters[i])`. */
  function UpdateFiltersStep(s: ConvState, lr: real, l2: real): ConvState
    requires s.Valid()
  {
    s.(filters := L2Step(s.filters, s.dFilters, lr, l2))
  }

  /** `update_biases`: the same rule, L2 term included. */
  function UpdateBiasesStep(s: ConvState, lr: real, l2: real): ConvState
    requires s.Valid()
  {
    s.(biases := L2Step(s.biases, s.dBiases, lr, l2))
  }

  function OutputSize(s: ConvState): seq<int> {
    [s.cfg.numFilters, s.cfg.outputHeight, s.cfg.outputWidth]
  }

  /** `load_filters` replaces the filters wholesale. */
  function LoadFiltersStep(s: ConvState, newFilters: seq<real>): (t: ConvState)
    requires s.Valid() && |newFilters| == |s.filters|
    ensures t.Valid() && t.filters == newFilters && t.(filters := s.filters) == s
  {
    s.(filters := newFilters)
  }

  /** `load_biases` replaces the biases wholesale. */
  function LoadBiasesStep(s: ConvState, newBiases: seq<real>): (t: ConvState)
    requires s.Valid() && |newBiases| == |s.biases|
    ensures t.Valid() && t.biases == newBiases && t.(biases := s.biases) == s
  {
    s.(biases := newBiases)
  }

  /** Loading what was saved changes nothing. */
  lemma LoadSaveIdentity(s: ConvState)
    requires s.Valid()
    ensures LoadFiltersStep(s, s.filters) == s && LoadBiasesStep(s, s.biases) == s
  {
  }

  /** A parameter whose gradient is 0 decays by the factor 1 - lr * l2; the
      biases are decayed too. */
  lemma UpdateDecays(s: ConvState, lr: real, l2: real, i: int, f: int)
    requires s.Valid() && 0 <= i < |s.filters| && 0 <= f < |s.biases|
    requires s.dFilters[i] == 0.0 && s.dBiases[f] == 0.0
    ensures UpdateFiltersStep(s, lr, l2).filters[i] == (1.0 - lr * l2) * s.filters[i]
    ensures UpdateBiasesStep(s, lr, l2).biases[f] == (1.0 - lr * l2) * s.biases[f]
  {
    Decay(s.filters[i], lr, l2);
    Decay(s.biases[f], lr, l2);
  }

  lemma Decay(p: real, lr: real, l2: real)
    ensures p - lr * (0.0 + l2 * p) == (1.0 - lr * l2) * p
  {
  }

  // ---------------------------------------------------------------------
  // What the forward pass computes
  // ---------------------------------------------------------------------

  /** Input cell (c, h, w), and 0 outside the input: the zero padding. */
  function InputAt(cfg: ConvConfig, x: seq<real>, c: int, h: int, w: int): real {
    if 0 <= h < cfg.inputHeight && 0 <= w < cfg.inputWidth
    then At(x, c * cfg.InHW() + h * cfg.inputWidth + w)
    else 0.0
  }

  /** t |-> (input under tap t of output j, 0 in the padding) * (weight of tap t) */
  function WindowTaps(cfg: ConvConfig, x: seq<real>, w: seq<real>, j: int): int -> real
    requires cfg.outputHeight > 0 && cfg.outputWidth > 0 && cfg.filterSize > 0
  {
    t => Mul(InputAt(cfg, x, TapC(cfg, t), OutH(cfg, j) * cfg.stride + TapH(cfg, t) - cfg.padding,
                     OutW(cfg, j) * cfg.stride + TapW(cfg, t) - cfg.padding),
             At(w, WIdx(cfg, j, t)))
  }

  lemma PaddedTap(cfg: ConvConfig, x: seq<real>, w: seq<real>, j: int, t: int)
    requires cfg.Valid() && 0 <= j < cfg.OutSize() && 0 <= t < cfg.CKK()
    ensures Taps(cfg, Pad(cfg, x), w, j)(t) == WindowTaps(cfg, x, w, j)(t)
  {
    OutputDecode(cfg, j);
    TapDecode(cfg, t);
    WindowFits(OutH(cfg, j), cfg.stride, cfg.outputHeight, cfg.paddedHeight, cfg.filterSize);
    WindowFits(OutW(cfg, j), cfg.stride, cfg.outputWidth, cfg.paddedWidth, cfg.filterSize);
    PadCells(cfg, x, TapC(cfg, t), OutH(cfg, j) * cfg.stride + TapH(cfg, t), OutW(cfg, j) * cfg.stride + TapW(cfg, t));
  }

  lemma PaddedWindows(cfg: ConvConfig, x: seq<real>, w: seq<real>, j: int)
    requires cfg.Valid() && 0 <= j < cfg.OutSize()
    ensures SumF(Taps(cfg, Pad(cfg, x), w, j), cfg.CKK()) == SumF(WindowTaps(cfg, x, w, j), cfg.CKK())
  {
    forall t | 0 <= t < cfg.CKK() ensures Taps(cfg, Pad(cfg, x), w, j)(t) == WindowTaps(cfg, x, w, j)(t) {
      PaddedTap(cfg, x, w, j, t);
    }
    SumFExt(Taps(cfg, Pad(cfg, x), w, j), WindowTaps(cfg, x, w, j), cfg.CKK());
  }

  /** Forward, on either padding path: output (f, oh, ow) is the bias of
      filter f plus, over every tap (c, fh, fw) of the filter, the weight times
      input cell (c, oh*S + fh - P, ow*S + fw - P), taken as 0 outside the
      input. */
  lemma ForwardConvolves(s: ConvState, input: seq<real>)
    requires s.Valid() && |input| == s.cfg.InSize()
    ensures ForwardStep(s, input).1.Ok?
    ensures var out := ForwardStep(s, input).1.value;
      |out| == s.cfg.OutSize() &&
      forall j :: 0 <= j < s.cfg.OutSize() ==>
        out[j] == At(s.biases, OutF(s.cfg, j)) + SumF(WindowTaps(s.cfg, input, s.filters, j), s.cfg.CKK())
  {
    var cfg := s.cfg;
    if cfg.padding == 0 {
      PadWithoutPadding(cfg, input);
    }
    var out := ConvOut(cfg, Pad(cfg, input), s.filters, s.biases);
    assert ForwardStep(s, input).1 == Ok(out);
    forall j | 0 <= j < cfg.OutSize()
      ensures out[j] == At(s.biases, OutF(cfg, j)) + SumF(WindowTaps(cfg, input, s.filters, j), cfg.CKK())
    {
      PaddedWindows(cfg, input, s.filters, j);
    }
  }

  /** Forward rejects exactly the inputs of the wrong size and then changes
      nothing; otherwise it keeps the parameters and `last_input` holds the
      input in its interior and zeros in its border. */
  lemma ForwardRecordsInput(s: ConvState, input: seq<real>)
    requires s.Valid()
    ensures ForwardStep(s, input).1.Err? <==> |input| != s.cfg.InSize()
    ensures ForwardStep(s, input).1.Err? ==> ForwardStep(s, input).0 == s
    ensures ForwardStep(s, input).1.Ok? ==>
      var s1 := ForwardStep(s, input).0;
      s1.Valid() && s1.filters == s.filters && s1.biases == s.biases &&
      s1.lastInput == Pad(s.cfg, input) && Crop(s.cfg, s1.lastInput) == input &&
      s1.lastOutput == ForwardStep(s, input).1.value
  {
    if |input| == s.cfg.InSize() {
      if s.cfg.padding == 0 {
        PadWithoutPadding(s.cfg, input);
      }
      CropOfPad(s.cfg, input);
    }
  }

  // ---------------------------------------------------------------------
  // What the backward pass computes
  // ---------------------------------------------------------------------

  /** Backward fails exactly on a `d_out` of the wrong size (the `last_input`
      checks cannot fail on a valid state), and even then the gradients are
      reset. */
  lemma BackwardChecks(s: ConvState, dOut: seq<real>)
    requires s.Valid()
    ensures BackwardStep(s, dOut).1.Err? <==> |dOut| != s.cfg.OutSize()
    ensures BackwardStep(s, dOut).1.Err? ==> BackwardStep(s, dOut).0 == ZeroGradientsStep(s)
    ensures BackwardStep(s, dOut).0.Valid()
  {
    ConfigSizes(s.cfg);
  }

  /** The gradients of earlier calls do not survive a call to backward:
      the source does not accumulate filter and bias gradients across the
      samples of a batch. */
  lemma BackwardForgetsGradients(s: ConvState, dOut: seq<real>, df: seq<real>, db: seq<real>)
    requires s.Valid() && |df| == |s.dFilters| && |db| == |s.dBiases|
    ensures BackwardStep(s.(dFilters := df, dBiases := db), dOut) == BackwardStep(s, dOut)
  {
  }

  function Clamp(v: int, hi: int): int {
    if v < 0 then 0 else if v > hi then hi else v
  }

  /** q |-> d[f * OHW + q]: the gradients of the outputs of filter f. */
  function Spatial(d: seq<real>, f: int, ohw: int): int -> real {
    q => At(d, f * ohw + q)
  }

  lemma {:induction false} DBFoldPartial(cfg: ConvConfig, d: seq<real>, n: int, f: int)
    requires cfg.Valid() && 0 <= n <= cfg.OutSize() && 0 <= f < cfg.numFilters
    ensures DBFold(cfg, d, n)[f] == SumF(Spatial(d, f, cfg.OHW()), Clamp(n - f * cfg.OHW(), cfg.OHW()))
    decreases n
  {
    ConfigSizes(cfg);
    if n > 0 {
      DBFoldPartial(cfg, d, n - 1, f);
      var j, ohw := n - 1, cfg.OHW();
      OutputDecode(cfg, j);
      var g, r := OutF(cfg, j), OutH(cfg, j) * cfg.outputWidth + OutW(cfg, j);
      Idx2Bound(OutH(cfg, j), OutW(cfg, j), cfg.outputHeight, cfg.outputWidth);
      ClampStep(j, g, r, f, ohw);
      if g == f {
        assert Spatial(d, f, ohw)(r) == At(d, j);
      }
    }
  }

  /** Position j = g * ohw + r of the outputs moves the clamped count of
      filter f on by one exactly when it belongs to f. */
  lemma ClampStep(j: int, g: int, r: int, f: int, ohw: int)
    requires j == g * ohw + r && 0 <= r < ohw && 0 <= f && 0 <= g
    ensures g != f ==> Clamp(j + 1 - f * ohw, ohw) == Clamp(j - f * ohw, ohw)
    ensures g == f ==> Clamp(j - f * ohw, ohw) == r && Clamp(j + 1 - f * ohw, ohw) == r + 1
  {
    if g < f {
      MulMono(g + 1, f, ohw);
      MulSucc(g, ohw);
    } else if g > f {
      MulMono(f + 1, g, ohw);
      MulSucc(f, ohw);
    }
  }


  /** The bias gradient of filter f is the sum of the output gradients of f. */
  lemma BackwardBiasGradient(s: ConvState, dOut: seq<real>)
    requires s.Valid() && |dOut| == s.cfg.OutSize()
    ensures forall f :: 0 <= f < s.cfg.numFilters ==>
      BackwardStep(s, dOut).0.dBiases[f] == SumF(Spatial(dOut, f, s.cfg.OHW()), s.cfg.OHW())
  {
    ConfigSizes(s.cfg);
    forall f | 0 <= f < s.cfg.numFilters
      ensures DBFold(s.cfg, dOut, s.cfg.OutSize())[f] == SumF(Spatial(dOut, f, s.cfg.OHW()), s.cfg.OHW())
    {
      DBFoldPartial(s.cfg, dOut, s.cfg.OutSize(), f);
      MulMono(f + 1, s.cfg.numFilters, s.cfg.OHW());
      MulSucc(f, s.cfg.OHW());
      assert Clamp(s.cfg.OutSize() - f * s.cfg.OHW(), s.cfg.OHW()) == s.cfg.OHW();
    }
  }

  /** j |-> d[j] * (output j of the convolution of buffer x with filters w,
      bias left out). */
  function Response(cfg: ConvConfig, x: seq<real>, w: seq<real>, d: seq<real>): int -> real
    requires cfg.Valid()
  {
    ConfigSizes(cfg);
    j => Mul(At(d, j), SumF(Taps(cfg, x, w, j), cfg.CKK()))
  }

  /** u |-> g(tap visited at step u) */
  function Visit(cfg: ConvConfig, g: int -> real, channelLast: bool): int -> real
    requires cfg.filterSize > 0
  {
    u => g(TapOf(cfg, u, channelLast))
  }

  lemma TapOfBlock(cfg: ConvConfig, a: int, c: int)
    requires cfg.Valid() && cfg.initChannels > 0 && 0 <= a < cfg.KK() && 0 <= c < cfg.initChannels
    ensures TapOf(cfg, a * cfg.initChannels + c, true) == c * cfg.KK() + a
  {
    var k, ch := cfg.filterSize, cfg.initChannels;
    var fh, fw := a / k, a % k;
    assert a == fh * k + fw;
    if fh >= k {
      MulMono(k, fh, k);
    }
    assert (fh * k + fw) * ch == fh * (k * ch) + fw * ch;
    Decode3(fh, fw, c, k, ch);
  }

  lemma TapOfRange(cfg: ConvConfig, u: int, channelLast: bool)
    requires cfg.Valid() && 0 <= u < cfg.CKK()
    ensures 0 <= TapOf(cfg, u, channelLast) < cfg.CKK()
  {
    if channelLast && cfg.initChannels > 0 {
      ChannelLastRange(u, cfg.filterSize, cfg.initChannels);
    }
  }

  /** Position u of a (row, column, channel) scan of a K x K x C filter
      names a weight of the filter. */
  lemma ChannelLastRange(u: int, k: int, ch: int)
    requires k >= 1 && ch >= 1 && 0 <= u < ch * (k * k)
    ensures 0 <= Col(u, ch) * (k * k) + Plane(u, k, ch) * k + Row(u, k, ch) < ch * (k * k)
  {
    assert k * (k * ch) == ch * (k * k);
    Decode3Range(u, k, k, ch);
    Idx3Bound(Col(u, ch), Plane(u, k, ch), Row(u, k, ch), ch, k, k);
  }

  /** The channel-innermost visiting order of the padded path sums the same
      terms as the channel-outermost order. */
  lemma VisitReorder(cfg: ConvConfig, g: int -> real, channelLast: bool)
    requires cfg.Valid()
    ensures SumF(Visit(cfg, g, channelLast), cfg.CKK()) == SumF(g, cfg.CKK())
  {
    if !channelLast || cfg.initChannels <= 0 {
      SumFExt(Visit(cfg, g, channelLast), g, cfg.CKK());
    } else {
      ChannelLastReorder(cfg, g);
    }
  }

  lemma ChannelLastReorder(cfg: ConvConfig, g: int -> real)
    requires cfg.Valid() && cfg.initChannels > 0
    ensures SumF(Visit(cfg, g, true), cfg.CKK()) == SumF(g, cfg.CKK())
  {
    var ch, kk := cfg.initChannels, cfg.KK();
    var v := Visit(cfg, g, true);
    MulMono(1, cfg.filterSize, cfg.filterSize);
    assert kk * ch == cfg.CKK();
    SumFBlocks(v, kk, ch);
    SumFBlocks(g, ch, kk);
    SumFSwap(Blocks(g, kk), ch, kk);
    forall a | 0 <= a < kk ensures RowTotals(Blocks(v, ch), ch)(a) == ColTotals(Blocks(g, kk), ch)(a) {
      VisitRow(cfg, g, a);
    }
    SumFExt(RowTotals(Blocks(v, ch), ch), ColTotals(Blocks(g, kk), ch), kk);
  }

  /** For one spatial tap a, the channels in visiting order. */
  lemma VisitRow(cfg: ConvConfig, g: int -> real, a: int)
    requires cfg.Valid() && cfg.initChannels > 0 && 0 <= a < cfg.KK()
    ensures RowTotals(Blocks(Visit(cfg, g, true), cfg.initChannels), cfg.initChannels)(a)
      == ColTotals(Blocks(g, cfg.KK()), cfg.initChannels)(a)
  {
    var ch := cfg.initChannels;
    var F, F2 := Blocks(Visit(cfg, g, true), ch), Blocks(g, cfg.KK());
    forall c | 0 <= c < ch ensures RowOf(F, a)(c) == ColOf(F2, a)(c) {
      TapOfBlock(cfg, a, c);
    }
    SumFExt(RowOf(F, a), ColOf(F2, a), ch);
  }

  lemma InnerAddAt(a: seq<real>, i: int, x: real, v: seq<real>)
    requires 0 <= i < |a|
    ensures SumF(Products(AddAt(a, i, x), v), |a|) == SumF(Products(a, v), |a|) + Mul(x, At(v, i))
  {
    var f, g := Products(a, v), Products(AddAt(a, i, x), v);
    forall m | 0 <= m < |a| && m != i ensures f(m) == g(m) {
      ProductsAddAtOther(a, i, x, v, m);
    }
    SumFPoint(f, g, i, |a|);
    ProductsAddAtSame(a, i, x, v);
  }

  lemma ProductsAddAtOther(a: seq<real>, i: int, x: real, v: seq<real>, m: int)
    requires m != i
    ensures Products(AddAt(a, i, x), v)(m) == Products(a, v)(m)
  {
    assert At(AddAt(a, i, x), m) == At(a, m);
  }

  lemma ProductsAddAtSame(a: seq<real>, i: int, x: real, v: seq<real>)
    requires 0 <= i < |a|
    ensures Products(AddAt(a, i, x), v)(i) == Products(a, v)(i) + Mul(x, At(v, i))
  {
    var ai, vi := a[i], At(v, i);
    assert Products(AddAt(a, i, x), v)(i) == (ai + x) * vi;
    Distribute(vi, ai, x);
  }

  lemma Distribute(d: real, a: real, b: real)
    ensures d * (a + b) == d * a + d * b && (a + b) * d == a * d + b * d
    ensures Mul(d, a + b) == Mul(d, a) + Mul(d, b)
  {
  }

  lemma DXInnerUnfold(cfg: ConvConfig, w: seq<real>, d: seq<real>, acc: seq<real>, j: int, u: int, channelLast: bool)
    requires cfg.Indexable() && u > 0
    ensures DXInner(cfg, w, d, acc, j, u, channelLast)
      == AddAt(DXInner(cfg, w, d, acc, j, u - 1, channelLast), XIdx(cfg, j, TapOf(cfg, u - 1, channelLast)),
               Mul(At(w, WIdx(cfg, j, TapOf(cfg, u - 1, channelLast))), At(d, j)))
  {
  }

  lemma DFInnerUnfold(cfg: ConvConfig, x: seq<real>, d: seq<real>, acc: seq<real>, j: int, u: int, channelLast: bool)
    requires cfg.Indexable() && u > 0
    ensures DFInner(cfg, x, d, acc, j, u, channelLast)
      == AddAt(DFInner(cfg, x, d, acc, j, u - 1, channelLast), WIdx(cfg, j, TapOf(cfg, u - 1, channelLast)),
               Mul(At(x, XIdx(cfg, j, TapOf(cfg, u - 1, channelLast))), At(d, j)))
  {
  }

  /** `(w * d) * x == d * (x * w)`, the term one loop step adds. */
  lemma StepAlgebra(m: real, x: real, d: real, w: real, vis: real)
    requires m == Mul(w, d) && (vis == Mul(x, w) || vis == Mul(w, x))
    ensures Mul(m, x) == Mul(d, vis)
  {
    assert (w * d) * x == d * (x * w);
  }

  /** Adding w * d to cell i of a buffer adds d * (v[i] * w) to its pairing
      with v. */
  lemma AddAtPairing(a: seq<real>, i: int, w: real, d: real, v: seq<real>, vis: real)
    requires 0 <= i < |a| && (vis == Mul(At(v, i), w) || vis == Mul(w, At(v, i)))
    ensures SumF(Products(AddAt(a, i, Mul(w, d)), v), |a|) == SumF(Products(a, v), |a|) + Mul(d, vis)
  {
    InnerAddAt(a, i, Mul(w, d), v);
    StepAlgebra(Mul(w, d), At(v, i), d, w, vis);
  }

  /** Step u of the inner loop adds d[j] times the visited tap of the
      response to the pairing of the input gradient with v. */
  lemma DXInnerStep(cfg: ConvConfig, w: seq<real>, d: seq<real>, acc: seq<real>,
                    j: int, u: int, channelLast: bool, v: seq<real>)
    requires cfg.Valid() && |acc| == cfg.PaddedSize() && 0 <= j < cfg.OutSize() && 0 < u <= cfg.CKK()
    ensures SumF(Products(DXInner(cfg, w, d, acc, j, u, channelLast), v), |acc|)
      == SumF(Products(DXInner(cfg, w, d, acc, j, u - 1, channelLast), v), |acc|)
         + Mul(At(d, j), Visit(cfg, Taps(cfg, v, w, j), channelLast)(u - 1))
  {
    var t := TapOf(cfg, u - 1, channelLast);
    TapOfRange(cfg, u - 1, channelLast);
    TapInRange(cfg, j, t);
    var xi, wv, dj := XIdx(cfg, j, t), At(w, WIdx(cfg, j, t)), At(d, j);
    DXInnerUnfold(cfg, w, d, acc, j, u, channelLast);
    AddAtPairing(DXInner(cfg, w, d, acc, j, u - 1, channelLast), xi, wv, dj, v,
                 Visit(cfg, Taps(cfg, v, w, j), channelLast)(u - 1));
  }

  lemma {:induction false} DXInnerAdjoint(cfg: ConvConfig, w: seq<real>, d: seq<real>, acc: seq<real>,
                                          j: int, u: int, channelLast: bool, v: seq<real>)
    requires cfg.Valid() && |acc| == cfg.PaddedSize() && 0 <= j < cfg.OutSize() && 0 <= u <= cfg.CKK()
    ensures SumF(Products(DXInner(cfg, w, d, acc, j, u, channelLast), v), |acc|)
      == SumF(Products(acc, v), |acc|) + Mul(At(d, j), SumF(Visit(cfg, Taps(cfg, v, w, j), channelLast), u))
    decreases u
  {
    if u > 0 {
      DXInnerAdjoint(cfg, w, d, acc, j, u - 1, channelLast, v);
      DXInnerStep(cfg, w, d, acc, j, u, channelLast, v);
      var sv := Visit(cfg, Taps(cfg, v, w, j), channelLast);
      Distribute(At(d, j), SumF(sv, u - 1), sv(u - 1));
    }
  }

  /** Pairing the accumulated input gradient with any buffer v gives the sum
      over the outputs of d[j] times the response of output j to v. */
  lemma {:induction false} DXFoldAdjoint(cfg: ConvConfig, w: seq<real>, d: seq<real>, n: int, channelLast: bool, v: seq<real>)
    requires cfg.Valid() && 0 <= n <= cfg.OutSize()
    ensures SumF(Products(DXFold(cfg, w, d, n, channelLast), v), cfg.PaddedSize()) == SumF(Response(cfg, v, w, d), n)
    decreases n
  {
    ConfigSizes(cfg);
    if n == 0 {
      SumFZero(Products(Zeros(cfg.PaddedSize()), v), cfg.PaddedSize());
    } else {
      DXFoldAdjoint(cfg, w, d, n - 1, channelLast, v);
      DXInnerAdjoint(cfg, w, d, DXFold(cfg, w, d, n - 1, channelLast), n - 1, cfg.CKK(), channelLast, v);
      VisitReorder(cfg, Taps(cfg, v, w, n - 1), channelLast);
    }
  }

  /** Step u of the inner loop adds d[j] times the visited tap of the
      response to filters v to the pairing of the filter gradient with v. */
  lemma DFInnerStep(cfg: ConvConfig, x: seq<real>, d: seq<real>, acc: seq<real>,
                    j: int, u: int, channelLast: bool, v: seq<real>)
    requires cfg.Valid() && |acc| == cfg.FilterCount() && 0 <= j < cfg.OutSize() && 0 < u <= cfg.CKK()
    ensures SumF(Products(DFInner(cfg, x, d, acc, j, u, channelLast), v), |acc|)
      == SumF(Products(DFInner(cfg, x, d, acc, j, u - 1, channelLast), v), |acc|)
         + Mul(At(d, j), Visit(cfg, Taps(cfg, x, v, j), channelLast)(u - 1))
  {
    var t := TapOf(cfg, u - 1, channelLast);
    TapOfRange(cfg, u - 1, channelLast);
    TapInRange(cfg, j, t);
    var wi, xv, dj := WIdx(cfg, j, t), At(x, XIdx(cfg, j, t)), At(d, j);
    DFInnerUnfold(cfg, x, d, acc, j, u, channelLast);
    AddAtPairing(DFInner(cfg, x, d, acc, j, u - 1, channelLast), wi, xv, dj, v,
                 Visit(cfg, Taps(cfg, x, v, j), channelLast)(u - 1));
  }

  lemma {:induction false} DFInnerAdjoint(cfg: ConvConfig, x: seq<real>, d: seq<real>, acc: seq<real>,
                                          j: int, u: int, channelLast: bool, v: seq<real>)
    requires cfg.Valid() && |acc| == cfg.FilterCount() && 0 <= j < cfg.OutSize() && 0 <= u <= cfg.CKK()
    ensures SumF(Products(DFInner(cfg, x, d, acc, j, u, channelLast), v), |acc|)
      == SumF(Products(acc, v), |acc|) + Mul(At(d, j), SumF(Visit(cfg, Taps(cfg, x, v, j), channelLast), u))
    decreases u
  {
    if u > 0 {
      DFInnerAdjoint(cfg, x, d, acc, j, u - 1, channelLast, v);
      DFInnerStep(cfg, x, d, acc, j, u, channelLast, v);
      var sv := Visit(cfg, Taps(cfg, x, v, j), channelLast);
      Distribute(At(d, j), SumF(sv, u - 1), sv(u - 1));
    }
  }

  lemma {:induction false} DFFoldAdjoint(cfg: ConvConfig, x: seq<real>, d: seq<real>, n: int, channelLast: bool, v: seq<real>)
    requires cfg.Valid() && 0 <= n <= cfg.OutSize()
    ensures SumF(Products(DFFold(cfg, x, d, n, channelLast), v), cfg.FilterCount()) == SumF(Response(cfg, x, v, d), n)
    decreases n
  {
    ConfigSizes(cfg);
    if n == 0 {
      SumFZero(Products(Zeros(cfg.FilterCount()), v), cfg.FilterCount());
    } else {
      DFFoldAdjoint(cfg, x, d, n - 1, channelLast, v);
      DFInnerAdjoint(cfg, x, d, DFFold(cfg, x, d, n - 1, channelLast), n - 1, cfg.CKK(), channelLast, v);
      VisitReorder(cfg, Taps(cfg, x, v, n - 1), channelLast);
    }
  }

  lemma ProductsAt(a: seq<real>, b: seq<real>, i: int)
    ensures Products(a, b)(i) == Mul(At(a, i), At(b, i))
  {
  }

  /** Writing y into a zero cell i of b adds a[i] * y to the pairing of a with b. */
  lemma SetPairing(a: seq<real>, b: seq<real>, i: int, y: real)
    requires |a| == |b| && 0 <= i < |b| && b[i] == 0.0
    ensures SumF(Products(a, b[i := y]), |b|) == SumF(Products(a, b), |b|) + Mul(At(a, i), y)
  {
    var f, g := Products(a, b), Products(a, b[i := y]);
    forall m | 0 <= m < |b| && m != i ensures f(m) == g(m) {
      assert At(b[i := y], m) == At(b, m);
    }
    SumFPoint(f, g, i, |b|);
    assert f(i) == At(a, i) * 0.0;
  }

  lemma PadPrefixStep(cfg: ConvConfig, v: seq<real>, k: int)
    requires cfg.Valid() && 0 < k <= cfg.InSize()
    ensures cfg.inputHeight > 0 && cfg.inputWidth > 0
    ensures 0 <= PIdx(cfg, k - 1) < cfg.PaddedSize()
    ensures PadPrefix(cfg, v, k - 1)[PIdx(cfg, k - 1)] == 0.0
    ensures PadPrefix(cfg, v, k) == PadPrefix(cfg, v, k - 1)[PIdx(cfg, k - 1) := At(v, k - 1)]
  {
    PIdxInterior(cfg, k - 1);
    PadPrefixAt(cfg, v, k - 1, PIdx(cfg, k - 1));
  }

  lemma {:induction false} CropPrefixAdjoint(cfg: ConvConfig, dp: seq<real>, v: seq<real>, k: int)
    requires cfg.Valid() && |dp| == cfg.PaddedSize() && |v| == cfg.InSize() && 0 <= k <= cfg.InSize()
    ensures SumF(Products(Crop(cfg, dp), v), k) == SumF(Products(dp, PadPrefix(cfg, v, k)), cfg.PaddedSize())
    decreases k
  {
    ConfigSizes(cfg);
    if k == 0 {
      SumFZero(Products(dp, Zeros(cfg.PaddedSize())), cfg.PaddedSize());
    } else {
      CropPrefixAdjoint(cfg, dp, v, k - 1);
      PadPrefixStep(cfg, v, k);
      var i := PIdx(cfg, k - 1);
      SetPairing(dp, PadPrefix(cfg, v, k - 1), i, At(v, k - 1));
      assert At(Crop(cfg, dp), k - 1) == At(dp, i);
      ProductsAt(Crop(cfg, dp), v, k - 1);
    }
  }

  /** Cropping is the adjoint of zero padding. */
  lemma CropAdjoint(cfg: ConvConfig, dp: seq<real>, v: seq<real>)
    requires cfg.Valid() && |dp| == cfg.PaddedSize() && |v| == cfg.InSize()
    ensures SumF(Products(Crop(cfg, dp), v), cfg.InSize()) == SumF(Products(dp, Pad(cfg, v)), cfg.PaddedSize())
  {
    CropPrefixAdjoint(cfg, dp, v, cfg.InSize());
    PadPrefixIsPad(cfg, v);
  }

  /** The input gradient, on either padding path, is the adjoint of the
      forward convolution: for every input v, pairing it with v gives the sum
      over the outputs of d_out[j] times the response of output j to v. */
  lemma BackwardInputAdjoint(s: ConvState, dOut: seq<real>, v: seq<real>)
    requires s.Valid() && |dOut| == s.cfg.OutSize() && |v| == s.cfg.InSize()
    ensures BackwardStep(s, dOut).1.Ok?
    ensures SumF(Products(BackwardStep(s, dOut).1.value, v), s.cfg.InSize())
      == SumF(Response(s.cfg, Pad(s.cfg, v), s.filters, dOut), s.cfg.OutSize())
  {
    var cfg := s.cfg;
    ConfigSizes(cfg);
    if cfg.padding == 0 {
      PadWithoutPadding(cfg, v);
      DXFoldAdjoint(cfg, s.filters, dOut, cfg.OutSize(), false, v);
    } else {
      var dp := DXFold(cfg, s.filters, dOut, cfg.OutSize(), true);
      CropAdjoint(cfg, dp, v);
      DXFoldAdjoint(cfg, s.filters, dOut, cfg.OutSize(), true, Pad(cfg, v));
    }
  }

  /** The filter gradient, on either padding path, is the gradient of the
      outputs with respect to the filters: pairing it with any filter bank v
      gives the sum over the outputs of d_out[j] times the response of output
      j to `last_input` under v. */
  lemma BackwardFilterAdjoint(s: ConvState, dOut: seq<real>, v: seq<real>)
    requires s.Valid() && |dOut| == s.cfg.OutSize()
    ensures SumF(Products(BackwardStep(s, dOut).0.dFilters, v), s.cfg.FilterCount())
      == SumF(Response(s.cfg, s.lastInput, v, dOut), s.cfg.OutSize())
  {
    ConfigSizes(s.cfg);
    DFFoldAdjoint(s.cfg, s.lastInput, dOut, s.cfg.OutSize(), s.cfg.padding != 0, v);
  }

  // ---------------------------------------------------------------------
  // Index identities for the loops
  // ---------------------------------------------------------------------

  /** Output (f, oh, ow) sits at `f * Ho*Wo + oh * Wo + ow`. */
  lemma OutIndex(cfg: ConvConfig, f: int, oh: int, ow: int)
    requires cfg.Valid() && 0 <= f < cfg.numFilters && 0 <= oh < cfg.outputHeight && 0 <= ow < cfg.outputWidth
    ensures var j := f * cfg.OHW() + oh * cfg.outputWidth + ow;
      0 <= j < cfg.OutSize() && OutF(cfg, j) == f && OutH(cfg, j) == oh && OutW(cfg, j) == ow
  {
    Idx3Bound(f, oh, ow, cfg.numFilters, cfg.outputHeight, cfg.outputWidth);
    Decode3(f, oh, ow, cfg.outputHeight, cfg.outputWidth);
  }

  /** Tap (c, fh, fw) sits at `c * K*K + fh * K + fw`. */
  lemma TapIndex(cfg: ConvConfig, c: int, fh: int, fw: int)
    requires cfg.Valid() && 0 <= c < cfg.initChannels && 0 <= fh < cfg.filterSize && 0 <= fw < cfg.filterSize
    ensures var t := c * cfg.KK() + fh * cfg.filterSize + fw;
      0 <= t < cfg.CKK() && TapC(cfg, t) == c && TapH(cfg, t) == fh && TapW(cfg, t) == fw
  {
    Idx3Bound(c, fh, fw, cfg.initChannels, cfg.filterSize, cfg.filterSize);
    Decode3(c, fh, fw, cfg.filterSize, cfg.filterSize);
  }

  /** The buffer offsets the source computes for tap (c, fh, fw) of output
      (f, oh, ow) are `XIdx` and `WIdx`, and lie inside the buffers. */
  lemma WindowIndex(cfg: ConvConfig, f: int, oh: int, ow: int, c: int, fh: int, fw: int)
    requires cfg.Valid() && 0 <= f < cfg.numFilters && 0 <= oh < cfg.outputHeight && 0 <= ow < cfg.outputWidth
    requires 0 <= c < cfg.initChannels && 0 <= fh < cfg.filterSize && 0 <= fw < cfg.filterSize
    ensures var j, t := f * cfg.OHW() + oh * cfg.outputWidth + ow, c * cfg.KK() + fh * cfg.filterSize + fw;
      0 <= j < cfg.OutSize() && 0 <= t < cfg.CKK() &&
      XIdx(cfg, j, t) == c * cfg.PHW() + (oh * cfg.stride) * cfg.paddedWidth + ow * cfg.stride + fh * cfg.paddedWidth + fw &&
      XIdx(cfg, j, t) == c * cfg.PHW() + (oh * cfg.stride + fh) * cfg.paddedWidth + (ow * cfg.stride + fw) &&
      WIdx(cfg, j, t) == f * cfg.initChannels * cfg.KK() + c * cfg.KK() + fh * cfg.filterSize + fw &&
      0 <= XIdx(cfg, j, t) < cfg.PaddedSize() && 0 <= WIdx(cfg, j, t) < cfg.FilterCount()
  {
    OutIndex(cfg, f, oh, ow);
    TapIndex(cfg, c, fh, fw);
    var j, t := f * cfg.OHW() + oh * cfg.outputWidth + ow, c * cfg.KK() + fh * cfg.filterSize + fw;
    TapInRange(cfg, j, t);
    MulDistrib(oh * cfg.stride, fh, cfg.paddedWidth);
    MulAssoc(f, cfg.initChannels, cfg.KK());
  }

  /** Step `fh * (K*C) + fw * C + c` of the channel-innermost loops visits
      tap (c, fh, fw). */
  lemma ChannelLastIndex(cfg: ConvConfig, fh: int, fw: int, c: int)
    requires cfg.Valid() && 0 <= c < cfg.initChannels && 0 <= fh < cfg.filterSize && 0 <= fw < cfg.filterSize
    ensures var u := fh * (cfg.filterSize * cfg.initChannels) + fw * cfg.initChannels + c;
      0 <= u < cfg.CKK() && TapOf(cfg, u, true) == c * cfg.KK() + fh * cfg.filterSize + fw
  {
    var k, ch := cfg.filterSize, cfg.initChannels;
    Idx3Bound(fh, fw, c, k, k, ch);
    Decode3(fh, fw, c, k, ch);
    CubeOrder(k, ch);
  }

  lemma CubeOrder(k: int, ch: int)
    ensures k * (k * ch) == ch * (k * k)
  {
  }

  // ---------------------------------------------------------------------
  // The loops of forward
  // ---------------------------------------------------------------------

  /** The zero fill and the copy of the input into the interior of the padded
      buffer. */
  method PadLoop(cfg: ConvConfig, input: seq<real>, x0: seq<real>) returns (x: seq<real>)
    requires cfg.Valid() && |input| == cfg.InSize() && |x0| == cfg.PaddedSize()
    ensures x == Pad(cfg, input)
  {
    ConfigSizes(cfg);
    x := Zeros(|x0|);
    var phw, inHw := cfg.PHW(), cfg.InHW();
    var c := 0;
    ghost var k := 0;
    while c < cfg.initChannels
      invariant 0 <= c <= cfg.initChannels && k == c * inHw && 0 <= k <= cfg.InSize()
      invariant x == PadPrefix(cfg, input, k)
    {
      var padBase, inBase := c * phw, c * inHw;
      var h := 0;
      while h < cfg.inputHeight
        invariant 0 <= h <= cfg.inputHeight && k == c * inHw + h * cfg.inputWidth && 0 <= k <= cfg.InSize()
        invariant x == PadPrefix(cfg, input, k)
      {
        var padRow := (h + cfg.padding) * cfg.paddedWidth + cfg.padding;
        var inRow := h * cfg.inputWidth;
        var w := 0;
        while w < cfg.inputWidth
          invariant 0 <= w <= cfg.inputWidth && k == c * inHw + h * cfg.inputWidth + w && 0 <= k <= cfg.InSize()
          invariant x == PadPrefix(cfg, input, k)
        {
          CopyIndex(cfg, c, h, w);
          PadPrefixStep(cfg, input, k + 1);
          x := x[padBase + padRow + w := input[inBase + inRow + w]];
          Idx3Prefix(c, h, w + 1, cfg.initChannels, cfg.inputHeight, cfg.inputWidth);
          k := k + 1;
          w := w + 1;
        }
        MulSucc(h, cfg.inputWidth);
        h := h + 1;
      }
      MulSucc(c, inHw);
      c := c + 1;
    }
    PadPrefixIsPad(cfg, input);
  }

  /** The copy loop moves input cell (c, h, w), at `k`, to `PIdx(k)`. */
  lemma CopyIndex(cfg: ConvConfig, c: int, h: int, w: int)
    requires cfg.Valid() && 0 <= c < cfg.initChannels && 0 <= h < cfg.inputHeight && 0 <= w < cfg.inputWidth
    ensures var k := c * cfg.InHW() + h * cfg.inputWidth + w;
      0 <= k < cfg.InSize() &&
      PIdx(cfg, k) == c * cfg.PHW() + (h + cfg.padding) * cfg.paddedWidth + cfg.padding + w
  {
    Idx3Bound(c, h, w, cfg.initChannels, cfg.inputHeight, cfg.inputWidth);
    Decode3(c, h, w, cfg.inputHeight, cfg.inputWidth);
  }

  /** One output cell: the bias plus the taps in (channel, row, column)
      order.  The unpadded path of the source indexes the input with the
      input dimensions, which are the padded ones when P == 0. */
  method CellSum(cfg: ConvConfig, x: seq<real>, w: seq<real>, b: seq<real>, f: int, oh: int, ow: int) returns (sum: real)
    requires cfg.Valid() && |x| == cfg.PaddedSize() && |w| == cfg.FilterCount() && |b| == cfg.numFilters
    requires 0 <= f < cfg.numFilters && 0 <= oh < cfg.outputHeight && 0 <= ow < cfg.outputWidth
    ensures sum == Cell(cfg, x, w, b, f * cfg.OHW() + oh * cfg.outputWidth + ow)
  {
    ghost var j := f * cfg.OHW() + oh * cfg.outputWidth + ow;
    OutIndex(cfg, f, oh, ow);
    var ch, k, kk, phw, pw := cfg.initChannels, cfg.filterSize, cfg.KK(), cfg.PHW(), cfg.paddedWidth;
    var wFBase := f * ch * kk;
    var ih0, iw0 := oh * cfg.stride, ow * cfg.stride;
    sum := b[f];
    var c := 0;
    ghost var t := 0;
    while c < ch
      invariant 0 <= c <= ch && t == c * kk
      invariant sum == b[f] + SumF(Taps(cfg, x, w, j), t)
    {
      var xCBase := c * phw + ih0 * pw + iw0;
      var wCBase := wFBase + c * kk;
      var fh := 0;
      while fh < k
        invariant 0 <= fh <= k && t == c * kk + fh * k
        invariant sum == b[f] + SumF(Taps(cfg, x, w, j), t)
      {
        var xRow := xCBase + fh * pw;
        var wRow := wCBase + fh * k;
        var fw := 0;
        while fw < k
          invariant 0 <= fw <= k && t == c * kk + fh * k + fw
          invariant sum == b[f] + SumF(Taps(cfg, x, w, j), t)
        {
          WindowIndex(cfg, f, oh, ow, c, fh, fw);
          assert Taps(cfg, x, w, j)(t) == Mul(x[xRow + fw], w[wRow + fw]);
          sum := sum + x[xRow + fw] * w[wRow + fw];
          t := t + 1;
          fw := fw + 1;
        }
        MulSucc(fh, k);
        fh := fh + 1;
      }
      MulSucc(c, kk);
      c := c + 1;
    }
  }

  /** The loops over filters and output positions. */
  method ConvLoop(cfg: ConvConfig, x: seq<real>, w: seq<real>, b: seq<real>, out0: seq<real>) returns (out: seq<real>)
    requires cfg.Valid() && |x| == cfg.PaddedSize() && |w| == cfg.FilterCount() && |b| == cfg.numFilters
    requires |out0| == cfg.OutSize()
    ensures out == ConvOut(cfg, x, w, b)
  {
    out := out0;
    var outHw, wo := cfg.OHW(), cfg.outputWidth;
    var f := 0;
    ghost var k := 0;
    while f < cfg.numFilters
      invariant 0 <= f <= cfg.numFilters && k == f * outHw && |out| == cfg.OutSize() && 0 <= k <= |out|
      invariant forall i :: 0 <= i < k ==> out[i] == Cell(cfg, x, w, b, i)
    {
      var oh := 0;
      while oh < cfg.outputHeight
        invariant 0 <= oh <= cfg.outputHeight && k == f * outHw + oh * wo && |out| == cfg.OutSize() && 0 <= k <= |out|
        invariant forall i :: 0 <= i < k ==> out[i] == Cell(cfg, x, w, b, i)
      {
        var ow := 0;
        while ow < wo
          invariant 0 <= ow <= wo && k == f * outHw + oh * wo + ow && |out| == cfg.OutSize() && 0 <= k <= |out|
          invariant forall i :: 0 <= i < k ==> out[i] == Cell(cfg, x, w, b, i)
        {
          OutIndex(cfg, f, oh, ow);
          var sum := CellSum(cfg, x, w, b, f, oh, ow);
          out := out[f * outHw + oh * wo + ow := sum];
          Idx3Prefix(f, oh, ow + 1, cfg.numFilters, cfg.outputHeight, wo);
          k := k + 1;
          ow := ow + 1;
        }
        MulSucc(oh, wo);
        oh := oh + 1;
      }
      MulSucc(f, outHw);
      f := f + 1;
    }
  }

  // ---------------------------------------------------------------------
  // The loops of backward, unpadded path
  // ---------------------------------------------------------------------

  /** One step of the tap loops for output (f, oh, ow) when P == 0: tap
      (c, fh, fw), whose input row starts at `xRow` and filter row at `wRow`. */
  method NoPadTap(cfg: ConvConfig, x: seq<real>, w: seq<real>, d: seq<real>, ghost dF0: seq<real>, ghost dX0: seq<real>,
                  f: int, oh: int, ow: int, c: int, fh: int, fw: int, xRow: int, wRow: int,
                  dFi: seq<real>, dXi: seq<real>)
    returns (dF: seq<real>, dX: seq<real>)
    requires cfg.Valid() && cfg.padding == 0
    requires |x| == cfg.PaddedSize() && |w| == cfg.FilterCount() && |d| == cfg.OutSize()
    requires |dF0| == cfg.FilterCount() && |dX0| == cfg.PaddedSize()
    requires 0 <= f < cfg.numFilters && 0 <= oh < cfg.outputHeight && 0 <= ow < cfg.outputWidth
    requires 0 <= c < cfg.initChannels && 0 <= fh < cfg.filterSize && 0 <= fw < cfg.filterSize
    requires xRow == c * cfg.InHW() + (oh * cfg.stride) * cfg.inputWidth + ow * cfg.stride + fh * cfg.inputWidth
    requires wRow == f * cfg.initChannels * cfg.KK() + c * cfg.KK() + fh * cfg.filterSize
    requires var j, u := f * cfg.OHW() + oh * cfg.outputWidth + ow, c * cfg.KK() + fh * cfg.filterSize + fw;
      dFi == DFInner(cfg, x, d, dF0, j, u, false) && dXi == DXInner(cfg, w, d, dX0, j, u, false)
    ensures var j, u := f * cfg.OHW() + oh * cfg.outputWidth + ow, c * cfg.KK() + fh * cfg.filterSize + fw + 1;
      dF == DFInner(cfg, x, d, dF0, j, u, false) && dX == DXInner(cfg, w, d, dX0, j, u, false)
  {
    ConfigSizes(cfg);
    OutIndex(cfg, f, oh, ow);
    var j, u := f * cfg.OHW() + oh * cfg.outputWidth + ow, c * cfg.KK() + fh * cfg.filterSize + fw;
    WindowIndex(cfg, f, oh, ow, c, fh, fw);
    DFInnerUnfold(cfg, x, d, dF0, j, u + 1, false);
    DXInnerUnfold(cfg, w, d, dX0, j, u + 1, false);
    var g := d[j];
    var xv, wv := x[xRow + fw], w[wRow + fw];
    dF := dFi[wRow + fw := dFi[wRow + fw] + Mul(xv, g)];
    dX := dXi[xRow + fw := dXi[xRow + fw] + Mul(wv, g)];
  }

  /** The tap loops for output (f, oh, ow) when P == 0: each tap adds x * g to
      its filter gradient and w * g to the input gradient, indexing the input
      with the input dimensions. */
  method NoPadTaps(cfg: ConvConfig, x: seq<real>, w: seq<real>, d: seq<real>, dF0: seq<real>, dX0: seq<real>,
                   f: int, oh: int, ow: int)
    returns (dF: seq<real>, dX: seq<real>)
    requires cfg.Valid() && cfg.padding == 0
    requires |x| == cfg.PaddedSize() && |w| == cfg.FilterCount() && |d| == cfg.OutSize()
    requires |dF0| == cfg.FilterCount() && |dX0| == cfg.PaddedSize()
    requires 0 <= f < cfg.numFilters && 0 <= oh < cfg.outputHeight && 0 <= ow < cfg.outputWidth
    ensures var j := f * cfg.OHW() + oh * cfg.outputWidth + ow;
      dF == DFInner(cfg, x, d, dF0, j, cfg.CKK(), false) && dX == DXInner(cfg, w, d, dX0, j, cfg.CKK(), false)
  {
    ConfigSizes(cfg);
    OutIndex(cfg, f, oh, ow);
    var ch, k, kk, inHw, iw := cfg.initChannels, cfg.filterSize, cfg.KK(), cfg.InHW(), cfg.inputWidth;
    var j := f * cfg.OHW() + oh * cfg.outputWidth + ow;
    var wFBase := f * ch * kk;
    var ih0, iw0 := oh * cfg.stride, ow * cfg.stride;
    dF, dX := dF0, dX0;
    var c := 0;
    ghost var u := 0;
    while c < ch
      invariant 0 <= c <= ch && u == c * kk
      invariant dF == DFInner(cfg, x, d, dF0, j, u, false) && dX == DXInner(cfg, w, d, dX0, j, u, false)
    {
      var xCBase := c * inHw + ih0 * iw + iw0;
      var wCBase := wFBase + c * kk;
      var fh := 0;
      while fh < k
        invariant 0 <= fh <= k && u == c * kk + fh * k
        invariant dF == DFInner(cfg, x, d, dF0, j, u, false) && dX == DXInner(cfg, w, d, dX0, j, u, false)
      {
        var xRow := xCBase + fh * iw;
        var wRow := wCBase + fh * k;
        var fw := 0;
        while fw < k
          invariant 0 <= fw <= k && u == c * kk + fh * k + fw
          invariant dF == DFInner(cfg, x, d, dF0, j, u, false) && dX == DXInner(cfg, w, d, dX0, j, u, false)
        {
          dF, dX := NoPadTap(cfg, x, w, d, dF0, dX0, f, oh, ow, c, fh, fw, xRow, wRow, dF, dX);
          u := u + 1;
          fw := fw + 1;
        }
        MulSucc(fh, k);
        fh := fh + 1;
      }
      MulSucc(c, kk);
      c := c + 1;
    }
  }

  /** The unpadded path: for every output, in (filter, row, column) order,
      the bias gradient and then the tap loops. */
  method NoPadBackwardLoop(cfg: ConvConfig, x: seq<real>, w: seq<real>, d: seq<real>,
                           dF0: seq<real>, dB0: seq<real>, dX0: seq<real>)
    returns (dF: seq<real>, dB: seq<real>, dX: seq<real>)
    requires cfg.Valid() && cfg.padding == 0
    requires |x| == cfg.PaddedSize() && |w| == cfg.FilterCount() && |d| == cfg.OutSize()
    requires |dF0| == cfg.FilterCount() && dF0 == Zeros(|dF0|) && |dB0| == cfg.numFilters && dB0 == Zeros(|dB0|)
    requires |dX0| == cfg.PaddedSize() && dX0 == Zeros(|dX0|)
    ensures dF == DFFold(cfg, x, d, cfg.OutSize(), false)
    ensures dB == DBFold(cfg, d, cfg.OutSize())
    ensures dX == DXFold(cfg, w, d, cfg.OutSize(), false)
  {
    ConfigSizes(cfg);
    dF, dB, dX := dF0, dB0, dX0;
    var outHw, wo := cfg.OHW(), cfg.outputWidth;
    var f := 0;
    ghost var k := 0;
    while f < cfg.numFilters
      invariant 0 <= f <= cfg.numFilters && k == f * outHw && 0 <= k <= cfg.OutSize()
      invariant dF == DFFold(cfg, x, d, k, false) && dB == DBFold(cfg, d, k) && dX == DXFold(cfg, w, d, k, false)
    {
      var oh := 0;
      while oh < cfg.outputHeight
        invariant 0 <= oh <= cfg.outputHeight && k == f * outHw + oh * wo && 0 <= k <= cfg.OutSize()
        invariant dF == DFFold(cfg, x, d, k, false) && dB == DBFold(cfg, d, k) && dX == DXFold(cfg, w, d, k, false)
      {
        var ow := 0;
        while ow < wo
          invariant 0 <= ow <= wo && k == f * outHw + oh * wo + ow && 0 <= k <= cfg.OutSize()
          invariant dF == DFFold(cfg, x, d, k, false) && dB == DBFold(cfg, d, k) && dX == DXFold(cfg, w, d, k, false)
        {
          OutIndex(cfg, f, oh, ow);
          var g := d[f * outHw + oh * wo + ow];
          dB := dB[f := dB[f] + g];
          dF, dX := NoPadTaps(cfg, x, w, d, dF, dX, f, oh, ow);
          Idx3Prefix(f, oh, ow + 1, cfg.numFilters, cfg.outputHeight, wo);
          k := k + 1;
          ow := ow + 1;
        }
        MulSucc(oh, wo);
        oh := oh + 1;
      }
      MulSucc(f, outHw);
      f := f + 1;
    }
  }

  // ---------------------------------------------------------------------
  // The loops of backward, padded path
  // ---------------------------------------------------------------------

  lemma OutPlane(cfg: ConvConfig, f: int, i: int)
    requires cfg.Valid() && 0 <= f < cfg.numFilters && 0 <= i < cfg.OHW()
    ensures 0 <= f * cfg.OHW() + i < cfg.OutSize() && OutF(cfg, f * cfg.OHW() + i) == f
  {
    Idx2Bound(f, i, cfg.numFilters, cfg.OHW());
    DivModUnique(f, i, cfg.OHW());
  }

  /** `d_biases[f] += d_out[f * out_hw + i]` over each filter's plane. */
  method BiasLoop(cfg: ConvConfig, d: seq<real>, dB0: seq<real>) returns (dB: seq<real>)
    requires cfg.Valid() && |d| == cfg.OutSize() && |dB0| == cfg.numFilters && dB0 == Zeros(|dB0|)
    ensures dB == DBFold(cfg, d, cfg.OutSize())
  {
    ConfigSizes(cfg);
    dB := dB0;
    var outHw := cfg.OHW();
    var f := 0;
    ghost var k := 0;
    while f < cfg.numFilters
      invariant 0 <= f <= cfg.numFilters && k == f * outHw && 0 <= k <= cfg.OutSize()
      invariant dB == DBFold(cfg, d, k)
    {
      var outBase := f * outHw;
      var i := 0;
      while i < outHw
        invariant 0 <= i <= outHw && k == outBase + i && 0 <= k <= cfg.OutSize()
        invariant dB == DBFold(cfg, d, k)
      {
        OutPlane(cfg, f, i);
        dB := dB[f := dB[f] + d[outBase + i]];
        Idx2Prefix(f, i + 1, cfg.numFilters, outHw);
        k := k + 1;
        i := i + 1;
      }
      MulSucc(f, outHw);
      f := f + 1;
    }
  }

  /** One step of the filter-gradient tap loops for output (f, oh, ow):
      tap (fh, fw, c). */
  method PaddedFilterTap(cfg: ConvConfig, x: seq<real>, d: seq<real>, ghost dF0: seq<real>,
                         f: int, oh: int, ow: int, c: int, fh: int, fw: int, dFi: seq<real>)
    returns (dF: seq<real>)
    requires cfg.Valid() && |x| == cfg.PaddedSize() && |d| == cfg.OutSize() && |dF0| == cfg.FilterCount()
    requires 0 <= f < cfg.numFilters && 0 <= oh < cfg.outputHeight && 0 <= ow < cfg.outputWidth
    requires 0 <= c < cfg.initChannels && 0 <= fh < cfg.filterSize && 0 <= fw < cfg.filterSize
    requires var j := f * cfg.OHW() + oh * cfg.outputWidth + ow;
      dFi == DFInner(cfg, x, d, dF0, j, fh * (cfg.filterSize * cfg.initChannels) + fw * cfg.initChannels + c, true)
    ensures var j := f * cfg.OHW() + oh * cfg.outputWidth + ow;
      dF == DFInner(cfg, x, d, dF0, j, fh * (cfg.filterSize * cfg.initChannels) + fw * cfg.initChannels + c + 1, true)
  {
    ConfigSizes(cfg);
    OutIndex(cfg, f, oh, ow);
    var ch, k, kk := cfg.initChannels, cfg.filterSize, cfg.KK();
    var j, u := f * cfg.OHW() + oh * cfg.outputWidth + ow, fh * (k * ch) + fw * ch + c;
    ChannelLastIndex(cfg, fh, fw, c);
    WindowIndex(cfg, f, oh, ow, c, fh, fw);
    DFInnerUnfold(cfg, x, d, dF0, j, u + 1, true);
    var g := d[j];
    var ih, iw := oh * cfg.stride + fh, ow * cfg.stride + fw;
    var wi := f * ch * kk + c * kk + fh * k + fw;
    dF := dFi[wi := dFi[wi] + Mul(x[c * cfg.PHW() + ih * cfg.paddedWidth + iw], g)];
  }

  /** The (row, column, channel) tap loops of the filter gradient for output
      (f, oh, ow). */
  method PaddedFilterTaps(cfg: ConvConfig, x: seq<real>, d: seq<real>, dF0: seq<real>, f: int, oh: int, ow: int)
    returns (dF: seq<real>)
    requires cfg.Valid() && |x| == cfg.PaddedSize() && |d| == cfg.OutSize() && |dF0| == cfg.FilterCount()
    requires 0 <= f < cfg.numFilters && 0 <= oh < cfg.outputHeight && 0 <= ow < cfg.outputWidth
    ensures dF == DFInner(cfg, x, d, dF0, f * cfg.OHW() + oh * cfg.outputWidth + ow, cfg.CKK(), true)
  {
    ConfigSizes(cfg);
    OutIndex(cfg, f, oh, ow);
    var ch, k := cfg.initChannels, cfg.filterSize;
    var j := f * cfg.OHW() + oh * cfg.outputWidth + ow;
    dF := dF0;
    var fh := 0;
    ghost var u := 0;
    while fh < k
      invariant 0 <= fh <= k && u == fh * (k * ch)
      invariant dF == DFInner(cfg, x, d, dF0, j, u, true)
    {
      var fw := 0;
      while fw < k
        invariant 0 <= fw <= k && u == fh * (k * ch) + fw * ch
        invariant dF == DFInner(cfg, x, d, dF0, j, u, true)
      {
        var c := 0;
        while c < ch
          invariant 0 <= c <= ch && u == fh * (k * ch) + fw * ch + c
          invariant dF == DFInner(cfg, x, d, dF0, j, u, true)
        {
          dF := PaddedFilterTap(cfg, x, d, dF0, f, oh, ow, c, fh, fw, dF);
          u := u + 1;
          c := c + 1;
        }
        MulSucc(fw, ch);
        fw := fw + 1;
      }
      MulSucc(fh, k * ch);
      fh := fh + 1;
    }
    CubeOrder(k, ch);
  }

  /** The filter gradient of the padded path, output by output. */
  method FilterGradLoop(cfg: ConvConfig, x: seq<real>, d: seq<real>, dF0: seq<real>) returns (dF: seq<real>)
    requires cfg.Valid() && |x| == cfg.PaddedSize() && |d| == cfg.OutSize() && |dF0| == cfg.FilterCount() && dF0 == Zeros(|dF0|)
    ensures dF == DFFold(cfg, x, d, cfg.OutSize(), true)
  {
    ConfigSizes(cfg);
    dF := dF0;
    var outHw, wo := cfg.OHW(), cfg.outputWidth;
    var f := 0;
    ghost var k := 0;
    while f < cfg.numFilters
      invariant 0 <= f <= cfg.numFilters && k == f * outHw && 0 <= k <= cfg.OutSize()
      invariant dF == DFFold(cfg, x, d, k, true)
    {
      var oh := 0;
      while oh < cfg.outputHeight
        invariant 0 <= oh <= cfg.outputHeight && k == f * outHw + oh * wo && 0 <= k <= cfg.OutSize()
        invariant dF == DFFold(cfg, x, d, k, true)
      {
        var ow := 0;
        while ow < wo
          invariant 0 <= ow <= wo && k == f * outHw + oh * wo + ow && 0 <= k <= cfg.OutSize()
          invariant dF == DFFold(cfg, x, d, k, true)
        {
          dF := PaddedFilterTaps(cfg, x, d, dF, f, oh, ow);
          Idx3Prefix(f, oh, ow + 1, cfg.numFilters, cfg.outputHeight, wo);
          k := k + 1;
          ow := ow + 1;
        }
        MulSucc(oh, wo);
        oh := oh + 1;
      }
      MulSucc(f, outHw);
      f := f + 1;
    }
  }

  /** One step of the padded input-gradient tap loops for output
      (f, oh, ow): tap (fh, fw, c). */
  method PaddedInputTap(cfg: ConvConfig, w: seq<real>, d: seq<real>, ghost dP0: seq<real>,
                        f: int, oh: int, ow: int, c: int, fh: int, fw: int, dPi: seq<real>)
    returns (dP: seq<real>)
    requires cfg.Valid() && |w| == cfg.FilterCount() && |d| == cfg.OutSize() && |dP0| == cfg.PaddedSize()
    requires 0 <= f < cfg.numFilters && 0 <= oh < cfg.outputHeight && 0 <= ow < cfg.outputWidth
    requires 0 <= c < cfg.initChannels && 0 <= fh < cfg.filterSize && 0 <= fw < cfg.filterSize
    requires var j := f * cfg.OHW() + oh * cfg.outputWidth + ow;
      dPi == DXInner(cfg, w, d, dP0, j, fh * (cfg.filterSize * cfg.initChannels) + fw * cfg.initChannels + c, true)
    ensures var j := f * cfg.OHW() + oh * cfg.outputWidth + ow;
      dP == DXInner(cfg, w, d, dP0, j, fh * (cfg.filterSize * cfg.initChannels) + fw * cfg.initChannels + c + 1, true)
  {
    ConfigSizes(cfg);
    OutIndex(cfg, f, oh, ow);
    var ch, k, kk := cfg.initChannels, cfg.filterSize, cfg.KK();
    var j, u := f * cfg.OHW() + oh * cfg.outputWidth + ow, fh * (k * ch) + fw * ch + c;
    ChannelLastIndex(cfg, fh, fw, c);
    WindowIndex(cfg, f, oh, ow, c, fh, fw);
    DXInnerUnfold(cfg, w, d, dP0, j, u + 1, true);
    var g := d[j];
    var ih, iw := oh * cfg.stride + fh, ow * cfg.stride + fw;
    var xi := c * cfg.PHW() + ih * cfg.paddedWidth + iw;
    dP := dPi[xi := dPi[xi] + Mul(w[f * ch * kk + c * kk + fh * k + fw], g)];
  }

  /** The (row, column, channel) tap loops of the padded input gradient for
      output (f, oh, ow). */
  method PaddedInputTaps(cfg: ConvConfig, w: seq<real>, d: seq<real>, dP0: seq<real>, f: int, oh: int, ow: int)
    returns (dP: seq<real>)
    requires cfg.Valid() && |w| == cfg.FilterCount() && |d| == cfg.OutSize() && |dP0| == cfg.PaddedSize()
    requires 0 <= f < cfg.numFilters && 0 <= oh < cfg.outputHeight && 0 <= ow < cfg.outputWidth
    ensures dP == DXInner(cfg, w, d, dP0, f * cfg.OHW() + oh * cfg.outputWidth + ow, cfg.CKK(), true)
  {
    ConfigSizes(cfg);
    OutIndex(cfg, f, oh, ow);
    var ch, k := cfg.initChannels, cfg.filterSize;
    var j := f * cfg.OHW() + oh * cfg.outputWidth + ow;
    dP := dP0;
    var fh := 0;
    ghost var u := 0;
    while fh < k
      invariant 0 <= fh <= k && u == fh * (k * ch)
      invariant dP == DXInner(cfg, w, d, dP0, j, u, true)
    {
      var fw := 0;
      while fw < k
        invariant 0 <= fw <= k && u == fh * (k * ch) + fw * ch
        invariant dP == DXInner(cfg, w, d, dP0, j, u, true)
      {
        var c := 0;
        while c < ch
          invariant 0 <= c <= ch && u == fh * (k * ch) + fw * ch + c
          invariant dP == DXInner(cfg, w, d, dP0, j, u, true)
        {
          dP := PaddedInputTap(cfg, w, d, dP0, f, oh, ow, c, fh, fw, dP);
          u := u + 1;
          c := c + 1;
        }
        MulSucc(fw, ch);
        fw := fw + 1;
      }
      MulSucc(fh, k * ch);
      fh := fh + 1;
    }
    CubeOrder(k, ch);
  }

  /** The gradient of the padded input, output by output. */
  method PaddedGradLoop(cfg: ConvConfig, w: seq<real>, d: seq<real>, dP0: seq<real>) returns (dP: seq<real>)
    requires cfg.Valid() && |w| == cfg.FilterCount() && |d| == cfg.OutSize() && |dP0| == cfg.PaddedSize() && dP0 == Zeros(|dP0|)
    ensures dP == DXFold(cfg, w, d, cfg.OutSize(), true)
  {
    ConfigSizes(cfg);
    dP := dP0;
    var outHw, wo := cfg.OHW(), cfg.outputWidth;
    var f := 0;
    ghost var k := 0;
    while f < cfg.numFilters
      invariant 0 <= f <= cfg.numFilters && k == f * outHw && 0 <= k <= cfg.OutSize()
      invariant dP == DXFold(cfg, w, d, k, true)
    {
      var oh := 0;
      while oh < cfg.outputHeight
        invariant 0 <= oh <= cfg.outputHeight && k == f * outHw + oh * wo && 0 <= k <= cfg.OutSize()
        invariant dP == DXFold(cfg, w, d, k, true)
      {
        var ow := 0;
        while ow < wo
          invariant 0 <= ow <= wo && k == f * outHw + oh * wo + ow && 0 <= k <= cfg.OutSize()
          invariant dP == DXFold(cfg, w, d, k, true)
        {
          dP := PaddedInputTaps(cfg, w, d, dP, f, oh, ow);
          Idx3Prefix(f, oh, ow + 1, cfg.numFilters, cfg.outputHeight, wo);
          k := k + 1;
          ow := ow + 1;
        }
        MulSucc(oh, wo);
        oh := oh + 1;
      }
      MulSucc(f, outHw);
      f := f + 1;
    }
  }

  /** Copies the interior of the padded gradient into the input gradient. */
  method CropLoop(cfg: ConvConfig, dp: seq<real>, dx0: seq<real>) returns (dx: seq<real>)
    requires cfg.Valid() && |dp| == cfg.PaddedSize() && |dx0| == cfg.InSize()
    ensures dx == Crop(cfg, dp)
  {
    ConfigSizes(cfg);
    dx := dx0;
    var phw, inHw := cfg.PHW(), cfg.InHW();
    var c := 0;
    ghost var k := 0;
    while c < cfg.initChannels
      invariant 0 <= c <= cfg.initChannels && k == c * inHw && 0 <= k <= cfg.InSize() && |dx| == cfg.InSize()
      invariant forall i :: 0 <= i < k ==> dx[i] == Crop(cfg, dp)[i]
    {
      var padBase, outBase := c * phw, c * inHw;
      var h := 0;
      while h < cfg.inputHeight
        invariant 0 <= h <= cfg.inputHeight && k == c * inHw + h * cfg.inputWidth && 0 <= k <= cfg.InSize()
        invariant |dx| == cfg.InSize()
        invariant forall i :: 0 <= i < k ==> dx[i] == Crop(cfg, dp)[i]
      {
        var padRow := (h + cfg.padding) * cfg.paddedWidth + cfg.padding;
        var outRow := h * cfg.inputWidth;
        var w := 0;
        while w < cfg.inputWidth
          invariant 0 <= w <= cfg.inputWidth && k == c * inHw + h * cfg.inputWidth + w && 0 <= k <= cfg.InSize()
          invariant |dx| == cfg.InSize()
          invariant forall i :: 0 <= i < k ==> dx[i] == Crop(cfg, dp)[i]
        {
          CopyIndex(cfg, c, h, w);
          PIdxInterior(cfg, k);
          dx := dx[outBase + outRow + w := dp[padBase + padRow + w]];
          Idx3Prefix(c, h, w + 1, cfg.initChannels, cfg.inputHeight, cfg.inputWidth);
          k := k + 1;
          w := w + 1;
        }
        MulSucc(h, cfg.inputWidth);
        h := h + 1;
      }
      MulSucc(c, inHw);
      c := c + 1;
    }
  }

  /** The padded branch of `backward`: biases, filters, the padded input
      gradient, then its crop, in the source's order. */
  method PaddedBackwardLoops(cfg: ConvConfig, x: seq<real>, w: seq<real>, d: seq<real>,
                             dB0: seq<real>, dF0: seq<real>, dP0: seq<real>, dX0: seq<real>)
    returns (dB: seq<real>, dF: seq<real>, dP: seq<real>, dX: seq<real>)
    requires cfg.Valid() && |x| == cfg.PaddedSize() && |w| == cfg.FilterCount() && |d| == cfg.OutSize()
    requires |dB0| == cfg.numFilters && dB0 == Zeros(|dB0|)
    requires |dF0| == cfg.FilterCount() && dF0 == Zeros(|dF0|)
    requires |dP0| == cfg.PaddedSize() && dP0 == Zeros(|dP0|)
    requires |dX0| == cfg.InSize()
    ensures dB == DBFold(cfg, d, cfg.OutSize()) && dF == DFFold(cfg, x, d, cfg.OutSize(), true)
    ensures dP == DXFold(cfg, w, d, cfg.OutSize(), true) && dX == Crop(cfg, dP)
  {
    dB := BiasLoop(cfg, d, dB0);
    dF := FilterGradLoop(cfg, x, d, dF0);
    dP := PaddedGradLoop(cfg, w, d, dP0);
    dX := CropLoop(cfg, dP, dX0);
  }

  /** `p[i] -= lr * (g[i] + l2 * p[i])` for every i: `update_filters` and
      `update_biases`. */
  method L2Loop(p: seq<real>, g: seq<real>, lr: real, l2: real) returns (r: seq<real>)
    requires |p| == |g|
    ensures r == L2Step(p, g, lr, l2)
  {
    r := p;
    var i := 0;
    while i < |p|
      invariant 0 <= i <= |p| && |r| == |p|
      invariant forall k :: 0 <= k < i ==> r[k] == L2Step(p, g, lr, l2)[k]
      invariant forall k :: i <= k < |p| ==> r[k] == p[k]
    {
      r := r[i := r[i] - lr * (g[i] + l2 * r[i])];
      i := i + 1;
    }
  }

  // ---------------------------------------------------------------------
  // The layer object
  // ---------------------------------------------------------------------

  class ConvolutionLayer {
    const numFilters: int
    const filterSize: int
    const stride: int
    const padding: int
    const inputHeight: int
    const inputWidth: int
    const outputHeight: int
    const outputWidth: int
    const initChannels: int
    const paddedHeight: int
    const paddedWidth: int
    var filters: seq<real>
    var biases: seq<real>
    var dFilters: seq<real>
    var dBiases: seq<real>
    var lastOutput: seq<real>
    var dPaddedInput: seq<real>
    var dInputGrad: seq<real>
    var lastInput: seq<real>

    function Config(): ConvConfig {
      ConvConfig(numFilters, filterSize, stride, padding, inputHeight, inputWidth,
                 outputHeight, outputWidth, initChannels, paddedHeight, paddedWidth)
    }

    function State(): ConvState
      reads this
    {
      ConvState(Config(), filters, biases, dFilters, dBiases, lastOutput, dPaddedInput, dInputGrad, lastInput)
    }

    ghost predicate Valid()
      reads this
    {
      State().Valid()
    }

    /** The shapes, the zeroed buffers and the zero biases; the He-normal
        draws are the `initialFilters` argument. */
    constructor (numFilters: int, filterSize: int, stride: int, padding: int,
                 inputHeight: int, inputWidth: int, inputChannels: int, initialFilters: seq<real>)
      requires numFilters >= 0 && filterSize >= 1 && stride >= 1 && padding >= 0
      requires inputHeight >= 0 && inputWidth >= 0 && inputChannels >= 0
      requires filterSize <= inputHeight + 2 * padding && filterSize <= inputWidth + 2 * padding
      requires |initialFilters|
        == MakeConfig(numFilters, filterSize, stride, padding, inputHeight, inputWidth, inputChannels).FilterCount()
      ensures Valid()
      ensures State() == Init(MakeConfig(numFilters, filterSize, stride, padding, inputHeight, inputWidth, inputChannels),
                              initialFilters)
    {
      this.numFilters := numFilters;
      this.filterSize := filterSize;
      this.stride := stride;
      this.padding := padding;
      this.inputHeight := inputHeight;
      this.inputWidth := inputWidth;
      this.outputHeight := CDiv(inputHeight - filterSize + 2 * padding, stride) + 1;
      this.outputWidth := CDiv(inputWidth - filterSize + 2 * padding, stride) + 1;
      this.initChannels := inputChannels;
      this.paddedHeight := inputHeight + 2 * padding;
      this.paddedWidth := inputWidth + 2 * padding;
      new;
      var cfg := Config();
      ConfigSizes(cfg);
      filters := initialFilters;
      biases := Zeros(cfg.numFilters);
      lastOutput := Zeros(cfg.OutSize());
      lastInput := Zeros(cfg.PaddedSize());
      dFilters := Zeros(cfg.FilterCount());
      dBiases := Zeros(cfg.numFilters);
      dPaddedInput := Zeros(cfg.PaddedSize());
      dInputGrad := Zeros(cfg.InSize());
    }

    method ZeroGradients()
      requires Valid()
      modifies this
      ensures Valid() && State() == ZeroGradientsStep(old(State()))
    {
      dFilters := Zeros(|dFilters|);
      dBiases := Zeros(|dBiases|);
    }

    method Forward(input: seq<real>, train: bool) returns (r: Outcome<seq<real>>)
      requires Valid()
      modifies this
      ensures Valid()
      ensures (State(), r) == ForwardStep(old(State()), input)
    {
      var cfg := Config();
      ConfigSizes(cfg);
      if |input| != cfg.InSize() {
        return Err("ConvolutionLayer::forward: Input size mismatch.");
      }
      if padding == 0 {
        lastInput := input;
      } else {
        lastInput := PadLoop(cfg, input, lastInput);
      }
      lastOutput := ConvLoop(cfg, lastInput, filters, biases, lastOutput);
      return Ok(lastOutput);
    }

    method Backward(dOut: seq<real>) returns (r: Outcome<seq<real>>)
      requires Valid()
      modifies this
      ensures Valid()
      ensures (State(), r) == BackwardStep(old(State()), dOut)
    {
      var cfg := Config();
      ConfigSizes(cfg);
      ZeroGradients();
      if |dOut| != cfg.OutSize() {
        return Err("ConvolutionLayer::backward: d_out size mismatch.");
      }
      dInputGrad := Zeros(|dInputGrad|);
      if padding == 0 {
        if |lastInput| != cfg.InSize() {
          return Err("ConvolutionLayer::backward: last_input size mismatch.");
        }
        dFilters, dBiases, dInputGrad := NoPadBackwardLoop(cfg, lastInput, filters, dOut, dFilters, dBiases, dInputGrad);
      } else {
        if |lastInput| != cfg.PaddedSize() {
          return Err("ConvolutionLayer::backward: last_input (padded) size mismatch.");
        }
        dPaddedInput := Zeros(|dPaddedInput|);
        dBiases, dFilters, dPaddedInput, dInputGrad :=
          PaddedBackwardLoops(cfg, lastInput, filters, dOut, dBiases, dFilters, dPaddedInput, dInputGrad);
      }
      return Ok(dInputGrad);
    }

    method UpdateFilters(learningRate: real, l2Reg: real)
      requires Valid()
      modifies this
      ensures Valid() && State() == UpdateFiltersStep(old(State()), learningRate, l2Reg)
    {
      filters := L2Loop(filters, dFilters, learningRate, l2Reg);
    }

    method UpdateBiases(learningRate: real, l2Reg: real)
      requires Valid()
      modifies this
      ensures Valid() && State() == UpdateBiasesStep(old(State()), learningRate, l2Reg)
    {
      biases := L2Loop(biases, dBiases, learningRate, l2Reg);
    }

    method GetOutputSize() returns (shape: seq<int>)
      ensures shape == OutputSize(State())
    {
      shape := [numFilters, outputHeight, outputWidth];
    }

    method SaveFilters() returns (w: seq<real>)
      ensures w == filters
    {
      w := filters;
    }

    method SaveBiases() returns (b: seq<real>)
      ensures b == biases
    {
      b := biases;
    }

    method LoadFilters(newFilters: seq<real>)
      requires Valid() && |newFilters| == |filters|
      modifies this
      ensures Valid() && State() == LoadFiltersStep(old(State()), newFilters)
    {
      filters := newFilters;
    }

    method LoadBiases(newBiases: seq<real>)
      requires Valid() && |newBiases| == |biases|
      modifies this
      ensures Valid() && State() == LoadBiasesStep(old(State()), newBiases)
    {
      biases := newBiases;
    }
  }
}
