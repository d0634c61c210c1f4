/** The MNIST readers (CNN/src/read_mnist.cpp): the IDX files decoded from
    their bytes.  The header is four (images) or two (labels) big-endian
    32-bit integers; the body is one byte per pixel or per label. */
module Mnist {
  import opened Tensor
  import Network

  newtype byte = x: int | 0 <= x < 256

  const Pow32: int := 0x1_0000_0000
  const Pow31: int := 0x8000_0000

  /** The text of the `std::length_error` thrown by a vector asked for a
      negative (so, as `size_t`, a huge) length. */
  const LengthError: string := "cannot create std::vector larger than max_size()"

  /** Byte p of the file.  A read past the end stores nothing, and every
      destination is zero-initialised, so such a byte reads as 0. */
  function ByteAt(f: seq<byte>, p: int): byte {
    if 0 <= p < |f| then f[p] else 0
  }

  /** `ntohl` of the four bytes at p: the first byte is the most significant. */
  function BE32(f: seq<byte>, p: int): (u: int)
    ensures 0 <= u < Pow32
  {
    ((ByteAt(f, p) as int * 256 + ByteAt(f, p + 1) as int) * 256 + ByteAt(f, p + 2) as int) * 256
      + ByteAt(f, p + 3) as int
  }

  /** The unsigned value as the `int` it is stored into: two's complement. */
  function ToInt32(u: int): (v: int)
    requires 0 <= u < Pow32
    ensures -Pow31 <= v < Pow31
    ensures v % Pow32 == u
  {
    if u < Pow31 then u else u - Pow32
  }

  /** Header field k (0 for the magic number) of an IDX file. */
  function Field(f: seq<byte>, k: int): int {
    ToInt32(BE32(f, 4 * k))
  }

  // ---------------------------------------------------------------------
  // read_mnist_images
  // ---------------------------------------------------------------------

  /** The source computes `1 * rows * cols` in `int`; the readers are only
      defined when that product does not overflow. */
  predicate ImageSizeFits(f: seq<byte>) {
    -Pow31 <= Field(f, 2) * Field(f, 3) < Pow31
  }

  /** The pixel value of byte p: the byte scaled to [0, 1]. */
  function Intensity(f: seq<byte>, p: int): (v: real)
    ensures 0.0 <= v <= 1.0
  {
    ByteAt(f, p) as real / 255.0
  }

  /** The `size` bytes from `base` on, each scaled to [0, 1]. */
  function Scaled(f: seq<byte>, base: int, size: nat): (img: seq<real>)
    ensures |img| == size
  {
    seq(size, k requires 0 <= k < size => Intensity(f, base + k))
  }

  /** Image i: when rows and columns are positive, the bytes from
      `16 + i * rows * cols` on; otherwise the pixel loops do not run and the
      image keeps its initial zeros. */
  function Image(f: seq<byte>, i: int, rows: int, cols: int): (img: seq<real>)
    requires rows * cols >= 0
    ensures |img| == rows * cols
  {
    if rows > 0 && cols > 0 then Scaled(f, 16 + i * (rows * cols), rows * cols) else Zeros(rows * cols)
  }

  /** `read_mnist_images(filename)`, `file` being the bytes of the file or
      `None` when it cannot be opened. */
  function DecodeImages(filename: string, file: Option<seq<byte>>): (r: Outcome<seq<seq<real>>>)
    requires file.Some? ==> ImageSizeFits(file.value)
  {
    if file.None? then Err("read_mnist_images: Could not open file: " + filename)
    else
      var f := file.value;
      if Field(f, 0) != 2051 then Err("read_mnist_images: Invalid MNIST image file!")
      else
        var n, rows, cols := Field(f, 1), Field(f, 2), Field(f, 3);
        if n < 0 || rows * cols < 0 then Err(LengthError)
        else Ok(seq(n, i => Image(f, i, rows, cols)))
  }

  /** The decoder fails unless the big-endian magic number is 2051 and the
      counts are not negative. */
  lemma DecodeImagesSucceeds(filename: string, f: seq<byte>)
    requires ImageSizeFits(f)
    ensures DecodeImages(filename, Some(f)).Ok? <==>
      BE32(f, 0) == 2051 && Field(f, 1) >= 0 && Field(f, 2) * Field(f, 3) >= 0
  {
  }

  /** A decoded file holds `number_of_images` vectors of `rows * cols`
      pixels, the byte of pixel (r, c) of image i, scaled by 1/255, being at
      `r * cols + c`. */
  lemma DecodeImagesPixel(filename: string, f: seq<byte>, i: int, r: int, c: int)
    requires ImageSizeFits(f) && DecodeImages(filename, Some(f)).Ok?
    ensures var images, rows, cols := DecodeImages(filename, Some(f)).value, Field(f, 2), Field(f, 3);
      |images| == Field(f, 1) &&
      (forall j :: 0 <= j < |images| ==> |images[j]| == rows * cols) &&
      (0 <= i < |images| && 0 <= r < rows && 0 <= c < cols ==>
        0 <= r * cols + c < rows * cols &&
        images[i][r * cols + c] == Intensity(f, 16 + i * (rows * cols) + (r * cols + c)))
  {
    var rows, cols := Field(f, 2), Field(f, 3);
    var images := DecodeImages(filename, Some(f)).value;
    assert images == seq(Field(f, 1), j => Image(f, j, rows, cols));
    if 0 <= i < |images| && 0 <= r < rows && 0 <= c < cols {
      Idx2Bound(r, c, rows, cols);
      assert images[i] == Scaled(f, 16 + i * (rows * cols), rows * cols);
    }
  }

  /** The zero-filled `images` the decoder allocates. */
  function Blank(n: nat, size: nat): (z: seq<seq<real>>)
    ensures |z| == n && forall i :: 0 <= i < n ==> z[i] == Zeros(size)
  {
    seq(n, i => Zeros(size))
  }

  /** The pixel loops for one image: each byte is read in turn, `pos` being
      the file position, and stored scaled at `r * cols + c`. */
  method ReadImage(f: seq<byte>, base: int, rows: int, cols: int) returns (img: seq<real>)
    requires rows > 0 && cols > 0
    ensures img == Scaled(f, base, rows * cols)
  {
    var size := rows * cols;
    img := Zeros(size);
    var pos := base;
    ghost var k := 0;
    var r := 0;
    while r < rows
      invariant 0 <= r <= rows && k == r * cols && k <= size && |img| == size && pos == base + k
      invariant forall j :: 0 <= j < k ==> img[j] == Intensity(f, base + j)
      invariant forall j :: k <= j < size ==> img[j] == 0.0
    {
      var c := 0;
      while c < cols
        invariant 0 <= c <= cols && k == r * cols + c && k <= size && |img| == size && pos == base + k
        invariant forall j :: 0 <= j < k ==> img[j] == Intensity(f, base + j)
        invariant forall j :: k <= j < size ==> img[j] == 0.0
      {
        Idx2Bound(r, c, rows, cols);
        var pixel := Intensity(f, pos);
        pos := pos + 1;
        img := img[r * cols + c := pixel];
        c, k := c + 1, k + 1;
      }
      MulSucc(r, cols);
      r := r + 1;
    }
  }

  /** The image loop of `read_mnist_images`: the images' bytes follow each
      other from offset 16. */
  method ReadPixels(f: seq<byte>, n: int, rows: int, cols: int) returns (images: seq<seq<real>>)
    requires n >= 0 && rows * cols >= 0
    ensures images == seq(n, i => Image(f, i, rows, cols))
  {
    var size := rows * cols;
    images := Blank(n, size);
    if rows <= 0 || cols <= 0 {
      return;
    }
    var pos := 16;
    var i := 0;
    while i < n
      invariant 0 <= i <= n && |images| == n && pos == 16 + i * size
      invariant forall j :: 0 <= j < i ==> images[j] == Image(f, j, rows, cols)
      invariant forall j :: i <= j < n ==> images[j] == Zeros(size)
    {
      var img := ReadImage(f, pos, rows, cols);
      images := images[i := img];
      pos := pos + size;
      MulSucc(i, size);
      i := i + 1;
    }
  }

  /** `read_mnist_images`, reading the header fields in turn. */
  method ReadMnistImages(filename: string, file: Option<seq<byte>>) returns (r: Outcome<seq<seq<real>>>)
    requires file.Some? ==> ImageSizeFits(file.value)
    ensures r == DecodeImages(filename, file)
  {
    if file.None? {
      return Err("read_mnist_images: Could not open file: " + filename);
    }
    var f := file.value;
    var magic := ToInt32(BE32(f, 0));
    if magic != 2051 {
      return Err("read_mnist_images: Invalid MNIST image file!");
    }
    var n := ToInt32(BE32(f, 4));
    var rows := ToInt32(BE32(f, 8));
    var cols := ToInt32(BE32(f, 12));
    if n < 0 || rows * cols < 0 {
      return Err(LengthError);
    }
    var images := ReadPixels(f, n, rows, cols);
    return Ok(images);
  }

  // ---------------------------------------------------------------------
  // read_mnist_labels
  // ---------------------------------------------------------------------

  /** The label bytes index a vector of length 10; a larger byte would be
      written out of bounds by the source. */
  predicate LabelsInRange(f: seq<byte>) {
    forall p :: 8 <= p < 8 + Field(f, 1) ==> ByteAt(f, p) < 10
  }

  /** The one-hot vector of length 10 for label d. */
  function OneHot(d: int): (v: seq<real>)
    ensures |v| == 10
  {
    seq(10, k => if k == d then 1.0 else 0.0)
  }

  /** `read_mnist_labels(filename)`. */
  function DecodeLabels(filename: string, file: Option<seq<byte>>): (r: Outcome<seq<seq<real>>>)
    requires file.Some? ==> LabelsInRange(file.value)
  {
    if file.None? then Err("read_mnist_labels: Could not open file: " + filename)
    else
      var f := file.value;
      if Field(f, 0) != 2049 then Err("read_mnist_labels: Invalid MNIST label file!")
      else
        var n := Field(f, 1);
        if n < 0 then Err(LengthError)
        else Ok(seq(n, i requires 0 <= i < n => OneHot(ByteAt(f, 8 + i) as int)))
  }

  /** The decoder fails unless the magic number is 2049; each label vector
      has length 10, exactly one 1.0, at the label byte, and zeros elsewhere,
      so the network reads the label byte back as the class. */
  lemma DecodeLabelsShape(filename: string, f: seq<byte>)
    requires LabelsInRange(f)
    ensures DecodeLabels(filename, Some(f)).Ok? <==> BE32(f, 0) == 2049 && Field(f, 1) >= 0
    ensures DecodeLabels(filename, Some(f)).Ok? ==>
      var labels := DecodeLabels(filename, Some(f)).value;
      |labels| == Field(f, 1) &&
      forall i :: 0 <= i < |labels| ==>
        |labels[i]| == 10 &&
        (forall k :: 0 <= k < 10 ==> (labels[i][k] == 1.0 <==> k == ByteAt(f, 8 + i) as int)) &&
        Network.LabelOf(labels[i]) == ByteAt(f, 8 + i) as int
  {
    if DecodeLabels(filename, Some(f)).Ok? {
      var labels := DecodeLabels(filename, Some(f)).value;
      forall i | 0 <= i < |labels|
        ensures labels[i] == OneHot(ByteAt(f, 8 + i) as int)
        ensures Network.LabelOf(labels[i]) == ByteAt(f, 8 + i) as int
      {
        assert 8 <= 8 + i < 8 + Field(f, 1);
        OneHotLabel(ByteAt(f, 8 + i) as int);
      }
    }
  }

  /** The class of a one-hot label is the index of its 1.0. */
  lemma OneHotLabel(d: int)
    requires 0 <= d < 10
    ensures Network.LabelOf(OneHot(d)) == d
  {
    var t := OneHot(d);
    assert t[d] == 1.0;
    var c := Network.LabelOf(t);
    assert t[c] == 1.0;
  }

  /** The label loop: each byte read in turn and its vector's 1.0 set. */
  method ReadLabels(f: seq<byte>, n: int) returns (labels: seq<seq<real>>)
    requires n >= 0 && n == Field(f, 1) && LabelsInRange(f)
    ensures labels == seq(n, i requires 0 <= i < n => OneHot(ByteAt(f, 8 + i) as int))
  {
    labels := Blank(n, 10);
    var pos := 8;
    var i := 0;
    while i < n
      invariant 0 <= i <= n && |labels| == n && pos == 8 + i
      invariant forall j :: 0 <= j < i ==> labels[j] == OneHot(ByteAt(f, 8 + j) as int)
      invariant forall j :: i <= j < n ==> labels[j] == Zeros(10)
    {
      var digit := ByteAt(f, pos);
      pos := pos + 1;
      labels := labels[i := labels[i][digit as int := 1.0]];
      i := i + 1;
    }
  }

  /** `read_mnist_labels`. */
  method ReadMnistLabels(filename: string, file: Option<seq<byte>>) returns (r: Outcome<seq<seq<real>>>)
    requires file.Some? ==> LabelsInRange(file.value)
    ensures r == DecodeLabels(filename, file)
  {
    if file.None? {
      return Err("read_mnist_labels: Could not open file: " + filename);
    }
    var f := file.value;
    var magic := ToInt32(BE32(f, 0));
    if magic != 2049 {
      return Err("read_mnist_labels: Invalid MNIST label file!");
    }
    var n := ToInt32(BE32(f, 4));
    if n < 0 {
      return Err(LengthError);
    }
    var labels := ReadLabels(f, n);
    return Ok(labels);
  }

  // ---------------------------------------------------------------------
  // The file format, written out: decoding what was encoded
  // ---------------------------------------------------------------------

  /** The four big-endian bytes of u. */
  function EncodeBE32(u: int): (b: seq<byte>)
    requires 0 <= u < Pow32
    ensures |b| == 4
  {
    [(u / 0x100_0000) as byte, (u / 0x1_0000 % 256) as byte, (u / 0x100 % 256) as byte, (u % 256) as byte]
  }

  lemma BE32RoundTrip(u: int, rest: seq<byte>, pre: seq<byte>)
    requires 0 <= u < Pow32
    ensures BE32(pre + EncodeBE32(u) + rest, |pre|) == u
  {
    var f := pre + EncodeBE32(u) + rest;
    var p := |pre|;
    assert ByteAt(f, p) as int == u / 0x100_0000;
    assert ByteAt(f, p + 1) as int == u / 0x1_0000 % 256;
    assert ByteAt(f, p + 2) as int == u / 0x100 % 256;
    assert ByteAt(f, p + 3) as int == u % 256;
  }

  /** All images in one flat run of bytes. */
  function Flatten(ps: seq<seq<byte>>): seq<byte> {
    if |ps| == 0 then [] else Flatten(ps[..|ps| - 1]) + ps[|ps| - 1]
  }

  lemma {:induction false} FlattenAt(ps: seq<seq<byte>>, size: nat, i: int, k: int)
    requires forall j :: 0 <= j < |ps| ==> |ps[j]| == size
    requires 0 <= i < |ps| && 0 <= k < size
    ensures |Flatten(ps)| == |ps| * size
    ensures 0 <= i * size + k < |Flatten(ps)| && Flatten(ps)[i * size + k] == ps[i][k]
    decreases |ps|
  {
    var m := |ps| - 1;
    FlattenLength(ps[..m], size);
    assert |Flatten(ps)| == m * size + size;
    Idx2Bound(i, k, |ps|, size);
    if i < m {
      FlattenAt(ps[..m], size, i, k);
    } else {
      assert Flatten(ps)[i * size + k] == ps[m][k];
    }
  }

  lemma {:induction false} FlattenLength(ps: seq<seq<byte>>, size: nat)
    requires forall j :: 0 <= j < |ps| ==> |ps[j]| == size
    ensures |Flatten(ps)| == |ps| * size
    decreases |ps|
  {
    if |ps| > 0 {
      FlattenLength(ps[..|ps| - 1], size);
    }
  }

  /** An image file: magic 2051, the three counts, then the pixels. */
  function EncodeImages(rows: int, cols: int, pixels: seq<seq<byte>>): seq<byte>
    requires 0 < rows && 0 < cols && rows * cols < Pow31 && |pixels| < Pow31
  {
    EncodeBE32(2051) + EncodeBE32(|pixels|) + EncodeBE32(rows) + EncodeBE32(cols) + Flatten(pixels)
  }

  /** The four header fields of an encoded file read back as written. */
  lemma HeaderRoundTrip(h0: int, h1: int, h2: int, h3: int, body: seq<byte>)
    requires 0 <= h0 < Pow31 && 0 <= h1 < Pow31 && 0 <= h2 < Pow31 && 0 <= h3 < Pow31
    ensures var f := EncodeBE32(h0) + EncodeBE32(h1) + EncodeBE32(h2) + EncodeBE32(h3) + body;
      Field(f, 0) == h0 && Field(f, 1) == h1 && Field(f, 2) == h2 && Field(f, 3) == h3 &&
      |f| == 16 + |body| && f[16..] == body
  {
    var e0, e1, e2, e3 := EncodeBE32(h0), EncodeBE32(h1), EncodeBE32(h2), EncodeBE32(h3);
    var f := e0 + e1 + e2 + e3 + body;
    assert f == [] + e0 + (e1 + e2 + e3 + body);
    BE32RoundTrip(h0, e1 + e2 + e3 + body, []);
    assert f == e0 + e1 + (e2 + e3 + body);
    BE32RoundTrip(h1, e2 + e3 + body, e0);
    assert f == e0 + e1 + e2 + (e3 + body);
    BE32RoundTrip(h2, e3 + body, e0 + e1);
    BE32RoundTrip(h3, body, e0 + e1 + e2);
  }

  /** Image i of a file whose body, from offset 16, is the images written
      one after the other, is image i as written, scaled. */
  lemma ImageOfBody(f: seq<byte>, rows: int, cols: int, pixels: seq<seq<byte>>, i: int)
    requires 0 < rows && 0 < cols
    requires forall j :: 0 <= j < |pixels| ==> |pixels[j]| == rows * cols
    requires 0 <= i < |pixels| && 16 <= |f| && f[16..] == Flatten(pixels)
    ensures Image(f, i, rows, cols) == Scaled(pixels[i], 0, rows * cols)
  {
    var body := Flatten(pixels);
    var size := rows * cols;
    var base := 16 + i * size;
    MulMono(1, rows, cols);
    forall k | 0 <= k < size
      ensures Intensity(f, base + k) == Intensity(pixels[i], k)
    {
      FlattenAt(pixels, size, i, k);
      assert f[16..][i * size + k] == body[i * size + k];
    }
    assert Scaled(f, base, size) == Scaled(pixels[i], 0, size);
  }

  /** A file whose header reads 2051, n, rows, cols and whose images read
      as `images` decodes to them. */
  lemma DecodedImages(filename: string, f: seq<byte>, n: int, rows: int, cols: int, images: seq<seq<real>>)
    requires Field(f, 0) == 2051 && Field(f, 1) == n && Field(f, 2) == rows && Field(f, 3) == cols
    requires n >= 0 && 0 < rows && 0 < cols && rows * cols < Pow31 && |images| == n
    requires forall i :: 0 <= i < n ==> Image(f, i, rows, cols) == images[i]
    ensures ImageSizeFits(f) && DecodeImages(filename, Some(f)) == Ok(images)
  {
    MulMono(1, rows, cols);
    assert seq(n, i => Image(f, i, rows, cols)) == images;
  }

  /** Decoding an encoded image file gives back every pixel, scaled by 1/255. */
  lemma ImagesRoundTrip(filename: string, rows: int, cols: int, pixels: seq<seq<byte>>)
    requires 0 < rows && 0 < cols && rows * cols < Pow31 && |pixels| < Pow31
    requires forall j :: 0 <= j < |pixels| ==> |pixels[j]| == rows * cols
    ensures ImageSizeFits(EncodeImages(rows, cols, pixels))
    ensures DecodeImages(filename, Some(EncodeImages(rows, cols, pixels))) ==
      Ok(seq(|pixels|, i requires 0 <= i < |pixels| => Scaled(pixels[i], 0, rows * cols)))
  {
    var f := EncodeImages(rows, cols, pixels);
    var images := seq(|pixels|, i requires 0 <= i < |pixels| => Scaled(pixels[i], 0, rows * cols));
    MulMono(1, rows, cols);
    HeaderRoundTrip(2051, |pixels|, rows, cols, Flatten(pixels));
    forall i | 0 <= i < |pixels|
      ensures Image(f, i, rows, cols) == images[i]
    {
      ImageOfBody(f, rows, cols, pixels, i);
    }
    DecodedImages(filename, f, |pixels|, rows, cols, images);
  }

  /** A label file: magic 2049, the count, then one byte per label. */
  function EncodeLabels(digits: seq<byte>): seq<byte>
    requires |digits| < Pow31
  {
    EncodeBE32(2049) + EncodeBE32(|digits|) + digits
  }

  /** A file whose header reads 2049 and n, followed by the bytes `digits`,
      decodes to their one-hot vectors. */
  lemma DecodedLabels(filename: string, f: seq<byte>, digits: seq<byte>)
    requires Field(f, 0) == 2049 && Field(f, 1) == |digits|
    requires |f| == 8 + |digits| && f[8..] == digits
    requires forall i :: 0 <= i < |digits| ==> digits[i] < 10
    ensures LabelsInRange(f)
    ensures DecodeLabels(filename, Some(f)) ==
      Ok(seq(|digits|, i requires 0 <= i < |digits| => OneHot(digits[i] as int)))
  {
    forall i | 0 <= i < |digits|
      ensures ByteAt(f, 8 + i) == digits[i]
    {
      assert f[8..][i] == digits[i];
    }
    assert seq(|digits|, i requires 0 <= i < |digits| => OneHot(ByteAt(f, 8 + i) as int)) ==
      seq(|digits|, i requires 0 <= i < |digits| => OneHot(digits[i] as int));
  }

  /** Decoding an encoded label file gives back the one-hot vector of every
      label. */
  lemma LabelsRoundTrip(filename: string, digits: seq<byte>)
    requires |digits| < Pow31 && forall i :: 0 <= i < |digits| ==> digits[i] < 10
    ensures LabelsInRange(EncodeLabels(digits))
    ensures DecodeLabels(filename, Some(EncodeLabels(digits))) ==
      Ok(seq(|digits|, i requires 0 <= i < |digits| => OneHot(digits[i] as int)))
  {
    var f := EncodeLabels(digits);
    var e0, e1 := EncodeBE32(2049), EncodeBE32(|digits|);
    assert f == [] + e0 + (e1 + digits);
    BE32RoundTrip(2049, e1 + digits, []);
    BE32RoundTrip(|digits|, digits, e0);
    assert f[8..] == digits;
    DecodedLabels(filename, f, digits);
  }
}
