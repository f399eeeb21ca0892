/** The frame buffer: 4 * width * height bytes, pixel (x, y) at offset
    (y * width + x) * 4 holding red, green, blue and alpha, and the colour the
    renderer owes every pixel for a given snapshot. */
module Frame {
  import opened Views
  import opened Viewport
  import opened Escape
  import opened Colors
  import opened Arith

  /** An element of the canvas pixel buffer. */
  type byte = x: int | 0 <= x < 256

  const Opaque: byte := 255

  function PixelOffset(width: nat, x: nat, y: nat): nat {
    (y * width + x) * 4
  }

  /** Row-major order of pixels. */
  predicate Before(x1: nat, y1: nat, x2: nat, y2: nat) {
    y1 < y2 || (y1 == y2 && x1 < x2)
  }

  lemma {:induction false} RowStartsAfterEarlierRows(width: nat, x: nat, y1: nat, y2: nat)
    requires x < width && y1 < y2
    ensures y1 * width + x < y2 * width
  {
    MulLe(y1 + 1, y2, width);
    assert (y1 + 1) * width == y1 * width + width;
  }

  /** Offsets follow row-major order: an earlier pixel's four bytes all lie
      below a later pixel's offset. */
  lemma {:induction false} PixelOffsetsOrdered(width: nat, x1: nat, y1: nat, x2: nat, y2: nat)
    requires x1 < width && x2 < width && Before(x1, y1, x2, y2)
    ensures PixelOffset(width, x1, y1) + 4 <= PixelOffset(width, x2, y2)
  {
    if y1 < y2 {
      RowStartsAfterEarlierRows(width, x1, y1, y2);
    }
  }

  /** Every byte of every pixel lies inside the 4 * width * height buffer. */
  lemma {:induction false} PixelOffsetInBounds(width: nat, height: nat, x: nat, y: nat)
    requires x < width && y < height
    ensures PixelOffset(width, x, y) + 3 < 4 * width * height
  {
    RowStartsAfterEarlierRows(width, x, y, height);
    assert 4 * width * height == 4 * (height * width);
  }

  /** Distinct pixels own disjoint blocks of four bytes. */
  lemma PixelBlocksDisjoint(width: nat, x1: nat, y1: nat, x2: nat, y2: nat)
    requires x1 < width && x2 < width && (x1 != x2 || y1 != y2)
    ensures PixelOffset(width, x1, y1) + 4 <= PixelOffset(width, x2, y2)
         || PixelOffset(width, x2, y2) + 4 <= PixelOffset(width, x1, y1)
  {
    if Before(x1, y1, x2, y2) {
      PixelOffsetsOrdered(width, x1, y1, x2, y2);
    } else {
      PixelOffsetsOrdered(width, x2, y2, x1, y1);
    }
  }

  /** Every byte of the buffer belongs to some pixel. */
  lemma {:induction false} ByteBelongsToPixel(width: nat, height: nat, i: nat)
    requires i < 4 * width * height
    ensures width > 0
    ensures var x, y := (i / 4) % width, (i / 4) / width;
      x < width && y < height && PixelOffset(width, x, y) <= i < PixelOffset(width, x, y) + 4
  {
    var n := i / 4;
    assert 4 * width * height == 4 * (width * height);
    assert n < width * height;
    assert width > 0;
    var x, y := n % width, n / width;
    assert n == y * width + x;
    assert width * height == height * width;
    MulLtCancel(y, height, width);
  }

  /** The colour the renderer owes pixel (x, y) for snapshot p. */
  function ExpectedColor(p: ViewParams, width: nat, height: nat, x: nat, y: nat): (c: Rgb)
    requires p.zoom > 0.0 && x < width && y < height
    ensures InByteRange(c)
  {
    var c := PixelToWorld(p, width, height, x as real, y as real);
    var iter := EscapeCount(c, p.maxIter);
    EscapeCountIsFirstEscape(c, p.maxIter);
    PixelColor(GradientName(p), iter, p.maxIter)
  }

  /** The colours of a whole canvas, pixel by pixel. */
  type Image = (nat, nat) -> Rgb

  /** The image the renderer owes snapshot p on a width x height canvas
      (black, never looked at, outside the canvas). */
  function Expected(p: ViewParams, width: nat, height: nat): Image {
    (x: nat, y: nat) => if p.zoom > 0.0 && x < width && y < height then ExpectedColor(p, width, height, x, y) else Black
  }

  /** The body of the pixel loop before the writes: map the pixel to the
      plane, run the escape loop, and pick black or the gradient colour. */
  method ShadePixel(p: ViewParams, width: nat, height: nat, x: nat, y: nat) returns (c: Rgb)
    requires p.zoom > 0.0 && x < width && y < height
    ensures c == Expected(p, width, height)(x, y)
    ensures InByteRange(c)
  {
    var point := PixelToWorld(p, width, height, x as real, y as real);
    var iter := EscapeTime(point, p.maxIter);
    c := PixelColor(GradientName(p), iter, p.maxIter);
    assert c == ExpectedColor(p, width, height, x, y);
  }

  /** Pixel (x, y) of buf holds colour c at full opacity. */
  ghost predicate PixelHolds(buf: seq<byte>, width: nat, x: nat, y: nat, c: Rgb) {
    var o := PixelOffset(width, x, y);
    o + 3 < |buf| && buf[o] == c.r && buf[o + 1] == c.g && buf[o + 2] == c.b && buf[o + 3] == Opaque
  }

  /** Every pixel before (x, y) in row-major order holds its colour in img. */
  ghost predicate RenderedUpTo(buf: seq<byte>, img: Image, width: nat, height: nat, x: nat, y: nat) {
    && |buf| == 4 * width * height
    && forall py: nat, px: nat | py < height && px < width && Before(px, py, x, y) ::
         PixelHolds(buf, width, px, py, img(px, py))
  }

  /** buf holds the whole of img. */
  ghost predicate CompleteFrame(buf: seq<byte>, img: Image, width: nat, height: nat) {
    RenderedUpTo(buf, img, width, height, 0, height)
  }

  /** A canvas bitmap just cleared by setting its width or height: every
      byte 0, that is transparent black. */
  function Blank(width: nat, height: nat): seq<byte> {
    seq(4 * width * height, _ => 0)
  }

  /** A cleared canvas of any non-empty size holds no rendered frame: the
      renderer writes alpha 255 where the cleared bitmap has alpha 0. */
  lemma {:induction false} BlankIsNoFrame(img: Image, width: nat, height: nat)
    requires width > 0 && height > 0
    ensures !CompleteFrame(Blank(width, height), img, width, height)
  {
    PixelOffsetInBounds(width, height, 0, 0);
    assert Before(0, 0, 0, height);
    assert !PixelHolds(Blank(width, height), width, 0, 0, img(0, 0));
  }

  /** The four writes of one pixel. */
  function WritePixel(buf: seq<byte>, width: nat, x: nat, y: nat, c: Rgb): (r: seq<byte>)
    requires InByteRange(c) && PixelOffset(width, x, y) + 3 < |buf|
    ensures |r| == |buf|
    ensures PixelHolds(r, width, x, y, c)
    ensures var o := PixelOffset(width, x, y); forall i | 0 <= i < |buf| && !(o <= i < o + 4) :: r[i] == buf[i]
  {
    var o := PixelOffset(width, x, y);
    buf[o := c.r][o + 1 := c.g][o + 2 := c.b][o + 3 := Opaque]
  }

  /** The four byte writes of one pixel into the canvas buffer. */
  method StorePixel(data: array<byte>, width: nat, height: nat, x: nat, y: nat, c: Rgb)
    requires data.Length == 4 * width * height && x < width && y < height && InByteRange(c)
    modifies data
    ensures PixelOffset(width, x, y) + 3 < data.Length
    ensures data[..] == WritePixel(old(data[..]), width, x, y, c)
  {
    PixelOffsetInBounds(width, height, x, y);
    var pixel := PixelOffset(width, x, y);
    data[pixel] := c.r;
    data[pixel + 1] := c.g;
    data[pixel + 2] := c.b;
    data[pixel + 3] := Opaque;
    assert data[..] == old(data[..])[pixel := c.r][pixel + 1 := c.g][pixel + 2 := c.b][pixel + 3 := Opaque];
  }

  /** Writing one pixel leaves every other pixel as it was. */
  lemma {:induction false} WriteKeepsOtherPixel(buf: seq<byte>, width: nat, x: nat, y: nat, c: Rgb,
                                                px: nat, py: nat, d: Rgb)
    requires InByteRange(c) && PixelOffset(width, x, y) + 3 < |buf|
    requires PixelOffset(width, x, y) + 4 <= PixelOffset(width, px, py)
          || PixelOffset(width, px, py) + 4 <= PixelOffset(width, x, y)
    requires PixelHolds(buf, width, px, py, d)
    ensures PixelHolds(WritePixel(buf, width, x, y, c), width, px, py, d)
  {
    var o := PixelOffset(width, px, py);
    var r := WritePixel(buf, width, x, y, c);
    assert r[o] == buf[o] && r[o + 1] == buf[o + 1] && r[o + 2] == buf[o + 2] && r[o + 3] == buf[o + 3];
  }

  /** Writing the colour of the next pixel extends the rendered prefix by one. */
  lemma {:induction false} WritePixelExtends(buf: seq<byte>, img: Image, width: nat, height: nat, x: nat, y: nat)
    requires x < width && y < height && InByteRange(img(x, y))
    requires RenderedUpTo(buf, img, width, height, x, y)
    ensures PixelOffset(width, x, y) + 3 < |buf|
    ensures RenderedUpTo(WritePixel(buf, width, x, y, img(x, y)), img, width, height, x + 1, y)
  {
    PixelOffsetInBounds(width, height, x, y);
    var c := img(x, y);
    var r := WritePixel(buf, width, x, y, c);
    forall py: nat, px: nat | py < height && px < width && Before(px, py, x + 1, y)
      ensures PixelHolds(r, width, px, py, img(px, py))
    {
      if px != x || py != y {
        PixelBlocksDisjoint(width, px, py, x, y);
        WriteKeepsOtherPixel(buf, width, x, y, c, px, py, img(px, py));
      }
    }
  }

  /** Once a row is done, the rendered prefix reaches the start of the next row. */
  lemma RowDone(buf: seq<byte>, img: Image, width: nat, height: nat, y: nat)
    requires RenderedUpTo(buf, img, width, height, width, y)
    ensures RenderedUpTo(buf, img, width, height, 0, y + 1)
  {
  }

  /** A complete frame is determined by its image and size: two renders of
      the same parameters on the same canvas produce the same buffer. */
  lemma {:induction false} CompleteFrameUnique(b1: seq<byte>, b2: seq<byte>, img: Image, width: nat, height: nat)
    requires CompleteFrame(b1, img, width, height) && CompleteFrame(b2, img, width, height)
    ensures b1 == b2
  {
    forall i | 0 <= i < |b1|
      ensures b1[i] == b2[i]
    {
      ByteBelongsToPixel(width, height, i);
      var x, y := (i / 4) % width, (i / 4) / width;
      assert Before(x, y, 0, height);
      assert PixelHolds(b1, width, x, y, img(x, y));
      assert PixelHolds(b2, width, x, y, img(x, y));
      var o := PixelOffset(width, x, y);
      assert i == o || i == o + 1 || i == o + 2 || i == o + 3;
    }
  }

  /** The default view on a 100 x 100 canvas: the centre pixel samples -0.5 + 0i,
      which never escapes, so it is drawn black. */
  lemma DefaultCentreIsBlack()
    ensures PixelToWorld(Snapshot(InitialParams), 100, 100, 50.0, 50.0) == Complex(-0.5, 0.0)
    ensures EscapeCount(Complex(-0.5, 0.0), InitialParams.maxIter) == InitialParams.maxIter
    ensures Expected(Snapshot(InitialParams), 100, 100)(50, 50) == Black
  {
    MinusHalfIsInterior(InitialParams.maxIter);
  }
}
