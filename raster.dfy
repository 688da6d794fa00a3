/** RGBA rasters as the imaging library sees them: a grid of rows, a crop by a
    (left, upper, right, lower) box, and the raw byte strings exchanged with the
    native renderer. */
module Raster {

  newtype byte = x: int | 0 <= x < 256

  datatype Pixel = RGBA(r: byte, g: byte, b: byte, a: byte)

  /** The value the imaging library fills in for any part of a crop box outside the image. */
  const Transparent := RGBA(0, 0, 0, 0)

  /** A raster as a sequence of rows, top row first; pixel (x, y) is g[y][x]. */
  type Grid = seq<seq<Pixel>>

  /** g is exactly `width` pixels wide and `height` pixels high. */
  predicate IsGrid(g: Grid, width: int, height: int) {
    |g| == height && forall y :: 0 <= y < |g| ==> |g[y]| == width
  }

  /** Pixel (x, y) of g, or Transparent outside it. */
  function PixelAt(g: Grid, x: int, y: int): Pixel
  {
    if 0 <= y < |g| && 0 <= x < |g[y]| then g[y][x] else Transparent
  }

  /** The box (left, upper, right, lower) lies inside a width x height raster. */
  predicate BoxInside(left: int, upper: int, right: int, lower: int, width: int, height: int) {
    0 <= left <= right <= width && 0 <= upper <= lower <= height
  }

  /** Image.crop((left, upper, right, lower)): the right and lower edges are
      exclusive, and the part of the box outside g reads as Transparent. The
      imaging library turns an inverted box into an empty image; that case is
      excluded here because the only box the providers crop by, (1, 1, width + 1,
      height + 1) with non-negative sizes, is never inverted. */
  function Crop(g: Grid, left: int, upper: int, right: int, lower: int): (c: Grid)
    requires left <= right && upper <= lower
    ensures IsGrid(c, right - left, lower - upper)
    ensures forall y, x :: 0 <= y < lower - upper && 0 <= x < right - left ==>
              c[y][x] == PixelAt(g, left + x, upper + y)
  {
    seq(lower - upper, y => seq(right - left, x => PixelAt(g, left + x, upper + y)))
  }

  /** A crop whose box lies inside g copies g's pixels, shifted by (left, upper),
      and never pads. */
  lemma CropInside(g: Grid, width: nat, height: nat, left: int, upper: int, right: int, lower: int)
    requires IsGrid(g, width, height)
    requires BoxInside(left, upper, right, lower, width, height)
    ensures forall y, x :: 0 <= y < lower - upper && 0 <= x < right - left ==>
              Crop(g, left, upper, right, lower)[y][x] == g[upper + y][left + x]
  {
  }

  /** The raw RGBA byte string of a pixel buffer (the native image's tostring()):
      four bytes per pixel, in order. */
  function Encode(px: seq<Pixel>): (data: seq<byte>)
    ensures |data| == 4 * |px|
    ensures |px| > 0 ==> data[..4] == [px[0].r, px[0].g, px[0].b, px[0].a]
  {
    if px == [] then []
    else [px[0].r, px[0].g, px[0].b, px[0].a] + Encode(px[1..])
  }

  /** The pixels of a raw RGBA byte string, four bytes each; a trailing partial
      pixel is ignored. */
  function Decode(data: seq<byte>): (px: seq<Pixel>)
    ensures |px| == |data| / 4
    ensures |data| >= 4 ==> px[0] == RGBA(data[0], data[1], data[2], data[3])
    decreases |data|
  {
    if |data| < 4 then []
    else [RGBA(data[0], data[1], data[2], data[3])] + Decode(data[4..])
  }

  lemma {:induction false} DecodeEncode(px: seq<Pixel>)
    ensures Decode(Encode(px)) == px
  {
    if px != [] {
      var head := [px[0].r, px[0].g, px[0].b, px[0].a];
      assert Encode(px) == head + Encode(px[1..]);
      assert (head + Encode(px[1..]))[4..] == Encode(px[1..]);
      DecodeEncode(px[1..]);
    }
  }

  /** Cut a row-major pixel buffer into `height` rows of `width` pixels. */
  function Rows(width: nat, height: nat, px: seq<Pixel>): (g: Grid)
    requires |px| >= width * height
    ensures IsGrid(g, width, height)
    decreases height
  {
    if height == 0 then []
    else
      assert |px[width..]| >= width * (height - 1) by {
        assert width * height == width * (height - 1) + width;
      }
      [px[..width]] + Rows(width, height - 1, px[width..])
  }

  lemma RowMajorBound(width: nat, height: nat, x: nat, y: nat)
    requires x < width && y < height
    ensures y * width + x < width * height
  {
    assert y * width + x < y * width + width == (y + 1) * width;
    assert (y + 1) * width <= height * width;
  }

  /** The arithmetic of moving down one row. */
  lemma RowStep(width: nat, height: nat, x: nat, y: nat)
    requires y > 0 && height > 0
    ensures width * height == width * (height - 1) + width
    ensures (y - 1) * width + x + width == y * width + x
  {
    assert width * height == width * (height - 1) + width * 1;
    assert y * width == (y - 1) * width + 1 * width;
  }

  lemma {:induction false} RowsAt(width: nat, height: nat, px: seq<Pixel>, x: nat, y: nat)
    requires |px| >= width * height
    requires x < width && y < height
    ensures y * width + x < |px|
    ensures Rows(width, height, px)[y][x] == px[y * width + x]
    decreases height
  {
    RowMajorBound(width, height, x, y);
    if y > 0 {
      RowStep(width, height, x, y);
      RowsAt(width, height - 1, px[width..], x, y - 1);
    }
  }

  /** Image.fromstring('RGBA', (width, height), data): the first width*height
      pixels of the byte string, laid out row by row. */
  function FromString(width: nat, height: nat, data: seq<byte>): (g: Grid)
    requires |data| >= 4 * (width * height)
    ensures IsGrid(g, width, height)
  {
    Rows(width, height, Decode(data))
  }

  /** The index of pixel (x, y) in a row-major buffer of a width x height raster. */
  function RowMajor(width: nat, height: nat, x: nat, y: nat): (i: nat)
    requires x < width && y < height
    ensures i < width * height
  {
    RowMajorBound(width, height, x, y);
    y * width + x
  }

  lemma RowsAll(width: nat, height: nat, px: seq<Pixel>)
    requires |px| >= width * height
    ensures forall y: nat, x: nat :: y < height && x < width ==>
              Rows(width, height, px)[y][x] == px[RowMajor(width, height, x, y)]
  {
    forall y: nat, x: nat | y < height && x < width
      ensures Rows(width, height, px)[y][x] == px[RowMajor(width, height, x, y)]
    {
      RowsAt(width, height, px, x, y);
    }
  }

  /** A pixel buffer written out as bytes and read back by FromString gives the
      buffer's pixels, row-major. */
  lemma FromStringEncode(width: nat, height: nat, px: seq<Pixel>)
    requires |px| == width * height
    ensures |Encode(px)| == 4 * (width * height)
    ensures forall y: nat, x: nat :: y < height && x < width ==>
              FromString(width, height, Encode(px))[y][x] == px[RowMajor(width, height, x, y)]
  {
    DecodeEncode(px);
    RowsAll(width, height, px);
  }
}
