/** The drawing primitives of main.c over a 32-bit-per-pixel surface: set_pixel
    writes the four bytes of one pixel at x*4 + y*pitch, vline a run of pixels down
    one column. */
module Raster {

  newtype byte = v: int | 0 <= v < 256

  /** An int stored into a uint8_t: reduced modulo 256. */
  function ToByte(v: int): (r: byte)
    ensures 0 <= v < 256 ==> r as int == v
    ensures (v - r as int) % 256 == 0
  {
    (v % 256) as byte
  }

  /** Where pixel (x, y) starts in the byte buffer. */
  function ByteOffset(x: int, y: int, pitch: int): int
  {
    x * 4 + y * pitch
  }

  /** Byte i belongs to pixel (x, y). */
  ghost predicate InPixel(i: int, x: int, y: int, pitch: int)
  {
    ByteOffset(x, y, pitch) <= i < ByteOffset(x, y, pitch) + 4
  }

  /** Byte i belongs to one of the pixels (x, y) with y0 <= y < y1. */
  ghost predicate InSpan(i: int, x: int, y0: int, y1: int, pitch: int)
  {
    exists y :: y0 <= y < y1 && InPixel(i, x, y, pitch)
  }

  /** Pixels of one column on different rows share no byte when a row is at least a
      pixel wide. */
  lemma RowsApart(x: int, y: int, y': int, pitch: int)
    requires pitch >= 4 && y < y'
    ensures ByteOffset(x, y, pitch) + 4 <= ByteOffset(x, y', pitch)
  {
    assert ByteOffset(x, y', pitch) - ByteOffset(x, y, pitch) == (y' - y) * pitch;
    MulAtLeast(y' - y, pitch);
  }

  lemma MulAtLeast(k: int, pitch: int)
    requires k >= 1 && pitch >= 0
    ensures k * pitch >= pitch
  {
    assert k * pitch == (k - 1) * pitch + pitch;
    MulNonneg(k - 1, pitch);
  }

  lemma MulNonneg(a: int, b: int)
    requires a >= 0 && b >= 0
    ensures a * b >= 0
  {
  }

  /** The drawing surface: a byte buffer of rows pitch bytes apart. */
  class Canvas {
    const pixels: array<byte>
    const pitch: int

    ghost predicate Valid()
    {
      pitch >= 4
    }

    /** A width x height surface with four bytes a pixel and no padding, as
        SDL_CreateRGBSurfaceWithFormat lays out 32-bit pixels. */
    constructor(width: int, height: int)
      requires width >= 1 && height >= 0
      ensures Valid() && pitch == width * 4 && pixels.Length == height * pitch && fresh(pixels)
    {
      pitch := width * 4;
      MulNonneg(height, width * 4);
      pixels := new byte[height * (width * 4)];
    }

    /** All four bytes of pixel (x, y) are inside the buffer. */
    predicate PixelInBuffer(x: int, y: int)
    {
      0 <= ByteOffset(x, y, pitch) && ByteOffset(x, y, pitch) + 4 <= pixels.Length
    }

    /** Every pixel of column x from row y0 up to but not including y1 is inside the
        buffer; checking the first and the last row suffices. */
    predicate SpanInBuffer(x: int, y0: int, y1: int)
      requires Valid()
      ensures SpanInBuffer(x, y0, y1) <==> forall y :: y0 <= y < y1 ==> PixelInBuffer(x, y)
    {
      if y1 <= y0 then true
      else
        var ok := PixelInBuffer(x, y0) && PixelInBuffer(x, y1 - 1);
        if ok then
          assert forall y :: y0 <= y < y1 ==> PixelInBuffer(x, y) by {
            forall y | y0 <= y < y1
              ensures PixelInBuffer(x, y)
            {
              if y0 < y { RowsApart(x, y0, y, pitch); }
              if y < y1 - 1 { RowsApart(x, y, y1 - 1, pitch); }
            }
          }
          ok
        else ok
    }

    /** Pixel (x, y) holds red r, green g, blue b and an opaque alpha. */
    ghost predicate PixelIs(x: int, y: int, r: byte, g: byte, b: byte)
      requires PixelInBuffer(x, y)
      reads pixels
    {
      var o := ByteOffset(x, y, pitch);
      pixels[o] == r && pixels[o + 1] == g && pixels[o + 2] == b && pixels[o + 3] == 255
    }

    /** set_pixel: the four bytes of pixel (x, y) become r, g, b and 255, each reduced
        to a byte; no other byte changes. */
    method SetPixel(x: int, y: int, r: int, g: int, b: int)
      requires PixelInBuffer(x, y)
      modifies pixels
      ensures PixelIs(x, y, ToByte(r), ToByte(g), ToByte(b))
      ensures forall i :: 0 <= i < pixels.Length && !InPixel(i, x, y, pitch) ==> pixels[i] == old(pixels[i])
    {
      var o := x * 4 + y * pitch;
      pixels[o + 0] := ToByte(r);
      pixels[o + 1] := ToByte(g);
      pixels[o + 2] := ToByte(b);
      pixels[o + 3] := 255;
    }

    /** vline: every pixel (x, y) with y0 <= y < y1 is set to the colour; no byte
        outside those pixels changes, so nothing changes when y1 <= y0. */
    method VLine(x: int, y0: int, y1: int, r: int, g: int, b: int)
      requires Valid() && SpanInBuffer(x, y0, y1)
      modifies pixels
      ensures forall y :: y0 <= y < y1 ==> PixelIs(x, y, ToByte(r), ToByte(g), ToByte(b))
      ensures forall i :: 0 <= i < pixels.Length && !InSpan(i, x, y0, y1, pitch) ==> pixels[i] == old(pixels[i])
      ensures y1 <= y0 ==> pixels[..] == old(pixels[..])
    {
      var y := y0;
      while y < y1
        invariant y == y0 || y0 < y <= y1
        invariant forall y' :: y0 <= y' < y ==> PixelIs(x, y', ToByte(r), ToByte(g), ToByte(b))
        invariant forall i :: 0 <= i < pixels.Length && !InSpan(i, x, y0, y, pitch) ==> pixels[i] == old(pixels[i])
      {
        label BeforeSet:
        SetPixel(x, y, r, g, b);
        forall y' | y0 <= y' < y
          ensures PixelIs(x, y', ToByte(r), ToByte(g), ToByte(b))
        {
          RowsApart(x, y', y, pitch);
          var o := ByteOffset(x, y', pitch);
          assert !InPixel(o, x, y, pitch) && !InPixel(o + 1, x, y, pitch);
          assert !InPixel(o + 2, x, y, pitch) && !InPixel(o + 3, x, y, pitch);
          assert old@BeforeSet(PixelIs(x, y', ToByte(r), ToByte(g), ToByte(b)));
        }
        forall i | 0 <= i < pixels.Length && !InSpan(i, x, y0, y + 1, pitch)
          ensures pixels[i] == old(pixels[i])
        {
          assert !InPixel(i, x, y, pitch);
          assert !InSpan(i, x, y0, y, pitch);
        }
        y := y + 1;
      }
    }

    /** A byte of a pixel set to white is 255. */
    lemma WhiteByte(x: int, y: int, i: int)
      requires PixelInBuffer(x, y) && PixelIs(x, y, 255, 255, 255) && InPixel(i, x, y, pitch)
      ensures pixels[i] == 255
    {
      var o := ByteOffset(x, y, pitch);
      assert i == o || i == o + 1 || i == o + 2 || i == o + 3;
    }
  }
}
