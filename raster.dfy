/**
 * The parts of Go's `image` and `image/color` packages that the captcha core relies on:
 * 8-bit RGBA pixels, an RGBA canvas whose bounds start at the origin, the
 * normalising rectangle constructor and the bounds-checked pixel write.
 */
module Raster {

  /** A Go `uint8`. */
  type Byte = b: int | 0 <= b < 256

  /** Truncation of a Go integer to `uint8`: the low eight bits, also for negative values. */
  function ToByte(v: int): (r: Byte)
    ensures (r - v) % 256 == 0
  {
    v % 256
  }

  /** `color.RGBA`: alpha-premultiplied 8-bit channels. */
  datatype Rgba = Rgba(r: Byte, g: Byte, b: Byte, a: Byte)

  /** The zero `color.RGBA`, the content of a freshly allocated canvas. */
  const Transparent: Rgba := Rgba(0, 0, 0, 0)

  /**
   * An `*image.RGBA` whose bounds are `Rect(0, 0, Length0, Length1)`; the pixel at
   * column x and row y is `img[x, y]`.
   */
  type Canvas = array2<Rgba>

  datatype Point = Point(x: int, y: int)

  predicate InBounds(img: Canvas, x: int, y: int) {
    0 <= x < img.Length0 && 0 <= y < img.Length1
  }

  /** `image.Rectangle`: the half-open box [minX, maxX) x [minY, maxY). */
  datatype Rect = Rect(minX: int, minY: int, maxX: int, maxY: int) {
    function Dx(): int { maxX - minX }
    function Dy(): int { maxY - minY }
    /** `image.Point.In`: the rectangle holds the pixel (x, y). */
    predicate Contains(x: int, y: int) {
      minX <= x < maxX && minY <= y < maxY
    }
  }

  /** `image.Rect`: swaps the coordinates where needed so that the result is well-formed. */
  function MakeRect(x0: int, y0: int, x1: int, y1: int): (r: Rect)
    ensures r.minX <= r.maxX && r.minY <= r.maxY
    ensures {r.minX, r.maxX} == {x0, x1} && {r.minY, r.maxY} == {y0, y1}
  {
    Rect(if x0 <= x1 then x0 else x1, if y0 <= y1 then y0 else y1,
         if x0 <= x1 then x1 else x0, if y0 <= y1 then y1 else y0)
  }

  /** `(*image.RGBA).Set`: writes one pixel; a point outside the bounds is ignored. */
  method Set(img: Canvas, x: int, y: int, c: Rgba)
    modifies img
    ensures forall i, j | 0 <= i < img.Length0 && 0 <= j < img.Length1 ::
      img[i, j] == if i == x && j == y then c else old(img[i, j])
  {
    if InBounds(img, x, y) {
      img[x, y] := c;
    }
  }

  /** `image.NewRGBA(Rect(0, 0, w, h))`: a fresh, fully transparent canvas. */
  method NewCanvas(w: nat, h: nat) returns (dst: Canvas)
    ensures fresh(dst) && dst.Length0 == w && dst.Length1 == h
    ensures forall i, j | 0 <= i < w && 0 <= j < h :: dst[i, j] == Transparent
  {
    dst := new Rgba[w, h]((i, j) => Transparent);
  }

  /**
   * A fresh canvas with the bounds of `src`, filled by
   * `draw.Draw(dst, dst.Bounds(), src, image.Pt(0, 0), draw.Src)`: an exact copy.
   */
  method Clone(src: Canvas) returns (dst: Canvas)
    ensures fresh(dst) && dst.Length0 == src.Length0 && dst.Length1 == src.Length1
    ensures forall i, j | 0 <= i < src.Length0 && 0 <= j < src.Length1 :: dst[i, j] == src[i, j]
  {
    dst := NewCanvas(src.Length0, src.Length1);
    var y := 0;
    while y < src.Length1
      invariant 0 <= y <= src.Length1
      invariant forall i, j | 0 <= i < src.Length0 && 0 <= j < y :: dst[i, j] == src[i, j]
    {
      var x := 0;
      while x < src.Length0
        invariant 0 <= x <= src.Length0
        invariant forall i, j | 0 <= i < src.Length0 && 0 <= j < y :: dst[i, j] == src[i, j]
        invariant forall i | 0 <= i < x :: dst[i, y] == src[i, y]
      {
        dst[x, y] := src[x, y];
        x := x + 1;
      }
      y := y + 1;
    }
  }
}
