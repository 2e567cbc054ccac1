/**
 * utils.go: the random code string, the opaque bounding box of a canvas, the
 * jittered line colour, linear interpolation and the small integer helpers.
 */
module Utils {
  import opened Raster

  /** `abs` on a Go `int`; the result for the most negative 64-bit value is not modelled. */
  function Abs(x: int): (r: int)
    ensures r >= 0
    ensures r == x || r == -x
  {
    if x < 0 then -x else x
  }

  /** `clamp(v, min, max)` on `uint8`. */
  function Clamp(v: Byte, lo: Byte, hi: Byte): (r: Byte)
    ensures lo <= hi ==> lo <= r <= hi
    ensures lo <= v <= hi ==> r == v
    ensures r == v || r == lo || r == hi
    ensures v < lo ==> r == lo
    ensures lo <= v && hi < v ==> r == hi
  {
    if v < lo then lo else if v > hi then hi else v
  }

  lemma ClampIdempotent(v: Byte, lo: Byte, hi: Byte)
    requires lo <= hi
    ensures Clamp(Clamp(v, lo, hi), lo, hi) == Clamp(v, lo, hi)
  {
  }

  /** One `rand.IntN(n)` result: a value in [0, n). */
  predicate IsDraw(d: int, n: int) {
    0 <= d < n
  }

  /** The three `rand.IntN(50)` draws that jitter the red, green and blue channels. */
  datatype Jitter = Jitter(r: int, g: int, b: int) {
    predicate Valid() {
      IsDraw(r, 50) && IsDraw(g, 50) && IsDraw(b, 50)
    }
  }

  /**
   * One channel of `randomNearColor`: `clamp(uint8(c) + uint8(draw - 25), 0, 255)`,
   * where both the conversion of the negative offset and the `uint8` addition wrap.
   */
  function NearChannel(c: Byte, draw: int): (r: Byte)
    requires IsDraw(draw, 50)
    ensures r == (c + (draw - 25)) % 256
  {
    Clamp(ToByte(c + ToByte(draw - 25)), 0, 255)
  }

  /** `randomNearColor(base)` with its three draws supplied. */
  function RandomNearColor(base: Rgba, j: Jitter): (r: Rgba)
    requires j.Valid()
    ensures r.a == base.a
    ensures r.r == (base.r + (j.r - 25)) % 256
    ensures r.g == (base.g + (j.g - 25)) % 256
    ensures r.b == (base.b + (j.b - 25)) % 256
  {
    Rgba(NearChannel(base.r, j.r), NearChannel(base.g, j.g), NearChannel(base.b, j.b), base.a)
  }

  /**
   * The clamp cannot undo the wrap-around: jittering opaque black downwards on every
   * channel gives a light grey.
   */
  lemma NearBlackWrapsToLight()
    ensures RandomNearColor(Rgba(0, 0, 0, 255), Jitter(0, 0, 0)) == Rgba(231, 231, 231, 255)
  {
  }

  /** `lerp(a, b, t)`, in exact arithmetic: `a` at t = 0 and `b` at t = 1. */
  function Lerp(a: real, b: real, t: real): (r: real)
    ensures t == 0.0 ==> r == a
    ensures t == 1.0 ==> r == b
  {
    a + (b - a) * t
  }

  /** For t in [0, 1] the interpolant lies between its two ends. */
  lemma LerpBetween(a: real, b: real, t: real)
    requires 0.0 <= t <= 1.0
    ensures a <= b ==> a <= Lerp(a, b, t) <= b
    ensures b <= a ==> b <= Lerp(a, b, t) <= a
  {
    var d := b - a;
    if a <= b {
      NonNegativeProduct(d, t);
      NonNegativeProduct(d, 1.0 - t);
    } else {
      NonNegativeProduct(-d, t);
      NonNegativeProduct(-d, 1.0 - t);
    }
  }

  lemma NonNegativeProduct(x: real, y: real)
    requires 0.0 <= x && 0.0 <= y
    ensures 0.0 <= x * y
  {
  }

  /** Go's conversion of a float to `int`: truncation toward zero. */
  function Trunc(v: real): (r: int)
    ensures 0.0 <= v ==> r as real <= v < r as real + 1.0
    ensures v < 0.0 ==> r as real - 1.0 < v <= r as real
  {
    if 0.0 <= v then v.Floor else -((-v).Floor)
  }

  /**
   * `randomString(length, set)`: a byte string of exactly `length` bytes, byte i being
   * `charSet[draws[i]]`; the set is indexed by byte, not by character.
   */
  method RandomString(length: int, charSet: seq<Byte>, draws: seq<int>) returns (s: seq<Byte>)
    requires |draws| == length
    requires forall i | 0 <= i < |draws| :: 0 <= draws[i] < |charSet|
    ensures |s| == length
    ensures forall i | 0 <= i < |s| :: s[i] == charSet[draws[i]]
    ensures forall i | 0 <= i < |s| :: s[i] in charSet
  {
    var b := new Byte[length](_ => 0);
    for i := 0 to length
      invariant forall k | 0 <= k < i :: b[k] == charSet[draws[k]]
    {
      b[i] := charSet[draws[i]];
    }
    s := b[..];
  }

  /** A pixel inside the canvas with non-zero alpha. */
  predicate IsOpaque(src: Canvas, x: int, y: int)
    reads src
  {
    InBounds(src, x, y) && src[x, y].a > 0
  }

  ghost predicate AnyOpaque(src: Canvas)
    reads src
  {
    exists x, y :: IsOpaque(src, x, y)
  }

  /**
   * `pixelBounds(src)`. With an opaque pixel, the result runs from the smallest to the
   * largest opaque column and row, both ends being opaque coordinates themselves. The
   * rectangle is half-open, so the last opaque column and row fall outside it. Without an
   * opaque pixel, `image.Rect` swaps the initial extremes into the whole canvas.
   */
  method PixelBounds(src: Canvas) returns (r: Rect)
    ensures !AnyOpaque(src) ==> r == Rect(0, 0, src.Length0, src.Length1)
    ensures forall x, y | IsOpaque(src, x, y) :: r.minX <= x <= r.maxX && r.minY <= y <= r.maxY
    ensures AnyOpaque(src) ==>
      && (exists x, y | IsOpaque(src, x, y) :: x == r.minX)
      && (exists x, y | IsOpaque(src, x, y) :: x == r.maxX)
      && (exists x, y | IsOpaque(src, x, y) :: y == r.minY)
      && (exists x, y | IsOpaque(src, x, y) :: y == r.maxY)
    ensures AnyOpaque(src) ==> exists x, y | IsOpaque(src, x, y) :: !r.Contains(x, y)
  {
    var w, h := src.Length0, src.Length1;
    var minX, minY := w, h;
    var maxX, maxY := 0, 0;
    ghost var found := false;
    ghost var atMinX, atMaxX, atMinY, atMaxY := Point(0, 0), Point(0, 0), Point(0, 0), Point(0, 0);
    for y := 0 to h
      invariant forall i, j | IsOpaque(src, i, j) && j < y :: minX <= i <= maxX && minY <= j <= maxY
      invariant !found ==> minX == w && minY == h && maxX == 0 && maxY == 0
      invariant !found ==> forall i, j | IsOpaque(src, i, j) :: j >= y
      invariant found ==> && IsOpaque(src, atMinX.x, atMinX.y) && atMinX.x == minX && atMinX.y < y
                          && IsOpaque(src, atMaxX.x, atMaxX.y) && atMaxX.x == maxX && atMaxX.y < y
                          && IsOpaque(src, atMinY.x, atMinY.y) && atMinY.y == minY
                          && IsOpaque(src, atMaxY.x, atMaxY.y) && atMaxY.y == maxY
    {
      for x := 0 to w
        invariant forall i, j | IsOpaque(src, i, j) && (j < y || (j == y && i < x)) ::
          minX <= i <= maxX && minY <= j <= maxY
        invariant !found ==> minX == w && minY == h && maxX == 0 && maxY == 0
        invariant !found ==> forall i, j | IsOpaque(src, i, j) :: j > y || (j == y && i >= x)
        invariant found ==> && IsOpaque(src, atMinX.x, atMinX.y) && atMinX.x == minX && atMinX.y <= y
                            && IsOpaque(src, atMaxX.x, atMaxX.y) && atMaxX.x == maxX && atMaxX.y <= y
                            && IsOpaque(src, atMinY.x, atMinY.y) && atMinY.y == minY
                            && IsOpaque(src, atMaxY.x, atMaxY.y) && atMaxY.y == maxY
      {
        if src[x, y].a > 0 {
          if !found {
            atMinX, atMaxX, atMinY, atMaxY := Point(x, y), Point(x, y), Point(x, y), Point(x, y);
          }
          found := true;
          if x < minX {
            minX := x;
            atMinX := Point(x, y);
          }
          if x > maxX {
            maxX := x;
            atMaxX := Point(x, y);
          }
          if y < minY {
            minY := y;
            atMinY := Point(x, y);
          }
          if y > maxY {
            maxY := y;
            atMaxY := Point(x, y);
          }
        }
      }
    }
    r := MakeRect(minX, minY, maxX, maxY);
    if found {
      assert IsOpaque(src, atMaxX.x, atMaxX.y) && !r.Contains(atMaxX.x, atMaxX.y);
    }
  }

  /**
   * The evidently intended tight box: every opaque pixel lies inside the half-open
   * rectangle, whose first and last columns and rows each hold an opaque pixel. The
   * fallback for a transparent canvas is kept.
   */
  method OpaqueBounds(src: Canvas) returns (r: Rect)
    ensures !AnyOpaque(src) ==> r == Rect(0, 0, src.Length0, src.Length1)
    ensures forall x, y | IsOpaque(src, x, y) :: r.Contains(x, y)
    ensures AnyOpaque(src) ==>
      && (exists x, y | IsOpaque(src, x, y) :: x == r.minX)
      && (exists x, y | IsOpaque(src, x, y) :: x == r.maxX - 1)
      && (exists x, y | IsOpaque(src, x, y) :: y == r.minY)
      && (exists x, y | IsOpaque(src, x, y) :: y == r.maxY - 1)
  {
    var b := PixelBounds(src);
    if b == Rect(0, 0, src.Length0, src.Length1) {
      r := b;
    } else {
      r := Rect(b.minX, b.minY, b.maxX + 1, b.maxY + 1);
    }
  }

  /** A 3 x 3 canvas whose only opaque pixel is its centre: the box has no area at all. */
  method SingleOpaquePixelExample() returns (r: Rect)
    ensures r == Rect(1, 1, 1, 1) && r.Dx() == 0 && !r.Contains(1, 1)
  {
    var img := new Rgba[3, 3]((i, j) => if i == 1 && j == 1 then Rgba(0, 0, 0, 255) else Transparent);
    assert IsOpaque(img, 1, 1);
    assert forall x, y | IsOpaque(img, x, y) :: x == 1 && y == 1;
    r := PixelBounds(img);
  }
}
