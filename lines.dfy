/**
 * The pixel paths of the two line artifacts in captcha.go: the all-octant Bresenham
 * walk of `drawStraightLine` and the 120 samples of `drawCurveLine`. The methods that
 * stamp these paths onto a canvas are in module Captcha.
 */
module Lines {
  import opened Raster
  import opened Utils

  function Max(a: int, b: int): int {
    if a < b then b else a
  }

  /** `v` lies between `u` and `w`, whichever order they come in. */
  predicate Between(u: int, v: int, w: int) {
    if u <= w then u <= v <= w else w <= v <= u
  }

  /** The two end points of a straight line and the quantities derived from them. */
  datatype Segment = Segment(x1: int, y1: int, x2: int, y2: int) {
    function Dx(): int { Abs(x2 - x1) }
    function Dy(): int { Abs(y2 - y1) }
    function Sx(): int { if x1 < x2 then 1 else -1 }
    function Sy(): int { if y1 < y2 then 1 else -1 }
  }

  /** The loop variables of the walk: the current pixel and the error term. */
  datatype Pen = Pen(x: int, y: int, err: int)

  function Start(l: Segment): Pen {
    Pen(l.x1, l.y1, l.Dx() - l.Dy())
  }

  predicate AtEnd(l: Segment, p: Pen) {
    p.x == l.x2 && p.y == l.y2
  }

  /** `dy*a - dx*b`, where `a` and `b` are the distances still to go along x and y. */
  function Offset(l: Segment, p: Pen): int {
    l.Dy() * Abs(l.x2 - p.x) - l.Dx() * Abs(l.y2 - p.y)
  }

  /**
   * What holds at the top of every iteration: the pen has not left the box spanned by the
   * end points; the error term is `dx - dy + Offset`, and the offset, which measures how far
   * the pen is from the ideal line, is at most half of `max(dx, dy)` either way; on a
   * diagonal line both distances still to go are equal.
   */
  predicate Inv(l: Segment, p: Pen) {
    && Between(l.x1, p.x, l.x2) && Between(l.y1, p.y, l.y2)
    && p.err == l.Dx() - l.Dy() + Offset(l, p)
    && -Max(l.Dx(), l.Dy()) <= 2 * Offset(l, p) <= Max(l.Dx(), l.Dy())
    && (l.Dx() == l.Dy() ==> Abs(l.x2 - p.x) == Abs(l.y2 - p.y))
  }

  /** The first test of the loop body: x advances. */
  predicate MovesX(l: Segment, p: Pen) {
    2 * p.err > -l.Dy()
  }

  /** The second test of the loop body: y advances. */
  predicate MovesY(l: Segment, p: Pen) {
    2 * p.err < l.Dx()
  }

  /** One iteration after the pixel is written: both tests use the error before either update. */
  function Step(l: Segment, p: Pen): Pen {
    var (x, err) := if MovesX(l, p) then (p.x + l.Sx(), p.err - l.Dy()) else (p.x, p.err);
    var (y, err') := if MovesY(l, p) then (p.y + l.Sy(), err + l.Dx()) else (p.y, err);
    Pen(x, y, err')
  }

  /**
   * The loop body of `drawStraightLine`, with `dx`, `dy`, `sx`, `sy` held in locals and
   * `err2 = 2 * err` tested against `-dy` and then against `dx`, performs one `Step`.
   */
  lemma LoopBodyIsStep(l: Segment, p: Pen, dx: int, dy: int, sx: int, sy: int, q: Pen)
    requires dx == l.Dx() && dy == l.Dy() && sx == l.Sx() && sy == l.Sy()
    requires q.x == (if 2 * p.err > -dy then p.x + sx else p.x)
    requires q.y == (if 2 * p.err < dx then p.y + sy else p.y)
    requires q.err == p.err - (if 2 * p.err > -dy then dy else 0) + (if 2 * p.err < dx then dx else 0)
    ensures q == Step(l, p)
  {
  }

  lemma StartInv(l: Segment)
    ensures Inv(l, Start(l))
  {
    assert Offset(l, Start(l)) == l.Dy() * l.Dx() - l.Dx() * l.Dy() == 0;
  }

  lemma MulAtLeast(k: int, n: int)
    requires k >= 0 && n >= 1
    ensures k * n >= k
  {
  }

  lemma MulPred(k: int, n: int)
    ensures k * (n - 1) == k * n - k
  {
  }

  /**
   * The two tests of the loop body in terms of the distances `a`, `b` still to go and the
   * offset `e`, with the products the offset is made of already bounded.
   */
  lemma ChooseArith(a: int, b: int, dx: int, dy: int, e: int)
    requires 0 <= a <= dx && 0 <= b <= dy && a + b > 0
    requires -Max(dx, dy) <= 2 * e <= Max(dx, dy)
    requires a == 0 ==> e <= -dx
    requires b == 0 ==> e >= dy
    requires dx == dy ==> e == 0
    ensures a == 0 ==> !(2 * (dx - dy + e) > -dy)
    ensures b == 0 ==> !(2 * (dx - dy + e) < dx)
    ensures dx >= dy ==> 2 * (dx - dy + e) > -dy
    ensures dy >= dx ==> 2 * (dx - dy + e) < dx
  {
  }

  /**
   * Which coordinates a step moves: never one whose target is reached, at least one, and
   * always the major one (x when `dx >= dy`, y when `dy >= dx`).
   */
  lemma StepMoves(l: Segment, p: Pen)
    requires Inv(l, p) && !AtEnd(l, p)
    ensures Abs(l.x2 - p.x) == 0 ==> !MovesX(l, p)
    ensures Abs(l.y2 - p.y) == 0 ==> !MovesY(l, p)
    ensures l.Dx() >= l.Dy() ==> MovesX(l, p)
    ensures l.Dy() >= l.Dx() ==> MovesY(l, p)
  {
    var a, b := Abs(l.x2 - p.x), Abs(l.y2 - p.y);
    var dx, dy := l.Dx(), l.Dy();
    var e := Offset(l, p);
    assert e == dy * a - dx * b;
    assert a <= dx && b <= dy;
    if a == 0 {
      MulAtLeast(dx, b);
    }
    if b == 0 {
      MulAtLeast(dy, a);
    }
    ChooseArith(a, b, dx, dy, e);
  }

  /** Moving along x takes `dy` off the offset, moving along y adds `dx`. */
  lemma StepOffset(l: Segment, p: Pen)
    requires Inv(l, p) && !AtEnd(l, p)
    ensures Abs(l.x2 - Step(l, p).x) == Abs(l.x2 - p.x) - (if MovesX(l, p) then 1 else 0)
    ensures Abs(l.y2 - Step(l, p).y) == Abs(l.y2 - p.y) - (if MovesY(l, p) then 1 else 0)
    ensures Offset(l, Step(l, p)) ==
      Offset(l, p) - (if MovesX(l, p) then l.Dy() else 0) + (if MovesY(l, p) then l.Dx() else 0)
  {
    StepMoves(l, p);
    var a, b := Abs(l.x2 - p.x), Abs(l.y2 - p.y);
    var dx, dy := l.Dx(), l.Dy();
    var q := Step(l, p);
    var a', b' := Abs(l.x2 - q.x), Abs(l.y2 - q.y);
    assert a' == (if MovesX(l, p) then a - 1 else a);
    assert b' == (if MovesY(l, p) then b - 1 else b);
    MulPred(dy, a);
    MulPred(dx, b);
  }

  /**
   * A step keeps the invariant and moves each coordinate by 0 or by one unit toward its
   * target, never past it, and at least one of them moves. The major axis moves on every
   * step.
   */
  lemma StepKeepsInv(l: Segment, p: Pen)
    requires Inv(l, p) && !AtEnd(l, p)
    ensures Inv(l, Step(l, p))
    ensures Step(l, p).x - p.x in {0, l.Sx()} && Step(l, p).y - p.y in {0, l.Sy()}
    ensures l.Dx() >= l.Dy() ==> Abs(l.x2 - Step(l, p).x) == Abs(l.x2 - p.x) - 1
    ensures l.Dy() >= l.Dx() ==> Abs(l.y2 - Step(l, p).y) == Abs(l.y2 - p.y) - 1
  {
    StepMoves(l, p);
    StepOffset(l, p);
    var q := Step(l, p);
    var m := Max(l.Dx(), l.Dy());
    var e, e' := Offset(l, p), Offset(l, q);
    assert q.err == l.Dx() - l.Dy() + e';
    assert -m <= 2 * e' <= m;
  }

  /** The pen after `n` iterations of the loop. */
  function PenAfter(l: Segment, n: nat): Pen {
    if n == 0 then Start(l) else Step(l, PenAfter(l, n - 1))
  }

  /** The index of the last iteration: the loop runs `max(dx, dy) + 1` times. */
  function LastStep(l: Segment): nat {
    Max(l.Dx(), l.Dy())
  }

  /** The pixels written by the first `n` iterations, in order. */
  function PixelsBefore(l: Segment, n: nat): seq<Point> {
    if n == 0 then [] else PixelsBefore(l, n - 1) + [Point(PenAfter(l, n - 1).x, PenAfter(l, n - 1).y)]
  }

  /** The pixels `drawStraightLine` writes: those of all `max(dx, dy) + 1` iterations. */
  function LinePixels(l: Segment): seq<Point> {
    PixelsBefore(l, LastStep(l) + 1)
  }

  /** Pixel k of every prefix is where the pen is after k iterations. */
  lemma {:induction false} PixelsBeforeIndex(l: Segment, n: nat)
    ensures |PixelsBefore(l, n)| == n
    ensures forall k | 0 <= k < n :: PixelsBefore(l, n)[k] == Point(PenAfter(l, k).x, PenAfter(l, k).y)
  {
    if n > 0 {
      PixelsBeforeIndex(l, n - 1);
    }
  }

  /** The distance still to go along the major axis. */
  function Major(l: Segment, p: Pen): int {
    if l.Dx() >= l.Dy() then Abs(l.x2 - p.x) else Abs(l.y2 - p.y)
  }

  /**
   * For every `n` up to `max(dx, dy)` the pen after `n` iterations keeps the invariant and
   * is `max(dx, dy) - n` pixels from the end along the major axis.
   */
  lemma {:induction false} PenAfterInv(l: Segment, n: nat)
    requires n <= LastStep(l)
    ensures Inv(l, PenAfter(l, n))
    ensures Major(l, PenAfter(l, n)) == LastStep(l) - n
  {
    if n == 0 {
      StartInv(l);
    } else {
      PenAfterInv(l, n - 1);
      StepKeepsInv(l, PenAfter(l, n - 1));
    }
  }

  /** Once the major axis is done the minor one is too: the invariant keeps the pen on the line. */
  lemma MajorDoneAtEnd(l: Segment, p: Pen)
    requires Inv(l, p) && Major(l, p) == 0
    ensures AtEnd(l, p)
  {
    var a, b := Abs(l.x2 - p.x), Abs(l.y2 - p.y);
    var dx, dy := l.Dx(), l.Dy();
    assert Offset(l, p) == dy * a - dx * b;
    if dx >= dy && b >= 1 {
      assert a == 0;
      MulAtLeast(dx, b);
    }
    if dx < dy && a >= 1 {
      assert b == 0;
      MulAtLeast(dy, a);
    }
  }

  /** The loop reaches the end point at iteration `max(dx, dy)` and not before. */
  lemma PenAfterAtEnd(l: Segment, n: nat)
    requires n <= LastStep(l)
    ensures AtEnd(l, PenAfter(l, n)) <==> n == LastStep(l)
  {
    PenAfterInv(l, n);
    if n == LastStep(l) {
      MajorDoneAtEnd(l, PenAfter(l, n));
    }
  }

  /** Pixel `n` is where the pen is after `n` iterations; it is the last one exactly at the end point. */
  lemma PenAfterPixel(l: Segment, n: nat)
    requires n <= LastStep(l)
    ensures |LinePixels(l)| == LastStep(l) + 1
    ensures LinePixels(l)[n] == Point(PenAfter(l, n).x, PenAfter(l, n).y)
    ensures AtEnd(l, PenAfter(l, n)) <==> n == LastStep(l)
  {
    PixelsBeforeIndex(l, LastStep(l) + 1);
    PenAfterAtEnd(l, n);
  }

  /** The walk starts at (x1, y1) and ends at (x2, y2). */
  lemma LineEndpoints(l: Segment)
    ensures |LinePixels(l)| >= 1
    ensures LinePixels(l)[0] == Point(l.x1, l.y1)
    ensures LinePixels(l)[|LinePixels(l)| - 1] == Point(l.x2, l.y2)
  {
    PenAfterPixel(l, 0);
    PenAfterPixel(l, LastStep(l));
  }

  /** Exactly `max(|x2 - x1|, |y2 - y1|) + 1` pixels are written, all of them different. */
  lemma LineLength(l: Segment)
    ensures |LinePixels(l)| == Max(l.Dx(), l.Dy()) + 1
    ensures forall i, j | 0 <= i < j < |LinePixels(l)| :: LinePixels(l)[i] != LinePixels(l)[j]
  {
    PenAfterPixel(l, 0);
    forall i, j | 0 <= i < j < |LinePixels(l)| ensures LinePixels(l)[i] != LinePixels(l)[j] {
      PenAfterPixel(l, i);
      PenAfterPixel(l, j);
      PenAfterInv(l, i);
      PenAfterInv(l, j);
    }
  }

  /**
   * The path is 8-connected and monotone: each step changes x by 0 or `sx` and y by 0 or
   * `sy`, and never stays put.
   */
  lemma LineSteps(l: Segment)
    ensures forall k | 0 <= k < |LinePixels(l)| - 1 ::
      && LinePixels(l)[k + 1].x - LinePixels(l)[k].x in {0, l.Sx()}
      && LinePixels(l)[k + 1].y - LinePixels(l)[k].y in {0, l.Sy()}
      && LinePixels(l)[k + 1] != LinePixels(l)[k]
  {
    PenAfterPixel(l, 0);
    forall k | 0 <= k < |LinePixels(l)| - 1
      ensures LinePixels(l)[k + 1].x - LinePixels(l)[k].x in {0, l.Sx()}
      ensures LinePixels(l)[k + 1].y - LinePixels(l)[k].y in {0, l.Sy()}
      ensures LinePixels(l)[k + 1] != LinePixels(l)[k]
    {
      PenAfterPixel(l, k);
      PenAfterPixel(l, k + 1);
      PenAfterInv(l, k);
      StepKeepsInv(l, PenAfter(l, k));
    }
  }

  /** Every pixel lies in the bounding box of the end points. */
  lemma LineInBox(l: Segment)
    ensures forall k | 0 <= k < |LinePixels(l)| ::
      Between(l.x1, LinePixels(l)[k].x, l.x2) && Between(l.y1, LinePixels(l)[k].y, l.y2)
  {
    PenAfterPixel(l, 0);
    forall k | 0 <= k < |LinePixels(l)|
      ensures Between(l.x1, LinePixels(l)[k].x, l.x2) && Between(l.y1, LinePixels(l)[k].y, l.y2)
    {
      PenAfterPixel(l, k);
      PenAfterInv(l, k);
    }
  }

  /** So a line between two pixels of a canvas stays inside the canvas. */
  lemma LineInCanvas(l: Segment, w: int, h: int)
    requires 0 <= l.x1 < w && 0 <= l.x2 < w && 0 <= l.y1 < h && 0 <= l.y2 < h
    ensures forall k | 0 <= k < |LinePixels(l)| ::
      0 <= LinePixels(l)[k].x < w && 0 <= LinePixels(l)[k].y < h
  {
    LineInBox(l);
  }

  /** The number of samples of a curve line. */
  const CurveSteps: nat := 120

  /**
   * The three points `drawCurveLine` draws. The double interpolation
   * `lerp(lerp(P1, P2, t), lerp(P1, C, t), t)` is the quadratic Bézier curve from P1 = (x1, y1)
   * to C = (ctrlX, ctrlY) whose control point is the midpoint of P1 and P2 = (x2, y2): the
   * samples head toward (ctrlX, ctrlY), and (x2, y2) only bends the curve.
   */
  datatype Curve = Curve(x1: int, y1: int, x2: int, y2: int, ctrlX: int, ctrlY: int)

  /**
   * Sample `step` of `drawCurveLine`, in exact arithmetic: a point on the chord and a
   * point on the leg toward the control point, then a point between those two; every
   * interpolant is truncated to an integer before it is used again.
   */
  function CurveSample(c: Curve, step: int): Point {
    var t := step as real / CurveSteps as real;
    var x := Trunc(Lerp(c.x1 as real, c.x2 as real, t));
    var y := Trunc(Lerp(c.y1 as real, c.y2 as real, t));
    var ctrlXt := Trunc(Lerp(c.x1 as real, c.ctrlX as real, t));
    var ctrlYt := Trunc(Lerp(c.y1 as real, c.ctrlY as real, t));
    Point(Trunc(Lerp(x as real, ctrlXt as real, t)), Trunc(Lerp(y as real, ctrlYt as real, t)))
  }

  /** All samples, in the order they are drawn. */
  function CurvePoints(c: Curve): (r: seq<Point>)
    ensures |r| == CurveSteps
  {
    seq(CurveSteps, step requires 0 <= step < CurveSteps => CurveSample(c, step))
  }

  /** Sample 0 is the first end point. */
  lemma CurveStart(c: Curve)
    ensures CurvePoints(c)[0] == Point(c.x1, c.y1)
  {
    assert CurvePoints(c)[0] == CurveSample(c, 0);
    assert 0 as real / CurveSteps as real == 0.0;
    TruncLerpStart(c.x1, c.x2);
    TruncLerpStart(c.y1, c.y2);
    TruncLerpStart(c.x1, c.ctrlX);
    TruncLerpStart(c.y1, c.ctrlY);
  }

  /** At t = 0 the interpolant is its first end, which truncation leaves alone. */
  lemma TruncLerpStart(a: int, b: int)
    ensures Trunc(Lerp(a as real, b as real, 0.0)) == a
  {
    assert Lerp(a as real, b as real, 0.0) == a as real;
  }

  /** Truncating an interpolant of two non-negative integers gives a value between them. */
  lemma TruncLerpBetween(a: int, b: int, t: real)
    requires 0 <= a && 0 <= b && 0.0 <= t <= 1.0
    ensures Between(a, Trunc(Lerp(a as real, b as real, t)), b)
  {
    LerpBetween(a as real, b as real, t);
  }

  /**
   * In exact arithmetic a curve whose three points lie in [0, w) x [0, h) samples only
   * pixels of that canvas, so the bounds test of `drawCurveLine` never rejects a sample.
   */
  lemma CurveInCanvas(c: Curve, w: int, h: int)
    requires 0 <= c.x1 < w && 0 <= c.x2 < w && 0 <= c.ctrlX < w
    requires 0 <= c.y1 < h && 0 <= c.y2 < h && 0 <= c.ctrlY < h
    ensures forall k | 0 <= k < |CurvePoints(c)| ::
      0 <= CurvePoints(c)[k].x < w && 0 <= CurvePoints(c)[k].y < h
  {
    forall k | 0 <= k < |CurvePoints(c)|
      ensures 0 <= CurvePoints(c)[k].x < w && 0 <= CurvePoints(c)[k].y < h
    {
      var t := k as real / CurveSteps as real;
      assert CurvePoints(c)[k] == CurveSample(c, k);
      assert 0.0 <= t <= 1.0;
      var x := Trunc(Lerp(c.x1 as real, c.x2 as real, t));
      var y := Trunc(Lerp(c.y1 as real, c.y2 as real, t));
      var ctrlXt := Trunc(Lerp(c.x1 as real, c.ctrlX as real, t));
      var ctrlYt := Trunc(Lerp(c.y1 as real, c.ctrlY as real, t));
      TruncLerpBetween(c.x1, c.x2, t);
      TruncLerpBetween(c.y1, c.y2, t);
      TruncLerpBetween(c.x1, c.ctrlX, t);
      TruncLerpBetween(c.y1, c.ctrlY, t);
      TruncLerpBetween(x, ctrlXt, t);
      TruncLerpBetween(y, ctrlYt, t);
    }
  }

  /** A sequence of n elements holds at most n distinct values. */
  lemma {:induction false} DistinctAtMost<T>(s: seq<T>)
    ensures |set k | 0 <= k < |s| :: s[k]| <= |s|
  {
    if s != [] {
      var init := s[..|s| - 1];
      DistinctAtMost(init);
      assert (set k | 0 <= k < |s| :: s[k]) == (set k | 0 <= k < |init| :: init[k]) + {s[|s| - 1]};
    }
  }

  /** A curve line covers at most 120 distinct pixels. */
  lemma CurveAtMostSteps(c: Curve)
    ensures |set k | 0 <= k < |CurvePoints(c)| :: CurvePoints(c)[k]| <= CurveSteps
  {
    DistinctAtMost(CurvePoints(c));
  }
}
