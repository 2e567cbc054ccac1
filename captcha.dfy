/**
 * captcha.go: the defaults and the ordered validation of `New`, the `Captcha` object and
 * the option loop, the choice of the code length, and the pixel passes `distortChar`,
 * `drawNoise`, `drawLines`, `drawStraightLine` and `drawCurveLine`. Every `rand.IntN`
 * result, the points of the lines included, is a parameter constrained to the range the
 * call returns it from.
 */
module Captcha {
  import opened Raster
  import opened Utils
  import opened Options
  import opened Lines

  /** The composite literal `New` starts from. */
  const Defaults: Settings := Settings(
    120, 50,
    AlphaNumericWithoutConfusion,
    4, 4,
    [], 36.0,
    Rgba(0, 0, 0, 255), Rgba(255, 255, 255, 255),
    1.0, 1.0,
    0.0, 0.0,
    1.0, 1.0,
    0.0, 0.0,
    3, 7,
    0.1)

  /** The cases of the validation switch in `New`, in the order they are tested. */
  datatype ConfigError =
    | BadSize | EmptyCharSet | NoFontPath | BadFontSize | BadLength | BadSpacing
    | BadRotation | BadScale | BadDistortion | BadLines | BadNoise
  {
    /** The text of the error `New` returns. */
    function Message(): string {
      match this
      case BadSize => "width and height must be greater than 0"
      case EmptyCharSet => "char set is required"
      case NoFontPath => "font path is required"
      case BadFontSize => "font size must be greater than 0"
      case BadLength =>
        "min length must be greater than 0 and max length must be greater than min length"
      case BadSpacing =>
        "min spacing must be greater than 0 and max spacing must be greater than min spacing"
      case BadRotation =>
        "min rotation must be between -180 and 180 and max rotation must be greater than min rotation"
      case BadScale =>
        "min scale must be greater than 0 and max scale must be greater than min scale"
      case BadDistortion =>
        "min distortionmust be greater than 0 and max distortion must be greater than min distortion"
      case BadLines =>
        "min lines must be greater than 0 and max lines must be greater than min lines"
      case BadNoise => "noise level must be between 0 and 1"
    }

    /** The position of the case in the switch. */
    function Rank(): nat {
      match this
      case BadSize => 0
      case EmptyCharSet => 1
      case NoFontPath => 2
      case BadFontSize => 3
      case BadLength => 4
      case BadSpacing => 5
      case BadRotation => 6
      case BadScale => 7
      case BadDistortion => 8
      case BadLines => 9
      case BadNoise => 10
    }
  }

  /** Each check on its own: the settings fail the test of case `e`. */
  predicate Violates(s: Settings, e: ConfigError) {
    match e
    case BadSize => s.width <= 0 || s.height <= 0
    case EmptyCharSet => s.charSet == []
    case NoFontPath => s.fontPath == []
    case BadFontSize => s.fontSize <= 0.0
    case BadLength => s.minLength < 0 || s.maxLength < 0 || s.minLength > s.maxLength
    case BadSpacing => s.minSpacing < 0.0 || s.maxSpacing < 0.0 || s.minSpacing > s.maxSpacing
    case BadRotation => s.minRotation < -180.0 || s.maxRotation > 180.0 || s.minRotation > s.maxRotation
    case BadScale => s.minScale < 0.0 || s.maxScale < 0.0 || s.minScale > s.maxScale
    case BadDistortion =>
      s.minDistortion < 0.0 || s.maxDistortion < 0.0 || s.minDistortion > s.maxDistortion
    case BadLines => s.minLines < 0 || s.maxLines < 0 || s.minLines > s.maxLines
    case BadNoise => s.noiseLevel < 0.0 || s.noiseLevel > 1.0
  }

  datatype Outcome = Pass | Fail(error: ConfigError)

  /** The validation switch of `New`: the first case whose test holds is reported. */
  function Validate(s: Settings): (r: Outcome)
    ensures r.Fail? ==> Violates(s, r.error)
  {
    if s.width <= 0 || s.height <= 0 then Fail(BadSize)
    else if s.charSet == [] then Fail(EmptyCharSet)
    else if s.fontPath == [] then Fail(NoFontPath)
    else if s.fontSize <= 0.0 then Fail(BadFontSize)
    else if s.minLength < 0 || s.maxLength < 0 || s.minLength > s.maxLength then Fail(BadLength)
    else if s.minSpacing < 0.0 || s.maxSpacing < 0.0 || s.minSpacing > s.maxSpacing then Fail(BadSpacing)
    else if s.minRotation < -180.0 || s.maxRotation > 180.0 || s.minRotation > s.maxRotation then
      Fail(BadRotation)
    else if s.minScale < 0.0 || s.maxScale < 0.0 || s.minScale > s.maxScale then Fail(BadScale)
    else if s.minDistortion < 0.0 || s.maxDistortion < 0.0 || s.minDistortion > s.maxDistortion then
      Fail(BadDistortion)
    else if s.minLines < 0 || s.maxLines < 0 || s.minLines > s.maxLines then Fail(BadLines)
    else if s.noiseLevel < 0.0 || s.noiseLevel > 1.0 then Fail(BadNoise)
    else Pass
  }

  /** `New` reports `e` exactly when `e`'s test fails and no earlier test does. */
  lemma ValidateFirstFailure(s: Settings, e: ConfigError)
    ensures Validate(s) == Fail(e) <==>
      Violates(s, e) && forall e': ConfigError | e'.Rank() < e.Rank() :: !Violates(s, e')
  {
  }

  /** `New` passes the settings exactly when none of the tests fails. */
  lemma ValidatePassIff(s: Settings)
    ensures Validate(s) == Pass <==> forall e :: !Violates(s, e)
  {
  }

  /** A non-positive size is reported whatever else is wrong, an empty set included. */
  lemma BadSizeWins(s: Settings)
    requires s.width <= 0 || s.height <= 0
    ensures Validate(s) == Fail(BadSize)
    ensures Validate(s.(charSet := [])) == Fail(BadSize)
  {
  }

  /** The defaults lack only a font path. */
  lemma DefaultsNeedFont()
    ensures Validate(Defaults) == Fail(NoFontPath)
    ensures forall e :: Violates(Defaults, e) <==> e == NoFontPath
  {
    assert Defaults.charSet != [] by {
      assert Defaults.charSet[0] == 'A' as int;
    }
  }

  /** A font path and a positive font size are all the defaults need to pass. */
  lemma DefaultsWithFontPass(path: GoString, size: real)
    requires path != [] && size > 0.0
    ensures Validate(ApplyAll(Defaults, [WithFont(path, size)])) == Pass
  {
    DefaultsNeedFont();
    var s := ApplyAll(Defaults, [WithFont(path, size)]);
    assert s == Applied(ApplyAll(Defaults, []), WithFont(path, size)) by {
      ApplyAllAppend(Defaults, [], WithFont(path, size));
      assert [] + [WithFont(path, size)] == [WithFont(path, size)];
    }
    assert s.charSet == Defaults.charSet;
    assert forall e :: !Violates(s, e);
  }

  /** What `New` returns besides the object: an invalid configuration comes with the error text. */
  datatype NewResult = Created | Invalid(error: ConfigError, message: string) | FontLoadFailed

  /** `(*Captcha).drawLines`: how many lines are drawn; the upper bound is exclusive. */
  function LineCount(minLines: int, maxLines: int, draw: int): (r: int)
    requires minLines <= maxLines
    requires minLines < maxLines ==> IsDraw(draw, maxLines - minLines)
    ensures minLines == maxLines ==> r == minLines
    ensures minLines < maxLines ==> minLines <= r < maxLines
  {
    if minLines == maxLines then minLines else draw + minLines
  }

  /** Every count from `minLines` up to `maxLines - 1` can come out, and `maxLines` never does. */
  lemma LineCountRange(minLines: int, maxLines: int, n: int)
    requires minLines < maxLines
    ensures minLines <= n < maxLines <==>
      exists draw | IsDraw(draw, maxLines - minLines) :: LineCount(minLines, maxLines, draw) == n
  {
    if minLines <= n < maxLines {
      assert LineCount(minLines, maxLines, n - minLines) == n;
    }
  }

  /** `(*Captcha).randomString`: the code length. */
  function CodeLength(minLength: int, maxLength: int, draw: int): (r: int)
    requires minLength <= maxLength
    requires minLength < maxLength ==> IsDraw(draw, maxLength - minLength + 1)
    ensures minLength == maxLength ==> r == minLength
    ensures minLength <= r <= maxLength
  {
    if minLength == maxLength then minLength else draw + minLength
  }

  /** Every length from `minLength` to `maxLength`, both included, can come out. */
  lemma CodeLengthRange(minLength: int, maxLength: int, n: int)
    requires minLength < maxLength
    ensures minLength <= n <= maxLength <==>
      exists draw | IsDraw(draw, maxLength - minLength + 1) :: CodeLength(minLength, maxLength, draw) == n
  {
    if minLength <= n <= maxLength {
      assert CodeLength(minLength, maxLength, n - minLength) == n;
    }
  }

  /**
   * `(sx, sy)` in `Generate`: `(outer - inner) / 2` with Go's division, which truncates
   * toward zero.
   */
  function CenterOffset(outer: int, inner: int): (r: int)
    ensures Abs(outer - inner - 2 * r) <= 1
    ensures outer >= inner ==> 0 <= outer - inner - 2 * r
    ensures outer < inner ==> outer - inner - 2 * r <= 0
  {
    var d := outer - inner;
    if d >= 0 then d / 2 else -((-d) / 2)
  }

  /** The offset centres the inner extent: what is left over on each side differs by at most one. */
  lemma CenterOffsetBalanced(outer: int, inner: int)
    requires inner <= outer
    ensures var r := CenterOffset(outer, inner); 0 <= (outer - (r + inner)) - r <= 1
  {
  }

  /** One line of `drawLines`: the kind drawn and the draws it makes. */
  datatype LineDraw =
    | Straight(segment: Segment, jitter: Jitter)
    | Curved(curve: Curve, jitter: Jitter)

  /** The points of a line were drawn by `rand.IntN(w)` and `rand.IntN(h)`: they lie in the canvas. */
  predicate InsideCanvas(d: LineDraw, w: int, h: int) {
    match d
    case Straight(l, _) => 0 <= l.x1 < w && 0 <= l.x2 < w && 0 <= l.y1 < h && 0 <= l.y2 < h
    case Curved(c, _) =>
      && 0 <= c.x1 < w && 0 <= c.x2 < w && 0 <= c.ctrlX < w
      && 0 <= c.y1 < h && 0 <= c.y2 < h && 0 <= c.ctrlY < h
  }

  /** The pixels a line of either kind sets, inside a canvas. */
  predicate Covers(d: LineDraw, p: Point) {
    match d
    case Straight(l, _) => p in LinePixels(l)
    case Curved(c, _) => p in CurvePoints(c)
  }

  /** The colour a pixel of colour `base` has after the lines have been drawn in order. */
  function PixelAfter(base: Rgba, fg: Rgba, lines: seq<LineDraw>, p: Point): Rgba
    requires forall k | 0 <= k < |lines| :: lines[k].jitter.Valid()
    decreases |lines|
  {
    if lines == [] then base
    else
      var last := lines[|lines| - 1];
      if Covers(last, p) then RandomNearColor(fg, last.jitter)
      else PixelAfter(base, fg, lines[..|lines| - 1], p)
  }

  /** A pixel no line covers keeps its colour. */
  lemma {:induction false} PixelAfterUncovered(base: Rgba, fg: Rgba, lines: seq<LineDraw>, p: Point)
    requires forall k | 0 <= k < |lines| :: lines[k].jitter.Valid()
    requires forall k | 0 <= k < |lines| :: !Covers(lines[k], p)
    ensures PixelAfter(base, fg, lines, p) == base
    decreases |lines|
  {
    if lines != [] {
      PixelAfterUncovered(base, fg, lines[..|lines| - 1], p);
    }
  }

  /** A covered pixel takes the colour of the last line that covers it. */
  lemma {:induction false} PixelAfterLastCover(base: Rgba, fg: Rgba, lines: seq<LineDraw>, p: Point, k: int)
    requires forall m | 0 <= m < |lines| :: lines[m].jitter.Valid()
    requires 0 <= k < |lines| && Covers(lines[k], p)
    requires forall m | k < m < |lines| :: !Covers(lines[m], p)
    ensures PixelAfter(base, fg, lines, p) == RandomNearColor(fg, lines[k].jitter)
    decreases |lines|
  {
    if k < |lines| - 1 {
      PixelAfterLastCover(base, fg, lines[..|lines| - 1], p, k);
    }
  }

  /** A pixel whose colour changed was covered by a line and holds that line's colour. */
  lemma {:induction false} PixelAfterChanged(base: Rgba, fg: Rgba, lines: seq<LineDraw>, p: Point)
    requires forall k | 0 <= k < |lines| :: lines[k].jitter.Valid()
    requires PixelAfter(base, fg, lines, p) != base
    ensures exists k | 0 <= k < |lines| ::
      Covers(lines[k], p) && PixelAfter(base, fg, lines, p) == RandomNearColor(fg, lines[k].jitter)
    decreases |lines|
  {
    var init := lines[..|lines| - 1];
    if !Covers(lines[|lines| - 1], p) {
      PixelAfterChanged(base, fg, init, p);
      var k :| 0 <= k < |init| &&
        Covers(init[k], p) && PixelAfter(base, fg, init, p) == RandomNearColor(fg, init[k].jitter);
      assert lines[k] == init[k];
    }
  }

  /** Appending a line paints over the pixels it covers and nothing else. */
  lemma PixelAfterAppend(base: Rgba, fg: Rgba, lines: seq<LineDraw>, i: int, p: Point)
    requires forall k | 0 <= k < |lines| :: lines[k].jitter.Valid()
    requires 0 <= i < |lines|
    ensures PixelAfter(base, fg, lines[..i + 1], p) ==
      if Covers(lines[i], p) then RandomNearColor(fg, lines[i].jitter)
      else PixelAfter(base, fg, lines[..i], p)
  {
    assert lines[..i + 1][..i] == lines[..i];
  }

  /** Whether `positions` holds the pixel (x, y). */
  predicate Hit(positions: seq<Point>, x: int, y: int) {
    Point(x, y) in positions
  }

  /**
   * Destination pixel (x, y) of `distortChar`: the source pixel shifted by `xShift[y]`
   * columns and `yShift[x]` rows when that lies inside the source, transparent otherwise.
   */
  function DistortedPixel(src: Canvas, xShift: seq<int>, yShift: seq<int>, x: int, y: int): (r: Rgba)
    reads src
    requires 0 <= x < |yShift| && 0 <= y < |xShift|
    ensures r == Transparent || exists i, j | InBounds(src, i, j) :: r == src[i, j]
  {
    var nx, ny := x + xShift[y], y + yShift[x];
    if InBounds(src, nx, ny) then src[nx, ny] else Transparent
  }

  /** With all shifts zero the distortion is an exact copy. */
  lemma DistortZeroShiftCopies(src: Canvas, xShift: seq<int>, yShift: seq<int>)
    requires |xShift| == src.Length1 && |yShift| == src.Length0
    requires forall k | 0 <= k < |xShift| :: xShift[k] == 0
    requires forall k | 0 <= k < |yShift| :: yShift[k] == 0
    ensures forall x, y | 0 <= x < src.Length0 && 0 <= y < src.Length1 ::
      DistortedPixel(src, xShift, yShift, x, y) == src[x, y]
  {
  }

  /** A `*Captcha`: the settings held in its fields; the font face is not modelled. */
  class Captcha {
    var width: int
    var height: int
    var charSet: CharSet
    var minLength: int
    var maxLength: int
    var fontPath: GoString
    var fontSize: real
    var foreground: Rgba
    var background: Rgba
    var minSpacing: real
    var maxSpacing: real
    var minRotation: real
    var maxRotation: real
    var minScale: real
    var maxScale: real
    var minDistortion: real
    var maxDistortion: real
    var minLines: int
    var maxLines: int
    var noiseLevel: real

    /** The fields as one value. */
    function Snapshot(): Settings
      reads this
    {
      Settings(width, height, charSet, minLength, maxLength, fontPath, fontSize,
               foreground, background, minSpacing, maxSpacing, minRotation, maxRotation,
               minScale, maxScale, minDistortion, maxDistortion, minLines, maxLines, noiseLevel)
    }

    /** The composite literal at the start of `New`. */
    constructor ()
      ensures Snapshot() == Defaults
    {
      width, height := 120, 50;
      charSet := AlphaNumericWithoutConfusion;
      minLength, maxLength := 4, 4;
      fontPath, fontSize := [], 36.0;
      foreground, background := Rgba(0, 0, 0, 255), Rgba(255, 255, 255, 255);
      minSpacing, maxSpacing := 1.0, 1.0;
      minRotation, maxRotation := 0.0, 0.0;
      minScale, maxScale := 1.0, 1.0;
      minDistortion, maxDistortion := 0.0, 0.0;
      minLines, maxLines := 3, 7;
      noiseLevel := 0.1;
    }

    /**
     * `opt(c)`: runs the closure of one option on this object, which assigns the option's
     * arguments to its fields.
     */
    method Apply(o: Option)
      modifies this
      ensures Snapshot() == Applied(old(Snapshot()), o)
    {
      match o {
        case WithSize(w, h) => SetSize(w, h);
        case WithCharSet(cs) => SetCharSet(cs);
        case WithLength(lo, hi) => SetLength(lo, hi);
        case WithFont(p, sz) => SetFont(p, sz);
        case WithBackground(c) => SetBackground(c);
        case WithForeground(c) => SetForeground(c);
        case WithSpacing(lo, hi) => SetSpacing(lo, hi);
        case WithRotation(lo, hi) => SetRotation(lo, hi);
        case WithScale(lo, hi) => SetScale(lo, hi);
        case WithDistortion(lo, hi) => SetDistortion(lo, hi);
        case WithLines(lo, hi) => SetLines(lo, hi);
        case WithNoise(l) => SetNoise(l);
      }
    }

    /** The closure of `WithSize`. */
    method SetSize(w: int, h: int)
      modifies this
      ensures Snapshot() == old(Snapshot()).(width := w, height := h)
    {
      width, height := w, h;
    }

    /** The closure of `WithCharSet`. */
    method SetCharSet(cs: CharSet)
      modifies this
      ensures Snapshot() == old(Snapshot()).(charSet := cs)
    {
      charSet := cs;
    }

    /** The closure of `WithLength`. */
    method SetLength(lo: int, hi: int)
      modifies this
      ensures Snapshot() == old(Snapshot()).(minLength := lo, maxLength := hi)
    {
      minLength, maxLength := lo, hi;
    }

    /** The closure of `WithFont`. */
    method SetFont(p: GoString, sz: real)
      modifies this
      ensures Snapshot() == old(Snapshot()).(fontPath := p, fontSize := sz)
    {
      fontPath, fontSize := p, sz;
    }

    /** The closure of `WithBackground`. */
    method SetBackground(c: Rgba)
      modifies this
      ensures Snapshot() == old(Snapshot()).(background := c)
    {
      background := c;
    }

    /** The closure of `WithForeground`. */
    method SetForeground(c: Rgba)
      modifies this
      ensures Snapshot() == old(Snapshot()).(foreground := c)
    {
      foreground := c;
    }

    /** The closure of `WithSpacing`. */
    method SetSpacing(lo: real, hi: real)
      modifies this
      ensures Snapshot() == old(Snapshot()).(minSpacing := lo, maxSpacing := hi)
    {
      minSpacing, maxSpacing := lo, hi;
    }

    /** The closure of `WithRotation`. */
    method SetRotation(lo: real, hi: real)
      modifies this
      ensures Snapshot() == old(Snapshot()).(minRotation := lo, maxRotation := hi)
    {
      minRotation, maxRotation := lo, hi;
    }

    /** The closure of `WithScale`. */
    method SetScale(lo: real, hi: real)
      modifies this
      ensures Snapshot() == old(Snapshot()).(minScale := lo, maxScale := hi)
    {
      minScale, maxScale := lo, hi;
    }

    /** The closure of `WithDistortion`. */
    method SetDistortion(lo: real, hi: real)
      modifies this
      ensures Snapshot() == old(Snapshot()).(minDistortion := lo, maxDistortion := hi)
    {
      minDistortion, maxDistortion := lo, hi;
    }

    /** The closure of `WithLines`. */
    method SetLines(lo: int, hi: int)
      modifies this
      ensures Snapshot() == old(Snapshot()).(minLines := lo, maxLines := hi)
    {
      minLines, maxLines := lo, hi;
    }

    /** The closure of `WithNoise`. */
    method SetNoise(l: real)
      modifies this
      ensures Snapshot() == old(Snapshot()).(noiseLevel := l)
    {
      noiseLevel := l;
    }

    /**
     * `(*Captcha).randomString`: the length comes from `lengthDraw` unless the bounds are
     * equal, then byte i of the code is `charSet[charDraws[i]]`.
     */
    method RandomCode(lengthDraw: int, charDraws: seq<int>) returns (code: GoString)
      requires minLength <= maxLength
      requires minLength < maxLength ==> IsDraw(lengthDraw, maxLength - minLength + 1)
      requires |charDraws| == CodeLength(minLength, maxLength, lengthDraw)
      requires forall i | 0 <= i < |charDraws| :: 0 <= charDraws[i] < |charSet|
      ensures |code| == |charDraws|
      ensures minLength <= |code| <= maxLength
      ensures minLength == maxLength ==> |code| == minLength
      ensures forall i | 0 <= i < |code| :: code[i] == charSet[charDraws[i]]
    {
      var length := if minLength == maxLength then minLength else lengthDraw + minLength;
      code := RandomString(length, charSet, charDraws);
    }

    /**
     * `(*Captcha).distortChar` with the truncated offsets supplied: `xShift[y]` is
     * `int(amplitude * sin(...))` for row y and `yShift[x]` is `int(amplitude * cos(...))`
     * for column x. Without distortion the source itself is returned.
     */
    method DistortChar(src: Canvas, xShift: seq<int>, yShift: seq<int>) returns (dst: Canvas)
      requires |xShift| == src.Length1 && |yShift| == src.Length0
      ensures minDistortion == maxDistortion == 0.0 ==> dst == src
      ensures !(minDistortion == maxDistortion == 0.0) ==>
        && fresh(dst) && dst.Length0 == src.Length0 && dst.Length1 == src.Length1
        && forall x, y | 0 <= x < src.Length0 && 0 <= y < src.Length1 ::
             dst[x, y] == DistortedPixel(src, xShift, yShift, x, y)
    {
      if minDistortion == maxDistortion && minDistortion == 0.0 {
        return src;
      }
      var w, h := src.Length0, src.Length1;
      dst := NewCanvas(w, h);
      for y := 0 to h
        invariant forall i, j | 0 <= i < w && 0 <= j < h ::
          dst[i, j] == if j < y then DistortedPixel(src, xShift, yShift, i, j) else Transparent
      {
        for x := 0 to w
          invariant forall i, j | 0 <= i < w && 0 <= j < h ::
            dst[i, j] == if j < y || (j == y && i < x) then DistortedPixel(src, xShift, yShift, i, j)
                         else Transparent
        {
          var nx, ny := x + xShift[y], y + yShift[x];
          if nx >= 0 && nx < w && ny >= 0 && ny < h {
            dst[x, y] := src[nx, ny];
          }
        }
      }
    }

    /**
     * `(*Captcha).drawNoise` with the drawn positions supplied. Level 0 returns the source
     * itself. Otherwise a level above 1 is first stored back as 1, and the result is a
     * copy of the source with the foreground colour at exactly the drawn positions.
     */
    method DrawNoise(src: Canvas, positions: seq<Point>) returns (dst: Canvas)
      requires forall k | 0 <= k < |positions| :: InBounds(src, positions[k].x, positions[k].y)
      modifies this
      ensures old(noiseLevel) == 0.0 ==> dst == src && Snapshot() == old(Snapshot())
      ensures old(noiseLevel) != 0.0 ==>
        Snapshot() == old(Snapshot()).(noiseLevel := if old(noiseLevel) > 1.0 then 1.0 else old(noiseLevel))
      ensures old(noiseLevel) != 0.0 ==>
        && fresh(dst) && dst.Length0 == src.Length0 && dst.Length1 == src.Length1
        && forall x, y | 0 <= x < src.Length0 && 0 <= y < src.Length1 ::
             dst[x, y] == if Hit(positions, x, y) then foreground else src[x, y]
    {
      if noiseLevel == 0.0 {
        return src;
      }
      if noiseLevel > 1.0 {
        noiseLevel := 1.0;
      }
      dst := Clone(src);
      for k := 0 to |positions|
        modifies dst
        invariant forall x, y | 0 <= x < src.Length0 && 0 <= y < src.Length1 ::
          dst[x, y] == if Hit(positions[..k], x, y) then foreground else src[x, y]
      {
        Set(dst, positions[k].x, positions[k].y, foreground);
        assert positions[..k + 1] == positions[..k] + [positions[k]];
      }
      assert positions[..|positions|] == positions;
    }

    /**
     * `(*Captcha).drawStraightLine` with its end points and colour jitter supplied: the
     * pixels of `LinePixels(l)` inside the canvas get one jittered foreground colour and
     * every other pixel is left alone.
     */
    method DrawStraightLine(img: Canvas, l: Segment, j: Jitter)
      requires InsideCanvas(Straight(l, j), img.Length0, img.Length1)
      requires j.Valid()
      modifies img
      ensures forall x, y | 0 <= x < img.Length0 && 0 <= y < img.Length1 ::
        img[x, y] == if Point(x, y) in LinePixels(l) then RandomNearColor(foreground, j) else old(img[x, y])
      ensures forall p | p in LinePixels(l) :: InBounds(img, p.x, p.y) && img[p.x, p.y] == RandomNearColor(foreground, j)
    {
      var lineColor := RandomNearColor(foreground, j);
      PlotLine(img, l, lineColor);
      LineInCanvas(l, img.Length0, img.Length1);
    }

    /**
     * `(*Captcha).drawCurveLine` with its three points and colour jitter supplied: of the
     * 120 samples, those inside the canvas are set to one jittered foreground colour and
     * every other pixel is left alone.
     */
    method DrawCurveLine(img: Canvas, c: Curve, j: Jitter)
      requires InsideCanvas(Curved(c, j), img.Length0, img.Length1)
      requires j.Valid()
      modifies img
      ensures forall x, y | 0 <= x < img.Length0 && 0 <= y < img.Length1 ::
        img[x, y] == if Point(x, y) in CurvePoints(c) then RandomNearColor(foreground, j) else old(img[x, y])
      ensures forall p | p in CurvePoints(c) :: InBounds(img, p.x, p.y) && img[p.x, p.y] == RandomNearColor(foreground, j)
    {
      var w, h := img.Length0, img.Length1;
      var lineColor := RandomNearColor(foreground, j);
      var samples := CurvePoints(c);
      for step := 0 to CurveSteps
        invariant forall i, k | 0 <= i < w && 0 <= k < h ::
          img[i, k] == if Point(i, k) in samples[..step] then lineColor else old(img[i, k])
      {
        var t := step as real / CurveSteps as real;
        var x := Trunc(Lerp(c.x1 as real, c.x2 as real, t));
        var y := Trunc(Lerp(c.y1 as real, c.y2 as real, t));
        var ctrlXt := Trunc(Lerp(c.x1 as real, c.ctrlX as real, t));
        var ctrlYt := Trunc(Lerp(c.y1 as real, c.ctrlY as real, t));
        var finalX := Trunc(Lerp(x as real, ctrlXt as real, t));
        var finalY := Trunc(Lerp(y as real, ctrlYt as real, t));
        assert samples[step] == CurveSample(c, step) == Point(finalX, finalY);
        if finalX >= 0 && finalX < w && finalY >= 0 && finalY < h {
          img[finalX, finalY] := lineColor;
        }
        assert samples[..step + 1] == samples[..step] + [samples[step]];
      }
      assert samples[..CurveSteps] == samples;
      CurveInCanvas(c, w, h);
    }

    /**
     * `(*Captcha).drawLines` with the count draw and each line's kind and draws supplied.
     * With both bounds 0 the source itself is returned; otherwise a copy of the source
     * with the lines drawn over it in order.
     */
    method DrawLines(src: Canvas, countDraw: int, lines: seq<LineDraw>) returns (dst: Canvas)
      requires minLines <= maxLines
      requires minLines < maxLines ==> IsDraw(countDraw, maxLines - minLines)
      requires |lines| == LineCount(minLines, maxLines, countDraw)
      requires forall k | 0 <= k < |lines| :: InsideCanvas(lines[k], src.Length0, src.Length1)
      requires forall k | 0 <= k < |lines| :: lines[k].jitter.Valid()
      ensures minLines == maxLines == 0 ==> dst == src
      ensures !(minLines == maxLines == 0) ==>
        && fresh(dst) && dst.Length0 == src.Length0 && dst.Length1 == src.Length1
        && forall x, y | 0 <= x < src.Length0 && 0 <= y < src.Length1 ::
             dst[x, y] == PixelAfter(src[x, y], foreground, lines, Point(x, y))
    {
      if minLines == maxLines && minLines == 0 {
        return src;
      }
      dst := Clone(src);
      for i := 0 to |lines|
        modifies dst
        invariant forall x, y | 0 <= x < src.Length0 && 0 <= y < src.Length1 ::
          dst[x, y] == PixelAfter(src[x, y], foreground, lines[..i], Point(x, y))
      {
        match lines[i] {
          case Straight(l, j) => DrawStraightLine(dst, l, j);
          case Curved(c, j) => DrawCurveLine(dst, c, j);
        }
        forall x, y | 0 <= x < src.Length0 && 0 <= y < src.Length1
          ensures dst[x, y] == PixelAfter(src[x, y], foreground, lines[..i + 1], Point(x, y))
        {
          PixelAfterAppend(src[x, y], foreground, lines, i, Point(x, y));
        }
      }
      assert lines[..|lines|] == lines;
    }
  }

  /**
   * The Bresenham loop of `drawStraightLine`: sets exactly the pixels of `LinePixels(l)`
   * that lie inside the canvas to `lineColor`.
   */
  method PlotLine(img: Canvas, l: Segment, lineColor: Rgba)
    modifies img
    ensures forall x, y | 0 <= x < img.Length0 && 0 <= y < img.Length1 ::
      img[x, y] == if Point(x, y) in LinePixels(l) then lineColor else old(img[x, y])
  {
    var dx, dy := Abs(l.x2 - l.x1), Abs(l.y2 - l.y1);
    var sx, sy := -1, -1;
    if l.x1 < l.x2 {
      sx := 1;
    }
    if l.y1 < l.y2 {
      sy := 1;
    }
    var x, y, err := l.x1, l.y1, dx - dy;
    ghost var n: nat := 0;
    while true
      invariant n <= LastStep(l)
      invariant Pen(x, y, err) == PenAfter(l, n)
      invariant forall i, k | 0 <= i < img.Length0 && 0 <= k < img.Length1 ::
        img[i, k] == if Point(i, k) in PixelsBefore(l, n) then lineColor else old(img[i, k])
      decreases LastStep(l) - n
    {
      PenAfterAtEnd(l, n);
      ghost var pen := Pen(x, y, err);
      Set(img, x, y, lineColor);
      assert PixelsBefore(l, n + 1) == PixelsBefore(l, n) + [Point(x, y)];
      if x == l.x2 && y == l.y2 {
        break;
      }
      var err2 := 2 * err;
      if err2 > -dy {
        err := err - dy;
        x := x + sx;
      }
      if err2 < dx {
        err := err + dx;
        y := y + sy;
      }
      LoopBodyIsStep(l, pen, dx, dy, sx, sy, Pen(x, y, err));
      n := n + 1;
    }
  }

  /**
   * `New`: the defaults, then the options in order, then the validation switch; a
   * configuration that passes still fails when loading the font fails (`fontLoads` stands
   * for reading, parsing and opening the font file).
   */
  method New(opts: seq<Option>, fontLoads: bool) returns (c: Captcha?, result: NewResult)
    ensures Validate(ApplyAll(Defaults, opts)) != Pass ==>
      && c == null
      && result == Invalid(Validate(ApplyAll(Defaults, opts)).error, Validate(ApplyAll(Defaults, opts)).error.Message())
    ensures Validate(ApplyAll(Defaults, opts)) == Pass && !fontLoads ==>
      c == null && result == FontLoadFailed
    ensures Validate(ApplyAll(Defaults, opts)) == Pass && fontLoads ==>
      c != null && fresh(c) && result == Created && c.Snapshot() == ApplyAll(Defaults, opts)
  {
    var captcha := new Captcha();
    for i := 0 to |opts|
      invariant captcha.Snapshot() == ApplyAll(Defaults, opts[..i])
    {
      captcha.Apply(opts[i]);
      ApplyAllAppend(Defaults, opts[..i], opts[i]);
      assert opts[..i + 1] == opts[..i] + [opts[i]];
    }
    assert opts[..|opts|] == opts;
    var v := Validate(captcha.Snapshot());
    if v.Fail? {
      return null, Invalid(v.error, v.error.Message());
    }
    if !fontLoads {
      return null, FontLoadFailed;
    }
    return captcha, Created;
  }
}
