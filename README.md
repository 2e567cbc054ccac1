# captcha core in Dafny

A model of the Go package `captcha`. It covers:

- how a `Captcha` is configured: the defaults, the `With*` options applied in order, and the ordered validation switch of `New`;
- how the code is drawn: its length and its bytes;
- the pixel passes: `distortChar`, `drawNoise` and `drawLines`, which draws Bresenham straight lines and sampled quadratic Bézier curves (from (x1, y1) toward (ctrlX, ctrlY); (x2, y2) only shapes the curve);
- the helpers of `utils.go`.

Every `rand.IntN` result is a parameter constrained to the range the call returns values from. This includes the end points and control points of the lines, which must lie in the canvas. The model then states exactly which canvas each pass produces for a given set of draws.

Modules, one per concern:

- `Raster` (raster.dfy): the parts of Go's `image` and `image/color` the core relies on. These are `color.RGBA`, an `*image.RGBA` canvas as `array2<Rgba>` indexed `[x, y]`, `image.Rect` with its normalisation, the bounds-checked `Set`, and the copy made by `draw.Draw(..., draw.Src)`.
- `Utils` (utils.dfy): `utils.go`.
- `Options` (options.dfy): `option.go`. An option is a closure that assigns fields; here it is a datatype, and `Applied` gives the fields after the closure runs.
- `Lines` (lines.dfy): the pixel paths of `drawStraightLine` and `drawCurveLine`, as functions with lemmas.
- `Captcha` (captcha.dfy): `captcha.go`. It holds the defaults, the validation, the `Captcha` class whose fields the options and `drawNoise` update in place, `New`, and the drawing methods. Each drawing method runs the source's loops over arrays.

Behaviour of the code that a reader might not expect:

- When `minLines < maxLines`, `drawLines` never draws `maxLines` lines, although the range reads as inclusive: `rand.IntN(max - min)` excludes its bound. With equal bounds it draws exactly `minLines` lines. The code length, in contrast, can reach `maxLength`.
- `pixelBounds` of a fully transparent canvas is the whole canvas, not an empty box: `image.Rect` swaps the untouched initial extremes.
- `randomNearColor` wraps each channel around modulo 256 before `clamp` runs, so the clamp never changes anything and a dark colour can turn light.
- The straight line is 8-connected, not 4-connected: a step may move diagonally.
- The defaults are those of the literal in `New`: 120 x 50, `AlphaNumericWithoutConfusion`, font size 36 and no font path. The doc comments in option.go name other defaults (140 x 50, `AlphaNumeric`, size 40).

## Model

| member | source | states |
|---|---|---|
| Utils.Abs | utils.go:61-66 | the result is non-negative and equals x or -x |
| Utils.Clamp | utils.go:68-76 | below min the result is min; at least min and above max it is max, whatever the order of the bounds; in range it is v; it always lies in [min, max] when min <= max |
| Utils.ClampIdempotent | utils.go:68-76 | clamping twice is clamping once |
| Utils.NearChannel | utils.go:50-52 | one channel of the jittered colour is (c + draw - 25) mod 256, because the uint8 conversion and addition wrap |
| Utils.RandomNearColor | utils.go:46-55 | alpha is kept; each of r, g, b is the base channel plus its draw minus 25, modulo 256 |
| Utils.NearBlackWrapsToLight | utils.go:46-55 | jittering opaque black with the lowest draws gives light grey (231, 231, 231), not black |
| Utils.Lerp | utils.go:57-59 | `a + (b - a) * t` in exact arithmetic: a at t = 0 and b at t = 1 |
| Utils.LerpBetween | utils.go:57-59 | for t in [0, 1] the interpolant lies between its two ends |
| Utils.Trunc | captcha.go:524-529 | Go's float-to-int conversion truncates toward zero: the result is within one of the value, on the side of zero |
| Utils.RandomString | utils.go:9-17 | the string has exactly `length` bytes, byte i is `set[draws[i]]`, and every byte comes from the set |
| Utils.PixelBounds | utils.go:19-44 | as written: without an opaque pixel it returns the whole canvas; otherwise its extremes are the smallest and largest opaque column and row, yet some opaque pixel lies outside the half-open rectangle |
| Utils.OpaqueBounds | utils.go:19-44 | corrected: every opaque pixel lies inside the rectangle, and its first and last column and row each hold an opaque pixel |
| Utils.SingleOpaquePixelExample | utils.go:43 | a 3 x 3 canvas with only its centre opaque gets the empty box Rect(1, 1, 1, 1), which does not contain the centre |
| Raster.MakeRect | utils.go:43 | `image.Rect` orders each pair of coordinates: the result is well-formed and uses the same coordinates |
| Raster.ToByte | utils.go:50-52 | the `uint8` conversion keeps the value modulo 256, also for negative values |
| Raster.NewCanvas | captcha.go:447 | `image.NewRGBA` gives a fresh, fully transparent canvas of the requested size |
| Raster.Set | captcha.go:487 | `img.Set` changes exactly the one in-bounds pixel and ignores a point outside |
| Raster.Clone | captcha.go:447-448 | the copy is fresh, has the source's bounds and is equal pixel by pixel |
| Options.Lowercase | option.go:6 | the bytes of the literal "abcdefghijklmnopqrstuvwxyz" |
| Options.Uppercase | option.go:7 | the bytes of the literal "ABCDEFGHIJKLMNOPQRSTUVWXYZ" |
| Options.Alphabetic | option.go:8 | `Lowercase + Uppercase` |
| Options.Numeric | option.go:9 | the bytes of the literal "0123456789" |
| Options.Hex | option.go:10 | `Numeric + "abcdef"` |
| Options.LowerNumeric | option.go:11 | `Lowercase + Numeric` |
| Options.UpperNumeric | option.go:12 | `Uppercase + Numeric` |
| Options.AlphaNumeric | option.go:13 | `Alphabetic + Numeric` |
| Options.AlphaNumericWithoutConfusion | option.go:14 | the literal's bytes, written as its three runs of upper-case letters, lower-case letters and digits; see `Options.WithoutConfusionIsUnambiguous` |
| Options.Ascii | option.go:5-15 | a literal's bytes, one per character |
| Options.CharSetLengths | option.go:5-15 | the composed sets have lengths 52, 62, 16, 36, 36, and AlphaNumericWithoutConfusion has 51 |
| Options.WithoutConfusionIsUnambiguous | option.go:14 | AlphaNumericWithoutConfusion holds no repeated byte and none of '0', '1', 'O', 'I', 'l' |
| Options.IncreasingOrdered | option.go:14 | a run that goes up at each step is strictly ordered between any two positions |
| Options.RunsDistinct | option.go:14 | three increasing runs in disjoint byte ranges concatenate without repeats |
| Options.UnambiguousConcat | option.go:14 | a concatenation avoids the look-alikes when each part does |
| Options.SettingsExtensional | captcha.go:20-83 | two sets of field values that agree on every field are equal |
| Options.Applied | option.go:22-133 | the fields after one `With*` closure has run; its meaning is stated by `Options.AppliedAssignsExactly` |
| Options.AppliedAssignsExactly | option.go:17-133 | each option stores its arguments verbatim into exactly the fields it names and leaves every other field alone |
| Options.LaterOptionWins | option.go:17-133 | an option followed by one that assigns all of its fields has the effect of the later one alone |
| Options.AppliedIdempotent | option.go:17-133 | applying an option twice is applying it once |
| Options.DisjointOptionsCommute | option.go:17-133 | options that assign disjoint fields commute |
| Options.ApplyAll | captcha.go:109-111 | the options applied in list order; stated by the three lemmas below |
| Options.ApplyAllAppend | captcha.go:109-111 | the options run in list order: appending an option runs it after all the others |
| Options.ApplyAllUntouched | captcha.go:109-111 | a field that no option names keeps its default |
| Options.ApplyAllLastWins | captcha.go:109-111 | the last option that names a field decides its value |
| Captcha.Defaults | captcha.go:86-107 | the field values of the literal `New` starts from; see `Captcha.Captcha.constructor` and `Captcha.DefaultsNeedFont` |
| Captcha.ConfigError.Message | captcha.go:116-146 | the error text of each case of the switch, verbatim |
| Captcha.Violates | captcha.go:115-146 | the test of each switch case on its own, stated by `Captcha.ValidateFirstFailure` and `Captcha.ValidatePassIff` |
| Captcha.Validate | captcha.go:113-147 | a reported failure is one whose test holds |
| Captcha.ValidateFirstFailure | captcha.go:113-147 | `New` reports case e exactly when e's test holds and no test earlier in the switch does |
| Captcha.ValidatePassIff | captcha.go:113-151 | the settings pass exactly when none of the eleven tests holds |
| Captcha.BadSizeWins | captcha.go:115-119 | a non-positive size is reported even when the character set is empty too |
| Captcha.DefaultsNeedFont | captcha.go:86-147 | the defaults fail on the missing font path, and that is the only test they fail |
| Captcha.DefaultsWithFontPass | captcha.go:86-147 | with just `WithFont(path, size)`, a non-empty path and a positive size, the defaults pass |
| Captcha.New | captcha.go:85-181 | an invalid configuration gives no object, the first failing case and that case's error text; a valid one gives a font-load failure or a fresh object whose fields are the defaults with the options applied in order |
| Captcha.Captcha.constructor | captcha.go:86-107 | the new object holds the default field values |
| Captcha.Captcha.Apply | captcha.go:109-111 | running an option's closure turns the fields into `Applied(old fields, option)` |
| Captcha.Captcha.SetSize | option.go:22-27 | the closure of `WithSize` sets width and height and nothing else |
| Captcha.Captcha.SetCharSet | option.go:32-36 | the closure of `WithCharSet` sets the character set and nothing else |
| Captcha.Captcha.SetLength | option.go:41-46 | the closure of `WithLength` sets both length bounds and nothing else |
| Captcha.Captcha.SetFont | option.go:51-56 | the closure of `WithFont` sets path and size and nothing else |
| Captcha.Captcha.SetBackground | option.go:61-65 | the closure of `WithBackground` sets the background and nothing else |
| Captcha.Captcha.SetForeground | option.go:70-74 | the closure of `WithForeground` sets the foreground and nothing else |
| Captcha.Captcha.SetSpacing | option.go:79-84 | the closure of `WithSpacing` sets both spacing bounds and nothing else |
| Captcha.Captcha.SetRotation | option.go:89-94 | the closure of `WithRotation` sets both rotation bounds and nothing else |
| Captcha.Captcha.SetScale | option.go:99-104 | the closure of `WithScale` sets both scale bounds and nothing else |
| Captcha.Captcha.SetDistortion | option.go:109-114 | the closure of `WithDistortion` sets both distortion bounds and nothing else |
| Captcha.Captcha.SetLines | option.go:119-124 | the closure of `WithLines` sets both line bounds and nothing else |
| Captcha.Captcha.SetNoise | option.go:129-133 | the closure of `WithNoise` sets the noise level and nothing else |
| Captcha.CodeLength | captcha.go:208-215 | the code length is minLength when the bounds are equal, and otherwise lies in [minLength, maxLength] |
| Captcha.CodeLengthRange | captcha.go:211-215 | every length from minLength to maxLength, both included, is reachable by some draw, and no other length is |
| Captcha.Captcha.RandomCode | captcha.go:207-218 | the code's length lies within the bounds, and byte i is `charSet[draws[i]]` |
| Captcha.CenterOffset | captcha.go:195 | `(outer - inner) / 2` truncated toward zero: twice the offset is within one of the difference, on the side of zero |
| Captcha.CenterOffsetBalanced | captcha.go:194-196 | when the string fits, the space left on the two sides differs by at most one |
| Captcha.DistortedPixel | captcha.go:391-400 | a destination pixel is either transparent or some in-bounds source pixel |
| Captcha.Captcha.DistortChar | captcha.go:369-405 | with both distortion bounds 0 the source itself is returned; otherwise a fresh canvas whose pixel (x, y) is the source shifted by the row's x offset and the column's y offset, or transparent outside |
| Captcha.DistortZeroShiftCopies | captcha.go:388-402 | zero offsets reproduce the source exactly |
| Captcha.Captcha.DrawNoise | captcha.go:407-430 | level 0 returns the source; otherwise a level above 1 is stored back as 1, and a fresh copy gets the foreground at exactly the drawn positions |
| Captcha.LineCount | captcha.go:434-445 | the count is minLines when the bounds are equal, and otherwise lies in [minLines, maxLines) |
| Captcha.LineCountRange | captcha.go:443-445 | every count from minLines to maxLines - 1 is reachable by some draw, and maxLines never is |
| Captcha.Captcha.DrawLines | captcha.go:432-460 | for lines whose points lie in the canvas: with both bounds 0 the source is returned; otherwise a fresh copy in which each pixel has the colour left by the last line covering it |
| Captcha.PixelAfter | captcha.go:450-457 | the colour of one pixel after the lines are drawn in order; stated by the four lemmas below |
| Captcha.PixelAfterUncovered | captcha.go:450-457 | a pixel that no line covers keeps its colour |
| Captcha.PixelAfterLastCover | captcha.go:450-457 | a covered pixel takes the jittered colour of the last line covering it |
| Captcha.PixelAfterChanged | captcha.go:450-457 | a pixel whose colour changed holds the colour of some line that covers it |
| Captcha.PixelAfterAppend | captcha.go:450-457 | drawing one more line repaints exactly the pixels it covers |
| Captcha.Captcha.DrawStraightLine | captcha.go:462-503 | with end points in the canvas, every pixel of the line's path lies in the canvas and gets one jittered foreground colour, and all other pixels are unchanged |
| Captcha.PlotLine | captcha.go:471-502 | the Bresenham loop sets exactly the in-canvas pixels of `LinePixels(l)` and leaves the rest unchanged |
| Lines.Step | captcha.go:493-501 | one iteration of the Bresenham loop on the pen (x, y, err); stated by `Lines.StepKeepsInv` |
| Lines.PenAfter | captcha.go:484-502 | the pen after n iterations; stated by `Lines.PenAfterInv` and `Lines.PenAfterAtEnd` |
| Lines.LinePixels | captcha.go:486-502 | the pixels the loop sets, in order; stated by `Lines.LineEndpoints`, `Lines.LineLength`, `Lines.LineSteps` and `Lines.LineInBox` |
| Lines.LoopBodyIsStep | captcha.go:493-501 | one pass of the loop body, testing `err2 = 2 * err` against -dy and then dx, performs one `Step` |
| Lines.StepKeepsInv | captcha.go:484-501 | one step keeps the error-term invariant, moves x by 0 or sx and y by 0 or sy, and shortens the major axis by exactly one |
| Lines.PenAfterInv | captcha.go:484-501 | after n <= max(dx, dy) iterations the invariant holds and max(dx, dy) - n pixels remain on the major axis |
| Lines.PenAfterAtEnd | captcha.go:489-491 | the loop reaches (x2, y2) at iteration max(dx, dy) and not before, so it terminates |
| Lines.PixelsBeforeIndex | captcha.go:486-502 | the k-th pixel set is where the pen is after k iterations |
| Lines.PenAfterPixel | captcha.go:486-502 | the line has max(dx, dy) + 1 pixels; pixel n is the pen after n iterations, and it is the end point exactly when n is the last |
| Lines.LineEndpoints | captcha.go:486-491 | the path starts at (x1, y1) and ends at (x2, y2) |
| Lines.LineLength | captcha.go:472-502 | the path has max(|x2 - x1|, |y2 - y1|) + 1 pixels, all different |
| Lines.LineSteps | captcha.go:493-501 | each step moves x by 0 or sx and y by 0 or sy, never both by 0 |
| Lines.LineInBox | captcha.go:472-502 | every pixel lies in the bounding box of the two end points |
| Lines.LineInCanvas | captcha.go:465-466 | end points drawn inside the canvas give a path inside the canvas |
| Lines.CurveSample | captcha.go:523-529 | one sample: two truncated interpolations along the chord and the leg, then a truncated interpolation between them; stated by `Lines.CurveStart` and `Lines.CurveInCanvas` |
| Lines.CurvePoints | captcha.go:521-534 | a curve has 120 samples |
| Lines.CurveStart | captcha.go:522-529 | sample 0 is the first end point; this also holds in float64, since t = 0 is exact |
| Lines.TruncLerpBetween | captcha.go:524-529 | a truncated interpolant of two non-negative integers lies between them |
| Lines.CurveInCanvas | captcha.go:507-532 | with all three points inside the canvas every sample is inside, so the bounds test never rejects a sample; this also holds in float64, since rounding is monotone |
| Lines.CurveAtMostSteps | captcha.go:521-534 | a curve covers at most 120 distinct pixels |
| Captcha.Captcha.DrawCurveLine | captcha.go:505-535 | with the three points in the canvas, every sample lies in the canvas and gets one jittered foreground colour, and all other pixels are unchanged (exact arithmetic) |

## Left out

- Font loading (captcha.go:153-178): reading, parsing and opening the font is the boolean parameter `fontLoads` of `New`. The `fontFace` field is not modelled.
- `drawString` and `drawChar` (captcha.go:220-299): glyph rendering goes through the opentype library, which is not part of this model.
- `rotateChar` and `scaleChar` (captcha.go:301-367): the affine transform and Catmull-Rom resampling are library calls on floating point.
- `Generate` (captcha.go:184-205): only the centring offset (`Captcha.CenterOffset`) is modelled. The background fill and the `draw.Over` compositing of the string image are not, because that image comes from `drawString`.
- `Captcha.Captcha.DistortChar`: takes the truncated offsets `int(amplitude * sin(...))` per row and `int(amplitude * cos(...))` per column as inputs. The amplitude draw and the trigonometry are not modelled.
- `Captcha.Captcha.DrawNoise`: takes the drawn positions as a list. It does not model that their number is `int(w * h * level)`, because that needs float64 multiplication.
- `Captcha.Captcha.DrawLines`: the coin flip `rand.Float64() < 0.5` is given as the kind of each line.
- Floating point: `float64` values are `real`. NaN, infinities and rounding are not modelled, so the curve samples are exact interpolations truncated toward zero.
- Options are limited to the twelve `With*` constructors. Go's `Option` is any `func(*Captcha)`: a nil option, which panics at `opt(c)` (captcha.go:110), and hand-written closures, which may change any field or replace `*c` whole, are not modelled.
- `Utils.Abs`: does not model the overflow of `abs` on the most negative 64-bit integer, because unbounded integers have no such value.
- 64-bit `int` overflow is not modelled anywhere, because integers are unbounded. For example, `WithLength(0, math.MaxInt)` passes validation, and then `rand.IntN(maxLength - minLength + 1)` wraps to a negative argument and panics. `Captcha.CodeLength` and `Captcha.CodeLengthRange` instead describe a length in [0, MaxInt]; `Captcha.LineCount` likewise assumes `maxLines - minLines` does not overflow.
- `Captcha.Captcha.DrawCurveLine`: the samples (`Lines.CurveSample`, `Lines.CurvePoints`) use exact interpolation, so they can differ by one pixel from float64. For example, `lerp(0, 75, 88/120.0)` is 54.99999999999999 in float64, so Go paints x = 54 where the model names x = 55. `Lines.CurveStart` and `Lines.CurveInCanvas` still hold in float64, because t = 0 is exact and rounding is monotone.
- `color.Color` values other than `color.RGBA`: the foreground and background are RGBA values. The conversion through `RGBA()` with its 16-bit channels is the identity on them.

## Findings

| source | as written | input that shows it | evidently intended | confidence | as-written member | corrected member |
|---|---|---|---|---|---|---|
| utils.go:43 | `image.Rect(minX, minY, maxX, maxY)` uses the inclusive maxima as the exclusive bounds of a half-open rectangle | a 3 x 3 canvas whose only opaque pixel is (1, 1) gives Rect(1, 1, 1, 1), which is empty and excludes that pixel | when an opaque pixel was found, `image.Rect(minX, minY, maxX + 1, maxY + 1)`, a box that contains every opaque pixel; a fully transparent canvas keeps the whole-canvas box | not executed | Utils.PixelBounds, Utils.SingleOpaquePixelExample | Utils.OpaqueBounds |
