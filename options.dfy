/**
 * option.go: the predefined character sets and the `With*` options. An option is a
 * closure that assigns some fields of a `*Captcha`; here it is a datatype, and
 * `Applied` gives the values of the fields after the closure ran.
 */
module Options {
  import opened Raster

  /** A Go string, as its bytes. */
  type GoString = seq<Byte>

  /** `CharSet` is a Go string whose bytes are the characters a code is drawn from. */
  type CharSet = GoString

  /** The bytes of an ASCII literal. */
  function Ascii(s: string): (r: GoString)
    requires forall i | 0 <= i < |s| :: s[i] as int < 128
    ensures |r| == |s|
    ensures forall i | 0 <= i < |s| :: r[i] == s[i] as int
  {
    seq(|s|, i requires 0 <= i < |s| => s[i] as int)
  }

  const Lowercase: CharSet := Ascii("abcdefghijklmnopqrstuvwxyz")
  const Uppercase: CharSet := Ascii("ABCDEFGHIJKLMNOPQRSTUVWXYZ")
  const Alphabetic: CharSet := Lowercase + Uppercase
  const Numeric: CharSet := Ascii("0123456789")
  const Hex: CharSet := Numeric + Ascii("abcdef")
  const LowerNumeric: CharSet := Lowercase + Numeric
  const UpperNumeric: CharSet := Uppercase + Numeric
  const AlphaNumeric: CharSet := Alphabetic + Numeric
  /** The literal "ABCDEFGHKLMNPQRSTUVWXYZabcdefghkmnpqsuvwxyz23456789", in three runs. */
  const AlphaNumericWithoutConfusion: CharSet :=
    Ascii("ABCDEFGHKLMNPQRSTUVWXYZ") + Ascii("abcdefghkmnpqsuvwxyz") + Ascii("23456789")

  /** No byte occurs twice. */
  predicate Distinct(s: seq<Byte>) {
    forall i, j | 0 <= i < j < |s| :: s[i] != s[j]
  }

  predicate Increasing(s: seq<Byte>) {
    forall i | 0 <= i < |s| - 1 :: s[i] < s[i + 1]
  }

  /** A run of bytes that goes up one step at a time is strictly ordered throughout. */
  lemma {:induction false} IncreasingOrdered(s: seq<Byte>, i: int, j: int)
    requires Increasing(s)
    requires 0 <= i < j < |s|
    ensures s[i] < s[j]
    decreases j - i
  {
    if i + 1 < j {
      IncreasingOrdered(s, i + 1, j);
    }
  }

  lemma IncreasingDistinct(s: seq<Byte>)
    requires Increasing(s)
    ensures Distinct(s)
  {
    forall i, j | 0 <= i < j < |s| ensures s[i] != s[j] {
      IncreasingOrdered(s, i, j);
    }
  }

  /** Three strictly increasing runs whose bytes lie in three disjoint ranges have no repeat. */
  lemma RunsDistinct(a: seq<Byte>, b: seq<Byte>, c: seq<Byte>, aLo: int, aHi: int, bLo: int, bHi: int, cLo: int, cHi: int)
    requires Increasing(a) && Increasing(b) && Increasing(c)
    requires forall i | 0 <= i < |a| :: aLo <= a[i] <= aHi
    requires forall i | 0 <= i < |b| :: bLo <= b[i] <= bHi
    requires forall i | 0 <= i < |c| :: cLo <= c[i] <= cHi
    requires cHi < aLo <= aHi < bLo
    ensures Distinct(a + b + c)
  {
    IncreasingDistinct(a);
    IncreasingDistinct(b);
    IncreasingDistinct(c);
    var s := a + b + c;
    forall i, j | 0 <= i < j < |s| ensures s[i] != s[j] {
      if j < |a| {
        assert s[i] == a[i] && s[j] == a[j];
      } else if j < |a| + |b| {
        assert s[j] == b[j - |a|];
        if i >= |a| {
          assert s[i] == b[i - |a|];
        } else {
          assert s[i] == a[i];
        }
      } else {
        assert s[j] == c[j - |a| - |b|];
        if i >= |a| + |b| {
          assert s[i] == c[i - |a| - |b|];
        } else if i >= |a| {
          assert s[i] == b[i - |a|];
        } else {
          assert s[i] == a[i];
        }
      }
    }
  }

  lemma CharSetLengths()
    ensures |Alphabetic| == 52 && |AlphaNumeric| == 62 && |Hex| == 16
    ensures |LowerNumeric| == 36 && |UpperNumeric| == 36 && |AlphaNumericWithoutConfusion| == 51
  {
  }

  /** No byte of `s` is one of the look-alikes '0', '1', 'O', 'I' and 'l'. */
  predicate Unambiguous(s: seq<Byte>) {
    forall i | 0 <= i < |s| :: s[i] !in Ascii("01OIl")
  }

  /** A run of bytes, strictly increasing and within [lo, hi]. */
  predicate OrderedRun(s: seq<Byte>, lo: int, hi: int) {
    Increasing(s) && forall i | 0 <= i < |s| :: lo <= s[i] <= hi
  }

  lemma UpperOrdered()
    ensures OrderedRun(Ascii("ABCDEFGHKLMNPQRSTUVWXYZ"), 'A' as int, 'Z' as int)
  {
  }

  lemma UpperUnambiguous()
    ensures Unambiguous(Ascii("ABCDEFGHKLMNPQRSTUVWXYZ"))
  {
  }

  lemma LowerOrdered()
    ensures OrderedRun(Ascii("abcdefghkmnpqsuvwxyz"), 'a' as int, 'z' as int)
  {
  }

  lemma LowerUnambiguous()
    ensures Unambiguous(Ascii("abcdefghkmnpqsuvwxyz"))
  {
  }

  lemma DigitRun()
    ensures OrderedRun(Ascii("23456789"), '2' as int, '9' as int)
    ensures Unambiguous(Ascii("23456789"))
  {
  }

  lemma UnambiguousConcat(a: seq<Byte>, b: seq<Byte>)
    requires Unambiguous(a) && Unambiguous(b)
    ensures Unambiguous(a + b)
  {
  }

  /**
   * The default set leaves out the look-alikes '0', '1', 'O', 'I' and 'l' and repeats no
   * character, so every character it holds is drawn with the same chance.
   */
  lemma WithoutConfusionIsUnambiguous()
    ensures Unambiguous(AlphaNumericWithoutConfusion)
    ensures Distinct(AlphaNumericWithoutConfusion)
  {
    var upper, lower, digits := Ascii("ABCDEFGHKLMNPQRSTUVWXYZ"), Ascii("abcdefghkmnpqsuvwxyz"), Ascii("23456789");
    UpperOrdered();
    UpperUnambiguous();
    LowerOrdered();
    LowerUnambiguous();
    DigitRun();
    RunsDistinct(upper, lower, digits, 'A' as int, 'Z' as int, 'a' as int, 'z' as int, '2' as int, '9' as int);
    UnambiguousConcat(upper, lower);
    UnambiguousConcat(upper + lower, digits);
  }

  /** The value of every field of a `Captcha` except the font face. */
  datatype Settings = Settings(
    width: int, height: int,
    charSet: CharSet,
    minLength: int, maxLength: int,
    fontPath: GoString, fontSize: real,
    foreground: Rgba, background: Rgba,
    minSpacing: real, maxSpacing: real,
    minRotation: real, maxRotation: real,
    minScale: real, maxScale: real,
    minDistortion: real, maxDistortion: real,
    minLines: int, maxLines: int,
    noiseLevel: real)

  /** The names of those fields. */
  datatype Field =
    | Width | Height | CharSetField | MinLength | MaxLength | FontPath | FontSize
    | Foreground | Background | MinSpacing | MaxSpacing | MinRotation | MaxRotation
    | MinScale | MaxScale | MinDistortion | MaxDistortion | MinLines | MaxLines | NoiseLevel

  /** The value held by one field. */
  datatype Value = IntValue(i: int) | RealValue(x: real) | BytesValue(s: GoString) | ColorValue(c: Rgba)

  function Get(s: Settings, f: Field): Value {
    match f
    case Width => IntValue(s.width)
    case Height => IntValue(s.height)
    case CharSetField => BytesValue(s.charSet)
    case MinLength => IntValue(s.minLength)
    case MaxLength => IntValue(s.maxLength)
    case FontPath => BytesValue(s.fontPath)
    case FontSize => RealValue(s.fontSize)
    case Foreground => ColorValue(s.foreground)
    case Background => ColorValue(s.background)
    case MinSpacing => RealValue(s.minSpacing)
    case MaxSpacing => RealValue(s.maxSpacing)
    case MinRotation => RealValue(s.minRotation)
    case MaxRotation => RealValue(s.maxRotation)
    case MinScale => RealValue(s.minScale)
    case MaxScale => RealValue(s.maxScale)
    case MinDistortion => RealValue(s.minDistortion)
    case MaxDistortion => RealValue(s.maxDistortion)
    case MinLines => IntValue(s.minLines)
    case MaxLines => IntValue(s.maxLines)
    case NoiseLevel => RealValue(s.noiseLevel)
  }

  /** Settings that agree on every field are the same settings. */
  lemma SettingsExtensional(s: Settings, t: Settings)
    requires forall f :: Get(s, f) == Get(t, f)
    ensures s == t
  {
    SameFirstFields(s, t);
    SameLastFields(s, t);
  }

  lemma SameFirstFields(s: Settings, t: Settings)
    requires forall f :: Get(s, f) == Get(t, f)
    ensures s.width == t.width && s.height == t.height && s.charSet == t.charSet && s.minLength == t.minLength && s.maxLength == t.maxLength && s.fontPath == t.fontPath && s.fontSize == t.fontSize && s.foreground == t.foreground && s.background == t.background && s.minSpacing == t.minSpacing
  {
    assert s.width == t.width by { assert Get(s, Width) == Get(t, Width); }
    assert s.height == t.height by { assert Get(s, Height) == Get(t, Height); }
    assert s.charSet == t.charSet by { assert Get(s, CharSetField) == Get(t, CharSetField); }
    assert s.minLength == t.minLength by { assert Get(s, MinLength) == Get(t, MinLength); }
    assert s.maxLength == t.maxLength by { assert Get(s, MaxLength) == Get(t, MaxLength); }
    assert s.fontPath == t.fontPath by { assert Get(s, FontPath) == Get(t, FontPath); }
    assert s.fontSize == t.fontSize by { assert Get(s, FontSize) == Get(t, FontSize); }
    assert s.foreground == t.foreground by { assert Get(s, Foreground) == Get(t, Foreground); }
    assert s.background == t.background by { assert Get(s, Background) == Get(t, Background); }
    assert s.minSpacing == t.minSpacing by { assert Get(s, MinSpacing) == Get(t, MinSpacing); }
  }

  lemma SameLastFields(s: Settings, t: Settings)
    requires forall f :: Get(s, f) == Get(t, f)
    ensures s.maxSpacing == t.maxSpacing && s.minRotation == t.minRotation && s.maxRotation == t.maxRotation && s.minScale == t.minScale && s.maxScale == t.maxScale && s.minDistortion == t.minDistortion && s.maxDistortion == t.maxDistortion && s.minLines == t.minLines && s.maxLines == t.maxLines && s.noiseLevel == t.noiseLevel
  {
    assert s.maxSpacing == t.maxSpacing by { assert Get(s, MaxSpacing) == Get(t, MaxSpacing); }
    assert s.minRotation == t.minRotation by { assert Get(s, MinRotation) == Get(t, MinRotation); }
    assert s.maxRotation == t.maxRotation by { assert Get(s, MaxRotation) == Get(t, MaxRotation); }
    assert s.minScale == t.minScale by { assert Get(s, MinScale) == Get(t, MinScale); }
    assert s.maxScale == t.maxScale by { assert Get(s, MaxScale) == Get(t, MaxScale); }
    assert s.minDistortion == t.minDistortion by { assert Get(s, MinDistortion) == Get(t, MinDistortion); }
    assert s.maxDistortion == t.maxDistortion by { assert Get(s, MaxDistortion) == Get(t, MaxDistortion); }
    assert s.minLines == t.minLines by { assert Get(s, MinLines) == Get(t, MinLines); }
    assert s.maxLines == t.maxLines by { assert Get(s, MaxLines) == Get(t, MaxLines); }
    assert s.noiseLevel == t.noiseLevel by { assert Get(s, NoiseLevel) == Get(t, NoiseLevel); }
  }

  /** An `Option`: which `With*` constructor made it, with the arguments it captured. */
  datatype Option =
    | WithSize(width: int, height: int)
    | WithCharSet(charSet: CharSet)
    | WithLength(minLength: int, maxLength: int)
    | WithFont(path: GoString, size: real)
    | WithBackground(background: Rgba)
    | WithForeground(foreground: Rgba)
    | WithSpacing(minSpacing: real, maxSpacing: real)
    | WithRotation(minRotation: real, maxRotation: real)
    | WithScale(minScale: real, maxScale: real)
    | WithDistortion(minDistortion: real, maxDistortion: real)
    | WithLines(minLines: int, maxLines: int)
    | WithNoise(level: real)

  /** Whether an option assigns field `f`. */
  predicate Assigns(o: Option, f: Field) {
    match o
    case WithSize(_, _) => f == Width || f == Height
    case WithCharSet(_) => f == CharSetField
    case WithLength(_, _) => f == MinLength || f == MaxLength
    case WithFont(_, _) => f == FontPath || f == FontSize
    case WithBackground(_) => f == Background
    case WithForeground(_) => f == Foreground
    case WithSpacing(_, _) => f == MinSpacing || f == MaxSpacing
    case WithRotation(_, _) => f == MinRotation || f == MaxRotation
    case WithScale(_, _) => f == MinScale || f == MaxScale
    case WithDistortion(_, _) => f == MinDistortion || f == MaxDistortion
    case WithLines(_, _) => f == MinLines || f == MaxLines
    case WithNoise(_) => f == NoiseLevel
  }

  /** The argument an option stores into one of its fields, exactly as it was passed. */
  function Arg(o: Option, f: Field): Value
    requires Assigns(o, f)
  {
    match o
    case WithSize(w, h) => IntValue(if f == Width then w else h)
    case WithCharSet(cs) => BytesValue(cs)
    case WithLength(lo, hi) => IntValue(if f == MinLength then lo else hi)
    case WithFont(p, sz) => if f == FontPath then BytesValue(p) else RealValue(sz)
    case WithBackground(c) => ColorValue(c)
    case WithForeground(c) => ColorValue(c)
    case WithSpacing(lo, hi) => RealValue(if f == MinSpacing then lo else hi)
    case WithRotation(lo, hi) => RealValue(if f == MinRotation then lo else hi)
    case WithScale(lo, hi) => RealValue(if f == MinScale then lo else hi)
    case WithDistortion(lo, hi) => RealValue(if f == MinDistortion then lo else hi)
    case WithLines(lo, hi) => IntValue(if f == MinLines then lo else hi)
    case WithNoise(l) => RealValue(l)
  }

  /** The fields of a `Captcha` after the option's closure has run on it. */
  function Applied(s: Settings, o: Option): Settings {
    match o
    case WithSize(w, h) => s.(width := w, height := h)
    case WithCharSet(cs) => s.(charSet := cs)
    case WithLength(lo, hi) => s.(minLength := lo, maxLength := hi)
    case WithFont(p, sz) => s.(fontPath := p, fontSize := sz)
    case WithBackground(c) => s.(background := c)
    case WithForeground(c) => s.(foreground := c)
    case WithSpacing(lo, hi) => s.(minSpacing := lo, maxSpacing := hi)
    case WithRotation(lo, hi) => s.(minRotation := lo, maxRotation := hi)
    case WithScale(lo, hi) => s.(minScale := lo, maxScale := hi)
    case WithDistortion(lo, hi) => s.(minDistortion := lo, maxDistortion := hi)
    case WithLines(lo, hi) => s.(minLines := lo, maxLines := hi)
    case WithNoise(l) => s.(noiseLevel := l)
  }

  /**
   * Each option stores its arguments verbatim into exactly the fields it names (a range
   * option neither reorders nor checks its bounds) and leaves every other field alone.
   */
  lemma AppliedAssignsExactly(s: Settings, o: Option, f: Field)
    ensures Get(Applied(s, o), f) == if Assigns(o, f) then Arg(o, f) else Get(s, f)
  {
  }

  /** A later option overrides an earlier one that assigns no field the later one does not. */
  lemma LaterOptionWins(s: Settings, first: Option, second: Option)
    requires forall f :: Assigns(first, f) ==> Assigns(second, f)
    ensures Applied(Applied(s, first), second) == Applied(s, second)
  {
    forall f ensures Get(Applied(Applied(s, first), second), f) == Get(Applied(s, second), f) {
      AppliedAssignsExactly(s, first, f);
      AppliedAssignsExactly(s, second, f);
      AppliedAssignsExactly(Applied(s, first), second, f);
    }
    SettingsExtensional(Applied(Applied(s, first), second), Applied(s, second));
  }

  /** Applying the same option twice has the effect of applying it once. */
  lemma AppliedIdempotent(s: Settings, o: Option)
    ensures Applied(Applied(s, o), o) == Applied(s, o)
  {
    LaterOptionWins(s, o, o);
  }

  /** Options assigning disjoint fields may be applied in either order. */
  lemma DisjointOptionsCommute(s: Settings, o1: Option, o2: Option)
    requires forall f :: !(Assigns(o1, f) && Assigns(o2, f))
    ensures Applied(Applied(s, o1), o2) == Applied(Applied(s, o2), o1)
  {
    forall f ensures Get(Applied(Applied(s, o1), o2), f) == Get(Applied(Applied(s, o2), o1), f) {
      AppliedAssignsExactly(s, o1, f);
      AppliedAssignsExactly(s, o2, f);
      AppliedAssignsExactly(Applied(s, o1), o2, f);
      AppliedAssignsExactly(Applied(s, o2), o1, f);
    }
    SettingsExtensional(Applied(Applied(s, o1), o2), Applied(Applied(s, o2), o1));
  }

  /** `for _, opt := range opts { opt(c) }`: the options in the order given. */
  function ApplyAll(s: Settings, opts: seq<Option>): Settings
    decreases |opts|
  {
    if opts == [] then s else ApplyAll(Applied(s, opts[0]), opts[1..])
  }

  /** Appending an option runs its closure after all the earlier ones. */
  lemma {:induction false} ApplyAllAppend(s: Settings, opts: seq<Option>, o: Option)
    ensures ApplyAll(s, opts + [o]) == Applied(ApplyAll(s, opts), o)
    decreases |opts|
  {
    if opts != [] {
      assert (opts + [o])[1..] == opts[1..] + [o];
      ApplyAllAppend(Applied(s, opts[0]), opts[1..], o);
    }
  }

  /** A field that no option in the list names keeps its value. */
  lemma {:induction false} ApplyAllUntouched(s: Settings, opts: seq<Option>, f: Field)
    requires forall k | 0 <= k < |opts| :: !Assigns(opts[k], f)
    ensures Get(ApplyAll(s, opts), f) == Get(s, f)
    decreases |opts|
  {
    if opts != [] {
      AppliedAssignsExactly(s, opts[0], f);
      ApplyAllUntouched(Applied(s, opts[0]), opts[1..], f);
    }
  }

  /** The last option in the list that names a field decides its value. */
  lemma {:induction false} ApplyAllLastWins(s: Settings, opts: seq<Option>, k: int, f: Field)
    requires 0 <= k < |opts| && Assigns(opts[k], f)
    requires forall m | k < m < |opts| :: !Assigns(opts[m], f)
    ensures Get(ApplyAll(s, opts), f) == Arg(opts[k], f)
    decreases |opts|
  {
    if k == 0 {
      AppliedAssignsExactly(s, opts[0], f);
      ApplyAllUntouched(Applied(s, opts[0]), opts[1..], f);
    } else {
      ApplyAllLastWins(Applied(s, opts[0]), opts[1..], k - 1, f);
    }
  }
}
