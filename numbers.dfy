/** Operators, their display glyphs, and the arithmetic the calculator applies.
    The source's `f64` values are modelled as exact `real`s; the text form of a
    number (Rust's `f64` parsing and `Display`) is a parameter, `Numerals`. */
module Numbers {

  datatype Option<+T> = None | Some(value: T) {
    /** Rust's `unwrap_or`. */
    function GetOr(default: T): (r: T)
      ensures Some? ==> r == value
      ensures None? ==> r == default
    {
      match this
      case Some(v) => v
      case None => default
    }
  }

  /** The four operators of the calculator (`Op` in src/calc.rs). */
  datatype Op = Add | Sub | Mul | Div

  const PlusGlyph: string := "+"
  const MinusGlyph: string := "\U{2212}"   // U+2212 MINUS SIGN
  const TimesGlyph: string := "x"
  const DivideGlyph: string := "\U{00F7}"  // U+00F7 DIVISION SIGN

  /** The operator buttons the dispatcher routes to set-operation. */
  predicate IsOpGlyph(g: string) {
    g == PlusGlyph || g == MinusGlyph || g == TimesGlyph || g == DivideGlyph
  }

  /** The display glyph of each operator, as used in the history text. */
  function Glyph(o: Op): (g: string)
    ensures IsOpGlyph(g)
  {
    match o
    case Add => PlusGlyph
    case Sub => MinusGlyph
    case Mul => TimesGlyph
    case Div => DivideGlyph
  }

  /** `parse_op`: the source panics on any other text, so callers must pass
      one of the four glyphs. The result is the operator whose glyph it is. */
  function ParseOp(g: string): (o: Op)
    requires IsOpGlyph(g)
    ensures Glyph(o) == g
  {
    if g == PlusGlyph then Add
    else if g == MinusGlyph then Sub
    else if g == TimesGlyph then Mul
    else Div
  }

  /** The history's glyph of an operator names that operator again. */
  lemma GlyphRoundTrip(o: Op)
    ensures IsOpGlyph(Glyph(o)) && ParseOp(Glyph(o)) == o
  {
  }

  /** Division is the only operator that can fail, and only on a zero divisor. */
  predicate Defined(o: Op, b: real) {
    o != Div || b != 0.0
  }

  /** The arithmetic `match` of `calculate_internal`. */
  function Apply(o: Op, a: real, b: real): (r: real)
    requires Defined(o, b)
    ensures o == Add ==> r - b == a
    ensures o == Sub ==> r + b == a
    ensures o == Mul ==> r == a * b
    ensures o == Div ==> r * b == a
  {
    match o
    case Add => a + b
    case Sub => a - b
    case Mul => a * b
    case Div => a / b
  }

  /** The text form of numbers: `parse` is `str::parse::<f64>` (None on a
      malformed numeral), `render` is `f64::to_string` (also what `format!`'s
      `{}` prints). */
  datatype Numerals = Numerals(parse: string -> Option<real>, render: real -> string)

  /** `text.parse().unwrap_or(0.0)`: a malformed numeral reads as zero. */
  function ParseOr0(num: Numerals, text: string): (r: real)
    ensures num.parse(text).None? ==> r == 0.0
    ensures num.parse(text).Some? ==> r == num.parse(text).value
  {
    num.parse(text).GetOr(0.0)
  }

  /** Number of decimal points in a numeral. */
  function DotCount(s: string): (n: nat)
    ensures n <= |s|
  {
    if s == [] then 0 else DotCount(s[..|s| - 1]) + (if s[|s| - 1] == '.' then 1 else 0)
  }

  /** A numeral has no decimal point exactly when its count is zero. */
  lemma {:induction false} DotCountZero(s: string)
    ensures DotCount(s) == 0 <==> '.' !in s
  {
    if s != [] {
      var init := s[..|s| - 1];
      DotCountZero(init);
      assert s == init + [s[|s| - 1]];
      assert '.' in s <==> '.' in init || s[|s| - 1] == '.';
    }
  }

  lemma {:induction false} DotCountConcat(a: string, b: string)
    ensures DotCount(a + b) == DotCount(a) + DotCount(b)
    decreases |b|
  {
    if b == [] {
      assert a + b == a;
    } else {
      var ab := a + b;
      assert ab[..|ab| - 1] == a + b[..|b| - 1] && ab[|ab| - 1] == b[|b| - 1];
      DotCountConcat(a, b[..|b| - 1]);
    }
  }

  /** Facts about Rust's `f64` `Display` that the model's invariants rely on. */
  ghost predicate RenderNonEmpty(num: Numerals) {
    forall x :: |num.render(x)| > 0
  }

  ghost predicate RenderAtMostOneDot(num: Numerals) {
    forall x :: DotCount(num.render(x)) <= 1
  }

  /** `x`'s text reads back as `x`. Rust's `f64` `Display` promises this for
      every `f64`, but not every `real` is an `f64`, so the model asks it of
      the particular values a property re-reads. */
  ghost predicate RoundTripsAt(num: Numerals, x: real) {
    num.parse(num.render(x)) == Some(x)
  }

  lemma ParseRenderOr0(num: Numerals, x: real)
    requires RoundTripsAt(num, x)
    ensures ParseOr0(num, num.render(x)) == x
  {
  }
}
