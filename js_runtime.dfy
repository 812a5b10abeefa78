/**
 * The few pieces of the JavaScript runtime the application relies on:
 * numbers that may be NaN or infinite, strict equality on them,
 * `String.prototype.trim`, and the `Number(...)` / `String(...)`
 * conversions, which stay abstract (a parameter record) because their
 * decimal formatting is foreign to the model.
 */
module JsRuntime {

  datatype Option<T> = None | Some(value: T)

  /** A JavaScript number: a finite value, NaN, or one of the two infinities. */
  datatype JsNumber = Finite(value: real) | NaN | Infinity(negative: bool)

  /** `x === y` on numbers: NaN is equal to nothing, not even itself. */
  predicate StrictEquals(x: JsNumber, y: JsNumber)
  {
    !x.NaN? && !y.NaN? && x == y
  }

  lemma StrictEqualsIsEqualityWithoutNaN(x: JsNumber, y: JsNumber)
    ensures StrictEquals(x, y) <==> x == y && !x.NaN?
  {
  }

  /** The characters `trim` removes: ECMAScript WhiteSpace and LineTerminator. */
  predicate IsWhitespace(c: char)
  {
    || ('\U{9}' <= c <= '\U{D}')            // tab, line feed, vertical tab, form feed, carriage return
    || c == ' ' || c == '\U{A0}' || c == '\U{1680}'
    || ('\U{2000}' <= c <= '\U{200A}')      // en quad .. hair space
    || c == '\U{2028}' || c == '\U{2029}'   // line and paragraph separators
    || c == '\U{202F}' || c == '\U{205F}' || c == '\U{3000}' || c == '\U{FEFF}'
  }

  function TrimStart(s: string): (r: string)
    ensures |r| <= |s| && r == s[|s| - |r|..]
    ensures r == [] || !IsWhitespace(r[0])
    ensures forall i :: 0 <= i < |s| - |r| ==> IsWhitespace(s[i])
  {
    if s != [] && IsWhitespace(s[0]) then TrimStart(s[1..]) else s
  }

  function TrimEnd(s: string): (r: string)
    ensures |r| <= |s| && r == s[..|r|]
    ensures r == [] || !IsWhitespace(r[|r| - 1])
    ensures forall i :: |r| <= i < |s| ==> IsWhitespace(s[i])
  {
    if s != [] && IsWhitespace(s[|s| - 1]) then TrimEnd(s[..|s| - 1]) else s
  }

  /** `s.trim()`: the longest middle part of `s` with no whitespace at either end. */
  function Trim(s: string): (r: string)
    ensures |r| <= |s|
    ensures r == [] || (!IsWhitespace(r[0]) && !IsWhitespace(r[|r| - 1]))
    ensures exists k :: TrimmedAt(s, r, k)
  {
    var t := TrimStart(s);
    var r := TrimEnd(t);
    var k := |s| - |t|;
    assert TrimmedAt(s, r, k);
    r
  }

  /** `r` is the part of `s` starting at index `k`, and everything around it is white space. */
  predicate TrimmedAt(s: string, r: string, k: int)
  {
    && 0 <= k <= |s| - |r|
    && r == s[k..k + |r|]
    && (forall i :: 0 <= i < k ==> IsWhitespace(s[i]))
    && (forall i :: k + |r| <= i < |s| ==> IsWhitespace(s[i]))
  }

  lemma {:induction false} TrimStartOfUntrimmed(s: string)
    requires s == [] || !IsWhitespace(s[0])
    ensures TrimStart(s) == s
  {
  }

  lemma {:induction false} TrimEndOfUntrimmed(s: string)
    requires s == [] || !IsWhitespace(s[|s| - 1])
    ensures TrimEnd(s) == s
  {
  }

  /** A string with no whitespace at either end is its own trim. */
  lemma TrimOfTrimmed(s: string)
    requires s == [] || (!IsWhitespace(s[0]) && !IsWhitespace(s[|s| - 1]))
    ensures Trim(s) == s
  {
    TrimStartOfUntrimmed(s);
    TrimEndOfUntrimmed(s);
  }

  /** Trimming twice is trimming once. */
  lemma TrimIdempotent(s: string)
    ensures Trim(Trim(s)) == Trim(s)
  {
    TrimOfTrimmed(Trim(s));
  }

  /** A string trims to nothing exactly when every character is whitespace. */
  lemma TrimEmptyIffAllWhitespace(s: string)
    ensures Trim(s) == [] <==> forall i :: 0 <= i < |s| ==> IsWhitespace(s[i])
  {
    if Trim(s) == [] {
      assert TrimStart(s) == [];
    }
  }

  /**
   * The foreign conversions: `parse` is `Number(text)`, `format` is
   * `String(x)` on a finite number.
   */
  datatype NumberConversion = NumberConversion(parse: string -> JsNumber, format: real -> string)

  /** `String(n)` on any JavaScript number. */
  function NumberToString(n: JsNumber, conv: NumberConversion): string
  {
    match n
    case Finite(x) => conv.format(x)
    case NaN => "NaN"
    case Infinity(negative) => if negative then "-Infinity" else "Infinity"
  }

  /**
   * What the model takes for granted about `String(n)` and `Number(...)` for
   * one number `n`: a finite number prints as a non-blank text without
   * surrounding white space that reads back as the same number, and the
   * text of NaN or of an infinity reads back as a non-finite number.
   * JavaScript meets this for every number it holds (every double).
   */
  predicate ReadsBack(conv: NumberConversion, n: JsNumber)
  {
    match n
    case Finite(x) =>
      conv.format(x) != [] && Trim(conv.format(x)) == conv.format(x) && conv.parse(conv.format(x)) == n
    case NaN => !conv.parse("NaN").Finite?
    case Infinity(negative) => !conv.parse(if negative then "-Infinity" else "Infinity").Finite?
  }

  /** When `n` reads back, `Number(String(n))` is `n` if `n` is finite and non-finite otherwise. */
  lemma NumberStringRoundTrip(n: JsNumber, conv: NumberConversion)
    requires ReadsBack(conv, n)
    ensures var t := NumberToString(n, conv);
            Trim(t) == t && t != [] && (conv.parse(t).Finite? <==> n.Finite?)
    ensures n.Finite? ==> conv.parse(NumberToString(n, conv)) == n
  {
    match n
    case Finite(x) =>
    case NaN =>
      NonFiniteTextIsTrimmed("NaN");
    case Infinity(negative) =>
      NonFiniteTextIsTrimmed("Infinity");
      NonFiniteTextIsTrimmed("-Infinity");
  }

  /** The hypothesis can be met: for any real, some conversion reads it back. */
  lemma SomeConversionReadsBack(x: real) returns (conv: NumberConversion)
    ensures ReadsBack(conv, Finite(x))
  {
    conv := NumberConversion((t: string) => if t == "1" then Finite(x) else NaN, (y: real) => "1");
    assert !IsWhitespace("1"[0]);
    TrimOfTrimmed("1");
  }

  lemma NonFiniteTextIsTrimmed(t: string)
    requires t == "NaN" || t == "Infinity" || t == "-Infinity"
    ensures Trim(t) == t
  {
    assert !IsWhitespace(t[0]) && !IsWhitespace(t[|t| - 1]);
    TrimOfTrimmed(t);
  }
}
