/**
 * The input record shared by the calculation, the query-string codec, the
 * history panel and the input state: the twelve fields that the engine and
 * the codec read.
 */
module Types {
  import opened JsRuntime

  /** The fairness policy selected in the form (the engine itself has no branch on it). */
  datatype Mode = Proportional | EqualLeftover

  /**
   * Partner names may be absent in records saved by older versions, hence
   * `Option`; every numeric field is whatever JavaScript number the caller holds.
   */
  datatype Inputs = Inputs(
    partnerAName: Option<string>,
    partnerBName: Option<string>,
    a1: JsNumber,       // net income of partner A
    a2: JsNumber,       // gross meal vouchers of partner A
    b2: JsNumber,       // gross meal vouchers of partner B
    trPct: JsNumber,    // percentage of the vouchers actually spent
    b: JsNumber,        // net income of partner B
    m: JsNumber,        // shared budget that must be paid in cash
    advanced: bool,     // cap the vouchers by the eligible expenses E
    E: JsNumber,        // monthly expenses payable with vouchers
    biasPts: JsNumber,  // signed bias in percentage points
    mode: Mode)

  /** True when some numeric field holds NaN, the one value `===` never matches. */
  predicate HasNaN(i: Inputs)
  {
    i.a1.NaN? || i.a2.NaN? || i.b2.NaN? || i.trPct.NaN? || i.b.NaN?
    || i.m.NaN? || i.E.NaN? || i.biasPts.NaN?
  }

  const PlaceholderA: string := "Partenaire A"
  const PlaceholderB: string := "Partenaire B"

  /** `name?.trim() || placeholder`: the trimmed name, or the placeholder when it is absent or blank. */
  function DisplayName(name: Option<string>, placeholder: string): (r: string)
    ensures r == placeholder || (name.Some? && r == Trim(name.value) && r != [])
    ensures name.Some? && Trim(name.value) != [] ==> r == Trim(name.value)
  {
    if name.Some? && Trim(name.value) != [] then Trim(name.value) else placeholder
  }

  /** With a non-blank trimmed placeholder, a display name is never blank and never padded. */
  lemma DisplayNameIsTrimmedAndNonBlank(name: Option<string>, placeholder: string)
    requires placeholder != [] && Trim(placeholder) == placeholder
    ensures var r := DisplayName(name, placeholder); r != [] && Trim(r) == r
  {
    if name.Some? && Trim(name.value) != [] {
      TrimIdempotent(name.value);
    }
  }

  /** A display name built on either placeholder is non-blank and already trimmed. */
  lemma DisplayNameWithPlaceholder(name: Option<string>, placeholder: string)
    requires placeholder == PlaceholderA || placeholder == PlaceholderB
    ensures var r := DisplayName(name, placeholder); r != [] && Trim(r) == r
  {
    PlaceholderIsTrimmed(placeholder);
    DisplayNameIsTrimmedAndNonBlank(name, placeholder);
  }

  lemma PlaceholderIsTrimmed(t: string)
    requires t == PlaceholderA || t == PlaceholderB
    ensures t != [] && Trim(t) == t
  {
    assert !IsWhitespace(t[0]) && !IsWhitespace(t[|t| - 1]);
    TrimOfTrimmed(t);
  }
}
