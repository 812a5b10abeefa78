/**
 * The default inputs, their query-string encoding and decoding, and the
 * field-wise comparison used for the "modified" indicator
 * (src/lib/inputs.ts). A query string is the map from parameter names to
 * their decoded values.
 */
module InputsCodec {
  import opened JsRuntime
  import opened Types
  import opened SearchParams

  const DefaultInputs: Inputs := Inputs(
    Some(""), Some(""),
    Finite(2000.0), Finite(175.0), Finite(0.0), Finite(100.0),
    Finite(2000.0), Finite(1500.0), false, Finite(600.0), Finite(0.0),
    Proportional)

  /** The twelve parameter names a shareable link carries. */
  const QueryKeys: set<string> :=
    {"nameA", "nameB", "a1", "a2", "b2", "trPct", "b", "m", "advanced", "E", "biasPts", "mode"}

  function ModeName(mode: Mode): string
  {
    match mode
    case Proportional => "proportional"
    case EqualLeftover => "equal_leftover"
  }

  /** `params.get(key)`: the value, or null when the parameter is missing. */
  function Get(params: map<string, string>, key: string): Option<string>
  {
    if key in params then Some(params[key]) else None
  }

  /** The mode changes only when the parameter spells one of the two modes exactly. */
  function ParseMode(param: Option<string>, fallback: Mode): (r: Mode)
    ensures r == fallback || param == Some(ModeName(r))
    ensures forall mode: Mode :: param == Some(ModeName(mode)) ==> r == mode
  {
    if param == Some("equal_leftover") then EqualLeftover
    else if param == Some("proportional") then Proportional
    else fallback
  }

  /** `(params.get(key) ?? fallback) || ""`: a present parameter wins, and the name is never absent. */
  function ParseName(param: Option<string>, fallback: Option<string>): (r: Option<string>)
    ensures r.Some?
    ensures param.Some? ==> r == param
    ensures param.None? && fallback.Some? ==> r == fallback
    ensures param.None? && fallback.None? ==> r == Some("")
  {
    match param
    case Some(text) => Some(text)
    case None => if fallback.Some? then fallback else Some("")
  }

  /** `get("advanced") ? get("advanced") === "1" : fallback`: an empty or missing parameter keeps the fallback. */
  function ParseAdvanced(param: Option<string>, fallback: bool): (r: bool)
    ensures param.None? || param == Some("") ==> r == fallback
    ensures param.Some? && param.value != "" ==> (r <==> param.value == "1")
  {
    if param.Some? && param.value != "" then param.value == "1" else fallback
  }

  /** Decodes the twelve inputs from a query string, each field falling back to `defaults`. */
  function ParseInputsFromQuery(params: map<string, string>, defaults: Inputs,
                                conv: NumberConversion): (r: Inputs)
    ensures r.partnerAName.Some? && r.partnerBName.Some?
    ensures !HasNaN(defaults) ==> !HasNaN(r)
  {
    Inputs(
      ParseName(Get(params, "nameA"), defaults.partnerAName),
      ParseName(Get(params, "nameB"), defaults.partnerBName),
      ReadNumericParam(params, "a1", defaults.a1, conv),
      ReadNumericParam(params, "a2", defaults.a2, conv),
      ReadNumericParam(params, "b2", defaults.b2, conv),
      ReadNumericParam(params, "trPct", defaults.trPct, conv),
      ReadNumericParam(params, "b", defaults.b, conv),
      ReadNumericParam(params, "m", defaults.m, conv),
      ParseAdvanced(Get(params, "advanced"), defaults.advanced),
      ReadNumericParam(params, "E", defaults.E, conv),
      ReadNumericParam(params, "biasPts", defaults.biasPts, conv),
      ParseMode(Get(params, "mode"), defaults.mode))
  }

  /** `URLSearchParams.set` on a name: an absent name is written as the text "undefined". */
  function NameText(name: Option<string>): string
  {
    match name
    case Some(text) => text
    case None => "undefined"
  }

  /** The query parameters of the shareable link (the link's origin and path are left out). */
  function ShareableParams(inputs: Inputs, conv: NumberConversion): (r: map<string, string>)
    ensures r.Keys == QueryKeys
    ensures r["advanced"] == (if inputs.advanced then "1" else "0")
    ensures r["mode"] == ModeName(inputs.mode)
  {
    map[
      "nameA" := NameText(inputs.partnerAName),
      "nameB" := NameText(inputs.partnerBName),
      "a1" := NumberToString(inputs.a1, conv),
      "a2" := NumberToString(inputs.a2, conv),
      "b2" := NumberToString(inputs.b2, conv),
      "trPct" := NumberToString(inputs.trPct, conv),
      "b" := NumberToString(inputs.b, conv),
      "m" := NumberToString(inputs.m, conv),
      "advanced" := if inputs.advanced then "1" else "0",
      "E" := NumberToString(inputs.E, conv),
      "biasPts" := NumberToString(inputs.biasPts, conv),
      "mode" := ModeName(inputs.mode)]
  }

  /** `keys.every((key) => a[key] === b[key])` over the twelve fields. */
  predicate AreInputsEqual(x: Inputs, y: Inputs)
    ensures AreInputsEqual(x, y) <==> x == y && !HasNaN(x)
  {
    && x.partnerAName == y.partnerAName
    && x.partnerBName == y.partnerBName
    && StrictEquals(x.a1, y.a1)
    && StrictEquals(x.a2, y.a2)
    && StrictEquals(x.b2, y.b2)
    && StrictEquals(x.trPct, y.trPct)
    && StrictEquals(x.b, y.b)
    && StrictEquals(x.m, y.m)
    && x.advanced == y.advanced
    && StrictEquals(x.E, y.E)
    && StrictEquals(x.biasPts, y.biasPts)
    && x.mode == y.mode
  }

  lemma AreInputsEqualSymmetric(x: Inputs, y: Inputs)
    ensures AreInputsEqual(x, y) <==> AreInputsEqual(y, x)
  {
  }

  /** The comparison is reflexive on every record without NaN, and only there. */
  lemma AreInputsEqualReflexive(x: Inputs)
    ensures AreInputsEqual(x, x) <==> !HasNaN(x)
  {
  }

  /** Without query parameters, decoding returns the defaults, save that an absent name becomes "". */
  lemma ParseEmptyQuery(defaults: Inputs, conv: NumberConversion)
    ensures ParseInputsFromQuery(map[], defaults, conv)
         == defaults.(partnerAName := ParseName(None, defaults.partnerAName),
                      partnerBName := ParseName(None, defaults.partnerBName))
    ensures defaults.partnerAName.Some? && defaults.partnerBName.Some? ==>
              ParseInputsFromQuery(map[], defaults, conv) == defaults
  {
  }

  /**
   * The defaults hold only finite numbers, so a record reset to them is
   * never reported as modified, and an empty query leaves them unchanged.
   */
  lemma DefaultInputsAreStable(conv: NumberConversion)
    ensures DefaultInputs.a1.Finite? && DefaultInputs.a2.Finite? && DefaultInputs.b2.Finite?
    ensures DefaultInputs.trPct.Finite? && DefaultInputs.b.Finite? && DefaultInputs.m.Finite?
    ensures DefaultInputs.E.Finite? && DefaultInputs.biasPts.Finite?
    ensures AreInputsEqual(DefaultInputs, DefaultInputs)
    ensures ParseInputsFromQuery(map[], DefaultInputs, conv) == DefaultInputs
  {
    ParseEmptyQuery(DefaultInputs, conv);
  }

  /** What a numeric field decodes to, stated without the early returns of `readNumericParam`. */
  predicate FromQuery(params: map<string, string>, key: string, fallback: JsNumber,
                      conv: NumberConversion, field: JsNumber)
  {
    field == if key in params && Trim(params[key]) != [] && conv.parse(Trim(params[key])).Finite?
             then conv.parse(Trim(params[key])) else fallback
  }

  /** A query parameter overrides the default of its field exactly when its text is a finite number. */
  lemma NumericFieldsFromQuery(params: map<string, string>, defaults: Inputs, conv: NumberConversion)
    ensures var r := ParseInputsFromQuery(params, defaults, conv);
      && FromQuery(params, "a1", defaults.a1, conv, r.a1)
      && FromQuery(params, "a2", defaults.a2, conv, r.a2)
      && FromQuery(params, "b2", defaults.b2, conv, r.b2)
      && FromQuery(params, "trPct", defaults.trPct, conv, r.trPct)
      && FromQuery(params, "b", defaults.b, conv, r.b)
      && FromQuery(params, "m", defaults.m, conv, r.m)
      && FromQuery(params, "E", defaults.E, conv, r.E)
      && FromQuery(params, "biasPts", defaults.biasPts, conv, r.biasPts)
  {
  }

  /** What decoding keeps of a number that went through a link: finite numbers survive, others fall back. */
  function Restored(n: JsNumber, fallback: JsNumber): JsNumber
  {
    if n.Finite? then n else fallback
  }

  lemma NumberThroughLink(n: JsNumber, key: string, inputs: Inputs, defaults: Inputs,
                          fallback: JsNumber, conv: NumberConversion)
    requires ReadsBack(conv, n)
    requires key in ShareableParams(inputs, conv)
    requires ShareableParams(inputs, conv)[key] == NumberToString(n, conv)
    ensures ReadNumericParam(ShareableParams(inputs, conv), key, fallback, conv) == Restored(n, fallback)
  {
    NumberStringRoundTrip(n, conv);
  }

  lemma LinkRestoresNames(inputs: Inputs, defaults: Inputs, conv: NumberConversion)
    ensures var r := ParseInputsFromQuery(ShareableParams(inputs, conv), defaults, conv);
      && r.partnerAName == Some(NameText(inputs.partnerAName))
      && r.partnerBName == Some(NameText(inputs.partnerBName))
  {
    var params := ShareableParams(inputs, conv);
    assert "nameA"[4] != "nameB"[4];
    assert params["nameA"] == NameText(inputs.partnerAName);
    assert params["nameB"] == NameText(inputs.partnerBName);
  }

  /** Each of the eight numbers of the record reads back through its text. */
  predicate NumbersReadBack(inputs: Inputs, conv: NumberConversion)
  {
    && ReadsBack(conv, inputs.a1) && ReadsBack(conv, inputs.a2) && ReadsBack(conv, inputs.b2)
    && ReadsBack(conv, inputs.trPct) && ReadsBack(conv, inputs.b) && ReadsBack(conv, inputs.m)
    && ReadsBack(conv, inputs.E) && ReadsBack(conv, inputs.biasPts)
  }

  lemma LinkRestoresNumbers(inputs: Inputs, defaults: Inputs, conv: NumberConversion)
    requires NumbersReadBack(inputs, conv)
    ensures var r := ParseInputsFromQuery(ShareableParams(inputs, conv), defaults, conv);
      && r.a1 == Restored(inputs.a1, defaults.a1)
      && r.a2 == Restored(inputs.a2, defaults.a2)
      && r.b2 == Restored(inputs.b2, defaults.b2)
      && r.trPct == Restored(inputs.trPct, defaults.trPct)
      && r.b == Restored(inputs.b, defaults.b)
      && r.m == Restored(inputs.m, defaults.m)
      && r.E == Restored(inputs.E, defaults.E)
      && r.biasPts == Restored(inputs.biasPts, defaults.biasPts)
  {
    LinkRestoresPartnerNumbers(inputs, defaults, conv);
    LinkRestoresHouseholdNumbers(inputs, defaults, conv);
  }

  /** Each number of the record is written into the link under its own key. */
  lemma LinkCarriesNumbers(inputs: Inputs, conv: NumberConversion)
    ensures var params := ShareableParams(inputs, conv);
      && params["a1"] == NumberToString(inputs.a1, conv)
      && params["a2"] == NumberToString(inputs.a2, conv)
      && params["b2"] == NumberToString(inputs.b2, conv)
      && params["trPct"] == NumberToString(inputs.trPct, conv)
      && params["b"] == NumberToString(inputs.b, conv)
      && params["m"] == NumberToString(inputs.m, conv)
      && params["E"] == NumberToString(inputs.E, conv)
      && params["biasPts"] == NumberToString(inputs.biasPts, conv)
  {
  }

  /** The incomes and vouchers of a link come back as they were sent, when finite. */
  lemma LinkRestoresPartnerNumbers(inputs: Inputs, defaults: Inputs, conv: NumberConversion)
    requires ReadsBack(conv, inputs.a1) && ReadsBack(conv, inputs.a2)
    requires ReadsBack(conv, inputs.b2) && ReadsBack(conv, inputs.b)
    ensures var params := ShareableParams(inputs, conv);
      && ReadNumericParam(params, "a1", defaults.a1, conv) == Restored(inputs.a1, defaults.a1)
      && ReadNumericParam(params, "a2", defaults.a2, conv) == Restored(inputs.a2, defaults.a2)
      && ReadNumericParam(params, "b2", defaults.b2, conv) == Restored(inputs.b2, defaults.b2)
      && ReadNumericParam(params, "b", defaults.b, conv) == Restored(inputs.b, defaults.b)
  {
    LinkCarriesNumbers(inputs, conv);
    NumberThroughLink(inputs.a1, "a1", inputs, defaults, defaults.a1, conv);
    NumberThroughLink(inputs.a2, "a2", inputs, defaults, defaults.a2, conv);
    NumberThroughLink(inputs.b2, "b2", inputs, defaults, defaults.b2, conv);
    NumberThroughLink(inputs.b, "b", inputs, defaults, defaults.b, conv);
  }

  /** The voucher percentage, budget, expenses and bias of a link come back as they were sent, when finite. */
  lemma LinkRestoresHouseholdNumbers(inputs: Inputs, defaults: Inputs, conv: NumberConversion)
    requires ReadsBack(conv, inputs.trPct) && ReadsBack(conv, inputs.m)
    requires ReadsBack(conv, inputs.E) && ReadsBack(conv, inputs.biasPts)
    ensures var params := ShareableParams(inputs, conv);
      && ReadNumericParam(params, "trPct", defaults.trPct, conv) == Restored(inputs.trPct, defaults.trPct)
      && ReadNumericParam(params, "m", defaults.m, conv) == Restored(inputs.m, defaults.m)
      && ReadNumericParam(params, "E", defaults.E, conv) == Restored(inputs.E, defaults.E)
      && ReadNumericParam(params, "biasPts", defaults.biasPts, conv) == Restored(inputs.biasPts, defaults.biasPts)
  {
    LinkCarriesNumbers(inputs, conv);
    NumberThroughLink(inputs.trPct, "trPct", inputs, defaults, defaults.trPct, conv);
    NumberThroughLink(inputs.m, "m", inputs, defaults, defaults.m, conv);
    NumberThroughLink(inputs.E, "E", inputs, defaults, defaults.E, conv);
    NumberThroughLink(inputs.biasPts, "biasPts", inputs, defaults, defaults.biasPts, conv);
  }

  /**
   * Decoding the parameters of a shareable link restores the names, the
   * flag, the mode and every finite number; NaN and the infinities fall
   * back to the defaults.
   */
  lemma ShareableLinkRoundTrip(inputs: Inputs, defaults: Inputs, conv: NumberConversion)
    requires NumbersReadBack(inputs, conv)
    ensures var r := ParseInputsFromQuery(ShareableParams(inputs, conv), defaults, conv);
      r == Inputs(
        Some(NameText(inputs.partnerAName)), Some(NameText(inputs.partnerBName)),
        Restored(inputs.a1, defaults.a1), Restored(inputs.a2, defaults.a2),
        Restored(inputs.b2, defaults.b2), Restored(inputs.trPct, defaults.trPct),
        Restored(inputs.b, defaults.b), Restored(inputs.m, defaults.m),
        inputs.advanced, Restored(inputs.E, defaults.E),
        Restored(inputs.biasPts, defaults.biasPts), inputs.mode)
  {
    LinkRestoresNames(inputs, defaults, conv);
    LinkRestoresNumbers(inputs, defaults, conv);
  }

  /** A record with both names and only finite numbers survives a shareable link unchanged. */
  lemma ShareableLinkRoundTripExact(inputs: Inputs, defaults: Inputs, conv: NumberConversion)
    requires NumbersReadBack(inputs, conv)
    requires inputs.partnerAName.Some? && inputs.partnerBName.Some?
    requires inputs.a1.Finite? && inputs.a2.Finite? && inputs.b2.Finite? && inputs.trPct.Finite?
    requires inputs.b.Finite? && inputs.m.Finite? && inputs.E.Finite? && inputs.biasPts.Finite?
    ensures ParseInputsFromQuery(ShareableParams(inputs, conv), defaults, conv) == inputs
  {
    ShareableLinkRoundTrip(inputs, defaults, conv);
  }
}
