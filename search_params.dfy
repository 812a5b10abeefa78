/**
 * Reading one numeric query parameter with a fallback
 * (src/lib/searchParams.ts). The query string is the map of decoded
 * parameter values; `Number(...)` is the abstract conversion.
 */
module SearchParams {
  import opened JsRuntime

  /** The number a query parameter holds, or the fallback when it is missing, blank or not finite. */
  function ReadNumericParam(params: map<string, string>, key: string, fallback: JsNumber,
                            conv: NumberConversion): (r: JsNumber)
    ensures key !in params ==> r == fallback
    ensures r == fallback || (key in params && r.Finite? && r == conv.parse(Trim(params[key])))
    ensures fallback.Finite? ==> r.Finite?
  {
    if key !in params then fallback
    else
      var normalized := Trim(params[key]);
      if normalized == [] then fallback
      else
        var parsed := conv.parse(normalized);
        if parsed.Finite? then parsed else fallback
  }

  /** A present value made only of whitespace (or empty) yields the fallback. */
  lemma BlankParamGivesFallback(params: map<string, string>, key: string, fallback: JsNumber,
                                conv: NumberConversion)
    requires key in params
    requires forall i :: 0 <= i < |params[key]| ==> IsWhitespace(params[key][i])
    ensures ReadNumericParam(params, key, fallback, conv) == fallback
  {
    TrimEmptyIffAllWhitespace(params[key]);
  }

  /** A value whose trimmed text parses to a finite number yields that number; any other yields the fallback. */
  lemma ParsedParamGivesNumber(params: map<string, string>, key: string, fallback: JsNumber,
                               conv: NumberConversion)
    requires key in params && Trim(params[key]) != []
    ensures conv.parse(Trim(params[key])).Finite? ==>
              ReadNumericParam(params, key, fallback, conv) == conv.parse(Trim(params[key]))
    ensures !conv.parse(Trim(params[key])).Finite? ==>
              ReadNumericParam(params, key, fallback, conv) == fallback
  {
  }

  /** Only the trimmed value matters: surrounding whitespace never changes the result. */
  lemma SurroundingWhitespaceIsIrrelevant(params: map<string, string>, key: string, fallback: JsNumber,
                                          conv: NumberConversion)
    requires key in params
    ensures ReadNumericParam(params[key := Trim(params[key])], key, fallback, conv)
         == ReadNumericParam(params, key, fallback, conv)
  {
    TrimIdempotent(params[key]);
  }
}
