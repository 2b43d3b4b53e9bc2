/** `_parse_json` and the error path of `compute_nutrition` (nutrition.py):
    the estimator's reply is decoded whole when it is JSON and through its
    greedy `{...}` span otherwise, then validated as a `NutritionProfile`.
    The language model call is left out; decoding and validation are
    parameters. */
module Nutrition {
  import opened Wrappers
  import opened Records
  import opened Text
  import opened Extraction
  import Chef

  const NoJsonPrefix: string := "Cannot parse JSON: "
  const SchemaFailure: PyError :=
    ValueError("Nutrition schema mismatch:\n" + Describe(ValidationError("NutritionProfile")))

  /** `_parse_json`: a span that does not decode lets the decoder's own
      error escape, unwrapped. */
  function ParseJson(loads: Loader, raw: string): (r: Result<Json, PyError>)
    ensures loads(raw).Some? ==> r == Ok(loads(raw).value)
    ensures loads(raw).None? && !HasBracePair(raw) ==> r == Err(ValueError(NoJsonPrefix + raw))
    ensures loads(raw).None? && HasBracePair(raw) ==>
      var span := BraceSpan(raw).value;
      r == if loads(span).Some? then Ok(loads(span).value) else Err(JsonDecodeError)
  {
    match loads(raw)
    case Some(data) => Ok(data)
    case None =>
      match BraceSpan(raw)
      case None => Err(ValueError(NoJsonPrefix + raw))
      case Some(span) =>
        match loads(span)
        case None => Err(JsonDecodeError)
        case Some(data) => Ok(data)
  }

  /** `compute_nutrition` from the model's reply on. An empty reply is not
      singled out: it fails as text without JSON. */
  function ComputeNutrition<N>(response: string, loads: Loader, validate: Validator<N>): (r: Result<N, PyError>)
    ensures r.Ok? <==>
      ParseJson(loads, Strip(response)).Ok? && validate(ParseJson(loads, Strip(response)).value).Some?
    ensures ParseJson(loads, Strip(response)).Err? ==> r == Err(ParseJson(loads, Strip(response)).error)
    ensures ParseJson(loads, Strip(response)).Ok? && r.Err? ==> r.error == SchemaFailure
  {
    var data :- ParseJson(loads, Strip(response));
    match validate(data)
    case None => Err(SchemaFailure)
    case Some(profile) => Ok(profile)
  }

  /** The chef's extraction and this one accept the same replies and
      decode them to the same value; only their error messages differ. */
  lemma ChefAndNutritionAgree(loads: Loader, raw: string)
    ensures Chef.ChefData(loads, raw).Ok? <==> ParseJson(loads, raw).Ok?
    ensures ParseJson(loads, raw).Ok? ==> Chef.ChefData(loads, raw).value == ParseJson(loads, raw).value
  {
  }

  /** A blank reply fails with the text-without-JSON error. */
  lemma EmptyReplyHasNoJson<N>(loads: Loader, validate: Validator<N>)
    requires loads("").None?
    ensures ComputeNutrition("", loads, validate) == Err(ValueError(NoJsonPrefix))
  {
    StripIdle("");
    assert NoJsonPrefix + "" == NoJsonPrefix;
  }
}
