/** The post-processing of `generate_recipe` (chef.py; src/chef.py holds
    the same code): the chef's reply is stripped, rejected when empty,
    decoded whole when it is JSON and through its greedy `{...}` span
    otherwise, and validated as a `Recipe`. The language model call is
    left out; decoding and validation are parameters. */
module Chef {
  import opened Wrappers
  import opened Records
  import opened Text
  import opened Extraction

  const EmptyResponse: PyError := ValueError("Chef returned an empty response. " + "Please try again.")
  const NoJsonPrefix: string := "Failed to parse JSON from chef output:\n"
  const SpanFailurePrefix: string := "Failed to parse extracted JSON. " + "Raw response:\n"
  const SchemaFailure: PyError :=
    ValueError("Chef output did not match " + "Recipe schema:\n" + Describe(ValidationError("Recipe")))

  /** The decoded reply, from the stripped text: the whole text when it
      decodes, else its span; each failure quotes the stripped text. */
  function ChefData(loads: Loader, raw: string): (r: Result<Json, PyError>)
    ensures loads(raw).Some? ==> r == Ok(loads(raw).value)
    ensures loads(raw).None? && !HasBracePair(raw) ==> r == Err(ValueError(NoJsonPrefix + raw))
    ensures loads(raw).None? && HasBracePair(raw) ==>
      var span := BraceSpan(raw).value;
      r == if loads(span).Some? then Ok(loads(span).value) else Err(ValueError(SpanFailurePrefix + raw))
  {
    match loads(raw)
    case Some(data) => Ok(data)
    case None =>
      match BraceSpan(raw)
      case None => Err(ValueError(NoJsonPrefix + raw))
      case Some(span) =>
        match loads(span)
        case None => Err(ValueError(SpanFailurePrefix + raw))
        case Some(data) => Ok(data)
  }

  /** `generate_recipe` from the model's reply on. */
  function GenerateRecipe<R>(response: string, loads: Loader, validate: Validator<R>): (r: Result<R, PyError>)
    ensures Strip(response) == [] <==> r == Err(EmptyResponse)
    ensures r.Ok? <==>
      Strip(response) != [] && ChefData(loads, Strip(response)).Ok? &&
      validate(ChefData(loads, Strip(response)).value).Some?
    ensures r.Ok? ==> r.value == validate(ChefData(loads, Strip(response)).value).value
    ensures Strip(response) != [] && ChefData(loads, Strip(response)).Err? ==>
      r == Err(ChefData(loads, Strip(response)).error)
    ensures (Strip(response) != [] && ChefData(loads, Strip(response)).Ok? &&
             validate(ChefData(loads, Strip(response)).value).None?) ==> r == Err(SchemaFailure)
  {
    var raw := Strip(response);
    if raw == [] then Err(EmptyResponse)
    else
      OnlyBlankRepliesAreEmpty(loads, raw);
      var data :- ChefData(loads, raw);
      match validate(data)
      case None => Err(SchemaFailure)
      case Some(recipe) => Ok(recipe)
  }

  /** No other failure reads as the empty-reply error. */
  lemma OnlyBlankRepliesAreEmpty(loads: Loader, raw: string)
    ensures ChefData(loads, raw).Err? ==> ChefData(loads, raw).error != EmptyResponse
    ensures SchemaFailure != EmptyResponse
  {
    assert EmptyResponse.message[5] == 'r';
    assert SchemaFailure.message[5] == 'o';
    if ChefData(loads, raw).Err? {
      assert ChefData(loads, raw).error.message[0] == 'F';
    }
  }

  /** Prose around the recipe object, free of braces, changes nothing
      when the object decodes on its own. */
  lemma ProseAroundRecipeIsIgnored(loads: Loader, before: string, body: string, after: string)
    requires |body| >= 2 && body[0] == '{' && body[|body| - 1] == '}'
    requires forall k :: 0 <= k < |before| ==> before[k] != '{'
    requires forall k :: 0 <= k < |after| ==> after[k] != '}'
    requires loads(before + body + after).None? && loads(body).Some?
    ensures ChefData(loads, before + body + after) == ChefData(loads, body)
  {
    BraceSpanIgnoresSurroundings(before, body, after);
  }
}
