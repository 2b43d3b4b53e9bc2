/** The post-processing of `generate_plan` (planner.py): the planner's reply
    loses an opening fence at its very start and a closing fence at its
    end, is stripped, and the JSON value at its start is decoded and
    validated as a `Plan`. The language model call is left out; decoding
    and validation are parameters. */
module Planner {
  import opened Wrappers
  import opened Records
  import opened Text
  import opened Extraction

  const ParseFailurePrefix: string := "Could not parse JSON from planner output:\n"
  const SchemaFailurePrefix: string := "Planner output did not match Plan schema:\n"

  /** The error a reply that does not validate as a `Plan` raises. */
  const SchemaFailure: PyError := ValueError(SchemaFailurePrefix + Describe(ValidationError("Plan")))

  /** Decoding the cleaned text and validating it: the step both versions
      of `generate_plan` share. A decoding failure quotes the cleaned
      text. */
  function DecodePlan<P>(text: string, rawDecode: RawDecoder, validate: Validator<P>): (r: Result<P, PyError>)
    ensures r.Ok? <==> rawDecode(text).Some? && validate(rawDecode(text).value).Some?
    ensures r.Ok? ==> r.value == validate(rawDecode(text).value).value
    ensures rawDecode(text).None? ==> r == Err(ValueError(ParseFailurePrefix + text))
    ensures rawDecode(text).Some? && r.Err? ==> r.error == SchemaFailure
  {
    match rawDecode(text)
    case None => Err(ValueError(ParseFailurePrefix + text))
    case Some(data) =>
      match validate(data)
      case None => Err(SchemaFailure)
      case Some(plan) => Ok(plan)
  }

  /** `generate_plan` from the model's reply on. */
  function GeneratePlan<P>(raw: string, rawDecode: RawDecoder, validate: Validator<P>): (r: Result<P, PyError>)
    ensures rawDecode(StripFences(raw)).None? ==> r == Err(ValueError(ParseFailurePrefix + StripFences(raw)))
  {
    DecodePlan(StripFences(raw), rawDecode, validate)
  }

  /** A reply fenced as JSON is read as the text inside the fence. */
  lemma FencedPlanIsDecoded<P>(body: string, rawDecode: RawDecoder, validate: Validator<P>)
    requires Trimmed(body)
    ensures GeneratePlan("```json\n" + body + "\n```", rawDecode, validate) == DecodePlan(body, rawDecode, validate)
  {
    JsonFencedBodyIsRecovered(body);
  }

  /** A reply that starts with a newline keeps its opening fence, and the
      fence reaches the decoder: a decoder that rejects text starting with
      a backtick makes the call fail, quoting the fenced text. */
  lemma LeadingNewlineDefeatsFence<P>(body: string, rawDecode: RawDecoder, validate: Validator<P>)
    requires Trimmed(body)
    requires rawDecode("```json\n" + body).None?
    ensures GeneratePlan("\n```json\n" + body + "\n```", rawDecode, validate) ==
      Err(ValueError(ParseFailurePrefix + ("```json\n" + body)))
  {
    LeadingNewlineKeepsFence(body);
    var t := "```json\n" + body;
    DecodeFailureQuotesText(t, rawDecode, validate);
  }

  lemma DecodeFailureQuotesText<P>(t: string, rawDecode: RawDecoder, validate: Validator<P>)
    requires rawDecode(t).None?
    ensures DecodePlan(t, rawDecode, validate) == Err(ValueError(ParseFailurePrefix + t))
  {
  }
}
