/** `parse_json_response` (src/agent_utils.py): the reply of a tool-using
    agent is cut down to the text after its last `Final Answer:` marker,
    the greedy `{...}` span of that text is decoded and validated, and
    every failure becomes a `ValueError`. */
module AgentUtils {
  import opened Wrappers
  import opened Records
  import opened Text
  import opened Extraction

  /** The text searched for JSON. */
  function SearchRegion(raw: string): string {
    AfterLastMarker(raw, FinalAnswer)
  }

  const NoJsonPrefix: string := "No JSON found in agent output: "

  /** The message of a decoding or validation failure. */
  function ParseFailure(modelName: string, e: PyError, raw: string): PyError {
    ValueError("Failed to parse agent output into " + modelName + ": " + Describe(e) + "\nRaw output: " + raw)
  }

  /** `parse_json_response(raw, model_class)`: the model built from the
      span, or the error that says which step failed. The missing-span
      error is raised inside the `try` but is not one of the exceptions it
      catches, so it escapes unchanged. */
  function ParseJsonResponse<M>(raw: string, modelName: string, loads: Loader, validate: Validator<M>)
    : (r: Result<M, PyError>)
    ensures !HasBracePair(SearchRegion(raw)) ==> r == Err(ValueError(NoJsonPrefix + raw))
    ensures HasBracePair(SearchRegion(raw)) ==>
      var data := loads(BraceSpan(SearchRegion(raw)).value);
      (data.None? ==> r == Err(ParseFailure(modelName, JsonDecodeError, raw))) &&
      (data.Some? && validate(data.value).None? ==> r == Err(ParseFailure(modelName, ValidationError(modelName), raw))) &&
      (data.Some? && validate(data.value).Some? ==> r == Ok(validate(data.value).value))
    ensures r == Err(ValueError(NoJsonPrefix + raw)) <==> !HasBracePair(SearchRegion(raw))
  {
    match BraceSpan(SearchRegion(raw))
    case None => Err(ValueError(NoJsonPrefix + raw))
    case Some(span) =>
      FailuresAreDistinct(modelName, raw, JsonDecodeError);
      FailuresAreDistinct(modelName, raw, ValidationError(modelName));
      match loads(span)
      case None => Err(ParseFailure(modelName, JsonDecodeError, raw))
      case Some(data) =>
        match validate(data)
        case None => Err(ParseFailure(modelName, ValidationError(modelName), raw))
        case Some(m) => Ok(m)
  }

  /** The marker has no two overlapping occurrences: no proper suffix of
      it is a prefix of it. */
  lemma MarkerStartsOnce()
    ensures forall i :: 0 < i < |FinalAnswer| ==> FinalAnswer[i] != FinalAnswer[0]
  {
  }

  /** Whatever the agent wrote before its final answer, only the answer is
      searched, provided the answer does not repeat the marker. */
  lemma OnlyTheFinalAnswerIsSearched(before: string, answer: string)
    requires forall j :: !OccursAt(answer, FinalAnswer, j)
    ensures SearchRegion(before + FinalAnswer + answer) == answer
  {
    var raw := before + FinalAnswer + answer;
    var m := |before|;
    assert OccursAt(raw, FinalAnswer, m) by {
      assert raw[m..m + |FinalAnswer|] == FinalAnswer;
    }
    MarkerStartsOnce();
    forall j | m < j && j + |FinalAnswer| <= |raw|
      ensures !OccursAt(raw, FinalAnswer, j)
    {
      var window := raw[j..j + |FinalAnswer|];
      if j < m + |FinalAnswer| {
        assert window[0] == FinalAnswer[j - m];
        assert window[0] != FinalAnswer[0];
      } else {
        var k := j - m - |FinalAnswer|;
        assert window == answer[k..k + |FinalAnswer|];
        assert !OccursAt(answer, FinalAnswer, k);
      }
    }
    var region := SearchRegion(raw);
    assert |raw| - |region| - |FinalAnswer| == m;
    assert raw[m + |FinalAnswer|..] == answer;
  }

  /** A failed decoding and a missing span are told apart by their
      messages. */
  lemma FailuresAreDistinct(modelName: string, raw: string, e: PyError)
    ensures ParseFailure(modelName, e, raw) != ValueError(NoJsonPrefix + raw)
  {
    var a := ParseFailure(modelName, e, raw).message;
    assert a[0] == 'F';
    assert (NoJsonPrefix + raw)[0] == 'N';
  }
}
