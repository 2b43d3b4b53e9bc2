/** The post-processing of `generate_plan` in the agent pipeline
    (src/planner.py): as in planner.py, and in addition, once the fences
    are gone, the greedy `{...}` span replaces the text when there is
    one, so prose around the plan is dropped. */
module SrcPlanner {
  import opened Wrappers
  import opened Records
  import opened Text
  import opened Extraction
  import Planner

  /** The text handed to the decoder. */
  function CleanedText(raw: string): string {
    var text := StripFences(raw);
    match BraceSpan(text)
    case Some(span) => span
    case None => text
  }

  /** `generate_plan` from the model's reply on. */
  function GeneratePlan<P>(raw: string, rawDecode: RawDecoder, validate: Validator<P>): (r: Result<P, PyError>)
    ensures HasBracePair(StripFences(raw)) ==>
      r == Planner.DecodePlan(BraceSpan(StripFences(raw)).value, rawDecode, validate)
    ensures !HasBracePair(StripFences(raw)) ==> r == Planner.GeneratePlan(raw, rawDecode, validate)
  {
    Planner.DecodePlan(CleanedText(raw), rawDecode, validate)
  }

  /** A reply fenced as JSON around an object is read as the object. */
  lemma FencedPlanIsDecoded<P>(body: string, rawDecode: RawDecoder, validate: Validator<P>)
    requires |body| >= 2 && body[0] == '{' && body[|body| - 1] == '}'
    ensures GeneratePlan("```json\n" + body + "\n```", rawDecode, validate) ==
      Planner.DecodePlan(body, rawDecode, validate)
  {
    JsonFencedBodyIsRecovered(body);
    BraceSpanOfObjectText(body);
  }

  /** Where planner.py fails on a reply that starts with a newline, this
      version still finds the object inside the fence. */
  lemma LeadingNewlineIsHarmless<P>(body: string, rawDecode: RawDecoder, validate: Validator<P>)
    requires |body| >= 2 && body[0] == '{' && body[|body| - 1] == '}'
    ensures GeneratePlan("\n```json\n" + body + "\n```", rawDecode, validate) ==
      Planner.DecodePlan(body, rawDecode, validate)
  {
    LeadingNewlineKeepsFence(body);
    SpanAfterOpeningFence(body);
  }

  /** The fence line left in place does not reach the span. */
  lemma SpanAfterOpeningFence(body: string)
    requires |body| >= 2 && body[0] == '{' && body[|body| - 1] == '}'
    ensures BraceSpan("```json\n" + body) == Some(body)
  {
    var before := "```json\n";
    BraceSpanIgnoresSurroundings(before, body, "");
    assert before + body + "" == before + body;
  }

  /** Prose before an unfenced object is dropped. */
  lemma ProseBeforePlanIsDropped<P>(prose: string, body: string, rawDecode: RawDecoder, validate: Validator<P>)
    requires |body| >= 2 && body[0] == '{' && body[|body| - 1] == '}'
    requires prose != [] && !IsSpace(prose[0]) && prose[0] != '`'
    requires forall k :: 0 <= k < |prose| ==> prose[k] != '{'
    ensures GeneratePlan(prose + body, rawDecode, validate) == Planner.DecodePlan(body, rawDecode, validate)
  {
    var s := prose + body;
    assert !IsPrefix(Fence, s) by {
      assert s[0] == prose[0];
    }
    assert FenceEnd(s) == |s|;
    assert s[|s| - 3..|s|] != Fence by {
      assert s[|s| - 3..|s|][2] == '}';
    }
    StripIdle(s);
    BraceSpanIgnoresSurroundings(prose, body, "");
    assert prose + body + "" == s;
  }
}
