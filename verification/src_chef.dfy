/** The extraction in `generate_nutrition_aware_recipe` (src/chef.py): the
    stripped reply is searched with the pattern
    ``` ```json\s*(\{.*?\})\s*``` | \{.*?\} ```; when the leftmost match is
    the fenced alternative its group is decoded, otherwise the text from
    the first `{` to the last `}`. The language model call is left out;
    decoding and validation are parameters. */
module SrcChef {
  import opened Wrappers
  import opened Records
  import opened Text
  import opened Extraction

  const NoJsonPrefix: string := "No JSON found in response: "

  /** The error of a reply whose chosen text does not decode or does not
      validate. */
  function ParseFailure(e: PyError, raw: string): PyError {
    ValueError("Failed to parse response into " + "Recipe: " + Describe(e) + "\nRaw response: " + raw)
  }

  /** A `}` at `q` that the fenced alternative can close on: optional
      whitespace and a fence follow it. */
  predicate ClosesFence(s: string, q: nat)
    requires q < |s|
  {
    s[q] == '}' && FenceAt(s, q + 1 + LeadingSpaces(s[q + 1..]))
  }

  /** Three backticks at `p`. */
  predicate FenceAt(s: string, p: nat) {
    p + 3 <= |s| && s[p] == '`' && s[p + 1] == '`' && s[p + 2] == '`'
  }

  /** A `json` fence and whitespace alone come right before position
      `f`. */
  predicate FenceBefore(raw: string, f: nat)
    requires f <= |raw|
  {
    var w := f - TrailingSpaces(raw[..f]);
    w >= 7 && FenceAt(raw, w - 7) &&
    raw[w - 4] == 'j' && raw[w - 3] == 's' && raw[w - 2] == 'o' && raw[w - 1] == 'n'
  }

  /** The lazy `.*?`: the first closing position at or after `from`. */
  function FirstClosing(s: string, from: nat): (q: Option<nat>)
    requires from <= |s|
    ensures q.Some? ==> from <= q.value < |s| && ClosesFence(s, q.value)
    decreases |s| - from
  {
    if from == |s| then None
    else if ClosesFence(s, from) then Some(from)
    else FirstClosing(s, from + 1)
  }

  /** The first closing position is the one found: no position before it
      closes, and it does. */
  lemma {:induction false} FirstClosingFinds(s: string, from: nat, q: nat)
    requires from <= q < |s| && ClosesFence(s, q)
    requires forall k :: from <= k < q ==> !ClosesFence(s, k)
    ensures FirstClosing(s, from) == Some(q)
    decreases q - from
  {
    if from < q {
      FirstClosingFinds(s, from + 1, q);
    }
  }

  /** The group of the fenced alternative when it is the leftmost match.
      Any match starts at or before the first `{`, at `f`, so the fenced
      alternative wins only when it matches before `f`: a `json` fence and
      whitespace alone come right before that brace, and its group starts
      there. */
  function FencedGroup(raw: string, f: nat): (g: Option<string>)
    requires f < |raw| && raw[f] == '{'
    ensures g.Some? ==> |g.value| >= 2 && g.value[0] == '{' && g.value[|g.value| - 1] == '}'
  {
    if FenceBefore(raw, f) then
      match FirstClosing(raw, f + 1)
      case None => None
      case Some(q) =>
        var group := raw[f..q + 1];
        assert group[0] == raw[f] && group[|group| - 1] == raw[q];
        Some(group)
    else None
  }

  /** The text handed to `json.loads`, `None` when nothing matches. */
  function JsonText(raw: string): (t: Option<string>)
    ensures t.None? <==> !HasBracePair(raw)
    ensures t.Some? ==> |t.value| >= 2 && t.value[0] == '{' && t.value[|t.value| - 1] == '}'
  {
    match BraceBounds(raw)
    case None => None
    case Some((i, j)) =>
      match FencedGroup(raw, i)
      case Some(group) => Some(group)
      case None => BraceSpan(raw)
  }

  /** `generate_nutrition_aware_recipe` from the model's reply on. The
      missing-JSON error is raised inside the `try` but is not one of the
      exceptions it catches, so it escapes unchanged; the second search
      for a match can never succeed where the first failed, so it only
      ever raises. */
  function GenerateNutritionAwareRecipe<R>(response: string, loads: Loader, validate: Validator<R>)
    : (r: Result<R, PyError>)
    ensures !HasBracePair(Strip(response)) ==> r == Err(ValueError(NoJsonPrefix + Strip(response)))
    ensures HasBracePair(Strip(response)) ==>
      var data := loads(JsonText(Strip(response)).value);
      (data.None? ==> r == Err(ParseFailure(JsonDecodeError, Strip(response)))) &&
      (data.Some? && validate(data.value).None? ==> r == Err(ParseFailure(ValidationError("Recipe"), Strip(response)))) &&
      (data.Some? && validate(data.value).Some? ==> r == Ok(validate(data.value).value))
  {
    var raw := Strip(response);
    match JsonText(raw)
    case None => Err(ValueError(NoJsonPrefix + raw))
    case Some(text) =>
      match loads(text)
      case None => Err(ParseFailure(JsonDecodeError, raw))
      case Some(data) =>
        match validate(data)
        case None => Err(ParseFailure(ValidationError("Recipe"), raw))
        case Some(recipe) => Ok(recipe)
  }

  /** A reply with no backtick is read through the greedy span, as the
      other extractions do. */
  lemma UnfencedReplyUsesGreedySpan(raw: string)
    requires forall k :: 0 <= k < |raw| ==> raw[k] != '`'
    ensures JsonText(raw) == BraceSpan(raw)
  {
    var bounds := BraceBounds(raw);
    if bounds.Some? {
      NoFenceWithoutBacktick(raw, bounds.value.0);
    }
  }

  lemma NoFenceWithoutBacktick(raw: string, f: nat)
    requires f < |raw| && raw[f] == '{'
    requires forall k :: 0 <= k < |raw| ==> raw[k] != '`'
    ensures FencedGroup(raw, f).None?
  {
    var w := f - TrailingSpaces(raw[..f]);
  }

  /** A body inside a `json` fence is read on its own, whatever text
      follows the fence, provided the body holds no backtick. */
  lemma FencedBodyIsChosen(body: string, tail: string)
    requires |body| >= 2 && body[0] == '{' && body[|body| - 1] == '}'
    requires forall k :: 0 <= k < |body| ==> body[k] != '`'
    ensures JsonText("```json\n" + body + "\n```" + tail) == Some(body)
  {
    var raw := "```json\n" + body + "\n```" + tail;
    assert raw == "```json\n" + body + ("\n```" + tail);
    FirstBraceOpensBody("```json\n", body, "\n```" + tail);
    FencedGroupIsBody(body, tail);
  }

  lemma FencedGroupIsBody(body: string, tail: string)
    requires |body| >= 2 && body[0] == '{' && body[|body| - 1] == '}'
    requires forall k :: 0 <= k < |body| ==> body[k] != '`'
    ensures var raw := "```json\n" + body + "\n```" + tail;
      8 < |raw| && raw[8] == '{' && FencedGroup(raw, 8) == Some(body)
  {
    var raw := "```json\n" + body + "\n```" + tail;
    assert raw == "```json\n" + body + ("\n```" + tail);
    FenceBeforeBody(body, "\n```" + tail);
    BodyClosesFirst(body, tail);
    assert raw[8..8 + |body|] == body;
  }

  /** The lazy group closes on the body's last `}`. */
  lemma BodyClosesFirst(body: string, tail: string)
    requires |body| >= 2 && body[0] == '{' && body[|body| - 1] == '}'
    requires forall k :: 0 <= k < |body| ==> body[k] != '`'
    ensures var raw := "```json\n" + body + "\n```" + tail;
      FirstClosing(raw, 9) == Some(8 + |body| - 1)
  {
    var raw := "```json\n" + body + "\n```" + tail;
    ClosingFollowsBody("```json\n", body, tail);
    FirstClosingFinds(raw, 9, 8 + |body| - 1);
  }

  /** The first `{` of the reply is the body's. */
  lemma FirstBraceOpensBody(open: string, body: string, rest: string)
    requires |body| >= 2 && body[0] == '{' && body[|body| - 1] == '}'
    requires forall k :: 0 <= k < |open| ==> open[k] != '{'
    ensures BraceBounds(open + body + rest).Some?
    ensures BraceBounds(open + body + rest).value.0 == |open|
  {
    var raw := open + body + rest;
    var f := |open|;
    assert raw[f] == '{' && raw[f + |body| - 1] == '}';
    assert forall i :: 0 <= i < f ==> raw[i] == open[i];
  }

  /** The `json` fence line comes right before the body. */
  lemma FenceBeforeBody(body: string, rest: string)
    ensures FenceBefore("```json\n" + body + rest, 8)
  {
    var open := "```json\n";
    var raw := open + body + rest;
    assert raw[..8] == open;
    assert TrailingSpaces(open) == 1 by {
      assert open[..|open| - 1] == "```json";
    }
  }

  /** Inside the body no `}` is followed by a fence; the body's last `}`
      is. */
  lemma ClosingFollowsBody(open: string, body: string, tail: string)
    requires |body| >= 2 && body[0] == '{' && body[|body| - 1] == '}'
    requires forall k :: 0 <= k < |body| ==> body[k] != '`'
    ensures var raw := open + body + "\n```" + tail;
      var q := |open| + |body| - 1;
      ClosesFence(raw, q) && forall k :: |open| + 1 <= k < q ==> !ClosesFence(raw, k)
  {
    var raw := open + body + "\n```" + tail;
    var q := |open| + |body| - 1;
    var after := raw[q + 1..];
    assert after == "\n```" + tail;
    assert LeadingSpaces(after) == 1;
    assert raw[q + 2] == '`' && raw[q + 3] == '`' && raw[q + 4] == '`';
    forall k | |open| + 1 <= k < q
      ensures !ClosesFence(raw, k)
    {
      var rest := raw[k + 1..];
      var j := q - (k + 1);
      assert rest[j] == '}';
      var n := LeadingSpaces(rest);
      LeadingAreSpaces(rest);
      assert raw[k + 1 + n] == body[k + 1 + n - |open|];
    }
  }
}
