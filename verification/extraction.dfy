/** The text selection the recipe pipeline applies to a language model's
    reply before decoding it as JSON: the greedy `{...}` span, the anchored
    code-fence removal, and the text after a `Final Answer:` marker. Each is
    the effect of one regular expression or string method, written out
    over ASCII text. */
module Extraction {
  import opened Wrappers
  import opened Text

  /** Some `{` comes before some `}`: the greedy span exists. */
  predicate HasBracePair(s: string) {
    exists a, b :: 0 <= a < b < |s| && s[a] == '{' && s[b] == '}'
  }

  /** Where `re.search(r'\{.*\}', s, re.DOTALL)` matches: from the first
      `{` up to and including the last `}`, when that `}` comes after that
      `{`. The bounds are start and end (exclusive). */
  function BraceBounds(s: string): (r: Option<(nat, nat)>)
    ensures r.None? <==> !HasBracePair(s)
    ensures r.Some? ==> r.value.0 < r.value.1 <= |s|
    ensures r.Some? ==> s[r.value.0] == '{' && s[r.value.1 - 1] == '}'
    ensures r.Some? ==> forall k :: 0 <= k < r.value.0 ==> s[k] != '{'
    ensures r.Some? ==> forall k :: r.value.1 <= k < |s| ==> s[k] != '}'
  {
    var first := FirstIndex(s, '{');
    var last := LastIndex(s, '}');
    if first.Some? && last.Some? && first.value < last.value then
      Some((first.value, last.value + 1))
    else
      assert forall a, b :: 0 <= a < b < |s| && s[a] == '{' ==> s[b] != '}';
      None
  }

  /** The matched text of the greedy span. */
  function BraceSpan(s: string): (r: Option<string>)
    ensures r.None? <==> !HasBracePair(s)
    ensures r.Some? ==> |r.value| >= 2 && r.value[0] == '{' && r.value[|r.value| - 1] == '}'
  {
    match BraceBounds(s)
    case None => None
    case Some((i, j)) => Some(s[i..j])
  }

  /** A text that starts with `{`, ends with `}` is its own span. */
  lemma BraceSpanOfObjectText(s: string)
    requires |s| >= 2 && s[0] == '{' && s[|s| - 1] == '}'
    ensures BraceSpan(s) == Some(s)
  {
    assert HasBracePair(s) by {
      assert s[0] == '{' && s[|s| - 1] == '}';
    }
    var b := BraceBounds(s);
    assert b.value.0 == 0;
    assert b.value.1 == |s|;
    assert s[0..|s|] == s;
  }

  /** Text around the span does not change it, as long as the surrounding
      text holds no braces. */
  lemma BraceSpanIgnoresSurroundings(before: string, body: string, after: string)
    requires |body| >= 2 && body[0] == '{' && body[|body| - 1] == '}'
    requires forall k :: 0 <= k < |before| ==> before[k] != '{'
    requires forall k :: 0 <= k < |after| ==> after[k] != '}'
    ensures BraceSpan(before + body + after) == Some(body)
  {
    var s := before + body + after;
    assert s[|before|] == '{' && s[|before| + |body| - 1] == '}';
    assert forall k :: 0 <= k < |before| ==> s[k] == before[k];
    assert forall k :: |before| + |body| <= k < |s| ==> s[k] == after[k - |before| - |body|];
    var b := BraceBounds(s);
    assert b.value.0 == |before|;
    assert b.value.1 == |before| + |body|;
    assert s[|before|..|before| + |body|] == body;
  }

  // ---------------------------------------------------------------------
  // Code fences

  const Fence: string := "```"

  /** `re.sub(r"^```(?:json)?\s*", "", s)`: a fence at the very start,
      with or without `json`, and the whitespace after it go. */
  function StripOpeningFence(s: string): (r: string)
    ensures !IsPrefix(Fence, s) ==> r == s
    ensures IsSuffix(r, s)
  {
    if IsPrefix(Fence, s) then
      var t := s[3..];
      var u := if IsPrefix("json", t) then t[4..] else t;
      SkipSpaces(u)
    else s
  }

  /** Where `$` lets a closing fence end: before a final newline, else at
      the end. */
  function FenceEnd(s: string): (e: nat)
    ensures e <= |s|
  {
    if s != [] && s[|s| - 1] == '\n' then |s| - 1 else |s|
  }

  /** `re.sub(r"\s*```$", "", s)`: a fence at the end (or just before a
      final newline) and the whitespace before it go. */
  function StripClosingFence(s: string): (r: string)
    ensures !(FenceEnd(s) >= 3 && s[FenceEnd(s) - 3..FenceEnd(s)] == Fence) ==> r == s
    ensures |r| <= |s|
  {
    var e := FenceEnd(s);
    if e >= 3 && s[e - 3..e] == Fence then
      var before := s[..e - 3];
      before[..|before| - TrailingSpaces(before)] + s[e..]
    else s
  }

  /** Both fence substitutions, then `strip()`. */
  function StripFences(s: string): string {
    Strip(StripClosingFence(StripOpeningFence(s)))
  }

  /** Text with no whitespace at either end. */
  predicate Trimmed(body: string) {
    body != [] && !IsSpace(body[0]) && !IsSpace(body[|body| - 1])
  }

  lemma TrailingSpacesOfNewline(body: string)
    requires body != [] && !IsSpace(body[|body| - 1])
    ensures TrailingSpaces(body + "\n") == 1
  {
    var s := body + "\n";
    assert s[..|s| - 1] == body;
  }

  /** A fenced reply gives back exactly what the fence enclosed. */
  lemma JsonFencedBodyIsRecovered(body: string)
    requires Trimmed(body)
    ensures StripFences("```json\n" + body + "\n```") == body
  {
    OpeningFenceGone("json", body);
    assert "```" + "json" + "\n" + body + "\n```" == "```json\n" + body + "\n```";
    ClosingFenceGone(body);
    StripIdle(body);
  }

  /** The same for a fence without a language tag. */
  lemma BareFencedBodyIsRecovered(body: string)
    requires Trimmed(body)
    ensures StripFences("```\n" + body + "\n```") == body
  {
    OpeningFenceGone("", body);
    assert "```" + "" + "\n" + body + "\n```" == "```\n" + body + "\n```";
    ClosingFenceGone(body);
    StripIdle(body);
  }

  lemma OpeningFenceGone(tag: string, body: string)
    requires tag == "json" || tag == ""
    requires Trimmed(body)
    ensures StripOpeningFence("```" + tag + "\n" + body + "\n```") == body + "\n```"
  {
    var rest := tag + "\n" + body + "\n```";
    var s := "```" + tag + "\n" + body + "\n```";
    assert s == Fence + rest;
    assert IsPrefix(Fence, s) && s[3..] == rest;
    var u := "\n" + body + "\n```";
    if tag == "json" {
      assert IsPrefix("json", rest) && rest[4..] == u;
    } else {
      assert rest == u;
      assert !IsPrefix("json", rest) by {
        assert rest[0] == '\n';
      }
    }
    assert u[1..] == body + "\n```";
    assert LeadingSpaces(u) == 1;
  }

  lemma ClosingFenceGone(body: string)
    requires body != [] && !IsSpace(body[|body| - 1])
    ensures StripClosingFence(body + "\n```") == body
  {
    var v := body + "\n```";
    assert FenceEnd(v) == |v|;
    assert v[|v| - 3..|v|] == Fence;
    assert v[..|v| - 3] == body + "\n";
    TrailingSpacesOfNewline(body);
    assert (body + "\n")[..|body|] == body;
    assert v[|v|..] == [];
  }

  /** A reply that starts with a newline keeps its opening fence: the
      anchored pattern does not see it. */
  lemma LeadingNewlineKeepsFence(body: string)
    requires Trimmed(body)
    ensures StripFences("\n```json\n" + body + "\n```") == "```json\n" + body
  {
    var t := "```json\n" + body;
    var s := "\n" + t + "\n```";
    assert s == "\n```json\n" + body + "\n```";
    assert !IsPrefix(Fence, s) by {
      assert s[0] == '\n';
    }
    assert (("\n" + t) + "\n```") == s;
    ClosingFenceGone("\n" + t);
    StripLeadingNewline(t);
  }

  lemma StripLeadingNewline(t: string)
    requires Trimmed(t)
    ensures Strip("\n" + t) == t
  {
    var kept := "\n" + t;
    assert kept[1..] == t;
    assert LeadingSpaces(kept) == 1;
    StripIdle(t);
  }

  // ---------------------------------------------------------------------
  // The `Final Answer:` marker

  const FinalAnswer: string := "Final Answer:"

  /** `raw.split("Final Answer:")[-1]` when the marker occurs, the whole
      text otherwise. */
  function AfterLastMarker(raw: string, marker: string): (region: string)
    requires marker != []
    ensures (forall j :: !OccursAt(raw, marker, j)) ==> region == raw
    ensures (exists j :: OccursAt(raw, marker, j)) ==>
      IsSuffix(region, raw) && OccursAt(raw, marker, |raw| - |region| - |marker|)
    ensures (exists j :: OccursAt(raw, marker, j)) ==> forall j :: !OccursAt(region, marker, j)
  {
    match LastOccurrence(raw, marker)
    case None => raw
    case Some(i) =>
      var region := raw[i + |marker|..];
      assert forall j :: !OccursAt(region, marker, j) by {
        forall j | OccursAt(region, marker, j)
          ensures false
        {
          assert raw[i + |marker| + j..i + |marker| + j + |marker|] == region[j..j + |marker|];
          assert OccursAt(raw, marker, i + |marker| + j);
        }
      }
      region
  }
}
