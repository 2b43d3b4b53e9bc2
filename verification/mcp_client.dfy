/** The client side of the nutrition server (nutrition_mcp_client.py and the
    two copies under nutrition_mcp/): the request-id counter, the conversion
    of a recipe's ingredients into the `calculate_recipe_nutrition`
    arguments, and the projection of the server's totals onto a nutrition
    profile. The three clients share this logic line for line; only their
    transport differs, and the transport is not modelled. */
module McpClient {
  import opened Wrappers
  import opened Records
  import opened Text
  import McpServer

  // ---------------------------------------------------------------------
  // Request ids

  /** The client's `request_id` field; a new client starts at 1. */
  datatype Client = Client(requestId: int)

  const NewClient: Client := Client(1)

  /** What `_next_id` hands out, and the client after the call. */
  datatype Issued = Issued(id: int, client: Client)

  /** `_next_id`: the current id, and the counter moved on by one. */
  function NextId(c: Client): (r: Issued)
    ensures r.id == c.requestId && r.client.requestId == r.id + 1
  {
    Issued(c.requestId, Client(c.requestId + 1))
  }

  /** The ids `n` successive `_next_id` calls hand out, and the client after
      them. */
  function IssueIds(c: Client, n: nat): (seq<int>, Client)
    decreases n
  {
    if n == 0 then ([], c)
    else
      var first := NextId(c);
      var rest := IssueIds(first.client, n - 1);
      ([first.id] + rest.0, rest.1)
  }

  /** `n` calls hand out the `n` consecutive ids starting at the counter,
      and leave the counter just past the last of them. */
  lemma {:induction false} IssuedIdsAreConsecutive(c: Client, n: nat)
    ensures |IssueIds(c, n).0| == n
    ensures forall i :: 0 <= i < n ==> IssueIds(c, n).0[i] == c.requestId + i
    ensures IssueIds(c, n).1.requestId == c.requestId + n
    decreases n
  {
    if n > 0 {
      var first := NextId(c);
      IssuedIdsAreConsecutive(first.client, n - 1);
      var ids := IssueIds(c, n).0;
      assert ids == [c.requestId] + IssueIds(first.client, n - 1).0;
      forall i | 0 < i < n
        ensures ids[i] == c.requestId + i
      {
        assert ids[i] == IssueIds(first.client, n - 1).0[i - 1];
      }
    }
  }

  /** A new client numbers its requests 1, 2, 3, ... */
  lemma NewClientCountsFromOne(n: nat)
    ensures |IssueIds(NewClient, n).0| == n
    ensures forall i :: 0 <= i < n ==> IssueIds(NewClient, n).0[i] == i + 1
    ensures IssueIds(NewClient, n).1 == Client(n + 1)
  {
    IssuedIdsAreConsecutive(NewClient, n);
  }

  // ---------------------------------------------------------------------
  // Quantities

  /** Python's `float()` on a whitespace-free token: the value, or `None`
      where it raises `ValueError`. Its literal syntax is not modelled. */
  type FloatParser = string -> Option<real>

  /** The quantity used when the text gives none. */
  const DefaultGrams: real := 100.0

  /** The grams read from an ingredient's quantity text: an empty text
      gives 100; otherwise the first whitespace-separated token goes to
      `float()`, and a text without tokens (`IndexError`) or a token
      `float()` rejects (`ValueError`) gives 100. The first token is found
      by skipping leading whitespace and reading up to the next
      whitespace. */
  function QuantityGrams(parseFloat: FloatParser, qty: string): (g: real)
    ensures qty == [] ==> g == DefaultGrams
    ensures Split(qty) == [] ==> g == DefaultGrams
    ensures Split(qty) != [] ==> g == parseFloat(Split(qty)[0]).GetOr(DefaultGrams)
  {
    if qty == [] then DefaultGrams
    else
      var t := SkipSpaces(qty);
      var word := t[..WordLen(t)];
      if word == [] then DefaultGrams
      else parseFloat(word).GetOr(DefaultGrams)
  }

  /** A unit after the number is ignored: only the first token is read. */
  lemma UnitIsIgnored(parseFloat: FloatParser, number: string, unit: string)
    requires IsToken(number) && IsToken(unit)
    ensures QuantityGrams(parseFloat, number + " " + unit) == parseFloat(number).GetOr(DefaultGrams)
  {
    SplitCons(number, " " + unit);
    assert number + " " + unit == number + (" " + unit);
  }

  /** A quantity of one token is read whole. */
  lemma SingleTokenIsRead(parseFloat: FloatParser, number: string)
    requires IsToken(number)
    ensures QuantityGrams(parseFloat, number) == parseFloat(number).GetOr(DefaultGrams)
  {
    SplitCons(number, []);
    assert number + [] == number;
  }

  /** Whitespace alone reads as the default. */
  lemma BlankIsDefault(parseFloat: FloatParser, qty: string)
    requires forall i :: 0 <= i < |qty| ==> IsSpace(qty[i])
    ensures QuantityGrams(parseFloat, qty) == DefaultGrams
  {
    if qty != [] {
      assert LeadingSpaces(qty) == |qty| by {
        BlankSkips(qty);
      }
    }
  }

  lemma {:induction false} BlankSkips(s: string)
    requires forall i :: 0 <= i < |s| ==> IsSpace(s[i])
    ensures LeadingSpaces(s) == |s|
    decreases |s|
  {
    if s != [] {
      BlankSkips(s[1..]);
    }
  }

  lemma ReadsBareNumber(parseFloat: FloatParser)
    requires parseFloat("200") == Some(200.0)
    ensures QuantityGrams(parseFloat, "200") == 200.0
  {
    assert IsToken("200");
    SingleTokenIsRead(parseFloat, "200");
  }

  lemma ReadsGrams(parseFloat: FloatParser)
    requires parseFloat("200") == Some(200.0)
    ensures QuantityGrams(parseFloat, "200 g") == 200.0
  {
    assert IsToken("200") && IsToken("g");
    UnitIsIgnored(parseFloat, "200", "g");
    assert "200" + " " + "g" == "200 g";
  }

  lemma ReadsCups(parseFloat: FloatParser)
    requires parseFloat("1") == Some(1.0)
    ensures QuantityGrams(parseFloat, "1 cup") == 1.0
  {
    assert IsToken("1") && IsToken("cup");
    UnitIsIgnored(parseFloat, "1", "cup");
    assert "1" + " " + "cup" == "1 cup";
  }

  /** The worked quantities: "200" and "200 g" read 200, and "1 cup"
      reads 1. */
  lemma ParsedQuantityExamples(parseFloat: FloatParser)
    requires parseFloat("200") == Some(200.0)
    requires parseFloat("1") == Some(1.0)
    ensures QuantityGrams(parseFloat, "200") == 200.0
    ensures QuantityGrams(parseFloat, "200 g") == 200.0
    ensures QuantityGrams(parseFloat, "1 cup") == 1.0
  {
    ReadsBareNumber(parseFloat);
    ReadsGrams(parseFloat);
    ReadsCups(parseFloat);
  }

  /** "200g", which `float()` rejects, reads the default, as do the empty
      and the blank text. */
  lemma DefaultQuantityExamples(parseFloat: FloatParser)
    requires parseFloat("200g") == None
    ensures QuantityGrams(parseFloat, "200g") == DefaultGrams
    ensures QuantityGrams(parseFloat, "") == DefaultGrams
    ensures QuantityGrams(parseFloat, "  ") == DefaultGrams
  {
    SingleTokenIsRead(parseFloat, "200g");
    BlankIsDefault(parseFloat, "  ");
  }

  // ---------------------------------------------------------------------
  // The request

  /** A recipe ingredient: its name and its free-text quantity. */
  datatype Ingredient = Ingredient(item: string, qty: string)

  /** The `{name, quantity_grams}` entry sent for one ingredient. */
  function RequestFor(parseFloat: FloatParser, ingredient: Ingredient): (entry: Json)
    ensures entry.JObj? && entry.fields.Keys == {"name", "quantity_grams"}
    ensures entry.fields["name"] == JStr(ingredient.item)
    ensures entry.fields["quantity_grams"] == JFloat(QuantityGrams(parseFloat, ingredient.qty))
  {
    JObj(map["name" := JStr(ingredient.item), "quantity_grams" := JFloat(QuantityGrams(parseFloat, ingredient.qty))])
  }

  /** The server reads back the name and the grams the client sent. */
  lemma RequestIsNamed(parseFloat: FloatParser, ingredient: Ingredient)
    ensures McpServer.Names(RequestFor(parseFloat, ingredient), ingredient.item,
                            JFloat(QuantityGrams(parseFloat, ingredient.qty)))
  {
  }

  /** `calculate_recipe_nutrition`'s arguments: one entry per ingredient,
      in recipe order, as the client's loop appends them. */
  method CalculateRecipeArguments(parseFloat: FloatParser, ingredients: seq<Ingredient>)
    returns (arguments: map<string, Json>)
    ensures arguments.Keys == {"ingredients"} && arguments["ingredients"].JArr?
    ensures |arguments["ingredients"].items| == |ingredients|
    ensures forall i :: 0 <= i < |ingredients| ==>
      arguments["ingredients"].items[i] == RequestFor(parseFloat, ingredients[i])
  {
    var entries: seq<Json> := [];
    for n := 0 to |ingredients|
      invariant |entries| == n
      invariant forall i :: 0 <= i < n ==> entries[i] == RequestFor(parseFloat, ingredients[i])
    {
      entries := entries + [RequestFor(parseFloat, ingredients[n])];
    }
    arguments := map["ingredients" := JArr(entries)];
  }

  /** The names sent are the recipe's item names, in order. */
  lemma ArgumentsKeepNames(parseFloat: FloatParser, ingredients: seq<Ingredient>, arguments: map<string, Json>)
    requires "ingredients" in arguments && arguments["ingredients"].JArr?
    requires |arguments["ingredients"].items| == |ingredients|
    requires forall i :: 0 <= i < |ingredients| ==>
      arguments["ingredients"].items[i] == RequestFor(parseFloat, ingredients[i])
    ensures forall i :: 0 <= i < |ingredients| ==>
      arguments["ingredients"].items[i].JObj? && "name" in arguments["ingredients"].items[i].fields &&
      arguments["ingredients"].items[i].fields["name"] == JStr(ingredients[i].item)
  {
    forall i | 0 <= i < |ingredients|
      ensures arguments["ingredients"].items[i].JObj? && "name" in arguments["ingredients"].items[i].fields
      ensures arguments["ingredients"].items[i].fields["name"] == JStr(ingredients[i].item)
    {
      var e := RequestFor(parseFloat, ingredients[i]);
      assert "name" in e.fields.Keys;
    }
  }

  // ---------------------------------------------------------------------
  // The profile

  const MacroKeys: seq<string> := ["protein", "fat", "carbs"]

  /** The micronutrients carried over, in the order the profile lists
      them. */
  const MicroKeys: seq<string> := [
    "iron_mg", "vitamin_c_mg", "calcium_mg", "vitamin_a_mcg", "vitamin_d_mcg",
    "vitamin_e_mg", "vitamin_k_mcg", "thiamin_mg", "riboflavin_mg", "niacin_mg",
    "vitamin_b6_mg", "folate_mcg", "vitamin_b12_mcg", "zinc_mg", "magnesium_mg",
    "potassium_mg", "sodium_mg"
  ]

  /** `{k: source.get(k, 0.0) for k in keys}` */
  function Defaulted(keys: seq<string>, source: Record): (m: map<string, Json>)
    ensures forall k :: k in m <==> k in keys
  {
    map k | k in keys :: Get(source, k, JFloat(0.0))
  }

  /** The dictionary handed to `NutritionProfile.model_validate`: the
      calories, the three macros and the seventeen micros, each read from
      the totals with 0.0 as default. */
  function ProfileData(totals: Record): (data: Json)
    ensures data.JObj? && data.fields.Keys == {"calories", "macros", "micros"}
    ensures data.fields["calories"] == Get(totals, "calories", JFloat(0.0))
  {
    JObj(map[
      "calories" := Get(totals, "calories", JFloat(0.0)),
      "macros" := JObj(Defaulted(MacroKeys, totals)),
      "micros" := JObj(Defaulted(MicroKeys, totals))])
  }

  /** Every profile value is the total of the same name, or 0.0 when the
      totals lack it. */
  lemma ProfileReadsTotals(totals: Record, k: string)
    ensures var d := ProfileData(totals).fields;
      (k in MacroKeys ==> d["macros"].fields[k] == Get(totals, k, JFloat(0.0))) &&
      (k in MicroKeys ==> d["micros"].fields[k] == Get(totals, k, JFloat(0.0)))
  {
  }

  /** The profile carries every total the server computes except fiber,
      and fiber appears nowhere in it. */
  lemma ProfileDropsOnlyFiber()
    ensures forall k :: k in McpServer.TotalKeys ==>
      (k == "fiber" <==> !(k == "calories" || k in MacroKeys || k in MicroKeys))
    ensures forall k :: k in MacroKeys || k in MicroKeys ==> k in McpServer.TotalKeys
  {
  }

  /** `str()` of the server's error value; its rendering of non-string
      values is not modelled. */
  type Display = Json -> string

  const FailurePrefix: string := "MCP nutrition calculation failed: "

  /** `"error" in result`: a key test on a dictionary, a membership test on
      a list, a substring test on a string; other values are not
      iterable. */
  function HasErrorMarker(result: Json): Result<bool, PyError> {
    match result
    case JObj(fields) => Ok("error" in fields)
    case JArr(items) => Ok(JStr("error") in items)
    case JStr(s) => Ok(Contains(s, "error"))
    case _ => Err(TypeError("argument of type '" + TypeName(result) + "' is not iterable"))
  }

  /** `compute_nutrition_mcp` after the server call: a result flagged with
      an error becomes `ValueError`; otherwise the totals under
      `recipe_nutrition` (an empty dictionary when absent) are projected
      and validated. `validate` stands for `NutritionProfile.model_validate`. */
  function ComputeNutritionMcp<M>(result: Json, display: Display, validate: Validator<M>): (r: Result<M, PyError>)
    ensures result.JObj? && "error" in result.fields ==>
      r == Err(ValueError(FailurePrefix + display(result.fields["error"])))
    ensures r.Ok? ==>
      result.JObj? && "error" !in result.fields &&
      Get(result.fields, "recipe_nutrition", JObj(map[])).JObj? &&
      validate(ProfileData(Get(result.fields, "recipe_nutrition", JObj(map[])).fields)) == Some(r.value)
    ensures result.JObj? && "error" !in result.fields && "recipe_nutrition" !in result.fields ==>
      r == (if validate(ProfileData(map[])).Some? then Ok(validate(ProfileData(map[])).value)
            else Err(ValidationError("NutritionProfile")))
    ensures result.JObj? && "error" !in result.fields ==>
      var totals := Get(result.fields, "recipe_nutrition", JObj(map[]));
      (!totals.JObj? ==> r == Err(AttributeError("'" + TypeName(totals) + "' object has no attribute 'get'"))) &&
      (totals.JObj? ==>
        var v := validate(ProfileData(totals.fields));
        r == if v.Some? then Ok(v.value) else Err(ValidationError("NutritionProfile")))
  {
    var flagged :- HasErrorMarker(result);
    if flagged then
      if result.JObj? then Err(ValueError(FailurePrefix + display(result.fields["error"])))
      else if result.JArr? then Err(TypeError("list indices must be integers or slices, not str"))
      else Err(TypeError("string indices must be integers"))
    else if !result.JObj? then Err(AttributeError("'" + TypeName(result) + "' object has no attribute 'get'"))
    else
      var totals := Get(result.fields, "recipe_nutrition", JObj(map[]));
      if !totals.JObj? then Err(AttributeError("'" + TypeName(totals) + "' object has no attribute 'get'"))
      else match validate(ProfileData(totals.fields))
        case None => Err(ValidationError("NutritionProfile"))
        case Some(m) => Ok(m)
  }
}
