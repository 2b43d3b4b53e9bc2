/** The tool server (mcp_server.py): the `handle_call_tool` dispatch over
    the store, its error wrapper, and above all the recipe aggregation that
    resolves each ingredient, scales its per-100 g values and sums them
    over a fixed set of nutrients. The server opens the store with the
    estimator disabled and never asks for auto-creation, so it only reads
    the table. */
module McpServer {
  import opened Wrappers
  import opened Records
  import opened Seqs
  import opened FuzzyMatch
  import FoodId
  import opened NutritionDb
  import LlmNutrition

  /** The nutrients the recipe totals cover, in the server's own order. */
  const TotalKeys: seq<string> := [
    "calories", "protein", "fat", "carbs", "fiber",
    "iron_mg", "calcium_mg", "zinc_mg", "magnesium_mg",
    "potassium_mg", "sodium_mg", "vitamin_c_mg",
    "vitamin_a_mcg", "vitamin_d_mcg", "vitamin_e_mg",
    "vitamin_k_mcg", "thiamin_mg", "riboflavin_mg",
    "niacin_mg", "vitamin_b6_mg", "folate_mcg", "vitamin_b12_mcg"
  ]

  /** The score a fuzzy fallback match needs. */
  const FallbackScore: real := 0.7

  const CalculateTool: string := "calculate_recipe_nutrition"

  /** The tools the dispatch knows, in the order it tests them. */
  const ToolNames: seq<string> := [
    "find_ingredient", "get_nutrition_by_id", "search_ingredients", "add_ingredient",
    "get_high_protein_foods", "get_database_stats", CalculateTool
  ]

  /** The clock readings handed to `find_or_create_ingredient`; without
      `auto_add` nothing is stored, so they are never read. */
  const UnreadClock: ClockReadings :=
    ClockReadings(FoodId.Moment(2000, 1, 1, 0, 0), FoodId.Moment(2000, 1, 1, 0, 0))

  /** The totals cover exactly the fields of an estimated profile. */
  lemma TotalKeysAreProfileFields()
    ensures TotalKeys == LlmNutrition.ProfileFields
  {
  }

  // ---------------------------------------------------------------------
  // Rounding

  /** `round(x, 2)` on an exact value: the nearest multiple of 0.01, ties
      to the even multiple. */
  function Round2(x: real): (r: real)
    ensures -0.005 <= r - x <= 0.005
    ensures (r * 100.0).Floor as real == r * 100.0
  {
    var y := x * 100.0;
    var n := y.Floor;
    var frac := y - n as real;
    var m := if frac < 0.5 then n else if frac > 0.5 then n + 1 else if n % 2 == 0 then n else n + 1;
    m as real / 100.0
  }

  /** Rounding a value that already has two decimals changes nothing. */
  lemma Round2Idempotent(x: real)
    ensures Round2(Round2(x)) == Round2(x)
  {
    var r := Round2(x);
    var m := (r * 100.0).Floor;
    assert r * 100.0 == m as real;
    assert (m as real / 100.0) * 100.0 == m as real;
  }

  // ---------------------------------------------------------------------
  // Resolution

  /** The server's two-stage lookup: `find_or_create_ingredient` without
      auto-creation, and when that finds nothing, the top fuzzy hit if it
      scores at least 0.7. Whatever the store raises passes through. */
  function ServerResolve(foods: Store, name: string, ratio: Similarity): (r: Result<Option<Record>, PyError>)
    ensures r.Err? <==> FindIngredient(foods, name, JInt(1), StoreMinConfidence, ratio).Err?
    ensures r.Ok? && r.value.Some? ==> HasScore(r.value.value) && ScoreOf(r.value.value) >= FallbackScore
  {
    NoEstimateNeverWrites(foods, name, false, StoreMinConfidence, Disabled, ratio, UnreadClock);
    var first :- FindOrCreateIngredient(foods, name, false, StoreMinConfidence, Disabled, ratio, UnreadClock);
    if first.food.Some? then Ok(first.food)
    else
      var matches := FindIngredient(foods, name, JInt(1), StoreMinConfidence, ratio).value;
      Ok(if matches != [] && ScoreOf(matches[0]) >= FallbackScore then Some(matches[0]) else None)
  }

  /** How the recipe loop finds an ingredient's record from its name: a
      record, nothing, or the error the lookup raised. */
  type Resolver = string -> Result<Option<Record>, PyError>

  /** The server's resolver over its table. */
  function ServerResolver(foods: Store, ratio: Similarity): Resolver {
    (name: string) => ServerResolve(foods, name, ratio)
  }

  /** The two stages collapse into one rule: the top match of
      `find_ingredient(name, 1)` is used exactly when it scores at least
      0.7. A gate-passing match scores 0.8 or more; an incomplete estimate
      refused by the gate comes back through the fallback. The lookup's
      error is the resolution's error. */
  lemma ResolveIsTopMatchAbove(foods: Store, name: string, ratio: Similarity)
    ensures var m := FindIngredient(foods, name, JInt(1), StoreMinConfidence, ratio);
      ServerResolve(foods, name, ratio) ==
        if m.Err? then Err(m.error)
        else Ok(if m.value != [] && ScoreOf(m.value[0]) >= FallbackScore then Some(m.value[0]) else None)
  {
    NoEstimateNeverWrites(foods, name, false, StoreMinConfidence, Disabled, ratio, UnreadClock);
  }

  // ---------------------------------------------------------------------
  // Scaling

  /** The per-100 g value of a nutrient, 0 when the record lacks it. */
  function Per100g(food: Record, key: string): Option<real> {
    AsNumber(Get(food, key, JInt(0)))
  }

  /** `food_data.get(nutrient, 0) * scale_factor` for each key in turn; a
      non-numeric value makes the product raise. */
  function Scaled(food: Record, keys: seq<string>, factor: real): (r: Result<seq<real>, PyError>)
    ensures r.Ok? <==> forall i :: 0 <= i < |keys| ==> Per100g(food, keys[i]).Some?
    ensures r.Ok? ==> |r.value| == |keys|
    ensures r.Ok? ==> forall i :: 0 <= i < |keys| ==> r.value[i] == Per100g(food, keys[i]).value * factor
  {
    if forall i :: 0 <= i < |keys| ==> Per100g(food, keys[i]).Some? then
      Ok(seq(|keys|, i requires 0 <= i < |keys| => Per100g(food, keys[i]).value * factor))
    else
      Err(TypeError("unsupported operand type(s) for *: a nutrient value and 'float'"))
  }

  /** 200 g of a food with 50 kcal per 100 g contributes 100 kcal. */
  lemma ScalingExample(food: Record)
    requires "calories" in food && food["calories"] == JInt(50)
    requires Scaled(food, TotalKeys, 200.0 / 100.0).Ok?
    ensures Scaled(food, TotalKeys, 200.0 / 100.0).value[0] == 100.0
  {
  }

  // ---------------------------------------------------------------------
  // One ingredient

  /** `{k: v for k, v in zip(keys, values)}` */
  function Keyed(keys: seq<string>, values: seq<Json>): map<string, Json>
    requires |keys| == |values|
    decreases |keys|
  {
    if keys == [] then map[]
    else Keyed(keys[1..], values[1..])[keys[0] := values[0]]
  }

  /** With distinct keys, each key maps to the value at its position, and
      nothing else is a key. */
  lemma {:induction false} KeyedLookup(keys: seq<string>, values: seq<Json>, i: nat)
    requires |keys| == |values| && LlmNutrition.Distinct(keys) && i < |keys|
    ensures keys[i] in Keyed(keys, values) && Keyed(keys, values)[keys[i]] == values[i]
    decreases |keys|
  {
    if i > 0 {
      KeyedLookup(keys[1..], values[1..], i - 1);
    }
  }

  lemma {:induction false} KeyedKeys(keys: seq<string>, values: seq<Json>, k: string)
    requires |keys| == |values|
    ensures k in Keyed(keys, values) <==> k in keys
    decreases |keys|
  {
    if keys != [] {
      KeyedKeys(keys[1..], values[1..], k);
    }
  }

  /** `KeyedKeys` and `KeyedLookup` for every key at once. */
  lemma KeyedAll(keys: seq<string>, values: seq<Json>)
    requires |keys| == |values|
    ensures forall k :: k in Keyed(keys, values) <==> k in keys
    ensures LlmNutrition.Distinct(keys) ==>
      forall i :: 0 <= i < |keys| ==> Keyed(keys, values)[keys[i]] == values[i]
  {
    forall k ensures k in Keyed(keys, values) <==> k in keys {
      KeyedKeys(keys, values, k);
    }
    if LlmNutrition.Distinct(keys) {
      forall i | 0 <= i < |keys| ensures Keyed(keys, values)[keys[i]] == values[i] {
        KeyedLookup(keys, values, i);
      }
    }
  }

  function NotFoundMessage(name: string): string {
    "No nutrition data found for '" + name + "'"
  }

  /** The breakdown entry of an ingredient nothing was found for. */
  function MissingEntry(name: string, q: Json): Json {
    JObj(map["name" := JStr(name), "quantity_grams" := q, "error" := JStr(NotFoundMessage(name))])
  }

  /** The breakdown entry of a resolved ingredient: its rounded amounts and
      where the data came from. */
  function FoundEntry(keys: seq<string>, name: string, q: Json, amounts: seq<real>, food: Record): Json
    requires |amounts| == |keys|
  {
    var nutrition := Keyed(keys, Map(amounts, (a: real) => JFloat(Round2(a))));
    JObj(map[
      "name" := JStr(name),
      "quantity_grams" := q,
      "nutrition" := JObj(nutrition),
      "food_id" := Get(food, "food_id", JNull),
      "source" := Get(food, "source", JNull)])
  }

  /** What one pass of the loop produces: the breakdown entry and, for a
      resolved ingredient, the unrounded amounts added to the totals. */
  datatype Visit = Visit(entry: Json, amounts: Option<seq<real>>)

  /** `ingredient["name"]`, when that lookup succeeds. */
  function NameOf(ingredient: Json): Option<Json> {
    if ingredient.JObj? && "name" in ingredient.fields then Some(ingredient.fields["name"]) else None
  }

  /** One pass of the loop body. The name and quantity are read first; a
      name that is not a string fails in the store's `lower()`; a missing
      ingredient records an error entry without touching its quantity; a
      resolved one has its quantity divided by 100 and every nutrient
      scaled. */
  function VisitIngredient(resolve: Resolver, ingredient: Json): (r: Result<Visit, PyError>)
    ensures r.Ok? ==> NameOf(ingredient).Some? && NameOf(ingredient).value.JStr?
    ensures r.Ok? && r.value.amounts.Some? ==> |r.value.amounts.value| == |TotalKeys|
  {
    if !ingredient.JObj? then Err(TypeError("ingredient is not subscriptable by 'name'"))
    else if "name" !in ingredient.fields then Err(KeyError("name"))
    else if "quantity_grams" !in ingredient.fields then Err(KeyError("quantity_grams"))
    else
      var name := ingredient.fields["name"];
      var q := ingredient.fields["quantity_grams"];
      if !name.JStr? then Err(NoLower(name))
      else
        var found :- resolve(name.s);
        VisitNamed(TotalKeys, found, name.s, q)
  }

  /** The loop body once the name and quantity are read and the name was
      looked up, for the nutrients `keys`. */
  function VisitNamed(keys: seq<string>, found: Option<Record>, name: string, q: Json): (r: Result<Visit, PyError>)
    ensures r.Ok? && r.value.amounts.Some? ==> |r.value.amounts.value| == |keys|
  {
    match found
    case None => Ok(Visit(MissingEntry(name, q), None))
    case Some(food) =>
      match AsNumber(q)
      case None => Err(TypeError("unsupported operand type(s) for /: quantity_grams and 'float'"))
      case Some(grams) =>
        var amounts :- Scaled(food, keys, grams / 100.0);
        Ok(Visit(FoundEntry(keys, name, q, amounts, food), Some(amounts)))
  }

  /** An ingredient `{"name": n, "quantity_grams": q}` and nothing else
      decides the outcome. */
  predicate Names(ingredient: Json, name: string, q: Json) {
    ingredient.JObj? && "name" in ingredient.fields && ingredient.fields["name"] == JStr(name) &&
    "quantity_grams" in ingredient.fields && ingredient.fields["quantity_grams"] == q
  }

  /** An ingredient nothing resolves to yields its error entry, whatever
      its quantity, and adds nothing. */
  lemma MissingIngredientIsReported(resolve: Resolver, ingredient: Json, name: string, q: Json)
    requires Names(ingredient, name, q) && resolve(name) == Ok(None)
    ensures VisitIngredient(resolve, ingredient) == Ok(Visit(MissingEntry(name, q), None))
  {
  }

  /** An error raised while looking the name up fails the ingredient with
      that error. */
  lemma ResolutionErrorAborts(resolve: Resolver, ingredient: Json, name: string, q: Json)
    requires Names(ingredient, name, q) && resolve(name).Err?
    ensures VisitIngredient(resolve, ingredient) == Err(resolve(name).error)
  {
  }

  /** A resolved ingredient whose quantity is a number (an `int`, a
      `float` or a `bool`) contributes exactly its record scaled by
      grams / 100 (each nutrient's per-100 g value, 0 when absent, times
      that factor), and fails only when the scaling does, that is when some
      nutrient value is not a number. A quantity that is not a number fails
      the division. */
  lemma FoundIngredientScales(resolve: Resolver, ingredient: Json, name: string, q: Json)
    requires Names(ingredient, name, q) && resolve(name).Ok? && resolve(name).value.Some?
    ensures AsNumber(q).None? ==> VisitIngredient(resolve, ingredient).Err?
    ensures AsNumber(q).Some? ==>
      var v := VisitIngredient(resolve, ingredient);
      var amounts := Scaled(resolve(name).value.value, TotalKeys, AsNumber(q).value / 100.0);
      (v.Ok? <==> amounts.Ok?) &&
      (v.Ok? ==> v.value == Visit(FoundEntry(TotalKeys, name, q, amounts.value, resolve(name).value.value), Some(amounts.value)))
  {
    var food := resolve(name).value.value;
    assert VisitIngredient(resolve, ingredient) == VisitNamed(TotalKeys, Some(food), name, q);
    FoundScales(TotalKeys, food, name, q);
  }

  lemma FoundScales(keys: seq<string>, food: Record, name: string, q: Json)
    ensures AsNumber(q).None? ==> VisitNamed(keys, Some(food), name, q).Err?
    ensures AsNumber(q).Some? ==>
      var v := VisitNamed(keys, Some(food), name, q);
      var amounts := Scaled(food, keys, AsNumber(q).value / 100.0);
      (v.Ok? <==> amounts.Ok?) && (v.Ok? ==> v.value == Visit(FoundEntry(keys, name, q, amounts.value, food), Some(amounts.value)))
  {
  }

  // ---------------------------------------------------------------------
  // The aggregation loop

  /** The loop body for one ingredient. */
  type Visitor = Json -> Result<Visit, PyError>

  /** Every ingredient of the list passes the loop body. */
  predicate AllVisit(visit: Visitor, ingredients: seq<Json>)
  {
    forall i :: 0 <= i < |ingredients| ==> visit(ingredients[i]).Ok?
  }

  /** The amount ingredient `v` adds to nutrient `k`. */
  function AddedAt(v: Visit, k: nat): real {
    if v.amounts.Some? && k < |v.amounts.value| then v.amounts.value[k] else 0.0
  }

  /** The sum, over the ingredients in order, of what each adds to
      nutrient `k`. */
  function ColumnSum(visit: Visitor, ingredients: seq<Json>, k: nat): real
    requires AllVisit(visit, ingredients)
    decreases |ingredients|
  {
    if ingredients == [] then 0.0
    else
      var n := |ingredients| - 1;
      assert AllVisit(visit, ingredients[..n]) by {
        assert forall i :: 0 <= i < n ==> ingredients[..n][i] == ingredients[i];
      }
      ColumnSum(visit, ingredients[..n], k) + AddedAt(visit(ingredients[n]).value, k)
  }

  /** The ingredients up to `j` pass and the one at `j` fails. */
  predicate FailsFirstAt(visit: Visitor, ingredients: seq<Json>, j: int)
  {
    0 <= j < |ingredients| && AllVisit(visit, ingredients[..j]) &&
    visit(ingredients[j]).Err?
  }

  /** What the variable `name` holds after the loop has started on each of
      `ingredients`: the last name read, or the tool name before any. */
  function NameBinding(ingredients: seq<Json>, tool: string): Json
    decreases |ingredients|
  {
    if ingredients == [] then JStr(tool)
    else
      var n := |ingredients| - 1;
      match NameOf(ingredients[n])
      case Some(v) => v
      case None => NameBinding(ingredients[..n], tool)
  }

  /** The aggregate before rounding: one total per nutrient, the breakdown
      in input order, and whether any ingredient was resolved. */
  datatype Recipe = Recipe(totals: seq<real>, breakdown: seq<Json>, resolved: bool)

  /** A failure inside the handler, with what `name` was bound to when it
      was raised; the error payload reports that as the tool. */
  datatype Failure = Failure(error: PyError, tool: Json)

  predicate SomeResolved(visit: Visitor, ingredients: seq<Json>)
    requires AllVisit(visit, ingredients)
  {
    exists i :: 0 <= i < |ingredients| && visit(ingredients[i]).value.amounts.Some?
  }

  lemma PrefixVisits(visit: Visitor, ingredients: seq<Json>, i: nat)
    requires i < |ingredients|
    requires AllVisit(visit, ingredients[..i]) && visit(ingredients[i]).Ok?
    ensures AllVisit(visit, ingredients[..i + 1])
    ensures ingredients[..i + 1][..i] == ingredients[..i]
  {
    assert forall m :: 0 <= m < i + 1 ==> ingredients[..i + 1][m] == ingredients[m];
  }

  /** The `calculate_recipe_nutrition` loop, given its body: every
      ingredient is visited in order; totals accumulate unrounded amounts; the first failing
      ingredient aborts the call, reporting the name bound at that moment. */
  method CalculateRecipeNutrition(visit: Visitor, ingredients: seq<Json>)
    returns (r: Result<Recipe, Failure>)
    ensures r.Ok? <==> AllVisit(visit, ingredients)
    ensures r.Ok? ==>
      |r.value.breakdown| == |ingredients| && forall i :: 0 <= i < |ingredients| ==> r.value.breakdown[i] == visit(ingredients[i]).value.entry
    ensures r.Ok? ==>
      |r.value.totals| == |TotalKeys| && forall k :: 0 <= k < |TotalKeys| ==> r.value.totals[k] == ColumnSum(visit, ingredients, k)
    ensures r.Ok? ==> (r.value.resolved <==> SomeResolved(visit, ingredients))
    ensures r.Err? ==> exists j ::
      FailsFirstAt(visit, ingredients, j) && r.error == Failure(visit(ingredients[j]).error, NameBinding(ingredients[..j + 1], CalculateTool))
  {
    var totals := seq(|TotalKeys|, _ => 0.0);
    var breakdown := [];
    var resolved := false;
    for i := 0 to |ingredients|
      invariant AllVisit(visit, ingredients[..i])
      invariant |breakdown| == i
      invariant forall m :: 0 <= m < i ==> breakdown[m] == visit(ingredients[m]).value.entry
      invariant |totals| == |TotalKeys|
      invariant forall k :: 0 <= k < |TotalKeys| ==> totals[k] == ColumnSum(visit, ingredients[..i], k)
      invariant resolved <==> SomeResolved(visit, ingredients[..i])
    {
      var outcome := visit(ingredients[i]);
      if outcome.Err? {
        assert FailsFirstAt(visit, ingredients, i);
        return Err(Failure(outcome.error, NameBinding(ingredients[..i + 1], CalculateTool)));
      }
      PrefixVisits(visit, ingredients, i);
      var v := outcome.value;
      totals := seq(|TotalKeys|, k requires 0 <= k < |TotalKeys| => totals[k] + AddedAt(v, k));
      breakdown := breakdown + [v.entry];
      resolved := resolved || v.amounts.Some?;
      assert SomeResolved(visit, ingredients[..i + 1]) <==>
        SomeResolved(visit, ingredients[..i]) || v.amounts.Some? by {
        assert forall m :: 0 <= m < i ==> ingredients[..i + 1][m] == ingredients[..i][m];
        assert ingredients[..i + 1][i] == ingredients[i];
      }
    }
    assert ingredients[..|ingredients|] == ingredients;
    return Ok(Recipe(totals, breakdown, resolved));
  }

  /** An ingredient with no data leaves every total as it was. */
  lemma MissingAddsNothing(visit: Visitor, ingredients: seq<Json>, extra: Json, k: nat)
    requires AllVisit(visit, ingredients + [extra]) && visit(extra).Ok?
    requires visit(extra).value.amounts.None?
    ensures AllVisit(visit, ingredients)
    ensures ColumnSum(visit, ingredients + [extra], k) == ColumnSum(visit, ingredients, k)
  {
    assert (ingredients + [extra])[..|ingredients|] == ingredients;
    assert forall i :: 0 <= i < |ingredients| ==> (ingredients + [extra])[i] == ingredients[i];
  }

  /** With no ingredient resolved, an empty list included, every total is 0. */
  lemma {:induction false} UnresolvedSumsToZero(visit: Visitor, ingredients: seq<Json>, k: nat)
    requires AllVisit(visit, ingredients)
    requires !SomeResolved(visit, ingredients)
    ensures ColumnSum(visit, ingredients, k) == 0.0
    decreases |ingredients|
  {
    if ingredients != [] {
      var n := |ingredients| - 1;
      assert forall i :: 0 <= i < n ==> ingredients[..n][i] == ingredients[i];
      UnresolvedSumsToZero(visit, ingredients[..n], k);
    }
  }

  /** The aggregate of a list every ingredient of which passes: each
      nutrient's column sum, each ingredient's breakdown entry in input
      order, and whether any ingredient was resolved. */
  function Aggregate(visit: Visitor, ingredients: seq<Json>): Recipe
    requires AllVisit(visit, ingredients)
  {
    Recipe(
      seq(|TotalKeys|, k requires 0 <= k < |TotalKeys| => ColumnSum(visit, ingredients, k)),
      seq(|ingredients|, i requires 0 <= i < |ingredients| => visit(ingredients[i]).value.entry),
      SomeResolved(visit, ingredients))
  }

  /** The server's loop body: `VisitIngredient` over the server's resolver. */
  function ServerVisitor(foods: Store, ratio: Similarity): Visitor {
    (ingredient: Json) => VisitIngredient(ServerResolver(foods, ratio), ingredient)
  }

  // ---------------------------------------------------------------------
  // Payloads

  /** A payload that is not the error wrapper. */
  predicate Plain(payload: Json) {
    payload.JObj? && "error" !in payload.fields
  }

  /** The recipe's output: totals rounded once at the end (they stay the
      integer 0 when no ingredient contributed a float) and the breakdown. */
  function RecipePayload(keys: seq<string>, recipe: Recipe): (payload: Json)
    requires |recipe.totals| == |keys|
    ensures Plain(payload)
    ensures "ingredient_breakdown" in payload.fields &&
            payload.fields["ingredient_breakdown"] == JArr(recipe.breakdown)
    ensures "recipe_nutrition" in payload.fields && payload.fields["recipe_nutrition"].JObj?
    ensures forall k :: k in payload.fields["recipe_nutrition"].fields <==> k in keys
    ensures LlmNutrition.Distinct(keys) ==> forall i :: 0 <= i < |keys| ==>
      payload.fields["recipe_nutrition"].fields[keys[i]] ==
        if recipe.resolved then JFloat(Round2(recipe.totals[i])) else JInt(0)
  {
    var shown := Map(recipe.totals, (t: real) => if recipe.resolved then JFloat(Round2(t)) else JInt(0));
    KeyedAll(keys, shown);
    JObj(map["recipe_nutrition" := JObj(Keyed(keys, shown)), "ingredient_breakdown" := JArr(recipe.breakdown)])
  }

  /** The payload that replaces a failed call. */
  function ErrorPayload(e: PyError, tool: Json, arguments: map<string, Json>): (payload: Json)
    ensures IsErrorPayload(payload) && "arguments" in payload.fields && payload.fields["arguments"] == JObj(arguments)
  {
    JObj(map["error" := JStr(Describe(e)), "tool" := tool, "arguments" := JObj(arguments)])
  }

  predicate IsErrorPayload(payload: Json) {
    payload.JObj? && "error" in payload.fields
  }

  /** A list of records as JSON. */
  function RecordList(foods: Store): Json {
    JArr(Map(foods, (f: Record) => JObj(f)))
  }

  function StatsPayload(s: Stats): Json {
    JObj(map[
      "total_foods" := JInt(s.totalFoods),
      "foods_with_serving_sizes" := JInt(s.withServingSizes),
      "foods_by_source" := JObj(map["usda" := JInt(s.usda), "llm_estimate" := JInt(s.llmEstimate)]),
      "foods_with_protein_data" := JInt(s.withProtein),
      "foods_with_fat_data" := JInt(s.withFat),
      "foods_with_carb_data" := JInt(s.withCarbs)])
  }

  /** A required string argument, `KeyError` when absent and
      `AttributeError` (from the store's `lower()`) when not a string. */
  function TextArgument(arguments: map<string, Json>, key: string): Result<string, PyError> {
    if key !in arguments then Err(KeyError(key))
    else if !arguments[key].JStr? then Err(NoLower(arguments[key]))
    else Ok(arguments[key].s)
  }

  /** The payload's `countKey` field is the length of its `listKey` list. */
  predicate Counted(payload: Json, countKey: string, listKey: string) {
    payload.JObj? && countKey in payload.fields && listKey in payload.fields &&
    payload.fields[listKey].JArr? && payload.fields[countKey] == JInt(|payload.fields[listKey].items|)
  }

  /** `{keyName: key, countKey: len(results), listKey: results}`, the shape
      of the three list-returning tools. */
  function ListPayload(keyName: string, key: Json, countKey: string, listKey: string, results: Store): (payload: Json)
    requires keyName != countKey && keyName != listKey && countKey != listKey
    requires "error" != keyName && "error" != countKey && "error" != listKey
    ensures Plain(payload) && Counted(payload, countKey, listKey)
    ensures |payload.fields[listKey].items| == |results|
  {
    JObj(map[keyName := key, countKey := JInt(|results|), listKey := RecordList(results)])
  }

  /** `{keyName: key, flagKey: found is not None, "data": found}`, the shape
      of the two single-record tools. */
  function LookupPayload(keyName: string, key: Json, flagKey: string, found: Option<Record>): (payload: Json)
    requires keyName != flagKey && keyName != "data" && flagKey != "data"
    requires "error" != keyName && "error" != flagKey
    ensures Plain(payload) && flagKey in payload.fields && "data" in payload.fields
    ensures payload.fields[flagKey] == JBool(found.Some?)
    ensures found.None? <==> payload.fields["data"] == JNull
  {
    JObj(map[keyName := key, flagKey := JBool(found.Some?), "data" := if found.Some? then JObj(found.value) else JNull])
  }

  /** `find_ingredient`: the store's answer for the name with
      `max_results` (default 5), and its length. Whatever the store
      raises passes through. */
  function FindIngredientTool(foods: Store, arguments: map<string, Json>, ratio: Similarity): (r: Result<Json, PyError>)
    ensures r.Ok? ==> Plain(r.value) && Counted(r.value, "results_found", "matches")
    ensures TextArgument(arguments, "ingredient_name").Err? ==> r == Err(TextArgument(arguments, "ingredient_name").error)
    ensures var query := TextArgument(arguments, "ingredient_name");
      query.Ok? ==>
        var found := FindIngredient(foods, query.value, Get(arguments, "max_results", JInt(DefaultMaxResults)), StoreMinConfidence, ratio);
        (r.Err? <==> found.Err?) && (r.Ok? ==> r.value.fields["matches"] == RecordList(found.value))
    ensures r.Ok? && "max_results" !in arguments ==> |r.value.fields["matches"].items| <= DefaultMaxResults
  {
    var query :- TextArgument(arguments, "ingredient_name");
    var maxResults := Get(arguments, "max_results", JInt(DefaultMaxResults));
    var results :- FindIngredient(foods, query, maxResults, StoreMinConfidence, ratio);
    FindIngredientWithinLimit(foods, query, maxResults, StoreMinConfidence, ratio);
    Ok(ListPayload("ingredient_searched", JStr(query), "results_found", "matches", results))
  }

  /** `get_nutrition_by_id`: whether a record carries the id, and the first
      such record. Stored ids are strings, so any other id finds nothing. */
  function NutritionByIdTool(foods: Store, arguments: map<string, Json>): (r: Result<Json, PyError>)
    ensures r.Err? <==> "food_id" !in arguments
    ensures r.Ok? ==> Plain(r.value) && "found" in r.value.fields && "data" in r.value.fields
    ensures r.Ok? ==> (r.value.fields["found"] == JBool(true) <==> r.value.fields["data"] != JNull)
    ensures r.Ok? && arguments["food_id"].JStr? ==>
      (r.value.fields["found"] == JBool(true) <==> exists i :: 0 <= i < |foods| && HasId(foods[i], arguments["food_id"].s))
  {
    if "food_id" !in arguments then Err(KeyError("food_id"))
    else
      var id := arguments["food_id"];
      var found := if id.JStr? then GetFoodById(foods, id.s) else None;
      Ok(LookupPayload("food_id", id, "found", found))
  }

  /** `search_ingredients`: the records whose description contains the
      term, with their count; a description that is not a string raises. */
  function SearchTool(foods: Store, arguments: map<string, Json>): (r: Result<Json, PyError>)
    ensures r.Err? <==> (!("description" in arguments && arguments["description"].JStr?) ||
      SearchByDescription(foods, arguments["description"].s).Err?)
    ensures r.Ok? ==> Plain(r.value) && Counted(r.value, "results_found", "matches")
    ensures r.Ok? ==> r.value.fields["matches"] == RecordList(SearchByDescription(foods, arguments["description"].s).value)
  {
    var term :- TextArgument(arguments, "description");
    var results :- SearchByDescription(foods, term);
    Ok(ListPayload("search_term", JStr(term), "results_found", "matches", results))
  }

  /** `add_ingredient`: a lookup without auto-creation; `added` reports
      whether an existing record was found. */
  function AddIngredientTool(foods: Store, arguments: map<string, Json>, ratio: Similarity): (r: Result<Json, PyError>)
    ensures r.Err? <==> (!("ingredient_name" in arguments && arguments["ingredient_name"].JStr?) ||
      FindIngredient(foods, arguments["ingredient_name"].s, JInt(1), StoreMinConfidence, ratio).Err?)
    ensures r.Ok? ==> Plain(r.value) && "added" in r.value.fields && "data" in r.value.fields
    ensures r.Ok? ==> (r.value.fields["added"] == JBool(true) <==> r.value.fields["data"] != JNull)
  {
    var ingredient :- TextArgument(arguments, "ingredient_name");
    NoEstimateNeverWrites(foods, ingredient, false, StoreMinConfidence, Disabled, ratio, UnreadClock);
    var found :- FindOrCreateIngredient(foods, ingredient, false, StoreMinConfidence, Disabled, ratio, UnreadClock);
    Ok(LookupPayload("ingredient_name", JStr(ingredient), "added", found.food))
  }

  /** `added` is true exactly when the top match passes the store's gate;
      nothing is ever inserted. */
  lemma AddIngredientOnlyFinds(foods: Store, name: string, arguments: map<string, Json>, ratio: Similarity)
    requires "ingredient_name" in arguments && arguments["ingredient_name"] == JStr(name)
    requires FindIngredient(foods, name, JInt(1), StoreMinConfidence, ratio).Ok?
    ensures AddIngredientTool(foods, arguments, ratio).Ok?
    ensures AddIngredientTool(foods, arguments, ratio).value.fields["added"] ==
      JBool(Accepted(FindIngredient(foods, name, JInt(1), StoreMinConfidence, ratio).value))
  {
    NoEstimateNeverWrites(foods, name, false, StoreMinConfidence, Disabled, ratio, UnreadClock);
  }

  /** `get_high_protein_foods`: the store's high-protein list for
      `min_protein` (default 20.0), echoed back with the list's length. */
  function HighProteinTool(foods: Store, arguments: map<string, Json>): (r: Result<Json, PyError>)
    ensures r.Ok? ==> Plain(r.value) && Counted(r.value, "foods_found", "high_protein_foods")
    ensures var threshold := Get(arguments, "min_protein", JFloat(DefaultMinProtein));
      (r.Err? <==> HighProteinFoods(foods, threshold).Err?) &&
      (r.Ok? ==> "min_protein_threshold" in r.value.fields &&
                 r.value.fields["high_protein_foods"] == RecordList(HighProteinFoods(foods, threshold).value) &&
                 r.value.fields["min_protein_threshold"] == threshold)
  {
    var threshold := Get(arguments, "min_protein", JFloat(DefaultMinProtein));
    var results :- HighProteinFoods(foods, threshold);
    Ok(ListPayload("min_protein_threshold", threshold, "foods_found", "high_protein_foods", results))
  }

  /** A table in which no record has `protein` yields an empty list for
      any `min_protein` TinyDB can hash, even one no number can be
      compared with. */
  lemma NoProteinToolFindsNothing(foods: Store, arguments: map<string, Json>)
    requires !Unhashable(Get(arguments, "min_protein", JFloat(DefaultMinProtein)))
    requires forall i :: 0 <= i < |foods| ==> "protein" !in foods[i]
    ensures HighProteinTool(foods, arguments).Ok?
    ensures HighProteinTool(foods, arguments).value.fields["foods_found"] == JInt(0)
  {
    NoProteinNoComparison(foods, Get(arguments, "min_protein", JFloat(DefaultMinProtein)));
  }

  /** The tools other than the recipe calculation. */
  function ToolResult(foods: Store, name: string, arguments: map<string, Json>, ratio: Similarity)
    : (r: Result<Json, PyError>)
    ensures name !in ToolNames ==> r == Err(ValueError("Unknown tool: " + name))
    ensures r.Ok? ==> Plain(r.value)
    ensures name == "find_ingredient" ==> r == FindIngredientTool(foods, arguments, ratio)
    ensures name == "get_nutrition_by_id" ==> r == NutritionByIdTool(foods, arguments)
    ensures name == "search_ingredients" ==> r == SearchTool(foods, arguments)
    ensures name == "add_ingredient" ==> r == AddIngredientTool(foods, arguments, ratio)
    ensures name == "get_high_protein_foods" ==> r == HighProteinTool(foods, arguments)
    ensures name == "get_database_stats" ==>
      r == Ok(JObj(map["database_statistics" := StatsPayload(DatabaseStats(foods))]))
  {
    if name == "find_ingredient" then FindIngredientTool(foods, arguments, ratio)
    else if name == "get_nutrition_by_id" then NutritionByIdTool(foods, arguments)
    else if name == "search_ingredients" then SearchTool(foods, arguments)
    else if name == "add_ingredient" then AddIngredientTool(foods, arguments, ratio)
    else if name == "get_high_protein_foods" then HighProteinTool(foods, arguments)
    else if name == "get_database_stats" then Ok(JObj(map["database_statistics" := StatsPayload(DatabaseStats(foods))]))
    else Err(ValueError("Unknown tool: " + name))
  }

  /** The recipe tool's input as the loop iterates it: a list gives its
      items, a string its one-character strings, a dictionary its keys
      (an empty one gives nothing, a non-empty one fails on its first key
      because a string cannot be indexed by `"name"`). */
  function Iterated(j: Json): Result<seq<Json>, PyError> {
    match j
    case JArr(items) => Ok(items)
    case JStr(s) => Ok(seq(|s|, i requires 0 <= i < |s| => JStr([s[i]])))
    case JObj(m) =>
      if m == map[] then Ok([]) else Err(TypeError("string indices must be integers"))
    case _ => Err(TypeError("object is not iterable"))
  }

  /** What the `calculate_recipe_nutrition` branch replies: the error
      payload naming the tool when `ingredients` is missing or cannot be
      iterated; the rounded aggregate when every ingredient passes;
      otherwise the error payload of the first ingredient that fails, naming
      whatever `name` was bound to at that moment. */
  ghost predicate RecipeReply(visit: Visitor, arguments: map<string, Json>, payload: Json) {
    if "ingredients" !in arguments then
      payload == ErrorPayload(KeyError("ingredients"), JStr(CalculateTool), arguments)
    else match Iterated(arguments["ingredients"])
      case Err(e) => payload == ErrorPayload(e, JStr(CalculateTool), arguments)
      case Ok(items) =>
        if AllVisit(visit, items) then payload == RecipePayload(TotalKeys, Aggregate(visit, items))
        else exists j ::
          FailsFirstAt(visit, items, j) &&
          payload == ErrorPayload(visit(items[j]).error, NameBinding(items[..j + 1], CalculateTool), arguments)
  }

  /** The `calculate_recipe_nutrition` branch: the recipe payload, or the
      error payload naming whatever `name` was bound to when the failure
      happened. */
  method RecipeTool(visit: Visitor, arguments: map<string, Json>) returns (payload: Json)
    ensures payload.JObj?
    ensures "ingredients" !in arguments ==>
      payload == ErrorPayload(KeyError("ingredients"), JStr(CalculateTool), arguments)
    ensures "ingredients" in arguments && Iterated(arguments["ingredients"]).Ok? ==>
      (IsErrorPayload(payload) <==> !AllVisit(visit, Iterated(arguments["ingredients"]).value))
    ensures IsErrorPayload(payload) ==> "arguments" in payload.fields && payload.fields["arguments"] == JObj(arguments)
    ensures RecipeReply(visit, arguments, payload)
  {
    if "ingredients" !in arguments {
      return ErrorPayload(KeyError("ingredients"), JStr(CalculateTool), arguments);
    }
    var items := Iterated(arguments["ingredients"]);
    if items.Err? {
      return ErrorPayload(items.error, JStr(CalculateTool), arguments);
    }
    var recipe := CalculateRecipeNutrition(visit, items.value);
    if recipe.Err? {
      return ErrorPayload(recipe.error.error, recipe.error.tool, arguments);
    }
    assert recipe.value == Aggregate(visit, items.value);
    payload := RecipePayload(TotalKeys, recipe.value);
  }

  /** `handle_call_tool`: the named tool's payload, or, when anything
      raises, the `{error, tool, arguments}` payload. */
  method HandleCallTool(foods: Store, name: string, arguments: map<string, Json>, ratio: Similarity)
    returns (payload: Json)
    ensures payload.JObj?
    ensures name !in ToolNames ==>
      payload == ErrorPayload(ValueError("Unknown tool: " + name), JStr(name), arguments)
    ensures name != CalculateTool ==> (IsErrorPayload(payload) <==> ToolResult(foods, name, arguments, ratio).Err?)
    ensures name != CalculateTool ==>
      var r := ToolResult(foods, name, arguments, ratio);
      payload == if r.Ok? then r.value else ErrorPayload(r.error, JStr(name), arguments)
    ensures name == CalculateTool ==> RecipeReply(ServerVisitor(foods, ratio), arguments, payload)
  {
    if name == CalculateTool {
      payload := RecipeTool(ServerVisitor(foods, ratio), arguments);
    } else {
      var r := ToolResult(foods, name, arguments, ratio);
      payload := if r.Ok? then r.value else ErrorPayload(r.error, JStr(name), arguments);
    }
  }
}
