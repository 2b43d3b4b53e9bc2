# recipeAI nutrition resolution, modelled in Dafny

recipeAI plans a meal, has a language model write the recipe, and works
out the recipe's nutrition from a local food table. This project models
the deterministic part of that path and proves properties of it:

- **fuzzy matching** of ingredient names against food descriptions
  (`FuzzyMatch`): noise-word normalisation, word overlap, the key-word
  rule, the 0.3/0.5/0.2 weighted score, and the filter, stable-sort and
  truncate ranking;
- **the food store** (`NutritionDb`, `FoodId`): id lookup, the
  order-preserving filters, `find_ingredient` with its substring shortcut,
  `find_or_create_ingredient` with its 0.8 gate and "incomplete estimate"
  fall-through, append-only `add_food` with its metadata merge, usage
  counting, and slug-plus-timestamp ids;
- **the estimate check** (`LlmNutrition`): a negative number rejects an
  estimate, while the 4-4-9 calorie check only warns;
- **the tool server** (`McpServer`): the `handle_call_tool` dispatch, its
  error wrapper, and the recipe aggregation over 22 nutrients;
- **the clients** (`McpClient`, `McpTools`): the request-id counter,
  quantity parsing, the request list, the profile projection, the
  client-manager state machine, and input normalisation in the agent tools;
- **reference data** (`Converters`): stamping the source table with
  `food_id`, `source` and `confidence`;
- **reading JSON out of model replies** (`Extraction`, `AgentUtils`,
  `Planner`, `SrcPlanner`, `Chef`, `SrcChef`, `Nutrition`): fence
  stripping, the first-`{`-to-last-`}` span, the `Final Answer:` tail,
  the lazy fenced match of `generate_nutrition_aware_recipe`, and which
  error each failure raises.

The store is a `seq` of `map<string, Json>` records. Nothing forces a
record's `description` to be a string: a search skips a record without
one and raises on one that is not a string, and the fuzzy matcher raises
on either, as the Python code does. The `Json` type
separates Python `int` from `float` because the program's `isinstance`
checks and slice bounds tell them apart. Numbers are `real`s. Strings are
ASCII: `lower()` and `split()` use the ASCII case and whitespace sets.

Outside code becomes a parameter of the operations that call it:

- `SequenceMatcher.ratio` is a function into [0, 1];
- `json.loads` and `JSONDecoder.raw_decode` are partial functions from
  text to `Json`;
- pydantic's `model_validate` is a partial function from `Json` to the model;
- `float()` on a word is a partial function to `real`;
- each reading of the current time is a `Clock` value;
- `str()` of a tool result is a display function;
- the tool server, as the agent tools see it, is a call function.

Files: `wrappers.dfy`, `seqs.dfy` and `text.dfy` hold the general
vocabulary. `records.dfy` holds the JSON values, records and Python
exceptions. Every other file models one source file.

## Model

| member | source | states |
|---|---|---|
| FuzzyMatch.Normalize | utils/fuzzy_match.py:83-99 | The normalised text splits into exactly the kept words: each is lower-case, contains no `,` `(` `)` or whitespace, is longer than one character, and is none of the 19 noise words |
| FuzzyMatch.NormalizeIdempotent | utils/fuzzy_match.py:83-99 | Normalising a normalised string changes nothing |
| Text.SplitJoin | utils/fuzzy_match.py:96-99 | Joining whitespace-free words with single spaces and splitting the result gives the same words back |
| FuzzyMatch.Overlap | utils/fuzzy_match.py:101-111 | The overlap lies in [0, 1]. It is 1 exactly when the ingredient has words and all of them occur in the food. It is 0 exactly when no word is shared, which includes an ingredient with no words |
| FuzzyMatch.CountPresent | utils/fuzzy_match.py:123 | The count of present ingredient words (repeats counted) is at most their number. It equals their number exactly when every word is present, and is positive exactly when some word is present |
| FuzzyMatch.KeyPresence | utils/fuzzy_match.py:113-131 | The key score is 0 or 1. With one or two words it is 1 exactly when all of them are present. With n >= 3 words it is 1 exactly when at least max(2, 0.67 n) are present. No words gives 0 |
| FuzzyMatch.Weighted | utils/fuzzy_match.py:69-81 | 0.3 ratio + 0.5 overlap + 0.2 key stays in [0, 1]. Full overlap with the key rule met gives at least 0.7; no overlap and no key gives at most 0.3 |
| FuzzyMatch.MatchScore | utils/fuzzy_match.py:51-81 | A match score is in [0, 1] for every similarity ratio in [0, 1] |
| FuzzyMatch.KeptWordsDecideScore | utils/fuzzy_match.py:62-81 | If every kept ingredient word occurs among the food's kept words, the score is at least 0.7 whatever the character ratio (the "coconut milk" / "Milk, coconut, canned" case). If none occurs, it is at most 0.3 |
| FuzzyMatch.AllWordsPresentScoresHigh | utils/fuzzy_match.py:70-81 | For normalised texts, containment of all ingredient words forces a score of at least 0.7 |
| FuzzyMatch.NoWordPresentScoresLow | utils/fuzzy_match.py:70-81 | For normalised texts, disjoint words cap the score at 0.3 |
| FuzzyMatch.Insert | utils/fuzzy_match.py:48 | One insertion step of the stable descending sort: the result holds the old positions plus the new one, ordered by score descending, with ties in input order |
| FuzzyMatch.Rank | utils/fuzzy_match.py:48 | The sort permutes its input: same length, same elements, and it is ordered by score descending with ties in input order |
| FuzzyMatch.RankedCandidates | utils/fuzzy_match.py:39-48 | The ranked positions are exactly the foods scoring at least the floor, as many as there are such foods, ordered by score descending with ties in input order |
| FuzzyMatch.TopPositions | utils/fuzzy_match.py:42-49 | The kept positions lead the ranking: each reaches the floor, they are in ranking order, every qualifying food left out ranks after each of them, and there are as many as `scored_matches[:limit]` keeps of the qualifying foods |
| FuzzyMatch.LeadingCandidatesUnique | utils/fuzzy_match.py:42-49 | Two lists of positions that both lead the ranking and have the same length are equal, so the selection is determined by the scores, the floor and the limit |
| FuzzyMatch.Stamped | utils/fuzzy_match.py:43-45 | Each result is a copy of its food with `match_score` set to that food's score; the input records themselves are values and stay as they were |
| FuzzyMatch.TopMatches | utils/fuzzy_match.py:42-49 | As many results as the slice keeps of the qualifying foods. Each is a copy of a food at or above the floor carrying its score, scores do not increase along the list, and every qualifying food left out scores no higher than every food kept |
| FuzzyMatch.NoLimitKeepsAll | utils/fuzzy_match.py:42-49 | With `limit` None, every food scoring at least the floor appears, stamped with its score |
| FuzzyMatch.FindBestMatches | utils/fuzzy_match.py:22-49 | Raises exactly when a record has no string description (the first such record's `KeyError` or `AttributeError`) or `limit` is not a slice bound. Otherwise the result is the best matches above, each carrying a float `match_score` between the floor and 1, scores not increasing along the list |
| FuzzyMatch.BestMatchesLead | utils/fuzzy_match.py:22-49 | A successful call returns as many matches as the slice keeps of the foods at the floor, each a copy of such a food carrying its score, and no qualifying food left out scores higher than one kept |
| FuzzyMatch.SearchVariations | utils/fuzzy_match.py:133-155 | The input comes first. There is 1 variation for fewer than two words, 4 for two words, and n + 1 for n > 2 words. The trailing entries are the words themselves |
| FuzzyMatch.SecondVariationSwaps | utils/fuzzy_match.py:148-149 | For a two-word name the second variation is the two words swapped |
| FoodId.Timestamp | database/nutrition_db.py:304 | The timestamp is 11 characters with `_` at position 6 |
| FoodId.TimestampRoundTrip | database/nutrition_db.py:304 | Reading `yymmdd_HHMM` back gives the year mod 100, month, day, hour and minute |
| FoodId.CurrentDate | database/nutrition_db.py:308-311 | The date is 10 characters with `-` at positions 4 and 7 |
| FoodId.CurrentDateRoundTrip | database/nutrition_db.py:308-311 | Reading `YYYY-MM-DD` back gives the year, month and day |
| FoodId.DropSymbols | database/nutrition_db.py:296 | The result is the input with everything but word characters and whitespace removed: a subsequence of it that keeps every occurrence of those characters and no other character |
| FoodId.UnderscoredJoinsWords | database/nutrition_db.py:297 | On stripped text, replacing each whitespace run by `_` equals joining the words with `_` |
| FoodId.Slug | database/nutrition_db.py:296-301 | The slug has at most 30 characters, each a lower-case word character or `_` |
| FoodId.SlugJoinsWords | database/nutrition_db.py:296-301 | The slug is the words of the lower-cased, symbol-free, stripped name joined with `_`, cut to 30 characters |
| FoodId.SlugIdempotent | database/nutrition_db.py:296-301 | Slugging a slug changes nothing |
| FoodId.GenerateFoodId | database/nutrition_db.py:282-306 | An id is the slug, `_`, and a timestamp that reads back as the minute of the clock reading taken for it |
| NutritionDb.GetFoodById | database/nutrition_db.py:34-45 | None exactly when no record has the id; otherwise the first record that has it |
| NutritionDb.LookupAfterAppend | database/nutrition_db.py:34-45 | After an append, lookup finds the old first match, or else the new record when it has the id |
| NutritionDb.SearchByDescription | database/nutrition_db.py:47-62 | Raises exactly when some description is present but not a string, with the first such record's `AttributeError`. Otherwise keeps exactly the records that have a description whose lower-cased text contains the lower-cased query, in store order; records without a description are skipped. Each kept record appears as often as in the store |
| NutritionDb.EmptyQueryMatchesAll | database/nutrition_db.py:58-62 | The empty query returns every record that has a description |
| NutritionDb.SearchIgnoresQueryCase | database/nutrition_db.py:58-62 | Lower-casing the query first changes nothing |
| NutritionDb.FoodsBySource | database/nutrition_db.py:233-243 | Keeps exactly the records with that `source`, in store order, each as often as in the store |
| NutritionDb.FoodsWithServingSizes | database/nutrition_db.py:210-217 | Keeps exactly the records with `serving_sizes`, in store order, each as often as in the store |
| NutritionDb.HighProteinFoods | database/nutrition_db.py:219-231 | Raises exactly when the threshold is a list or a dict (TinyDB cannot hash the query), with `unhashable type`, or when some record has a `protein` that Python cannot compare with the threshold, with the first such record's `TypeError`. Otherwise it keeps exactly the records that have a `protein` at least the threshold, in store order, each as often as in the store |
| NutritionDb.UnhashableThresholdRaises | database/nutrition_db.py:229-231 | A list or dict threshold raises `unhashable type: 'list'` or `'dict'` on any table, an empty one included |
| NutritionDb.NoProteinNoComparison | database/nutrition_db.py:229-231 | When no record has `protein`, `&` stops before the comparison: for any threshold TinyDB can hash the result is empty, even for one no number compares with |
| NutritionDb.NumericThreshold | database/nutrition_db.py:229-231 | With a number threshold and number protein values, nothing raises and a record is kept exactly when its protein is at least the threshold |
| NutritionDb.DatabaseStats | database/nutrition_db.py:249-268 | Each field count is the length of the list of records having that field; the source counts are the sizes of the source filters. USDA and LLM counts together never exceed the total, and no field count exceeds it |
| NutritionDb.HighProteinWithinProteinData | database/nutrition_db.py:219-268 | The high-protein list is never longer than the count of foods with protein data |
| NutritionDb.ExactMatches | database/nutrition_db.py:76-81 | `hits[:max_results]`, each stamped with `match_score` 1.0: a prefix of the hits in store order, of the length Python's slice gives |
| NutritionDb.FindIngredient | database/nutrition_db.py:64-89 | The search's error passes through. With substring hits, the first `max_results` of them come back stamped 1.0, and only a `max_results` that is not a slice bound raises. Without hits, the result is `find_best_matches` over the whole table. Every answer is a ranking |
| NutritionDb.FuzzyFallbackKeepsTheBest | database/nutrition_db.py:83-89 | Without substring hits, a successful answer has as many matches as the slice keeps of the foods at the floor, each a copy of such a food, and no food left out scores higher than one kept |
| NutritionDb.FindIngredientWithinLimit | database/nutrition_db.py:64-89 | A non-negative integer `max_results` caps the answer's length on either path |
| NutritionDb.ExactHitsBypassMatcher | database/nutrition_db.py:76-81 | When the search succeeds with a substring hit, neither the similarity function nor the floor affects the result |
| NutritionDb.FindOrCreateIngredient | database/nutrition_db.py:91-150 | The lookup's error is the call's error. The store is either unchanged or grown by one record at the end. Apart from the lookup, it fails only when an enabled estimator's estimate makes validation raise. When no match is accepted, `auto_add` is on and an enabled estimator returns a non-empty estimate that validates, the result is that estimate added with `add_food` and the lookup of the new id |
| NutritionDb.GateReturnsTopMatch | database/nutrition_db.py:103-118 | A top match scoring at least 0.8 that is not an incomplete LLM estimate is returned, and the store is untouched |
| NutritionDb.NoEstimateNeverWrites | database/nutrition_db.py:120-125 | Without `auto_add`, or with the estimator disabled, the call fails exactly when the lookup does; otherwise the store is unchanged and the result is the accepted top match or nothing |
| NutritionDb.WritesOnlyValidEstimates | database/nutrition_db.py:120-150 | The store changes only when: no match is accepted, `auto_add` is on, the estimator returns a non-empty estimate, and that estimate validates. The change is then `add_food(name, estimate, "llm_estimate", 0.7)`, and the result is the lookup of the new id |
| NutritionDb.ValidEstimateIsStored | database/nutrition_db.py:130-150 | The converse: with no accepted match, `auto_add` on and an enabled estimator returning a non-empty estimate that validates, the estimate is stored by `add_food(name, estimate, "llm_estimate", 0.7)` at the end of the table and the lookup of the generated id is returned |
| NutritionDb.RefusedEstimateIsNotStored | database/nutrition_db.py:120-144 | With no accepted match and `auto_add` on: no estimator, no estimate or an empty one, or an estimate validation rejects returns nothing and leaves the table as it was; validation that raises makes the call raise |
| NutritionDb.CreatedFoodIsFound | database/nutrition_db.py:142-150 | After a creation the returned record has the generated id. It is the new record unless an older record already had that id |
| NutritionDb.AddFood | database/nutrition_db.py:152-188 | Exactly one record is appended and no existing record changes. The new record is the metadata with the nutrition data merged over it; the id uses the first clock reading and `created_date` the second. The returned id is the generated one |
| NutritionDb.AddFoodWritesMetadata | database/nutrition_db.py:173-188 | When the data has no metadata keys, the new record carries the id, description, source, confidence, `"100g"` and the date |
| NutritionDb.MetadataSurvives | database/nutrition_db.py:173-183 | A merge keeps every metadata field that the data does not name |
| NutritionDb.AddFoodKeepsStoreValid | database/nutrition_db.py:152-188 | On a table whose descriptions are all strings, they all stay strings exactly when the data does not override the description with a non-string |
| NutritionDb.AddedIdIsFound | database/nutrition_db.py:142-150 | The added id is found by lookup, and is the new record when the id was new |
| NutritionDb.UpdateFoodUsage | database/nutrition_db.py:190-208 | Reports an update exactly when the id exists; with no match nothing changes. Every record with the id gets the first match's `usage_count` (default 0) plus one, and no other record changes. It raises only when that count is not a number |
| NutritionDb.UsageCountsUp | database/nutrition_db.py:190-208 | After an update the id's `usage_count` is one more than before |
| LlmNutrition.ProfileFieldsDistinct | database/llm_nutrition.py:19-47 | The profile has 22 distinct per-100 g fields |
| LlmNutrition.ValidateNutritionData | database/llm_nutrition.py:134-167 | The entry-by-entry scan reaches the verdict of `LlmNutrition.Validation` in any visiting order: valid exactly when no `int`/`float`/`bool` value is negative. The mismatch flag is the calorie check's, which decides nothing |
| LlmNutrition.ProfileDumpValidates | database/llm_nutrition.py:145-155 | A dumped profile never makes the calorie check raise: missing macros default to 0 and the ratio is computed only when the estimate is positive |
| LlmNutrition.CaloriesDoNotDecide | database/llm_nutrition.py:151-159 | Changing the stated calories between non-negative values never changes the verdict |
| LlmNutrition.NegativeRejects | database/llm_nutrition.py:161-165 | One negative number rejects the estimate |
| McpServer.TotalKeysAreProfileFields | mcp_server.py:236-243 | The totals cover exactly the profile's 22 fields, in order |
| McpServer.Round2 | mcp_server.py:292-293 | Rounding moves a value by at most 0.005, onto a multiple of 0.01 |
| McpServer.Round2Idempotent | mcp_server.py:275 | Rounding a rounded value changes nothing |
| McpServer.ServerResolve | mcp_server.py:252-265 | The lookup fails exactly when `find_ingredient(name, 1)` raises; a resolved record carries a score of at least 0.7 |
| McpServer.ResolveIsTopMatchAbove | mcp_server.py:252-265 | The two-stage lookup resolves a name exactly to the top fuzzy hit scoring at least 0.7, and raises the lookup's error |
| McpServer.Scaled | mcp_server.py:268-275 | Each nutrient contributes its per-100 g value (0 when absent) times grams / 100. It fails exactly when a present value is not a number |
| McpServer.ScalingExample | mcp_server.py:269-273 | 200 g of a 50 kcal/100 g food adds 100 kcal |
| McpServer.VisitIngredient | mcp_server.py:247-289 | A visited ingredient had a string name. A resolved one yields one amount per nutrient |
| McpServer.ResolutionErrorAborts | mcp_server.py:251-254 | An error raised by the lookup fails the ingredient with that error |
| McpServer.MissingIngredientIsReported | mcp_server.py:255-265 | An unresolved name gives the "No nutrition data found" entry and adds nothing |
| McpServer.FoundIngredientScales | mcp_server.py:267-283 | For a resolved ingredient whose quantity is any number (`int`, `float` or `bool`), the amounts are the record scaled by quantity / 100 and the entry is the found-ingredient entry; it fails only when the scaling does. A quantity that is not a number fails |
| McpServer.CalculateRecipeNutrition | mcp_server.py:231-301 | Succeeds exactly when every ingredient can be visited. There is one breakdown entry per ingredient, in order, and each total is the column sum of the contributions. On failure the error is the first failing ingredient's, and the reported tool is the name bound last |
| McpServer.MissingAddsNothing | mcp_server.py:260-265 | An unresolved ingredient leaves every total as it was |
| McpServer.UnresolvedSumsToZero | mcp_server.py:236-245 | With no ingredient resolved, every total is 0, including for an empty list |
| McpServer.RecipePayload | mcp_server.py:285-301 | The recipe result is never the error wrapper. `ingredient_breakdown` is the breakdown list. `recipe_nutrition` has exactly the nutrient keys; with distinct keys each one holds its total rounded to 2 places, or the integer 0 when nothing was resolved |
| McpServer.ErrorPayload | mcp_server.py:306-314 | The wrapper carries `error` and echoes the arguments |
| McpServer.FindIngredientTool | mcp_server.py:154-167 | A missing or non-string name fails first; otherwise the tool fails exactly when `find_ingredient` raises, and `matches` is its answer. `results_found` is the length of `matches`, which is at most 5 when no limit is given |
| McpServer.NutritionByIdTool | mcp_server.py:169-180 | Fails exactly without `food_id`. `found` is true exactly when `data` is a record, which for a string id is exactly when some record has it |
| McpServer.SearchTool | mcp_server.py:182-193 | Fails exactly when `description` is missing or not a string, or the search raises. `matches` is the search's answer and `results_found` its length |
| McpServer.AddIngredientTool | mcp_server.py:195-206 | Fails exactly when the name is missing or not a string, or `find_ingredient(name, 1)` raises. `added` is true exactly when `data` is a record |
| McpServer.AddIngredientOnlyFinds | mcp_server.py:195-206 | When the lookup succeeds, `added` is true exactly when its top match is accepted; nothing is inserted |
| McpServer.HighProteinTool | mcp_server.py:208-219 | The threshold is `min_protein` as given, 20.0 when absent. The tool fails exactly when the store's filter raises, and otherwise lists the filter's answer and echoes the threshold |
| McpServer.NoProteinToolFindsNothing | mcp_server.py:208-219 | On a table without protein data the tool reports 0 foods for any `min_protein` TinyDB can hash |
| McpServer.ToolResult | mcp_server.py:153-304 | Each of the six store tools' names selects that tool's result; the statistics tool wraps `get_database_stats` under `database_statistics`. An unknown name raises "Unknown tool: <name>". A successful result is never the error wrapper |
| McpServer.RecipeTool | mcp_server.py:231-314 | Missing `ingredients` gives the wrapper around `KeyError`. Otherwise the reply is the error wrapper exactly when some ingredient fails, and the wrapper echoes the arguments. The reply is fixed in every case (`RecipeReply`): the wrapper naming the tool when `ingredients` cannot be iterated; when every ingredient passes, the payload of the rounded column sums, the entries in order and the resolved flag; otherwise the wrapper of the first failing ingredient's error, naming the `name` bound at that point |
| McpServer.HandleCallTool | mcp_server.py:146-314 | Every call yields an object. An unknown tool gives the `{error, tool, arguments}` wrapper. For a tool other than the recipe calculation the reply is that tool's result, or the wrapper of its error naming the tool; the recipe calculation replies as `RecipeReply` describes over the server's loop body |
| McpClient.NextId | nutrition_mcp_client.py:64-68 | Returns the current id and advances the counter by one |
| McpClient.IssuedIdsAreConsecutive | nutrition_mcp_client.py:64-68 | n calls return n consecutive ids from the counter and leave it n higher |
| McpClient.NewClientCountsFromOne | nutrition_mcp_client.py:18 | A new client issues 1, 2, 3, ... |
| McpClient.QuantityGrams | nutrition_mcp_client.py:134-136 | Empty or blank quantities give 100. Otherwise the result is `float` of the first word, or 100 when that fails |
| McpClient.UnitIsIgnored | nutrition_mcp/sync_mcp_client.py:136-138 | "number unit" reads as the number |
| McpClient.BlankIsDefault | nutrition_mcp/mcp_client.py:135-137 | A whitespace-only quantity gives 100 |
| McpClient.ParsedQuantityExamples | nutrition_mcp_client.py:134 | "200" and "200 g" give 200, and "1 cup" gives 1 |
| McpClient.DefaultQuantityExamples | nutrition_mcp_client.py:134-136 | "200g", "" and "  " give 100 |
| McpClient.RequestFor | nutrition_mcp_client.py:138-141 | Each request entry is exactly `{name: item, quantity_grams: parsed quantity}` |
| McpClient.CalculateRecipeArguments | nutrition_mcp_client.py:128-145 | The arguments hold one request per recipe ingredient, in recipe order |
| McpClient.ArgumentsKeepNames | nutrition_mcp/sync_mcp_client.py:133-143 | Every request keeps its ingredient's item name |
| McpClient.RequestIsNamed | nutrition_mcp_client.py:138-141 | The server reads back the name and quantity the client sent |
| McpClient.ProfileData | nutrition_mcp_client.py:175-201 | The profile has exactly `calories`, `macros` and `micros`, and `calories` is the total's `calories`, or 0.0 when absent |
| McpClient.ProfileReadsTotals | nutrition_mcp_client.py:176-199 | Each macro and micro is the server's total, or 0.0 when absent |
| McpClient.ProfileDropsOnlyFiber | nutrition_mcp_client.py:175-201 | Of the 22 totals, only `fiber` is not carried into the profile |
| McpClient.ComputeNutritionMcp | nutrition_mcp_client.py:168-203 | A result with `error` raises "MCP nutrition calculation failed". For a dictionary without `error`, a `recipe_nutrition` that is not a dictionary raises `AttributeError`; otherwise the result is exactly the validated projection of the totals (missing totals project as all zeros), or the profile's validation error |
| Converters.Stamp | database/converters.py:52-55 | The document is the entry plus `food_id` = the key, `source` = "usda" and `confidence` = 1.0. These override the entry's own values, and every other field is kept |
| Converters.StampIdempotent | database/converters.py:52-55 | Stamping twice with the same key is stamping once |
| Converters.StampAll | database/converters.py:49-57 | One document per entry, in order, exactly when every entry is an object. Otherwise the first non-object entry raises |
| Converters.ConvertNutritionData | database/converters.py:23-68 | A missing file or undecodable JSON returns False and leaves the table alone. True exactly when every entry is an object, and the table is then exactly the stamped entries. Any other document raises, leaving the table either as it was or truncated, and always truncated when the failure comes from a non-object entry |
| Converters.ConvertedKeysAreFound | database/converters.py:49-60 | With distinct keys, each key looks up its own converted document |
| McpTools.StartServer | src/mcp_tools.py:23-27 | Starting is a no-op with a client; otherwise it installs a fresh started client |
| McpTools.StopServer | src/mcp_tools.py:30-34 | After a stop there is no client |
| McpTools.GetClient | src/mcp_tools.py:37-41 | Raises "MCP client not started" exactly when there is no client |
| McpTools.ManagerTransitions | src/mcp_tools.py:22-41 | Start and stop are idempotent. A start makes `get_client` succeed, and a following stop makes it raise again |
| McpTools.GetClientAfter | src/mcp_tools.py:22-41 | After any sequence of starts and stops, `get_client` succeeds exactly when the last command was a start, or, with no commands, when a client existed |
| McpTools.StartedClientNextId | nutrition_mcp/sync_mcp_client.py:35-40 | The handshake uses id 1, so the first tool call gets id 2 |
| McpTools.NutritionToolsAreServerTools | src/mcp_tools.py:160-167 | Exactly 4 distinct tools, each one the server knows |
| McpTools.GetParam | src/mcp_tools.py:58-59 | `params.get` succeeds exactly on an object, with the default for a missing key |
| McpTools.RecipeIngredients | src/mcp_tools.py:80-96 | A list passes through. A JSON list string gives the list. An object gives its `ingredients`, or itself when that key is absent. Text that is not JSON fails decoding |
| McpTools.DictionaryGivesItsList | src/mcp_tools.py:89-93 | A dict with an `ingredients` list gives that list |
| McpTools.ToolArguments | src/mcp_tools.py:52-152 | The arguments each tool sends: the recipe tool sends its ingredients exactly when they can be read; each other tool fails unless its parameters decode to a dictionary, and then sends the named parameters with the defaults 5, 20.0 and `None` |
| McpTools.RunTool | src/mcp_tools.py:50-157 | Every tool returns a string: the shown server result, or "Error ...: " followed by the message of whatever raised (bad input, no client, or a failed call) |
| McpTools.NonJsonRecipeText | src/mcp_tools.py:87-105 | Non-JSON text given to the recipe tool comes back as "Error calculating recipe nutrition: " followed by the decode error |
| Extraction.BraceBounds | src/agent_utils.py:44-46 | None exactly when no `{` precedes a later `}`. Otherwise the bounds run from the first `{` to the last `}` |
| Extraction.BraceSpan | src/planner.py:59-61 | The span exists exactly when a brace pair does, and it starts with `{` and ends with `}` |
| Extraction.BraceSpanIgnoresSurroundings | chef.py:59-63 | Brace-free prose around an object leaves the span equal to the object |
| Extraction.StripOpeningFence | planner.py:47 | Only a fence at the very start is removed; what remains is a suffix of the input |
| Extraction.StripClosingFence | planner.py:48 | Only a fence at the end, before trailing whitespace, is removed |
| Extraction.JsonFencedBodyIsRecovered | src/planner.py:55-56 | A ```` ```json ```` fenced trimmed body is recovered exactly |
| Extraction.BareFencedBodyIsRecovered | src/planner.py:55-56 | A ```` ``` ```` fenced trimmed body is recovered exactly |
| Extraction.LeadingNewlineKeepsFence | planner.py:47-48 | A reply starting with a newline keeps its opening fence line |
| Extraction.AfterLastMarker | src/agent_utils.py:42-43 | Without the marker the text is kept. Otherwise the region is the suffix after the marker's last occurrence, and the marker does not occur inside it |
| AgentUtils.ParseJsonResponse | src/agent_utils.py:38-55 | No brace pair in the searched region gives "No JSON found in agent output", and only then is that the error. An undecodable span or a failed validation gives "Failed to parse agent output into <Model>". Otherwise the validated value |
| AgentUtils.OnlyTheFinalAnswerIsSearched | src/agent_utils.py:42-44 | Only the text after the last `Final Answer:` is searched |
| AgentUtils.FailuresAreDistinct | src/agent_utils.py:48-55 | The parse failure never reads as the no-JSON error |
| Planner.DecodePlan | planner.py:51-62 | Succeeds exactly when decoding and validation succeed. A decode failure quotes the cleaned text; a validation failure is the Plan schema error |
| Planner.GeneratePlan | planner.py:47-56 | A decode failure quotes the fence-stripped text |
| Planner.FencedPlanIsDecoded | planner.py:47-54 | A ```` ```json ```` fenced reply is decoded from its body |
| Planner.LeadingNewlineDefeatsFence | planner.py:47-56 | A leading newline leaves the fence in the text; when the decoder rejects that text, the call fails quoting it |
| SrcPlanner.GeneratePlan | src/planner.py:55-75 | With a brace pair, only the span is decoded; otherwise the result is planner.py's |
| SrcPlanner.FencedPlanIsDecoded | src/planner.py:55-67 | A fenced object is decoded as the object |
| SrcPlanner.LeadingNewlineIsHarmless | src/planner.py:55-61 | A leading newline before the fence no longer matters |
| SrcPlanner.ProseBeforePlanIsDropped | src/planner.py:58-61 | Brace-free prose before an object is dropped |
| Chef.ChefData | chef.py:55-65 | Whole text when it decodes, else the span. No span gives "Failed to parse JSON from chef output"; an undecodable span gives "Failed to parse extracted JSON" |
| Chef.GenerateRecipe | chef.py:47-73 | The empty-response error comes exactly from a blank reply. Otherwise the result succeeds exactly when the data decodes and validates; a reply that does not decode raises the decoding step's own message, and decoded data that does not validate raises the `Recipe` schema error |
| Chef.ProseAroundRecipeIsIgnored | chef.py:56-63 | Brace-free prose around a decodable object yields that object |
| Nutrition.ParseJson | nutrition.py:42-52 | Whole text when it decodes, else the span. No span gives "Cannot parse JSON"; an undecodable span lets the decoder's error escape |
| Nutrition.ComputeNutrition | nutrition.py:55-66 | Succeeds exactly when parsing and validation succeed. Parse errors pass through unchanged; a validation failure is "Nutrition schema mismatch" |
| Nutrition.ChefAndNutritionAgree | nutrition.py:42-52 | The chef's and the estimator's extractions accept the same replies with the same values |
| Nutrition.EmptyReplyHasNoJson | nutrition.py:49-51 | A blank reply fails with "Cannot parse JSON: " |
| SrcChef.FirstClosing | src/chef.py:135 | The lazy `.*?` stops at a `}` followed by optional whitespace and a fence |
| SrcChef.FirstClosingFinds | src/chef.py:135 | It stops at the first such `}` |
| SrcChef.FencedGroup | src/chef.py:135-140 | The fenced group, when chosen, runs from `{` to `}` |
| SrcChef.JsonText | src/chef.py:135-146 | No text is chosen exactly when there is no brace pair. Otherwise the chosen text runs from `{` to `}` |
| SrcChef.GenerateNutritionAwareRecipe | src/chef.py:118-155 | No brace pair gives "No JSON found in response". A decode or validation failure gives "Failed to parse response into Recipe". Otherwise the validated recipe |
| SrcChef.UnfencedReplyUsesGreedySpan | src/chef.py:135-140 | Without backticks the greedy first-`{`-to-last-`}` span is chosen |
| SrcChef.FencedBodyIsChosen | src/chef.py:135-140 | A backtick-free object inside a ```` ```json ```` fence is chosen on its own, whatever follows the fence |

## Left out

- Transport: JSON-RPC over stdio, the handshake, and starting and stopping processes are I/O. They are absent, except that the manager's start yields a client whose handshake used request id 1.
- Server registration, the tool schema listing and `run` in mcp_server.py are framework wiring.
- Language model calls and prompts: `get_nutrition_estimate(_sync)`, `get_chain`, every prompt template and chain call, and `create_agent_executor` / `run_agent_with_parsing`. A model's reply is an input; the estimator is a parameter that may return nothing.
- llm_config.py and src/llm_config.py only construct library clients.
- TinyDB persistence (files, open and close, truncate and insert) is left out. The store is a sequence of records, and a missing input file is an absent parameter.
- TinyDB's query objects and their hash values are not modelled. `HighProteinFoods` stands for their one visible effect here: a list or dict threshold raises `unhashable type` while the query is built.
- Printing and warnings are left out. The calorie-mismatch warning is kept as a flag because it is part of the verdict's meaning.
- `SequenceMatcher.ratio`, JSON text syntax, `raw_decode`, pydantic validation and `float()` literal syntax are library behaviour. They are parameters with stated ranges, so properties that need their internals (such as `raw_decode` ignoring trailing text) are not stated.
- Binary floating point is left out: numbers are exact reals. McpServer.Round2 rounds half to even on the exact value, which can differ from `round()` on the nearest double.
- `datetime.now()` is read twice by an insertion, once for the id and once for `created_date`; the two readings are a pair of `Clock` parameters.
- Unicode: `lower()`, `split()`, `strip()` and `\w` use ASCII only.
- `str()` of an exception is approximated. Pydantic's error text is "validation error for <Model>", the JSON decoder's text is a fixed string, and other messages follow Python's wording where the source fixes it.
- McpServer.NutritionByIdTool: a non-string `food_id` is never found. TinyDB compares it to string ids, and the model keeps only string ids.
- The branch at mcp_server.py:284-289 is unreachable: the record found at that point is always a non-empty dict. It is not modelled.
- The fallback at src/chef.py:142-146 can never succeed where the first search failed, so it is modelled only by its error.
- The request ids consumed by the agent tools' calls are not tracked. Each call is a parameter function, and the manager's client state does not change.
- main.py, setup_database.py, src/nutrition.py, src/ingredient_planner.py, models.py, the `__init__` files and the tests hold no logic of the modelled path. models.py's classes appear only as the validation parameters.
- `_print_conversion_stats` in database/converters.py only prints.
- `count_foods` is the store's length, which NutritionDb.DatabaseStats states as `totalFoods`.
