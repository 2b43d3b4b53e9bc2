/** The food store of database/nutrition_db.py: lookups and order-preserving
    filters over the food table, ingredient resolution (an exact substring
    hit wins outright, otherwise the fuzzy matcher ranks every food), the
    resolve-or-create path with its 0.8 confidence gate, append-only
    insertion and usage counting. The table is a value: an operation that
    writes returns the new table. The language-model estimator, the
    similarity ratio and the clock readings are parameters. A document
    whose `description` is missing or not a string is kept in the table
    as it is; the operations that read descriptions raise on it, as the
    Python code does. */
module NutritionDb {
  import opened Wrappers
  import opened Text
  import opened Seqs
  import opened Records
  import opened FuzzyMatch
  import opened FoodId
  import LlmNutrition

  /** The store's fuzzy floor: `NutritionDB` builds its matcher with
      `min_confidence=0.4`. */
  const StoreMinConfidence: real := 0.4
  const DefaultMaxResults: int := 5
  /** The score a top match needs to be returned without estimating. */
  const AcceptScore: real := 0.8
  /** The confidence recorded for a stored estimate. */
  const EstimateConfidence: real := 0.7
  /** `add_food`'s default confidence. */
  const DefaultAddConfidence: real := 0.6
  const DefaultMinProtein: real := 20.0
  const LlmSource: string := "llm_estimate"
  const UsdaSource: string := "usda"
  /** The vitamins whose absence marks an estimate as incomplete. */
  const RequiredFields: seq<string> := ["vitamin_c_mg", "vitamin_a_mcg", "thiamin_mg", "riboflavin_mg"]

  /** The optional language-model estimator: `enable_llm=False` leaves it
      out; otherwise it maps an ingredient name to an estimate or to
      nothing when the call fails. */
  datatype Estimator = Disabled | Enabled(estimate: string -> Option<Record>)

  // ---------------------------------------------------------------------
  // Lookups and filters

  /** The TinyDB query `Food.food_id == food_id`. */
  predicate HasId(r: Record, id: string) {
    "food_id" in r && r["food_id"] == JStr(id)
  }

  /** Position `i` holds the first record carrying the id. */
  predicate FirstWithId(foods: Store, id: string, i: int) {
    0 <= i < |foods| && HasId(foods[i], id) && forall j :: 0 <= j < i ==> !HasId(foods[j], id)
  }

  /** `get_food_by_id`: the first record carrying the id, if any. */
  function GetFoodById(foods: Store, id: string): (r: Option<Record>)
    ensures r.None? <==> forall i :: 0 <= i < |foods| ==> !HasId(foods[i], id)
    ensures r.Some? ==> exists i :: FirstWithId(foods, id, i) && r.value == foods[i]
  {
    if foods == [] then None
    else if HasId(foods[0], id) then
      assert FirstWithId(foods, id, 0);
      Some(foods[0])
    else
      var r := GetFoodById(foods[1..], id);
      assert r.Some? ==> exists i :: FirstWithId(foods, id, i) && r.value == foods[i] by {
        if r.Some? {
          var i :| FirstWithId(foods[1..], id, i) && r.value == foods[1..][i];
          assert forall j :: 1 <= j < i + 1 ==> foods[j] == foods[1..][j - 1];
          assert FirstWithId(foods, id, i + 1);
        }
      }
      r
  }

  /** Appending a record never changes what an id already present resolves
      to; an id only the new record carries resolves to it. */
  lemma {:induction false} LookupAfterAppend(foods: Store, doc: Record, id: string)
    ensures GetFoodById(foods + [doc], id) ==
      if GetFoodById(foods, id).Some? then GetFoodById(foods, id)
      else if HasId(doc, id) then Some(doc) else None
    decreases |foods|
  {
    if foods != [] {
      assert (foods + [doc])[1..] == foods[1..] + [doc];
      LookupAfterAppend(foods[1..], doc, id);
    } else {
      assert [] + [doc] == [doc];
    }
  }

  /** The TinyDB test of `search_by_description`: the lower-cased query is a
      substring of the lower-cased description. */
  function DescriptionHit(query: string): Record -> bool {
    (r: Record) => HasDescription(r) && Contains(Lower(Description(r)), Lower(query))
  }

  /** What the search raises on a record. Path resolution gives up quietly
      on a record without `description`, so only a description that is
      present but not a string reaches `desc.lower()` and raises. */
  function SearchError(r: Record): Option<PyError> {
    if BadDescription(r) then Some(NoLower(r["description"])) else None
  }

  /** `search_by_description`: the records whose description contains the
      query, ignoring case, in table order. Records without a description
      are skipped; the first description that is not a string raises. */
  function SearchByDescription(foods: Store, query: string): (r: Result<Store, PyError>)
    ensures r.Err? <==> exists i :: 0 <= i < |foods| && BadDescription(foods[i])
    ensures r.Err? ==> r.error == FirstFailure(foods, SearchError).value
    ensures r.Ok? ==> forall f: Record :: f in r.value <==>
      f in foods && HasDescription(f) && Contains(Lower(Description(f)), Lower(query))
    ensures r.Ok? ==> IsSubsequence(r.value, foods)
    ensures r.Ok? ==> forall f: Record ::
      multiset(r.value)[f] == if HasDescription(f) && Contains(Lower(Description(f)), Lower(query)) then multiset(foods)[f] else 0
  {
    match FirstFailure(foods, SearchError)
    case Some(e) => Err(e)
    case None =>
      FilterCounts(foods, DescriptionHit(query));
      Ok(Filter(foods, DescriptionHit(query)))
  }

  lemma EmptyStringOccurs(s: string)
    ensures Contains(s, "")
  {
    assert s[..0] == "";
  }

  /** An empty query matches every record that has a description. */
  lemma EmptyQueryMatchesAll(foods: Store)
    ensures SearchByDescription(foods, "").Ok? ==> SearchByDescription(foods, "").value == Filter(foods, HasDescription)
  {
    forall i | 0 <= i < |foods|
      ensures DescriptionHit("")(foods[i]) == HasDescription(foods[i])
    {
      if HasDescription(foods[i]) {
        EmptyStringOccurs(Lower(Description(foods[i])));
      }
    }
    FilterAgree(foods, DescriptionHit(""), HasDescription);
  }

  /** A table whose descriptions are all strings is searched without
      error. */
  lemma ValidStoreSearches(foods: Store, query: string)
    requires ValidStore(foods)
    ensures SearchByDescription(foods, query).Ok?
  {
  }

  lemma LowerIdempotent(s: string)
    ensures Lower(Lower(s)) == Lower(s)
  {
  }

  /** Searching ignores the case of the query. */
  lemma SearchIgnoresQueryCase(foods: Store, query: string)
    ensures SearchByDescription(foods, Lower(query)) == SearchByDescription(foods, query)
  {
    LowerIdempotent(query);
    assert DescriptionHit(Lower(query)) == DescriptionHit(query);
  }

  /** The TinyDB query `Food.source == source`. */
  function FromSource(source: string): Record -> bool {
    (r: Record) => "source" in r && r["source"] == JStr(source)
  }

  /** `get_foods_by_source`: the records of that source, in table order. */
  function FoodsBySource(foods: Store, source: string): (r: Store)
    ensures forall f :: f in r <==> f in foods && "source" in f && f["source"] == JStr(source)
    ensures IsSubsequence(r, foods)
    ensures forall f :: multiset(r)[f] == if "source" in f && f["source"] == JStr(source) then multiset(foods)[f] else 0
  {
    FilterCounts(foods, FromSource(source));
    Filter(foods, FromSource(source))
  }

  function HasServingSizes(r: Record): bool {
    "serving_sizes" in r
  }

  /** `get_foods_with_serving_sizes`: the records that have a
      `serving_sizes` field, in table order. */
  function FoodsWithServingSizes(foods: Store): (r: Store)
    ensures forall f :: f in r <==> f in foods && "serving_sizes" in f
    ensures IsSubsequence(r, foods)
    ensures forall f :: multiset(r)[f] == if "serving_sizes" in f then multiset(foods)[f] else 0
  {
    FilterCounts(foods, HasServingSizes);
    Filter(foods, HasServingSizes)
  }

  /** A record whose `protein` Python cannot compare with the threshold. */
  predicate UncomparableProtein(r: Record, threshold: Json) {
    "protein" in r && AtLeast(r["protein"], threshold).None?
  }

  /** What `(Food.protein.exists()) & (Food.protein >= min_protein)`
      raises on a record: `&` stops after `exists()` fails, so the
      comparison runs only on a record that has `protein`. */
  function ProteinError(threshold: Json): Record -> Option<PyError> {
    (r: Record) => if UncomparableProtein(r, threshold) then Some(NotComparable(r["protein"], threshold)) else None
  }

  function ProteinAtLeast(threshold: Json): Record -> bool {
    (r: Record) => "protein" in r && AtLeast(r["protein"], threshold) == Some(true)
  }

  /** A threshold TinyDB cannot hash. The query keeps `min_protein` in its
      hash value and `&` puts both halves' hash values in a `frozenset`, so
      a list or a dict raises while the query is built. */
  predicate Unhashable(threshold: Json) {
    threshold.JArr? || threshold.JObj?
  }

  function Unhashed(threshold: Json): PyError {
    TypeError("unhashable type: '" + TypeName(threshold) + "'")
  }

  /** `get_high_protein_foods`: the records that have a `protein` field at
      least the threshold, in table order. A list or dict threshold raises
      before any record is read; otherwise the first record whose protein
      cannot be compared with the threshold (a string against a number,
      anything against `None`) makes the search raise. */
  function HighProteinFoods(foods: Store, threshold: Json): (r: Result<Store, PyError>)
    ensures r.Err? <==> Unhashable(threshold) || exists i :: 0 <= i < |foods| && UncomparableProtein(foods[i], threshold)
    ensures r.Err? ==> r.error == if Unhashable(threshold) then Unhashed(threshold)
                                  else FirstFailure(foods, ProteinError(threshold)).value
    ensures r.Ok? ==> forall f :: f in r.value <==>
      f in foods && "protein" in f && AtLeast(f["protein"], threshold) == Some(true)
    ensures r.Ok? ==> IsSubsequence(r.value, foods)
    ensures r.Ok? ==> forall f ::
      multiset(r.value)[f] == if "protein" in f && AtLeast(f["protein"], threshold) == Some(true) then multiset(foods)[f] else 0
  {
    if Unhashable(threshold) then Err(Unhashed(threshold))
    else match FirstFailure(foods, ProteinError(threshold))
    case Some(e) => Err(e)
    case None =>
      FilterCounts(foods, ProteinAtLeast(threshold));
      Ok(Filter(foods, ProteinAtLeast(threshold)))
  }

  /** A list or dict threshold raises whatever the table holds, an empty
      one included. */
  lemma UnhashableThresholdRaises(foods: Store, items: seq<Json>, fields: map<string, Json>)
    ensures HighProteinFoods(foods, JArr(items)) == Err(TypeError("unhashable type: 'list'"))
    ensures HighProteinFoods(foods, JObj(fields)) == Err(TypeError("unhashable type: 'dict'"))
  {
    assert "unhashable type: '" + "list" + "'" == "unhashable type: 'list'";
    assert "unhashable type: '" + "dict" + "'" == "unhashable type: 'dict'";
  }

  /** When no record has a `protein` field no comparison runs: with a
      threshold TinyDB can hash, the result is empty, even for a threshold
      no number compares with. */
  lemma NoProteinNoComparison(foods: Store, threshold: Json)
    requires !Unhashable(threshold)
    requires forall i :: 0 <= i < |foods| ==> "protein" !in foods[i]
    ensures HighProteinFoods(foods, threshold) == Ok([])
  {
  }

  /** With a numeric threshold and numeric protein values, a record is kept
      exactly when its protein is at least the threshold. */
  lemma NumericThreshold(foods: Store, t: real, f: Record)
    requires forall i :: 0 <= i < |foods| && "protein" in foods[i] ==> AsNumber(foods[i]["protein"]).Some?
    requires f in foods
    ensures HighProteinFoods(foods, JFloat(t)).Ok?
    ensures f in HighProteinFoods(foods, JFloat(t)).value <==>
      "protein" in f && AsNumber(f["protein"]).value >= t
  {
  }

  /** The numbers `get_database_stats` reports. */
  datatype Stats = Stats(
    totalFoods: nat,
    withServingSizes: nat,
    usda: nat,
    llmEstimate: nat,
    withProtein: nat,
    withFat: nat,
    withCarbs: nat)

  function HasField(key: string): Record -> bool {
    (r: Record) => key in r
  }

  /** `get_database_stats` (and `count_foods` as its total). */
  function DatabaseStats(foods: Store): (r: Stats)
    ensures r.totalFoods == |foods|
    ensures r.withServingSizes == |FoodsWithServingSizes(foods)|
    ensures r.usda == |FoodsBySource(foods, UsdaSource)| && r.llmEstimate == |FoodsBySource(foods, LlmSource)|
    ensures r.usda + r.llmEstimate <= r.totalFoods
    ensures r.withProtein == |Filter(foods, HasField("protein"))|
    ensures r.withFat == |Filter(foods, HasField("fat"))|
    ensures r.withCarbs == |Filter(foods, HasField("carbs"))|
    ensures r.withProtein <= r.totalFoods && r.withFat <= r.totalFoods && r.withCarbs <= r.totalFoods
  {
    DisjointCounts(foods, FromSource(UsdaSource), FromSource(LlmSource));
    Stats(
      |foods|,
      Count(foods, HasServingSizes),
      Count(foods, FromSource(UsdaSource)),
      Count(foods, FromSource(LlmSource)),
      Count(foods, HasField("protein")),
      Count(foods, HasField("fat")),
      Count(foods, HasField("carbs")))
  }

  /** Every high-protein food is counted among the foods with protein data. */
  lemma HighProteinWithinProteinData(foods: Store, threshold: Json)
    requires HighProteinFoods(foods, threshold).Ok?
    ensures |HighProteinFoods(foods, threshold).value| <= DatabaseStats(foods).withProtein
  {
    CountImplied(foods, ProteinAtLeast(threshold), HasField("protein"));
  }

  // ---------------------------------------------------------------------
  // Ingredient resolution

  /** A result record carries a float `match_score`. */
  predicate HasScore(r: Record) {
    "match_score" in r && r["match_score"].JFloat?
  }

  function ScoreOf(r: Record): real
    requires HasScore(r)
  {
    r["match_score"].f
  }

  /** `match['match_score'] = 1.0` */
  function StampExact(r: Record): Record {
    r["match_score" := JFloat(1.0)]
  }

  /** Every record carries a float score of at most 1, best first. */
  predicate Ranking(r: Store) {
    (forall k :: 0 <= k < |r| ==> HasScore(r[k]) && ScoreOf(r[k]) <= 1.0) &&
    (forall k :: 0 < k < |r| ==> ScoreOf(r[k - 1]) >= ScoreOf(r[k]))
  }

  /** `r` is a prefix of the hits, each stamped with score 1.0. */
  predicate StampedPrefix(r: Store, hits: Store) {
    |r| <= |hits| && forall k :: 0 <= k < |r| ==> r[k] == StampExact(hits[k])
  }

  predicate ScoresAtLeast(r: Store, floor: real)
    requires Ranking(r)
  {
    forall k :: 0 <= k < |r| ==> ScoreOf(r[k]) >= floor
  }

  /** The exact-hit answer: `hits[:bound]`, each stamped with score 1.0. */
  function ExactMatches(hits: Store, bound: Option<int>): (r: Store)
    ensures StampedPrefix(r, hits) && Ranking(r)
    ensures |r| == SliceLength(|hits|, bound)
  {
    var stamped := Map(hits, StampExact);
    var r := Take(stamped, bound);
    assert forall k :: 0 <= k < |r| ==> r[k] == stamped[k];
    r
  }

  /** `find_ingredient`: when some description contains the name, the
      first `max_results` such records with score 1.0 (the matcher is
      never consulted); otherwise `find_best_matches` over the whole table
      with the store's floor. The search raises first, on a description
      that is not a string; the fuzzy pass raises on a record without
      one; a `max_results` that is not a slice bound raises at the
      slice. */
  function FindIngredient(foods: Store, name: string, maxResults: Json, minConfidence: real, ratio: Similarity)
    : (r: Result<Store, PyError>)
    ensures SearchByDescription(foods, name).Err? ==> r == Err(SearchByDescription(foods, name).error)
    ensures var hits := SearchByDescription(foods, name);
      hits.Ok? && hits.value != [] ==>
        (r.Err? <==> SliceBound(maxResults).Err?) &&
        (r.Ok? ==> StampedPrefix(r.value, hits.value) &&
                   |r.value| == SliceLength(|hits.value|, SliceBound(maxResults).value))
    ensures SearchByDescription(foods, name) == Ok([]) ==>
      r == FindBestMatches(name, foods, maxResults, minConfidence, ratio)
    ensures r.Ok? ==> Ranking(r.value)
    ensures r.Ok? && SearchByDescription(foods, name) == Ok([]) ==> ScoresAtLeast(r.value, minConfidence)
  {
    var hits :- SearchByDescription(foods, name);
    if hits != [] then
      var bound :- SliceBound(maxResults);
      Ok(ExactMatches(hits, bound))
    else
      FuzzyRanking(name, foods, maxResults, minConfidence, ratio);
      FindBestMatches(name, foods, maxResults, minConfidence, ratio)
  }

  /** The matcher's answer is a ranking above the floor. */
  lemma FuzzyRanking(name: string, foods: Store, maxResults: Json, minConfidence: real, ratio: Similarity)
    ensures var m := FindBestMatches(name, foods, maxResults, minConfidence, ratio);
      m.Ok? ==> Ranking(m.value) && ScoresAtLeast(m.value, minConfidence)
  {
  }

  /** Without a substring hit, the answer is the best of the fuzzy
      matches: as many as the slice keeps of the foods reaching the floor,
      each a copy of such a food, and every qualifying food left out
      scores no higher than any food kept. */
  lemma FuzzyFallbackKeepsTheBest(foods: Store, name: string, maxResults: Json, minConfidence: real, ratio: Similarity)
    requires SearchByDescription(foods, name) == Ok([])
    requires FindIngredient(foods, name, maxResults, minConfidence, ratio).Ok?
    ensures ValidStore(foods) && SliceBound(maxResults).Ok?
    ensures var scores := Scores(name, foods, ratio);
      var r := FindIngredient(foods, name, maxResults, minConfidence, ratio).value;
      |r| == SliceLength(Count(scores, Reaches(minConfidence)), SliceBound(maxResults).value) &&
      (forall k :: 0 <= k < |r| ==> CopyOfCandidate(r[k], foods, scores, minConfidence)) &&
      OthersScoreNoHigher(foods, scores, minConfidence, r)
  {
  }

  /** A non-negative integer `max_results` caps the answer's length, on
      either path. */
  lemma FindIngredientWithinLimit(foods: Store, name: string, maxResults: Json, minConfidence: real, ratio: Similarity)
    ensures var r := FindIngredient(foods, name, maxResults, minConfidence, ratio);
      var bound := SliceBound(maxResults);
      r.Ok? && bound.Ok? && bound.value.Some? && bound.value.value >= 0 ==> |r.value| <= bound.value.value
  {
    var r := FindIngredient(foods, name, maxResults, minConfidence, ratio);
    var hits := SearchByDescription(foods, name);
    if r.Ok? && hits == Ok([]) {
      assert ValidStore(foods);
    }
  }

  /** When some description contains the name, neither the floor nor the
      similarity ratio affects the result. */
  lemma ExactHitsBypassMatcher(foods: Store, name: string, maxResults: Json,
                               floor1: real, ratio1: Similarity, floor2: real, ratio2: Similarity)
    requires SearchByDescription(foods, name).Ok? && SearchByDescription(foods, name).value != []
    ensures FindIngredient(foods, name, maxResults, floor1, ratio1) == FindIngredient(foods, name, maxResults, floor2, ratio2)
  {
  }

  /** An estimate missing one of the key vitamins. */
  predicate IncompleteEstimate(m: Record) {
    (exists i :: 0 <= i < |RequiredFields| && RequiredFields[i] !in m) &&
    Get(m, "source", JNull) == JStr(LlmSource)
  }

  /** The gate of `find_or_create_ingredient`: a top match scoring at least
      0.8 that is not an incomplete estimate. */
  predicate Accepted(matches: Store)
    requires forall k :: 0 <= k < |matches| ==> HasScore(matches[k])
  {
    matches != [] && ScoreOf(matches[0]) >= AcceptScore && !IncompleteEstimate(matches[0])
  }

  // ---------------------------------------------------------------------
  // Insertion

  /** The keys `add_food` writes itself. */
  const MetadataKeys: set<string> := {"food_id", "description", "source", "confidence", "nutrition_per", "created_date"}

  /** The metadata `add_food` writes before merging the nutrient data. */
  function Metadata(id: string, name: string, source: string, confidence: real, date: string): Record {
    map[
      "food_id" := JStr(id),
      "description" := JStr(name),
      "source" := JStr(source),
      "confidence" := JFloat(confidence),
      "nutrition_per" := JStr("100g"),
      "created_date" := JStr(date)]
  }

  lemma MetadataLookups(id: string, name: string, source: string, confidence: real, date: string)
    ensures var m := Metadata(id, name, source, confidence, date);
      m.Keys == MetadataKeys &&
      m["food_id"] == JStr(id) && m["description"] == JStr(name) && m["source"] == JStr(source) &&
      m["confidence"] == JFloat(confidence) && m["nutrition_per"] == JStr("100g") && m["created_date"] == JStr(date)
  {
  }

  /** The table after an insertion and the id `add_food` returns. */
  datatype Added = Added(foods: Store, foodId: string)

  /** `doc` is `meta` updated with `data`: it has the keys of both, and
      takes a value from `meta` only where `data` has none. */
  ghost predicate MergedOver(doc: Record, meta: Record, data: Record) {
    (forall k :: k in doc <==> k in meta || k in data) &&
    (forall k :: k in data ==> k in doc && doc[k] == data[k]) &&
    (forall k :: k in meta && k !in data ==> k in doc && doc[k] == meta[k])
  }

  /** The two readings of `datetime.now()` an insertion makes: the id's
      timestamp is read first, then `created_date`. Across a minute or a day
      boundary the two differ. */
  datatype ClockReadings = ClockReadings(forId: Clock, forDate: Clock)

  /** `add_food`: one new document at the end of the table, holding the
      metadata overridden by the nutrient data (`dict.update` runs last). */
  function AddFood(foods: Store, name: string, data: Record, source: string, confidence: real, now: ClockReadings)
    : (r: Added)
    ensures |r.foods| == |foods| + 1 && r.foods[..|foods|] == foods
    ensures r.foodId == GenerateFoodId(name, now.forId)
    ensures MergedOver(r.foods[|foods|], Metadata(r.foodId, name, source, confidence, CurrentDate(now.forDate)), data)
  {
    var id := GenerateFoodId(name, now.forId);
    var doc := Metadata(id, name, source, confidence, CurrentDate(now.forDate)) + data;
    Added(foods + [doc], id)
  }

  /** Nutrient data without metadata keys leaves the metadata as written:
      the new record carries the generated id, the name, the source, the
      confidence, `100g` and the creation date. */
  lemma AddFoodWritesMetadata(foods: Store, name: string, data: Record, source: string, confidence: real, now: ClockReadings)
    requires forall k :: k in data ==> k !in MetadataKeys
    ensures var r := AddFood(foods, name, data, source, confidence, now);
      var doc := r.foods[|foods|];
      HasId(doc, GenerateFoodId(name, now.forId)) && doc["description"] == JStr(name) &&
      doc["source"] == JStr(source) && doc["confidence"] == JFloat(confidence) &&
      doc["nutrition_per"] == JStr("100g") && doc["created_date"] == JStr(CurrentDate(now.forDate))
  {
    var r := AddFood(foods, name, data, source, confidence, now);
    MetadataLookups(r.foodId, name, source, confidence, CurrentDate(now.forDate));
    MetadataSurvives(r.foods[|foods|], Metadata(r.foodId, name, source, confidence, CurrentDate(now.forDate)), data);
  }

  lemma MetadataSurvives(doc: Record, meta: Record, data: Record)
    requires MergedOver(doc, meta, data)
    requires meta.Keys == MetadataKeys && forall k :: k in data ==> k !in MetadataKeys
    ensures forall k :: k in meta ==> k in doc && doc[k] == meta[k]
  {
  }

  /** An insertion keeps every description a string unless the data
      replaces the description with something else; such data is stored
      all the same, and later searches raise on it. */
  lemma AddFoodKeepsStoreValid(foods: Store, name: string, data: Record, source: string, confidence: real, now: ClockReadings)
    requires ValidStore(foods)
    ensures ValidStore(AddFood(foods, name, data, source, confidence, now).foods) <==>
      ("description" in data ==> data["description"].JStr?)
  {
    var r := AddFood(foods, name, data, source, confidence, now);
    var doc := r.foods[|foods|];
    MetadataLookups(r.foodId, name, source, confidence, CurrentDate(now.forDate));
    assert "description" in doc;
    if "description" in data ==> data["description"].JStr? {
      forall i | 0 <= i < |r.foods|
        ensures HasDescription(r.foods[i])
      {
        if i < |foods| {
          assert r.foods[i] == r.foods[..|foods|][i];
        }
      }
    } else {
      assert !HasDescription(doc);
    }
  }

  // ---------------------------------------------------------------------
  // Resolve or create

  /** The table after `find_or_create_ingredient` and the record it returns. */
  datatype Resolution = Resolution(food: Option<Record>, foods: Store)

  /** `find_or_create_ingredient`. The lookup asks `find_ingredient` for one
      result, and its errors pass through. The top match is returned when
      it passes the gate. Otherwise, with `auto_add` set and an estimator
      present, a non-empty estimate that validates is stored with source
      `llm_estimate` and confidence 0.7, and the first record carrying the
      generated id is returned. Every other path returns nothing and leaves
      the table alone. */
  function FindOrCreateIngredient(foods: Store, name: string, autoAdd: bool, minConfidence: real,
                                  estimator: Estimator, ratio: Similarity, now: ClockReadings)
    : (r: Result<Resolution, PyError>)
    ensures FindIngredient(foods, name, JInt(1), minConfidence, ratio).Err? ==>
      r == Err(FindIngredient(foods, name, JInt(1), minConfidence, ratio).error)
    ensures r.Ok? ==> r.value.foods == foods || (|r.value.foods| == |foods| + 1 && r.value.foods[..|foods|] == foods)
    ensures r.Err? ==> (FindIngredient(foods, name, JInt(1), minConfidence, ratio).Err? ||
      (autoAdd && estimator.Enabled? && estimator.estimate(name).Some? &&
       LlmNutrition.Validation(estimator.estimate(name).value).Err?))
    ensures (autoAdd && FindIngredient(foods, name, JInt(1), minConfidence, ratio).Ok? &&
             !Accepted(FindIngredient(foods, name, JInt(1), minConfidence, ratio).value) &&
             estimator.Enabled? && estimator.estimate(name).Some? && estimator.estimate(name).value != map[] &&
             LlmNutrition.Validation(estimator.estimate(name).value).Ok? &&
             LlmNutrition.Validation(estimator.estimate(name).value).value.valid) ==>
      var added := AddFood(foods, name, estimator.estimate(name).value, LlmSource, EstimateConfidence, now);
      r == Ok(Resolution(GetFoodById(added.foods, added.foodId), added.foods))
  {
    var matches :- FindIngredient(foods, name, JInt(1), minConfidence, ratio);
    if Accepted(matches) then Ok(Resolution(Some(matches[0]), foods))
    else if !autoAdd then Ok(Resolution(None, foods))
    else match estimator
      case Disabled => Ok(Resolution(None, foods))
      case Enabled(estimate) =>
        var data := estimate(name);
        if data.None? || data.value == map[] then Ok(Resolution(None, foods))
        else
          var verdict :- LlmNutrition.Validation(data.value);
          if !verdict.valid then Ok(Resolution(None, foods))
          else
            var added := AddFood(foods, name, data.value, LlmSource, EstimateConfidence, now);
            Ok(Resolution(GetFoodById(added.foods, added.foodId), added.foods))
  }

  /** A top match that passes the gate is returned as it is and nothing is
      written. */
  lemma GateReturnsTopMatch(foods: Store, name: string, autoAdd: bool, minConfidence: real,
                            estimator: Estimator, ratio: Similarity, now: ClockReadings)
    requires FindIngredient(foods, name, JInt(1), minConfidence, ratio).Ok?
    requires Accepted(FindIngredient(foods, name, JInt(1), minConfidence, ratio).value)
    ensures FindOrCreateIngredient(foods, name, autoAdd, minConfidence, estimator, ratio, now) ==
      Ok(Resolution(Some(FindIngredient(foods, name, JInt(1), minConfidence, ratio).value[0]), foods))
  {
  }

  /** Without `auto_add`, or without an estimator, the store is never
      written, the lookup's error is the only error, and the result is the
      top match exactly when it passes the gate. */
  lemma NoEstimateNeverWrites(foods: Store, name: string, autoAdd: bool, minConfidence: real,
                              estimator: Estimator, ratio: Similarity, now: ClockReadings)
    requires !autoAdd || estimator.Disabled?
    ensures var r := FindOrCreateIngredient(foods, name, autoAdd, minConfidence, estimator, ratio, now);
      var m := FindIngredient(foods, name, JInt(1), minConfidence, ratio);
      (r.Err? <==> m.Err?) &&
      (m.Ok? ==> r.value.foods == foods && r.value.food == (if Accepted(m.value) then Some(m.value[0]) else None))
  {
  }

  /** The store grows only through the estimate path: the gate refused the
      top match, `auto_add` is set, the estimator produced a non-empty
      estimate that validates, and that estimate was stored with source
      `llm_estimate` and confidence 0.7. */
  lemma WritesOnlyValidEstimates(foods: Store, name: string, autoAdd: bool, minConfidence: real,
                                 estimator: Estimator, ratio: Similarity, now: ClockReadings)
    ensures var r := FindOrCreateIngredient(foods, name, autoAdd, minConfidence, estimator, ratio, now);
      var m := FindIngredient(foods, name, JInt(1), minConfidence, ratio);
      r.Ok? && r.value.foods != foods ==>
        m.Ok? && !Accepted(m.value) &&
        autoAdd && estimator.Enabled? && estimator.estimate(name).Some? &&
        estimator.estimate(name).value != map[] &&
        LlmNutrition.Validation(estimator.estimate(name).value).Ok? &&
        LlmNutrition.Validation(estimator.estimate(name).value).value.valid &&
        r.value.foods == AddFood(foods, name, estimator.estimate(name).value, LlmSource, EstimateConfidence, now).foods &&
        r.value.food == GetFoodById(r.value.foods, GenerateFoodId(name, now.forId))
  {
  }

  /** The estimate path, forwards: when the gate refuses the top match,
      `auto_add` is set and the estimator produces a non-empty estimate that
      validates, the estimate is stored with source `llm_estimate` and
      confidence 0.7, and the record found under the generated id is
      returned. */
  lemma ValidEstimateIsStored(foods: Store, name: string, minConfidence: real, estimator: Estimator,
                              ratio: Similarity, now: ClockReadings, data: Record)
    requires FindIngredient(foods, name, JInt(1), minConfidence, ratio).Ok?
    requires !Accepted(FindIngredient(foods, name, JInt(1), minConfidence, ratio).value)
    requires estimator.Enabled? && estimator.estimate(name) == Some(data) && data != map[]
    requires LlmNutrition.Validation(data).Ok? && LlmNutrition.Validation(data).value.valid
    ensures var added := AddFood(foods, name, data, LlmSource, EstimateConfidence, now);
      FindOrCreateIngredient(foods, name, true, minConfidence, estimator, ratio, now) ==
        Ok(Resolution(GetFoodById(added.foods, GenerateFoodId(name, now.forId)), added.foods))
    ensures var r := FindOrCreateIngredient(foods, name, true, minConfidence, estimator, ratio, now);
      |r.value.foods| == |foods| + 1 && r.value.foods[..|foods|] == foods
  {
  }

  /** The estimate path, refused: when the gate refuses the top match and
      `auto_add` is set, an estimator that is off, produces nothing or an
      empty estimate, or produces one that validation rejects leaves the
      table unchanged and returns no record; a validation that raises makes
      the call raise. */
  lemma RefusedEstimateIsNotStored(foods: Store, name: string, minConfidence: real, estimator: Estimator,
                                   ratio: Similarity, now: ClockReadings)
    requires FindIngredient(foods, name, JInt(1), minConfidence, ratio).Ok?
    requires !Accepted(FindIngredient(foods, name, JInt(1), minConfidence, ratio).value)
    ensures var r := FindOrCreateIngredient(foods, name, true, minConfidence, estimator, ratio, now);
      if estimator.Disabled? || estimator.estimate(name).None? || estimator.estimate(name).value == map[] then
        r == Ok(Resolution(None, foods))
      else
        var verdict := LlmNutrition.Validation(estimator.estimate(name).value);
        (verdict.Err? ==> r == Err(verdict.error)) &&
        (verdict.Ok? && !verdict.value.valid ==> r == Ok(Resolution(None, foods)))
  {
  }

  /** Looking up an id the appended record carries finds a record with
      that id: the appended one unless an older record already had it. */
  lemma AppendedIdIsFound(foods: Store, doc: Record, id: string)
    requires HasId(doc, id)
    ensures var found := GetFoodById(foods + [doc], id);
      found.Some? && HasId(found.value, id) && (GetFoodById(foods, id).None? ==> found.value == doc)
  {
    LookupAfterAppend(foods, doc, id);
  }

  /** After an insertion whose data does not set `food_id`, looking up the
      generated id finds a record carrying it: the new one, unless an older
      record already carried the same id. */
  lemma AddedIdIsFound(foods: Store, name: string, data: Record, source: string, confidence: real, now: ClockReadings)
    requires "food_id" !in data
    ensures var added := AddFood(foods, name, data, source, confidence, now);
      var found := GetFoodById(added.foods, added.foodId);
      found.Some? && HasId(found.value, added.foodId) &&
      (GetFoodById(foods, added.foodId).None? ==> found.value == added.foods[|foods|])
  {
    var added := AddFood(foods, name, data, source, confidence, now);
    var doc := added.foods[|foods|];
    assert added.foods == foods + [doc] by {
      assert added.foods == added.foods[..|foods|] + [doc];
    }
    MetadataLookups(added.foodId, name, source, confidence, CurrentDate(now.forDate));
    assert HasId(doc, added.foodId);
    AppendedIdIsFound(foods, doc, added.foodId);
  }

  /** When the estimate does not set `food_id`, the record returned after a
      creation carries the generated id; it is the new record unless an
      older one carries the same id (same slug, same minute). */
  lemma CreatedFoodIsFound(foods: Store, name: string, minConfidence: real,
                           estimator: Estimator, ratio: Similarity, now: ClockReadings)
    requires estimator.Enabled? && estimator.estimate(name).Some?
    requires "food_id" !in estimator.estimate(name).value
    ensures var r := FindOrCreateIngredient(foods, name, true, minConfidence, estimator, ratio, now);
      r.Ok? && r.value.foods != foods ==>
        r.value.food.Some? && HasId(r.value.food.value, GenerateFoodId(name, now.forId)) &&
        (GetFoodById(foods, GenerateFoodId(name, now.forId)).None? ==> r.value.food.value == r.value.foods[|foods|])
  {
    WritesOnlyValidEstimates(foods, name, true, minConfidence, estimator, ratio, now);
    AddedIdIsFound(foods, name, estimator.estimate(name).value, LlmSource, EstimateConfidence, now);
  }

  // ---------------------------------------------------------------------
  // Usage counting

  /** `current_usage + 1` for the values Python can add 1 to. */
  function Increment(j: Json): Option<Json> {
    match j
    case JInt(i) => Some(JInt(i + 1))
    case JFloat(f) => Some(JFloat(f + 1.0))
    case JBool(b) => Some(JInt(if b then 2 else 1))
    case _ => None
  }

  /** The table after `update_food_usage` and the boolean it returns. */
  datatype Usage = Usage(foods: Store, updated: bool)

  function SetUsage(id: string, count: Json): Record -> Record {
    (r: Record) => if HasId(r, id) then r["usage_count" := count] else r
  }

  /** `update_food_usage`: nothing happens for an unknown id; otherwise the
      first matching record's `usage_count` (default 0) plus one is written
      into every record carrying the id. */
  function UpdateFoodUsage(foods: Store, id: string): (r: Result<Usage, PyError>)
    ensures r.Ok? ==> |r.value.foods| == |foods|
    ensures r.Ok? ==> (r.value.updated <==> exists i :: 0 <= i < |foods| && HasId(foods[i], id))
    ensures r.Ok? && !r.value.updated ==> r.value.foods == foods
    ensures r.Ok? ==> forall i :: 0 <= i < |foods| && !HasId(foods[i], id) ==> r.value.foods[i] == foods[i]
    ensures r.Ok? && r.value.updated ==>
      var count := Increment(Get(GetFoodById(foods, id).value, "usage_count", JInt(0)));
      count.Some? && forall i :: 0 <= i < |foods| && HasId(foods[i], id) ==>
        r.value.foods[i] == foods[i]["usage_count" := count.value]
    ensures r.Err? ==>
      GetFoodById(foods, id).Some? &&
      Increment(Get(GetFoodById(foods, id).value, "usage_count", JInt(0))).None?
  {
    match GetFoodById(foods, id)
    case None => Ok(Usage(foods, false))
    case Some(food) =>
      match Increment(Get(food, "usage_count", JInt(0)))
      case None => Err(TypeError("can only add a number to 'usage_count'"))
      case Some(count) => Ok(Usage(Map(foods, SetUsage(id, count)), true))
  }

  /** Counting a use of a food whose count is an integer (or absent) makes
      the food's count one larger. */
  lemma UsageCountsUp(foods: Store, id: string, n: int)
    requires GetFoodById(foods, id).Some?
    requires Get(GetFoodById(foods, id).value, "usage_count", JInt(0)) == JInt(n)
    ensures UpdateFoodUsage(foods, id).Ok?
    ensures var after := UpdateFoodUsage(foods, id).value.foods;
      GetFoodById(after, id).Some? && GetFoodById(after, id).value["usage_count"] == JInt(n + 1)
  {
    var r := UpdateFoodUsage(foods, id);
    assert r.Ok? && r.value.updated by {
      assert Increment(JInt(n)) == Some(JInt(n + 1));
    }
    var i :| FirstWithId(foods, id, i) && GetFoodById(foods, id).value == foods[i];
    var after := r.value.foods;
    assert after[i] == foods[i]["usage_count" := JInt(n + 1)];
    UsageKeepsFirst(foods, after, id, i);
    FirstMatchAt(after, id, i);
  }

  /** Records before the first match are left alone, so the first match
      stays first. */
  lemma UsageKeepsFirst(foods: Store, after: Store, id: string, i: int)
    requires FirstWithId(foods, id, i) && |after| == |foods|
    requires forall j :: 0 <= j < |foods| && !HasId(foods[j], id) ==> after[j] == foods[j]
    requires HasId(after[i], id)
    ensures FirstWithId(after, id, i)
  {
    forall j | 0 <= j < i
      ensures !HasId(after[j], id)
    {
      assert !HasId(foods[j], id);
    }
  }

  /** The lookup finds the record at `i` when it is the first carrying the id. */
  lemma {:induction false} FirstMatchAt(foods: Store, id: string, i: nat)
    requires FirstWithId(foods, id, i)
    ensures GetFoodById(foods, id) == Some(foods[i])
    decreases i
  {
    if i > 0 {
      FirstMatchAt(foods[1..], id, i - 1);
    }
  }
}
