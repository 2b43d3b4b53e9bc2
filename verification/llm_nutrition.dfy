/** The estimate side of the store (database/llm_nutrition.py): the field
    set of an estimated nutrition profile and the plausibility check an
    estimate must pass before it is stored. The language-model call itself
    is a parameter of the store operations. */
module LlmNutrition {
  import opened Wrappers
  import opened Records

  /** The per-100 g fields of `NutritionProfile`, in declaration order: five
      macronutrient entries, six minerals and eleven vitamins. */
  const ProfileFields: seq<string> := [
    "calories", "protein", "fat", "carbs", "fiber",
    "iron_mg", "calcium_mg", "zinc_mg", "magnesium_mg", "potassium_mg", "sodium_mg",
    "vitamin_c_mg", "vitamin_a_mcg", "vitamin_d_mcg", "vitamin_e_mg", "vitamin_k_mcg",
    "thiamin_mg", "riboflavin_mg", "niacin_mg", "vitamin_b6_mg", "folate_mcg", "vitamin_b12_mcg"
  ]

  predicate Distinct(xs: seq<string>) {
    forall i, j :: 0 <= i < j < |xs| ==> xs[i] != xs[j]
  }

  lemma ProfileFieldsDistinct()
    ensures |ProfileFields| == 22 && Distinct(ProfileFields)
  {
  }

  /** The shape `model_dump()` gives an estimate: exactly the profile
      fields, each a float. */
  predicate IsProfileDump(data: Record) {
    (forall k :: k in data ==> k in ProfileFields) &&
    (forall i :: 0 <= i < |ProfileFields| ==> ProfileFields[i] in data) &&
    (forall k :: k in data ==> data[k].JFloat?)
  }

  /** `d.get(key, 0)` as a number, `None` when it is not one. */
  function NumberOr0(data: Record, key: string): Option<real> {
    AsNumber(Get(data, key, JInt(0)))
  }

  /** `protein * 4 + carbs * 4 + fat * 9` with the three defaulting to 0.
      Any non-numeric operand makes Python raise `TypeError` somewhere in
      the expression or in the comparison that follows it (a string or list
      operand survives `* 4` but not `+` with a number or `> 0`), which is
      `None` here. */
  function MacroCalories(data: Record): Option<real> {
    var p := NumberOr0(data, "protein");
    var c := NumberOr0(data, "carbs");
    var f := NumberOr0(data, "fat");
    if p.Some? && c.Some? && f.Some? then Some(p.value * 4.0 + c.value * 4.0 + f.value * 9.0) else None
  }

  function Abs(x: real): real {
    if x < 0.0 then -x else x
  }

  /** The warning condition of the 4-4-9 check: the stated calories differ
      from the macro estimate by more than half of it. The division happens
      only for a positive estimate. */
  predicate CalorieMismatch(stated: real, estimated: real) {
    estimated > 0.0 && Abs(stated - estimated) / estimated > 0.5
  }

  /** `isinstance(v, (int, float)) and v < 0`; a `bool` is an `int` but
      never negative. */
  predicate NegativeNumber(v: Json) {
    (v.JInt? && v.i < 0) || (v.JFloat? && v.f < 0.0)
  }

  predicate HasNegative(data: Record) {
    exists k :: k in data && NegativeNumber(data[k])
  }

  /** The outcome of `validate_nutrition_data`: the returned boolean and
      whether the calorie-mismatch warning was printed on the way. */
  datatype Verdict = Verdict(valid: bool, calorieWarning: bool)

  const MacroTypeError: PyError := TypeError("unsupported operand type(s) in calorie estimate")

  /** The error, if any, the calorie check raises before the negative-value
      scan, and otherwise whether it warns. */
  function CalorieCheck(data: Record): Result<bool, PyError> {
    match MacroCalories(data)
    case None => Err(MacroTypeError)
    case Some(est) =>
      if est > 0.0 then
        match NumberOr0(data, "calories")
        case None => Err(MacroTypeError)
        case Some(cal) => Ok(CalorieMismatch(cal, est))
      else Ok(false)
  }

  /** `validate_nutrition_data`: the calorie check only warns; the verdict
      is false exactly when some numeric value is negative. The scan visits
      the entries one at a time and stops at the first negative one, as the
      loop over `items()` does; whatever order it visits them in, it reaches
      the verdict of `Validation`. */
  method ValidateNutritionData(data: Record) returns (r: Result<Verdict, PyError>)
    ensures r == Validation(data)
    ensures r.Err? <==> CalorieCheck(data).Err?
    ensures r.Ok? ==> (r.value.valid <==> !HasNegative(data))
    ensures r.Ok? ==> r.value.calorieWarning == CalorieCheck(data).value
  {
    var check := CalorieCheck(data);
    if check.Err? {
      return Err(check.error);
    }
    var todo := data.Keys;
    while todo != {}
      invariant todo <= data.Keys
      invariant forall k :: k in data && k !in todo ==> !NegativeNumber(data[k])
      decreases |todo|
    {
      var k :| k in todo;
      if NegativeNumber(data[k]) {
        return Ok(Verdict(false, check.value));
      }
      todo := todo - {k};
    }
    return Ok(Verdict(true, check.value));
  }

  /** The verdict as a function of the whole estimate, for the store's
      create path. */
  function Validation(data: Record): (r: Result<Verdict, PyError>)
    ensures r.Err? <==> CalorieCheck(data).Err?
    ensures r.Ok? ==> (r.value.valid <==> !HasNegative(data))
  {
    match CalorieCheck(data)
    case Err(e) => Err(e)
    case Ok(warn) => Ok(Verdict(!HasNegative(data), warn))
  }

  /** A profile dump never makes the calorie check raise. */
  lemma ProfileDumpValidates(data: Record)
    requires IsProfileDump(data)
    ensures Validation(data).Ok?
  {
    assert "protein" in ProfileFields && "carbs" in ProfileFields && "fat" in ProfileFields;
    assert "calories" in ProfileFields;
  }

  /** The mismatch warning never changes the verdict: two estimates that
      agree everywhere except on their stated calories get the same
      verdict, provided both stated values are non-negative numbers. */
  lemma CaloriesDoNotDecide(data: Record, c1: real, c2: real)
    requires c1 >= 0.0 && c2 >= 0.0
    requires Validation(data["calories" := JFloat(c1)]).Ok?
    ensures Validation(data["calories" := JFloat(c2)]).Ok?
    ensures Validation(data["calories" := JFloat(c1)]).value.valid
         == Validation(data["calories" := JFloat(c2)]).value.valid
  {
    var d1 := data["calories" := JFloat(c1)];
    var d2 := data["calories" := JFloat(c2)];
    assert NumberOr0(d1, "protein") == NumberOr0(d2, "protein");
    assert NumberOr0(d1, "carbs") == NumberOr0(d2, "carbs");
    assert NumberOr0(d1, "fat") == NumberOr0(d2, "fat");
    assert HasNegative(d1) <==> HasNegative(d2) by {
      if HasNegative(d1) {
        var k :| k in d1 && NegativeNumber(d1[k]);
        assert k != "calories";
        assert k in d2 && d2[k] == d1[k];
      }
      if HasNegative(d2) {
        var k :| k in d2 && NegativeNumber(d2[k]);
        assert k != "calories";
        assert k in d1 && d1[k] == d2[k];
      }
    }
  }

  /** One negative entry is enough to reject an estimate. */
  lemma NegativeRejects(data: Record, key: string, v: real)
    requires v < 0.0
    requires Validation(data[key := JFloat(v)]).Ok?
    ensures !Validation(data[key := JFloat(v)]).value.valid
  {
    assert key in data[key := JFloat(v)] && NegativeNumber(data[key := JFloat(v)][key]);
  }
}
