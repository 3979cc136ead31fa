/**
 * The calorie default applied to the parsed recipe: when `recipe.calories` is
 * falsy or not a number, the meal type chosen by the user picks one of four
 * constants, 400 otherwise.
 */
module Calories {
  import opened JsValues

  const FallbackCalories := 400

  /**
   * String.prototype.toLowerCase on ASCII and Latin-1 letters: A-Z and
   * U+00C0..U+00DE (except the multiplication sign U+00D7) move up by 0x20.
   */
  function LowerChar(c: char): char {
    if 'A' <= c <= 'Z' || ('\U{C0}' <= c <= '\U{DE}' && c != '\U{D7}') then (c as int + 32) as char
    else c
  }

  function Lower(s: string): (r: string)
    ensures |r| == |s|
    ensures forall i :: 0 <= i < |s| ==> r[i] == LowerChar(s[i])
  {
    seq(|s|, i requires 0 <= i < |s| => LowerChar(s[i]))
  }

  /** The switch on the lowercased meal type: French or English term for each meal. */
  function MealTypeCalories(lowered: string): (r: int)
    ensures r in {350, 500, 625, 250, FallbackCalories}
    ensures r == FallbackCalories <==> lowered !in MealTerms
  {
    if lowered == "breakfast" || lowered == "petit-déjeuner" then 350
    else if lowered == "lunch" || lowered == "déjeuner" then 500
    else if lowered == "dinner" || lowered == "dîner" then 625
    else if lowered == "snack" || lowered == "collation" then 250
    else FallbackCalories
  }

  /** The eight `case` labels of the switch. */
  const MealTerms := {"breakfast", "petit-déjeuner", "lunch", "déjeuner", "dinner", "dîner", "snack", "collation"}

  /** A meal-type string that lowers to the English or the French term of one meal. */
  predicate IsMealType(mealType: Slot, english: string, french: string) {
    mealType.Some? && mealType.value.JString? && (Lower(mealType.value.s) == english || Lower(mealType.value.s) == french)
  }

  /**
   * `estimatedCalories` for `preferences?.mealType`: 400 when it is falsy; a
   * truthy value that is not a string has no toLowerCase, so the call throws.
   */
  function EstimateCalories(mealType: Slot): (r: Completion<int>)
    ensures !Truthy(mealType) ==> r == Normal(FallbackCalories)
    ensures r.Throw? <==> Truthy(mealType) && !mealType.value.JString?
    ensures IsMealType(mealType, "breakfast", "petit-déjeuner") ==> r == Normal(350)
    ensures IsMealType(mealType, "lunch", "déjeuner") ==> r == Normal(500)
    ensures IsMealType(mealType, "dinner", "dîner") ==> r == Normal(625)
    ensures IsMealType(mealType, "snack", "collation") ==> r == Normal(250)
    ensures mealType.Some? && mealType.value.JString? && Lower(mealType.value.s) !in MealTerms ==>
              r == Normal(FallbackCalories)
    ensures r.Normal? ==> r.value in {350, 500, 625, 250, 400}
  {
    if !Truthy(mealType) then Normal(FallbackCalories)
    else
      match mealType.value
      case JString(s) => Normal(MealTypeCalories(Lower(s)))
      case _ => Throw("preferences.mealType.toLowerCase is not a function")
  }

  /** `!recipe.calories || typeof recipe.calories !== 'number'` */
  predicate NeedsCalorieDefault(calories: Slot) {
    !(Truthy(calories) && calories.value.JNumber?)
  }

  /** The recipe after the calorie check, or the TypeError the meal-type switch throws. */
  function WithCalorieDefault(recipe: JsValue, mealType: Slot): (r: Completion<JsValue>)
    ensures !NeedsCalorieDefault(Member(recipe, "calories")) ==> r == Normal(recipe)
    ensures r.Throw? <==>
              NeedsCalorieDefault(Member(recipe, "calories")) && Truthy(mealType) && !mealType.value.JString?
    ensures r.Normal? && !TakesProperties(recipe) ==> r.value == recipe
    ensures r.Normal? && TakesProperties(recipe) ==>
              && r.value.JObject? == recipe.JObject?
              && (recipe.JArray? ==> r.value.JArray? && r.value.items == recipe.items)
              && !NeedsCalorieDefault(Member(r.value, "calories"))
              && forall k :: k != "calories" ==> Member(r.value, k) == Member(recipe, k)
    ensures r.Normal? && TakesProperties(recipe) && NeedsCalorieDefault(Member(recipe, "calories")) ==>
              Member(r.value, "calories") == Some(JNumber(EstimateCalories(mealType).value))
  {
    if !NeedsCalorieDefault(Member(recipe, "calories")) then Normal(recipe)
    else
      match EstimateCalories(mealType)
      case Throw(m) => Throw(m)
      case Normal(estimate) => Normal(SetMember(recipe, "calories", JNumber(estimate)))
  }

  lemma {:induction false} LowerIsIdempotent(s: string)
    ensures Lower(Lower(s)) == Lower(s)
  {
    var once := Lower(s);
    forall i | 0 <= i < |s|
      ensures Lower(once)[i] == once[i]
    {
      assert once[i] == LowerChar(s[i]);
    }
  }

  /** The meal-type match ignores case: any spelling lowers to the same bucket as its lowercase form. */
  lemma EstimateIgnoresCase(s: string)
    ensures EstimateCalories(Some(JString(s))) == EstimateCalories(Some(JString(Lower(s))))
  {
    LowerIsIdempotent(s);
  }

  /** An accented capitalised French term lands in its bucket. */
  lemma AccentedCapitalsMatch()
    ensures EstimateCalories(Some(JString("DÎNER"))) == Normal(625)
  {
    var lowered := Lower("DÎNER");
    assert lowered[0] == 'd' && lowered[1] == 'î' && lowered[2] == 'n' && lowered[3] == 'e' && lowered[4] == 'r';
    assert lowered == "dîner";
  }
}
