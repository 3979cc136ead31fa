/**
 * The response parser and validator: JSON.parse of the embedded object, the
 * structural check on `identifiedIngredients` and `recipe`, then the calorie
 * default.
 */
module RecipeParser {
  import opened JsValues
  import opened Replies
  import opened EmbeddedJson
  import opened Calories

  /** The two parts of a validated completion. */
  datatype Parsed = Parsed(identifiedIngredients: JsValue, recipe: JsValue)

  /**
   * Lines 354-372: a content that is not a string has no `match`, and that
   * TypeError is caught like a JSON.parse failure, giving 500; a null result
   * throws on the property read; a result without a truthy
   * `identifiedIngredients` or `recipe` gives 500 as well.
   */
  function ValidateResponse(content: JsValue, parse: Parser): (r: Step<Parsed>)
    ensures !content.JString? ==> r == Stop(UnparsableRecipe)
    ensures content.JString? && ParseEmbedded(content.s, parse).None? ==> r == Stop(UnparsableRecipe)
    ensures content.JString? && ParseEmbedded(content.s, parse) == Some(JNull) ==> r == Stop(InternalError)
    ensures content.JString? && ParseEmbedded(content.s, parse).Some? && ParseEmbedded(content.s, parse) != Some(JNull)
            && !(Truthy(Member(ParseEmbedded(content.s, parse).value, "identifiedIngredients"))
                 && Truthy(Member(ParseEmbedded(content.s, parse).value, "recipe")))
            ==> r == Stop(IncompleteRecipe)
    ensures r.Continue? <==>
              && content.JString?
              && ParseEmbedded(content.s, parse).Some?
              && Truthy(Member(ParseEmbedded(content.s, parse).value, "identifiedIngredients"))
              && Truthy(Member(ParseEmbedded(content.s, parse).value, "recipe"))
    ensures r.Continue? ==>
              && Truthy(Some(r.value.identifiedIngredients)) && Truthy(Some(r.value.recipe))
              && Some(r.value.recipe) == Member(ParseEmbedded(content.s, parse).value, "recipe")
              && Some(r.value.identifiedIngredients)
                 == Member(ParseEmbedded(content.s, parse).value, "identifiedIngredients")
    ensures r.Stop? ==> r.reply in {UnparsableRecipe, InternalError, IncompleteRecipe}
  {
    if !content.JString? then Stop(UnparsableRecipe)
    else
      match ParseEmbedded(content.s, parse)
      case None => Stop(UnparsableRecipe)
      case Some(parsed) =>
        if parsed == JNull then Stop(InternalError)
        else
          var ingredients := Member(parsed, "identifiedIngredients");
          var recipe := Member(parsed, "recipe");
          if !Truthy(ingredients) || !Truthy(recipe) then Stop(IncompleteRecipe)
          else Continue(Parsed(ingredients.value, recipe.value))
  }

  /**
   * Lines 374-400: the validated recipe with its calories defaulted; the
   * meal-type switch throwing on a non-string meal type ends in the catch-all.
   */
  function CompleteRecipe(parsed: Parsed, mealType: Slot): (r: Step<Parsed>)
    ensures r.Stop? <==> WithCalorieDefault(parsed.recipe, mealType).Throw?
    ensures r.Stop? ==> r.reply == InternalError
    ensures r.Continue? ==>
              && r.value.identifiedIngredients == parsed.identifiedIngredients
              && r.value.recipe == WithCalorieDefault(parsed.recipe, mealType).value
  {
    match WithCalorieDefault(parsed.recipe, mealType)
    case Throw(_) => Stop(InternalError)
    case Normal(recipe) => Continue(Parsed(parsed.identifiedIngredients, recipe))
  }
}
