/**
 * The two prompts the relay builds by successive `+=`: the photography prompt
 * sent to the image generator and the recipe instruction sent to the
 * completion endpoint (the latter abstracted to its conditional structure),
 * plus the sampling temperature.
 */
module Prompts {
  import opened JsValues

  const PhotoPrefix := "Professional food photography of "
  const PhotoSuffix := ", beautifully plated on a clean white plate, natural lighting, appetizing presentation, high resolution, professional kitchen setting"
  const FeaturingLead := ", featuring "

  /** At most this many ingredients are named in the photography prompt. */
  const MaxPromptIngredients := 3

  /** `ingredients && ingredients.length > 0` */
  predicate HasIngredients(ingredients: Slot) {
    && Truthy(ingredients)
    && match ingredients.value
       case JArray(items, _) => |items| > 0
       case JString(s) => |s| > 0
       case JObject(fields) => "length" in fields && fields["length"].JNumber? && fields["length"].n > 0
       case _ => false
  }

  function DescriptionPart(description: Slot): string {
    if Truthy(description) then ", " + Str(description) else ""
  }

  /** `ingredients.slice(0, 3)` on an array. */
  function FirstIngredients(items: seq<JsValue>): seq<JsValue> {
    items[..if |items| < MaxPromptIngredients then |items| else MaxPromptIngredients]
  }

  /** `join` converts every element, so it throws exactly when one of them is unprintable. */
  predicate AllPrintable(items: seq<JsValue>) {
    forall i :: 0 <= i < |items| ==> PrintableValue(items[i])
  }

  /** `ingredients.slice(0, 3).join(', ')` on an array whose first three elements print. */
  function MainIngredients(items: seq<JsValue>): string {
    Join(FirstIngredients(items), ", ")
  }

  /** The title and a truthy description are interpolated before the ingredients are looked at. */
  predicate HeadPrintable(title: Slot, description: Slot) {
    Printable(title) && (Truthy(description) ==> Printable(description))
  }

  /**
   * The photography prompt, or the TypeError raised when the title, a truthy
   * description or one of the first three ingredients cannot be printed, or
   * when `ingredients` has a positive length but is not an array (strings
   * have no join, objects no slice).
   */
  function ImagePrompt(title: Slot, description: Slot, ingredients: Slot): Completion<string> {
    if !HeadPrintable(title, description) then Throw(ToPrimitiveError)
    else
      var head := PhotoPrefix + Str(title) + DescriptionPart(description);
      if !HasIngredients(ingredients) then Normal(head + PhotoSuffix)
      else
        match ingredients.value
        case JArray(items, _) =>
          if !AllPrintable(FirstIngredients(items)) then Throw(ToPrimitiveError)
          else Normal(head + FeaturingLead + MainIngredients(items) + PhotoSuffix)
        case JString(_) => Throw("ingredients.slice(...).join is not a function")
        case _ => Throw("ingredients.slice is not a function")
  }

  /** The photography prompt built as the source does, one `+=` at a time. */
  method BuildImagePrompt(title: Slot, description: Slot, ingredients: Slot) returns (r: Completion<string>)
    ensures r == ImagePrompt(title, description, ingredients)
    ensures r.Normal? ==> |r.value| >= |PhotoPrefix| + |PhotoSuffix|
  {
    var shownTitle := ToStr(title);
    if shownTitle.Throw? {
      return Throw(shownTitle.message);
    }
    var prompt := PhotoPrefix + shownTitle.value;
    if Truthy(description) {
      var shownDescription := ToStr(description);
      if shownDescription.Throw? {
        return Throw(shownDescription.message);
      }
      prompt := prompt + ", " + shownDescription.value;
    }
    assert prompt == PhotoPrefix + Str(title) + DescriptionPart(description);
    if HasIngredients(ingredients) {
      match ingredients.value {
        case JArray(items, _) =>
          var first := FirstIngredients(items);
          if !AllPrintable(first) {
            return Throw(ToPrimitiveError);
          }
          var mainIngredients := Join(first, ", ");
          prompt := prompt + FeaturingLead + mainIngredients;
        case JString(_) =>
          return Throw("ingredients.slice(...).join is not a function");
        case _ =>
          return Throw("ingredients.slice is not a function");
      }
    }
    prompt := prompt + PhotoSuffix;
    return Normal(prompt);
  }

  /**
   * The prompt fails exactly when the title, a truthy description or one of
   * the first three ingredients of an array cannot be printed, or when
   * `ingredients` has a positive length without being an array; an
   * unprintable title or description fails first, with the conversion error.
   */
  lemma ImagePromptFailures(title: Slot, description: Slot, ingredients: Slot)
    ensures ImagePrompt(title, description, ingredients).Throw? <==>
              || !HeadPrintable(title, description)
              || (HasIngredients(ingredients) &&
                  (!ingredients.value.JArray? || !AllPrintable(FirstIngredients(ingredients.value.items))))
    ensures !HeadPrintable(title, description) ==> ImagePrompt(title, description, ingredients) == Throw(ToPrimitiveError)
  {
  }

  /** A built prompt always opens with the title and closes with the styling suffix. */
  lemma ImagePromptFrame(title: Slot, description: Slot, ingredients: Slot)
    requires ImagePrompt(title, description, ingredients).Normal?
    ensures var p := ImagePrompt(title, description, ingredients).value;
            && |p| >= |PhotoPrefix + Str(title)| + |PhotoSuffix|
            && p[..|PhotoPrefix + Str(title)|] == PhotoPrefix + Str(title)
            && p[|p| - |PhotoSuffix|..] == PhotoSuffix
  {
  }

  /** The description changes the prompt exactly when it is truthy. */
  lemma DescriptionShowsIffTruthy(title: Slot, description: Slot, ingredients: Slot)
    requires ImagePrompt(title, None, ingredients).Normal?
    ensures ImagePrompt(title, description, ingredients) == ImagePrompt(title, None, ingredients)
            <==> !Truthy(description)
  {
    if Truthy(description) && ImagePrompt(title, description, ingredients).Normal? {
      assert |ImagePrompt(title, description, ingredients).value|
          == |ImagePrompt(title, None, ingredients).value| + |", " + Str(description)|;
    }
  }

  /**
   * An ingredient array whose first three elements print leaves the prompt
   * buildable, and then changes it exactly when it is non-empty.
   */
  lemma IngredientsShowIffNonEmpty(title: Slot, description: Slot, items: seq<JsValue>, props: map<string, JsValue>)
    ensures ImagePrompt(title, description, Some(JArray(items, props))).Normal?
            <==> ImagePrompt(title, description, None).Normal? && AllPrintable(FirstIngredients(items))
    ensures ImagePrompt(title, description, None).Normal? && AllPrintable(FirstIngredients(items)) ==>
              (ImagePrompt(title, description, Some(JArray(items, props))) == ImagePrompt(title, description, None)
               <==> items == [])
  {
    if items != [] && ImagePrompt(title, description, None).Normal? && AllPrintable(FirstIngredients(items)) {
      assert |ImagePrompt(title, description, Some(JArray(items, props))).value|
          >= |ImagePrompt(title, description, None).value| + |FeaturingLead|;
    }
  }

  /** Ingredients past the third never reach the prompt. */
  lemma OnlyFirstThreeIngredients(title: Slot, description: Slot, items: seq<JsValue>, props: map<string, JsValue>)
    requires |items| >= MaxPromptIngredients
    ensures ImagePrompt(title, description, Some(JArray(items, props)))
            == ImagePrompt(title, description, Some(JArray(items[..MaxPromptIngredients], props)))
  {
    assert items[..MaxPromptIngredients][..MaxPromptIngredients] == items[..MaxPromptIngredients];
  }

  /** Each of four concatenated parts can be cut back out of the whole. */
  lemma FourPartSlices(a: string, b: string, c: string, e: string)
    ensures var s := a + b + c + e;
            && |s| == |a| + |b| + |c| + |e|
            && s[..|a|] == a
            && s[|a|..|a| + |b|] == b
            && s[|a| + |b|..|s| - |e|] == c
            && s[|s| - |e|..] == e
  {
    var s := a + b + c + e;
    assert s == ((a + b) + c) + e;
    assert s[..|a|] == a;
    assert s[|a|..|a| + |b|] == b;
    assert s[|a| + |b|..|s| - |e|] == c;
    assert s[|s| - |e|..] == e;
  }

  /** A built ingredient-array prompt is the concatenation of its four parts. */
  lemma ImagePromptParts(title: Slot, description: Slot, items: seq<JsValue>, props: map<string, JsValue>)
    requires ImagePrompt(title, description, Some(JArray(items, props))).Normal?
    ensures ImagePrompt(title, description, Some(JArray(items, props))).value
            == PhotoPrefix + Str(title) + DescriptionPart(description)
               + (if items != [] then FeaturingLead + MainIngredients(items) else "") + PhotoSuffix
  {
  }

  /**
   * What an ingredient array's prompt says, part by part: the prefix and the
   * title, then `, <description>` when the description is truthy, then
   * `, featuring ` with the first min(3, n) ingredients joined by `, ` when
   * there are any, then the styling suffix. It is built exactly when the
   * title, a truthy description and those ingredients can all be printed.
   */
  lemma ImagePromptContents(title: Slot, description: Slot, items: seq<JsValue>, props: map<string, JsValue>)
    ensures ImagePrompt(title, description, Some(JArray(items, props))).Normal? <==>
              && Printable(title) && (Truthy(description) ==> Printable(description))
              && forall i :: 0 <= i < |items| && i < 3 ==> PrintableValue(items[i])
    ensures ImagePrompt(title, description, Some(JArray(items, props))).Normal? ==>
            var p := ImagePrompt(title, description, Some(JArray(items, props))).value;
            var head := PhotoPrefix + Str(title);
            var d := if Truthy(description) then ", " + Str(description) else "";
            var f := if items != [] then FeaturingLead + Join(items[..if |items| < 3 then |items| else 3], ", ") else "";
            && |p| == |head| + |d| + |f| + |PhotoSuffix|
            && p[..|head|] == head
            && p[|head|..|head| + |d|] == d
            && p[|head| + |d|..|p| - |PhotoSuffix|] == f
            && p[|p| - |PhotoSuffix|..] == PhotoSuffix
  {
    var r := ImagePrompt(title, description, Some(JArray(items, props)));
    ImagePromptFailures(title, description, Some(JArray(items, props)));
    assert FirstIngredients(items) == items[..if |items| < 3 then |items| else 3];
    if r.Normal? {
      ImagePromptParts(title, description, items, props);
      var f := if items != [] then FeaturingLead + MainIngredients(items) else "";
      FourPartSlices(PhotoPrefix + Str(title), DescriptionPart(description), f, PhotoSuffix);
    }
  }

  /**
   * The recipe instruction, by the blocks it is assembled from. The fixed
   * French wording of each block is abstracted to the block's identity and
   * to the values that vary inside it.
   */
  datatype PromptPart =
    | Intro(regenerate: bool)                         // task statement and strict requirements
    | AdaptFor(mealType: string)                      // "- Adaptez pour <mealType>"
    | RespectDiet(diet: string)                       // "- RESPECTEZ STRICTEMENT: <diet>"
    | VariationDemand                                 // "COMPLÈTEMENT DIFFÉRENTE" block
    | ResponseFormat(mealTag: Option<string>, regenerate: bool)
                                                      // JSON shape (tags carry the meal type),
                                                      // calorie targets, closing line

  /**
   * The instruction for `preferences?.mealType`, `preferences?.dietaryPreferences`
   * and `regenerate`, or the TypeError raised when a truthy meal type or
   * dietary preference cannot be printed (the meal type is interpolated first).
   */
  function RecipePrompt(mealType: Slot, diet: Slot, regenerate: bool): Completion<seq<PromptPart>> {
    if Truthy(mealType) && !Printable(mealType) then Throw(ToPrimitiveError)
    else if Truthy(diet) && !Printable(diet) then Throw(ToPrimitiveError)
    else
      Normal([Intro(regenerate)]
             + (if Truthy(mealType) then [AdaptFor(Str(mealType))] else [])
             + (if Truthy(diet) then [RespectDiet(Str(diet))] else [])
             + (if regenerate then [VariationDemand] else [])
             + [ResponseFormat(if Truthy(mealType) then Some(Str(mealType)) else None, regenerate)])
  }

  /** The recipe instruction built as the source does, one `+=` at a time. */
  method BuildRecipePrompt(mealType: Slot, diet: Slot, regenerate: bool) returns (r: Completion<seq<PromptPart>>)
    ensures r == RecipePrompt(mealType, diet, regenerate)
  {
    var parts := [Intro(regenerate)];
    var tag: Option<string> := None;
    if Truthy(mealType) {
      var shown := ToStr(mealType);
      if shown.Throw? {
        return Throw(shown.message);
      }
      parts := parts + [AdaptFor(shown.value)];
      tag := Some(shown.value);
    }
    if Truthy(diet) {
      var shown := ToStr(diet);
      if shown.Throw? {
        return Throw(shown.message);
      }
      parts := parts + [RespectDiet(shown.value)];
    }
    if regenerate {
      parts := parts + [VariationDemand];
    }
    assert tag == if Truthy(mealType) then Some(Str(mealType)) else None;
    assert parts == [Intro(regenerate)]
                    + (if Truthy(mealType) then [AdaptFor(Str(mealType))] else [])
                    + (if Truthy(diet) then [RespectDiet(Str(diet))] else [])
                    + (if regenerate then [VariationDemand] else []);
    parts := parts + [ResponseFormat(tag, regenerate)];
    return Normal(parts);
  }

  /**
   * The instruction fails, with the conversion error, exactly when a truthy
   * meal type or dietary preference cannot be printed. Otherwise the
   * conditional blocks: the variation demand appears iff `regenerate`, the
   * meal-type line (with the value) iff the meal type is truthy, the dietary
   * line iff the dietary preference is truthy; the intro comes first and the
   * response format, tagged with a truthy meal type, last.
   */
  lemma {:induction false} RecipePromptStructure(mealType: Slot, diet: Slot, regenerate: bool)
    ensures RecipePrompt(mealType, diet, regenerate).Throw? <==>
              (Truthy(mealType) && !Printable(mealType)) || (Truthy(diet) && !Printable(diet))
    ensures RecipePrompt(mealType, diet, regenerate).Throw? ==>
              RecipePrompt(mealType, diet, regenerate).message == ToPrimitiveError
    ensures RecipePrompt(mealType, diet, regenerate).Normal? ==>
            var parts := RecipePrompt(mealType, diet, regenerate).value;
            && 2 <= |parts| <= 5
            && parts[0] == Intro(regenerate)
            && parts[|parts| - 1] == ResponseFormat(if Truthy(mealType) then Some(Str(mealType)) else None, regenerate)
            && (VariationDemand in parts <==> regenerate)
            && (AdaptFor(Str(mealType)) in parts <==> Truthy(mealType))
            && (RespectDiet(Str(diet)) in parts <==> Truthy(diet))
            && (forall i :: 0 <= i < |parts| && parts[i].AdaptFor? ==> Truthy(mealType))
            && (forall i :: 0 <= i < |parts| && parts[i].RespectDiet? ==> Truthy(diet))
  {
  }

  /** `temperature: regenerate ? 0.9 : 0.7` */
  function Temperature(regenerate: bool): (t: real)
    ensures regenerate ==> t == 0.9
    ensures !regenerate ==> t == 0.7
  {
    if regenerate then 0.9 else 0.7
  }

  /** The body of the chat-completion call; the image travels as an inline content block. */
  datatype CompletionRequest = CompletionRequest(
    model: string,
    prompt: seq<PromptPart>,
    image: JsValue,
    maxTokens: nat,
    temperature: real)

  /**
   * The completion request for an upload, or the TypeError of a recipe
   * instruction that cannot be built.
   */
  function CompletionRequestFor(image: JsValue, preferences: Slot, regenerate: Slot): Completion<CompletionRequest> {
    var regen := Truthy(regenerate);
    var prompt := RecipePrompt(OptGet(preferences, "mealType"), OptGet(preferences, "dietaryPreferences"), regen);
    if prompt.Throw? then Throw(prompt.message)
    else Normal(CompletionRequest("gpt-4o-mini", prompt.value, image, 1000, Temperature(regen)))
  }

  /**
   * Asking for a new recipe changes what is sent upstream: a higher
   * temperature and the variation demand; nothing else differs except the
   * regenerate-dependent wording of the intro and closing blocks. Whether a
   * request can be built does not depend on `regenerate`.
   */
  lemma RegenerateAltersRequest(image: JsValue, preferences: Slot, again: Slot, first: Slot)
    requires Truthy(again) && !Truthy(first)
    ensures CompletionRequestFor(image, preferences, again).Normal? <==> CompletionRequestFor(image, preferences, first).Normal?
    ensures CompletionRequestFor(image, preferences, again).Normal? ==>
            var a := CompletionRequestFor(image, preferences, again).value;
            var f := CompletionRequestFor(image, preferences, first).value;
            && a.temperature == 0.9 && f.temperature == 0.7
            && VariationDemand in a.prompt && VariationDemand !in f.prompt
            && a.model == f.model && a.image == f.image && a.maxTokens == f.maxTokens
  {
    RecipePromptStructure(OptGet(preferences, "mealType"), OptGet(preferences, "dietaryPreferences"), true);
    RecipePromptStructure(OptGet(preferences, "mealType"), OptGet(preferences, "dietaryPreferences"), false);
  }
}
