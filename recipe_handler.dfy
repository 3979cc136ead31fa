/**
 * `handleGenerateRecipes`, for both deployments: with the image store
 * (server.cjs) the generated image is copied to storage and its URL decides
 * `imageSource`; without it (server.js) the DALL·E URL is answered as is.
 * The handler answers an error at the first failing stage, and the outbound
 * calls it made are recorded in order.
 */
module RecipeHandler {
  import opened JsValues
  import opened Replies
  import opened Calories
  import opened Prompts
  import opened Upstream
  import opened RecipeParser
  import opened Outbound
  import opened ImageGeneration
  import opened Storage

  /** The fields of `req.body` the handler reads. */
  datatype RecipeRequest = RecipeRequest(image: Slot, preferences: Slot, regenerate: Slot)

  /** The two `Date.now()` readings around the work, the one in the id, and the random id suffix. */
  datatype Clock = Clock(start: int, idTime: int, end: int, suffix: string)

  datatype RecipeReply =
    | RecipeFailed(failure: ErrorReply)
    | RecipeReady(recipe: JsValue, identifiedIngredients: JsValue, imageGenerationSuccess: bool, generationTime: int)

  function StatusOf(reply: RecipeReply): int {
    if reply.RecipeFailed? then reply.failure.status else 200
  }

  /** The reply together with the outbound calls made to reach it. */
  datatype Handled = Handled(reply: RecipeReply, calls: seq<Call>)

  /** `recipe_${Date.now()}_${suffix}` */
  function RecipeId(now: int, suffix: string): string {
    "recipe_" + IntStr(now) + "_" + suffix
  }

  /**
   * From the completion call to the validated recipe with its calories: the
   * network failure, the upstream error, the unreadable reply, the missing
   * content, the unparsable or incomplete recipe, and the calorie default.
   */
  function Analyse(request: CompletionRequest, mealType: Slot, svc: Services): (r: Step<Parsed>)
    ensures svc.chat(request) == ChatNetworkError ==> r == Stop(Unreachable)
    ensures svc.chat(request).ChatAnswered? && !IsOk(svc.chat(request).status) ==>
              r.Stop? && r.reply.status == svc.chat(request).status
    ensures svc.chat(request).ChatAnswered? && !IsOk(svc.chat(request).status) ==>
              r == Stop(UpstreamFailure(svc.chat(request).status, svc.chat(request).bodyText, svc.parse))
    ensures r.Stop? ==> !IsOk(r.reply.status)
    ensures r.Continue? ==>
              && svc.chat(request).ChatAnswered? && IsOk(svc.chat(request).status)
              && Truthy(Some(r.value.identifiedIngredients))
              && (TakesProperties(r.value.recipe) ==> !NeedsCalorieDefault(Member(r.value.recipe, "calories")))
  {
    match svc.chat(request)
    case ChatNetworkError => Stop(Unreachable)
    case ChatAnswered(status, bodyText) =>
      if !IsOk(status) then Stop(UpstreamFailure(status, bodyText, svc.parse))
      else
        match ReadReply(bodyText, svc.parse)
        case Stop(failure) => Stop(failure)
        case Continue(data) =>
          match ReplyContent(data)
          case Stop(failure) => Stop(failure)
          case Continue(content) =>
            match ValidateResponse(content, svc.parse)
            case Stop(failure) => Stop(failure)
            case Continue(parsed) => CompleteRecipe(parsed, mealType)
  }

  /** The DALL·E call for a validated recipe: its title, description and identified ingredients. */
  function Generation(recipe: JsValue, ingredients: JsValue, svc: Services): ImageRun {
    GenerateImageWithDalle(Member(recipe, "title"), Member(recipe, "description"), Some(ingredients), svc.dalle)
  }

  /** The store step, run on the DALL·E URL. */
  function Storing(recipeId: string, generated: ImageRun, svc: Services): StoreRun {
    StoreImageInSupabase(recipeId, generated.result.imageUrl, svc.download, svc.upload, svc.publicUrl)
  }

  /** What the image stage leaves behind: the final URL, whether DALL·E produced an image, the calls made. */
  datatype ImageStage = ImageStage(imageUrl: string, generated: bool, calls: seq<Call>)

  function RunImageStage(withStorage: bool, recipe: JsValue, ingredients: JsValue, recipeId: string, svc: Services)
    : (st: ImageStage)
    ensures var g := Generation(recipe, ingredients, svc);
            && st.generated == g.result.success
            && (!st.generated ==> st.imageUrl == "")
            && (st.generated && !withStorage ==> st.imageUrl == g.result.imageUrl)
            && (st.generated && withStorage ==>
                  st.imageUrl == if Storing(recipeId, g, svc).result.success
                                 then SupabasePublicUrl(recipeId, svc.publicUrl)
                                 else g.result.imageUrl)
    ensures UploadsOverwrite(st.calls, recipeId)
    ensures !withStorage ==> forall c :: c in st.calls ==> c.ImageGeneration?
  {
    var generated := Generation(recipe, ingredients, svc);
    if withStorage && generated.result.success then
      var stored := Storing(recipeId, generated, svc);
      var url := if stored.result.success then stored.result.supabaseUrl else generated.result.imageUrl;
      ImageStage(url, true, generated.calls + stored.calls)
    else
      ImageStage(generated.result.imageUrl, generated.result.success, generated.calls)
  }

  /** `dalleResult.success ? (finalImageUrl.includes('supabase') ? 'supabase' : 'dalle') : 'failed'` */
  function ImageSource(withStorage: bool, generated: bool, imageUrl: string): (source: string)
    ensures source in {"failed", "dalle", "supabase"}
    ensures source == "failed" <==> !generated
    ensures source == "supabase" ==> withStorage && Includes(imageUrl, "supabase")
  {
    if !generated then "failed"
    else if withStorage && Includes(imageUrl, "supabase") then "supabase"
    else "dalle"
  }

  /**
   * `dalleResult.success && finalImageUrl.includes('supabase')` with the store,
   * `dalleResult.success` without it: with the store the flag is set exactly
   * when the source says `supabase`.
   */
  function ImageGenerationSuccess(withStorage: bool, generated: bool, imageUrl: string): (success: bool)
    ensures success ==> generated
    ensures !withStorage ==> success == generated
    ensures withStorage ==> (success <==> ImageSource(withStorage, generated, imageUrl) == "supabase")
  {
    generated && (!withStorage || Includes(imageUrl, "supabase"))
  }

  predicate IsAddedKey(k: string) {
    k == "imageUrl" || k == "id" || k == "imageSource"
  }

  /** `{ ...recipe, imageUrl, id, imageSource }` */
  function FinalRecipe(recipe: JsValue, imageUrl: string, recipeId: string, imageSource: string): (r: JsValue)
    ensures r.JObject?
    ensures Member(r, "imageUrl") == Some(JString(imageUrl))
    ensures Member(r, "id") == Some(JString(recipeId))
    ensures Member(r, "imageSource") == Some(JString(imageSource))
    ensures forall k :: !IsAddedKey(k) ==> (k in r.fields <==> k in SpreadFields(recipe))
    ensures forall k :: !IsAddedKey(k) && k in r.fields ==> r.fields[k] == SpreadFields(recipe)[k]
    ensures recipe.JObject? ==> forall k :: !IsAddedKey(k) ==> Member(r, k) == Member(recipe, k)
    ensures recipe.JArray? ==> forall k :: !IsAddedKey(k) && k in recipe.props ==> Member(r, k) == Member(recipe, k)
  {
    JObject(SpreadFields(recipe)["imageUrl" := JString(imageUrl)]["id" := JString(recipeId)]
                                ["imageSource" := JString(imageSource)])
  }

  /** The spread carries an object's or an array's `calories` into the record. */
  lemma FinalRecipeKeepsCalories(recipe: JsValue, imageUrl: string, recipeId: string, imageSource: string)
    requires TakesProperties(recipe)
    ensures Member(FinalRecipe(recipe, imageUrl, recipeId, imageSource), "calories") == Member(recipe, "calories")
  {
    var r := FinalRecipe(recipe, imageUrl, recipeId, imageSource);
    assert !IsAddedKey("calories");
    if recipe.JArray? && "calories" !in recipe.props {
      assert "calories" !in SpreadFields(recipe) by {
        if "calories" in SpreadFields(recipe) {
          var i: nat :| i < |recipe.items| && "calories" == NatStr(i);
          NatStrIsDigits(i);
          assert NatStr(i)[0] == 'c';
        }
      }
      assert "calories" !in r.fields;
    }
  }

  /** The success reply: the recipe record, the identified ingredients, the image flag and the elapsed time. */
  function Assemble(withStorage: bool, parsed: Parsed, image: ImageStage, recipeId: string, clock: Clock): RecipeReply {
    var source := ImageSource(withStorage, image.generated, image.imageUrl);
    RecipeReady(
      FinalRecipe(parsed.recipe, image.imageUrl, recipeId, source),
      parsed.identifiedIngredients,
      ImageGenerationSuccess(withStorage, image.generated, image.imageUrl),
      clock.end - clock.start)
  }

  /**
   * The handler: the image check, the key check, the instruction (whose
   * TypeError reaches the catch-all before any call), the analysis, the image
   * stage and the reply.
   */
  function GenerateRecipes(withStorage: bool, req: RecipeRequest, svc: Services, clock: Clock): Handled {
    if !Truthy(req.image) then Handled(RecipeFailed(MissingImage), [])
    else if !svc.hasApiKey then Handled(RecipeFailed(MissingApiKey), [])
    else
      match CompletionRequestFor(req.image.value, req.preferences, req.regenerate)
      case Throw(_) => Handled(RecipeFailed(InternalError), [])
      case Normal(request) =>
      match Analyse(request, OptGet(req.preferences, "mealType"), svc)
      case Stop(failure) => Handled(RecipeFailed(failure), [ChatCall(request)])
      case Continue(parsed) =>
        var recipeId := RecipeId(clock.idTime, clock.suffix);
        var image := RunImageStage(withStorage, parsed.recipe, parsed.identifiedIngredients, recipeId, svc);
        Handled(
          Assemble(withStorage, parsed, image, recipeId, clock),
          [ChatCall(request)] + image.calls)
  }

  /** The image stage as the source runs it: `finalImageUrl` starts as the DALL·E URL and is replaced by the stored one. */
  method ImageStep(withStorage: bool, recipe: JsValue, ingredients: JsValue, recipeId: string, svc: Services)
    returns (st: ImageStage)
    ensures st == RunImageStage(withStorage, recipe, ingredients, recipeId, svc)
  {
    var dalleResult := Generation(recipe, ingredients, svc);
    var calls := dalleResult.calls;
    var finalImageUrl := dalleResult.result.imageUrl;
    if withStorage && dalleResult.result.success {
      var storageResult := Storing(recipeId, dalleResult, svc);
      calls := calls + storageResult.calls;
      if storageResult.result.success {
        finalImageUrl := storageResult.result.supabaseUrl;
      }
    }
    st := ImageStage(finalImageUrl, dalleResult.result.success, calls);
  }

  /** The handler as the source runs it: early returns, then the image stage, then the reply. */
  method HandleGenerateRecipes(withStorage: bool, req: RecipeRequest, svc: Services, clock: Clock)
    returns (h: Handled)
    ensures h == GenerateRecipes(withStorage, req, svc, clock)
  {
    if !Truthy(req.image) {
      return Handled(RecipeFailed(MissingImage), []);
    }
    if !svc.hasApiKey {
      return Handled(RecipeFailed(MissingApiKey), []);
    }
    var built := CompletionRequestFor(req.image.value, req.preferences, req.regenerate);
    if built.Throw? {
      return Handled(RecipeFailed(InternalError), []);
    }
    var request := built.value;
    var analysed := Analyse(request, OptGet(req.preferences, "mealType"), svc);
    if analysed.Stop? {
      return Handled(RecipeFailed(analysed.reply), [ChatCall(request)]);
    }
    var parsed := analysed.value;
    var recipeId := RecipeId(clock.idTime, clock.suffix);
    var image := ImageStep(withStorage, parsed.recipe, parsed.identifiedIngredients, recipeId, svc);
    h := Handled(
      Assemble(withStorage, parsed, image, recipeId, clock),
      [ChatCall(request)] + image.calls);
  }

  /** The request sent upstream once the image and the key are there, if it can be built. */
  function RequestFor(req: RecipeRequest): Completion<CompletionRequest>
    requires Truthy(req.image)
  {
    CompletionRequestFor(req.image.value, req.preferences, req.regenerate)
  }

  /** What the analysis stage concludes for a request that reaches it. */
  function Analysed(req: RecipeRequest, svc: Services): Step<Parsed>
    requires Truthy(req.image) && RequestFor(req).Normal?
  {
    Analyse(RequestFor(req).value, OptGet(req.preferences, "mealType"), svc)
  }

  /**
   * A request without an image is refused with 400 whatever the services and
   * the key; with an image but no key the answer is the 503 for the missing
   * key; no outbound call is made unless the image and the key are both there.
   */
  lemma MissingImageRefusedFirst(withStorage: bool, req: RecipeRequest, svc: Services, clock: Clock)
    ensures var h := GenerateRecipes(withStorage, req, svc, clock);
            && (!Truthy(req.image) ==> h == Handled(RecipeFailed(MissingImage), []))
            && (h.calls == [] <==> !Truthy(req.image) || !svc.hasApiKey || RequestFor(req).Throw?)
            && (Truthy(req.image) && !svc.hasApiKey ==> h == Handled(RecipeFailed(MissingApiKey), []))
            && (Truthy(req.image) && svc.hasApiKey && RequestFor(req).Throw? ==>
                  h == Handled(RecipeFailed(InternalError), []))
  {
  }

  /**
   * With the image and the key there, the request ends in the catch-all with
   * no outbound call exactly when a truthy meal type or dietary preference
   * cannot be printed into the instruction.
   */
  lemma UnprintablePreferencesFailBeforeCall(withStorage: bool, req: RecipeRequest, svc: Services, clock: Clock)
    requires Truthy(req.image) && svc.hasApiKey
    ensures var mealType := OptGet(req.preferences, "mealType");
            var diet := OptGet(req.preferences, "dietaryPreferences");
            GenerateRecipes(withStorage, req, svc, clock) == Handled(RecipeFailed(InternalError), [])
            <==> (Truthy(mealType) && !Printable(mealType)) || (Truthy(diet) && !Printable(diet))
  {
    RecipePromptStructure(OptGet(req.preferences, "mealType"), OptGet(req.preferences, "dietaryPreferences"),
                          Truthy(req.regenerate));
  }

  /**
   * Every error answer carries a non-2xx status, and once the completion
   * call has been made an error means nothing downstream of it ran.
   */
  lemma FailuresStopBeforeImages(withStorage: bool, req: RecipeRequest, svc: Services, clock: Clock)
    ensures var h := GenerateRecipes(withStorage, req, svc, clock);
            h.reply.RecipeFailed? ==>
              && !IsOk(StatusOf(h.reply))
              && (h.calls == [] || (Truthy(req.image) && RequestFor(req).Normal? && h.calls == [ChatCall(RequestFor(req).value)]))
  {
  }

  /** A parsed reply without a truthy `identifiedIngredients` or `recipe` ends the request with 500. */
  lemma IncompleteRecipeStopsDownstream(
    withStorage: bool, req: RecipeRequest, svc: Services, clock: Clock, status: int, bodyText: string, data: JsValue,
    content: string)
    requires Truthy(req.image) && svc.hasApiKey && RequestFor(req).Normal?
    requires svc.chat(RequestFor(req).value) == ChatAnswered(status, bodyText) && IsOk(status)
    requires svc.parse(bodyText) == Some(data)
    requires ReplyContent(data) == Continue(JString(content))
    requires svc.parse(EmbeddedJson.JsonCandidate(content)).Some?
    requires var parsed := svc.parse(EmbeddedJson.JsonCandidate(content)).value;
             parsed != JNull &&
             (!Truthy(Member(parsed, "identifiedIngredients")) || !Truthy(Member(parsed, "recipe")))
    ensures GenerateRecipes(withStorage, req, svc, clock)
            == Handled(RecipeFailed(IncompleteRecipe), [ChatCall(RequestFor(req).value)])
  {
  }

  /**
   * A truthy `content` that is not a string (a number, say) fails at
   * `content.match` inside the parse step's `try`, so the request ends with
   * the recipe-data error, not the catch-all.
   */
  lemma NonStringContentIsUnparsable(
    withStorage: bool, req: RecipeRequest, svc: Services, clock: Clock, status: int, bodyText: string, data: JsValue,
    content: JsValue)
    requires Truthy(req.image) && svc.hasApiKey && RequestFor(req).Normal?
    requires svc.chat(RequestFor(req).value) == ChatAnswered(status, bodyText) && IsOk(status)
    requires svc.parse(bodyText) == Some(data)
    requires data != JNull && !Nullish(Member(data, "choices"))
    requires ContentOf(Member(data, "choices").value) == Some(content)
    requires Truthy(Some(content)) && !content.JString?
    ensures GenerateRecipes(withStorage, req, svc, clock)
            == Handled(RecipeFailed(UnparsableRecipe), [ChatCall(RequestFor(req).value)])
  {
  }

  /** The success path's reply is assembled from the analysed recipe and the image stage. */
  lemma ReadyReplyIsAssembled(withStorage: bool, req: RecipeRequest, svc: Services, clock: Clock)
    requires Truthy(req.image) && svc.hasApiKey && RequestFor(req).Normal? && Analysed(req, svc).Continue?
    ensures var parsed := Analysed(req, svc).value;
            var recipeId := RecipeId(clock.idTime, clock.suffix);
            var image := RunImageStage(withStorage, parsed.recipe, parsed.identifiedIngredients, recipeId, svc);
            GenerateRecipes(withStorage, req, svc, clock).reply == Assemble(withStorage, parsed, image, recipeId, clock)
  {
  }

  /**
   * What a successful request answers, for both deployments: status 200,
   * the identified ingredients, the elapsed time, the id, the parsed
   * recipe's own fields, and a nonzero numeric `calories` whenever the
   * recipe is an object or an array.
   */
  lemma ReadyOutcome(withStorage: bool, req: RecipeRequest, svc: Services, clock: Clock)
    requires Truthy(req.image) && svc.hasApiKey && RequestFor(req).Normal? && Analysed(req, svc).Continue?
    ensures var h := GenerateRecipes(withStorage, req, svc, clock);
            var parsed := Analysed(req, svc).value;
            && h.reply.RecipeReady? && StatusOf(h.reply) == 200
            && h.reply.identifiedIngredients == parsed.identifiedIngredients
            && h.reply.generationTime == clock.end - clock.start
            && Member(h.reply.recipe, "id") == Some(JString(RecipeId(clock.idTime, clock.suffix)))
            && (parsed.recipe.JObject? ==>
                  forall k :: !IsAddedKey(k) ==> Member(h.reply.recipe, k) == Member(parsed.recipe, k))
            && (TakesProperties(parsed.recipe) ==> !NeedsCalorieDefault(Member(h.reply.recipe, "calories")))
  {
    ReadyReplyIsAssembled(withStorage, req, svc, clock);
    var parsed := Analysed(req, svc).value;
    var recipeId := RecipeId(clock.idTime, clock.suffix);
    var image := RunImageStage(withStorage, parsed.recipe, parsed.identifiedIngredients, recipeId, svc);
    if TakesProperties(parsed.recipe) {
      FinalRecipeKeepsCalories(parsed.recipe, image.imageUrl, recipeId,
                               ImageSource(withStorage, image.generated, image.imageUrl));
    }
  }

  /**
   * The image fields of a successful request, for both deployments: with a
   * failed generation the URL is empty and the source `failed`; without the
   * store the DALL·E URL and `dalle`; with it the public URL when storing
   * succeeded and the DALL·E URL otherwise, the source and the success flag
   * following the substring test on that URL.
   */
  lemma ReadyImageFields(withStorage: bool, req: RecipeRequest, svc: Services, clock: Clock)
    requires Truthy(req.image) && svc.hasApiKey && RequestFor(req).Normal? && Analysed(req, svc).Continue?
    ensures var h := GenerateRecipes(withStorage, req, svc, clock);
            var parsed := Analysed(req, svc).value;
            var recipeId := RecipeId(clock.idTime, clock.suffix);
            var g := Generation(parsed.recipe, parsed.identifiedIngredients, svc);
            var url := Member(h.reply.recipe, "imageUrl");
            var source := Member(h.reply.recipe, "imageSource");
            && h.reply.RecipeReady?
            && (!g.result.success ==>
                  url == Some(JString("")) && source == Some(JString("failed")) && !h.reply.imageGenerationSuccess)
            && (g.result.success && !withStorage ==>
                  && url == Some(JString(g.result.imageUrl)) && source == Some(JString("dalle"))
                  && h.reply.imageGenerationSuccess)
            && (g.result.success && withStorage ==>
                  var stored := Storing(recipeId, g, svc).result;
                  var finalUrl := if stored.success then SupabasePublicUrl(recipeId, svc.publicUrl)
                                  else g.result.imageUrl;
                  && url == Some(JString(finalUrl))
                  && source == Some(JString(if Includes(finalUrl, "supabase") then "supabase" else "dalle"))
                  && h.reply.imageGenerationSuccess == Includes(finalUrl, "supabase"))
  {
    ReadyReplyIsAssembled(withStorage, req, svc, clock);
  }

  /**
   * With the store in place and a public URL that names it, the recipe says
   * `supabase` exactly when the copy succeeded, provided the DALL·E URL does
   * not itself contain the word.
   */
  lemma SourceTracksStorage(req: RecipeRequest, svc: Services, clock: Clock)
    requires Truthy(req.image) && svc.hasApiKey && RequestFor(req).Normal? && Analysed(req, svc).Continue?
    requires var parsed := Analysed(req, svc).value;
             var recipeId := RecipeId(clock.idTime, clock.suffix);
             var g := Generation(parsed.recipe, parsed.identifiedIngredients, svc);
             && g.result.success
             && Includes(SupabasePublicUrl(recipeId, svc.publicUrl), "supabase")
             && !Includes(g.result.imageUrl, "supabase")
    ensures var h := GenerateRecipes(true, req, svc, clock);
            var parsed := Analysed(req, svc).value;
            var recipeId := RecipeId(clock.idTime, clock.suffix);
            var stored := Storing(recipeId, Generation(parsed.recipe, parsed.identifiedIngredients, svc), svc);
            && (Member(h.reply.recipe, "imageSource") == Some(JString("supabase")) <==> stored.result.success)
            && (h.reply.imageGenerationSuccess <==> stored.result.success)
  {
    ReadyImageFields(true, req, svc, clock);
  }

  /** Two assemblies of the same analysed recipe differ at most in the image fields. */
  lemma AssembliesAgreeOffImageFields(
    withStorage1: bool, withStorage2: bool, parsed: Parsed, image1: ImageStage, image2: ImageStage, recipeId: string,
    clock: Clock)
    ensures var a := Assemble(withStorage1, parsed, image1, recipeId, clock);
            var b := Assemble(withStorage2, parsed, image2, recipeId, clock);
            && a.identifiedIngredients == b.identifiedIngredients
            && a.generationTime == b.generationTime
            && forall k :: !IsAddedKey(k) ==> Member(a.recipe, k) == Member(b.recipe, k)
  {
  }

  /**
   * The image and store outcomes never decide whether the request succeeds:
   * swapping the image generator, the download, the upload and the public
   * URL leaves the status, the identified ingredients, the timing and every
   * recipe field but the three added ones as they were.
   */
  lemma ImageOutcomesKeepStatus(
    withStorage: bool, req: RecipeRequest, svc: Services, clock: Clock,
    dalle: string -> DalleOutcome, download: string -> DownloadOutcome, upload: UploadRequest -> UploadOutcome,
    publicUrl: string -> string)
    ensures var h := GenerateRecipes(withStorage, req, svc, clock);
            var other := GenerateRecipes(withStorage, req,
                           svc.(dalle := dalle, download := download, upload := upload, publicUrl := publicUrl), clock);
            && StatusOf(h.reply) == StatusOf(other.reply)
            && h.reply.RecipeReady? == other.reply.RecipeReady?
            && (h.reply.RecipeReady? ==>
                  && h.reply.identifiedIngredients == other.reply.identifiedIngredients
                  && h.reply.generationTime == other.reply.generationTime
                  && forall k :: !IsAddedKey(k) ==> Member(h.reply.recipe, k) == Member(other.reply.recipe, k))
  {
    var other := svc.(dalle := dalle, download := download, upload := upload, publicUrl := publicUrl);
    if Truthy(req.image) && svc.hasApiKey && RequestFor(req).Normal? {
      assert Analysed(req, svc) == Analysed(req, other);
      if Analysed(req, svc).Continue? {
        ReadyReplyIsAssembled(withStorage, req, svc, clock);
        ReadyReplyIsAssembled(withStorage, req, other, clock);
        var parsed := Analysed(req, svc).value;
        var recipeId := RecipeId(clock.idTime, clock.suffix);
        AssembliesAgreeOffImageFields(
          withStorage, withStorage, parsed,
          RunImageStage(withStorage, parsed.recipe, parsed.identifiedIngredients, recipeId, svc),
          RunImageStage(withStorage, parsed.recipe, parsed.identifiedIngredients, recipeId, other), recipeId, clock);
      }
    }
  }

  /**
   * The two deployments differ only in the image fields: the status, the
   * identified ingredients, the timing and the recipe's other fields agree,
   * and the calls without the store are a prefix of the calls with it.
   */
  lemma StorageOnlyChangesImageFields(req: RecipeRequest, svc: Services, clock: Clock)
    ensures var withStore := GenerateRecipes(true, req, svc, clock);
            var without := GenerateRecipes(false, req, svc, clock);
            && StatusOf(withStore.reply) == StatusOf(without.reply)
            && (withStore.reply.RecipeFailed? ==> withStore == without)
            && (withStore.reply.RecipeReady? ==>
                  && withStore.reply.identifiedIngredients == without.reply.identifiedIngredients
                  && withStore.reply.generationTime == without.reply.generationTime
                  && forall k :: !IsAddedKey(k) ==> Member(withStore.reply.recipe, k) == Member(without.reply.recipe, k))
            && without.calls <= withStore.calls
  {
    if Truthy(req.image) && svc.hasApiKey && RequestFor(req).Normal? && Analysed(req, svc).Continue? {
      ReadyReplyIsAssembled(true, req, svc, clock);
      ReadyReplyIsAssembled(false, req, svc, clock);
      var parsed := Analysed(req, svc).value;
      var recipeId := RecipeId(clock.idTime, clock.suffix);
      AssembliesAgreeOffImageFields(
        true, false, parsed,
        RunImageStage(true, parsed.recipe, parsed.identifiedIngredients, recipeId, svc),
        RunImageStage(false, parsed.recipe, parsed.identifiedIngredients, recipeId, svc), recipeId, clock);
    }
  }
}
