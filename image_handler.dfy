/**
 * `handleGenerateImage`, for both deployments: with the image store
 * (server.cjs) a recipe id is required as well and the generated image is
 * copied to storage under that id; without it (server.js) the DALL·E URL is
 * answered as is.
 */
module ImageHandler {
  import opened JsValues
  import opened Replies
  import opened Outbound
  import opened ImageGeneration
  import opened Storage

  /** The fields of `req.body` the handler reads; `style` and `size` are passed on but never used. */
  datatype ImageRequest = ImageRequest(recipeTitle: Slot, description: Slot, ingredients: Slot, recipeId: Slot)

  datatype ImageReply =
    | ImageFailed(status: int, error: string)
    | ImageReady(imageUrl: string, storedInSupabase: Option<bool>)  // None: the field is absent

  /** The reply together with the outbound calls made to reach it. */
  datatype ImageHandled = ImageHandled(reply: ImageReply, calls: seq<Call>)

  const ImageServiceDown := "Service de préparation d'images indisponible"
  const GenerationFailedText := "Échec de la préparation d'image"

  function MissingFieldsText(withStorage: bool): string {
    if withStorage then "Titre de recette et ID requis" else "Titre de recette requis"
  }

  /** The id check exists only where the image is stored under it. */
  predicate RequestComplete(withStorage: bool, req: ImageRequest) {
    Truthy(req.recipeTitle) && (!withStorage || Truthy(req.recipeId))
  }

  /**
   * The storage key is built from the id as a template literal prints it;
   * an id that cannot be printed throws, outside the store's own `try`.
   */
  function StoredId(req: ImageRequest): (r: Completion<string>)
    ensures r.Normal? <==> Printable(req.recipeId)
    ensures r.Normal? ==> r.value == Str(req.recipeId)
  {
    ToStr(req.recipeId)
  }

  function GenerateImage(withStorage: bool, req: ImageRequest, svc: Services): ImageHandled {
    if !RequestComplete(withStorage, req) then
      ImageHandled(ImageFailed(400, MissingFieldsText(withStorage)), [])
    else if !svc.hasApiKey then
      ImageHandled(ImageFailed(503, ImageServiceDown), [])
    else
      var generated := GenerateImageWithDalle(req.recipeTitle, req.description, req.ingredients, svc.dalle);
      if !generated.result.success then
        var error := if generated.result.error == "" then GenerationFailedText else generated.result.error;
        ImageHandled(ImageFailed(500, error), generated.calls)
      else if !withStorage then
        ImageHandled(ImageReady(generated.result.imageUrl, None), generated.calls)
      else
        match StoredId(req)
        case Throw(_) => ImageHandled(ImageFailed(500, InternalError.error), generated.calls)
        case Normal(id) =>
          var stored := StoreImageInSupabase(id, generated.result.imageUrl, svc.download, svc.upload, svc.publicUrl);
          var finalImageUrl := if stored.result.success then stored.result.supabaseUrl else generated.result.imageUrl;
          ImageHandled(ImageReady(finalImageUrl, Some(stored.result.success)), generated.calls + stored.calls)
  }

  /**
   * 400 comes first and exactly when the title (or, with the store, the id)
   * is missing; it is answered before the key check and makes no call. A
   * complete request without the API key gets 503, again with no call.
   */
  lemma ImageRequestValidation(withStorage: bool, req: ImageRequest, svc: Services)
    ensures var h := GenerateImage(withStorage, req, svc);
            && (h.reply.ImageFailed? && h.reply.status == 400 <==> !RequestComplete(withStorage, req))
            && (!RequestComplete(withStorage, req) ==> h.calls == [])
            && (!Truthy(req.recipeTitle) ==> h.reply == ImageFailed(400, MissingFieldsText(withStorage)))
            && (RequestComplete(withStorage, req) && !svc.hasApiKey ==> h == ImageHandled(ImageFailed(503, ImageServiceDown), []))
  {
  }

  /**
   * Past validation and the key check, the reply is a success exactly when
   * the generator succeeded and, with the store, the id can be printed; a
   * generator failure is a 500 carrying the generator's error, or the fixed
   * text when that is empty; an unprintable id after a successful generation
   * is the catch-all's 500, with no download or upload; a success reports
   * whether the copy was stored and falls back to the DALL·E URL when it was
   * not.
   */
  lemma ImageReplyFollowsGenerator(withStorage: bool, req: ImageRequest, svc: Services)
    requires RequestComplete(withStorage, req) && svc.hasApiKey
    ensures var h := GenerateImage(withStorage, req, svc);
            var run := GenerateImageWithDalle(req.recipeTitle, req.description, req.ingredients, svc.dalle);
            var g := run.result;
            && (h.reply.ImageReady? <==> g.success && (!withStorage || Printable(req.recipeId)))
            && (h.reply.ImageFailed? ==> h.reply.status == 500 && h.reply.error != "")
            && (!g.success ==>
                  h.reply == ImageFailed(500, if g.error == "" then GenerationFailedText else g.error))
            && (g.success && withStorage && !Printable(req.recipeId) ==>
                  h == ImageHandled(ImageFailed(500, InternalError.error), run.calls))
            && (h.reply.ImageReady? && !withStorage ==> h.reply == ImageReady(g.imageUrl, None))
            && (h.reply.ImageReady? && withStorage ==>
                  var id := Str(req.recipeId);
                  var stored := StoreImageInSupabase(id, g.imageUrl, svc.download, svc.upload, svc.publicUrl);
                  && h.reply.storedInSupabase == Some(stored.result.success)
                  && h.reply.imageUrl == if stored.result.success then SupabasePublicUrl(id, svc.publicUrl)
                                         else g.imageUrl)
  {
  }

  /**
   * Every upload the endpoint makes overwrites the object named after the
   * request's recipe id, so asking twice for the same id rewrites one object
   * and different ids never touch each other's.
   */
  lemma UploadsAreKeyedByRecipe(req1: ImageRequest, req2: ImageRequest, svc1: Services, svc2: Services)
    ensures var calls1 := GenerateImage(true, req1, svc1).calls;
            var calls2 := GenerateImage(true, req2, svc2).calls;
            forall i, j :: 0 <= i < |calls1| && 0 <= j < |calls2| && calls1[i].Upload? && calls2[j].Upload? ==>
              && calls1[i].request.upsert && calls2[j].request.upsert
              && (calls1[i].request.key == calls2[j].request.key <==> Str(req1.recipeId) == Str(req2.recipeId))
  {
    var calls1 := GenerateImage(true, req1, svc1).calls;
    var calls2 := GenerateImage(true, req2, svc2).calls;
    assert UploadsOverwrite(calls1, Str(req1.recipeId));
    assert UploadsOverwrite(calls2, Str(req2.recipeId));
    StorageKeyInjective(Str(req1.recipeId), Str(req2.recipeId));
  }
}
