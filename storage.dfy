/**
 * The image store adapter (`storeImageInSupabase`, `getSupabasePublicUrl`):
 * download the generated image, check it is not empty, upload it under a key
 * derived from the recipe id, overwriting any earlier object, and answer the
 * public URL; any failure falls back to the source URL.
 */
module Storage {
  import opened JsValues
  import opened Replies
  import opened Outbound

  const Bucket := "recipe-images"
  const KeyPrefix := "recipe-"
  const KeySuffix := ".png"

  /** `recipe-${recipeId}.png` */
  function StorageKey(recipeId: string): (key: string)
    ensures |key| == |KeyPrefix| + |recipeId| + |KeySuffix|
    ensures key[..|KeyPrefix|] == KeyPrefix && key[|key| - |KeySuffix|..] == KeySuffix
    ensures key[|KeyPrefix|..|key| - |KeySuffix|] == recipeId
  {
    KeyPrefix + recipeId + KeySuffix
  }

  /** Distinct recipe ids never share a key; equal ids always do. */
  lemma StorageKeyInjective(a: string, b: string)
    ensures StorageKey(a) == StorageKey(b) <==> a == b
  {
    if StorageKey(a) == StorageKey(b) {
      var k := StorageKey(a);
      assert a == k[|KeyPrefix|..|k| - |KeySuffix|] == b;
    }
  }

  /** `getSupabasePublicUrl(recipeId)` */
  function SupabasePublicUrl(recipeId: string, publicUrl: string -> string): string {
    publicUrl(StorageKey(recipeId))
  }

  datatype StoreResult = StoreResult(supabaseUrl: string, success: bool, error: string)

  /** The result together with the outbound calls made to reach it. */
  datatype StoreRun = StoreRun(result: StoreResult, calls: seq<Call>)

  const EmptyImageText := "Le téléchargement de l'image DALL·E a renvoyé un contenu vide (0 octet)."

  function DownloadErrorText(status: int, statusText: string, bodyText: string): string {
    "Échec du téléchargement de l'image depuis DALL·E: " + IntStr(status) + " " + statusText + " - " + bodyText
  }

  /** The upload `storeImageInSupabase` issues for a downloaded image. */
  function UploadFor(recipeId: string, contentType: string, byteLength: nat): UploadRequest {
    UploadRequest(Bucket, StorageKey(recipeId), if contentType == "" then "image/png" else contentType,
                  byteLength, true, "3600")
  }

  predicate UploadsOverwrite(calls: seq<Call>, recipeId: string) {
    forall i :: 0 <= i < |calls| && calls[i].Upload? ==>
      calls[i].request.bucket == Bucket && calls[i].request.key == StorageKey(recipeId) && calls[i].request.upsert
  }

  function StoreImageInSupabase(
    recipeId: string,
    imageUrl: string,
    download: string -> DownloadOutcome,
    upload: UploadRequest -> UploadOutcome,
    publicUrl: string -> string): (run: StoreRun)
    ensures |run.calls| >= 1 && run.calls[0] == Download(imageUrl)
    ensures UploadsOverwrite(run.calls, recipeId)
    ensures run.result.success ==> run.result.supabaseUrl == SupabasePublicUrl(recipeId, publicUrl)
    ensures !run.result.success ==> run.result.supabaseUrl == imageUrl
    ensures run.result.success <==>
              && download(imageUrl).Downloaded?
              && IsOk(download(imageUrl).status)
              && download(imageUrl).byteLength > 0
              && upload(UploadFor(recipeId, download(imageUrl).contentType, download(imageUrl).byteLength)).Uploaded?
  {
    var fail := (message: string, calls: seq<Call>) => StoreRun(StoreResult(imageUrl, false, message), calls);
    match download(imageUrl)
    case DownloadThrew(message) => fail(message, [Download(imageUrl)])
    case Downloaded(status, statusText, contentType, bodyText, byteLength) =>
      if !IsOk(status) then fail(DownloadErrorText(status, statusText, bodyText), [Download(imageUrl)])
      else if byteLength == 0 then fail(EmptyImageText, [Download(imageUrl)])
      else
        var request := UploadFor(recipeId, contentType, byteLength);
        var calls := [Download(imageUrl), Upload(request)];
        match upload(request)
        case UploadRejected(message) => fail(message, calls)
        case Uploaded => StoreRun(StoreResult(publicUrl(request.key), true, ""), calls)
  }
}
