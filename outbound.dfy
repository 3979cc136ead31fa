/**
 * The relay's collaborators, each seen only through the outcome of a call:
 * the chat-completion endpoint, the DALL·E endpoint, the download of the
 * generated image, the storage upload and public-URL lookup, and JSON.parse.
 * `Call` records the outbound calls a request made, in order.
 */
module Outbound {
  import opened JsValues
  import opened Prompts

  /** What the chat-completion call produced. */
  datatype ChatOutcome =
    | ChatNetworkError                             // fetch rejected
    | ChatAnswered(status: int, bodyText: string)  // a response with this status and body

  /** What the DALL·E call produced. */
  datatype DalleOutcome =
    | DalleAnswered(url: string)     // 2xx; `data.data[0].url`, "" when it is absent
    | DalleRejected(status: int)     // non-2xx whose error body is JSON
    | DalleThrew(message: string)    // network failure or unreadable body

  /** What fetching the generated image produced. */
  datatype DownloadOutcome =
    | DownloadThrew(message: string)
    | Downloaded(status: int, statusText: string, contentType: string, bodyText: string, byteLength: nat)
      // contentType "" when the header is absent; bodyText is read on non-2xx, byteLength on 2xx

  /** The arguments of `supabase.storage.from(bucket).upload(key, bytes, options)`. */
  datatype UploadRequest = UploadRequest(
    bucket: string,
    key: string,
    contentType: string,
    byteLength: nat,
    upsert: bool,
    cacheControl: string)

  datatype UploadOutcome = Uploaded | UploadRejected(message: string)

  /** An outbound call a request made. */
  datatype Call =
    | ChatCall(completion: CompletionRequest)
    | ImageGeneration(prompt: string)
    | Download(url: string)
    | Upload(request: UploadRequest)

  /** The process-wide handles: the API key's presence and the collaborators. */
  datatype Services = Services(
    hasApiKey: bool,
    parse: string -> Option<JsValue>,
    chat: CompletionRequest -> ChatOutcome,
    dalle: string -> DalleOutcome,
    download: string -> DownloadOutcome,
    upload: UploadRequest -> UploadOutcome,
    publicUrl: string -> string)
}
