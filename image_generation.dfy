/**
 * `generateImageWithDalle`: build the photography prompt, call the image
 * generator, and fold every failure into `{ imageUrl: '', success: false, error }`.
 */
module ImageGeneration {
  import opened JsValues
  import opened Replies
  import opened Prompts
  import opened Outbound

  datatype ImageResult = ImageResult(imageUrl: string, success: bool, error: string)

  /** The result together with the outbound calls made to reach it. */
  datatype ImageRun = ImageRun(result: ImageResult, calls: seq<Call>)

  const NoImageText := "Aucune image générée par DALL·E"

  function DalleErrorText(status: int): string {
    "DALL·E API error: " + IntStr(status)
  }

  function GenerateImageWithDalle(title: Slot, description: Slot, ingredients: Slot, dalle: string -> DalleOutcome)
    : (run: ImageRun)
    ensures ImagePrompt(title, description, ingredients).Throw? ==>
              run == ImageRun(ImageResult("", false, ImagePrompt(title, description, ingredients).message), [])
    ensures ImagePrompt(title, description, ingredients).Normal? ==>
              run.calls == [ImageGeneration(ImagePrompt(title, description, ingredients).value)]
    ensures run.result.success <==>
              && ImagePrompt(title, description, ingredients).Normal?
              && dalle(ImagePrompt(title, description, ingredients).value).DalleAnswered?
              && dalle(ImagePrompt(title, description, ingredients).value).url != ""
    ensures run.result.success ==>
              run.result.imageUrl == dalle(ImagePrompt(title, description, ingredients).value).url
    ensures !run.result.success ==> run.result.imageUrl == ""
    ensures ImagePrompt(title, description, ingredients).Normal? ==>
              var outcome := dalle(ImagePrompt(title, description, ingredients).value);
              && (outcome == DalleAnswered("") ==> run.result.error == NoImageText)
              && (outcome.DalleRejected? ==> run.result.error == DalleErrorText(outcome.status))
              && (outcome.DalleThrew? ==> run.result.error == outcome.message)
  {
    match ImagePrompt(title, description, ingredients)
    case Throw(message) => ImageRun(ImageResult("", false, message), [])
    case Normal(prompt) =>
      var result :=
        match dalle(prompt)
        case DalleAnswered(url) =>
          if url == "" then ImageResult("", false, NoImageText) else ImageResult(url, true, "")
        case DalleRejected(status) => ImageResult("", false, DalleErrorText(status))
        case DalleThrew(message) => ImageResult("", false, message);
      ImageRun(result, [ImageGeneration(prompt)])
  }
}
