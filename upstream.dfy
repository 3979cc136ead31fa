/**
 * What the recipe handler makes of the chat-completion response: the mapping
 * of a non-2xx answer to a user message, the reading of a 2xx body, and the
 * lookup of `data.choices[0]?.message?.content`.
 *
 * A response body can be consumed once: after `response.json()` has read it,
 * `response.text()` rejects (Fetch standard, "body is unusable"). The source's
 * fallbacks call `text()` after a failed `json()`; the `AsWritten` functions
 * model that, the others what the fallbacks evidently meant.
 */
module Upstream {
  import opened JsValues
  import opened Replies
  import EmbeddedJson

  const UnavailableText := "Service temporairement indisponible. Veuillez réessayer."
  const OverloadedText := "Service surchargé. Veuillez réessayer dans quelques minutes."

  function ServiceErrorText(status: int, detail: string): string {
    "Erreur service (" + IntStr(status) + "): " + detail
  }

  /**
   * `errorData.error.message || errorData.error`, interpolated; the
   * interpolation throws when the chosen value cannot be printed.
   */
  function ProviderMessage(error: JsValue): Completion<string> {
    var inner := Member(error, "message");
    ToStr(if Truthy(inner) then inner else Some(error))
  }

  /**
   * `errorDetails` for a parsed, non-null error body, or the TypeError of an
   * unprintable provider message: the message is interpolated before the
   * status is looked at, so the TypeError comes for every status.
   */
  function ErrorDetails(status: int, errorData: JsValue): (r: Completion<string>)
    ensures !Truthy(Member(errorData, "error")) ==> r == Normal("")
    ensures r.Throw? <==> Truthy(Member(errorData, "error")) && ProviderMessage(Member(errorData, "error").value).Throw?
  {
    var error := Member(errorData, "error");
    if !Truthy(error) then Normal("")
    else
      var message := ProviderMessage(error.value);
      if message.Throw? then Throw(message.message)
      else if status == 401 then Normal(UnavailableText)
      else if status == 429 then Normal(OverloadedText)
      else if status == 400 then Normal("Erreur de traitement: " + message.value)
      else Normal(ServiceErrorText(status, message.value))
  }

  /**
   * For 401 and 429 the provider's own text is hidden behind a fixed message;
   * 400 prefixes it with the processing-error lead, every other status with
   * the status; in both cases it is the tail of the message. A provider
   * message that cannot be printed fails whatever the status.
   */
  lemma {:induction false} ProviderTextShownUnlessAuthOrRate(status: int, errorData: JsValue)
    requires Truthy(Member(errorData, "error"))
    ensures var shown := ProviderMessage(Member(errorData, "error").value);
            && (ErrorDetails(status, errorData).Normal? <==> shown.Normal?)
            && (shown.Throw? ==> ErrorDetails(status, errorData) == Throw(ToPrimitiveError))
    ensures ProviderMessage(Member(errorData, "error").value).Normal? ==>
            var m := ErrorDetails(status, errorData).value;
            var text := ProviderMessage(Member(errorData, "error").value).value;
            && (status == 401 ==> m == UnavailableText)
            && (status == 429 ==> m == OverloadedText)
            && (status == 400 ==> m == "Erreur de traitement: " + text)
            && (status != 400 && status != 401 && status != 429 ==> m == ServiceErrorText(status, text))
            && (status != 401 && status != 429 ==>
                  |text| <= |m| && m[|m| - |text|..] == text && |m| > |text|)
  {
  }

  /**
   * Lines 310-335 as written: an unreadable or null error body, or a provider
   * message that cannot be printed, ends in the catch-all.
   */
  function UpstreamFailureAsWritten(status: int, bodyText: string, parse: EmbeddedJson.Parser): (r: ErrorReply)
    ensures parse(bodyText).Some? && parse(bodyText).value != JNull
            && ErrorDetails(status, parse(bodyText).value).Normal? ==>
              r == ErrorReply(status, ErrorDetails(status, parse(bodyText).value).value)
    ensures (|| parse(bodyText).None? || parse(bodyText) == Some(JNull)
             || ErrorDetails(status, parse(bodyText).value).Throw?) ==> r == InternalError
  {
    match parse(bodyText)
    case None => InternalError
    case Some(errorData) =>
      if errorData == JNull then InternalError
      else
        var details := ErrorDetails(status, errorData);
        if details.Throw? then InternalError else ErrorReply(status, details.value)
  }

  /**
   * An error body JSON.parse rejects, or whose provider message cannot be
   * printed, loses the upstream status (it becomes 500).
   */
  lemma UnreadableErrorBodyLosesStatus(status: int, bodyText: string, parse: EmbeddedJson.Parser)
    requires status != 500
    requires || parse(bodyText).None?
             || (parse(bodyText).Some? && Truthy(Member(parse(bodyText).value, "error"))
                 && !Printable(Member(Member(parse(bodyText).value, "error").value, "message")))
    ensures UpstreamFailureAsWritten(status, bodyText, parse).status != status
  {
    if parse(bodyText).Some? {
      var error := Member(parse(bodyText).value, "error").value;
      assert Truthy(Member(error, "message"));
      assert ProviderMessage(error).Throw?;
    }
  }

  /**
   * Lines 310-335 as intended: the upstream status is passed through; the
   * message comes from the parsed body, or is the raw text when the body does
   * not parse to an object or its provider message cannot be printed.
   */
  function UpstreamFailure(status: int, bodyText: string, parse: EmbeddedJson.Parser): (r: ErrorReply)
    ensures r.status == status
    ensures parse(bodyText).Some? && parse(bodyText).value != JNull
            && ErrorDetails(status, parse(bodyText).value).Normal? ==>
              r == UpstreamFailureAsWritten(status, bodyText, parse)
    ensures (|| parse(bodyText).None? || parse(bodyText) == Some(JNull)
             || ErrorDetails(status, parse(bodyText).value).Throw?) ==>
              r.error == ServiceErrorText(status, bodyText)
  {
    match parse(bodyText)
    case Some(errorData) =>
      var details := ErrorDetails(status, errorData);
      if errorData == JNull || details.Throw? then ErrorReply(status, ServiceErrorText(status, bodyText))
      else ErrorReply(status, details.value)
    case None => ErrorReply(status, ServiceErrorText(status, bodyText))
  }

  /** Lines 337-345 as written: a 2xx body that is not JSON ends in the catch-all. */
  function ReadReplyAsWritten(bodyText: string, parse: EmbeddedJson.Parser): (r: Step<JsValue>)
    ensures r.Stop? <==> parse(bodyText).None?
    ensures r.Stop? ==> r.reply == InternalError
    ensures r.Continue? ==> Some(r.value) == parse(bodyText)
  {
    match parse(bodyText)
    case None => Stop(InternalError)
    case Some(data) => Continue(data)
  }

  /** The answer a 2xx body that is not JSON gets differs from the one the handler spells out. */
  lemma UnreadableReplyMissesItsMessage(bodyText: string, parse: EmbeddedJson.Parser)
    requires parse(bodyText).None?
    ensures ReadReplyAsWritten(bodyText, parse) == Stop(InternalError)
    ensures ReadReplyAsWritten(bodyText, parse) != ReadReply(bodyText, parse)
  {
  }

  /** Lines 337-345 as intended: a 2xx body that is not JSON gives the processing error. */
  function ReadReply(bodyText: string, parse: EmbeddedJson.Parser): (r: Step<JsValue>)
    ensures r.Stop? <==> parse(bodyText).None?
    ensures r.Stop? ==> r.reply == UnreadableReply
    ensures r.Continue? ==> Some(r.value) == parse(bodyText)
  {
    match parse(bodyText)
    case None => Stop(UnreadableReply)
    case Some(data) => Continue(data)
  }

  /** `v[0]` on a non-null value. */
  function ElementZero(v: JsValue): Slot {
    match v
    case JArray(items, _) => if items == [] then None else Some(items[0])
    case JString(s) => if s == [] then None else Some(JString([s[0]]))
    case _ => Member(v, "0")
  }

  /** `data.choices[0]?.message?.content` once `data` and `data.choices` are known not to be nullish. */
  function ContentOf(choices: JsValue): Slot {
    OptGet(OptGet(ElementZero(choices), "message"), "content")
  }

  /**
   * `const content = data.choices[0]?.message?.content`, then `if (!content)`:
   * a null `data` or a nullish `choices` throws outside any local `try`, so
   * the catch-all answers; a falsy content is "no recipe"; a truthy content of
   * any type is carried on (whether it is a string is decided by the parse
   * step, where `content.match` sits inside its own `try`).
   */
  function ReplyContent(data: JsValue): (r: Step<JsValue>)
    ensures r.Continue? <==>
              && data != JNull && !Nullish(Member(data, "choices"))
              && Truthy(ContentOf(Member(data, "choices").value))
    ensures r.Continue? ==> Some(r.value) == ContentOf(Member(data, "choices").value)
    ensures r == Stop(InternalError) <==> data == JNull || Nullish(Member(data, "choices"))
    ensures r.Stop? ==> r.reply == NoRecipe || r.reply == InternalError
  {
    if data == JNull then Stop(InternalError)
    else
      var choices := Member(data, "choices");
      if Nullish(choices) then Stop(InternalError)
      else
        var content := ContentOf(choices.value);
        if !Truthy(content) then Stop(NoRecipe)
        else Continue(content.value)
  }
}
