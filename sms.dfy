/**
 * The verification-SMS endpoint: both fields required, then the SMS client
 * required, then one message sent; a send failure is mapped from the
 * provider's error code to a user message.
 */
module Sms {
  import opened JsValues

  /** The fields of `req.body` the endpoint reads. */
  datatype SmsRequest = SmsRequest(phoneNumber: Slot, verificationCode: Slot)

  /** The `body` and `to` of `messages.create`; the sender is the configured number. */
  datatype SmsMessage = SmsMessage(body: string, to: JsValue)

  /** What `messages.create` did: the created message's `sid`, or the thrown error's `code` and `message`. */
  datatype SendOutcome = Sent(sid: Slot) | SendFailed(code: Slot, message: Slot)

  datatype SmsReply =
    | SmsSent(messageSid: Slot)
    | SmsFailed(status: int, error: JsValue)

  /** The reply together with the messages sent to reach it. */
  datatype SmsHandled = SmsHandled(reply: SmsReply, sent: seq<SmsMessage>)

  const MissingFieldsText := "Numéro de téléphone et code de vérification requis"
  const SmsServiceDown := "Service SMS temporairement indisponible"
  const InvalidNumberText := "Numéro de téléphone invalide"
  const InvalidForCountryText := "Numéro de téléphone non valide pour ce pays"
  const SendFailedText := "Erreur lors de l'envoi du SMS"
  const InvalidNumberCode := 21211
  const InvalidForCountryCode := 21614

  const CodeLead := "Votre code de vérification NutriScan est : "
  const CodeTail := ". Ce code expire dans 10 minutes."

  /**
   * The message text, with the code as a template literal prints it, or the
   * TypeError of a code that cannot be printed.
   */
  function VerificationText(code: Slot): (r: Completion<string>)
    ensures r.Throw? <==> !Printable(code)
    ensures r.Throw? ==> r.message == ToPrimitiveError
    ensures r.Normal? ==>
            var body := r.value;
            && |body| == |CodeLead| + |Str(code)| + |CodeTail|
            && body[..|CodeLead|] == CodeLead
            && body[|CodeLead|..|CodeLead| + |Str(code)|] == Str(code)
            && body[|CodeLead| + |Str(code)|..] == CodeTail
  {
    var shown := ToStr(code);
    if shown.Throw? then Throw(shown.message) else Normal(CodeLead + shown.value + CodeTail)
  }

  /**
   * The user message for a failed send: the two known provider codes first
   * (compared strictly, so only the numbers match), then the error's own
   * message when it is truthy, then the fixed text. It is never falsy.
   */
  function SmsErrorMessage(code: Slot, message: Slot): (m: JsValue)
    ensures code == Some(JNumber(InvalidNumberCode)) ==> m == JString(InvalidNumberText)
    ensures code == Some(JNumber(InvalidForCountryCode)) ==> m == JString(InvalidForCountryText)
    ensures code != Some(JNumber(InvalidNumberCode)) && code != Some(JNumber(InvalidForCountryCode)) ==>
              m == if Truthy(message) then message.value else JString(SendFailedText)
    ensures Truthy(Some(m))
  {
    if code == Some(JNumber(InvalidNumberCode)) then JString(InvalidNumberText)
    else if code == Some(JNumber(InvalidForCountryCode)) then JString(InvalidForCountryText)
    else if Truthy(message) then message.value
    else JString(SendFailedText)
  }

  function SendVerificationSms(req: SmsRequest, hasClient: bool, send: SmsMessage -> SendOutcome): SmsHandled {
    if !Truthy(req.phoneNumber) || !Truthy(req.verificationCode) then
      SmsHandled(SmsFailed(400, JString(MissingFieldsText)), [])
    else if !hasClient then
      SmsHandled(SmsFailed(503, JString(SmsServiceDown)), [])
    else if !Printable(req.phoneNumber) || VerificationText(req.verificationCode).Throw? then
      // the log line or the message body throws before the send, into the catch block
      SmsHandled(SmsFailed(500, SmsErrorMessage(None, Some(JString(ToPrimitiveError)))), [])
    else
      var message := SmsMessage(VerificationText(req.verificationCode).value, req.phoneNumber.value);
      match send(message)
      case Sent(sid) => SmsHandled(SmsSent(sid), [message])
      case SendFailed(code, text) => SmsHandled(SmsFailed(500, SmsErrorMessage(code, text)), [message])
  }

  /**
   * Nothing is sent unless both fields are there, the client is configured
   * and both fields can be printed; a missing field is answered with 400
   * even when the client is not configured, and 503 comes next when the
   * client is missing; a field that cannot be printed gives a 500 with the
   * conversion error; when a message is sent it is exactly one, to the given
   * number, carrying the code, and a successful send answers with the
   * provider's message id.
   */
  lemma SmsSentOnlyWhenComplete(req: SmsRequest, hasClient: bool, send: SmsMessage -> SendOutcome)
    ensures var h := SendVerificationSms(req, hasClient, send);
            && (h.sent != [] <==>
                  && Truthy(req.phoneNumber) && Truthy(req.verificationCode) && hasClient
                  && Printable(req.phoneNumber) && Printable(req.verificationCode))
            && (Truthy(req.phoneNumber) && Truthy(req.verificationCode) && hasClient
                && (!Printable(req.phoneNumber) || !Printable(req.verificationCode)) ==>
                  h == SmsHandled(SmsFailed(500, JString(ToPrimitiveError)), []))
            && (!Truthy(req.phoneNumber) || !Truthy(req.verificationCode) ==>
                  h.reply == SmsFailed(400, JString(MissingFieldsText)))
            && (Truthy(req.phoneNumber) && Truthy(req.verificationCode) && !hasClient ==>
                  h.reply == SmsFailed(503, JString(SmsServiceDown)))
            && (h.sent != [] && send(h.sent[0]).Sent? ==> h.reply == SmsSent(send(h.sent[0]).sid))
            && (h.sent != [] ==>
                  && |h.sent| == 1
                  && Some(h.sent[0].to) == req.phoneNumber
                  && h.sent[0].body[|CodeLead|..|CodeLead| + |Str(req.verificationCode)|] == Str(req.verificationCode))
  {
  }

  /** A failed send is a 500 whose error is never falsy, and a known provider code wins over the error's text. */
  lemma SendFailureMapping(req: SmsRequest, send: SmsMessage -> SendOutcome, code: Slot, message: Slot)
    requires Truthy(req.phoneNumber) && Truthy(req.verificationCode)
    requires Printable(req.phoneNumber) && Printable(req.verificationCode)
    requires send(SmsMessage(VerificationText(req.verificationCode).value, req.phoneNumber.value)) == SendFailed(code, message)
    ensures var h := SendVerificationSms(req, true, send);
            && h.reply.SmsFailed? && h.reply.status == 500 && Truthy(Some(h.reply.error))
            && (code == Some(JNumber(InvalidNumberCode)) ==> h.reply.error == JString(InvalidNumberText))
            && (code == Some(JNumber(InvalidForCountryCode)) ==> h.reply.error == JString(InvalidForCountryText))
  {
  }
}
