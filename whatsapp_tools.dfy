/**
 * The WhatsApp tool of whatsapp/whatsappTools.js: `handleWhatsAppCall`
 * answers the model's `send_whatsapp_message` call by sending the message to
 * the client's phone.
 *
 * The Twilio sender (`sendWhatsAppMessage`) is not part of this model: its
 * outcome for a phone and a message is a parameter.
 */
module WhatsAppTools {
  import opened Optional
  import opened JsString

  const ToolName: string := "send_whatsapp_message"
  const UnknownPhoneError: string := "Номер телефона клиента неизвестен."
  const SentPrefix: string := "Сообщение успешно отправлено на номер "
  const FailedPrefix: string := "Ошибка отправки: "
  const WhatsAppPrefix: string := "whatsapp:"

  /** One call of the sender: the cleaned phone and the `message` parameter (absent when the model gave none). */
  datatype Send = Send(phone: string, message: Option<string>)

  /** The sender's resolved value: its `success` flag and, on failure, its `error`. */
  datatype SendOutcome = SendOutcome(success: bool, error: Option<string>)

  /** The tool's result object: `{success: false, error}` before sending, or `{success, message}` after. */
  datatype ToolReply = NotSent(error: string) | Sent(success: bool, message: string)

  /** The phone is usable iff it is truthy and not the placeholder `unknown`. */
  predicate KnownPhone(clientPhone: Option<string>) {
    Truthy(clientPhone) && clientPhone.value != "unknown"
  }

  /**
   * The send the tool performs, if any: none for another tool or an unusable
   * phone; otherwise the message goes to the phone without its first
   * `whatsapp:`.
   */
  function SendFor(toolName: string, message: Option<string>, clientPhone: Option<string>): (s: Option<Send>)
    ensures s.Some? <==> toolName == ToolName && KnownPhone(clientPhone)
    ensures s.Some? ==> s.value.message == message
    ensures s.Some? ==> forall p :: clientPhone.value == WhatsAppPrefix + p ==> s.value.phone == p
    ensures s.Some? && !Includes(clientPhone.value, WhatsAppPrefix) ==> s.value.phone == clientPhone.value
  {
    if toolName == ToolName && KnownPhone(clientPhone) then
      forall p | clientPhone.value == WhatsAppPrefix + p ensures ReplaceFirst(clientPhone.value, WhatsAppPrefix, "") == p {
        ReplaceFirstPrefix(WhatsAppPrefix, p, "");
      }
      Some(Send(ReplaceFirst(clientPhone.value, WhatsAppPrefix, ""), message))
    else None
  }

  /**
   * `handleWhatsAppCall(toolName, {message}, clientPhone)`: null for any
   * other tool; a failure naming the unknown phone when the phone is
   * unusable; otherwise the sender's success, with a message naming the
   * phone on success and the sender's error on failure.
   */
  function HandleWhatsAppCall(toolName: string, message: Option<string>, clientPhone: Option<string>,
                              sender: Send -> SendOutcome): (r: Option<ToolReply>)
    ensures r.None? <==> toolName != ToolName
    ensures toolName == ToolName && !KnownPhone(clientPhone) ==> r == Some(NotSent(UnknownPhoneError))
    ensures SendFor(toolName, message, clientPhone).Some? ==>
      var send := SendFor(toolName, message, clientPhone).value;
      && r.Some? && r.value.Sent?
      && r.value.success == sender(send).success
      && (sender(send).success ==> r.value.message == SentPrefix + send.phone + ".")
      && (!sender(send).success ==> r.value.message == FailedPrefix + Interp(sender(send).error))
  {
    if toolName != ToolName then None
    else if !KnownPhone(clientPhone) then Some(NotSent(UnknownPhoneError))
    else
      var send := SendFor(toolName, message, clientPhone).value;
      var outcome := sender(send);
      Some(Sent(outcome.success,
                if outcome.success then SentPrefix + send.phone + "." else FailedPrefix + Interp(outcome.error)))
  }

  /** Without a usable phone the sender is never consulted: any two senders give the same reply. */
  lemma UnknownPhoneNeverSends(message: Option<string>, clientPhone: Option<string>,
                               s1: Send -> SendOutcome, s2: Send -> SendOutcome)
    requires !KnownPhone(clientPhone)
    ensures HandleWhatsAppCall(ToolName, message, clientPhone, s1) == HandleWhatsAppCall(ToolName, message, clientPhone, s2)
    ensures HandleWhatsAppCall(ToolName, message, clientPhone, s1).value.NotSent?
  {
  }

  /**
   * A Twilio WhatsApp address `whatsapp:+972…` is sent to as `+972…`, and a
   * successful reply names that number.
   */
  lemma WhatsAppAddressSentBare(message: Option<string>, number: string, sender: Send -> SendOutcome)
    requires sender(Send(number, message)).success
    ensures var r := HandleWhatsAppCall(ToolName, message, Some(WhatsAppPrefix + number), sender);
      r == Some(Sent(true, SentPrefix + number + "."))
  {
    assert KnownPhone(Some(WhatsAppPrefix + number)) by {
      assert (WhatsAppPrefix + number)[0] == 'w';
    }
    assert SendFor(ToolName, message, Some(WhatsAppPrefix + number)) == Some(Send(number, message));
  }
}
