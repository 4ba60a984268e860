/**
 * The text-messaging routes of handlers/messaging_handler.js: `/whatsapp` and
 * `/sms` turn a Twilio webhook request into one call of the conversation
 * engine and a TwiML messaging response; the two status routes only
 * acknowledge.
 *
 * The conversation engine is not part of this model: what it answers for a
 * call (a reply, possibly without text, or a failure) is a parameter.
 */
module MessagingHandler {
  import opened Optional
  import opened JsString

  /** The fields `Body` and `From` of the webhook request; either may be absent. */
  datatype Request = Request(body: Option<string>, from: Option<string>)

  /** The arguments of `conversationEngine.processMessage(message, sessionId, channel, userPhone)`. */
  datatype EngineCall = EngineCall(message: string, sessionId: string, channel: string, userPhone: Option<string>)

  /** What the engine's promise settled to: a result whose `text` may be missing, or a rejection. */
  datatype EngineReply = Replied(text: Option<string>) | Rejected

  /** The body the route sends. */
  datatype Payload =
    | EmptyResponse                     // the literal `<Response></Response>`
    | Messaging(messages: seq<string>)  // a `MessagingResponse`, one `<Message>` per entry
    | StatusText(text: string)          // `sendStatus`: the status code's name as plain text

  /**
   * What reaches Twilio: the status code, whether the type was set to
   * `text/xml`, and the body; `Unanswered` when the handler throws outside
   * its `try` and nothing is sent.
   */
  datatype Response = Response(status: int, xml: bool, payload: Payload) | Unanswered

  const WhatsAppPrefix: string := "whatsapp:"

  /** The engine call of `/whatsapp`: the session is `From` itself, the phone is `From` without its first `whatsapp:`. */
  function WhatsAppCall(message: string, from: string): (c: EngineCall)
    ensures c.sessionId == from && c.channel == "whatsapp" && c.message == message
    ensures c.userPhone.Some?
    ensures forall p :: from == WhatsAppPrefix + p ==> c.userPhone == Some(p)
    ensures !Includes(from, WhatsAppPrefix) ==> c.userPhone == Some(from)
  {
    forall p | from == WhatsAppPrefix + p ensures ReplaceFirst(from, WhatsAppPrefix, "") == p {
      ReplaceFirstPrefix(WhatsAppPrefix, p, "");
    }
    EngineCall(message, from, "whatsapp", Some(ReplaceFirst(from, WhatsAppPrefix, "")))
  }

  /** The engine call of `/sms`: the session is `From` behind `sms:`, the phone is `From` as it came (possibly absent). */
  function SmsCall(message: string, from: Option<string>): (c: EngineCall)
    ensures c.sessionId == "sms:" + Interp(from) && c.channel == "sms" && c.message == message
    ensures c.userPhone == from
  {
    EngineCall(message, "sms:" + Interp(from), "sms", from)
  }

  /**
   * The TwiML built from the engine's answer: one message holding the text
   * when it is truthy, none otherwise, and none when the engine failed.
   */
  function Reply(answer: EngineReply): (r: Response)
    ensures r.Response? && r.status == 200 && r.xml && r.payload.Messaging?
    ensures |r.payload.messages| <= 1
    ensures |r.payload.messages| == 1 <==> answer.Replied? && Truthy(answer.text)
    ensures |r.payload.messages| == 1 ==> r.payload.messages[0] == answer.text.value
  {
    match answer
    case Replied(text) => Response(200, true, Messaging(if Truthy(text) then [text.value] else []))
    case Rejected => Response(200, true, Messaging([]))
  }

  /**
   * `POST /whatsapp`. A falsy `Body` is answered with the empty literal
   * response as XML and the engine is not called; otherwise the engine
   * answers the call built from `From`. Without `From` the phone cannot be
   * derived and the handler throws before its `try`.
   */
  function WhatsAppRoute(req: Request, engine: EngineCall -> EngineReply): (r: Response)
    ensures !Truthy(req.body) ==> r == Response(200, true, EmptyResponse)
    ensures Truthy(req.body) && req.from.None? ==> r.Unanswered?
    ensures Truthy(req.body) && req.from.Some? ==> r == Reply(engine(WhatsAppCall(req.body.value, req.from.value)))
  {
    if !Truthy(req.body) then Response(200, true, EmptyResponse)
    else if req.from.None? then Unanswered
    else Reply(engine(WhatsAppCall(req.body.value, req.from.value)))
  }

  /**
   * `POST /sms`. A falsy `Body` is answered with status 200 and the empty
   * literal response, without setting the XML type; otherwise the engine
   * answers the call built from `From`.
   */
  function SmsRoute(req: Request, engine: EngineCall -> EngineReply): (r: Response)
    ensures !Truthy(req.body) ==> r == Response(200, false, EmptyResponse)
    ensures Truthy(req.body) ==> r == Reply(engine(SmsCall(req.body.value, req.from)))
  {
    if !Truthy(req.body) then Response(200, false, EmptyResponse)
    else Reply(engine(SmsCall(req.body.value, req.from)))
  }

  /**
   * `POST /whatsapp/status` and `POST /sms/status`: whatever the request,
   * `res.sendStatus(200)`, which answers status 200 with the body `OK` as
   * plain text.
   */
  function StatusRoute(req: Request): (r: Response)
    ensures r.Response? && r.status == 200 && !r.xml && r.payload == StatusText("OK")
  {
    Response(200, false, StatusText("OK"))
  }

  /** An empty message is answered without consulting the engine, on both routes. */
  lemma EmptyBodyIgnoresEngine(req: Request, e1: EngineCall -> EngineReply, e2: EngineCall -> EngineReply)
    requires !Truthy(req.body)
    ensures WhatsAppRoute(req, e1) == WhatsAppRoute(req, e2)
    ensures SmsRoute(req, e1) == SmsRoute(req, e2)
    ensures WhatsAppRoute(req, e1).payload == EmptyResponse && SmsRoute(req, e1).payload == EmptyResponse
  {
  }

  /** Every answered message request is status 200, and it carries a message exactly when the engine produced text. */
  lemma ReplyIffText(req: Request, engine: EngineCall -> EngineReply)
    requires Truthy(req.body) && req.from.Some?
    ensures var r := WhatsAppRoute(req, engine);
      r.status == 200 && r.payload.Messaging? &&
      (r.payload.messages != [] <==>
        engine(WhatsAppCall(req.body.value, req.from.value)).Replied? &&
        Truthy(engine(WhatsAppCall(req.body.value, req.from.value)).text))
    ensures var r := SmsRoute(req, engine);
      r.status == 200 && r.payload.Messaging? &&
      (r.payload.messages != [] <==>
        engine(SmsCall(req.body.value, req.from)).Replied? && Truthy(engine(SmsCall(req.body.value, req.from)).text))
  {
  }

  /** An engine failure never reaches the client as a message. */
  lemma FailureIsSilent(req: Request, engine: EngineCall -> EngineReply)
    requires Truthy(req.body)
    requires forall c :: engine(c).Rejected?
    ensures SmsRoute(req, engine) == Response(200, true, Messaging([]))
    ensures req.from.Some? ==> WhatsAppRoute(req, engine) == Response(200, true, Messaging([]))
  {
  }

  /**
   * A WhatsApp sender and an SMS sender never share a session, as Twilio
   * writes WhatsApp senders as `whatsapp:<number>`.
   */
  lemma SessionsSeparate(body: string, waNumber: string, smsFrom: Option<string>)
    ensures WhatsAppCall(body, WhatsAppPrefix + waNumber).sessionId != SmsCall(body, smsFrom).sessionId
    ensures WhatsAppCall(body, WhatsAppPrefix + waNumber).userPhone == Some(waNumber)
  {
    assert WhatsAppCall(body, WhatsAppPrefix + waNumber).sessionId[0] == 'w';
    assert SmsCall(body, smsFrom).sessionId[0] == 's';
  }
}
