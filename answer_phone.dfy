/**
 * handlers/answer_phone.js: the voice call-control routes. Each route turns
 * the request fields, and what its collaborators answered, into an ordered
 * list of TwiML directives.
 *
 * The conversation engine and the message formatter are not part of this
 * model: the engine's answers are parameters (a function of the speech, or
 * of the pending calls), and the formatter is a record of the texts it
 * gives and of its `format` function.
 */
module AnswerPhone {
  import opened Optional
  import opened JsString
  import opened Conversation
  import opened SessionManager
  import opened BotBehavior

  /** One TwiML verb; gathers always listen for speech with an automatic timeout. */
  datatype Directive =
    | Say(voice: string, text: string)
    | Gather(action: string, language: string)
    | Redirect(url: string)
    | Dial(number: string, timeout: nat, action: string)
    | Hangup

  /** The message formatter's texts for the voice channel, and its `format(text, 'voice')`. */
  datatype Formatter = Formatter(
    greeting: string,
    checking: string,
    noSpeech: string,
    apiError: string,
    operatorUnavailable: string,
    format: string -> string)

  /** What `conversationEngine.processMessage` resolved to, or that it threw. */
  datatype EngineResult =
    | Reply(text: string)
    | ToolCallRequired(functionCalls: Option<seq<FunctionCall>>)
    | EngineFailed

  /** What `conversationEngine.handleToolCalls` resolved to, or that it threw. */
  datatype ToolOutcome =
    | ToolText(text: string)
    | ToolTransfer(text: string)
    | ToolFailed

  const HebrewVoice: string := "Google.he-IL-Standard-A"
  const HebrewStt: string := "iw-IL"
  const RepromptText: string := "הלו?"

  /** The two voices and the two recognition languages `voiceSettings` configures. */
  predicate ConfiguredVoices(ds: seq<Directive>) {
    forall i :: 0 <= i < |ds| ==>
      (ds[i].Say? ==> ds[i].voice in {HebrewVoice, "Google.ru-RU-Wavenet-A"})
      && (ds[i].Gather? ==> ds[i].action == "/respond" && ds[i].language in {HebrewStt, "ru-RU"})
  }

  /**
   * The call never stalls: a response ends in a redirect, a dial (whose
   * callback continues the call) or a hangup, and a hangup is the whole
   * response.
   */
  predicate KeepsCallGoing(ds: seq<Directive>) {
    && |ds| > 0
    && (ds[|ds| - 1].Redirect? || ds[|ds| - 1].Dial? || ds[|ds| - 1].Hangup?)
    && (forall i :: 0 <= i < |ds| && ds[i].Hangup? ==> ds == [Hangup])
  }

  /** Say something, listen for the answer, and reprompt when the caller is silent. */
  function Listen(voice: string, text: string, language: string): (ds: seq<Directive>)
    ensures |ds| == 3 && ds[0] == Say(voice, text) && ds[2] == Redirect("/reprompt")
    ensures ds[1] == Gather("/respond", language)
  {
    [Say(voice, text), Gather("/respond", language), Redirect("/reprompt")]
  }

  /** Speak a reply in the voice, and listen in the language, detected from the reply itself. */
  function SpeakDetected(text: string): (ds: seq<Directive>)
    ensures ConfiguredVoices(ds) && KeepsCallGoing(ds)
    ensures ds == Listen(VoiceSettings[DetectLanguage(text)].ttsVoice, text, VoiceSettings[DetectLanguage(text)].sttLanguage)
  {
    var lang := DetectLanguage(text);
    Listen(VoiceSettings[lang].ttsVoice, text, VoiceSettings[lang].sttLanguage)
  }

  /** `/voice`: the greeting in the Hebrew voice, a gather, and the reprompt fallback. */
  function Voice(f: Formatter): (ds: seq<Directive>)
    ensures ds == [Say(HebrewVoice, f.greeting), Gather("/respond", HebrewStt), Redirect("/reprompt")]
    ensures ConfiguredVoices(ds) && KeepsCallGoing(ds)
  {
    Listen(VoiceSettings["he"].ttsVoice, f.greeting, VoiceSettings["he"].sttLanguage)
  }

  /** A JavaScript value used as an object key: `${id}`, so a missing call SID is the key "undefined". */
  function SessionKey(id: Option<string>): (k: string)
    ensures id.Some? ==> k == id.value
    ensures id.None? ==> k == "undefined"
  {
    Interp(id)
  }

  /**
   * `/respond` as a function of the session store. Without speech the
   * engine is not consulted; a tool-call result stores the calls as pending
   * and sends the caller to `/process_tool`; a reply is spoken in the voice of
   * its detected language; an engine failure speaks the apiError message.
   */
  function RespondStep(m: Sessions, f: Formatter, speech: Option<string>, callSid: Option<string>,
                       engine: string -> EngineResult): (r: (seq<Directive>, Sessions))
    ensures ConfiguredVoices(r.0) && KeepsCallGoing(r.0)
    ensures speech.None? || speech.value == [] ==>
      r == (Listen(HebrewVoice, f.noSpeech, HebrewStt), m)
    ensures speech.Some? && speech.value != [] && engine(speech.value).ToolCallRequired? ==>
      && r.1 == SetPending(m, SessionKey(callSid), engine(speech.value).functionCalls)
      && |r.0| == 2 && r.0[0].Say? && r.0[0].text == f.checking
      && r.0[0].voice == VoiceSettings[DetectLanguage(f.checking)].ttsVoice
      && r.0[1] == Redirect("/process_tool?CallSid=" + SessionKey(callSid))
    ensures speech.Some? && speech.value != [] && engine(speech.value).Reply? ==>
      r == (SpeakDetected(f.format(engine(speech.value).text)), m)
    ensures speech.Some? && speech.value != [] && engine(speech.value).EngineFailed? ==>
      r == (Listen(HebrewVoice, f.apiError, HebrewStt), m)
  {
    if speech.None? || speech.value == [] then (Listen(HebrewVoice, f.noSpeech, HebrewStt), m)
    else match engine(speech.value)
      case ToolCallRequired(calls) =>
        var lang := DetectLanguage(f.checking);
        ([Say(VoiceSettings[lang].ttsVoice, f.checking), Redirect("/process_tool?CallSid=" + SessionKey(callSid))],
         SetPending(m, SessionKey(callSid), calls))
      case Reply(text) => (SpeakDetected(f.format(text)), m)
      case EngineFailed => (Listen(HebrewVoice, f.apiError, HebrewStt), m)
  }

  /** Without speech the answer does not depend on the engine at all. */
  lemma RespondIgnoresEngineWithoutSpeech(m: Sessions, f: Formatter, speech: Option<string>, callSid: Option<string>,
                                          e1: string -> EngineResult, e2: string -> EngineResult)
    requires speech.None? || speech.value == []
    ensures RespondStep(m, f, speech, callSid, e1) == RespondStep(m, f, speech, callSid, e2)
  {
  }

  /** `request.body.CallSid || request.query.CallSid`. */
  function CallSidOf(bodySid: Option<string>, querySid: Option<string>): (sid: Option<string>)
    ensures bodySid.Some? && bodySid.value != [] ==> sid == bodySid
    ensures bodySid.None? || bodySid.value == [] ==> sid == querySid
  {
    if bodySid.Some? && bodySid.value != [] then bodySid else querySid
  }

  /** The response to what `handleToolCalls` gave: a transfer dials the operator, a text is spoken. */
  function ToolDirectives(f: Formatter, outcome: ToolOutcome): (ds: seq<Directive>)
    ensures ConfiguredVoices(ds) && KeepsCallGoing(ds)
    ensures outcome.ToolTransfer? ==>
      ds == [Say(HebrewVoice, outcome.text), Dial(OperatorPhone, OperatorTimeout, OperatorCallbackUrl)]
    ensures outcome.ToolText? ==> ds == SpeakDetected(f.format(outcome.text))
    ensures outcome.ToolFailed? ==> ds == Listen(HebrewVoice, f.apiError, HebrewStt)
  {
    match outcome
    case ToolTransfer(text) =>
      [Say(VoiceSettings["he"].ttsVoice, text), Dial(OperatorPhone, OperatorTimeout, OperatorCallbackUrl)]
    case ToolText(text) => SpeakDetected(f.format(text))
    case ToolFailed => Listen(HebrewVoice, f.apiError, HebrewStt)
  }

  /**
   * `/process_tool` as a function of the session store: the pending calls are
   * taken (and cleared) whatever follows; no calls, or an empty list, gives
   * the apiError response without running any tool.
   */
  function ProcessToolStep(m: Sessions, f: Formatter, bodySid: Option<string>, querySid: Option<string>,
                           tools: seq<FunctionCall> -> ToolOutcome): (r: (seq<Directive>, Sessions))
    ensures ConfiguredVoices(r.0) && KeepsCallGoing(r.0)
    ensures r.1 == TakePending(m, SessionKey(CallSidOf(bodySid, querySid))).1
    ensures PendingFunctionCalls(r.1, SessionKey(CallSidOf(bodySid, querySid))) == None
    ensures var pending := PendingFunctionCalls(m, SessionKey(CallSidOf(bodySid, querySid)));
      if pending.None? || pending.value == [] then r.0 == Listen(HebrewVoice, f.apiError, HebrewStt)
      else r.0 == ToolDirectives(f, tools(pending.value))
  {
    var (calls, m') := TakePending(m, SessionKey(CallSidOf(bodySid, querySid)));
    if calls.None? || calls.value == [] then (Listen(HebrewVoice, f.apiError, HebrewStt), m')
    else (ToolDirectives(f, tools(calls.value)), m')
  }

  /**
   * What `/respond` stores is what `/process_tool` runs: after a tool-call
   * result for a call, following the redirect runs the tools on exactly the
   * engine's calls and leaves nothing pending.
   */
  lemma RespondThenProcessTool(m: Sessions, f: Formatter, speech: string, sid: string,
                               engine: string -> EngineResult, tools: seq<FunctionCall> -> ToolOutcome)
    requires speech != [] && sid != []
    requires engine(speech).ToolCallRequired? && engine(speech).functionCalls.Some?
    requires engine(speech).functionCalls.value != []
    ensures var after := RespondStep(m, f, Some(speech), Some(sid), engine).1;
      var r := ProcessToolStep(after, f, None, Some(sid), tools);
      r.0 == ToolDirectives(f, tools(engine(speech).functionCalls.value))
      && PendingFunctionCalls(r.1, sid) == None
  {
  }

  /** A second `/process_tool` for the same call finds nothing pending and apologises. */
  lemma ProcessToolTwice(m: Sessions, f: Formatter, sid: Option<string>, tools: seq<FunctionCall> -> ToolOutcome)
    ensures var once := ProcessToolStep(m, f, sid, None, tools).1;
      ProcessToolStep(once, f, sid, None, tools).0 == Listen(HebrewVoice, f.apiError, HebrewStt)
  {
  }

  /** `/handle-dial-status`: a failed transfer apologises and listens again; any other status hangs up. */
  function DialStatus(f: Formatter, status: Option<string>): (ds: seq<Directive>)
    ensures ConfiguredVoices(ds) && KeepsCallGoing(ds)
    ensures ds == [Hangup] <==> !(status == Some("busy") || status == Some("no-answer") || status == Some("failed"))
    ensures ds != [Hangup] ==> ds == Listen(HebrewVoice, f.operatorUnavailable, HebrewStt)
  {
    if status == Some("busy") || status == Some("no-answer") || status == Some("failed") then
      Listen(HebrewVoice, f.operatorUnavailable, HebrewStt)
    else [Hangup]
  }

  /** `/reprompt`: "הלו?", a gather, and a redirect back to itself; there is no counter, so it never hangs up. */
  function Reprompt(): (ds: seq<Directive>)
    ensures ConfiguredVoices(ds) && KeepsCallGoing(ds)
    ensures Hangup !in ds && ds[|ds| - 1] == Redirect("/reprompt")
    ensures ds[0] == Say(HebrewVoice, RepromptText)
  {
    Listen(HebrewVoice, RepromptText, HebrewStt)
  }

  /** The routes, over the process-wide session store. */
  method Respond(store: Store, f: Formatter, speech: Option<string>, callSid: Option<string>,
                 engine: string -> EngineResult) returns (ds: seq<Directive>)
    modifies store
    ensures (ds, store.sessions) == RespondStep(old(store.sessions), f, speech, callSid, engine)
  {
    if speech.None? || speech.value == [] {
      return Listen(HebrewVoice, f.noSpeech, HebrewStt);
    }
    var result := engine(speech.value);
    match result {
      case ToolCallRequired(calls) =>
        store.SetPendingFunctionCalls(SessionKey(callSid), calls);
        var lang := DetectLanguage(f.checking);
        ds := [Say(VoiceSettings[lang].ttsVoice, f.checking), Redirect("/process_tool?CallSid=" + SessionKey(callSid))];
      case Reply(text) =>
        ds := SpeakDetected(f.format(text));
      case EngineFailed =>
        ds := Listen(HebrewVoice, f.apiError, HebrewStt);
    }
  }

  method ProcessTool(store: Store, f: Formatter, bodySid: Option<string>, querySid: Option<string>,
                     tools: seq<FunctionCall> -> ToolOutcome) returns (ds: seq<Directive>)
    modifies store
    ensures (ds, store.sessions) == ProcessToolStep(old(store.sessions), f, bodySid, querySid, tools)
  {
    var callSid := CallSidOf(bodySid, querySid);
    var calls := store.GetAndClearPendingFunctionCalls(SessionKey(callSid));
    if calls.None? || calls.value == [] {
      return Listen(HebrewVoice, f.apiError, HebrewStt);
    }
    ds := ToolDirectives(f, tools(calls.value));
  }
}
