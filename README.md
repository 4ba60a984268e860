# A model of the yacht-rental phone and messaging bot

This project models, in Dafny, the core of a Node.js assistant that answers
phone calls (Twilio voice webhooks) and WhatsApp/SMS messages for a yacht
rental business. It covers:

- the per-conversation **session store**: history, pending tool calls,
  detected gender and channel;
- the **streaming engine**'s segmenter, which cuts the model's streamed text
  into speakable chunks, strips `[GENDER:…]` tags, collects function calls
  and commits the turn to the history;
- the **voice routes** (`/voice`, `/respond`, `/process_tool`, the dial
  status and the reprompt) as the TwiML verbs they return;
- the **calendar service**'s free-slot scan over a day from 08:00 to 20:00,
  the booking event and the availability check;
- the **calendar tools**' dispatch of the model's function calls, including
  the booking sequence (calendar insertion, the WhatsApp messages, the order
  email) and the point at which a failed send stops it;
- the **bot behaviour** text utilities: language detection, cleaning text
  for speech, messages and prompt values;
- the **retriever**'s domain inference, search filter and prompt context;
- the **CSV loader**'s quote-aware line splitter and the page content it
  builds;
- the **messaging handler**'s WhatsApp, SMS and status routes;
- the **WhatsApp tool** handler.

Collaborators the core calls but whose code is not part of this model (the
Gemini conversation engine, the message formatter, the vector store, the
Google Calendar client, the WhatsApp sender, the clock) are parameters:
functions from the request to the collaborator's answer, or a `throws`
predicate saying which send fails. Times of day are integer minutes after
midnight in the business's time zone.

`JsString` and `Conversation` give the JavaScript built-ins the core relies
on (`includes`, `split`, `join`, `trim`, `replace`, `toLowerCase`, `Number`,
`+` on numbers, template interpolation of `undefined`) a definition of their
own, with lemmas about them. `SessionManager.Store` is the one class: the
source keeps its sessions in a module-level object that its functions update
in place, so the store holds a `map` field that its methods reassign, each
method ensuring that the new map is a pure function of the old one.

## Model

| member | source | states |
|---|---|---|
| SessionManager.NewSession | memory/sessionManager.js:10-16 | a new session has the given channel, an empty history, no pending calls and no gender |
| SessionManager.Append | memory/sessionManager.js:27-57 | the turns are pushed at the end of the id's history, an unknown id first getting a default-channel session; channel, pending calls, gender and every other session are kept |
| SessionManager.Init | memory/sessionManager.js:8-19 | the id is added with a fresh session only when it was absent; every existing session is unchanged |
| SessionManager.InitIdempotent | memory/sessionManager.js:8-19 | initialising a known id changes nothing whatever the channel, so initialising twice equals initialising once |
| SessionManager.AppendText | memory/sessionManager.js:27-35 | the history grows by exactly one turn with the given role and text, the old history is its prefix, an unknown id is created on the default channel, and other sessions are untouched |
| SessionManager.AddFunctionInteraction | memory/sessionManager.js:43-57 | the history grows by the model's call turn followed by the function's response turn, named after the call; the rest is unchanged |
| SessionManager.History | memory/sessionManager.js:65-67 | an unknown id has the empty history, a known one its stored history |
| SessionManager.Gender | memory/sessionManager.js:102-104 | an unknown id has no gender, a known one its stored gender |
| SessionManager.PendingFunctionCalls | memory/sessionManager.js:84-86 | an unknown id has no pending calls, a known one its stored calls |
| SessionManager.Channel | memory/sessionManager.js:111-113 | an unknown id has no channel, a known one its stored channel |
| SessionManager.SetPending | memory/sessionManager.js:74-77 | the pending calls become the given ones, creating the session if needed, and history, gender, channel and other sessions are kept |
| SessionManager.TakePending | memory/sessionManager.js:84-89 | returns the stored pending calls and clears them, with the key set and all other fields unchanged |
| SessionManager.TakeTwice | memory/sessionManager.js:84-89 | a second take returns nothing and leaves the store as the first take left it |
| SessionManager.SetThenTake | memory/sessionManager.js:74-89 | taking right after setting returns exactly what was set |
| SessionManager.AssignGender | memory/sessionManager.js:93-97 | the gender becomes the given one and nothing else changes; an unknown id gets a new default-channel session with that gender |
| SessionManager.Store.constructor | memory/sessionManager.js:1 | the store starts with no sessions |
| SessionManager.Store.InitSession | memory/sessionManager.js:8-19 | the new sessions are `Init` of the old ones |
| SessionManager.Store.AddToHistory | memory/sessionManager.js:27-35 | the new sessions are `AppendText` of the old ones |
| SessionManager.Store.AddFunctionInteractionToHistory | memory/sessionManager.js:43-57 | the new sessions are `AddFunctionInteraction` of the old ones |
| SessionManager.Store.GetHistory | memory/sessionManager.js:65-67 | the stored history of a known id, empty for an unknown one |
| SessionManager.Store.SetPendingFunctionCalls | memory/sessionManager.js:74-77 | the new sessions are `SetPending` of the old ones |
| SessionManager.Store.GetAndClearPendingFunctionCalls | memory/sessionManager.js:84-89 | returns and clears the pending calls, as `TakePending` |
| SessionManager.Store.SetGender | memory/sessionManager.js:93-97 | the new sessions are `AssignGender` of the old ones |
| SessionManager.Store.GetGender | memory/sessionManager.js:102-104 | the stored gender of a known id, none for an unknown one |
| SessionManager.Store.GetChannel | memory/sessionManager.js:111-113 | the stored channel of a known id, none for an unknown one |
| StreamingEngine.TagAt | utils/streamingEngine.js:127 | a `[GENDER:` match (any letter case) ends at the first `]` with no line break before it, after the opening |
| StreamingEngine.StripTags | utils/streamingEngine.js:127 | the tag removal never lengthens the text and adds no character |
| StreamingEngine.StripTagsNoTag | utils/streamingEngine.js:127 | text with no gender tag is returned unchanged by the tag removal |
| StreamingEngine.StripTagsShrinks | utils/streamingEngine.js:127 | text holding a tag anywhere becomes strictly shorter |
| StreamingEngine.StripTagsSameLength | utils/streamingEngine.js:127 | a removal that keeps the length changed nothing |
| StreamingEngine.StripTagsCanLeaveTag | utils/streamingEngine.js:127 | the single left-to-right pass turns `[GEN[GENDER:]DER:]` into `[GENDER:]`, which is still a tag |
| StreamingEngine.StripTagsFully | utils/streamingEngine.js:127 | removal repeated until no tag is left yields tag-free text |
| StreamingEngine.StripTagsFullyNoTag | utils/streamingEngine.js:127 | the repeated removal leaves tag-free text unchanged |
| StreamingEngine.SendSafe | utils/streamingEngine.js:126-129 | a piece yields at most one chunk, which is the trimmed, tag-stripped piece and is non-empty |
| StreamingEngine.Speakable | utils/streamingEngine.js:126-129 | every chunk sent is non-empty and trimmed, and there are no more chunks than pieces |
| StreamingEngine.SpeakableAppend | utils/streamingEngine.js:126-129 | the chunks of one more piece are the earlier chunks followed by that piece's chunk |
| StreamingEngine.FirstMark | utils/streamingEngine.js:149 | the index of the first sentence mark (`,`, `.`, `?`, `!`, `;` or a line break) from a position on, with none before it, or none at all |
| StreamingEngine.Feed | utils/streamingEngine.js:146-156 | feeding empty text changes nothing; otherwise the full text grows by exactly the text, every earlier piece is kept and at most one piece is added; the calls are kept |
| StreamingEngine.FeedFlushRule | utils/streamingEngine.js:149-156 | with a sentence mark in the buffer, exactly the text through the first mark is flushed and the rest stays buffered; with none, a piece is flushed exactly when the buffer holds more than six space-separated words, and it is then the whole buffer, which empties |
| StreamingEngine.FeedConserves | utils/streamingEngine.js:146-156 | the flushed pieces followed by the buffer are the old pieces and buffer followed by the new text: no character is lost or duplicated |
| StreamingEngine.StepConserves | utils/streamingEngine.js:133-156 | the same for one stream event, whose spoken part is its tag-free text |
| StreamingEngine.RunConserves | utils/streamingEngine.js:131-156 | over a whole stream, the pieces and the final buffer spell the spoken text of all events |
| StreamingEngine.FlushedConserves | utils/streamingEngine.js:131-158 | with the leftover buffer flushed, the pieces spell the spoken text exactly |
| StreamingEngine.FeedPieces | utils/streamingEngine.js:149-156 | one feed adds at most one piece, which either ends at its only sentence mark or has no mark and holds more than six space-separated words |
| StreamingEngine.RunPieces | utils/streamingEngine.js:149-156 | every piece of a stream has that shape |
| StreamingEngine.Step | utils/streamingEngine.js:131-156 | one event keeps every earlier piece and adds at most one; a function-call event leaves the full text, buffer and pieces alone; the calls grow by exactly the event's calls |
| StreamingEngine.Run | utils/streamingEngine.js:131-156 | a stream yields at most one piece per event |
| StreamingEngine.RunExtends | utils/streamingEngine.js:131-156 | the pieces of a stream extend the pieces of each of its prefixes |
| StreamingEngine.SpeakablePrefix | utils/streamingEngine.js:126-129 | the chunks of a sequence of pieces extend the chunks of any prefix of it |
| StreamingEngine.ChunksOnlyGrow | utils/streamingEngine.js:126-156 | a chunk once sent stays sent: after more events the chunks extend those sent before |
| StreamingEngine.Flushed | utils/streamingEngine.js:158 | the final flush keeps the pieces and adds the buffer as one more piece exactly when the buffer is non-empty |
| StreamingEngine.Spoken | utils/streamingEngine.js:133-146 | a call event speaks nothing; a text event speaks only characters of its text, no more of them, and all of its text when it holds no `[GENDER:` |
| StreamingEngine.RunCalls | utils/streamingEngine.js:133-134 | the function calls collected are exactly those of the stream's events, in order |
| StreamingEngine.TaggedEventCountedTwice | utils/streamingEngine.js:136-146 | a text event holding a tag whose stripped text is non-empty is appended to the full text twice: raw, then stripped |
| StreamingEngine.FeedText | utils/streamingEngine.js:146-156 | the loop over one text's characters reaches the state `Feed` specifies and sends exactly the chunks of its pieces |
| StreamingEngine.Segment | utils/streamingEngine.js:131-156 | the loop over the stream sends exactly the chunks of the stream's pieces, each non-empty and trimmed, and ends with the stream's full text, word buffer and calls |
| StreamingEngine.GenderTagAt | utils/streamingEngine.js:165 | a recognised gender is `male` or `female` |
| StreamingEngine.GenderTagFrom | utils/streamingEngine.js:165 | the first position from an index where a gender tag starts, or none when none starts anywhere after it |
| StreamingEngine.GenderTagFromLeftmost | utils/streamingEngine.js:165 | no gender tag starts before the position found |
| StreamingEngine.FirstGenderTag | utils/streamingEngine.js:165-167 | the gender of the leftmost tag, `male` or `female`, and none exactly when no position holds a tag |
| StreamingEngine.RecordUser | utils/streamingEngine.js:162-164 | a non-empty user message is appended as a user turn; the gender and other sessions are kept |
| StreamingEngine.RecordReply | utils/streamingEngine.js:165-172 | the reply is appended as a model turn; with a tag, the gender is saved and the reply is the stripped, trimmed text, otherwise the reply is the raw full text and the gender is kept |
| StreamingEngine.Commit | utils/streamingEngine.js:160-177 | with calls, nothing is saved and the result asks for a tool call; without, the user and model turns are saved as above |
| StreamingEngine.PlainTurnAddsPair | utils/streamingEngine.js:160-172 | a plain turn adds exactly a user turn and a model turn to the history |
| StreamingEngine.ContinuationAddsOne | utils/streamingEngine.js:160-172 | a continuation after a tool adds only the model turn |
| StreamingEngine.HandleStreamResult | utils/streamingEngine.js:121-178 | a stream that breaks part-way fails with the chunks of the pieces flushed so far sent and the sessions untouched; a stream that completes sends the chunks of the flushed pieces, and its result and new sessions are those `Commit` specifies |
| StreamingEngine.ContinueConversationStream | utils/streamingEngine.js:88-119 | after a tool result, the stream is handled with no user message: a broken stream fails leaving the sessions untouched, a completed one commits as `Commit` specifies with no user turn |
| StreamingEngine.DetectDomain | utils/streamingEngine.js:11-20 | `Yachts` exactly when a yacht word occurs (case-insensitively), `Terminals` exactly when a terminal word occurs and no yacht word, none otherwise |
| StreamingEngine.DomainOrdersDisagree | utils/streamingEngine.js:11-20 | text naming both a yacht and a terminal is `Yachts` here and `Terminals` to the retriever |
| StreamingEngine.ProcessMessageStream | utils/streamingEngine.js:24-38 | the session is initialised on the voice channel and the call fails before any generation, because the domain lookup it calls does not exist |
| AnswerPhone.Listen | handlers/answer_phone.js:28-35 | say the text, gather speech posting to `/respond` in the given language, then redirect to `/reprompt` |
| AnswerPhone.SessionKey | handlers/answer_phone.js:43-58 | the key of a call is its call id, or `undefined` when the request has none |
| AnswerPhone.SpeakDetected | handlers/answer_phone.js:68-80 | the text is spoken in the voice and language of the language detected from it, and the call keeps listening |
| AnswerPhone.Voice | handlers/answer_phone.js:18-36 | the greeting in the Hebrew voice, a Hebrew gather, then the reprompt redirect |
| AnswerPhone.RespondStep | handlers/answer_phone.js:41-104 | no speech: the no-speech prompt and no change; a tool call: the calls are stored as pending under the call and a redirect to `/process_tool` with that call id follows the formatter's checking text, spoken in the voice of its detected language; a reply: the formatted reply in the detected language; an engine failure: the error prompt; every answer keeps the call going |
| AnswerPhone.RespondIgnoresEngineWithoutSpeech | handlers/answer_phone.js:93-103 | without speech the answer does not depend on the engine |
| AnswerPhone.CallSidOf | handlers/answer_phone.js:110 | the body's call id when present and non-empty, the query's otherwise |
| AnswerPhone.ToolDirectives | handlers/answer_phone.js:121-157 | a transfer says the transfer message and dials the operator, a text result is spoken in its detected language, a failure says the error prompt |
| AnswerPhone.ProcessToolStep | handlers/answer_phone.js:109-158 | the pending calls are taken and cleared; none pending gives the error prompt, otherwise the tools' outcome is spoken |
| AnswerPhone.RespondThenProcessTool | handlers/answer_phone.js:55-119 | following the redirect runs the tools on exactly the calls the engine asked for and leaves nothing pending |
| AnswerPhone.ProcessToolTwice | handlers/answer_phone.js:114-117 | a second `/process_tool` for the same call finds nothing pending and gives the error prompt |
| AnswerPhone.DialStatus | handlers/answer_phone.js:164-178 | hang up exactly unless the dial ended busy, unanswered or failed, in which case the operator-unavailable prompt keeps listening |
| AnswerPhone.Reprompt | handlers/answer_phone.js:183-207 | the reprompt speaks in Hebrew, never hangs up and redirects to itself |
| AnswerPhone.Respond | handlers/answer_phone.js:41-104 | the answer and the new sessions are those `RespondStep` specifies |
| AnswerPhone.ProcessTool | handlers/answer_phone.js:109-158 | the answer and the new sessions are those `ProcessToolStep` specifies |
| CalendarService.BusyFor | calendar/calendarService.js:51-56 | the busy intervals are exactly those of the events whose non-empty summary contains the yacht's name, compared case-sensitively |
| CalendarService.InsertByStart | calendar/calendarService.js:57 | inserting into a start-sorted list keeps it sorted and adds exactly the one interval |
| CalendarService.SortByStart | calendar/calendarService.js:57 | the result is sorted by start time and is a permutation of the input |
| CalendarService.ScanCursor | calendar/calendarService.js:60-77 | the cursor after the scan is no earlier than 08:00, lies at or after every busy end, and is 08:00 or one of the busy ends |
| CalendarService.Scan | calendar/calendarService.js:60-77 | the scan records at most one gap per busy interval and its cursor never falls before 08:00 |
| CalendarService.ScanKeepsCursor | calendar/calendarService.js:74-76 | a busy interval ending before the cursor does not move it back |
| CalendarService.ScanRangesSized | calendar/calendarService.js:69-72 | every gap recorded is at least the requested duration long |
| CalendarService.ScanRangesEndAtBusy | calendar/calendarService.js:69-72 | every gap recorded ends where some busy interval starts |
| CalendarService.ScanRangesOrdered | calendar/calendarService.js:60-77 | the gaps recorded are in ascending order and end no later than the cursor |
| CalendarService.ScanRangesFree | calendar/calendarService.js:60-77 | over sorted intervals, no gap recorded overlaps a busy interval |
| CalendarService.FreeRangesSized | calendar/calendarService.js:69-85 | every free range, including the tail to 20:00, is at least the duration long |
| CalendarService.FreeRangesOf | calendar/calendarService.js:60-86 | at most one free range more than there are busy intervals, each ending at 20:00 or where a busy interval starts |
| CalendarService.FreeRangesInDay | calendar/calendarService.js:60-86 | when no busy interval starts after 20:00, no free range ends after 20:00 |
| CalendarService.FreeRangesAscending | calendar/calendarService.js:60-86 | when no busy interval ends before it starts, the free ranges are in ascending order |
| CalendarService.FreeRangesAvoidBusy | calendar/calendarService.js:60-86 | over sorted intervals, no free range overlaps a busy one |
| CalendarService.FreeRanges | calendar/calendarService.js:60-86 | the loop produces exactly the free ranges the scan specifies |
| CalendarService.FreeRangesEmptyDay | calendar/calendarService.js:79-86 | an empty day is one range from 08:00 to 20:00 when the duration fits in 12 hours, and no range otherwise |
| CalendarService.HourOf | calendar/calendarService.js:90-93 | the hour of a time is below 24 and, within a day, the hour whose 60 minutes contain it |
| CalendarService.DisplayText | calendar/calendarService.js:100 | the text is `בין `, the start hour, ` ל-`, the end hour, and both hours read back from their decimal digits |
| CalendarService.SlotOf | calendar/calendarService.js:89-101 | a slot keeps its range, shows the start and end hours as decimal text, and reads as "between start and end" in Hebrew |
| CalendarService.SlotsOf | calendar/calendarService.js:89-101 | one slot per free range, in the same order |
| CalendarService.DisplayedHoursInDay | calendar/calendarService.js:89-101 | a range within the business day shows hours between 8 and 20 |
| CalendarService.CheckAvailability | calendar/calendarService.js:30-108 | a failed listing gives an error, otherwise the slots of the free ranges of the yacht's sorted busy intervals, for the duration given or 3 hours |
| CalendarService.CheckAvailabilitySlots | calendar/calendarService.js:30-108 | every listing gives slots, each starting at 08:00 or later, at least the duration long and overlapping no busy interval of the yacht; when no event ends before it starts, the slots are in ascending order |
| CalendarService.CreateBookingEvent | calendar/calendarService.js:117-140 | the event keeps the given start and end, the Jerusalem time zone, e-mail and pop-up reminders a day and an hour before, the summary and the client's name and phone |
| CalendarService.BookingSummary | calendar/calendarService.js:123 | the summary is the booking prefix, then the yacht's name, ` - ` and the client's name at the end |
| CalendarService.IsSlotAvailable | calendar/calendarService.js:196-221 | a failed listing is unavailable; otherwise available exactly when no event names the yacht |
| CalendarService.SummaryNamesYacht | calendar/calendarService.js:123 | a booking's summary contains the yacht's name |
| CalendarService.BookedSlotUnavailable | calendar/calendarService.js:123-221 | once a booking event is listed, its slot is no longer available for that yacht |
| CalendarTools.ForceYear2026 | calendar/calendarTools.js:113-116 | a date starting with 2020–2029 gets the year 2026 and keeps the rest; any other date, or none, is unchanged |
| CalendarTools.ForceYear2026Idempotent | calendar/calendarTools.js:113-116 | forcing twice equals forcing once |
| Conversation.ToNumber | calendar/calendarTools.js:153 | a non-empty digit string converts to its decimal value |
| Conversation.Plus | calendar/calendarTools.js:154 | a sum is a number exactly when both sides are, and then it is their sum |
| CalendarTools.Balance | calendar/calendarTools.js:159-160 | the balance is a number exactly when the total price is given, and deposit plus balance is the total |
| CalendarTools.Bonuses | calendar/calendarTools.js:162-163 | the champagne line is added exactly for a duration of 3 hours or more; the base bonuses always end the text |
| CalendarTools.EndTime | calendar/calendarTools.js:153-155 | an end time exists exactly when the start time holds a colon |
| CalendarTools.DigitClockSplits | calendar/calendarTools.js:153 | a digit-only `hh:mm` splits on the colon into its two fields |
| CalendarTools.EndTimeFromParts | calendar/calendarTools.js:153-155 | the end time is the start hour plus the duration and the start minutes, each padded to two digits |
| CalendarTools.EndTimeOf | calendar/calendarTools.js:153-155 | for digit fields and a whole duration, the end hour is the start hour plus the duration |
| CalendarTools.EndTimeRoundTrip | calendar/calendarTools.js:153-157 | reading the end time back gives the start hour plus the duration and the start minutes |
| CalendarTools.IsoDateTime | calendar/calendarTools.js:156-157 | the date, a `T`, the time and `:00` |
| CalendarTools.Messages | calendar/calendarTools.js:173-226 | the client gets the confirmation, the directions exactly when a location link is given, and the terms; the owner's copy goes last |
| CalendarTools.Actions | calendar/calendarTools.js:165-229 | a calendar insertion, then the messages, then the order email |
| CalendarTools.BookingPlan | calendar/calendarTools.js:150-229 | a plan exists exactly when the start time is given and holds a colon, and has six actions with a location link, five without |
| CalendarTools.BookingCalendarFirst | calendar/calendarTools.js:156-170 | the first action is the `createBooking` call, with the ISO start, the ISO end computed from the duration, and the client's name, phone, duration and yacht |
| CalendarTools.BookingSendOrder | calendar/calendarTools.js:173-229 | the sends come in the source's order, and the order email is last |
| CalendarTools.BookingPlanShape | calendar/calendarTools.js:165-229 | between the insertion and the email every action is a WhatsApp send |
| CalendarTools.BookingMessage | calendar/calendarTools.js:173-198 | the confirmation opens with the client's name line and closes with the request for the invoice photo |
| CalendarTools.LocationMessage | calendar/calendarTools.js:200-206 | the directions open with their heading, the location description or `מרינה` and the navigation label, and have no surrounding spaces |
| CalendarTools.OwnerMessage | calendar/calendarTools.js:215-223 | the owner's copy opens with its heading, the client's name and phone and closes with the payment-link note |
| CalendarTools.BookingMessagePaymentLink | calendar/calendarTools.js:186 | the confirmation contains the payment link given, or the default link |
| CalendarTools.FirstFatal | calendar/calendarTools.js:209-226 | the first send that throws, with none before it, or none when no send throws |
| CalendarTools.Perform | calendar/calendarTools.js:165-231 | the actions attempted are always a prefix of the plan; the plan completes exactly when no send throws, and then every action is attempted; otherwise the actions up to and including the first throwing send are |
| CalendarTools.DisplayTexts | calendar/calendarTools.js:128 | each slot's display text, in order |
| CalendarTools.SlotsReply | calendar/calendarTools.js:127-128 | the no-slots text exactly when there are no slots; otherwise exactly `שעות פנויות: ` followed by the slots' texts joined with `, `, so it contains every slot's text |
| CalendarTools.ToolOf | calendar/calendarTools.js:122-143 | each of the four tool names selects its own case, and every other name the default |
| CalendarTools.HandleFunctionCall | calendar/calendarTools.js:118-148 | a transfer asks for the operator and attempts nothing; an unknown tool is "not implemented"; the availability check sends nothing |
| CalendarTools.UnknownToolNotImplemented | calendar/calendarTools.js:141-142 | any name outside the four tools gets the not-implemented text and attempts nothing |
| CalendarTools.AvailabilityReply | calendar/calendarTools.js:123-129 | the calendar's `checkAvailability` is asked with the 2026-forced date; when it fails the reply is the tool error, otherwise the slots reply for what it returned, with nothing sent |
| CalendarTools.AvailabilityFromCalendarService | calendar/calendarTools.js:123-129 | when the calendar computes slots as `CalendarService.CheckAvailability` does, a failed listing gives the tool error, and otherwise the reply is the no-slots text exactly when there is no free range and names every free range's slot |
| CalendarTools.MessageCall | calendar/calendarTools.js:134-136 | one send of the message body to the client's phone; the reply is `Message sent.` unless that send throws, the tool error otherwise |
| CalendarTools.BookingCall | calendar/calendarTools.js:138-139 | no plan gives the tool error with nothing attempted; otherwise the actions attempted are a prefix of the plan, and the reply is the confirmation exactly when no send throws, the tool error otherwise |
| CalendarTools.SendMessageReply | calendar/calendarTools.js:134-136 | one send to the given phone; the reply is the sent text exactly when it does not throw, the tool error otherwise |
| CalendarTools.BookingNeedsStartTime | calendar/calendarTools.js:150-155 | a booking without a start time holding a colon fails with the tool error and attempts nothing |
| CalendarTools.BookingCompletes | calendar/calendarTools.js:138-231 | when no send throws, every action of the plan is attempted and the booking is confirmed |
| CalendarTools.BookingStopsAtFailedSend | calendar/calendarTools.js:144-147 | when a send throws, the reply is the tool error and the actions attempted are a prefix of the plan that starts with the insertion and ends at that send, so the email is never sent |
| CalendarTools.BookingIgnoresCalendarAndEmailFailures | calendar/calendarTools.js:166-170 | a failing calendar insertion or order email changes neither the reply nor the actions |
| CalendarTools.BookingDispatch | calendar/calendarTools.js:138-148 | the booking reply is the confirmation when the plan completes and the tool error otherwise, with the actions performed |
| BotBehavior.GetGreeting | data/botBehavior.js:140 | the initial greeting |
| BotBehavior.GetMessage | data/botBehavior.js:142-144 | the message of that type, else the greeting of that type, else the system error text |
| BotBehavior.GetMessageNonEmpty | data/botBehavior.js:142-144 | every message lookup gives non-empty text |
| BotBehavior.DetectLanguage | data/botBehavior.js:111-117 | Russian exactly when the text holds a Cyrillic letter or, lower-cased, one of the Russian keywords; Hebrew otherwise, including for empty text |
| BotBehavior.DetectedVoiceDefined | data/botBehavior.js:74-85 | the detected language always has a voice and a matching speech-recognition language |
| BotBehavior.UrlAt | data/botBehavior.js:121 | a link match starts with `http` and takes every following non-space character |
| BotBehavior.RemoveUrls | data/botBehavior.js:121 | link removal never lengthens the text and adds no character |
| BotBehavior.RemoveUrlsLeavesNoUrl | data/botBehavior.js:121 | after link removal no link starts anywhere in the text |
| BotBehavior.HeadUrl | data/botBehavior.js:121 | a link at the front after removal was a link at the front before it |
| BotBehavior.RemoveUrlsHead | data/botBehavior.js:121 | a space-free opening of the result is also the opening of the input |
| BotBehavior.RemoveUrlsNoScheme | data/botBehavior.js:121 | text without `http` is unchanged |
| BotBehavior.RemoveUrlsLink | data/botBehavior.js:121 | a link followed by a space is removed entirely |
| BotBehavior.RemoveMarkdown | data/botBehavior.js:122 | a character survives exactly when it occurs and is not one of `*`, `_`, `~`, backquote, `#` |
| BotBehavior.RemoveAngleTags | data/botBehavior.js:123 | no `<…>` span is left and no character is added |
| BotBehavior.CollapseSpaces | data/botBehavior.js:124 | every run of whitespace becomes one space; empty stays empty; other characters are kept |
| BotBehavior.CollapseNoAngle | data/botBehavior.js:123-124 | collapsing spaces does not create a `<…>` span |
| BotBehavior.Cleanup | data/botBehavior.js:121-124 | the cleaned text holds only spaces and non-markdown characters of the input |
| BotBehavior.CleanupSpeakable | data/botBehavior.js:121-125 | the cleaned text has no markdown character, no `<…>` span, no double whitespace and no surrounding spaces |
| BotBehavior.CollapsedSpeakable | data/botBehavior.js:124-125 | trimming a collapsed markdown-free, tag-free text gives speakable text |
| BotBehavior.TrimmedSpeakable | data/botBehavior.js:125 | trimming keeps text speakable |
| BotBehavior.SliceSpeakable | data/botBehavior.js:125 | any slice of speakable text is free of markdown, angle spans and double spaces |
| BotBehavior.Transcribe | data/botBehavior.js:126-132 | no transcriptions leave the text unchanged; every character of the result comes from the text or from a replacement |
| BotBehavior.TranscribeOne | data/botBehavior.js:126-132 | one transcription is one left-to-right replacement of every non-overlapping occurrence of its word |
| BotBehavior.TranscribeDeletes | data/botBehavior.js:126-132 | a transcription of a one-character word to the empty string leaves no occurrence of that character |
| BotBehavior.CleanTextForTTS | data/botBehavior.js:119-134 | the loop's result is the cleaned text with the transcriptions applied, and speakable when there are none |
| BotBehavior.GetSystemPrompt | data/botBehavior.js:136-138 | each placeholder gets its value when truthy, otherwise the fallback date, `Unknown` gender or phone, or the no-information text |
| BotBehavior.PromptFallbacks | data/botBehavior.js:25-58 | with nothing given, all four fallbacks are used; an empty string falls back like a missing value |
| Retriever.InferDomain | rag/retriever.js:18-32 | no query gives no domain; a terminal keyword gives `Terminals`, else a yacht keyword gives `Yachts`, else none |
| Retriever.InferDomainNone | rag/retriever.js:29-31 | a query with no keyword has no domain |
| Retriever.EffectiveDomain | rag/retriever.js:47 | the given domain when truthy, the inferred one otherwise |
| Retriever.SearchFilter | rag/retriever.js:49-54 | a filter exactly when the effective domain is truthy, and then on that domain |
| Retriever.FilterWhenDomainKnown | rag/retriever.js:47-54 | a given domain is the filter; else the inferred domain is; else there is no filter |
| Retriever.RetrieveContext | rag/retriever.js:42-78 | the store's documents for the query under the filter, or none when the search fails |
| Retriever.Block | rag/retriever.js:96 | the block is exactly `[Документ `, the one-based number, `]` and a line break, then the document, and the number reads back as the document's position plus one |
| Retriever.Blocks | rag/retriever.js:95-96 | one numbered block per document, in order |
| Retriever.ContextForPrompt | rag/retriever.js:87-100 | no documents give the empty context; otherwise the context contains every block |
| Retriever.ContextHoldsEveryDocument | rag/retriever.js:95-97 | every document appears in the context |
| Retriever.ContextOfOne | rag/retriever.js:95-97 | one document gives its numbered header and the document |
| LoadDocuments.Step | scripts/loadDocuments.js:54-57 | a character keeps the completed fields and completes one more exactly when it is a comma outside quotes; it flips the quote state exactly when it is a quote; any other character but a comma joins the current field |
| LoadDocuments.ScanLine | scripts/loadDocuments.js:53-58 | a line completes at most one field per character |
| LoadDocuments.ScanLineCounts | scripts/loadDocuments.js:53-58 | after a line the scan is inside quotes exactly when the line holds an odd number of quotes, and at most one field is completed per comma |
| LoadDocuments.LineValues | scripts/loadDocuments.js:50-59 | a line always yields at least one value |
| LoadDocuments.ParseLine | scripts/loadDocuments.js:50-59 | the loop over the characters yields exactly the line's values |
| LoadDocuments.ValuesTrimmed | scripts/loadDocuments.js:56-59 | every value is trimmed |
| LoadDocuments.ValuesAvoid | scripts/loadDocuments.js:53-59 | no value holds a quote, nor any character absent from the line |
| LoadDocuments.QuotedRun | scripts/loadDocuments.js:53-57 | inside quotes, commas and all other non-quote characters are kept in the current value |
| LoadDocuments.QuotedField | scripts/loadDocuments.js:53-57 | a quoted run adds its text, quotes removed, to the current value |
| LoadDocuments.QuotedLine | scripts/loadDocuments.js:50-59 | a line that is one quoted field gives that field, trimmed, as its single value |
| LoadDocuments.PlainLine | scripts/loadDocuments.js:50-59 | a line without quotes gives its comma-separated fields, trimmed |
| LoadDocuments.TrimAll | scripts/loadDocuments.js:47 | each string trimmed, in order |
| LoadDocuments.Unquote | scripts/loadDocuments.js:62 | a value without quotes is unchanged |
| LoadDocuments.Cell | scripts/loadDocuments.js:61-62 | a missing value is the empty string; a present one without quotes is itself |
| LoadDocuments.RowOf | scripts/loadDocuments.js:60-65 | a row has exactly the headers as keys |
| LoadDocuments.RowOfCell | scripts/loadDocuments.js:60-64 | the last column of a header name holds that column's cell |
| LoadDocuments.CsvLines | scripts/loadDocuments.js:46 | the text always yields at least one line, the header line |
| LoadDocuments.Headers | scripts/loadDocuments.js:46-47 | one column name per comma of the first line, plus one |
| LoadDocuments.HeadersClean | scripts/loadDocuments.js:46-47 | no column name holds a comma or a line break or has surrounding spaces |
| LoadDocuments.CsvRows | scripts/loadDocuments.js:45-67 | one row per line after the header |
| LoadDocuments.RowsOf | scripts/loadDocuments.js:49-66 | the row of each following line is built from its values |
| LoadDocuments.ParseCSV | scripts/loadDocuments.js:45-67 | the loop over the lines yields exactly the rows specified |
| LoadDocuments.RowCells | scripts/loadDocuments.js:45-67 | a parsed row's keys are the headers and each holds its column's cell |
| LoadDocuments.Column | scripts/loadDocuments.js:98-104 | a missing column reads as the empty string |
| LoadDocuments.PageContent | scripts/loadDocuments.js:96-105 | the page content is the template's lines joined by line breaks and trimmed, so it has no surrounding spaces and starts with the `Product:` label, the template's leading line break being trimmed away |
| LoadDocuments.PageLinesInOrder | scripts/loadDocuments.js:96-105 | when no cell holds a line break, splitting the page on line breaks gives back its lines in order |
| LoadDocuments.CsvPageInOrder | scripts/loadDocuments.js:96-105 | the same for any parsed row of a file with distinct headers |
| MessagingHandler.WhatsAppCall | handlers/messaging_handler.js:28-29 | the session is the sender's address on the WhatsApp channel, and the phone is the address without the `whatsapp:` prefix |
| MessagingHandler.SmsCall | handlers/messaging_handler.js:75-76 | the session is `sms:` and the sender on the SMS channel, with the sender as the phone |
| MessagingHandler.Reply | handlers/messaging_handler.js:41-57 | a 200 TwiML reply holding one message exactly when the engine answered with non-empty text, and then that text |
| MessagingHandler.WhatsAppRoute | handlers/messaging_handler.js:11-59 | an empty body gets the empty reply without the engine; a message gets the engine's reply |
| MessagingHandler.SmsRoute | handlers/messaging_handler.js:64-100 | an empty body gets the empty reply without the engine; a message gets the engine's reply |
| MessagingHandler.StatusRoute | handlers/messaging_handler.js:105-113 | a status callback is answered with status 200 and the plain-text body `OK`, as `sendStatus(200)` sends it |
| MessagingHandler.EmptyBodyIgnoresEngine | handlers/messaging_handler.js:18-23 | with an empty body the reply does not depend on the engine, on either route |
| MessagingHandler.ReplyIffText | handlers/messaging_handler.js:41-43 | a message is sent back exactly when the engine gave non-empty text |
| MessagingHandler.FailureIsSilent | handlers/messaging_handler.js:51-57 | when the engine fails, the user gets an empty reply |
| MessagingHandler.SessionsSeparate | handlers/messaging_handler.js:28-29 | a WhatsApp sender and an SMS sender never share a session, and the WhatsApp phone is the bare number |
| WhatsAppTools.SendFor | whatsapp/whatsappTools.js:36-44 | a send happens exactly for the tool's name and a known phone, to the phone without the `whatsapp:` prefix, with the message as given |
| WhatsAppTools.HandleWhatsAppCall | whatsapp/whatsappTools.js:35-48 | other tool names are not handled; an unknown phone gives the unknown-phone error; otherwise the sender's outcome is reported |
| WhatsAppTools.UnknownPhoneNeverSends | whatsapp/whatsappTools.js:38-40 | with no phone the result does not depend on the sender and nothing is sent |
| WhatsAppTools.WhatsAppAddressSentBare | whatsapp/whatsappTools.js:42-44 | a `whatsapp:` address is sent to the bare number |

## Left out

- The Express server, HTTPS setup and process configuration: they only route requests to the handlers modelled here.
- The Gemini client and `conversationEngine`: the engine's answers are parameters of the routes.
- `messageFormatter`: a record of the texts the routes speak, taken as a parameter.
- The Chroma vector store and the embeddings: the search is a parameter of `Retriever.RetrieveContext`.
- The Google Calendar client: the event listing is a parameter (`Listing`), and the insertion is an action in the booking plan.
- `calendar/googleCalendar.js` is not part of this model: its `checkAvailability` is the world's `availability` parameter; `CalendarTools.AvailabilityFromCalendarService` states the reply when it computes slots as `CalendarService.CheckAvailability` does. Its `createBooking` is recorded in the booking plan by its arguments only (`CalendarTools.BookingCalendarFirst`); the event it builds is not modelled.
- `utils/whatsappService.js` is not part of this model: which send throws is a parameter, and the value a send resolves to is not used.
- `crmService` and the e-mail service: the order e-mail is the last action of the booking plan, and the e-mail service catches its own errors, so its failure changes nothing (`BookingIgnoresCalendarAndEmailFailures`).
- `Date` objects and time zones: times are integer minutes after midnight in the business's zone, and a day is taken as 08:00 to 20:00; a session's `createdAt` time stamp (memory/sessionManager.js:15) is not kept, since nothing reads it.
- `CalendarService.FreeRanges`: a gap is compared with the duration in whole minutes (`60 * duration`), which agrees with the source's division into hours for whole-hour durations; fractional durations are not modelled.
- `CalendarTools.EndTime`: the tool schema declares `duration` a `NUMBER` (calendar/calendarTools.js:61, :100), but `ToolArgs.duration` is a whole number here, so a fractional duration is not modelled; the source would then write a fractional hour into the end time (`10:30` plus 1.5 gives `11.5:30`, calendar/calendarTools.js:154-155) and pass that text on to the calendar insertion (:157, :167). Durations of 1, 2 or 3 hours are what calendar/calendarService.js:27 documents.
- `CalendarTools.Bonuses`: the duration is a whole number here, so a fractional duration such as 2.5 (which the source compares with 3 at calendar/calendarTools.js:163, and so gives no champagne line) is not modelled.
- `CalendarTools.Balance`: `ToolArgs.totalPrice` is a whole number here although the schema declares it a `NUMBER` (calendar/calendarTools.js:104), so a fractional price, and the fractional balance the source would compute from it (:160), is not modelled.
- Timers (`setTimeout`), logging and performance timings: they do not change any result.
- Reading `transcriptions.json`: the transcription table is a parameter of `CleanTextForTTS`.
- `BotBehavior.TranscribeOne`: each transcription word is matched literally, not as a regular expression, and the replacement is inserted verbatim: the `$&`, `$$`, `$1` patterns that `String.prototype.replace` expands in a replacement string are not modelled.
- `JsString.ToLower`: only ASCII and Cyrillic capitals are lowered.
- `Conversation.ToNumber`: only digit strings, empty and all-blank strings are converted; other numeric forms (`1e2`, `0x1F`, `+5`, `1.5`) give NaN here.
- Keys such as `__proto__` in objects used as dictionaries: they are ordinary map keys here.
- The wording of the system prompt around its placeholders: `GetSystemPrompt` states only the four values substituted.
- Test drivers and configuration scripts.
- Concurrency between requests: every route is a step from one store to the next.
- `MessagingHandler.WhatsAppRoute`: a message without a `From` field makes the source throw before replying, and the model says only that no reply is produced (`Unanswered`).
- Tool parameters left undefined by the engine are read as missing values; a missing argument object is not modelled.
- `StreamingEngine.ProcessMessageStream`: the source calls a domain getter and setter that the session manager does not export, so every call fails after initialising the session and before generation; the generation path is modelled only through `HandleStreamResult`.
- `CalendarTools.EndTimeRoundTrip`: covers start fields of digits and whole, non-negative durations only.
- `Retriever.ContextForPrompt`: states that every block appears and the exact text for one document, not the exact joined text for several.
- `AnswerPhone.RespondStep`: the writes the conversation engine's `processMessage` makes to the session history (handlers/answer_phone.js:48-53) are not modelled; only the pending calls the route stores are.
- `AnswerPhone.ProcessToolStep`: the writes `handleToolCalls` makes to the session history (handlers/answer_phone.js:119) are not modelled; the engine's answer is a parameter.
- `CalendarService.CheckAvailabilitySlots`: promises ascending slots only when no event ends before it starts; an event listed with its end before its start can make two free ranges overlap.
- `StreamingEngine.Segment`: does not promise tag-free chunks, because the single removal pass of the source can leave a tag (see Findings).

## Findings

| source | as written | input that shows it | evidently intended | confidence | as-written member | corrected member |
|---|---|---|---|---|---|---|
| utils/streamingEngine.js:127 | one pass of the gender-tag replacement removes each match once and does not rescan the text it produces | `[GEN[GENDER:]DER:]` becomes `[GENDER:]`, a tag that is then spoken | the text sent to speech holds no `[GENDER:…]` tag | low, the input is contrived; not executed | StreamingEngine.StripTagsCanLeaveTag | StreamingEngine.StripTagsFully |

The corrected removal is proved to leave no tag and to change nothing in
tag-free text. The segmenter keeps the single pass, so its chunks are those
the source sends.
