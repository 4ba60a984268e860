/**
 * The tool dispatcher of calendar/calendarTools.js: the year forcing applied
 * to availability queries, the reply strings of each tool, and the booking
 * confirmation (end-time arithmetic, deposit and balance, bonuses, and the
 * ordered list of outbound actions it performs).
 *
 * The Google Calendar client, the WhatsApp sender and the mail sender are not
 * part of this model: a `World` supplies the slots the calendar client finds
 * and says which outbound actions throw, and the dispatcher returns the
 * actions it attempted, in order, together with its reply.
 */
module CalendarTools {
  import opened Optional
  import opened JsString
  import opened Conversation
  import opened CalendarService

  const OwnerPhoneNumber: string := "+972533403449"
  const DefaultPaymentLink: string := "https://secure.cardcom.solutions/EA/EA5/5a2HEfT6E6KH1aSdcinQ/PaymentSP"

  // ---------------------------------------------------------------------
  // Year forcing
  // ---------------------------------------------------------------------

  /** A date that starts with a year 2020 to 2029. */
  predicate InTwenties(s: string) {
    |s| >= 4 && s[..3] == "202" && IsDigit(s[3])
  }

  /**
   * `forceYear2026(dateStr)`: a falsy date is returned as is; a leading year
   * 2020-2029 becomes 2026; any other string is unchanged.
   */
  function ForceYear2026(date: Option<string>): (r: Option<string>)
    ensures date.None? ==> r.None?
    ensures date.Some? ==> r.Some? && |r.value| == |date.value|
    ensures date.Some? && InTwenties(date.value) ==> r.value == "2026" + date.value[4..]
    ensures date.Some? && !InTwenties(date.value) ==> r == date
  {
    match date
    case None => None
    case Some(s) => if s != [] && InTwenties(s) then Some("2026" + s[4..]) else Some(s)
  }

  /** Forcing twice is forcing once, and a forced date in the twenties is in 2026. */
  lemma ForceYear2026Idempotent(date: Option<string>)
    ensures ForceYear2026(ForceYear2026(date)) == ForceYear2026(date)
    ensures date.Some? && InTwenties(date.value) ==> ForceYear2026(date).value[..4] == "2026"
  {
    if date.Some? && InTwenties(date.value) {
      var r := ForceYear2026(date).value;
      assert r[..3] == "202" && r[3] == '6';
      assert r[4..] == date.value[4..];
    }
  }

  // ---------------------------------------------------------------------
  // Booking arithmetic
  // ---------------------------------------------------------------------

  const Deposit: int := 500

  /** A numeric argument as JavaScript sees it: `undefined` in arithmetic is NaN. */
  function NumArg(x: Option<int>): (n: JsNum)
    ensures n.Num? <==> x.Some?
    ensures x.Some? ==> n.n == x.value
  {
    match x
    case Some(v) => Num(v)
    case None => NaN
  }

  /** `totalPrice - deposit`: deposit and balance add up to the total price. */
  function Balance(totalPrice: Option<int>): (b: JsNum)
    ensures b.Num? <==> totalPrice.Some?
    ensures b.Num? ==> Deposit + b.n == totalPrice.value
  {
    Plus(NumArg(totalPrice), Num(-Deposit))
  }

  const BaseBonuses: string := "בלונים בתוך היאכטה\n שלט \"מזל טוב\"\n מים"
  const ChampagneLine: string := "בקבוק שמפניה\n"

  /** The bonus list: the champagne line heads it iff the cruise lasts 3 hours or more. */
  function Bonuses(duration: Option<int>): (b: string)
    ensures |b| >= |BaseBonuses| && b[|b| - |BaseBonuses|..] == BaseBonuses
    ensures b == ChampagneLine + BaseBonuses <==> duration.Some? && duration.value >= 3
    ensures b == BaseBonuses <==> !(duration.Some? && duration.value >= 3)
  {
    if duration.Some? && duration.value >= 3 then ChampagneLine + BaseBonuses else BaseBonuses
  }

  /**
   * The end time of a booking: `startTime.split(':').map(Number)`, the hour
   * plus the duration and the minutes, each rendered and padded to two
   * characters, with no wrap past 24. A start time without a colon leaves
   * the minutes `undefined`, whose `toString` throws: None.
   */
  function EndTime(startTime: string, duration: Option<int>): (r: Option<string>)
    ensures r.Some? <==> ':' in startTime
  {
    var parts := Split(startTime, ':');
    CountSplit(startTime, ':');
    if |parts| < 2 then None
    else
      var endHours := Plus(ToNumber(parts[0]), NumArg(duration));
      Some(Clock(endHours, ToNumber(parts[1])))
  }

  /** `${hh}:${mm}` with each number rendered and padded to two characters. */
  function Clock(h: JsNum, m: JsNum): string {
    PadStart2(JsNumToString(h)) + ":" + PadStart2(JsNumToString(m))
  }

  /** `Count` is positive exactly when the character occurs. */
  lemma {:induction false} CountSplit(s: string, c: char)
    ensures Count(s, c) > 0 <==> c in s
  {
    if s != [] {
      CountSplit(s[1..], c);
      assert s == [s[0]] + s[1..];
    }
  }

  /** A leading zero does not change the value of a digit string. */
  lemma {:induction false} LeadingZero(s: string)
    requires forall i :: 0 <= i < |s| ==> IsDigit(s[i])
    ensures DigitsValue("0" + s) == DigitsValue(s)
  {
    if s != [] {
      LeadingZero(s[..|s| - 1]);
      assert ("0" + s)[..|s|] == "0" + s[..|s| - 1];
    }
  }

  /** Padding a decimal rendering keeps its digits and its value. */
  lemma PaddedValue(n: nat)
    ensures forall i :: 0 <= i < |PadStart2(NatToString(n))| ==> IsDigit(PadStart2(NatToString(n))[i])
    ensures DigitsValue(PadStart2(NatToString(n))) == n
  {
    var s := NatToString(n);
    DigitsValueNatToString(n);
    if |s| == 1 {
      assert PadStart2(s) == "0" + s;
      LeadingZero(s);
    } else if |s| == 0 {
      assert false;
    }
  }

  /** Splitting `p:q` on the colon gives back `p` and `q`. */
  lemma SplitPair(p: string, q: string)
    requires ':' !in p && ':' !in q
    ensures Split(p + ":" + q, ':') == [p, q]
  {
    assert Join([p, q], [':']) == p + ":" + q;
    SplitJoin([p, q], ':');
  }

  /** All characters of `s` are digits. */
  predicate Digits(s: string) {
    s != [] && forall i :: 0 <= i < |s| ==> IsDigit(s[i])
  }

  /** A digit string has no colon. */
  lemma DigitsNoColon(s: string)
    requires forall i :: 0 <= i < |s| ==> IsDigit(s[i])
    ensures ':' !in s
  {
  }

  /** A start time `hh:mm` of digits splits on its colon into its two fields. */
  lemma DigitClockSplits(hh: string, mm: string)
    requires Digits(hh) && Digits(mm)
    ensures Split(hh + ":" + mm, ':') == [hh, mm]
  {
    DigitsNoColon(hh);
    DigitsNoColon(mm);
    SplitPair(hh, mm);
  }

  /** The end time of a start time whose fields are digits: the hours plus the duration and the minutes, rendered and padded. */
  lemma EndTimeOf(start: string, hh: string, mm: string, d: nat)
    requires Digits(hh) && Digits(mm) && Split(start, ':') == [hh, mm]
    ensures EndTime(start, Some(d)).Some?
    ensures EndTime(start, Some(d)).value == Clock(Num(DigitsValue(hh) + d), Num(DigitsValue(mm)))
  {
    EndTimeFromParts(start, hh, mm, Some(d));
    EndHours(hh, d);
    DigitsNumber(mm);
  }

  /** The end hour of a digit start hour. */
  lemma EndHours(hh: string, d: nat)
    requires Digits(hh)
    ensures Plus(ToNumber(hh), NumArg(Some(d))) == Num(DigitsValue(hh) + d)
  {
    DigitsNumber(hh);
  }

  /** A digit string reads as the number it spells. */
  lemma DigitsNumber(s: string)
    requires Digits(s)
    ensures ToNumber(s) == Num(DigitsValue(s))
  {
  }

  /** A natural number renders as its decimal digits. */
  lemma Rendering(n: nat)
    ensures JsNumToString(Num(n)) == NatToString(n)
  {
  }

  /** The end time of a start time that splits into two fields. */
  lemma EndTimeFromParts(startTime: string, ph: string, pm: string, duration: Option<int>)
    requires Split(startTime, ':') == [ph, pm]
    ensures EndTime(startTime, duration).Some?
    ensures EndTime(startTime, duration).value == Clock(Plus(ToNumber(ph), NumArg(duration)), ToNumber(pm))
  {
  }

  /**
   * Reading back an end time: for a start time that splits into two digit
   * fields (as `hh:mm` does, by `DigitClockSplits`) and a whole number of
   * hours, the end time splits into two padded fields whose values are the
   * start hour plus the duration and the start minutes.
   */
  lemma EndTimeRoundTrip(start: string, hh: string, mm: string, d: nat)
    requires Digits(hh) && Digits(mm) && Split(start, ':') == [hh, mm]
    ensures EndTime(start, Some(d)).Some?
    ensures ReadClock(EndTime(start, Some(d)).value) == Some((Num(DigitsValue(hh) + d), Num(DigitsValue(mm))))
  {
    EndTimeFromParts(start, hh, mm, Some(d));
    EndHours(hh, d);
    DigitsNumber(mm);
    PaddedPair(DigitsValue(hh) + d, DigitsValue(mm));
  }

  /**
   * Reading a clock time back: the numbers of its two colon-separated
   * fields, when it has exactly two and each is at least two characters wide.
   */
  function ReadClock(t: string): Option<(JsNum, JsNum)> {
    var parts := Split(t, ':');
    if |parts| == 2 && |parts[0]| >= 2 && |parts[1]| >= 2 then Some((ToNumber(parts[0]), ToNumber(parts[1])))
    else None
  }

  /** Two padded numbers joined by a colon split back into two fields that read as the numbers. */
  lemma PaddedPair(h: nat, m: nat)
    ensures ReadClock(Clock(Num(h), Num(m))) == Some((Num(h), Num(m)))
  {
    var ph := PadStart2(NatToString(h));
    var pm := PadStart2(NatToString(m));
    assert Clock(Num(h), Num(m)) == ph + ":" + pm by {
      Rendering(h);
      Rendering(m);
    }
    PaddedField(h);
    PaddedField(m);
    SplitPair(ph, pm);
    assert Split(ph + ":" + pm, ':') == [ph, pm];
  }

  /** A padded rendering has no colon, is two characters or more, and reads back as the number. */
  lemma PaddedField(n: nat)
    ensures var p := PadStart2(NatToString(n));
      ':' !in p && |p| >= 2 && ToNumber(p) == Num(n)
  {
    var p := PadStart2(NatToString(n));
    PaddedValue(n);
    DigitsNoColon(p);
  }

  /** `${date}T${time}:00`, the ISO 8601 local date-time passed to the calendar. */
  function IsoDateTime(date: Option<string>, time: string): (s: string)
    ensures |s| == |Interp(date)| + |time| + 4
    ensures s[..|Interp(date)|] == Interp(date) && s[|Interp(date)|] == 'T'
    ensures s[|s| - 3..] == ":00"
  {
    Interp(date) + "T" + time + ":00"
  }

  // ---------------------------------------------------------------------
  // Outbound messages
  // ---------------------------------------------------------------------

  const TermsAndConditions: string :=
    "\n"
      + "*תנאי הזמנה ותנאי ביטול*\n"
      + "מומלץ להשתמש בכדורים נגד בחילה ללא מרשם כשעה לפני תחילת השייט!\n"
      + "\n"
      + "1. *הגעה בזמן:* יש להגיע בשעה הנקובה על מנת לקבל תדריך בטיחותי ולסיים את כל סידורי הניהול לפני היציאה.\n"
      + "\n"
      + "2. *רחצה בים:* הרחצה בים היא באחריות המתרחץ/ת בלבד.\n"
      + "* הירידה למים תתאפשר אך ורק על פי החלטתו הבלעדית של הסקיפר ובמידה ותנאי הים מאפשרים זאת.\n"
      + "* לא תתאפשר רחצה בשעות החשיכה.\n"
      + "* אין גרירת אבוב.\n"
      + "\n"
      + "3. *איחור לקוח:* כל איחור של הלקוח/ה ייגרע מזמן השייט הכולל שנקבע מראש. אין החזר כספי בגין איחור.\n"
      + "\n"
      + "4. *ביטוח:* היאכטות מבוטחות בביטוח צד ג\'.\n"
      + "\n"
      + "5. *ניקיון ואחריות לציוד אישי:*\n"
      + "* במידה ואתם מביאים איתכם אוכל ושתייה, אנא דאגו לפנות את האשפה ולהשאיר את היאכטה נקייה.\n"
      + "* במקרה והיאכטה לא תישאר נקייה, או אם פינוי היאכטה יתבצע לאחר המועד הנקוב, תחויבו בסך השווה לעלות שעת הפלגה אחת.\n"
      + "* אחריות במקרה של אובדן או נזק לטלפון סלולרי או כל פריט אחר הנופל למים תחול על המפליג/ה באופן בלעדי.\n"
      + "\n"
      + "6. *ליווי:* חובה נוכחות של מלווה מעל גיל 16 (מטעם הלקוח/ה) בכל הפלגה.\n"
      + "\n"
      + "7. *אלכוהול ואיסורים:*\n"
      + "* שתיית אלכוהול מתחת לגיל 18 אסורה בהחלט.\n"
      + "* אין להגיע להפלגה עם נרגילה או לעלות ליאכטה עם נרגילה.\n"
      + "* אסור בהחלט להפיץ קונפטי ביאכטה.\n"
      + "* אין אפשרות להגיע להפלגה עם מנגל או לעשות ברביקיו על היאכטה.\n"
      + "\n"
      + "8. *אחריות אישית:* על המזמין/ה חלה האחריות הבלעדית להבהיר את כל תנאי ההסכם המפורטים בחוזה זה לכל המוזמנים/ות מטעמו/ה.\n"
      + "\n"
      + "--------------------------------------\n"
      + "*מדיניות ביטולים ושינויים*\n"
      + "\n"
      + "9. *מזג אוויר:*\n"
      + "* האירוע עשוי להידחות במידה ומזג האוויר אינו מאפשר את קיומו בצורה בטוחה. במקרה כזה, ההפלגה תתואם למועד חלופי קרוב ביותר האפשרי. לא יינתן החזר כספי.\n"
      + "* \"לידר הפלגות\" אינה אחראית למצב הים ואינה אחראית לתחושות אינדיבידואליות.\n"
      + "\n"
      + "10. *ביטול הזמנה:*\n"
      + "* ביטול כנגד החזר כספי (למעט דמי טיפול 300 \U{20AA}) יתאפשר רק עד 14 ימים ממועד הפעילות.\n"
      + "* ביטול בין 14 ימים ל-48 שעות: ייגבו 50% מעלות האירוע.\n"
      + "* ביטול בתוך 48 שעות: יחויב המזמין/ה במחיר המלא.\n"
      + "\n"
      + "11. *כוח עליון:* במקרה של מלחמה או אסון טבע, תינתן אפשרות לדחות את המועד בלבד.\n"

  const ClosingNotice: string := "נא לשלוח לי צילום חשבונית שקיבלתם במייל."

  /**
   * The client's confirmation. The template's leading newline and trailing
   * indentation are what `.trim()` removes; both ends of the text are fixed
   * characters, so nothing else is removed: it opens with the addressee's
   * line and closes with the request for the invoice.
   */
  function BookingMessage(args: ToolArgs, startTime: string, endTime: string): (m: string)
    ensures |m| >= |Addressee(args)| + |ClosingNotice|
    ensures m[..|Addressee(args)|] == Addressee(args) && m[|m| - |ClosingNotice|..] == ClosingNotice
  {
    var h, l, t := BookingHead(args, startTime, endTime), Or(args.paymentLink, DefaultPaymentLink), BookingTail(args);
    OpensAndCloses(Addressee(args), BookingDetails(args, startTime, endTime), h, l, TailBody(args), ClosingNotice, t);
    h + l + t
  }

  /** A text built as `h + l + t`, with `h` opening with `a` and `t` closing with `c`, opens with `a` and closes with `c`. */
  lemma OpensAndCloses(a: string, d: string, h: string, l: string, b: string, c: string, t: string)
    requires h == a + d && t == b + c
    ensures |h + l + t| >= |a| + |c| && (h + l + t)[..|a|] == a && (h + l + t)[|h + l + t| - |c|..] == c
  {
    var m := h + l + t;
    assert m == a + (d + l + b) + c;
  }

  /** The addressee's line that opens the client's confirmation. */
  function Addressee(args: ToolArgs): string {
    "לכבוד: " + Interp(args.clientName) + "\n"
  }

  /** The client's confirmation up to the payment link. */
  function BookingHead(args: ToolArgs, startTime: string, endTime: string): string {
    Addressee(args) + BookingDetails(args, startTime, endTime)
  }

  /** The date, times, yacht and prices of the confirmation. */
  function BookingDetails(args: ToolArgs, startTime: string, endTime: string): string {
    "*אישור הזמנת שייט ביאכטה*\n\n"
      + "\U{1F4C5} *תאריך:* " + Interp(args.date) + "\n"
      + "\U{23F0} *שעה:* " + startTime + " - " + endTime + "\n"
      + "\U{2693} *יאכטה:* " + Interp(args.yachtName) + "\n\n"
      + "\U{1F4B0} *תשלום:*\n"
      + "סה\"כ: " + InterpNum(args.totalPrice) + " \U{20AA}\n"
      + "*מקדמה לתשלום כעת: " + IntToString(Deposit) + " \U{20AA}*\n\n"
      + "לתשלום המקדמה:\n"
  }

  /** The client's confirmation after the payment link: guide, balance, bonuses and the closing notice. */
  function BookingTail(args: ToolArgs): string {
    TailBody(args) + ClosingNotice
  }

  /** Guide, balance, bonuses and the notice's first line. */
  function TailBody(args: ToolArgs): string {
    "\n\n"
      + (if Truthy(args.guideLink) then "(מצורף מדריך: " + args.guideLink.value + ")" else "") + "\n\n"
      + "*יתרה לתשלום בשייט: " + JsNumToString(Balance(args.totalPrice)) + " \U{20AA}*\n\n"
      + "\U{1F381} *כולל:*\n"
      + Bonuses(args.duration) + "\n\n"
      + "\U{26A0}\U{FE0F} *שים לב:*\n"
      + "תשלום מקדמה מייבא אישורכם והסכמתכם על אישור הזמנה, תנאי ביטול, תנאי השכרת יאכטה.\n"
  }

  /**
   * The arrival directions, trimmed (the link at its end may leave trailing
   * space): the heading, the place and the navigation line always survive
   * the trim, and the text has no space at either end.
   */
  function LocationMessage(args: ToolArgs): (m: string)
    ensures var head := "\U{1F4CD} *הוראות הגעה:*\n" + Or(args.locationDesc, "מרינה") + "\n\nלניווט בוייז:";
      |m| >= |head| && m[..|head|] == head
    ensures Trimmed(m)
  {
    // The template, cut after the navigation line's colon.
    var head := "\U{1F4CD} *הוראות הגעה:*\n" + Or(args.locationDesc, "מרינה") + "\n\nלניווט בוייז:";
    var rest := "\n" + Or(args.locationLink, "") + "\n    ";
    TrimKeepsHead('\n', head, rest);
    Trim(['\n'] + head + rest)
  }

  const OwnerClosing: string := "(נשלח קישור לתשלום ללקוח)"

  /**
   * The owner's copy; as for the client's message, `.trim()` only removes
   * the template padding. It opens with the client's name and phone and
   * closes with the note that the payment link went to the client.
   */
  function OwnerMessage(args: ToolArgs, startTime: string): (m: string)
    ensures |m| >= |OwnerContact(args)| + |OwnerClosing|
    ensures m[..|OwnerContact(args)|] == OwnerContact(args) && m[|m| - |OwnerClosing|..] == OwnerClosing
  {
    var c, d := OwnerContact(args), OwnerDetails(args, startTime);
    assert (c + d + OwnerClosing)[..|c|] == c;
    assert (c + d + OwnerClosing)[|c + d|..] == OwnerClosing;
    c + d + OwnerClosing
  }

  /** The heading of the owner's copy with the client's name and phone. */
  function OwnerContact(args: ToolArgs): string {
    "\U{1F4B0} *הזמנה חדשה נוצרה!*\n"
      + "לקוח: " + Interp(args.clientName) + "\n"
      + "טלפון: " + Interp(args.clientPhone) + "\n"
  }

  /** The yacht, date and price of the owner's copy. */
  function OwnerDetails(args: ToolArgs, startTime: string): string {
    "יאכטה: " + Interp(args.yachtName) + "\n"
      + "תאריך: " + Interp(args.date) + " " + startTime + "\n"
      + "מחיר: " + InterpNum(args.totalPrice) + "\n"
  }

  // ---------------------------------------------------------------------
  // Outbound actions and their failures
  // ---------------------------------------------------------------------

  /**
   * The body of a WhatsApp send: one of the booking's texts, named by what
   * it is built from, or the free-form `messageBody` of a tool call.
   */
  datatype Body =
    | Confirmation(args: ToolArgs, startTime: string, endTime: string)
    | Directions(args: ToolArgs)
    | Terms
    | OwnerCopy(args: ToolArgs, startTime: string)
    | FreeText(text: Option<string>)

  /** The text handed to the sender; a missing `messageBody` is passed on as `undefined` (None). */
  function BodyText(b: Body): Option<string> {
    match b
    case Confirmation(args, startTime, endTime) => Some(BookingMessage(args, startTime, endTime))
    case Directions(args) => Some(LocationMessage(args))
    case Terms => Some(TermsAndConditions)
    case OwnerCopy(args, startTime) => Some(OwnerMessage(args, startTime))
    case FreeText(text) => text
  }

  /**
   * An action on the outside world, in the order the dispatcher performs
   * them. A calendar insertion is the call `createBooking(startISO, endISO,
   * clientInfo)` of `./googleCalendar`, recorded by its arguments.
   */
  datatype Outbound =
    | CalendarInsert(startDateTime: string, endDateTime: string, info: ClientInfo)
    | WhatsApp(to: Option<string>, body: Body)
    | OrderEmail(args: ToolArgs)

  /**
   * `require('./googleCalendar').checkAvailability(date, duration,
   * yachtName)`: the slots it finds, or None when it throws.
   */
  type Availability = (Option<string>, Option<int>, Option<string>) -> Option<seq<Slot>>

  /**
   * The collaborators: the calendar client's availability check, and which
   * outbound action of a call (by position) throws.
   */
  datatype World = World(availability: Availability, throws: nat -> bool)

  /**
   * Whether the action at position `k` ends the call in error: a calendar
   * insertion error is caught and logged, and the mail sender catches its
   * own failures and reports `false`, so only a WhatsApp send can.
   */
  predicate Fatal(plan: seq<Outbound>, throws: nat -> bool, k: nat)
    requires k < |plan|
  {
    throws(k) && plan[k].WhatsApp?
  }

  /** The position of the first fatal action at or after `k`. */
  function FirstFatal(plan: seq<Outbound>, throws: nat -> bool, k: nat): (r: Option<nat>)
    requires k <= |plan|
    ensures r.Some? ==> k <= r.value < |plan| && Fatal(plan, throws, r.value)
    ensures r.Some? ==> forall j :: k <= j < r.value ==> !Fatal(plan, throws, j)
    ensures r.None? ==> forall j :: k <= j < |plan| ==> !Fatal(plan, throws, j)
    decreases |plan| - k
  {
    if k == |plan| then None
    else if Fatal(plan, throws, k) then Some(k)
    else FirstFatal(plan, throws, k + 1)
  }

  /** Two worlds that agree on every fatal action stop a plan at the same place. */
  lemma FirstFatalAgrees(plan: seq<Outbound>, t1: nat -> bool, t2: nat -> bool)
    requires forall j :: 0 <= j < |plan| ==> Fatal(plan, t1, j) == Fatal(plan, t2, j)
    ensures FirstFatal(plan, t1, 0) == FirstFatal(plan, t2, 0)
  {
  }

  /** Performing a plan: the actions attempted, in order, and whether the last one returned. */
  datatype Performed = Performed(attempted: seq<Outbound>, completed: bool)

  function Perform(plan: seq<Outbound>, throws: nat -> bool): (p: Performed)
    ensures |p.attempted| <= |plan| && p.attempted == plan[..|p.attempted|]
    ensures p.completed <==> forall j :: 0 <= j < |plan| ==> !Fatal(plan, throws, j)
    ensures p.completed ==> p.attempted == plan
    ensures !p.completed ==> exists k :: (0 <= k < |plan| && Fatal(plan, throws, k)
      && p.attempted == plan[..k + 1] && forall j :: 0 <= j < k ==> !Fatal(plan, throws, j))
  {
    match FirstFatal(plan, throws, 0)
    case None => Performed(plan, true)
    case Some(k) => Performed(plan[..k + 1], false)
  }

  // ---------------------------------------------------------------------
  // The booking confirmation
  // ---------------------------------------------------------------------

  /**
   * The actions of `handleBookingConfirmation`, in order: the calendar
   * insertion, the client's confirmation, the directions iff a location
   * link is given, the terms, the owner's copy and the order email. None
   * when the start time is missing or has no colon: the error is thrown
   * before any action.
   */
  function BookingPlan(args: ToolArgs): (plan: Option<seq<Outbound>>)
    ensures plan.Some? <==> args.startTime.Some? && ':' in args.startTime.value
    ensures plan.Some? ==> |plan.value| == (if Truthy(args.locationLink) then 6 else 5)
  {
    match args.startTime
    case None => None
    case Some(startTime) =>
      match EndTime(startTime, args.duration)
      case None => None
      case Some(endTime) =>
        Some(Actions(args, startTime, endTime))
  }

  /** The booking's actions once the start and end times are known. */
  function Actions(args: ToolArgs, startTime: string, endTime: string): (plan: seq<Outbound>)
    ensures |plan| == |Messages(args, startTime, endTime)| + 2
    ensures plan[0].CalendarInsert? && plan[|plan| - 1] == OrderEmail(args)
    ensures plan[1..|plan| - 1] == Messages(args, startTime, endTime)
  {
    var info := ClientInfo(args.clientName, args.clientPhone, args.duration, args.yachtName);
    [CalendarInsert(IsoDateTime(args.date, startTime), IsoDateTime(args.date, endTime), info)]
      + Messages(args, startTime, endTime) + [OrderEmail(args)]
  }

  /**
   * The WhatsApp sends of a booking, in order: confirmation, directions iff
   * a location link is given, terms, and the owner's copy.
   */
  function Messages(args: ToolArgs, startTime: string, endTime: string): (sends: seq<Outbound>)
    ensures |sends| == (if Truthy(args.locationLink) then 4 else 3)
    ensures forall k :: 0 <= k < |sends| ==> sends[k].WhatsApp?
    ensures sends[0] == WhatsApp(args.clientPhone, Confirmation(args, startTime, endTime))
    ensures Truthy(args.locationLink) ==> sends[1] == WhatsApp(args.clientPhone, Directions(args))
    ensures sends[|sends| - 2] == WhatsApp(args.clientPhone, Terms)
    ensures sends[|sends| - 1] == WhatsApp(Some(OwnerPhoneNumber), OwnerCopy(args, startTime))
  {
    [WhatsApp(args.clientPhone, Confirmation(args, startTime, endTime))]
      + (if Truthy(args.locationLink) then [WhatsApp(args.clientPhone, Directions(args))] else [])
      + [WhatsApp(args.clientPhone, Terms),
         WhatsApp(Some(OwnerPhoneNumber), OwnerCopy(args, startTime))]
  }

  /** The calendar insertion comes first and books the window from the start to the computed end, for the client, phone, duration and yacht given. */
  lemma BookingCalendarFirst(args: ToolArgs, startTime: string, endTime: string)
    requires args.startTime == Some(startTime) && EndTime(startTime, args.duration) == Some(endTime)
    ensures BookingPlan(args).Some? && BookingPlan(args).value[0].CalendarInsert?
    ensures BookingPlan(args).value[0].startDateTime == IsoDateTime(args.date, startTime)
    ensures BookingPlan(args).value[0].endDateTime == IsoDateTime(args.date, endTime)
    ensures BookingPlan(args).value[0].info == ClientInfo(args.clientName, args.clientPhone, args.duration, args.yachtName)
  {
  }

  /**
   * What the booking plan sends to whom, in order: the confirmation to the
   * client, the directions iff a location link is given, the terms, the
   * owner's copy, and last the order email.
   */
  lemma BookingSendOrder(args: ToolArgs, startTime: string, endTime: string)
    requires args.startTime == Some(startTime) && EndTime(startTime, args.duration) == Some(endTime)
    ensures BookingPlan(args).Some?
    ensures var plan := BookingPlan(args).value;
      && plan[1] == WhatsApp(args.clientPhone, Confirmation(args, startTime, endTime))
      && (Truthy(args.locationLink) ==> plan[2] == WhatsApp(args.clientPhone, Directions(args)))
      && plan[|plan| - 3] == WhatsApp(args.clientPhone, Terms)
      && plan[|plan| - 2] == WhatsApp(Some(OwnerPhoneNumber), OwnerCopy(args, startTime))
      && plan[|plan| - 1] == OrderEmail(args)
  {
    assert BookingPlan(args) == Some(Actions(args, startTime, endTime));
    ActionsOrder(args, startTime, endTime);
  }

  /** The order of the actions once the times are known. */
  lemma ActionsOrder(args: ToolArgs, startTime: string, endTime: string)
    ensures var plan := Actions(args, startTime, endTime);
      && plan[1] == WhatsApp(args.clientPhone, Confirmation(args, startTime, endTime))
      && (Truthy(args.locationLink) ==> plan[2] == WhatsApp(args.clientPhone, Directions(args)))
      && plan[|plan| - 3] == WhatsApp(args.clientPhone, Terms)
      && plan[|plan| - 2] == WhatsApp(Some(OwnerPhoneNumber), OwnerCopy(args, startTime))
  {
    var plan := Actions(args, startTime, endTime);
    var sends := Messages(args, startTime, endTime);
    assert plan[1] == sends[0];
    assert plan[|plan| - 3] == sends[|sends| - 2];
    assert plan[|plan| - 2] == sends[|sends| - 1];
  }

  /** Between the calendar insertion and the order email, every action of a booking is a WhatsApp send. */
  lemma BookingPlanShape(args: ToolArgs)
    requires BookingPlan(args).Some?
    ensures var plan := BookingPlan(args).value;
      && plan[0].CalendarInsert? && plan[|plan| - 1].OrderEmail?
      && forall j :: 0 < j < |plan| - 1 ==> plan[j].WhatsApp?
  {
    var plan := BookingPlan(args).value;
    var sends := Messages(args, args.startTime.value, EndTime(args.startTime.value, args.duration).value);
    assert plan == [plan[0]] + sends + [plan[|plan| - 1]];
    forall j | 0 < j < |plan| - 1 ensures plan[j].WhatsApp? {
      assert plan[j] == sends[j - 1];
    }
  }

  /** The booking message carries the payment link, or the default one when none is given. */
  lemma BookingMessagePaymentLink(args: ToolArgs, startTime: string, endTime: string)
    ensures Includes(BookingMessage(args, startTime, endTime), Or(args.paymentLink, DefaultPaymentLink))
  {
    var link := Or(args.paymentLink, DefaultPaymentLink);
    assert Includes(link, link) by {
      assert link[0..|link|] == link;
      IncludesAt(link, link, 0);
    }
    IncludesShift(BookingHead(args, startTime, endTime), link, BookingTail(args), link);
  }

  // ---------------------------------------------------------------------
  // Dispatch
  // ---------------------------------------------------------------------

  const NoSlotsText: string := "אין שעות פנויות."
  const SlotsPrefix: string := "שעות פנויות: "
  const MessageSentText: string := "Message sent."
  const NotImplementedText: string := "Function not implemented."
  const ToolErrorText: string := "Error executing tool."
  const BookingDoneText: string := "כל הפרטים נשלחו ללקוח, לבעלים, ולמייל."

  /** The reply of a tool call and the outbound actions it attempted. */
  datatype Dispatched = Dispatched(result: ToolResult, attempted: seq<Outbound>)

  function DisplayTexts(slots: seq<Slot>): (ts: seq<string>)
    ensures |ts| == |slots| && forall k :: 0 <= k < |slots| ==> ts[k] == slots[k].displayText
  {
    seq(|slots|, k requires 0 <= k < |slots| => slots[k].displayText)
  }

  /**
   * The availability reply for the slots found: the no-slots text, or the
   * prefix and the slots' texts joined by ", ", in the order found.
   */
  function SlotsReply(slots: seq<Slot>): (text: string)
    ensures |slots| == 0 <==> text == NoSlotsText
    ensures slots != [] ==> text == SlotsPrefix + Join(DisplayTexts(slots), ", ")
    ensures forall k :: 0 <= k < |slots| ==> Includes(text, slots[k].displayText)
  {
    if |slots| == 0 then NoSlotsText
    else
      var text := SlotsPrefix + Join(DisplayTexts(slots), ", ");
      assert text[0] != NoSlotsText[0];
      forall k | 0 <= k < |slots| ensures Includes(text, slots[k].displayText) {
        JoinIncludes(DisplayTexts(slots), ", ", k);
        IncludesShift(SlotsPrefix, Join(DisplayTexts(slots), ", "), "", slots[k].displayText);
        assert SlotsPrefix + Join(DisplayTexts(slots), ", ") + "" == text;
      }
      text
  }

  /** The tools the dispatcher tells apart by name. */
  datatype Tool = CheckYachtAvailability | TransferToSupport | SendWhatsAppMessage | SendBookingConfirmation | OtherTool

  function ToolOf(name: string): (t: Tool)
    ensures t == CheckYachtAvailability <==> name == "check_yacht_availability"
    ensures t == TransferToSupport <==> name == "transfer_to_support"
    ensures t == SendWhatsAppMessage <==> name == "send_whatsapp_message"
    ensures t == SendBookingConfirmation <==> name == "send_booking_confirmation"
    ensures t == OtherTool <==> name !in {"check_yacht_availability", "transfer_to_support", "send_whatsapp_message", "send_booking_confirmation"}
  {
    if name == "check_yacht_availability" then CheckYachtAvailability
    else if name == "transfer_to_support" then TransferToSupport
    else if name == "send_whatsapp_message" then SendWhatsAppMessage
    else if name == "send_booking_confirmation" then SendBookingConfirmation
    else OtherTool
  }

  /** Each tool's own name selects it. */
  lemma ToolNames()
    ensures ToolOf("check_yacht_availability") == CheckYachtAvailability
    ensures ToolOf("transfer_to_support") == TransferToSupport
    ensures ToolOf("send_whatsapp_message") == SendWhatsAppMessage
    ensures ToolOf("send_booking_confirmation") == SendBookingConfirmation
  {
  }

  /**
   * `handleFunctionCall(name, args)`: the availability check (on the date
   * with its year forced), the operator transfer, a free-form WhatsApp
   * message and the booking confirmation; every other name, including the
   * declared `save_client_data`, is not implemented. An exception anywhere
   * becomes the error reply.
   */
  function HandleFunctionCall(call: FunctionCall, world: World): (d: Dispatched)
    ensures call.name == "transfer_to_support" ==> d == Dispatched(TransferToOperator, [])
    ensures ToolOf(call.name) == OtherTool ==> d == Dispatched(TextResult(NotImplementedText), [])
    ensures call.name == "check_yacht_availability" ==> d.attempted == []
  {
    var args := call.args;
    match ToolOf(call.name)
    case CheckYachtAvailability =>
      (match world.availability(ForceYear2026(args.date), args.duration, args.yachtName)
       case None => Dispatched(TextResult(ToolErrorText), [])
       case Some(slots) => Dispatched(TextResult(SlotsReply(slots)), []))
    case TransferToSupport => Dispatched(TransferToOperator, [])
    case SendWhatsAppMessage => MessageCall(args, world.throws)
    case SendBookingConfirmation => BookingCall(args, world.throws)
    case OtherTool => Dispatched(TextResult(NotImplementedText), [])
  }

  /** Every name other than the four tools' is not implemented. */
  lemma UnknownToolNotImplemented(call: FunctionCall, world: World)
    requires call.name !in {"check_yacht_availability", "transfer_to_support", "send_whatsapp_message", "send_booking_confirmation"}
    ensures HandleFunctionCall(call, world) == Dispatched(TextResult(NotImplementedText), [])
  {
  }

  /**
   * `send_whatsapp_message`: one send of the message body to the client's
   * phone, attempted whether or not it throws; the reply says it went iff
   * the sender returned.
   */
  function MessageCall(args: ToolArgs, throws: nat -> bool): (d: Dispatched)
    ensures d.attempted == [WhatsApp(args.clientPhone, FreeText(args.messageBody))]
    ensures d.result == TextResult(if throws(0) then ToolErrorText else MessageSentText)
  {
    var plan := [WhatsApp(args.clientPhone, FreeText(args.messageBody))];
    var p := Perform(plan, throws);
    assert Fatal(plan, throws, 0) == throws(0);
    Dispatched(TextResult(if p.completed then MessageSentText else ToolErrorText), p.attempted)
  }

  /**
   * `send_booking_confirmation`: the booking plan performed, or the error
   * reply when there is none. The actions attempted are a prefix of the
   * plan, and the client is told all was sent iff no send threw.
   */
  function BookingCall(args: ToolArgs, throws: nat -> bool): (d: Dispatched)
    ensures BookingPlan(args).None? ==> d == Dispatched(TextResult(ToolErrorText), [])
    ensures BookingPlan(args).Some? ==>
      |d.attempted| <= |BookingPlan(args).value| && d.attempted == BookingPlan(args).value[..|d.attempted|]
    ensures d.result == TextResult(BookingDoneText) <==>
      BookingPlan(args).Some? && forall j :: 0 <= j < |BookingPlan(args).value| ==> !Fatal(BookingPlan(args).value, throws, j)
    ensures d.result != TextResult(BookingDoneText) ==> d.result == TextResult(ToolErrorText)
  {
    match BookingPlan(args)
    case None => Dispatched(TextResult(ToolErrorText), [])
    case Some(plan) =>
      var p := Perform(plan, throws);
      Dispatched(TextResult(if p.completed then BookingDoneText else ToolErrorText), p.attempted)
  }

  /**
   * The availability reply: the calendar client is asked about the date
   * with its year forced; the error reply when it throws, otherwise the
   * reply for the slots it found. No outbound action is taken.
   */
  lemma AvailabilityReply(call: FunctionCall, world: World)
    requires call.name == "check_yacht_availability"
    ensures var found := world.availability(ForceYear2026(call.args.date), call.args.duration, call.args.yachtName);
      found.None? ==> HandleFunctionCall(call, world) == Dispatched(TextResult(ToolErrorText), [])
    ensures var found := world.availability(ForceYear2026(call.args.date), call.args.duration, call.args.yachtName);
      found.Some? ==> HandleFunctionCall(call, world) == Dispatched(TextResult(SlotsReply(found.value)), [])
  {
    assert ToolOf(call.name) == CheckYachtAvailability;
  }

  /**
   * When the calendar client computes its slots as `CalendarService` does
   * on the listing of the forced date: the error reply when the listing
   * fails, the no-slots text iff no free range is long enough, and
   * otherwise a text naming every free range found.
   */
  lemma AvailabilityFromCalendarService(call: FunctionCall, world: World, listing: Listing)
    requires call.name == "check_yacht_availability"
    requires world.availability(ForceYear2026(call.args.date), call.args.duration, call.args.yachtName)
      == CheckAvailability(listing, call.args.duration, Interp(call.args.yachtName))
    ensures listing.ListFailed? ==> HandleFunctionCall(call, world) == Dispatched(TextResult(ToolErrorText), [])
    ensures listing.Listed? ==>
      var ranges := FreeRangesOf(SortByStart(BusyFor(listing.items.GetOr([]), Interp(call.args.yachtName))), call.args.duration.GetOr(3));
      && HandleFunctionCall(call, world).result.TextResult?
      && (HandleFunctionCall(call, world).result.text == NoSlotsText <==> ranges == [])
      && forall k :: 0 <= k < |ranges| ==> Includes(HandleFunctionCall(call, world).result.text, SlotOf(ranges[k]).displayText)
  {
    AvailabilityReply(call, world);
  }

  /** A free-form message is one send to the given number; the reply says it went iff the sender returned. */
  lemma SendMessageReply(call: FunctionCall, world: World)
    requires call.name == "send_whatsapp_message"
    ensures HandleFunctionCall(call, world).attempted == [WhatsApp(call.args.clientPhone, FreeText(call.args.messageBody))]
    ensures HandleFunctionCall(call, world).result == TextResult(MessageSentText) <==> !world.throws(0)
    ensures world.throws(0) ==> HandleFunctionCall(call, world).result == TextResult(ToolErrorText)
  {
    assert HandleFunctionCall(call, world) == MessageCall(call.args, world.throws);
    assert Fatal([WhatsApp(call.args.clientPhone, FreeText(call.args.messageBody))], world.throws, 0) == world.throws(0);
  }

  /** A booking without a usable start time fails before touching the calendar or any sender. */
  lemma BookingNeedsStartTime(call: FunctionCall, world: World)
    requires call.name == "send_booking_confirmation"
    requires call.args.startTime.None? || ':' !in call.args.startTime.value
    ensures HandleFunctionCall(call, world) == Dispatched(TextResult(ToolErrorText), [])
  {
    assert HandleFunctionCall(call, world) == BookingCall(call.args, world.throws);
  }

  /** When no sender throws, every planned action is performed and the client is told all was sent. */
  lemma BookingCompletes(call: FunctionCall, world: World)
    requires call.name == "send_booking_confirmation" && BookingPlan(call.args).Some?
    requires forall j :: 0 <= j < |BookingPlan(call.args).value| ==> !world.throws(j)
    ensures HandleFunctionCall(call, world) == Dispatched(TextResult(BookingDoneText), BookingPlan(call.args).value)
  {
    BookingDispatch(call, world);
  }

  /**
   * When a WhatsApp send throws, the reply is the error text and the actions
   * stop at that send; the calendar insertion has always been attempted
   * first and the order email never is.
   */
  lemma BookingStopsAtFailedSend(call: FunctionCall, world: World)
    requires call.name == "send_booking_confirmation" && BookingPlan(call.args).Some?
    requires !Perform(BookingPlan(call.args).value, world.throws).completed
    ensures var plan := BookingPlan(call.args).value;
      var d := HandleFunctionCall(call, world);
      && d.result == TextResult(ToolErrorText)
      && 2 <= |d.attempted| < |plan|
      && d.attempted == plan[..|d.attempted|]
      && d.attempted[0].CalendarInsert?
      && d.attempted[|d.attempted| - 1].WhatsApp?
  {
    BookingPlanShape(call.args);
    BookingDispatch(call, world);
    StoppedPlan(BookingPlan(call.args).value, world.throws);
  }

  /** A plan that opens with the insertion and closes with the email stops, if at all, at a send in between. */
  lemma StoppedPlan(plan: seq<Outbound>, throws: nat -> bool)
    requires |plan| >= 2 && plan[0].CalendarInsert? && plan[|plan| - 1].OrderEmail?
    requires !Perform(plan, throws).completed
    ensures var a := Perform(plan, throws).attempted;
      2 <= |a| < |plan| && a == plan[..|a|] && a[0].CalendarInsert? && a[|a| - 1].WhatsApp?
  {
    var k := FirstFatal(plan, throws, 0).value;
    assert Perform(plan, throws).attempted == plan[..k + 1];
    assert k != 0 && k != |plan| - 1;
  }

  /**
   * A failing calendar insertion or a failing order email changes nothing:
   * two worlds that differ only there give the same reply and the same
   * actions.
   */
  lemma BookingIgnoresCalendarAndEmailFailures(call: FunctionCall, availability: Availability, t1: nat -> bool, t2: nat -> bool)
    requires call.name == "send_booking_confirmation" && BookingPlan(call.args).Some?
    requires forall j :: 0 < j < |BookingPlan(call.args).value| - 1 ==> t1(j) == t2(j)
    ensures HandleFunctionCall(call, World(availability, t1)) == HandleFunctionCall(call, World(availability, t2))
  {
    var plan := BookingPlan(call.args).value;
    BookingPlanShape(call.args);
    forall j | 0 <= j < |plan| && plan[j].WhatsApp? ensures t1(j) == t2(j) {
      assert 0 < j < |plan| - 1;
    }
    PerformAgrees(plan, t1, t2);
    BookingDispatch(call, World(availability, t1));
    BookingDispatch(call, World(availability, t2));
  }

  /** The booking dispatch performs the plan and replies by whether it completed. */
  lemma BookingDispatch(call: FunctionCall, world: World)
    requires call.name == "send_booking_confirmation" && BookingPlan(call.args).Some?
    ensures var p := Perform(BookingPlan(call.args).value, world.throws);
      HandleFunctionCall(call, world) == Dispatched(TextResult(if p.completed then BookingDoneText else ToolErrorText), p.attempted)
  {
    ToolNames();
    BookingRoute(call, world);
    BookingCallPerforms(call.args, world.throws);
  }

  lemma BookingRoute(call: FunctionCall, world: World)
    requires ToolOf(call.name) == SendBookingConfirmation
    ensures HandleFunctionCall(call, world) == BookingCall(call.args, world.throws)
  {
  }

  lemma BookingCallPerforms(args: ToolArgs, throws: nat -> bool)
    requires BookingPlan(args).Some?
    ensures var p := Perform(BookingPlan(args).value, throws);
      BookingCall(args, throws) == Dispatched(TextResult(if p.completed then BookingDoneText else ToolErrorText), p.attempted)
  {
  }

  /** Throw decisions at actions other than WhatsApp sends do not affect a plan's performance. */
  lemma PerformAgrees(plan: seq<Outbound>, t1: nat -> bool, t2: nat -> bool)
    requires forall j :: 0 <= j < |plan| && plan[j].WhatsApp? ==> t1(j) == t2(j)
    ensures Perform(plan, t1) == Perform(plan, t2)
  {
    forall j | 0 <= j < |plan| ensures Fatal(plan, t1, j) == Fatal(plan, t2, j) {
      if plan[j].WhatsApp? {
        assert t1(j) == t2(j);
      }
    }
    FirstFatalAgrees(plan, t1, t2);
  }
}
