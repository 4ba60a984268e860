/**
 * calendar/calendarService.js: free-slot computation over one day's
 * calendar listing, the booking event the service inserts, and the
 * slot-availability test.
 *
 * Time is measured in whole minutes from local midnight of the requested
 * date, so 08:00 is 480 and 20:00 is 1200. The calendar client is not part
 * of the model: what a listing returned (or that it failed) is a parameter.
 */
module CalendarService {
  import opened Optional
  import opened JsString
  import opened Conversation

  // ---------------------------------------------------------------------
  // Listings and busy intervals
  // ---------------------------------------------------------------------

  /** An event of a listing: its summary (if any) and its start and end. */
  datatype Event = Event(summary: Option<string>, start: int, end: int)

  /** What `calendar.events.list` gave: a failure, or a response whose `items` may be missing. */
  datatype Listing = ListFailed | Listed(items: Option<seq<Event>>)

  datatype Busy = Busy(start: int, end: int)

  /** `event.summary && event.summary.includes(yachtName)`. */
  predicate IsBusyFor(e: Event, yachtName: string) {
    e.summary.Some? && e.summary.value != [] && Includes(e.summary.value, yachtName)
  }

  /** The filter and map of lines 51-56: the matching events' intervals, in listing order. */
  function BusyFor(events: seq<Event>, yachtName: string): (busy: seq<Busy>)
    decreases |events|
    ensures |busy| <= |events|
    ensures forall e :: e in events && IsBusyFor(e, yachtName) ==> Busy(e.start, e.end) in busy
    ensures forall b :: b in busy ==> exists e :: e in events && IsBusyFor(e, yachtName) && b == Busy(e.start, e.end)
  {
    if events == [] then []
    else
      var rest := BusyFor(events[1..], yachtName);
      assert forall e :: e in events[1..] ==> e in events;
      assert forall e :: e in events ==> e == events[0] || e in events[1..];
      if IsBusyFor(events[0], yachtName) then [Busy(events[0].start, events[0].end)] + rest else rest
  }

  predicate SortedByStart(busy: seq<Busy>) {
    forall i, j :: 0 <= i < j < |busy| ==> busy[i].start <= busy[j].start
  }

  /** Inserts `b` into a sorted list after every interval that starts no later than it. */
  function InsertByStart(sorted: seq<Busy>, b: Busy): (r: seq<Busy>)
    requires SortedByStart(sorted)
    decreases |sorted|
    ensures SortedByStart(r)
    ensures multiset(r) == multiset(sorted) + multiset{b}
    ensures forall x :: x in r ==> x in sorted || x == b
  {
    if sorted == [] || sorted[|sorted| - 1].start <= b.start then
      sorted + [b]
    else
      var ins := InsertByStart(sorted[..|sorted| - 1], b);
      InsertStep(sorted, b, ins);
      ins + [sorted[|sorted| - 1]]
  }

  /** Putting back the last interval after inserting into the others keeps the order and the elements. */
  lemma InsertStep(sorted: seq<Busy>, b: Busy, ins: seq<Busy>)
    requires sorted != [] && SortedByStart(sorted) && b.start < sorted[|sorted| - 1].start
    requires SortedByStart(ins)
    requires multiset(ins) == multiset(sorted[..|sorted| - 1]) + multiset{b}
    requires forall x :: x in ins ==> x in sorted[..|sorted| - 1] || x == b
    ensures SortedByStart(ins + [sorted[|sorted| - 1]])
    ensures multiset(ins + [sorted[|sorted| - 1]]) == multiset(sorted) + multiset{b}
  {
    var init, last := sorted[..|sorted| - 1], sorted[|sorted| - 1];
    assert sorted == init + [last];
    forall x | x in ins ensures x.start <= last.start {
      if x != b {
        var i :| 0 <= i < |init| && init[i] == x;
        assert sorted[i] == x;
      }
    }
    AppendSorted(ins, last);
  }

  lemma AppendSorted(s: seq<Busy>, last: Busy)
    requires SortedByStart(s)
    requires forall x :: x in s ==> x.start <= last.start
    ensures SortedByStart(s + [last])
  {
    var r := s + [last];
    forall i, j | 0 <= i < j < |r| ensures r[i].start <= r[j].start {
      if j == |s| {
        assert r[i] in s;
      }
    }
  }

  /** `.sort((a, b) => a.start - b.start)`: a stable sort by start. */
  function SortByStart(busy: seq<Busy>): (r: seq<Busy>)
    decreases |busy|
    ensures SortedByStart(r)
    ensures multiset(r) == multiset(busy)
  {
    if busy == [] then []
    else
      assert busy == busy[..|busy| - 1] + [busy[|busy| - 1]];
      InsertByStart(SortByStart(busy[..|busy| - 1]), busy[|busy| - 1])
  }

  // ---------------------------------------------------------------------
  // Free ranges
  // ---------------------------------------------------------------------

  const DayStart: int := 8 * 60
  const DayEnd: int := 20 * 60

  datatype Range = Range(start: int, end: int)

  /** The free ranges found so far and the cursor `currentStart`. */
  datatype ScanState = ScanState(ranges: seq<Range>, cursor: int)

  /** A gap from `cursor` to `until` is kept when it is at least `duration` hours long. */
  predicate LongEnough(cursor: int, until: int, duration: int) {
    until - cursor >= 60 * duration
  }

  /** The `forEach` of lines 63-77 over the busy intervals of `busy`. */
  function Scan(busy: seq<Busy>, duration: int): (r: ScanState)
    decreases |busy|
    ensures |r.ranges| <= |busy| && r.cursor >= DayStart
  {
    if busy == [] then ScanState([], DayStart)
    else
      var st := Scan(busy[..|busy| - 1], duration);
      var b := busy[|busy| - 1];
      var ranges := if b.start > st.cursor && LongEnough(st.cursor, b.start, duration)
        then st.ranges + [Range(st.cursor, b.start)] else st.ranges;
      ScanState(ranges, if b.end > st.cursor then b.end else st.cursor)
  }

  /**
   * The free ranges of lines 60-86: the scan's ranges and then the rest of
   * the day. A range closes where a busy interval starts, or at 20:00.
   */
  function FreeRangesOf(busy: seq<Busy>, duration: int): (r: seq<Range>)
    ensures |r| <= |busy| + 1
    ensures forall k :: 0 <= k < |r| ==> r[k].end == DayEnd || exists j :: 0 <= j < |busy| && r[k].end == busy[j].start
  {
    var st := Scan(busy, duration);
    assert forall k :: 0 <= k < |st.ranges| ==> exists j :: 0 <= j < |busy| && st.ranges[k].end == busy[j].start by {
      forall k | 0 <= k < |st.ranges| ensures exists j :: 0 <= j < |busy| && st.ranges[k].end == busy[j].start {
        ScanRangesEndAtBusy(busy, duration, k);
      }
    }
    if st.cursor < DayEnd && LongEnough(st.cursor, DayEnd, duration) then st.ranges + [Range(st.cursor, DayEnd)]
    else st.ranges
  }

  /** The cursor never moves backwards: it is the latest of 08:00 and every busy end seen. */
  lemma {:induction false} ScanCursor(busy: seq<Busy>, duration: int)
    ensures Scan(busy, duration).cursor >= DayStart
    ensures forall j :: 0 <= j < |busy| ==> busy[j].end <= Scan(busy, duration).cursor
    ensures Scan(busy, duration).cursor == DayStart || exists j :: 0 <= j < |busy| && busy[j].end == Scan(busy, duration).cursor
  {
    if busy != [] {
      var init := busy[..|busy| - 1];
      ScanCursor(init, duration);
      var c := Scan(init, duration).cursor;
      forall j | 0 <= j < |busy| - 1 ensures busy[j].end <= Scan(busy, duration).cursor {
        assert busy[j] == init[j];
      }
      if c != DayStart && Scan(busy, duration).cursor == c {
        var j :| 0 <= j < |init| && init[j].end == c;
        assert busy[j] == init[j];
      }
    }
  }

  /** A busy interval that ends before the cursor leaves it where it is. */
  lemma ScanKeepsCursor(busy: seq<Busy>, b: Busy, duration: int)
    requires b.end <= Scan(busy, duration).cursor
    ensures Scan(busy + [b], duration).cursor == Scan(busy, duration).cursor
  {
    assert (busy + [b])[..|busy|] == busy;
  }

  /** Each range is non-empty, starts no earlier than 08:00 and lasts at least `duration` hours. */
  predicate RangesSized(rs: seq<Range>, duration: int) {
    forall k :: 0 <= k < |rs| ==> DayStart <= rs[k].start < rs[k].end && rs[k].end - rs[k].start >= 60 * duration
  }

  predicate RangesAscending(rs: seq<Range>) {
    forall k, l :: 0 <= k < l < |rs| ==> rs[k].end <= rs[l].start
  }

  /** No range overlaps a busy interval. */
  predicate RangesAvoid(rs: seq<Range>, busy: seq<Busy>) {
    forall k, j :: 0 <= k < |rs| && 0 <= j < |busy| ==> rs[k].end <= busy[j].start || busy[j].end <= rs[k].start
  }

  /** Every range the scan keeps starts no earlier than 08:00, is non-empty and is long enough. */
  lemma {:induction false} ScanRangesSized(busy: seq<Busy>, duration: int)
    ensures RangesSized(Scan(busy, duration).ranges, duration)
  {
    if busy != [] {
      ScanRangesSized(busy[..|busy| - 1], duration);
      ScanCursor(busy[..|busy| - 1], duration);
    }
  }

  /** A range the scan keeps ends where some busy interval starts. */
  lemma {:induction false} ScanRangesEndAtBusy(busy: seq<Busy>, duration: int, k: nat)
    requires k < |Scan(busy, duration).ranges|
    ensures exists j :: 0 <= j < |busy| && Scan(busy, duration).ranges[k].end == busy[j].start
  {
    var init := busy[..|busy| - 1];
    if k < |Scan(init, duration).ranges| {
      ScanRangesEndAtBusy(init, duration, k);
      var j :| 0 <= j < |init| && Scan(init, duration).ranges[k].end == init[j].start;
      assert busy[j] == init[j];
    } else {
      assert Scan(busy, duration).ranges[k].end == busy[|busy| - 1].start;
    }
  }

  /** With well-formed intervals the kept ranges ascend, do not overlap, and end by the cursor. */
  lemma {:induction false} ScanRangesOrdered(busy: seq<Busy>, duration: int)
    requires forall j :: 0 <= j < |busy| ==> busy[j].start <= busy[j].end
    ensures RangesAscending(Scan(busy, duration).ranges)
    ensures forall k :: 0 <= k < |Scan(busy, duration).ranges| ==>
      Scan(busy, duration).ranges[k].end <= Scan(busy, duration).cursor
  {
    if busy != [] {
      var init := busy[..|busy| - 1];
      var b := busy[|busy| - 1];
      ScanRangesOrdered(init, duration);
      var old_st := Scan(init, duration);
      var st := Scan(busy, duration);
      assert forall k :: 0 <= k < |old_st.ranges| ==> old_st.ranges[k].end <= old_st.cursor;
      assert b.start <= b.end;
      assert st.cursor >= old_st.cursor;
      if |st.ranges| > |old_st.ranges| {
        assert st.ranges == old_st.ranges + [Range(old_st.cursor, b.start)];
        assert st.cursor == b.end;
      } else {
        assert st.ranges == old_st.ranges;
      }
    }
  }

  /** With sorted intervals no kept range overlaps any busy interval. */
  lemma {:induction false} ScanRangesFree(busy: seq<Busy>, duration: int)
    requires SortedByStart(busy)
    ensures RangesAvoid(Scan(busy, duration).ranges, busy)
  {
    if busy != [] {
      var init := busy[..|busy| - 1];
      ScanRangesFree(init, duration);
      ScanCursor(init, duration);
      var rs := Scan(busy, duration).ranges;
      var old_rs := Scan(init, duration).ranges;
      var last := busy[|busy| - 1];
      forall k, j | 0 <= k < |rs| && 0 <= j < |busy|
        ensures rs[k].end <= busy[j].start || busy[j].end <= rs[k].start
      {
        if k < |old_rs| {
          if j < |init| {
            assert busy[j] == init[j];
          } else {
            ScanRangesEndAtBusy(init, duration, k);
          }
        }
      }
    }
  }

  /** Every free range is non-empty, lies after 08:00 and is at least `duration` hours long. */
  lemma FreeRangesSized(busy: seq<Busy>, duration: int)
    ensures RangesSized(FreeRangesOf(busy, duration), duration)
  {
    ScanCursor(busy, duration);
    ScanRangesSized(busy, duration);
  }

  /** When every busy interval starts by 20:00, every free range ends by 20:00. */
  lemma FreeRangesInDay(busy: seq<Busy>, duration: int)
    requires forall j :: 0 <= j < |busy| ==> busy[j].start <= DayEnd
    ensures forall k :: 0 <= k < |FreeRangesOf(busy, duration)| ==> FreeRangesOf(busy, duration)[k].end <= DayEnd
  {
    var st := Scan(busy, duration);
    forall k | 0 <= k < |st.ranges| ensures st.ranges[k].end <= DayEnd {
      ScanRangesEndAtBusy(busy, duration, k);
    }
  }

  /** With well-formed intervals the free ranges ascend without overlapping. */
  lemma FreeRangesAscending(busy: seq<Busy>, duration: int)
    requires forall j :: 0 <= j < |busy| ==> busy[j].start <= busy[j].end
    ensures RangesAscending(FreeRangesOf(busy, duration))
  {
    ScanRangesOrdered(busy, duration);
  }

  /** With intervals sorted by start, no free range overlaps a busy interval. */
  lemma FreeRangesAvoidBusy(busy: seq<Busy>, duration: int)
    requires SortedByStart(busy)
    ensures RangesAvoid(FreeRangesOf(busy, duration), busy)
  {
    ScanCursor(busy, duration);
    ScanRangesFree(busy, duration);
  }

  /**
   * Lines 60-86: inverts the sorted busy intervals into the free ranges of
   * the 08:00-20:00 day that are at least `duration` hours long.
   */
  method FreeRanges(busy: seq<Busy>, duration: int) returns (ranges: seq<Range>)
    ensures ranges == FreeRangesOf(busy, duration)
  {
    ranges := [];
    var currentStart := DayStart;
    var i := 0;
    while i < |busy|
      invariant 0 <= i <= |busy|
      invariant ScanState(ranges, currentStart) == Scan(busy[..i], duration)
    {
      assert busy[..i + 1][..i] == busy[..i];
      var b := busy[i];
      if b.start > currentStart {
        if b.start - currentStart >= 60 * duration {
          ranges := ranges + [Range(currentStart, b.start)];
        }
      }
      if b.end > currentStart {
        currentStart := b.end;
      }
      i := i + 1;
    }
    assert busy[..i] == busy;
    if currentStart < DayEnd {
      if DayEnd - currentStart >= 60 * duration {
        ranges := ranges + [Range(currentStart, DayEnd)];
      }
    }
  }

  /** With no matching events the whole day is one range, if the duration fits in twelve hours. */
  lemma FreeRangesEmptyDay(duration: int)
    ensures FreeRangesOf([], duration) == if duration <= 12 then [Range(DayStart, DayEnd)] else []
  {
  }

  // ---------------------------------------------------------------------
  // Slots as the bot sees them
  // ---------------------------------------------------------------------

  /** `d.getHours()` for a time `t` minutes after local midnight. */
  function HourOf(t: int): (h: nat)
    ensures h < 24
    ensures 0 <= t < 24 * 60 ==> h * 60 <= t < h * 60 + 60
  {
    (t / 60) % 24
  }

  /** A free range formatted for the bot; `startISO`/`endISO` are kept as the range's minutes. */
  datatype Slot = Slot(start: string, end: string, startMinute: int, endMinute: int, displayText: string)

  /** `"בין " + h1 + " ל-" + h2`, hours unpadded: both hours read back from their decimal digits. */
  function DisplayText(startHour: nat, endHour: nat): (t: string)
    ensures var a := |NatToString(startHour)|;
      && |t| == 7 + a + |NatToString(endHour)|
      && t[..4] == "בין " && t[4 + a..7 + a] == " ל-"
      && t[4..4 + a] == NatToString(startHour) && DigitsValue(t[4..4 + a]) == startHour
      && t[7 + a..] == NatToString(endHour) && DigitsValue(t[7 + a..]) == endHour
  {
    var a, b := NatToString(startHour), NatToString(endHour);
    var t := "בין " + a + " ל-" + b;
    assert t[4..4 + |a|] == a && t[7 + |a|..] == b;
    DigitsValueNatToString(startHour);
    DigitsValueNatToString(endHour);
    t
  }

  function SlotOf(r: Range): (s: Slot)
    ensures s.startMinute == r.start && s.endMinute == r.end
    ensures s.start == NatToString(HourOf(r.start)) && s.end == NatToString(HourOf(r.end))
    ensures DigitsValue(s.start) == HourOf(r.start) && DigitsValue(s.end) == HourOf(r.end)
    ensures s.displayText == "בין " + s.start + " ל-" + s.end
  {
    DigitsValueNatToString(HourOf(r.start));
    DigitsValueNatToString(HourOf(r.end));
    Slot(NatToString(HourOf(r.start)), NatToString(HourOf(r.end)), r.start, r.end,
         DisplayText(HourOf(r.start), HourOf(r.end)))
  }

  function SlotsOf(ranges: seq<Range>): (slots: seq<Slot>)
    ensures |slots| == |ranges|
    ensures forall k :: 0 <= k < |ranges| ==> slots[k] == SlotOf(ranges[k])
  {
    seq(|ranges|, k requires 0 <= k < |ranges| => SlotOf(ranges[k]))
  }

  /** A range inside the day is displayed with hours from 8 to 20. */
  lemma DisplayedHoursInDay(r: Range)
    requires DayStart <= r.start < r.end <= DayEnd
    ensures 8 <= DigitsValue(SlotOf(r).start) <= 20 && 8 <= DigitsValue(SlotOf(r).end) <= 20
  {
  }

  /**
   * `checkAvailability(date, duration = 3, yachtName)`: the free slots of the
   * day for the yacht, or None when the listing failed (the error is
   * rethrown).
   */
  function CheckAvailability(listing: Listing, duration: Option<int>, yachtName: string): (r: Option<seq<Slot>>)
    ensures listing.ListFailed? <==> r.None?
    ensures r.Some? ==> r.value == SlotsOf(FreeRangesOf(SortByStart(BusyFor(listing.items.GetOr([]), yachtName)), duration.GetOr(3)))
  {
    match listing
    case ListFailed => None
    case Listed(items) =>
      Some(SlotsOf(FreeRangesOf(SortByStart(BusyFor(items.GetOr([]), yachtName)), duration.GetOr(3))))
  }

  /**
   * What `checkAvailability` promises of a successful listing, for every
   * listing: each slot starts after 08:00 and lasts at least the requested
   * hours (3 by default), no slot overlaps an event naming the yacht, and,
   * when no listed event ends before it starts, the slots ascend without
   * overlapping one another.
   */
  lemma CheckAvailabilitySlots(items: Option<seq<Event>>, duration: Option<int>, yachtName: string)
    ensures CheckAvailability(Listed(items), duration, yachtName).Some?
    ensures var slots := CheckAvailability(Listed(items), duration, yachtName).value;
      forall k :: 0 <= k < |slots| ==>
        DayStart <= slots[k].startMinute < slots[k].endMinute && slots[k].endMinute - slots[k].startMinute >= 60 * duration.GetOr(3)
    ensures var slots := CheckAvailability(Listed(items), duration, yachtName).value;
      forall k, b :: 0 <= k < |slots| && b in BusyFor(items.GetOr([]), yachtName) ==>
        slots[k].endMinute <= b.start || b.end <= slots[k].startMinute
    ensures (forall e :: e in items.GetOr([]) ==> e.start <= e.end) ==>
      var slots := CheckAvailability(Listed(items), duration, yachtName).value;
      forall k, l :: 0 <= k < l < |slots| ==> slots[k].endMinute <= slots[l].startMinute
  {
    var busy := BusyFor(items.GetOr([]), yachtName);
    var sorted := SortByStart(busy);
    var d := duration.GetOr(3);
    var ranges := FreeRangesOf(sorted, d);
    var slots := SlotsOf(ranges);
    assert CheckAvailability(Listed(items), duration, yachtName).value == slots;
    FreeRangesSized(sorted, d);
    FreeRangesAvoidBusy(sorted, d);
    forall k, b | 0 <= k < |slots| && b in busy
      ensures slots[k].endMinute <= b.start || b.end <= slots[k].startMinute
    {
      assert b in multiset(sorted);
      var j :| 0 <= j < |sorted| && sorted[j] == b;
    }
    if forall e :: e in items.GetOr([]) ==> e.start <= e.end {
      forall j | 0 <= j < |sorted| ensures sorted[j].start <= sorted[j].end {
        assert sorted[j] in multiset(busy);
        assert sorted[j] in busy;
        var e :| e in items.GetOr([]) && IsBusyFor(e, yachtName) && sorted[j] == Busy(e.start, e.end);
      }
      FreeRangesAscending(sorted, d);
    }
  }

  // ---------------------------------------------------------------------
  // Bookings
  // ---------------------------------------------------------------------

  datatype Reminder = Reminder(via: string, minutes: nat)

  /** The request body of `createBooking`. */
  datatype BookingEvent = BookingEvent(
    summary: string,
    description: string,
    startDateTime: string,
    endDateTime: string,
    timeZone: string,
    reminders: seq<Reminder>)

  /** The fields of `clientInfo`, each possibly `undefined`. */
  datatype ClientInfo = ClientInfo(name: Option<string>, phone: Option<string>, duration: Option<int>, yachtName: Option<string>)

  const BookingPrefix: string := "Бронирование яхты "

  /** "Бронирование яхты <yacht> - <name>": the yacht right after the prefix, the client's name at the end. */
  function BookingSummary(info: ClientInfo): (s: string)
    ensures var y, n := Interp(info.yachtName), Interp(info.name);
      && |s| == |BookingPrefix| + |y| + 3 + |n|
      && s[..|BookingPrefix|] == BookingPrefix
      && s[|BookingPrefix|..|BookingPrefix| + |y|] == y
      && s[|BookingPrefix| + |y|..|BookingPrefix| + |y| + 3] == " - "
      && s[|s| - |n|..] == n
  {
    BookingPrefix + Interp(info.yachtName) + " - " + Interp(info.name)
  }

  /** The event `createBooking` inserts: both ends in Asia/Jerusalem, reminders a day (email) and an hour (popup) before. */
  function CreateBookingEvent(startDateTime: string, endDateTime: string, info: ClientInfo): (e: BookingEvent)
    ensures e.summary == BookingSummary(info)
    ensures e.startDateTime == startDateTime && e.endDateTime == endDateTime && e.timeZone == "Asia/Jerusalem"
    ensures e.reminders == [Reminder("email", 24 * 60), Reminder("popup", 60)]
    ensures e.description == "Клиент: " + Interp(info.name) + "\nТелефон: " + Interp(info.phone)
      + "\nДлительность: " + InterpNum(info.duration) + " час(а)"
  {
    BookingEvent(
      BookingSummary(info),
      "Клиент: " + Interp(info.name) + "\nТелефон: " + Interp(info.phone) + "\nДлительность: " + InterpNum(info.duration) + " час(а)",
      startDateTime, endDateTime, "Asia/Jerusalem",
      [Reminder("email", 24 * 60), Reminder("popup", 60)])
  }

  /** `isSlotAvailable`: true iff the listing succeeded and no listed event matches the yacht; false on any error. */
  function IsSlotAvailable(listing: Listing, yachtName: string): (free: bool)
    ensures listing.ListFailed? ==> !free
    ensures listing.Listed? ==> (free <==> forall e :: e in listing.items.GetOr([]) ==> !IsBusyFor(e, yachtName))
  {
    match listing
    case ListFailed => false
    case Listed(items) =>
      var busy := BusyFor(items.GetOr([]), yachtName);
      assert |busy| > 0 ==> busy[0] in busy;
      |busy| == 0
  }

  /** The summary of a booking names its yacht. */
  lemma SummaryNamesYacht(info: ClientInfo)
    ensures Includes(BookingSummary(info), Interp(info.yachtName))
  {
    var s := BookingSummary(info);
    var y := Interp(info.yachtName);
    assert s[|BookingPrefix|..|BookingPrefix| + |y|] == y;
    IncludesAt(s, y, |BookingPrefix|);
  }

  /**
   * Once a booking is in the calendar, any listing of its window that shows
   * it makes the slot unavailable for the same yacht.
   */
  lemma BookedSlotUnavailable(info: ClientInfo, events: seq<Event>, start: int, end: int)
    requires Event(Some(BookingSummary(info)), start, end) in events
    ensures !IsSlotAvailable(Listed(Some(events)), Interp(info.yachtName))
  {
    SummaryNamesYacht(info);
  }
}
