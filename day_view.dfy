/**
 * The day view (components/calendar/DayView.tsx): the hour rows and their labels, the
 * tappable hour and half-hour lines, the initial scroll position, the cross-midnight display
 * clamp applied to the engine's rectangles, and the rule that shows a meeting's summary line.
 *
 * The view hands the layout engine of module Packer its width less the 59-pixel label margin
 * and its own `start` hour as the day origin.
 */
module DayView {
  import opened Wrappers
  import opened Packer

  /** `LEFT_MARGIN`: the hour-label gutter, 60 − 1 pixels. */
  const LeftMargin: real := 59.0
  /** `CALENDER_HEIGHT`: the 24-hour content height. */
  const CalendarHeight: real := 2400.0
  /** `TEXT_LINE_HEIGHT`: pixels per line of meeting text. */
  const TextLineHeight: real := 17.0
  /** The `top` the engine gives a meeting at 23:30 of its own day when the day starts at 0:00. */
  const BottomHalfHour: real := 2350.0

  // ---------------------------------------------------------------------------------------------
  // Hour rows
  // ---------------------------------------------------------------------------------------------

  /** `range(from, to)`: `to` consecutive integers from `from` (`Array(to)` sets the count). */
  function Range(from: int, to: nat): (r: seq<int>)
    ensures |r| == to
    ensures forall k :: 0 <= k < to ==> r[k] == from + k
  {
    seq(to, k requires 0 <= k < to => from + k)
  }

  /** The rows `renderLines` draws as written: `range(start, end + 1)`, i.e. hours start .. start + end. */
  function RowsAsWritten(start: int, end: int): (r: seq<int>)
    requires end + 1 >= 0
    ensures |r| == end + 1
    ensures end >= 0 ==> r[0] == start && r[|r| - 1] == start + end
  {
    Range(start, end + 1)
  }

  /** The rows the view means to draw: one per hour from `start` to `end`, both included. */
  function HourRows(start: int, end: int): (r: seq<int>)
    requires start <= end
    ensures |r| == end - start + 1
    ensures r[0] == start && r[|r| - 1] == end
    ensures forall k :: 0 <= k < |r| ==> r[k] == start + k
  {
    Range(start, end - start + 1)
  }

  /** From midnight, the rows as written are exactly the intended ones. */
  lemma RowsAgreeFromMidnight(end: nat)
    ensures RowsAsWritten(0, end) == HourRows(0, end)
  {
  }

  /**
   * A day view from 8 to 20 draws 21 rows, hours 8 .. 28, instead of the 13 rows 8 .. 20; the
   * lines of rows 13 .. 20 sit below the 1200-pixel calendar.
   */
  lemma RowsOverrunFromEight()
    ensures |RowsAsWritten(8, 20)| == 21 && RowsAsWritten(8, 20)[20] == 28
    ensures |HourRows(8, 20)| == 13
    ensures RowsAsWritten(8, 20) != HourRows(8, 20)
    ensures LineTop(20, 1200.0, 8, 20) > 1200.0
  {
  }

  // ---------------------------------------------------------------------------------------------
  // Hour labels
  // ---------------------------------------------------------------------------------------------

  datatype Meridiem = AM | PM

  /** A row label: `"<hour> AM"` / `"<hour> PM"` on the 12-hour clock, or a bare number in 24h mode. */
  datatype TimeText = Clock(hour: int, meridiem: Meridiem) | Number(n: int)

  /**
   * The `timeText` chain of `renderLines` for row hour `i`: the 12-hour clock always gives a
   * clock label, 24-hour mode a bare number on every row but the first, and a clock label for
   * the first row or an hour from 1 to 24 names a clock hour from 1 to 12.
   */
  function HourLabel(i: int, start: int, format24h: bool): (t: TimeText)
    ensures !format24h ==> t.Clock?
    ensures format24h ==> (t.Number? <==> i != start)
    ensures t.Clock? && (i == start || 1 <= i <= 24) ==> 1 <= t.hour <= 12
  {
    if i == start then Clock(12, AM)
    else if i < 12 then (if !format24h then Clock(i, AM) else Number(i))
    else if i == 12 then (if !format24h then Clock(12, PM) else Number(12))
    else if i == 24 then (if !format24h then Clock(12, AM) else Number(0))
    else (if !format24h then Clock(i - 12, PM) else Number(i))
  }

  /** The hour of the day (0 .. 23) a 12-hour clock label names. */
  function ClockHour(t: TimeText): int
    requires t.Clock?
  {
    t.hour % 12 + (if t.meridiem == PM then 12 else 0)
  }

  /** The first row reads "12 AM" whatever `start` is, in either mode. */
  lemma StartRowReadsMidnight(start: int, format24h: bool)
    ensures HourLabel(start, start, format24h) == Clock(12, AM)
  {
  }

  /**
   * From midnight, the 12-hour labels of rows 0 .. 24 read 1 .. 12 with AM or PM and name
   * hour `i mod 24` of the day.
   */
  lemma TwelveHourLabelsNameTheHour(i: int)
    requires 0 <= i <= 24
    ensures HourLabel(i, 0, false).Clock?
    ensures 1 <= HourLabel(i, 0, false).hour <= 12
    ensures ClockHour(HourLabel(i, 0, false)) == i % 24
  {
  }

  /** In 24h mode every row but the first is labelled with its hour of the day, 24 reading 0. */
  lemma TwentyFourHourLabels(i: int, start: int)
    requires 0 <= i <= 24 && i != start
    ensures HourLabel(i, start, true) == Number(i % 24)
  {
  }

  // ---------------------------------------------------------------------------------------------
  // Lines
  // ---------------------------------------------------------------------------------------------

  /** `offset`: pixels per row, the calendar height over the hours of the current props. */
  function Offset(calendarHeight: real, start: int, end: int): real
    requires start != end
  {
    calendarHeight / (end - start) as real
  }

  /** The hour line of row `index`. */
  function LineTop(index: int, calendarHeight: real, start: int, end: int): real
    requires start != end
  {
    Offset(calendarHeight, start, end) * index as real
  }

  /** The half-hour line of row `index`. */
  function HalfLineTop(index: int, calendarHeight: real, start: int, end: int): real
    requires start != end
  {
    Offset(calendarHeight, start, end) * (index as real + 0.5)
  }

  /** One row of `renderLines`: its hour, its label and its two tappable lines. */
  datatype Line = Line(hour: int, text: TimeText, top: real, halfTop: real)

  /** The rows of the view over the intended hours `start .. end`. */
  function Lines(calendarHeight: real, start: int, end: int, format24h: bool): (r: seq<Line>)
    requires start < end
    ensures |r| == end - start + 1
    ensures forall k :: 0 <= k < |r| ==> r[k].hour == start + k && r[k].text == HourLabel(start + k, start, format24h)
  {
    var rows := HourRows(start, end);
    seq(|rows|, k requires 0 <= k < |rows| =>
      Line(rows[k], HourLabel(rows[k], start, format24h),
           LineTop(k, calendarHeight, start, end), HalfLineTop(k, calendarHeight, start, end)))
  }

  /**
   * With the height the constructor computed for the same hours, rows are 100 pixels apart
   * from the top of the calendar, every half-hour line lies midway between two hour lines, and
   * the last hour line is the bottom of the calendar.
   */
  lemma LinesEveryHundredPixels(start: int, end: int, format24h: bool)
    requires start < end
    ensures var ls := Lines((end - start) as real * 100.0, start, end, format24h);
      && ls[0].top == 0.0
      && ls[|ls| - 1].top == (end - start) as real * 100.0
      && forall k :: 0 <= k < |ls| ==>
           ls[k].top == 100.0 * k as real && ls[k].halfTop == ls[k].top + 50.0
  {
    var h := (end - start) as real * 100.0;
    assert Offset(h, start, end) == 100.0;
  }

  // ---------------------------------------------------------------------------------------------
  // Tapping a line
  // ---------------------------------------------------------------------------------------------

  /** `setHours(h, m, 0, 0)` on instant `t`: the same calendar day at `h`:`m`, rolling over past 23:59. */
  function WithTime(t: int, h: int, m: int): (r: int)
    ensures 0 <= h < 24 && 0 <= m < 60 ==> r / MinutesPerDay == t / MinutesPerDay && r % MinutesPerDay == h * MinutesPerHour + m
  {
    DayOrigin(t, 0) + h * MinutesPerHour + m
  }

  /** The `selectedDate` prop: a `Date` the view mutates in place when a line is tapped. */
  class SelectedDate {
    var instant: int

    constructor (instant: int)
      ensures this.instant == instant
    {
      this.instant := instant;
    }

    /** `setHours(h, m, 0, 0)`. */
    method SetHours(h: int, m: int)
      modifies this
      ensures instant == WithTime(old(instant), h, m)
    {
      instant := WithTime(instant, h, m);
    }
  }

  /**
   * `onPressCreateMeeting(minute)` for row hour `hour`: row 24 does nothing; any other row moves
   * the selected date to `hour`:`minute` of its day and opens the create-meeting screen with it.
   */
  method PressLine(date: SelectedDate, hour: int, minute: int) returns (navigateTo: Option<int>)
    modifies date
    ensures hour == 24 ==> navigateTo == None && date.instant == old(date.instant)
    ensures hour != 24 ==> date.instant == WithTime(old(date.instant), hour, minute) && navigateTo == Some(date.instant)
  {
    if hour != 24 {
      date.SetHours(hour, minute);
      navigateTo := Some(date.instant);
    } else {
      navigateTo := None;
    }
  }

  // ---------------------------------------------------------------------------------------------
  // Initial scroll
  // ---------------------------------------------------------------------------------------------

  /** `_.min` of a non-empty list. */
  function MinOf(s: seq<real>): (r: real)
    requires s != []
    ensures r in s
    ensures forall x :: x in s ==> r <= x
  {
    if |s| == 1 then s[0]
    else
      var m := MinOf(s[1..]);
      assert forall x :: x in s[1..] ==> x in s;
      assert forall x :: x in s ==> x == s[0] || x in s[1..];
      if s[0] <= m then s[0] else m
  }

  /** `_.map(packedEvents, 'top')`. */
  function Tops(ls: seq<Layout>): (r: seq<real>)
    ensures |r| == |ls|
    ensures forall k :: 0 <= k < |ls| ==> r[k] == ls[k].top
  {
    seq(|ls|, k requires 0 <= k < |ls| => ls[k].top)
  }

  /** `initPosition`: one row above the earliest meeting, but never above the top of the calendar. */
  function InitialScroll(tops: seq<real>, calendarHeight: real, start: int, end: int): (r: real)
    requires tops != [] && start != end
    ensures r >= 0.0
    ensures r > 0.0 ==> r + Offset(calendarHeight, start, end) in tops
    ensures forall t :: t in tops ==> r <= 0.0 || r + Offset(calendarHeight, start, end) <= t
  {
    var p := MinOf(tops) - Offset(calendarHeight, start, end);
    if p < 0.0 then 0.0 else p
  }

  /**
   * With the height the constructor computes, the initial scroll is never negative; it is zero
   * exactly when some meeting is drawn within 100 pixels of the top, and otherwise puts the
   * earliest meeting exactly one hour row below the top of the viewport.
   */
  lemma ScrollShowsEarliest(tops: seq<real>, start: int, end: int)
    requires tops != [] && start < end
    ensures var r := InitialScroll(tops, (end - start) as real * 100.0, start, end);
      && r >= 0.0
      && (r == 0.0 <==> exists t :: t in tops && t <= 100.0)
      && (r > 0.0 ==> (forall t :: t in tops ==> t >= r + 100.0) && (r + 100.0) in tops)
  {
    var h := (end - start) as real * 100.0;
    assert Offset(h, start, end) == 100.0;
  }

  // ---------------------------------------------------------------------------------------------
  // Drawing a meeting
  // ---------------------------------------------------------------------------------------------

  /** The calendar day of an instant. */
  function DayOf(t: int): int {
    t / MinutesPerDay
  }

  /**
   * `edgeCaseFlag`: the meeting starts on another day than the selected one and its top is 2350.
   * For a rectangle the engine laid out from midnight, that is a meeting at 23:30 of another day.
   */
  predicate EdgeCase(l: Layout, selected: int)
    ensures l.top == Top(l.ev.start, 0) ==>
      (EdgeCase(l, selected) <==> DayOf(l.ev.start) != DayOf(selected) && l.ev.start % MinutesPerDay == 1410)
  {
    var t := l.ev.start % MinutesPerDay;
    assert l.ev.start - DayOrigin(l.ev.start, 0) == t;
    assert Top(l.ev.start, 0) == t as real * 100.0 / 60.0;
    DayOf(l.ev.start) != DayOf(selected) && l.top == BottomHalfHour
  }

  /** The style of a meeting's box. */
  datatype Style = Style(left: real, height: real, width: real, top: real)

  /**
   * The box `renderEvents` draws: a meeting flagged by `EdgeCase` is moved to the top with
   * height 49; every other keeps the engine's `top` and `height`; `left` and `width` never change.
   */
  function EventStyle(l: Layout, selected: int): (s: Style)
    ensures s.left == l.left && s.width == l.width
    ensures EdgeCase(l, selected) ==> s.top == 0.0 && s.height == 49.0
    ensures !EdgeCase(l, selected) ==> s.top == l.top && s.height == l.height
  {
    if EdgeCase(l, selected) then Style(l.left, 49.0, l.width, 0.0)
    else Style(l.left, l.height, l.width, l.top)
  }

  /**
   * For a rectangle from the engine, the clamp fires exactly for a meeting that starts half an
   * hour before the end of the 24 rows after `dayStart`:00 of its own day, on a day other than
   * the selected one; from midnight, that is a meeting at 23:30 of another day.
   */
  lemma ClampOnlyAtLastHalfHour(l: Layout, selected: int, dayStart: int)
    requires l.top == Top(l.ev.start, dayStart)
    ensures EdgeCase(l, selected) <==>
      DayOf(l.ev.start) != DayOf(selected) && l.ev.start % MinutesPerDay == dayStart * MinutesPerHour + 1410
  {
    var t := l.ev.start % MinutesPerDay - dayStart * MinutesPerHour;
    assert l.ev.start - DayOrigin(l.ev.start, dayStart) == t;
    assert l.top == t as real * 100.0 / 60.0;
  }

  /** `numberOfLines`: how many whole text lines fit the engine's height (not the clamped one). */
  function NumberOfLines(height: real): (n: int)
    ensures n as real * TextLineHeight <= height < (n + 1) as real * TextLineHeight
  {
    var q := height / TextLineHeight;
    assert height == q * TextLineHeight;
    q.Floor
  }

  /**
   * The summary line is drawn when more than one text line fits: exactly when the box is at
   * least two text lines (34 pixels) tall.
   */
  predicate ShowsSummary(height: real)
    ensures ShowsSummary(height) <==> height >= 34.0
  {
    NumberOfLines(height) > 1
  }

  /** A meeting of `d` whole minutes shows its summary exactly when it lasts at least 21 minutes. */
  lemma SummaryFromTwentyOneMinutes(start: int, d: int)
    ensures ShowsSummary(Height(start, Some(start + d))) <==> d >= 21
  {
    assert Height(start, Some(start + d)) == d as real * 100.0 / 60.0;
  }

  // ---------------------------------------------------------------------------------------------
  // The component
  // ---------------------------------------------------------------------------------------------

  /** `width - LEFT_MARGIN`: the width the engine lays meetings out in. */
  function EngineWidth(screenWidth: real): real {
    screenWidth - LeftMargin
  }

  /** The component's fields and state: the height fixed at construction, the scroll, the rectangles. */
  class DayViewState {
    var calendarHeight: real
    var scrollY: real
    var packedEvents: seq<Layout>

    /**
     * The constructor: the calendar height from the hours shown, the engine's rectangles for
     * the screen width less the label margin with `start` as day origin, and the initial scroll.
     */
    constructor (events: seq<Event>, width: real, start: int, end: int)
      requires start < end && events != []
      ensures calendarHeight == (end - start) as real * 100.0
      ensures packedEvents == Populate(events, EngineWidth(width), start)
      ensures scrollY == InitialScroll(Tops(packedEvents), calendarHeight, start, end)
    {
      var height := (end - start) as real * 100.0;
      var packed := PopulateEvents(events, EngineWidth(width), start);
      var tops := Tops(packed);
      assert |tops| == |events| > 0;
      calendarHeight := height;
      packedEvents := packed;
      scrollY := InitialScroll(tops, height, start, end);
    }

    /** `componentWillReceiveProps`: only the rectangles are recomputed, from the new props. */
    method ReceiveProps(events: seq<Event>, width: real, start: int)
      modifies this`packedEvents
      ensures packedEvents == Populate(events, EngineWidth(width), start)
    {
      packedEvents := PopulateEvents(events, EngineWidth(width), start);
    }
  }
}
