/**
 * The report row built for each held appointment, and the sums over the
 * held appointments and over their rows.
 */
module Report {
  import opened TimeFormat
  import opened CalendarFilter

  /**
   * One row of the report, with the columns Subject, Day, Start, End,
   * Duration (min) and Duration (hours). The hours are kept exactly, in
   * hundredths of an hour.
   */
  datatype Row = Row(
    subject: string,
    day: string,
    start: string,
    end: string,
    durationMinutes: int,
    durationHundredths: int)

  /**
   * round(minutes / 60, 2), in hundredths of an hour. The result is the
   * integer nearest to 100 * minutes / 60 = 5 * minutes / 3: it differs from
   * it by less than one half, and never by exactly one half, so the rule
   * for ties does not matter.
   */
  function HoursHundredths(minutes: int): (h: int)
    ensures -3 < 6 * h - 10 * minutes < 3
  {
    (5 * minutes + 1) / 3
  }

  /** The nearest hundredth is unique, so HoursHundredths is the rounding and nothing else. */
  lemma HoursHundredthsIsNearest(minutes: int, h: int)
    requires -3 < 6 * h - 10 * minutes < 3
    ensures h == HoursHundredths(minutes)
  {
  }

  lemma HoursHundredthsExamples()
    ensures HoursHundredths(90) == 150
    ensures HoursHundredths(125) == 208
    ensures HoursHundredths(60) == 100
  {
  }

  /** The row for one appointment: its subject, its local day, start and end, and its duration. */
  function RowDefinition(e: CalendarEvent): (r: Row)
    ensures r.subject == e.subject
    ensures r.day == FormatDay(e.localStart) && r.start == FormatClock(e.localStart) && r.end == FormatClock(e.localEnd)
    ensures ParseDay(r.day) == (e.localStart.year as int, e.localStart.month as int, e.localStart.day as int)
    ensures ParseClock(r.start) == (e.localStart.hour as int, e.localStart.minute as int)
    ensures ParseClock(r.end) == (e.localEnd.hour as int, e.localEnd.minute as int)
    ensures r.durationMinutes == e.duration
    ensures -3 < 6 * r.durationHundredths - 10 * e.duration < 3
  {
    DayRoundTrip(e.localStart);
    ClockRoundTrip(e.localStart);
    ClockRoundTrip(e.localEnd);
    Row(e.subject, FormatDay(e.localStart), FormatClock(e.localStart), FormatClock(e.localEnd),
        e.duration, HoursHundredths(e.duration))
  }

  /** One row per appointment, in the same order. */
  function Rows(items: seq<CalendarEvent>): (rows: seq<Row>)
    ensures |rows| == |items|
    ensures forall k :: 0 <= k < |items| ==> rows[k] == RowDefinition(items[k])
  {
    if items == [] then []
    else
      var init := items[..|items| - 1];
      assert forall k :: 0 <= k < |init| ==> init[k] == items[k];
      Rows(init) + [RowDefinition(items[|items| - 1])]
  }

  /** The sum of the Duration of the appointments. */
  function SumDurations(items: seq<CalendarEvent>): int
  {
    if items == [] then 0 else SumDurations(items[..|items| - 1]) + items[|items| - 1].duration
  }

  /** The sum of the 'Duration (min)' column. */
  function SumMinutes(rows: seq<Row>): int
  {
    if rows == [] then 0 else SumMinutes(rows[..|rows| - 1]) + rows[|rows| - 1].durationMinutes
  }

  /** The minutes of the rows add up to the total duration of the appointments. */
  lemma {:induction false} RowMinutesSumToTotalDuration(items: seq<CalendarEvent>)
    ensures SumMinutes(Rows(items)) == SumDurations(items)
  {
    if items != [] {
      var rows := Rows(items);
      assert rows[..|rows| - 1] == Rows(items[..|items| - 1]);
      RowMinutesSumToTotalDuration(items[..|items| - 1]);
    }
  }
}
