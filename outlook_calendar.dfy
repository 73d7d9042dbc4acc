/**
 * OutlookCalendarUtils: a session that holds the appointments of one window
 * and reports on them.
 *
 * Outlook itself (the Calendar folder, Restrict, IncludeRecurrences, Sort)
 * is a parameter: a function from a window [startDt, endDt) to the items
 * it yields for that window. "Now" is a parameter too.
 */
module OutlookCalendar {
  import opened TimeFormat
  import opened CalendarFilter
  import opened Report

  datatype Option<T> = None | Some(value: T)

  /** timedelta(days=1) in microseconds. */
  const TicksPerDay: int := 86_400_000_000

  class OutlookCalendarUtils {
    /** The held appointments: the filter's result for the last window loaded. */
    var calendarItems: seq<CalendarEvent>

    /** The last window loaded; the source does not keep it, the invariant needs it. */
    ghost var windowStart: int
    ghost var windowEnd: int

    /** Every held appointment is in the window and has a busy status that is kept. */
    ghost predicate Valid()
      reads this
    {
      forall k :: 0 <= k < |calendarItems| ==> Kept(calendarItems[k], windowStart, windowEnd)
    }

    /** Without a number of days nothing is held; with one, that many days from now are loaded. */
    constructor (numOfDays: Option<int>, now: int, outlookItems: (int, int) -> seq<CalendarEvent>)
      ensures Valid()
      ensures numOfDays == None ==> calendarItems == []
      ensures numOfDays.Some? ==>
        && windowStart == now
        && windowEnd == now + numOfDays.value * TicksPerDay
        && calendarItems == EarlyExitFilter(outlookItems(windowStart, windowEnd), windowStart, windowEnd)
    {
      calendarItems := [];
      windowStart, windowEnd := now, now;
      new;
      if numOfDays.Some? {
        LoadCalendarItems(numOfDays.value, now, outlookItems);
      }
    }

    /**
     * The scan over the items Outlook returned, with its early exit. It
     * collects exactly the kept items before the first one that starts after
     * `endDt`; when the items are sorted by start, that is every kept item.
     */
    method GetCalendarItemsInWindow(startDt: int, endDt: int, items: seq<CalendarEvent>)
      returns (filteredItems: seq<CalendarEvent>)
      ensures filteredItems == EarlyExitFilter(items, startDt, endDt)
      ensures SortedByStart(items) ==> filteredItems == FilterAll(items, startDt, endDt)
    {
      filteredItems := [];
      var i := 0;
      while i < |items|
        invariant i <= |items|
        invariant forall j :: 0 <= j < i ==> items[j].start <= endDt
        invariant filteredItems == FilterAll(items[..i], startDt, endDt)
      {
        var item := items[i];
        assert items[..i + 1][..i] == items[..i];
        if Kept(item, startDt, endDt) {
          filteredItems := filteredItems + [item];
        } else if item.start > endDt {
          // The stop: sound because Outlook sorts the items by start (EarlyExitMatchesFullScan).
          assert FirstAfter(items, endDt) == i;
          break;
        }
        i := i + 1;
      }
      assert FirstAfter(items, endDt) == i;
      if SortedByStart(items) {
        EarlyExitMatchesFullScan(items, startDt, endDt);
      }
    }

    /** The row of every held appointment, in held order. */
    method GetCalendarItems() returns (items: seq<Row>)
      ensures items == Rows(calendarItems)
    {
      items := [];
      for i := 0 to |calendarItems|
        invariant items == Rows(calendarItems[..i])
      {
        assert calendarItems[..i + 1][..i] == calendarItems[..i];
        items := items + [RowDefinition(calendarItems[i])];
      }
      assert calendarItems[..|calendarItems|] == calendarItems;
    }

    /** The sum of the Duration of the held appointments; 0 when none is held. */
    method GetDurationOfCalendarItems() returns (totalDuration: int)
      ensures totalDuration == SumDurations(calendarItems)
    {
      totalDuration := 0;
      for i := 0 to |calendarItems|
        invariant totalDuration == SumDurations(calendarItems[..i])
      {
        assert calendarItems[..i + 1][..i] == calendarItems[..i];
        totalDuration := totalDuration + calendarItems[i].duration;
      }
      assert calendarItems[..|calendarItems|] == calendarItems;
    }

    /** Loads [now, now + numOfDays days), replacing whatever was held. */
    method LoadCalendarItems(numOfDays: int, now: int, outlookItems: (int, int) -> seq<CalendarEvent>)
      modifies this
      ensures Valid()
      ensures windowStart == now && windowEnd == now + numOfDays * TicksPerDay
      ensures calendarItems == EarlyExitFilter(outlookItems(windowStart, windowEnd), windowStart, windowEnd)
    {
      var startDt := now;
      var endDt := startDt + numOfDays * TicksPerDay;
      calendarItems := GetCalendarItemsInWindow(startDt, endDt, outlookItems(startDt, endDt));
      windowStart, windowEnd := startDt, endDt;
    }
  }

  lemma KeptOfThree(a: CalendarEvent, b: CalendarEvent, c: CalendarEvent, startDt: int, endDt: int)
    requires a.start <= b.start <= c.start <= endDt
    requires !Kept(a, startDt, endDt) && Kept(b, startDt, endDt) && Kept(c, startDt, endDt)
    ensures EarlyExitFilter([a, b, c], startDt, endDt) == [b, c]
  {
    var items := [a, b, c];
    assert FirstAfter(items, endDt) == 3;
    assert items[..3] == items && items[..2] == [a, b] && [a, b][..1] == [a] && [a][..0] == [];
    assert FilterAll([a], startDt, endDt) == [];
    assert FilterAll([a, b], startDt, endDt) == [b];
  }

  /**
   * Three appointments, loaded for two days from 08:00 today: A (Tentative,
   * today 09:00-09:30, 30 min), B (Free, today 10:00-10:30, 30 min) and C
   * (Busy, tomorrow 14:00-15:00, 60 min). Status 1 is dropped and status 0
   * kept, so the rows are B's and C's; listing twice gives the same rows.
   */
  method ThreeAppointmentReport() returns (rows: seq<Row>, again: seq<Row>, total: int)
    ensures rows == again
    ensures |rows| == 2 && rows[0].subject == "B" && rows[1].subject == "C"
    ensures total == 90
    ensures rows[1].durationHundredths == 100
  {
    var hour := 3_600_000_000;
    var a := CalendarEvent("A", 9 * hour, DateTime(2024, 1, 15, 9, 0), DateTime(2024, 1, 15, 9, 30), 30, Tentative);
    var b := CalendarEvent("B", 10 * hour, DateTime(2024, 1, 15, 10, 0), DateTime(2024, 1, 15, 10, 30), 30, Free);
    var c := CalendarEvent("C", 38 * hour, DateTime(2024, 1, 16, 14, 0), DateTime(2024, 1, 16, 15, 0), 60, Busy);
    var outlook := [a, b, c];
    KeptOfThree(a, b, c, 8 * hour, 8 * hour + 2 * TicksPerDay);
    var session := new OutlookCalendarUtils(Some(2), 8 * hour, (startDt, endDt) => outlook);
    assert session.calendarItems == [b, c];
    total := session.GetDurationOfCalendarItems();
    assert [b, c][..1] == [b] && [b][..0] == [];
    assert SumDurations([b]) == 30;
    assert total == SumDurations([b]) + 60;
    rows := session.GetCalendarItems();
    again := session.GetCalendarItems();
  }
}
