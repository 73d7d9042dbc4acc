/**
 * The in-memory re-filter that OutlookCalendarUtils applies to the items
 * Outlook returns for a window: keep an item when its start instant lies in
 * [startDt, endDt) and its busy status is not excluded; stop at the first
 * item that starts strictly after endDt.
 *
 * Instants are integers on one time line (microseconds, the resolution of a
 * Python datetime); converting a start to UTC only re-expresses the instant.
 */
module CalendarFilter {
  import opened TimeFormat

  // Outlook's OlBusyStatus codes.
  const Free := 0
  const Tentative := 1
  const Busy := 2
  const OutOfOffice := 3

  /** The codes the filter drops: the literal list [1, 3] of the source. */
  const ExcludedStatuses: seq<int> := [Tentative, OutOfOffice]

  /**
   * One appointment as Outlook hands it over: its start as an instant, its
   * start and end as local wall-clock fields, its Duration in minutes and
   * its BusyStatus code.
   */
  datatype CalendarEvent = CalendarEvent(
    subject: string,
    start: int,
    localStart: DateTime,
    localEnd: DateTime,
    duration: int,
    busyStatus: int)

  /** The test that decides whether an item is kept. */
  predicate Kept(e: CalendarEvent, startDt: int, endDt: int)
  {
    startDt <= e.start < endDt && e.busyStatus !in ExcludedStatuses
  }

  predicate SortedByStart(items: seq<CalendarEvent>)
  {
    forall i, j :: 0 <= i < j < |items| ==> items[i].start <= items[j].start
  }

  /** The reference filter: every item, in order, with no early exit. */
  function FilterAll(items: seq<CalendarEvent>, startDt: int, endDt: int): (r: seq<CalendarEvent>)
    ensures |r| <= |items|
    ensures forall k :: 0 <= k < |r| ==> Kept(r[k], startDt, endDt)
  {
    if items == [] then []
    else
      var rest := FilterAll(items[..|items| - 1], startDt, endDt);
      var last := items[|items| - 1];
      if Kept(last, startDt, endDt) then rest + [last] else rest
  }

  /** The positions of the kept items: they show that FilterAll is an order-preserving subsequence. */
  function KeptPositions(items: seq<CalendarEvent>, startDt: int, endDt: int): (p: seq<nat>)
    ensures |p| == |FilterAll(items, startDt, endDt)|
    ensures forall k :: 0 <= k < |p| ==> p[k] < |items| && FilterAll(items, startDt, endDt)[k] == items[p[k]]
    ensures forall k1, k2 :: 0 <= k1 < k2 < |p| ==> p[k1] < p[k2]
  {
    if items == [] then []
    else
      var rest := KeptPositions(items[..|items| - 1], startDt, endDt);
      if Kept(items[|items| - 1], startDt, endDt) then rest + [|items| - 1] else rest
  }

  /** The index of the first item that starts strictly after `endDt`, or |items| if none does. */
  function FirstAfter(items: seq<CalendarEvent>, endDt: int): (k: nat)
    ensures k <= |items|
    ensures forall j :: 0 <= j < k ==> items[j].start <= endDt
    ensures k < |items| ==> items[k].start > endDt
  {
    if items == [] then 0
    else if items[0].start > endDt then 0
    else 1 + FirstAfter(items[1..], endDt)
  }

  /** What the loop with its early exit collects: the reference filter over the items before the stop. */
  function EarlyExitFilter(items: seq<CalendarEvent>, startDt: int, endDt: int): (r: seq<CalendarEvent>)
    ensures forall k :: 0 <= k < |r| ==> Kept(r[k], startDt, endDt)
    ensures forall j :: 0 <= j < FirstAfter(items, endDt) && Kept(items[j], startDt, endDt) ==> items[j] in r
    ensures forall x :: x in r ==> x in items[..FirstAfter(items, endDt)]
  {
    var prefix := items[..FirstAfter(items, endDt)];
    FilterAllKeepsKept(prefix, startDt, endDt);
    FilterAll(prefix, startDt, endDt)
  }

  /** The reference filter keeps every kept item and invents none. */
  lemma {:induction false} FilterAllKeepsKept(items: seq<CalendarEvent>, startDt: int, endDt: int)
    ensures forall j :: 0 <= j < |items| && Kept(items[j], startDt, endDt) ==> items[j] in FilterAll(items, startDt, endDt)
    ensures forall x :: x in FilterAll(items, startDt, endDt) ==> x in items
  {
    if items != [] {
      var init := items[..|items| - 1];
      FilterAllKeepsKept(init, startDt, endDt);
      forall j | 0 <= j < |items| - 1
        ensures items[j] == init[j]
      {
      }
    }
  }

  lemma {:induction false} FilterAllAppend(a: seq<CalendarEvent>, b: seq<CalendarEvent>, startDt: int, endDt: int)
    ensures FilterAll(a + b, startDt, endDt) == FilterAll(a, startDt, endDt) + FilterAll(b, startDt, endDt)
  {
    if b != [] {
      var ab := a + b;
      assert ab[..|ab| - 1] == a + b[..|b| - 1];
      assert ab[|ab| - 1] == b[|b| - 1];
      FilterAllAppend(a, b[..|b| - 1], startDt, endDt);
    } else {
      assert a + b == a;
    }
  }

  lemma {:induction false} FilterAllNoneKept(items: seq<CalendarEvent>, startDt: int, endDt: int)
    requires forall k :: 0 <= k < |items| ==> !Kept(items[k], startDt, endDt)
    ensures FilterAll(items, startDt, endDt) == []
  {
    if items != [] {
      FilterAllNoneKept(items[..|items| - 1], startDt, endDt);
    }
  }

  /**
   * An item occurs in the filter's output exactly as often as in its input
   * when it is kept, and not at all otherwise: nothing is duplicated,
   * nothing kept is lost.
   */
  lemma {:induction false} FilterAllCounts(items: seq<CalendarEvent>, startDt: int, endDt: int, e: CalendarEvent)
    ensures multiset(FilterAll(items, startDt, endDt))[e] == if Kept(e, startDt, endDt) then multiset(items)[e] else 0
  {
    if items != [] {
      var init, last := items[..|items| - 1], items[|items| - 1];
      assert items == init + [last];
      FilterAllCounts(init, startDt, endDt, e);
    }
  }

  /** The central property: on input sorted by start, stopping early loses nothing. */
  lemma EarlyExitMatchesFullScan(items: seq<CalendarEvent>, startDt: int, endDt: int)
    requires SortedByStart(items)
    ensures EarlyExitFilter(items, startDt, endDt) == FilterAll(items, startDt, endDt)
  {
    var k := FirstAfter(items, endDt);
    assert items == items[..k] + items[k..];
    if k < |items| {
      forall j | 0 <= j < |items[k..]|
        ensures !Kept(items[k..][j], startDt, endDt)
      {
        assert items[k..][j] == items[k + j];
      }
    }
    FilterAllNoneKept(items[k..], startDt, endDt);
    FilterAllAppend(items[..k], items[k..], startDt, endDt);
  }

  /** Sortedness is needed: an item past the window ahead of one inside it hides the latter. */
  lemma EarlyExitNeedsSortedInput(late: CalendarEvent, inside: CalendarEvent, startDt: int, endDt: int)
    requires late.start > endDt && Kept(inside, startDt, endDt)
    ensures !SortedByStart([late, inside])
    ensures EarlyExitFilter([late, inside], startDt, endDt) == []
    ensures FilterAll([late, inside], startDt, endDt) == [inside]
  {
    assert [late, inside][0].start > [late, inside][1].start;
    assert [late, inside][..1] == [late];
    assert FirstAfter([late, inside], endDt) == 0;
  }

  /**
   * An item starting exactly at `endDt` is dropped (the window is half-open)
   * but does not stop the scan (the stop test is strict): the items after it
   * are still examined, and it leaves the result as it was.
   */
  lemma EndInstantNeitherKeptNorStop(items: seq<CalendarEvent>, j: nat, startDt: int, endDt: int)
    requires j < |items| && items[j].start == endDt
    ensures !Kept(items[j], startDt, endDt)
    ensures FirstAfter(items, endDt) != j
    ensures FilterAll(items[..j + 1], startDt, endDt) == FilterAll(items[..j], startDt, endDt)
  {
    assert items[..j + 1][..j] == items[..j];
  }

  /**
   * Which in-window items survive, by busy status: Free, Busy and any
   * other code are kept; Tentative and OutOfOffice are dropped.
   */
  lemma InWindowKeptIffNotTentativeOrOutOfOffice(e: CalendarEvent, startDt: int, endDt: int)
    requires startDt <= e.start < endDt
    ensures FilterAll([e], startDt, endDt) == [e] <==> e.busyStatus != Tentative && e.busyStatus != OutOfOffice
    ensures FilterAll([e], startDt, endDt) == [] <==> e.busyStatus == Tentative || e.busyStatus == OutOfOffice
  {
  }
}
