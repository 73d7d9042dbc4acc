# OutlookCalendarUtils in Dafny

This project models the in-memory logic of `OutlookCalendarUtils`, a utility that does four things:

- It reads the appointments of the next N days from the Outlook Calendar folder.
- It keeps those in the window that count as busy.
- It totals their duration.
- It turns each one into a report row.

The model has four modules:

- `TimeFormat` (`time_format.dfy`): the local date and time fields of an appointment. It also holds the two strftime layouts the rows use, `%Y-%m-%d` and `%H:%M`, as fixed-width zero-padded digits. Parse functions read the fields back from the text.
- `CalendarFilter` (`calendar_filter.dfy`): the appointment record and the keep test. The test keeps an item when `startDt <= start < endDt` and its BusyStatus is not in `[1, 3]`. The module also has `FilterAll`, a reference filter that scans every item with no early exit. `FirstAfter` gives the index where the loop's `break` fires. `EarlyExitFilter` is what the loop collects. The lemmas relate these functions.
- `Report` (`report.dfy`): the report row. Hours are kept as exact integer hundredths: `round(d/60, 2)` is `(5*d + 1) div 3` hundredths. This module also has the row listing and the duration sums.
- `OutlookCalendar` (`outlook_calendar.dfy`): the class `OutlookCalendarUtils`. It holds the filtered appointments in a `seq` field that the constructor and `LoadCalendarItems` overwrite. Its methods are loops proved against the functions above. A ghost window (`windowStart`, `windowEnd`) carries the class invariant `Valid()`: every held appointment is in the window and is not excluded.

Instants are integers on a single time line, in microseconds, the resolution of a Python datetime. Converting a start to UTC only re-expresses the same instant, so it needs no model. Outlook is a parameter of type `(int, int) -> seq<CalendarEvent>`. It maps a window to the items that Restrict, IncludeRecurrences and Sort yield for that window. "Now" is a parameter too.

The scan does not require its input to be sorted. `GetCalendarItemsInWindow` promises two things:

- For any input, it returns the kept items before the first item that starts after `endDt`.
- For input sorted by start, that equals the full scan. `EarlyExitMatchesFullScan` proves this.

`EarlyExitNeedsSortedInput` shows that the sorting Outlook does is what makes the early exit sound.

### Busy statuses: the code and its comment disagree (the model follows the code)

The comment at BOutlookCalendar.py:35 says that "free" and "OOO" appointments are excluded. The code on line 36 excludes codes 1 and 3. In Outlook's OlBusyStatus these are Tentative and OutOfOffice; Free is 0. The model excludes `[1, 3]`. `InWindowKeptIffNotTentativeOrOutOfOffice` states the consequence: an in-window appointment that is Free is kept, and one that is Tentative is dropped. `ThreeAppointmentReport` is the model's own example of this. It loads Tentative A, Free B and Busy C for two days. The rows are B's and C's, not A's and C's.

### The stop test

The loop stops only when an item starts strictly after `endDt` (BOutlookCalendar.py:38). A stop at `start >= endDt` would be an equally natural choice, and on sorted input it gives the same result. Under the code, an item starting exactly at `endDt` is dropped and the scan goes on past it. `EndInstantNeitherKeptNorStop` states this.

## Model

| member | source | states |
|---|---|---|
| TimeFormat.ZeroPaddedRoundTrip | BOutlookCalendar.py:47-49 | reading back the zero-padded digits that strftime writes for a date or time field gives the field's value |
| TimeFormat.DayRoundTrip | BOutlookCalendar.py:47 | the '%Y-%m-%d' text of a date is 10 characters long and gives back its year, month and day |
| TimeFormat.ClockRoundTrip | BOutlookCalendar.py:48-49 | the '%H:%M' text of a time is 5 characters long and gives back its hour and minute |
| CalendarFilter.FilterAll | BOutlookCalendar.py:33-37 | every item the full-scan filter returns has `startDt <= start < endDt` and a BusyStatus other than 1 and 3; it never returns more items than it was given |
| CalendarFilter.KeptPositions | BOutlookCalendar.py:31-37 | the filter's output is an order-preserving subsequence of its input: each output item is the input item at a position, and the positions strictly increase |
| CalendarFilter.FilterAllCounts | BOutlookCalendar.py:33-37 | each kept item occurs in the output exactly as often as in the input, and an item that is not kept never occurs: nothing is duplicated or lost |
| CalendarFilter.FirstAfter | BOutlookCalendar.py:38-40 | the index where the loop breaks: every item before it starts at or before `endDt`, and the item at it (if any) starts after `endDt` |
| CalendarFilter.FilterAllKeepsKept | BOutlookCalendar.py:33-37 | every kept input item appears in the full scan's output, and every output item comes from the input |
| CalendarFilter.EarlyExitFilter | BOutlookCalendar.py:33-40 | what the loop collects on any input, sorted or not: only kept items, every kept item before the first item past `endDt`, and nothing from that item on |
| CalendarFilter.EarlyExitMatchesFullScan | BOutlookCalendar.py:33-40 | on input sorted ascending by start, the loop with its early exit returns exactly the list the full scan returns |
| CalendarFilter.EarlyExitNeedsSortedInput | BOutlookCalendar.py:29-40 | without the sort, an item past the window placed before an in-window busy item makes the early exit lose that item |
| CalendarFilter.EndInstantNeitherKeptNorStop | BOutlookCalendar.py:36-38 | an item starting exactly at `endDt` is not kept and is not where the loop breaks, and passing it leaves the result unchanged |
| CalendarFilter.InWindowKeptIffNotTentativeOrOutOfOffice | BOutlookCalendar.py:35-36 | an in-window item is kept if and only if its BusyStatus is neither Tentative (1) nor OutOfOffice (3), and dropped if and only if it is one of those |
| Report.HoursHundredths | BOutlookCalendar.py:51 | the hours column, in hundredths, is within less than one half of 100·minutes/60, so it is minutes/60 rounded to two decimals and no tie arises |
| Report.HoursHundredthsIsNearest | BOutlookCalendar.py:51 | any integer within one half of 100·minutes/60 equals HoursHundredths(minutes), so the rounding is determined uniquely |
| Report.HoursHundredthsExamples | BOutlookCalendar.py:51 | 90 minutes give 1.50 hours, 125 give 2.08 and 60 give 1.00 |
| Report.RowDefinition | BOutlookCalendar.py:44-52 | a row has the appointment's subject; its local start day as '%Y-%m-%d' text (ten characters, digits with '-' at positions 4 and 7, reading back to year, month and day); its start and end as '%H:%M' text (five characters, digits with ':' at position 2, reading back to hour and minute); its Duration in minutes; and that Duration in hours rounded to two decimals |
| Report.Rows | BOutlookCalendar.py:66-69 | exactly one row per appointment, in the same order, each the row definition of its appointment |
| Report.RowMinutesSumToTotalDuration | BOutlookCalendar.py:50 | the 'Duration (min)' column of the rows sums to the total Duration of the appointments |
| OutlookCalendar.OutlookCalendarUtils.constructor | BOutlookCalendar.py:16-18 | with no number of days nothing is held; with one, the session holds what a load of that many days from now holds; the invariant holds either way |
| OutlookCalendar.OutlookCalendarUtils.GetCalendarItemsInWindow | BOutlookCalendar.py:31-42 | the loop with `break` returns the kept items before the first item past `endDt`, which on sorted input is the full filter |
| OutlookCalendar.OutlookCalendarUtils.GetCalendarItems | BOutlookCalendar.py:66-69 | returns one row per held appointment, in held order; it changes nothing, so with appointments held as values (see Left out) two calls without a load in between return the same rows |
| OutlookCalendar.OutlookCalendarUtils.GetDurationOfCalendarItems | BOutlookCalendar.py:74-77 | returns the sum of Duration over the held appointments, 0 when none is held |
| OutlookCalendar.OutlookCalendarUtils.LoadCalendarItems | BOutlookCalendar.py:87-90 | the window becomes [now, now + numOfDays days); the held list is replaced wholesale by the scan's result for that window; every held item is in the window and kept |
| OutlookCalendar.ThreeAppointmentReport | BOutlookCalendar.py:66-77 | the model's example: with Tentative A, Free B and Busy C loaded for two days, the rows are B's and C's, two listings agree, the total is 90 minutes and C's hours are 1.00 |

## Left out

- Outlook access (BOutlookCalendar.py:23-29) is a foreign COM call. This covers `Dispatch`, `GetDefaultFolder(9)`, `Restrict`, `IncludeRecurrences` and `Sort`. The model replaces them with an unconstrained function parameter from the window to the items. The held list is the window filter of whatever Outlook returns, and the model promises nothing beyond that.
- The Restrict string (line 25) is not modelled. It tests `[END] <= ` endDt's date written with no time, which Outlook reads as midnight at the start of that day. So an appointment that starts on endDt's day before endDt, but ends after that midnight, never reaches the loop. One example is numOfDays=1 at 15:00 with an appointment tomorrow 09:00-10:00. Restrict can thus drop in-window appointments on the last day, and the model does not capture this.
- OutlookCalendar.OutlookCalendarUtils.GetCalendarItems: the source holds live COM objects (line 37). It reads Subject, Start, End and Duration through COM on every call (lines 68 and 76). An edit in Outlook between two calls changes the rows, and a deletion raises `com_error`. The model freezes each appointment as a `CalendarEvent` value at load time. "Two calls without a load in between return the same rows" holds only under that freezing. GetDurationOfCalendarItems is frozen in the same way.
- Clock and time zones are out. `datetime.now` in the Africa/Harare zone (lines 82, 88) becomes the parameter `now`. `astimezone(pytz.utc)` (line 34) re-expresses the same instant. The local wall-clock fields that strftime formats are given with each appointment and are not derived from its instant.
- CSV export (`__writeCsvFile` and `exportToCsv`, lines 54-60 and 82-85) is file I/O plus the csv library's quoting and float-to-text rendering. So is the default file name, which is computed once, when the method is defined. The rows it writes are those of `Rows` over the held appointments.
- Console output (`printCalendarItems` and `printDurationOfCalendarItems`, lines 71-72 and 79-80) is left out. The number the second one prints is `HoursHundredths` of `GetDurationOfCalendarItems`.
- Floating point is not modelled. The model keeps `round(Duration/60, 2)` exactly, in integer hundredths. The binary float that Python stores is not modelled.
- Datetime range limits are not modelled. The model uses unbounded integers, so it has no counterpart to the OverflowError that `timedelta(days=numOfDays)` raises past year 9999. It also takes only integral day counts, although `timedelta` accepts fractional ones.
- TimeFormat.FormatDay: pads years below 1000 to four digits. What `%Y` prints for such years depends on the platform's C library.
- Python raises AttributeError when an item lacks Subject, Start, End, Duration or BusyStatus. The record type always has these fields, so this error is not modelled.
