# Attendance sheet calendar and layout — a Dafny model

This project models the core of a small app that builds a printable monthly
attendance sheet for the Persian (Jalali) school calendar. It has two parts.

- **The weekday resolver** (`get_calendar_from_api`). It asks a remote
  calendar service about days 1 to 7 of the month until one day's events
  name a weekday. That one observation is the *anchor*. It then asks about
  days 1 to 31 and stops at the first day the service reports as outside
  the month. It derives each day's weekday from the anchor by an offset
  modulo 7. It keeps the days that are not holidays and fall on neither
  Thursday (`پنجشنبه`) nor Friday (`جمعه`), each with a `YYYY/MM/DD` label.
- **The sheet planner** (the layout part of `generate_excel_sheet`). Row 1
  is a title merged over columns A to F and row 2 holds the headers. From
  row 3, each school day gets one row per class period: three on Monday and
  Wednesday, four on other days. The weekday and date cells are merged down
  each block. The print area ends on the last table row. Rows below it, up
  to row 499, are hidden, and so are columns 7 to 199.

Modules, one per concern:

- `Wrappers` (`wrappers.dfy`): `Option` and `Result`.
- `Decimal` (`decimal.dfy`): Python's `str` of an integer and `str.zfill`, with parsers that invert them.
- `PersianCalendar` (`persian_calendar.dfy`): the weekday and month tables, the weekday formula, the date label.
- `WeekdayResolver` (`weekday_resolver.dfy`): the anchor search, the month scan, the whole resolver.
- `SheetPlanner` (`sheet_planner.dfy`): the period rule, the cursor loop, merges, print area, hidden ranges.

The calendar service is a parameter `fetch: int -> Response`, a deterministic
function from a day number to that day's answer:

- `OutOfRange` stands for HTTP status 404 or 400.
- `HttpError` is any other failure status, raised by `raise_for_status`.
- `TransportError` means the request itself failed.
- `BadJson` is the `ValueError` that `.json()` raises.
- `Ok` carries the holiday flag (missing means false) and the events (missing means none). Each event carries its description, which may also be missing.

The anchor loop with its event loop, the month scan and the sheet's day loop
are loops in methods. The period loop and the hiding loops are not (see
"## Left out"). `FindAnchor`,
`ScanMonth`, `ResolveMonth` and `PlanSheet` are proved against specification
functions or predicates: `AnchorOf`, `MonthSchoolDays`, `Resolve` and
`IsLayoutOf`. The lemmas prove what these specifications mean. Each
resolver method also returns `requested`, the day numbers it asked the
service about, in order, which stands for the sequence of HTTP requests. So
"never asks past the first out-of-range day" is a statement about a result.

Three points where the code's behaviour is easy to misread; the model
follows the code:

- When day 30 is out of range, the code still requests day 30: it reads the
  404/400 and then stops. So `ScanRequests` includes the out-of-range day.
- The row cursor after N days is `3 + Σ periods`, so the last table row is
  `2 + Σ periods`.
- A scan with no school day returns `None`, like every other failure. That
  case is `Failure(NoQualifyingDays)`.

Python's `%` with divisor 7 never gives a negative result, and neither does
Dafny's. So the weekday formula is the same on days before the anchor.

## Model

| member | source | states |
|---|---|---|
| `Decimal.NatToDecimal` | app.py:87 | `str(n)` is never empty |
| `Decimal.NatToDecimalShape` | app.py:87 | `str(n)` starts with `0` only for n = 0, and is one digit long exactly when n < 10 |
| `Decimal.DecimalRoundTrip` | app.py:87 | `str(n)` is all digits, and they read back as n |
| `Decimal.IntRoundTrip` | app.py:87 | `str(year)`, with its sign, is parsed back to the year |
| `Decimal.ZeroFill` | app.py:87 | `zfill(w)` is max(len, w) long |
| `Decimal.ZeroFillShape` | app.py:87 | `zfill(w)` ends with the original string and has only zeros in front of it |
| `Decimal.TwoDigitRoundTrip` | app.py:87 | a number below 100 zero-filled to width 2 is exactly two digits that read back as the number |
| `Decimal.IntToDecimal` | app.py:87 | defines `str(i)` of any integer: a minus sign before the digits of a negative one; `IntRoundTrip` inverts it |
| `PersianCalendar.MonthName` | app.py:30-39 | the month table has a non-empty name exactly for months 1 to 12, and no name otherwise |
| `PersianCalendar.IndexOf` | app.py:57 | `list.index` returns a position in the list that holds the item |
| `PersianCalendar.IndexOfIsFirst` | app.py:57 | `list.index` finds the first occurrence, and finds none exactly when the item is absent |
| `PersianCalendar.WeekdayIndexOf` | app.py:41-57 | a weekday index lies in 0..6 and is the name's position in the Saturday-first week |
| `PersianCalendar.WeekdayIndexOfDefined` | app.py:56-57 | a name has a weekday index exactly when it is one of the seven weekday names |
| `PersianCalendar.WeekdaysDistinct` | app.py:41 | the seven weekday names are pairwise different |
| `PersianCalendar.WeekdayIndexAt` | app.py:83 | the derived weekday index lies in 0..6 for every day, before or after the anchor, and is congruent mod 7 to the anchor index plus the day offset |
| `PersianCalendar.WeekdayAtAnchorDay` | app.py:83 | the anchor day gets the anchor's weekday |
| `PersianCalendar.WeekdayAdvances` | app.py:83 | each next day's weekday index is the previous one plus 1, mod 7 |
| `PersianCalendar.WeekdayAt` | app.py:83-84 | defines the derived weekday name: the Saturday-first week's name at `WeekdayIndexAt` |
| `PersianCalendar.DerivedWeekdayIsTrue` | app.py:83-84 | if consecutive days have consecutive weekdays and the anchor observation is right, every derived weekday is the true one, on both sides of the anchor |
| `PersianCalendar.DateLabelRoundTrip` | app.py:87 | the label `year/MM/DD` parses back to its year, month and day |
| `PersianCalendar.DateLabel` | app.py:87 | defines the label: `str(year)`, then month and day zero-filled to two digits, joined by slashes; `DateLabelRoundTrip` inverts it |
| `PersianCalendar.ParseJoinedLabel` | app.py:87 | a year numeral and two two-digit fields joined by slashes parse back to the three numbers |
| `PersianCalendar.DateLabelInjective` | app.py:87 | two days of one month never share a label |
| `WeekdayResolver.EventWeekday` | app.py:56 | an event with a weekday name yields an index in 0..6; a missing description yields none |
| `WeekdayResolver.EventsOf` | app.py:54 | defines the event list of a fetched day, a missing list read as empty |
| `WeekdayResolver.FirstWeekday` | app.py:54-59 | the weekday found among a day's events is always in 0..6 |
| `WeekdayResolver.FirstWeekdayNone` | app.py:54-59 | a day yields no anchor exactly when none of its events names a weekday |
| `WeekdayResolver.FirstWeekdayIsFirstMatch` | app.py:55-59 | within a day, the first event naming a weekday wins over later ones |
| `WeekdayResolver.FirstWeekdayPosition` | app.py:55-59 | a day that yields a weekday has a first event naming it, with no weekday-naming event before it |
| `WeekdayResolver.Passes` | app.py:54-66 | defines when the anchor search moves on to the next day: unreadable JSON, or a fetched day whose events name no weekday |
| `WeekdayResolver.AnchorStop` | app.py:46-61 | the anchor search stops on a day in 1..7; every earlier day had unreadable JSON or no weekday event; before day 7 it stops only on a day that ends the search |
| `WeekdayResolver.AnchorOutcomeAt` | app.py:50-61 | defines the outcome of the day the search stops on: no anchor when out of range, unreachable on a request error, found with the first weekday event's index, else not found |
| `WeekdayResolver.AnchorOf` | app.py:46-70 | defines the anchor search's outcome as the outcome at the stopping day; `FindAnchor` computes it and `FoundAnchorIsFirstWeekdayEvent` characterises it |
| `WeekdayResolver.AnchorRequests` | app.py:46-49 | defines the anchor search's requests: days 1 to the day it stops on, in order |
| `WeekdayResolver.AnchorStopIs` | app.py:46-61 | the search stops on day s when every earlier day passed and, before day 7, day s does not |
| `WeekdayResolver.FindAnchor` | app.py:41-70 | the anchor-search loop returns the outcome `AnchorOf` and requests exactly days 1 to the stopping day, in order |
| `WeekdayResolver.FoundAnchorIsFirstWeekdayEvent` | app.py:46-61 | the anchor is found on day d with index i exactly when d is in 1..7, every earlier day passed (bad JSON or no weekday event), and day d's first weekday event names weekday i |
| `WeekdayResolver.FoundAnchorIsNamedByFirstEvent` | app.py:54-58 | a found anchor lies in days 1..7 and weekdays 0..6, and its day holds a first weekday-naming event whose description is that weekday's name |
| `WeekdayResolver.UnreachableIffRequestError` | app.py:62-64 | the search fails as unreachable exactly when an HTTP or transport error comes on some day before anything else stops the search; bad JSON only moves on |
| `WeekdayResolver.OutOfRangeDayOneHasNoAnchor` | app.py:46-70 | an out-of-range day 1 ends the search with no anchor after that single request |
| `WeekdayResolver.ScanEnd` | app.py:73-78 | the scan's end is the first out-of-range day, or 32; every day before it is in range |
| `WeekdayResolver.ScanEndIs` | app.py:73-78 | the scan's end is the day e before which every day is in range and which, below 32, is out of range itself |
| `WeekdayResolver.IsHoliday` | app.py:82 | defines the holiday test of a fetched day, a missing flag read as false |
| `WeekdayResolver.IsSchoolWeekday` | app.py:86 | defines a school weekday as neither Thursday nor Friday |
| `WeekdayResolver.Qualifies` | app.py:80-86 | defines a kept day: fetched, no holiday, and its derived weekday a school weekday; `QualifyingDaysExact` characterises the kept days by it |
| `WeekdayResolver.MonthQualifyingDays` | app.py:73-86 | defines the kept day numbers: the qualifying days before the first out-of-range day, in ascending order |
| `WeekdayResolver.QualifyingDaysExact` | app.py:73-99 | a day is kept exactly when it comes before the first out-of-range day, was fetched successfully, is not a holiday (a missing flag counts as false), and is neither Thursday nor Friday |
| `WeekdayResolver.QualifyingDaysAscending` | app.py:73-92 | the kept days are strictly ascending, so no day appears twice |
| `WeekdayResolver.MonthSchoolDaysIndex` | app.py:82-92 | the month's records correspond one to one, in order, to its kept days: record k carries the month name, the derived weekday and the label of kept day k |
| `WeekdayResolver.SchoolDayOf` | app.py:87-92 | defines the record appended for a kept day: the month name, the derived weekday and the date label |
| `WeekdayResolver.MonthSchoolDays` | app.py:72-99 | defines the month's records, one per kept day in ascending order; `ScanMonth` computes it |
| `WeekdayResolver.ScanRequests` | app.py:73-78 | defines the scan's requests: days 1 up to and including the first out-of-range day, or 1 to 31 |
| `WeekdayResolver.ScanMonth` | app.py:72-99 | the scan loop returns the records of `MonthSchoolDays`; it requests days 1 up to and including the first out-of-range day, or 1 to 31; other errors skip only their own day |
| `WeekdayResolver.TwentyNineDayMonth` | app.py:76-78 | in a 29-day month the scan requests days 1 to 30 and nothing after day 30 |
| `WeekdayResolver.ScanNeverPassesOutOfRange` | app.py:73-78 | the scan's requests are ascending days in 1..31; all but the last are in range; when fewer than 31, the last is out of range |
| `WeekdayResolver.ResolveMonth` | app.py:24-107 | the whole resolver returns `Resolve` and requests the anchor-search days, followed by the scan days only when an anchor was found |
| `WeekdayResolver.Resolve` | app.py:24-107 | defines the whole resolver: invalid month, then the anchor search's failures, then the scan, with an empty scan as a failure |
| `WeekdayResolver.ResolveRequests` | app.py:24-107 | defines the resolver's requests: none for an invalid month, else the anchor search's, then the scan's only when an anchor was found |
| `WeekdayResolver.InvalidMonthFailsFirst` | app.py:36-39 | the result is `InvalidMonth` exactly when the month is outside 1..12, and then nothing is requested |
| `WeekdayResolver.NoAnchorNoScan` | app.py:62-70 | without an anchor the result is `ServiceUnreachable` or `AnchorNotFound`, and only days within 1..7 of the anchor search are requested |
| `WeekdayResolver.ResolvedMonthEmptyIffNoSchoolDay` | app.py:101-103 | with an anchor, the only failure is `NoQualifyingDays`, which happens exactly when no in-range day qualifies |
| `WeekdayResolver.MonthSchoolDaysSound` | app.py:82-92 | the k-th record comes from a kept in-range day that was fetched and is not a holiday; it carries the month name, the derived weekday (never Thursday or Friday) and that day's label |
| `WeekdayResolver.MonthSchoolDaysComplete` | app.py:82-92 | every qualifying in-range day is among the kept days |
| `WeekdayResolver.MonthSchoolDaysDistinctLabels` | app.py:87-92 | no two records of a month share a date label |
| `SheetPlanner.Periods` | app.py:159-164 | a day's periods are the first ordinals: three exactly on Monday and Wednesday, four otherwise |
| `SheetPlanner.PeriodRows` | app.py:154-188 | defines the rows the first n days take: the sum of their period counts |
| `SheetPlanner.BlockAt` | app.py:166-167 | defines day k's block: from 3 plus the earlier days' rows, over its own period count |
| `SheetPlanner.BlocksOf` | app.py:156-188 | defines the blocks of the first n days, one per day in order |
| `SheetPlanner.SheetMerges` | app.py:137-170 | defines the `merge_cells` calls in call order: the title, then the weekday and date columns of each block; there are 1 + 2·blocks of them |
| `SheetPlanner.PrintArea` | app.py:191 | defines the print area string `A1:F` followed by the last row's digits; `PrintAreaRoundTrip` inverts it |
| `SheetPlanner.IsLayoutOf` | app.py:137-195 | defines the layout of the days: title and headers, the blocks and merges, cursor `3 + Σ periods`, print area to cursor − 1, hidden rows cursor..499 and columns 7..199; `PlanSheet` meets it |
| `SheetPlanner.PlanSheet` | app.py:116-195 | empty input gives no workbook; otherwise the layout is `IsLayoutOf`: title over A1:F1, headers in row 2, block k starting at 3 plus the earlier days' periods, column 1 and 2 merges over each block, cursor `3 + Σ periods`, print area `A1:F<cursor-1>`, hidden rows cursor..499 and columns 7..199 |
| `SheetPlanner.BlocksOfIndex` | app.py:154-188 | the k-th block is the block of the k-th day: it starts at 3 plus the earlier days' periods and spans this day's periods |
| `SheetPlanner.SheetMergesIndex` | app.py:137-170 | merge 0 is the title row; merges 2k+1 and 2k+2 span the weekday and date columns of block k |
| `SheetPlanner.PeriodRowsBounds` | app.py:159-164 | n days take between 3n and 4n period rows |
| `SheetPlanner.PeriodRowsGrow` | app.py:188 | each further day moves the cursor down at least three rows |
| `SheetPlanner.BlockAtInOrder` | app.py:166-188 | a day's block ends above the block of every later day |
| `SheetPlanner.BlockAtCovers` | app.py:180-188 | every row from 3 to the end of the last block lies in some block |
| `SheetPlanner.SheetMergesDisjoint` | app.py:137-170 | no two merges of the days' sheet share a cell |
| `SheetPlanner.LayoutMerges` | app.py:137-170 | in a planned layout, merge 0 is the title and merges 2k+1, 2k+2 span the weekday and date columns of block k |
| `SheetPlanner.LayoutBlock` | app.py:154-188 | in a planned layout, block k is the block of day k |
| `SheetPlanner.TableRowsBounds` | app.py:154-188 | the table has between 3 and 4 rows per day |
| `SheetPlanner.BlocksAreContiguous` | app.py:154-188 | blocks start at row 3; each spans exactly its period count; each next one starts on the row after the previous ends; the last ends at cursor − 1 = 2 + Σ periods |
| `SheetPlanner.BlocksInOrder` | app.py:166-188 | an earlier day's block ends above every later day's block |
| `SheetPlanner.MergesAreDisjoint` | app.py:137-170 | no two merged ranges (the title and the weekday and date merges of every block) share a cell |
| `SheetPlanner.RowsAreCovered` | app.py:180-188 | every table row from 3 to the last printed row belongs to some block |
| `SheetPlanner.PrintAreaRoundTrip` | app.py:191 | the print area is `A1:F` followed by exactly the digits of its last row, which read back as that row |
| `SheetPlanner.SaturdayOnDayThree` | app.py:159-164 | with Saturday on day 3: day 3 is Saturday, day 1 (before the anchor) is Thursday, day 5 is Monday with 3 periods, day 6 is Tuesday with 4 |
| `SheetPlanner.ResolvedSheetBlocks` | app.py:156-164 | in the sheet of a resolved month, no block is a Thursday or a Friday, and a block has three periods exactly on Monday and Wednesday, otherwise four |

## Left out

- The Streamlit interface (app.py:206-261), the progress bar and the status messages (`st.progress`, `st.error`, `st.warning`, `st.write`). They are user interface only; the kind of failure is the `ResolveError` tag instead.
- HTTP through `requests` and the URL strings (app.py:48-49, 74-76). They are replaced by the `fetch` parameter. The model keeps only the five response kinds, not the status codes themselves.
- Repeated requests for one day. The source asks about days 1 to the anchor day twice, once in the anchor search (app.py:49) and again in the scan (app.py:76). The single deterministic `fetch` gives both requests the same answer; a service that answers differently the second time is outside the model.
- Since version 2.27 of `requests`, a JSON decoding error is also a `RequestException`. With such a version, the anchor loop's first handler (app.py:62) would catch it before `except ValueError`. The model follows the handler order for a plain `ValueError`: unreadable JSON moves the anchor search on to the next day.
- The `time.sleep(0.05)` pause (app.py:93). It is timing only.
- The response is a typed record, so a body that is JSON but not an object is outside the model. In the source that case would raise an uncaught `AttributeError`.
- Fonts, alignment, borders, column widths, row heights, right-to-left view and grid lines (app.py:119-152, 173-186, 190). These are calls into openpyxl styling. The inner period loop (app.py:180-186) only writes cells and styles them, so it is not a loop here: period i of a block is `periods[i]`, on row `firstRow + i`.
- Saving the workbook to `BytesIO` (app.py:197-200) and `get_column_letter`. The hidden columns are kept as the numbers 7 to 199.
- The pandas DataFrame. It is a `seq<SchoolDay>` in the same order.
- The unused `filename` parameter. The `None` check of app.py:116 is the empty-sequence case, because callers pass a table only after a successful resolution.
- Decimal.ZeroFill: does not model how `zfill` handles a leading sign, because only the non-negative month and day are zero-filled.
