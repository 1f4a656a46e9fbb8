/**
 * The weekday resolver of `get_calendar_from_api` (app.py:24-107): it finds
 * one anchor observation in the first week of the month, then scans the whole
 * month, derives each day's weekday from the anchor and keeps the school days.
 *
 * The remote calendar service is a deterministic function from a day number
 * to the response for that day of the requested year and month. Every method
 * also returns the days it requested, in request order, so that what the
 * code looks at is itself part of its result.
 */
module WeekdayResolver {
  import opened Wrappers
  import opened PersianCalendar

  datatype Event = Event(description: Option<string>)

  /** One day's answer from the calendar service. */
  datatype Response =
    | OutOfRange      // HTTP status 404 or 400: the day is not in the month
    | HttpError       // any other failure status, raised by `raise_for_status`
    | TransportError  // the request itself failed
    | BadJson         // the body was not JSON: `.json()` raised `ValueError`
    | Ok(isHoliday: Option<bool>, events: Option<seq<Event>>)

  type Service = int -> Response

  /** One record of the resulting table (app.py:88-92). */
  datatype SchoolDay = SchoolDay(monthName: string, weekdayName: string, dateLabel: string)

  datatype AnchorOutcome = Found(anchor: Anchor) | Unreachable | NoAnchor

  /** Why the resolver returns `None`. */
  datatype ResolveError = InvalidMonth | ServiceUnreachable | AnchorNotFound | NoQualifyingDays

  /** The days `lo`, `lo + 1`, ..., `hi - 1`. */
  function DayRange(lo: int, hi: int): (r: seq<int>)
    requires lo <= hi
    ensures |r| == hi - lo && forall k :: 0 <= k < |r| ==> r[k] == lo + k
    decreases hi - lo
  {
    if lo == hi then [] else DayRange(lo, hi - 1) + [hi - 1]
  }

  // ---------------------------------------------------------------------
  // Anchor search (app.py:41-70)
  // ---------------------------------------------------------------------

  /** `data.get('events')`, with a missing list read as an empty one. */
  function EventsOf(r: Response): seq<Event>
    requires r.Ok?
  {
    r.events.GetOr([])
  }

  /** The weekday an event names, when its description is a weekday name. */
  function EventWeekday(e: Event): (r: Option<nat>)
    ensures r.Some? <==> e.description.Some? && e.description.value in Weekdays
    ensures r.Some? ==> r.value < 7 && Weekdays[r.value] == e.description.value
  {
    match e.description
    case None => None
    case Some(text) => WeekdayIndexOfDefined(text); WeekdayIndexOf(text)
  }

  /** The weekday named by the first event that names one (app.py:55-59). */
  function FirstWeekday(events: seq<Event>): (r: Option<nat>)
    ensures r.Some? ==> r.value < 7
  {
    if events == [] then None
    else match EventWeekday(events[0])
      case Some(i) => Some(i)
      case None => FirstWeekday(events[1..])
  }

  /** No event before position `k` names a weekday. */
  predicate NoWeekdayBefore(events: seq<Event>, k: int)
    requires k <= |events|
  {
    forall j :: 0 <= j < k ==> EventWeekday(events[j]).None?
  }

  lemma {:induction false} FirstWeekdayNone(events: seq<Event>)
    ensures FirstWeekday(events).None? <==> NoWeekdayBefore(events, |events|)
  {
    if events != [] {
      FirstWeekdayNone(events[1..]);
      assert forall j :: 1 <= j < |events| ==> events[j] == events[1..][j - 1];
    }
  }

  /** Within one day, the first event that names a weekday wins. */
  lemma {:induction false} FirstWeekdayIsFirstMatch(events: seq<Event>, k: nat)
    requires k < |events| && EventWeekday(events[k]).Some? && NoWeekdayBefore(events, k)
    ensures FirstWeekday(events) == EventWeekday(events[k])
  {
    if k > 0 {
      assert EventWeekday(events[0]).None?;
      assert forall j :: 0 <= j < k - 1 ==> events[1..][j] == events[j + 1];
      FirstWeekdayIsFirstMatch(events[1..], k - 1);
    }
  }

  predicate IsRequestError(r: Response) {
    r.HttpError? || r.TransportError?
  }

  /**
   * The anchor search goes on past a day that gave unreadable JSON, or whose
   * events name no weekday.
   */
  predicate Passes(r: Response) {
    r.BadJson? || (r.Ok? && FirstWeekday(EventsOf(r)).None?)
  }

  /** The last day the anchor search requests, when it starts at `day`. */
  function AnchorStop(fetch: Service, day: int): (s: int)
    requires 1 <= day <= 7
    ensures day <= s <= 7
    ensures forall d :: day <= d < s ==> Passes(fetch(d))
    ensures s < 7 ==> !Passes(fetch(s))
    decreases 7 - day
  {
    if day == 7 || !Passes(fetch(day)) then day else AnchorStop(fetch, day + 1)
  }

  /** What the anchor search concludes from the response of the day it stopped at. */
  function AnchorOutcomeAt(r: Response, day: int): AnchorOutcome {
    match r
    case Ok(_, _) =>
      (match FirstWeekday(EventsOf(r))
       case Some(i) => Found(Anchor(i, day))
       case None => NoAnchor)
    case HttpError => Unreachable
    case TransportError => Unreachable
    case _ => NoAnchor
  }

  function AnchorOf(fetch: Service): AnchorOutcome {
    AnchorOutcomeAt(fetch(AnchorStop(fetch, 1)), AnchorStop(fetch, 1))
  }

  /** The search stops at the first day that does not pass, or at day 7. */
  lemma AnchorStopIs(fetch: Service, s: int)
    requires 1 <= s <= 7
    requires forall d :: 1 <= d < s ==> Passes(fetch(d))
    requires s < 7 ==> !Passes(fetch(s))
    ensures AnchorStop(fetch, 1) == s
  {
    var t := AnchorStop(fetch, 1);
    assert !(t < s) && !(s < t);
  }

  /** The anchor search requests days 1 to the day it stops at, in order. */
  function AnchorRequests(fetch: Service): seq<int> {
    DayRange(1, AnchorStop(fetch, 1) + 1)
  }

  /**
   * The loops of app.py:43-70: days 1 to 7 in turn; stop without an anchor
   * at the first out-of-range day, give up at the first request error, go
   * on past unreadable JSON, and stop at the first day whose events name a
   * weekday.
   */
  method FindAnchor(fetch: Service) returns (outcome: AnchorOutcome, requested: seq<int>)
    ensures outcome == AnchorOf(fetch)
    ensures requested == AnchorRequests(fetch)
  {
    var startWeekdayIndex: int := -1;
    var anchorDay: int := -1;
    requested := [];
    var day := 1;
    while day <= 7
      invariant 1 <= day <= 8
      invariant requested == DayRange(1, day)
      invariant forall d :: 1 <= d < day ==> Passes(fetch(d))
      invariant startWeekdayIndex == -1
    {
      var response := fetch(day);
      requested := requested + [day];
      if response.OutOfRange? {
        break;
      }
      if IsRequestError(response) {
        AnchorStopIs(fetch, day);
        return Unreachable, requested;
      }
      if response.BadJson? {
        day := day + 1;
        continue;
      }
      var events := EventsOf(response);
      var k := 0;
      while k < |events|
        invariant 0 <= k <= |events|
        invariant startWeekdayIndex == -1 && NoWeekdayBefore(events, k)
      {
        var w := EventWeekday(events[k]);
        if w.Some? {
          startWeekdayIndex := w.value;
          anchorDay := day;
          break;
        }
        k := k + 1;
      }
      if startWeekdayIndex != -1 {
        FirstWeekdayIsFirstMatch(events, k);
        break;
      }
      FirstWeekdayNone(events);
      day := day + 1;
    }
    AnchorStopIs(fetch, if day == 8 then 7 else day);
    if startWeekdayIndex == -1 {
      outcome := NoAnchor;
    } else {
      outcome := Found(Anchor(startWeekdayIndex, anchorDay));
    }
  }

  /**
   * The anchor found is the day that first names a weekday, with the first
   * such event of that day, and every earlier day had unreadable JSON or no
   * weekday event; and conversely.
   */
  lemma FoundAnchorIsFirstWeekdayEvent(fetch: Service, a: Anchor)
    ensures AnchorOf(fetch) == Found(a) <==>
      && 1 <= a.day <= 7
      && (forall d :: 1 <= d < a.day ==> Passes(fetch(d)))
      && fetch(a.day).Ok?
      && FirstWeekday(EventsOf(fetch(a.day))) == Some(a.weekdayIndex)
  {
    var s := AnchorStop(fetch, 1);
    if && 1 <= a.day <= 7
       && (forall d :: 1 <= d < a.day ==> Passes(fetch(d)))
       && fetch(a.day).Ok?
       && FirstWeekday(EventsOf(fetch(a.day))) == Some(a.weekdayIndex)
    {
      assert !Passes(fetch(a.day));
      assert s == a.day;
    }
  }

  /** A day whose events name a weekday holds a first such event, which names it. */
  lemma {:induction false} FirstWeekdayPosition(events: seq<Event>) returns (k: nat)
    requires FirstWeekday(events).Some?
    ensures k < |events| && NoWeekdayBefore(events, k)
    ensures events[k].description == Some(Weekdays[FirstWeekday(events).value])
  {
    if EventWeekday(events[0]).Some? {
      k := 0;
    } else {
      var j := FirstWeekdayPosition(events[1..]);
      k := j + 1;
      assert events[k] == events[1..][j];
      assert forall i :: 1 <= i < k ==> events[i] == events[1..][i - 1];
    }
  }

  /**
   * The anchor's index is the position, in the Saturday-first week, of the
   * name in the first event of the anchor day that names a weekday.
   */
  lemma FoundAnchorIsNamedByFirstEvent(fetch: Service, a: Anchor) returns (k: nat)
    requires AnchorOf(fetch) == Found(a)
    ensures 0 <= a.weekdayIndex < 7 && 1 <= a.day <= 7 && fetch(a.day).Ok?
    ensures var events := EventsOf(fetch(a.day));
      k < |events| && NoWeekdayBefore(events, k) && events[k].description == Some(Weekdays[a.weekdayIndex])
  {
    k := FirstWeekdayPosition(EventsOf(fetch(a.day)));
  }

  /**
   * A request error is fatal in the anchor search exactly when it comes
   * before any day that stops the search otherwise.
   */
  lemma UnreachableIffRequestError(fetch: Service)
    ensures AnchorOf(fetch).Unreachable? <==>
      exists d :: 1 <= d <= 7 && IsRequestError(fetch(d)) && forall e :: 1 <= e < d ==> Passes(fetch(e))
  {
    var s := AnchorStop(fetch, 1);
    if AnchorOf(fetch).Unreachable? {
      assert IsRequestError(fetch(s));
    }
    if exists d :: 1 <= d <= 7 && IsRequestError(fetch(d)) && forall e :: 1 <= e < d ==> Passes(fetch(e)) {
      var d :| 1 <= d <= 7 && IsRequestError(fetch(d)) && forall e :: 1 <= e < d ==> Passes(fetch(e));
      assert !Passes(fetch(d));
      assert s == d;
    }
  }

  /** An out-of-range first day ends the search at once, with no anchor. */
  lemma OutOfRangeDayOneHasNoAnchor(fetch: Service)
    requires fetch(1).OutOfRange?
    ensures AnchorOf(fetch) == NoAnchor && AnchorRequests(fetch) == [1]
  {
  }

  // ---------------------------------------------------------------------
  // Month scan and school-day filter (app.py:72-99)
  // ---------------------------------------------------------------------

  /** `data.get('is_holiday', False)`, a missing flag counting as false. */
  predicate IsHoliday(r: Response)
    requires r.Ok?
  {
    r.isHoliday.GetOr(false)
  }

  predicate IsSchoolWeekday(name: string) {
    name != Thursday && name != Friday
  }

  /** A successfully fetched day that is no holiday and falls on neither Thursday nor Friday. */
  predicate Qualifies(r: Response, anchor: Anchor, day: int) {
    r.Ok? && !IsHoliday(r) && IsSchoolWeekday(WeekdayAt(anchor, day))
  }

  /** The first out-of-range day from `day` on, or 32 when days to 31 are all in range. */
  function ScanEnd(fetch: Service, day: int): (e: int)
    requires 1 <= day <= 32
    ensures day <= e <= 32
    ensures forall d :: day <= d < e ==> !fetch(d).OutOfRange?
    ensures e <= 31 ==> fetch(e).OutOfRange?
    decreases 32 - day
  {
    if day == 32 || fetch(day).OutOfRange? then day else ScanEnd(fetch, day + 1)
  }

  /** The qualifying days among days 1 to `day - 1`, in ascending order. */
  function QualifyingDaysBefore(fetch: Service, anchor: Anchor, day: nat): seq<nat>
    requires 1 <= day <= 32
  {
    if day == 1 then []
    else QualifyingDaysBefore(fetch, anchor, day - 1)
         + (if Qualifies(fetch(day - 1), anchor, day - 1) then [day - 1] else [])
  }

  /** The days the month scan keeps: the qualifying days before the first out-of-range day. */
  function MonthQualifyingDays(fetch: Service, anchor: Anchor): seq<nat> {
    QualifyingDaysBefore(fetch, anchor, ScanEnd(fetch, 1))
  }

  lemma {:induction false} QualifyingDaysBeforeExact(fetch: Service, anchor: Anchor, day: nat, d: int)
    requires 1 <= day <= 32
    ensures d in QualifyingDaysBefore(fetch, anchor, day) <==> 1 <= d < day && Qualifies(fetch(d), anchor, d)
  {
    if day > 1 {
      QualifyingDaysBeforeExact(fetch, anchor, day - 1, d);
    }
  }

  /**
   * A day is kept exactly when it lies before the first out-of-range day,
   * was fetched successfully, is no holiday and is neither Thursday nor
   * Friday.
   */
  lemma QualifyingDaysExact(fetch: Service, anchor: Anchor, d: int)
    ensures d in MonthQualifyingDays(fetch, anchor) <==>
      1 <= d < ScanEnd(fetch, 1) && Qualifies(fetch(d), anchor, d)
  {
    QualifyingDaysBeforeExact(fetch, anchor, ScanEnd(fetch, 1), d);
  }

  predicate StrictlyAscending(s: seq<int>) {
    forall i, j :: 0 <= i < j < |s| ==> s[i] < s[j]
  }

  lemma {:induction false} QualifyingDaysBeforeAscending(fetch: Service, anchor: Anchor, day: nat)
    requires 1 <= day <= 32
    ensures StrictlyAscending(QualifyingDaysBefore(fetch, anchor, day))
  {
    if day > 1 {
      var prev := QualifyingDaysBefore(fetch, anchor, day - 1);
      QualifyingDaysBeforeAscending(fetch, anchor, day - 1);
      if Qualifies(fetch(day - 1), anchor, day - 1) {
        var ds := prev + [day - 1];
        forall k | 0 <= k < |prev| ensures prev[k] < day - 1 {
          QualifyingDaysBeforeExact(fetch, anchor, day - 1, prev[k]);
        }
        assert QualifyingDaysBefore(fetch, anchor, day) == ds;
        forall i, j | 0 <= i < j < |ds| ensures ds[i] < ds[j] {
          assert ds[i] == prev[i];
        }
      } else {
        assert QualifyingDaysBefore(fetch, anchor, day) == prev;
      }
    }
  }

  /** The kept days are in strictly ascending order, hence without duplicates. */
  lemma QualifyingDaysAscending(fetch: Service, anchor: Anchor)
    ensures StrictlyAscending(MonthQualifyingDays(fetch, anchor))
  {
    QualifyingDaysBeforeAscending(fetch, anchor, ScanEnd(fetch, 1));
  }

  /** The first out-of-range day is the day before which all are in range and which is out of range itself. */
  lemma ScanEndIs(fetch: Service, e: int)
    requires 1 <= e <= 32
    requires forall d :: 1 <= d < e ==> !fetch(d).OutOfRange?
    requires e <= 31 ==> fetch(e).OutOfRange?
    ensures ScanEnd(fetch, 1) == e
  {
    var s := ScanEnd(fetch, 1);
    assert !(s < e) && !(e < s);
  }

  function SchoolDayOf(year: int, month: nat, monthName: string, anchor: Anchor, day: nat): SchoolDay {
    SchoolDay(monthName, WeekdayAt(anchor, day), DateLabel(year, month, day))
  }

  /** The records of the qualifying days among days 1 to `day - 1`, in ascending order of day. */
  function SchoolDaysBefore(fetch: Service, year: int, month: nat, monthName: string, anchor: Anchor, day: nat): seq<SchoolDay>
    requires 1 <= day <= 32
  {
    if day == 1 then []
    else SchoolDaysBefore(fetch, year, month, monthName, anchor, day - 1)
         + (if Qualifies(fetch(day - 1), anchor, day - 1) then [SchoolDayOf(year, month, monthName, anchor, day - 1)] else [])
  }

  /** The `k`-th record is the record of the `k`-th qualifying day. */
  lemma {:induction false} SchoolDaysBeforeIndex(fetch: Service, year: int, month: nat, monthName: string, anchor: Anchor, day: nat)
    requires 1 <= day <= 32
    ensures var s := SchoolDaysBefore(fetch, year, month, monthName, anchor, day);
      var ds := QualifyingDaysBefore(fetch, anchor, day);
      |s| == |ds| && forall k :: 0 <= k < |s| ==> s[k] == SchoolDayOf(year, month, monthName, anchor, ds[k])
  {
    if day > 1 {
      SchoolDaysBeforeIndex(fetch, year, month, monthName, anchor, day - 1);
    }
  }

  /** The month scan requests days 1 to the first out-of-range one, or to 31. */
  function ScanRequests(fetch: Service): seq<int> {
    var e := ScanEnd(fetch, 1);
    DayRange(1, if e <= 31 then e + 1 else 32)
  }

  function MonthSchoolDays(fetch: Service, year: int, month: nat, monthName: string, anchor: Anchor): seq<SchoolDay> {
    SchoolDaysBefore(fetch, year, month, monthName, anchor, ScanEnd(fetch, 1))
  }

  /** The month's records are those of its qualifying days, in the same order. */
  lemma MonthSchoolDaysIndex(fetch: Service, year: int, month: nat, monthName: string, anchor: Anchor)
    ensures var s := MonthSchoolDays(fetch, year, month, monthName, anchor);
      var ds := MonthQualifyingDays(fetch, anchor);
      |s| == |ds| && forall k :: 0 <= k < |s| ==> s[k] == SchoolDayOf(year, month, monthName, anchor, ds[k])
  {
    SchoolDaysBeforeIndex(fetch, year, month, monthName, anchor, ScanEnd(fetch, 1));
  }

  /**
   * The loop of app.py:73-99: days 1 to 31 in turn, stopping at the first
   * out-of-range day; a request error or unreadable JSON skips only that
   * day; a fetched day is kept when it is no holiday and its derived
   * weekday is neither Thursday nor Friday.
   */
  method ScanMonth(fetch: Service, year: int, month: nat, monthName: string, anchor: Anchor)
    returns (schoolDays: seq<SchoolDay>, requested: seq<int>)
    ensures schoolDays == MonthSchoolDays(fetch, year, month, monthName, anchor)
    ensures requested == ScanRequests(fetch)
  {
    schoolDays := [];
    requested := [];
    var day := 1;
    while day <= 31
      invariant 1 <= day <= 32
      invariant requested == DayRange(1, day)
      invariant forall d :: 1 <= d < day ==> !fetch(d).OutOfRange?
      invariant schoolDays == SchoolDaysBefore(fetch, year, month, monthName, anchor, day)
    {
      var response := fetch(day);
      requested := requested + [day];
      if response.OutOfRange? {
        break;
      }
      if response.Ok? {
        var isHoliday := IsHoliday(response);
        var weekdayName := WeekdayAt(anchor, day);
        if !isHoliday && IsSchoolWeekday(weekdayName) {
          schoolDays := schoolDays + [SchoolDayOf(year, month, monthName, anchor, day)];
        }
      }
      day := day + 1;
    }
    ScanEndIs(fetch, day);
  }

  // ---------------------------------------------------------------------
  // The whole resolver (app.py:24-107)
  // ---------------------------------------------------------------------

  /** The table `get_calendar_from_api` returns, or why it returns `None`. */
  function Resolve(fetch: Service, year: int, month: int): Result<seq<SchoolDay>, ResolveError> {
    match MonthName(month)
    case None => Failure(InvalidMonth)
    case Some(name) =>
      match AnchorOf(fetch)
      case Unreachable => Failure(ServiceUnreachable)
      case NoAnchor => Failure(AnchorNotFound)
      case Found(a) =>
        var days := MonthSchoolDays(fetch, year, month, name, a);
        if days == [] then Failure(NoQualifyingDays) else Success(days)
  }

  /** Every day the resolver requests, in order. */
  function ResolveRequests(fetch: Service, month: int): seq<int> {
    if MonthName(month).None? then []
    else if AnchorOf(fetch).Found? then AnchorRequests(fetch) + ScanRequests(fetch)
    else AnchorRequests(fetch)
  }

  method ResolveMonth(fetch: Service, year: int, month: int)
    returns (result: Result<seq<SchoolDay>, ResolveError>, requested: seq<int>)
    ensures result == Resolve(fetch, year, month)
    ensures requested == ResolveRequests(fetch, month)
  {
    var monthName := MonthName(month);
    if monthName.None? {
      return Failure(InvalidMonth), [];
    }
    var outcome, anchorRequests := FindAnchor(fetch);
    requested := anchorRequests;
    if outcome.Unreachable? {
      return Failure(ServiceUnreachable), requested;
    }
    if outcome.NoAnchor? {
      return Failure(AnchorNotFound), requested;
    }
    var schoolDays, scanRequests := ScanMonth(fetch, year, month, monthName.value, outcome.anchor);
    requested := requested + scanRequests;
    if schoolDays == [] {
      return Failure(NoQualifyingDays), requested;
    }
    result := Success(schoolDays);
  }

  /** A month outside 1..12 fails before any day is requested. */
  lemma InvalidMonthFailsFirst(fetch: Service, year: int, month: int)
    ensures Resolve(fetch, year, month) == Failure(InvalidMonth) <==> !(1 <= month <= 12)
    ensures !(1 <= month <= 12) ==> ResolveRequests(fetch, month) == []
  {
  }

  /**
   * Without an anchor the month is never scanned: the only days requested
   * are those of the anchor search.
   */
  lemma NoAnchorNoScan(fetch: Service, year: int, month: int)
    requires 1 <= month <= 12 && !AnchorOf(fetch).Found?
    ensures Resolve(fetch, year, month) == Failure(if AnchorOf(fetch).Unreachable? then ServiceUnreachable else AnchorNotFound)
    ensures ResolveRequests(fetch, month) == AnchorRequests(fetch)
    ensures forall k :: 0 <= k < |ResolveRequests(fetch, month)| ==> 1 <= ResolveRequests(fetch, month)[k] <= 7
  {
  }

  /**
   * No day after the first out-of-range one is ever requested by the scan,
   * and the days are requested in ascending order.
   */
  lemma ScanNeverPassesOutOfRange(fetch: Service)
    ensures var rs := ScanRequests(fetch);
      && (forall i, j :: 0 <= i < j < |rs| ==> rs[i] < rs[j])
      && (forall k :: 0 <= k < |rs| ==> 1 <= rs[k] <= 31)
      && (forall k :: 0 <= k < |rs| - 1 ==> !fetch(rs[k]).OutOfRange?)
      && (|rs| < 31 ==> fetch(rs[|rs| - 1]).OutOfRange?)
  {
  }

  /**
   * In a 29-day month the scan requests days 1 to 30, learns from day 30 that
   * the month has ended, and requests nothing after it.
   */
  lemma TwentyNineDayMonth(fetch: Service)
    requires forall d :: 1 <= d <= 29 ==> !fetch(d).OutOfRange?
    requires fetch(30).OutOfRange?
    ensures ScanEnd(fetch, 1) == 30
    ensures ScanRequests(fetch) == DayRange(1, 31)
  {
    var e := ScanEnd(fetch, 1);
    assert e <= 30 && !(e < 30);
  }

  /** A resolved month fails only when no day of it qualifies. */
  lemma ResolvedMonthEmptyIffNoSchoolDay(fetch: Service, year: int, month: int, a: Anchor)
    requires 1 <= month <= 12 && AnchorOf(fetch) == Found(a)
    ensures Resolve(fetch, year, month).Failure? ==> Resolve(fetch, year, month) == Failure(NoQualifyingDays)
    ensures Resolve(fetch, year, month).Failure? <==>
      forall d :: 1 <= d < ScanEnd(fetch, 1) ==> !Qualifies(fetch(d), a, d)
  {
    var ds := MonthQualifyingDays(fetch, a);
    MonthSchoolDaysIndex(fetch, year, month, MonthName(month).value, a);
    if ds == [] {
      forall d | 1 <= d < ScanEnd(fetch, 1) ensures !Qualifies(fetch(d), a, d) {
        QualifyingDaysExact(fetch, a, d);
      }
    } else {
      QualifyingDaysExact(fetch, a, ds[0]);
    }
  }

  /**
   * Each record of the month is that of a day before the first out-of-range
   * day which was fetched, is no holiday and whose derived weekday is neither
   * Thursday nor Friday; the record carries the month's name, that weekday,
   * and the day's label.
   */
  lemma MonthSchoolDaysSound(fetch: Service, year: int, month: nat, monthName: string, a: Anchor, k: int)
    requires 0 <= k < |MonthQualifyingDays(fetch, a)|
    ensures var d := MonthQualifyingDays(fetch, a)[k];
      && |MonthSchoolDays(fetch, year, month, monthName, a)| == |MonthQualifyingDays(fetch, a)|
      && 1 <= d < ScanEnd(fetch, 1)
      && fetch(d).Ok? && !IsHoliday(fetch(d))
      && MonthSchoolDays(fetch, year, month, monthName, a)[k]
         == SchoolDay(monthName, WeekdayAt(a, d), DateLabel(year, month, d))
      && IsSchoolWeekday(MonthSchoolDays(fetch, year, month, monthName, a)[k].weekdayName)
  {
    QualifyingDaysExact(fetch, a, MonthQualifyingDays(fetch, a)[k]);
    MonthSchoolDaysIndex(fetch, year, month, monthName, a);
  }

  /** Every qualifying day of the month has its record. */
  lemma MonthSchoolDaysComplete(fetch: Service, a: Anchor, d: int)
    requires 1 <= d < ScanEnd(fetch, 1) && Qualifies(fetch(d), a, d)
    ensures d in MonthQualifyingDays(fetch, a)
  {
    QualifyingDaysExact(fetch, a, d);
  }

  /** The records follow the days in strictly ascending order, so no two share a date label. */
  lemma MonthSchoolDaysDistinctLabels(fetch: Service, year: int, month: nat, monthName: string, a: Anchor)
    requires 1 <= month <= 12
    ensures var s := MonthSchoolDays(fetch, year, month, monthName, a);
      forall i, j :: 0 <= i < j < |s| ==> s[i].dateLabel != s[j].dateLabel
  {
    var ds := MonthQualifyingDays(fetch, a);
    var s := MonthSchoolDays(fetch, year, month, monthName, a);
    QualifyingDaysAscending(fetch, a);
    MonthSchoolDaysIndex(fetch, year, month, monthName, a);
    forall i, j | 0 <= i < j < |s| ensures s[i].dateLabel != s[j].dateLabel {
      QualifyingDaysExact(fetch, a, ds[i]);
      QualifyingDaysExact(fetch, a, ds[j]);
      assert s[i].dateLabel == DateLabel(year, month, ds[i]);
      assert s[j].dateLabel == DateLabel(year, month, ds[j]);
      if s[i].dateLabel == s[j].dateLabel {
        DateLabelInjective(year, month, ds[i], ds[j]);
      }
    }
  }
}
