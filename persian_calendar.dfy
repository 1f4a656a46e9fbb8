/**
 * The fixed Persian tables of the attendance sheet (the Saturday-first week
 * and the twelve month names), the weekday arithmetic that derives every
 * day's weekday from one anchor observation, and the `YYYY/MM/DD` date label.
 */
module PersianCalendar {
  import opened Wrappers
  import opened Decimal

  /** The week in Persian order, Saturday first (app.py:41). */
  const Weekdays: seq<string> :=
    ["شنبه", "یکشنبه", "دوشنبه", "سه\U{200C}شنبه", "چهارشنبه", "پنجشنبه", "جمعه"]

  const Monday: string := "دوشنبه"
  const Wednesday: string := "چهارشنبه"
  const Thursday: string := "پنجشنبه"
  const Friday: string := "جمعه"

  /** The month table, keyed by month number (app.py:30-35). */
  const PersianMonths: map<int, string> := map[
    1 := "فروردین", 2 := "اردیبهشت", 3 := "خرداد",
    4 := "تیر", 5 := "مرداد", 6 := "شهریور",
    7 := "مهر", 8 := "آبان", 9 := "آذر",
    10 := "دی", 11 := "بهمن", 12 := "اسفند"]

  /** `persian_months.get(month, '')`, with the empty default as `None`. */
  function MonthName(month: int): (r: Option<string>)
    ensures r.Some? <==> 1 <= month <= 12
    ensures r.Some? ==> r.value != ""
  {
    if month in PersianMonths then Some(PersianMonths[month]) else None
  }

  /** The position of the first occurrence of `x` in `s`, as Python's `list.index`. */
  function IndexOf<T(==)>(s: seq<T>, x: T): (r: Option<nat>)
    ensures r.Some? ==> r.value < |s| && s[r.value] == x
  {
    if s == [] then None
    else if s[0] == x then Some(0)
    else match IndexOf(s[1..], x)
      case Some(i) => Some(i + 1)
      case None => None
  }

  /** `list.index` finds the first occurrence, and finds nothing exactly when the item is absent. */
  lemma {:induction false} IndexOfIsFirst<T>(s: seq<T>, x: T)
    ensures IndexOf(s, x).Some? ==> forall k :: 0 <= k < IndexOf(s, x).value ==> s[k] != x
    ensures IndexOf(s, x).None? <==> x !in s
  {
    if s != [] && s[0] != x {
      IndexOfIsFirst(s[1..], x);
      assert forall k :: 1 <= k < |s| ==> s[k] == s[1..][k - 1];
      assert x in s <==> x in s[1..];
    }
  }

  /** Membership in the set of weekday names, then `weekdays.index(name)` (app.py:56-57). */
  function WeekdayIndexOf(name: string): (r: Option<nat>)
    ensures r.Some? ==> r.value < 7 && Weekdays[r.value] == name
  {
    IndexOf(Weekdays, name)
  }

  /** A name has a weekday index exactly when it is one of the seven weekday names. */
  lemma WeekdayIndexOfDefined(name: string)
    ensures WeekdayIndexOf(name).Some? <==> name in Weekdays
  {
    IndexOfIsFirst(Weekdays, name);
  }

  lemma WeekdaysDistinct(i: nat, j: nat)
    requires i < 7 && j < 7 && i != j
    ensures Weekdays[i] != Weekdays[j]
  {
  }

  /** The anchor observation: day `day` of the month fell on `Weekdays[weekdayIndex]`. */
  datatype Anchor = Anchor(weekdayIndex: int, day: int)

  /**
   * `(start_weekday_index + (day - anchor_day)) % 7` (app.py:83). Python's `%`
   * with the positive divisor 7 is never negative, and agrees with Dafny's.
   */
  function WeekdayIndexAt(anchor: Anchor, day: int): (i: int)
    ensures 0 <= i < 7
    ensures (i - anchor.weekdayIndex - (day - anchor.day)) % 7 == 0
  {
    (anchor.weekdayIndex + (day - anchor.day)) % 7
  }

  function WeekdayAt(anchor: Anchor, day: int): string {
    Weekdays[WeekdayIndexAt(anchor, day)]
  }

  /** The anchor day itself gets the anchor's weekday. */
  lemma WeekdayAtAnchorDay(anchor: Anchor)
    requires 0 <= anchor.weekdayIndex < 7
    ensures WeekdayIndexAt(anchor, anchor.day) == anchor.weekdayIndex
  {
  }

  /** Each next day's weekday is the previous one's successor in the week. */
  lemma WeekdayAdvances(anchor: Anchor, day: int)
    ensures WeekdayIndexAt(anchor, day + 1) == (WeekdayIndexAt(anchor, day) + 1) % 7
  {
  }

  /** A weekday assignment in which day `day + 1` follows day `day` in the week. */
  predicate Successive(week: int -> int, day: int) {
    0 <= week(day) < 7 && week(day + 1) == (week(day) + 1) % 7
  }

  /**
   * Whatever the true weekdays of the month are, so long as consecutive days
   * have consecutive weekdays and the anchor observation is correct, the
   * derived weekday of every day, before or after the anchor, is the true one.
   */
  lemma {:induction false} DerivedWeekdayIsTrue(anchor: Anchor, week: int -> int, day: int)
    requires forall d :: Successive(week, d)
    requires anchor.weekdayIndex == week(anchor.day)
    ensures WeekdayIndexAt(anchor, day) == week(day)
    decreases if day < anchor.day then anchor.day - day else day - anchor.day
  {
    assert Successive(week, anchor.day);
    if day > anchor.day {
      DerivedWeekdayIsTrue(anchor, week, day - 1);
      assert Successive(week, day - 1);
      WeekdayAdvances(anchor, day - 1);
    } else if day < anchor.day {
      DerivedWeekdayIsTrue(anchor, week, day + 1);
      assert Successive(week, day);
      WeekdayAdvances(anchor, day);
      SuccessorInjective(WeekdayIndexAt(anchor, day), week(day));
    }
  }

  lemma SuccessorInjective(a: int, b: int)
    requires 0 <= a < 7 && 0 <= b < 7 && (a + 1) % 7 == (b + 1) % 7
    ensures a == b
  {
    assert a == 6 <==> (a + 1) % 7 == 0;
    assert b == 6 <==> (b + 1) % 7 == 0;
  }

  /** `f"{year}/{str(month).zfill(2)}/{str(day).zfill(2)}"` (app.py:87). */
  function DateLabel(year: int, month: nat, day: nat): string {
    IntToDecimal(year) + "/" + ZeroFill(NatToDecimal(month), 2) + "/" + ZeroFill(NatToDecimal(day), 2)
  }

  /** Reads a `YYYY/MM/DD` label back into its year, month and day. */
  function ParseDateLabel(s: string): Option<(int, nat, nat)> {
    if |s| >= 7 && s[|s| - 6] == '/' && s[|s| - 3] == '/'
       && AllDigits(s[|s| - 5..|s| - 3]) && AllDigits(s[|s| - 2..])
    then match ParseInt(s[..|s| - 6])
      case Some(y) => Some((y, DigitsValue(s[|s| - 5..|s| - 3]), DigitsValue(s[|s| - 2..])))
      case None => None
    else None
  }

  /** A label of a month and day below 100 reads back as the year, month and day it was made of. */
  lemma DateLabelRoundTrip(year: int, month: nat, day: nat)
    requires month < 100 && day < 100
    ensures ParseDateLabel(DateLabel(year, month, day)) == Some((year, month, day))
  {
    IntRoundTrip(year);
    TwoDigitRoundTrip(month);
    TwoDigitRoundTrip(day);
    ParseJoinedLabel(IntToDecimal(year), ZeroFill(NatToDecimal(month), 2), ZeroFill(NatToDecimal(day), 2), year, month, day);
  }

  /** Joining a year numeral and two two-digit fields with slashes reads back as the three numbers. */
  lemma ParseJoinedLabel(y: string, m: string, d: string, year: int, month: nat, day: nat)
    requires ParseInt(y) == Some(year)
    requires |m| == 2 && AllDigits(m) && DigitsValue(m) == month
    requires |d| == 2 && AllDigits(d) && DigitsValue(d) == day
    ensures ParseDateLabel(y + "/" + m + "/" + d) == Some((year, month, day))
  {
    var tail := "/" + m + "/" + d;
    var s := y + tail;
    assert y + "/" + m + "/" + d == s;
    assert |tail| == 6 && tail[0] == '/' && tail[1..3] == m && tail[3] == '/' && tail[4..] == d;
    assert s[..|s| - 6] == y && s[|s| - 6..] == tail;
    assert s[|s| - 5..|s| - 3] == tail[1..3];
    assert s[|s| - 2..] == tail[4..];
  }

  /** Different days of one month never share a label. */
  lemma DateLabelInjective(year: int, month: nat, day1: nat, day2: nat)
    requires month < 100 && day1 < 100 && day2 < 100
    requires DateLabel(year, month, day1) == DateLabel(year, month, day2)
    ensures day1 == day2
  {
    DateLabelRoundTrip(year, month, day1);
    DateLabelRoundTrip(year, month, day2);
  }
}
