/** Calendar arithmetic of the planner: Monday-start weeks, month grids,
    hourly slots and 24-hour to 12-hour formatting (src/utils/dateUtils.ts),
    on day numbers over the proleptic Gregorian calendar. */
module DateUtils {
  import opened Types
  import opened Text

  /** Monday is 0 and Sunday is 6; day 0, 1970-01-01, was a Thursday. */
  function Weekday(d: Day): (w: int)
    ensures 0 <= w < 7
  {
    (d + 3) % 7
  }

  /** date-fns `startOfWeek(d, { weekStartsOn: 1 })`: the Monday on or before `d`. */
  function StartOfWeekMonday(d: Day): (s: Day)
    ensures s <= d < s + 7 && Weekday(s) == 0
  {
    d - Weekday(d)
  }

  /** date-fns `endOfWeek(d, { weekStartsOn: 1 })`, as a day: the Sunday on or after `d`. */
  function EndOfWeekMonday(d: Day): (e: Day)
    ensures e - 6 <= d <= e && Weekday(e) == 6
  {
    StartOfWeekMonday(d) + 6
  }

  /** date-fns `startOfWeek(d)` with its default Sunday start: the Sunday on or before `d`. */
  function StartOfWeekSunday(d: Day): (s: Day)
    ensures s <= d < s + 7 && Weekday(s) == 6
  {
    d - (d + 4) % 7
  }

  /** Two days lie in the same Monday-start week exactly when their distance
      is below 7 and they are in weekday order. */
  lemma SameWeekMonday(d: Day, e: Day)
    ensures StartOfWeekMonday(d) == StartOfWeekMonday(e) <==> StartOfWeekMonday(d) <= e <= StartOfWeekMonday(d) + 6
  {
    var s := StartOfWeekMonday(d);
    if s <= e <= s + 6 {
      assert Weekday(e) == e - s by {
        assert e + 3 == (s + 3) + (e - s);
        assert (s + 3) % 7 == 0;
      }
    }
  }

  /** `isDateInRange(date, start, end)`: both ends are included. */
  predicate IsDateInRange(date: int, start: int, end: int) {
    date >= start && date <= end
  }

  /** A day is in the Monday-to-Sunday range of some day's week exactly when
      the two days share their week start. */
  lemma InWeekRangeIffSameWeek(d: Day, selected: Day)
    ensures IsDateInRange(d, StartOfWeekMonday(selected), EndOfWeekMonday(selected))
      <==> StartOfWeekMonday(d) == StartOfWeekMonday(selected)
  {
    SameWeekMonday(selected, d);
  }

  predicate IsLeapYear(y: int) {
    y % 4 == 0 && (y % 100 != 0 || y % 400 == 0)
  }

  function DaysInMonth(y: int, m: int): (n: int)
    requires 1 <= m <= 12
    ensures 28 <= n <= 31
  {
    if m == 2 then (if IsLeapYear(y) then 29 else 28)
    else if m == 4 || m == 6 || m == 9 || m == 11 then 30
    else 31
  }

  /** Days in the months of year `y` before month `m`. */
  function DaysBeforeMonth(y: int, m: int): (n: int)
    requires 1 <= m <= 13
    decreases m
  {
    if m == 1 then 0 else DaysBeforeMonth(y, m - 1) + DaysInMonth(y, m - 1)
  }

  /** The number of leap years among 1 .. y-1 (negative below year 1). */
  function LeapsBefore(y: int): int {
    (y - 1) / 4 - (y - 1) / 100 + (y - 1) / 400
  }

  /** The day number of January 1 of year `y`. */
  function YearStart(y: int): Day {
    365 * (y - 1970) + LeapsBefore(y) - LeapsBefore(1970)
  }

  predicate ValidDate(y: int, m: int, d: int) {
    1 <= m <= 12 && 1 <= d <= DaysInMonth(y, m)
  }

  /** The day number of the civil date y-m-d. */
  function DayNumber(y: int, m: int, d: int): Day
    requires ValidDate(y, m, d)
  {
    YearStart(y) + DaysBeforeMonth(y, m) + d - 1
  }

  /** Consecutive years start 365 or 366 days apart, as the leap rule says. */
  lemma YearLength(y: int)
    ensures YearStart(y + 1) - YearStart(y) == if IsLeapYear(y) then 366 else 365
  {
    assert y / 4 - (y - 1) / 4 == if y % 4 == 0 then 1 else 0;
    assert y / 100 - (y - 1) / 100 == if y % 100 == 0 then 1 else 0;
    assert y / 400 - (y - 1) / 400 == if y % 400 == 0 then 1 else 0;
  }

  /** The twelve months fill the year exactly: December 31 is followed by the
      next year's January 1. */
  lemma {:induction false} YearEndsBeforeNextYear(y: int)
    ensures DayNumber(y, 12, 31) + 1 == DayNumber(y + 1, 1, 1)
  {
    YearLength(y);
    assert DaysBeforeMonth(y, 13) == if IsLeapYear(y) then 366 else 365;
  }

  /** `getWeekDays(date)`: the seven days of the Monday-start week of `date`. */
  method GetWeekDays(date: Day) returns (days: seq<Day>)
    ensures |days| == 7 && Weekday(days[0]) == 0
    ensures forall i :: 0 <= i < 7 ==> days[i] == days[0] + i
    ensures date in days
  {
    var start := StartOfWeekMonday(date);
    days := [];
    var i := 0;
    while i < 7
      invariant 0 <= i <= 7 && |days| == i
      invariant forall k :: 0 <= k < i ==> days[k] == start + k
    {
      days := days + [start + i];
      i := i + 1;
    }
    assert days[date - start] == date;
  }

  /** `getMonthDays(date)`: the days from the Monday on or before the first of
      the month of `date` to the Sunday on or after its last day. */
  method GetMonthDays(year: int, month: int, day: int) returns (days: seq<Day>)
    requires ValidDate(year, month, day)
    ensures var first := DayNumber(year, month, 1);
      var last := DayNumber(year, month, DaysInMonth(year, month));
      |days| > 0 && days[0] == StartOfWeekMonday(first) && days[|days| - 1] == EndOfWeekMonday(last)
    ensures forall i :: 0 <= i < |days| ==> days[i] == days[0] + i
    ensures Weekday(days[0]) == 0 && |days| % 7 == 0 && 28 <= |days| <= 42
    ensures forall d :: 1 <= d <= DaysInMonth(year, month) ==> DayNumber(year, month, d) in days
  {
    var first := DayNumber(year, month, 1);
    var last := DayNumber(year, month, DaysInMonth(year, month));
    var startWeek := StartOfWeekMonday(first);
    var endWeek := EndOfWeekMonday(last);
    days := DaysThrough(startWeek, endWeek);
    WeekSpan(startWeek, endWeek + 1);
    forall d | 1 <= d <= DaysInMonth(year, month)
      ensures DayNumber(year, month, d) in days
    {
      assert days[DayNumber(year, month, d) - startWeek] == DayNumber(year, month, d);
    }
  }

  /** The loop of `getMonthDays`: every day from `lo` to `hi`, in order. */
  method DaysThrough(lo: Day, hi: Day) returns (days: seq<Day>)
    ensures |days| == if lo <= hi then hi + 1 - lo else 0
    ensures forall k :: 0 <= k < |days| ==> days[k] == lo + k
  {
    days := [];
    var current := lo;
    while current <= hi
      invariant lo <= current && (lo <= hi ==> current <= hi + 1) && (hi < lo ==> current == lo)
      invariant |days| == current - lo
      invariant forall k :: 0 <= k < |days| ==> days[k] == lo + k
      decreases hi + 1 - current
    {
      days := days + [current];
      current := current + 1;
    }
  }

  /** Two Mondays are a whole number of weeks apart. */
  lemma WeekSpan(a: Day, b: Day)
    requires Weekday(a) == 0 && Weekday(b) == 0 && a <= b
    ensures (b - a) % 7 == 0
  {
    assert (a + 3) % 7 == 0 && (b + 3) % 7 == 0;
    var p, q := (a + 3) / 7, (b + 3) / 7;
    assert b - a == 7 * (q - p);
  }

  /** The `HH:00` label of an hour. */
  function HourLabel(h: nat): string {
    PadStart2(NatToString(h)) + ":00"
  }

  /** `getTimeSlots()`: the hourly labels from 07:00 to 22:00. */
  method GetTimeSlots() returns (slots: seq<string>)
    ensures |slots| == 16 && slots[0] == "07:00" && slots[15] == "22:00"
    ensures forall k :: 0 <= k < 16 ==>
      |slots[k]| == 5 && AllDigits(slots[k][..2]) && ParseNat(slots[k][..2]) == 7 + k && slots[k][2..] == ":00"
  {
    slots := [];
    var hour := 7;
    while hour <= 22
      invariant 7 <= hour <= 23 && |slots| == hour - 7
      invariant forall k :: 0 <= k < |slots| ==> slots[k] == HourLabel(7 + k)
    {
      slots := slots + [HourLabel(hour)];
      hour := hour + 1;
    }
    forall k | 0 <= k < 16
      ensures |slots[k]| == 5 && AllDigits(slots[k][..2]) && ParseNat(slots[k][..2]) == 7 + k && slots[k][2..] == ":00"
    {
      HourLabelShape(7 + k);
    }
    HourLabelEnds();
  }

  /** An hour below 100 reads `HH:00` and its first two characters give it back. */
  lemma HourLabelShape(h: nat)
    requires h < 100
    ensures var l := HourLabel(h);
      |l| == 5 && AllDigits(l[..2]) && ParseNat(l[..2]) == h && l[2..] == ":00"
  {
    TwoDigits(h);
    var l := HourLabel(h);
    assert l[..2] == PadStart2(NatToString(h));
  }

  lemma HourLabelEnds()
    ensures HourLabel(7) == "07:00" && HourLabel(22) == "22:00"
  {
    FirstLabel();
    LastLabel();
  }

  lemma FirstLabel()
    ensures HourLabel(7) == "07:00"
  {
    assert NatToString(7) == [DigitChar(7)] == "7";
  }

  lemma LastLabel()
    ensures HourLabel(22) == "22:00"
  {
    assert NatToString(2) == [DigitChar(2)] == "2";
    assert NatToString(22) == NatToString(2) + [DigitChar(2)] == "22";
  }

  /** An `HH:MM` string. */
  predicate IsClockString(t: string) {
    |t| == 5 && IsDigit(t[0]) && IsDigit(t[1]) && t[2] == ':' && IsDigit(t[3]) && IsDigit(t[4])
  }

  /** `formatTime(time)`: the hour on the 12-hour clock, without padding, then
      the minutes as written and `AM` before noon, `PM` from noon on. */
  function FormatTime(time: string): (r: string)
    requires IsClockString(time)
    ensures 6 < |r|
    ensures var hour := ParseNat(time[..2]);
      var p := r[..|r| - 6];
      AllDigits(p) && p[0] != '0' && 1 <= ParseNat(p) <= 12 && ParseNat(p) % 12 == hour % 12
      && r[|r| - 6..] == ":" + time[3..] + (if hour >= 12 then " PM" else " AM")
  {
    var hour := ParseNat(time[..2]);
    var displayHour := if hour % 12 == 0 then 12 else hour % 12;
    var p := NatToString(displayHour);
    ParseNatToString(displayHour);
    var suffix := ":" + time[3..] + (if hour >= 12 then " PM" else " AM");
    assert |suffix| == 6;
    var r := p + suffix;
    assert r[..|r| - 6] == p && r[|r| - 6..] == suffix;
    r
  }
}
