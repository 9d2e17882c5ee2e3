/**
 The proleptic Gregorian calendar as ECMA-262 defines it for `Date` (section 21.4.1): day
 numbers counted from 1 January 1970, months from 0, and instants in milliseconds.
 */
module Calendar {
  const MS_PER_DAY: int := 86_400_000

  /** A calendar date; months run 1..12. */
  datatype Civil = Civil(year: int, month: int, day: int)

  function DayFromYear(y: int): int {
    365 * (y - 1970) + (y - 1969) / 4 - (y - 1901) / 100 + (y - 1601) / 400
  }

  predicate IsLeap(y: int) { (y % 4 == 0 && y % 100 != 0) || y % 400 == 0 }

  function CommonOffset(m: int): int
    requires 0 <= m <= 12
  {
    match m
    case 0 => 0 case 1 => 31 case 2 => 59 case 3 => 90 case 4 => 120 case 5 => 151 case 6 => 181
    case 7 => 212 case 8 => 243 case 9 => 273 case 10 => 304 case 11 => 334 case _ => 365
  }

  /** Days before the first of month `m` (0..11), in a leap year or not. */
  function MonthOffset(leap: bool, m: int): int
    requires 0 <= m <= 12
  {
    CommonOffset(m) + if leap && m >= 2 then 1 else 0
  }

  function DaysInMonth(y: int, m: int): (n: int)
    requires 0 <= m < 12
    ensures 28 <= n <= 31
  {
    MonthOffset(IsLeap(y), m + 1) - MonthOffset(IsLeap(y), m)
  }

  /** The day number of day `d` of month `m` of year `y`, months and days outside their
      usual range carrying over. */
  function MakeDay(y: int, m: int, d: int): int {
    var year := y + m / 12;
    DayFromYear(year) + MonthOffset(IsLeap(year), m % 12) + d - 1
  }

  lemma LeapsEvery4(y: int)
    ensures (y - 1968) / 4 - (y - 1969) / 4 == if y % 4 == 0 then 1 else 0
  {
  }

  lemma LeapsEvery100(y: int)
    ensures (y - 1900) / 100 - (y - 1901) / 100 == if y % 100 == 0 then 1 else 0
  {
  }

  lemma LeapsEvery400(y: int)
    ensures (y - 1600) / 400 - (y - 1601) / 400 == if y % 400 == 0 then 1 else 0
  {
  }

  lemma CenturiesDivide(y: int)
    ensures (y % 400 == 0 ==> y % 100 == 0) && (y % 100 == 0 ==> y % 4 == 0)
  {
  }

  lemma YearLength(y: int)
    ensures DayFromYear(y + 1) - DayFromYear(y) == if IsLeap(y) then 366 else 365
  {
    LeapsEvery4(y);
    LeapsEvery100(y);
    LeapsEvery400(y);
    CenturiesDivide(y);
  }

  lemma {:induction false} YearsAreOrdered(a: int, b: int)
    requires a <= b
    ensures DayFromYear(b) - DayFromYear(a) >= 365 * (b - a)
    decreases b - a
  {
    if a < b {
      YearsAreOrdered(a, b - 1);
      YearLength(b - 1);
    }
  }

  function SearchYear(day: int, from: int): (y: int)
    requires DayFromYear(from) <= day
    ensures DayFromYear(y) <= day < DayFromYear(y + 1)
    decreases day - DayFromYear(from)
  {
    YearLength(from);
    if day < DayFromYear(from + 1) then from else SearchYear(day, from + 1)
  }

  /** The largest year that starts on or before the day. */
  function YearOf(day: int): (y: int)
    ensures DayFromYear(y) <= day < DayFromYear(y + 1)
  {
    var guess := 1970 + (if day >= 0 then day / 366 else day / 365);
    GuessIsEarly(day, guess);
    SearchYear(day, guess)
  }

  lemma GuessIsEarly(day: int, guess: int)
    requires guess == 1970 + (if day >= 0 then day / 366 else day / 365)
    ensures DayFromYear(guess) <= day
  {
    if day < 0 { YearsAreOrdered(guess, 1970); }
  }

  lemma NothingBeforeJanuary(leap: bool)
    ensures MonthOffset(leap, 0) == 0
  {
  }

  lemma MakeDayWithin(y: int, m: int, d: int)
    requires 0 <= m < 12
    ensures MakeDay(y, m, d) == DayFromYear(y) + MonthOffset(IsLeap(y), m) + d - 1
  {
  }

  lemma MonthLength(leap: bool, m: int)
    requires 1 <= m <= 12
    ensures MonthOffset(leap, m) - MonthOffset(leap, m - 1)
            == if m in {4, 6, 9, 11} then 30 else if m != 2 then 31 else if leap then 29 else 28
    ensures MonthOffset(leap, 12) == if leap then 366 else 365
  {
  }

  lemma TheEpoch()
    ensures MakeDay(1970, 0, 1) == 0
  {
    NothingBeforeJanuary(IsLeap(1970));
    hide IsLeap, MonthOffset;
  }

  lemma NewYear(y: int)
    ensures MakeDay(y, 12, 1) == DayFromYear(y + 1)
  {
    NothingBeforeJanuary(IsLeap(y + 1));
    hide DayFromYear, MonthOffset, IsLeap;
  }

  lemma MonthsFollowOn(y: int, m: int)
    requires 1 <= m <= 12
    ensures MakeDay(y, m, 1) - MakeDay(y, m - 1, 1) == MonthOffset(IsLeap(y), m) - MonthOffset(IsLeap(y), m - 1)
  {
    hide DayFromYear, MonthOffset, IsLeap, MakeDay;
    MakeDayWithin(y, m - 1, 1);
    if m < 12 {
      MakeDayWithin(y, m, 1);
    } else {
      NewYear(y);
      YearLength(y);
      MonthLength(IsLeap(y), 12);
    }
  }

  /** Day 0 is the first of 1970; April, June, September and November have thirty days, February has
      twenty-eight or, in a leap year, twenty-nine, every other month thirty-one; and years follow on. */
  lemma TheCalendarIsGregorian(y: int, m: int)
    requires 1 <= m <= 12
    ensures MakeDay(1970, 0, 1) == 0
    ensures MakeDay(y, m, 1) - MakeDay(y, m - 1, 1)
            == if m in {4, 6, 9, 11} then 30
               else if m != 2 then 31
               else if y % 4 == 0 && (y % 100 == 0 ==> y % 400 == 0) then 29 else 28
  {
    hide DayFromYear, MonthOffset, MakeDay;
    CenturiesDivide(y);
    TheEpoch();
    MonthsFollowOn(y, m);
    MonthLength(IsLeap(y), m);
  }

  lemma YearIsUnique(day: int, y: int)
    requires DayFromYear(y) <= day < DayFromYear(y + 1)
    ensures YearOf(day) == y
  {
    hide DayFromYear;
    var found := YearOf(day);
    if found < y { YearsAreOrdered(found + 1, y); }
    if y < found { YearsAreOrdered(y + 1, found); }
  }

  lemma MonthOffsetsAreOrdered(leap: bool, a: int, b: int)
    requires 0 <= a <= b <= 12
    ensures MonthOffset(leap, a) <= MonthOffset(leap, b)
    ensures a < b ==> MonthOffset(leap, a) < MonthOffset(leap, b)
  {
  }

  function SearchMonth(leap: bool, offset: int, from: int := 0): (m: int)
    requires 0 <= from < 12 && MonthOffset(leap, from) <= offset < MonthOffset(leap, 12)
    ensures 0 <= m < 12 && MonthOffset(leap, m) <= offset < MonthOffset(leap, m + 1)
    decreases 12 - from
  {
    if from == 11 || offset < MonthOffset(leap, from + 1) then from else SearchMonth(leap, offset, from + 1)
  }

  /** The date `offset` days into a year. */
  function CivilIn(y: int, offset: int): Civil
    requires 0 <= offset < MonthOffset(IsLeap(y), 12)
  {
    var m := SearchMonth(IsLeap(y), offset);
    Civil(y, m + 1, offset - MonthOffset(IsLeap(y), m) + 1)
  }

  lemma CivilInIsValid(y: int, offset: int)
    requires 0 <= offset < MonthOffset(IsLeap(y), 12)
    ensures var c := CivilIn(y, offset);
            c.year == y && ValidCivil(c) && MonthOffset(IsLeap(y), c.month - 1) + c.day - 1 == offset
  {
    NothingBeforeJanuary(IsLeap(y));
    hide IsLeap, MonthOffset;
  }

  function CivilOf(day: int): (c: Civil)
    ensures ValidCivil(c) && DayOfCivil(c) == day && c.year == YearOf(day)
  {
    var y := YearOf(day);
    FullYearLength(y);
    var c := CivilIn(y, day - DayFromYear(y));
    CivilInIsValid(y, day - DayFromYear(y));
    CivilInIsTheDay(day, y);
    c
  }

  lemma FullYearLength(y: int)
    ensures DayFromYear(y + 1) == DayFromYear(y) + MonthOffset(IsLeap(y), 12)
  {
    YearLength(y);
  }

  lemma CivilInIsTheDay(day: int, y: int)
    requires DayFromYear(y) <= day < DayFromYear(y) + MonthOffset(IsLeap(y), 12)
    ensures DayOfCivil(CivilIn(y, day - DayFromYear(y))) == day
  {
    hide DayFromYear, IsLeap, MonthOffset, CivilIn, MakeDay;
    CivilInIsValid(y, day - DayFromYear(y));
    var c := CivilIn(y, day - DayFromYear(y));
    MakeDayWithin(c.year, c.month - 1, c.day);
  }

  predicate ValidCivil(c: Civil) {
    1 <= c.month <= 12 && 1 <= c.day <= DaysInMonth(c.year, c.month - 1)
  }

  function DayOfCivil(c: Civil): int { MakeDay(c.year, c.month - 1, c.day) }

  lemma MonthIsUnique(leap: bool, offset: int, m: int)
    requires 0 <= m < 12 && MonthOffset(leap, m) <= offset < MonthOffset(leap, m + 1)
    ensures 0 <= offset < MonthOffset(leap, 12) && SearchMonth(leap, offset) == m
  {
    MonthOffsetsAreOrdered(leap, 0, m);
    MonthOffsetsAreOrdered(leap, m + 1, 12);
    var found := SearchMonth(leap, offset);
    if found < m { MonthOffsetsAreOrdered(leap, found + 1, m); }
    if m < found { MonthOffsetsAreOrdered(leap, m + 1, found); }
  }

  /** Dates and day numbers are in bijection. */
  lemma CivilRoundTrip(c: Civil)
    requires ValidCivil(c)
    ensures CivilOf(DayOfCivil(c)) == c
  {
    hide DayFromYear, IsLeap, MonthOffset, MakeDay, SearchMonth;
    var day := DayOfCivil(c);
    MakeDayWithin(c.year, c.month - 1, c.day);
    MonthIsUnique(IsLeap(c.year), day - DayFromYear(c.year), c.month - 1);
    FullYearLength(c.year);
    YearIsUnique(day, c.year);
  }

  /** The first of the following month is the day after this month's last, December included. */
  lemma NextMonthStart(y: int, m: int)
    requires 0 <= m < 12
    ensures MakeDay(y, m + 1, 1) == MakeDay(y, m, 1) + DaysInMonth(y, m)
  {
    hide DayFromYear, IsLeap;
    if m == 11 {
      FullYearLength(y);
      MakeDayInNextYear(y);
    } else {
      MakeDayWithin(y, m + 1, 1);
    }
    MakeDayWithin(y, m, 1);
  }

  lemma MakeDayInNextYear(y: int)
    ensures MakeDay(y, 12, 1) == DayFromYear(y + 1)
  {
    hide DayFromYear, IsLeap;
    assert (12 / 12, 12 % 12) == (1, 0);
  }

  // ---- Date ----

  function Day(t: int): int { t / MS_PER_DAY }

  function TimeInDay(t: int): int { t % MS_PER_DAY }

  /** Sunday is 0. */
  function WeekDay(day: int): int { (day + 4) % 7 }

  /** `Date.UTC` reads a year from 0 to 99 as one of the twentieth century. */
  function FullYear(y: int): int { if 0 <= y <= 99 then 1900 + y else y }

  function Utc(y: int, m: int, d: int): int { MakeDay(FullYear(y), m, d) * MS_PER_DAY }

  lemma Composed(day: int, time: int)
    requires 0 <= time < MS_PER_DAY
    ensures Day(day * MS_PER_DAY + time) == day && TimeInDay(day * MS_PER_DAY + time) == time
  {
  }

  lemma DaysShift(y: int, m: int, d: int, e: int)
    ensures MakeDay(y, m, e) == MakeDay(y, m, d) + e - d
  {
  }

  /** A mutable `Date`, as far as the calendar code uses one. */
  class JsDate {
    var time: int

    constructor (t: int)
      ensures time == t
    {
      time := t;
    }

    method SetUtcDate(d: int)
      modifies this
      ensures Day(time) == Day(old(time)) + d - CivilOf(Day(old(time))).day
      ensures TimeInDay(time) == TimeInDay(old(time))
    {
      hide DayFromYear, IsLeap, MakeDay;
      var c := CivilOf(Day(time));
      DaysShift(c.year, c.month - 1, c.day, d);
      Composed(MakeDay(c.year, c.month - 1, d), TimeInDay(time));
      time := MakeDay(c.year, c.month - 1, d) * MS_PER_DAY + TimeInDay(time);
    }

    /** `setUTCMonth` with its optional day. */
    method SetUtcMonth(m: int, d: int)
      modifies this
      ensures Day(time) == MakeDay(CivilOf(Day(old(time))).year, m, d)
      ensures TimeInDay(time) == TimeInDay(old(time))
    {
      var c := CivilOf(Day(time));
      Composed(MakeDay(c.year, m, d), TimeInDay(time));
      time := MakeDay(c.year, m, d) * MS_PER_DAY + TimeInDay(time);
    }
  }
}
