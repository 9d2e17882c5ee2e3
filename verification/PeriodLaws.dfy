/** What the periods promise: windows that partition time, named by their keys. */
module PeriodLaws {
  import opened Calendar
  import opened IncentivePeriods

  /** A year that `Date.UTC` does not move to another century. */
  predicate Plain(y: int) { y < 0 || y > 99 }

  predicate Within(p: Period, at: int) { p.start <= at < p.end }

  predicate Recurring(r: Recurrence) { r != Once }

  // ---- windows as ranges of Indian days ----

  /** First and one-past-last day of the window a day belongs to. */
  function FirstDay(r: Recurrence, day: int): int {
    match r
    case Weekly => MondayOf(day)
    case Monthly => var c := CivilOf(day); MakeDay(c.year, c.month - 1, 1)
    case _ => day
  }

  function EndDay(r: Recurrence, day: int): int {
    match r
    case Weekly => MondayOf(day) + 7
    case Monthly => var c := CivilOf(day); MakeDay(c.year, c.month, 1)
    case _ => day + 1
  }

  function Midnight(day: int): int { day * MS_PER_DAY - IST_OFFSET_MS }

  lemma MidnightOrder(day: int, at: int)
    ensures Midnight(day) <= at <==> day <= IstDay(at)
  {
  }

  lemma DayIsInItsWindow(r: Recurrence, day: int)
    requires Recurring(r)
    ensures FirstDay(r, day) <= day < EndDay(r, day)
  {
    if r == Monthly {
      hide DayFromYear, IsLeap, MakeDay;
      var c := CivilOf(day);
      DaysShift(c.year, c.month - 1, 1, c.day);
      NextMonthStart(c.year, c.month - 1);
    }
  }

  lemma WindowInDays(r: Recurrence, at: int)
    requires Recurring(r) && Plain(IstParts(at).year)
    ensures var p := PeriodFor(r, at); var day := IstDay(at);
            p.start == Midnight(FirstDay(r, day)) && p.end == Midnight(EndDay(r, day))
  {
    hide DayFromYear, IsLeap, MakeDay, MonthOffset, IsoWeek, Key, WeekDay, Day, Pad;
    var c := IstParts(at);
    match r
    case Daily => DaysShift(c.year, c.month - 1, c.day, c.day + 1);
    case Weekly =>
      var back := DayOfWeek(IstDay(at));
      DaysShift(c.year, c.month - 1, c.day, c.day - back);
      DaysShift(c.year, c.month - 1, c.day, c.day - back + 7);
    case Monthly =>
  }

  lemma {:induction false} CenturyLater(y: int)
    requires 0 <= y <= 99
    ensures DayFromYear(FullYear(y)) >= DayFromYear(y + 1) + 600_000
  {
    YearsAreOrdered(y + 1, 1900 + y);
  }

  /** Every instant lies in its own half-open window, exactly when its Indian year is not
      one of the hundred that `Date.UTC` moves into the twentieth century. */
  lemma EveryInstantIsInItsWindow(r: Recurrence, at: int)
    requires Recurring(r)
    ensures Within(PeriodFor(r, at), at) <==> Plain(IstParts(at).year)
  {
    var c, day := IstParts(at), IstDay(at);
    if Plain(c.year) {
      WindowInDays(r, at);
      DayIsInItsWindow(r, day);
      MidnightOrder(FirstDay(r, day), at);
      MidnightOrder(EndDay(r, day), at);
    } else {
      CenturyLater(c.year);
      StartsLate(r, at);
    }
  }

  lemma NotBeforeNewYear(y: int, m: int, d: int)
    requires 0 <= m < 12
    ensures MakeDay(y, m, d) >= DayFromYear(y) + d - 1
  {
    MakeDayWithin(y, m, d);
    MonthOffsetsAreOrdered(IsLeap(y), 0, m);
  }

  lemma StartsLate(r: Recurrence, at: int)
    requires Recurring(r) && !Plain(IstParts(at).year)
    requires var y := IstParts(at).year; DayFromYear(FullYear(y)) >= DayFromYear(y + 1) + 600_000
    ensures PeriodFor(r, at).start > at
  {
    hide IsoWeek, Key, IsLeap, DayFromYear, MakeDay, MonthOffset, FullYear, WeekDay, Day, Pad;
    var c := IstParts(at);
    var y := FullYear(c.year);
    assert DayFromYear(c.year + 1) > IstDay(at);
    var d := match r
      case Daily => c.day
      case Weekly => c.day - DayOfWeek(MakeDay(y, c.month - 1, c.day))
      case _ => 1;
    NotBeforeNewYear(y, c.month - 1, d);
    assert PeriodFor(r, at).start == Midnight(MakeDay(y, c.month - 1, d));
    MidnightOrder(DayFromYear(y) - 7, at);
  }

  // ---- ISO weeks: section 4.1.4 of ISO 8601:2004 ----

  /** The Monday of week 1: the week with 4 January in it. */
  function FirstMonday(y: int): int { MondayOf(MakeDay(y, 0, 4)) }

  /** Week `w` of year `y` in the standard's terms: it starts on this Monday, and its year is
      the one holding at least four of its days. */
  ghost predicate IsWeekOf(monday: int, w: Week) {
    DayOfWeek(monday) == 0
    && monday == FirstMonday(w.year) + 7 * (w.week - 1)
    && HoldsMost(monday, w.year)
  }

  /** At least four of the seven days from `monday` on are in year `y`. */
  predicate HoldsMost(monday: int, y: int) {
    (DayFromYear(y) <= monday && monday + 3 < DayFromYear(y + 1))
    || (DayFromYear(y) <= monday + 3 && monday + 6 < DayFromYear(y + 1))
  }

  lemma MostlyIsThursday(monday: int, y: int)
    ensures HoldsMost(monday, y) <==> CivilOf(monday + 3).year == y
  {
    hide DayFromYear;
    if HoldsMost(monday, y) {
      YearIsUnique(monday + 3, y);
    } else {
      YearSpan(y);
    }
  }

  lemma YearSpan(y: int)
    ensures DayFromYear(y + 1) >= DayFromYear(y) + 365
  {
    YearLength(y);
  }

  lemma Mondays(a: int, b: int)
    ensures DayOfWeek(MondayOf(a)) == 0
    ensures (MondayOf(a) - MondayOf(b)) % 7 == 0
    ensures MondayOf(a) == MondayOf(b) <==> MondayOf(a) <= b < MondayOf(a) + 7
  {
    MondayStart(a);
    MondayStart(b);
    hide MondayOf;
  }

  /** A Monday is a multiple of seven days from the first one after the epoch, and begins its week. */
  lemma MondayStart(day: int)
    ensures MondayOf(day) <= day < MondayOf(day) + 7 && (MondayOf(day) - 4) % 7 == 0
    ensures DayOfWeek(MondayOf(day)) == 0
  {
  }

  lemma FirstMondayIsEarly(y: int)
    ensures DayFromYear(y) - 3 <= FirstMonday(y) <= DayFromYear(y) + 3
    ensures DayOfWeek(FirstMonday(y)) == 0
  {
    MakeDayWithin(y, 0, 4);
    Mondays(MakeDay(y, 0, 4), 0);
  }

  lemma ExactWeeks(k: int)
    ensures RoundedQuotient(7 * k * MS_PER_DAY, WEEK_MS) == k
  {
    assert 7 * k * MS_PER_DAY == k * WEEK_MS;
  }

  lemma PlainWeekIsTheStandards(day: int)
    requires Plain(CivilOf(day).year) && Plain(CivilOf(MondayOf(day) + 3).year)
    ensures IsWeekOf(MondayOf(day), IsoWeek(CivilOf(day)))
    ensures 1 <= IsoWeek(CivilOf(day)).week <= 53
  {
    hide DayFromYear, MakeDay, IsLeap, IsoWeek, CivilOf, ValidCivil, DayOfCivil;
    hide MondayOf, HoldsMost, FirstMonday, DayOfWeek;
    var monday := MondayOf(day);
    var y := CivilOf(monday + 3).year;
    NumberedFrom(day);
    MostlyIsThursday(monday, y);
    MondayStart(day);
    WeeksInYear(y, monday, IsoWeek(CivilOf(day)).week - 1);
  }

  /** The number counts whole weeks from the first Monday of the week's year, or of the year
      that year is moved to. */
  lemma NumberedFrom(day: int)
    requires Plain(CivilOf(day).year)
    ensures var y := CivilOf(MondayOf(day) + 3).year; var w := IsoWeek(CivilOf(day));
            w.year == y && MondayOf(day) == FirstMonday(FullYear(y)) + 7 * (w.week - 1)
  {
    hide DayFromYear, MakeDay, IsLeap, RoundedQuotient, MondayOf, ValidCivil, CivilOf;
    var y := CivilOf(MondayOf(day) + 3).year;
    Mondays(day, MakeDay(FullYear(y), 0, 4));
    var k := (MondayOf(day) - FirstMonday(FullYear(y))) / 7;
    assert MondayOf(day) - FirstMonday(FullYear(y)) == 7 * k;
    ExactWeeks(k);
  }

  /** The days of a year nineteen centuries on, and the weeks around them, are in no earlier one. */
  lemma MovedThursdayIsLater(day: int)
    requires !Plain(CivilOf(day).year)
    ensures var c := CivilOf(day);
            MondayOf(MakeDay(FullYear(c.year), c.month - 1, c.day)) + 3 >= MondayOf(day) + 3 + 500_000
  {
    hide MakeDay, IsLeap, MondayOf;
    var c := CivilOf(day);
    var y := FullYear(c.year);
    CenturyLater(c.year);
    NotBeforeNewYear(y, c.month - 1, c.day);
    MondayStart(MakeDay(y, c.month - 1, c.day));
    MondayStart(day);
    hide DayFromYear;
  }

  lemma FarApartDaysDifferInYear(a: int, b: int)
    requires b >= a + 500_000
    ensures CivilOf(a).year != CivilOf(b).year
  {
    YearLength(CivilOf(a).year);
    hide MakeDay, IsLeap, DayFromYear, ValidCivil;
  }

  /** A date moved to another century names a week of that century. */
  lemma MovedDateIsAnotherWeek(day: int)
    requires !Plain(CivilOf(day).year)
    ensures !IsWeekOf(MondayOf(day), IsoWeek(CivilOf(day)))
  {
    var c := CivilOf(day);
    var thursday := MondayOf(MakeDay(FullYear(c.year), c.month - 1, c.day)) + 3;
    hide DayFromYear, MakeDay, IsLeap, RoundedQuotient, CivilOf, MondayOf, ValidCivil, DayOfCivil;
    MovedThursdayIsLater(day);
    FarApartDaysDifferInYear(MondayOf(day) + 3, thursday);
    MostlyIsThursday(MondayOf(day), CivilOf(thursday).year);
    hide HoldsMost;
  }

  /** A week counted from the first of another century's year has another number. */
  lemma MovedYearIsAnotherWeek(day: int)
    requires Plain(CivilOf(day).year) && !Plain(CivilOf(MondayOf(day) + 3).year)
    ensures !IsWeekOf(MondayOf(day), IsoWeek(CivilOf(day)))
  {
    NumberedFrom(day);
    hide DayFromYear, MakeDay, IsLeap, HoldsMost, CivilOf, ValidCivil, DayOfCivil, IsoWeek, MondayOf;
    var y := CivilOf(MondayOf(day) + 3).year;
    CenturyLater(y);
    FirstMondayIsEarly(y);
    FirstMondayIsEarly(FullYear(y));
    YearSpan(y);
    hide FirstMonday;
  }

  /** The computed year and number are the standard's exactly for dates whose year, and whose
      week's year, `Date.UTC` leaves alone; and the number is then 1 to 53. */
  lemma WeekIsTheStandards(day: int)
    ensures IsWeekOf(MondayOf(day), IsoWeek(CivilOf(day)))
            <==> Plain(CivilOf(day).year) && Plain(CivilOf(MondayOf(day) + 3).year)
    ensures Plain(CivilOf(day).year) && Plain(CivilOf(MondayOf(day) + 3).year) ==>
              1 <= IsoWeek(CivilOf(day)).week <= 53
  {
    hide IsoWeek, CivilOf, IsWeekOf;
    if !Plain(CivilOf(day).year) {
      MovedDateIsAnotherWeek(day);
    } else if !Plain(CivilOf(MondayOf(day) + 3).year) {
      MovedYearIsAnotherWeek(day);
    } else {
      PlainWeekIsTheStandards(day);
    }
  }

  lemma WeeksInYear(y: int, monday: int, k: int)
    requires monday == FirstMonday(y) + 7 * k && HoldsMost(monday, y)
    ensures 0 <= k <= 52
  {
    FirstMondayIsEarly(y);
    YearLength(y);
  }

  /** The standard's weeks and the Mondays are in bijection. */
  lemma WeeksAreMondays(a: int, wa: Week, b: int, wb: Week)
    requires IsWeekOf(a, wa) && IsWeekOf(b, wb)
    ensures a == b <==> wa == wb
  {
    hide DayFromYear, FirstMonday;
    if a == b {
      MostlyIsThursday(a, wa.year);
      MostlyIsThursday(b, wb.year);
    }
  }

  // ---- keys ----

  lemma DailyKeys(c: Civil, c': Civil)
    requires ValidCivil(c) && ValidCivil(c')
    ensures Key(c.year, "-", c.month) + "-" + Pad(c.day) == Key(c'.year, "-", c'.month) + "-" + Pad(c'.day) <==> c == c'
  {
    hide MonthOffset;
    var k, k' := Key(c.year, "-", c.month), Key(c'.year, "-", c'.month);
    if k + "-" + Pad(c.day) == k' + "-" + Pad(c'.day) {
      Suffix(k + "-", Pad(c.day), k' + "-", Pad(c'.day));
      Suffix(k, "-", k', "-");
      KeyIsInjective(c.year, c'.year, "-", c.month, c'.month);
      PadIsInjective(c.day, c'.day);
    }
  }

  lemma SameMonth(a: int, b: int)
    ensures var ca, cb := CivilOf(a), CivilOf(b);
            (ca.year == cb.year && ca.month == cb.month) <==> FirstDay(Monthly, a) <= b < EndDay(Monthly, a)
  {
    hide DayFromYear, IsLeap, MakeDay, MonthOffset;
    var ca, cb := CivilOf(a), CivilOf(b);
    DayIsInItsWindow(Monthly, b);
    if ca.year != cb.year || ca.month != cb.month {
      MonthsAreApart(ca, cb);
    }
  }

  lemma MonthsAreApart(ca: Civil, cb: Civil)
    requires 1 <= ca.month <= 12 && 1 <= cb.month <= 12
    requires ca.year != cb.year || ca.month != cb.month
    ensures MakeDay(ca.year, ca.month, 1) <= MakeDay(cb.year, cb.month - 1, 1)
         || MakeDay(cb.year, cb.month, 1) <= MakeDay(ca.year, ca.month - 1, 1)
  {
    hide DayFromYear, MonthOffset;
    if ca.year < cb.year || (ca.year == cb.year && ca.month < cb.month) {
      MonthsInOrder(ca, cb);
    } else {
      MonthsInOrder(cb, ca);
    }
  }

  lemma MonthsInOrder(ca: Civil, cb: Civil)
    requires 1 <= ca.month <= 12 && 1 <= cb.month <= 12
    requires ca.year < cb.year || (ca.year == cb.year && ca.month < cb.month)
    ensures MakeDay(ca.year, ca.month, 1) <= MakeDay(cb.year, cb.month - 1, 1)
  {
    hide DayFromYear, MonthOffset, IsLeap, MakeDay;
    MakeDayWithin(ca.year, ca.month - 1, 1);
    MakeDayWithin(cb.year, cb.month - 1, 1);
    NextMonthStart(ca.year, ca.month - 1);
    assert MakeDay(ca.year, ca.month, 1) == DayFromYear(ca.year) + MonthOffset(IsLeap(ca.year), ca.month);
    MonthOffsetsAreOrdered(IsLeap(cb.year), 0, cb.month - 1);
    if ca.year == cb.year {
      MonthOffsetsAreOrdered(IsLeap(ca.year), ca.month, cb.month - 1);
    } else {
      MonthOffsetsAreOrdered(IsLeap(ca.year), ca.month, 12);
      FullYearLength(ca.year);
      YearsAreOrdered(ca.year + 1, cb.year);
      assert MonthOffset(IsLeap(cb.year), 0) == 0 by { StartOfYear(IsLeap(cb.year)); }
    }
  }

  lemma StartOfYear(leap: bool)
    ensures MonthOffset(leap, 0) == 0
  {
  }

  lemma MonthKeys(c: Civil, c': Civil)
    requires 1 <= c.month <= 12 && 1 <= c'.month <= 12
    ensures Key(c.year, "-", c.month) == Key(c'.year, "-", c'.month) <==> c.year == c'.year && c.month == c'.month
  {
    if Key(c.year, "-", c.month) == Key(c'.year, "-", c'.month) {
      KeyIsInjective(c.year, c'.year, "-", c.month, c'.month);
    }
  }

  lemma WeekKeys(w: Week, w': Week)
    requires 1 <= w.week <= 53 && 1 <= w'.week <= 53
    ensures Key(w.year, "-W", w.week) == Key(w'.year, "-W", w'.week) <==> w == w'
  {
    if Key(w.year, "-W", w.week) == Key(w'.year, "-W", w'.week) {
      KeyIsInjective(w.year, w'.year, "-W", w.week, w'.week);
    }
  }

  /** A batch window is always `periodDays` long, and ends at the Indian midnight after
      `periodEnd` exactly when `Date.UTC` leaves that year alone. */
  lemma PayoutPeriodIsWhole(periodEnd: int, periodDays: int)
    ensures var (start, end) := PayoutPeriod(periodEnd, periodDays);
            end - start == periodDays * MS_PER_DAY
            && (end - MS_PER_DAY <= periodEnd < end <==> Plain(IstParts(periodEnd).year))
  {
    hide CivilOf, MakeDay, FullYear, Plain, IstMidnight, PeriodFor, IstParts;
    var c := IstParts(periodEnd);
    MidnightShift(c.year, c.month, c.day, c.day + 1);
    MidnightShift(c.year, c.month, c.day, c.day - (periodDays - 1));
    EveryInstantIsInItsWindow(Daily, periodEnd);
    DayWindow(periodEnd);
  }

  lemma MidnightShift(y: int, m: int, d: int, e: int)
    ensures IstMidnight(y, m, e) == IstMidnight(y, m, d) + (e - d) * MS_PER_DAY
  {
    hide MakeDay;
    DaysShift(FullYear(y), m - 1, d, e);
  }

  lemma DayWindow(at: int)
    ensures var c := IstParts(at); var p := PeriodFor(Daily, at);
            p.start == IstMidnight(c.year, c.month, c.day) && p.end == IstMidnight(c.year, c.month, c.day + 1)
  {
    hide CivilOf, IstMidnight, Key, Pad;
  }

  // ---- Indian time: five and a half hours ahead ----

  /** The day number of an instant in India. */
  function DayInIndia(at: int): int { (at + 19_800_000) / 86_400_000 }

  lemma DayInIndiaIs(at: int)
    ensures IstDay(at) == DayInIndia(at)
  {
  }

  /** Every window turns at half past six in the evening, universal time. */
  lemma WindowsTurnAtIndianMidnight(r: Recurrence, at: int)
    requires Recurring(r) && Plain(CivilOf(DayInIndia(at)).year)
    ensures PeriodFor(r, at).start % 86_400_000 == 66_600_000 && PeriodFor(r, at).end % 86_400_000 == 66_600_000
  {
    hide PeriodFor, CivilOf, FirstDay, EndDay;
    DayInIndiaIs(at);
    WindowInDays(r, at);
    TurnsAtMidnight(FirstDay(r, IstDay(at)));
    TurnsAtMidnight(EndDay(r, IstDay(at)));
  }

  lemma TurnsAtMidnight(day: int)
    ensures Midnight(day) % 86_400_000 == 66_600_000
  {
    assert Midnight(day) == (day - 1) * 86_400_000 + 66_600_000;
  }

  /** Whose day, week and month it is in India. A window holds exactly the instants of the same one:
      weeks run from Monday, and day number -3 was one. */
  predicate SameSpan(r: Recurrence, a: int, b: int) {
    var x, y := CivilOf(a), CivilOf(b);
    match r
    case Daily => a == b
    case Weekly => (a + 3) / 7 == (b + 3) / 7
    case Monthly => x.year == y.year && x.month == y.month
    case Once => true
  }

  lemma MondaysAreSevenApart(day: int)
    ensures MondayOf(day) == (day + 3) / 7 * 7 - 3
  {
  }

  /** The window of an instant of a plain year holds exactly those of the same day, week or month. */
  lemma WindowHoldsItsSpan(r: Recurrence, a: int, b: int)
    requires Recurring(r) && Plain(CivilOf(DayInIndia(a)).year)
    ensures Within(PeriodFor(r, a), b) <==> SameSpan(r, DayInIndia(a), DayInIndia(b))
  {
    hide PeriodFor, CivilOf, DayFromYear, IsLeap, MakeDay, MonthOffset, IstDay, Midnight, DayInIndia, MondayOf;
    DayInIndiaIs(a);
    DayInIndiaIs(b);
    WindowInDays(r, a);
    MidnightOrder(FirstDay(r, IstDay(a)), b);
    MidnightOrder(EndDay(r, IstDay(a)), b);
    match r
    case Daily =>
    case Weekly => MondaysAreSevenApart(IstDay(a));
    case Monthly => SameMonthSpan(IstDay(a), IstDay(b));
  }

  lemma SameMonthSpan(a: int, b: int)
    ensures FirstDay(Monthly, a) <= b < EndDay(Monthly, a) <==> SameSpan(Monthly, a, b)
  {
    hide CivilOf, DayFromYear, IsLeap, MonthOffset;
    SameMonth(a, b);
  }

  /** The keys name the Indian date: year, month and day, or year and month. */
  lemma KeysNameTheDate(at: int)
    ensures var c := CivilOf(DayInIndia(at));
            PeriodFor(Daily, at).key == Decimal(c.year) + "-" + Pad(c.month) + "-" + Pad(c.day)
            && PeriodFor(Monthly, at).key == Decimal(c.year) + "-" + Pad(c.month)
  {
    hide CivilOf, Pad, Decimal, IstMidnight;
    DayInIndiaIs(at);
  }

  /** A scheme that does not recur has one window: from the epoch to the last day of 9999. */
  lemma OnceIsForAll(at: int)
    ensures PeriodFor(Once, at) == Period("lifetime", 0, MakeDay(9999, 11, 31) * 86_400_000)
  {
  }

  // ---- what the digits say ----

  function Numeral(s: string): int {
    if s == [] then 0 else 10 * Numeral(s[..|s| - 1]) + (s[|s| - 1] as int - '0' as int)
  }

  lemma DigitReads(n: nat)
    requires n < 10
    ensures Digit(n) as int - '0' as int == n
  {
  }

  lemma {:induction false} DigitsRead(n: nat)
    ensures Numeral(Digits(n)) == n
  {
    if n < 10 {
      DigitReads(n);
      assert Digits(n)[..0] == [];
    } else {
      DigitReads(n % 10);
      DigitsRead(n / 10);
      assert Digits(n)[..|Digits(n)| - 1] == Digits(n / 10);
    }
  }

  /** A number reads back as itself, a negative one after its sign; a month or day takes two places. */
  lemma NumbersReadBack(n: int)
    ensures if n < 0 then Decimal(n) == "-" + Digits(-n) && Numeral(Digits(-n)) == -n else Numeral(Decimal(n)) == n
    ensures 0 <= n < 100 ==> |Pad(n)| == 2 && Numeral(Pad(n)) == n
  {
    DigitsRead(if n < 0 then -n else n);
    if 0 <= n < 10 {
      assert Pad(n)[..1] == "0" && "0"[..0] == [];
      assert Digits(n)[..0] == [];
    }
  }
}
