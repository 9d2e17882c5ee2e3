/** Exactly which instants' keys name their windows, `Date.UTC`'s hundred moved years included. */
module PeriodLimits {
  import opened Calendar
  import opened IncentivePeriods
  import opened PeriodLaws

  /** Of `a` and `b`: they share a key exactly when `b` lies in the window of `a`. */
  predicate KeyTells(r: Recurrence, a: int, b: int) {
    PeriodFor(r, a).key == PeriodFor(r, b).key <==> Within(PeriodFor(r, a), b)
  }

  // ---- keys whatever the numbers ----

  predicate NoW(s: string) { forall i :: 0 <= i < |s| ==> s[i] != 'W' }

  lemma {:induction false} DigitsHaveNoW(n: nat)
    ensures NoW(Digits(n))
  {
    if n >= 10 { DigitsHaveNoW(n / 10); }
  }

  lemma DecimalsHaveNoW(n: int)
    ensures NoW(Decimal(n)) && NoW(Pad(n))
  {
    DigitsHaveNoW(if n < 0 then -n else n);
  }

  lemma FirstW(x: string, t: string)
    requires NoW(x)
    ensures var s := x + "-W" + t; s[|x| + 1] == 'W' && forall i :: 0 <= i <= |x| ==> s[i] != 'W'
  {
  }

  /** The first half of two weekly keys agrees wherever the keys do. */
  lemma WeekKeyGivesYear(y: int, p: int, y': int, p': int)
    requires Key(y, "-W", p) == Key(y', "-W", p')
    ensures y == y'
  {
    hide Decimal, Pad, NoW;
    var x, x', s := Decimal(y), Decimal(y'), Key(y, "-W", p);
    DecimalsHaveNoW(y);
    DecimalsHaveNoW(y');
    FirstW(x, Pad(p));
    FirstW(x', Pad(p'));
    assert |x| == |x'|;
    assert x == s[..|x|] && x' == s[..|x'|];
    DecimalIsInjective(y, y');
  }

  // ---- the day a date's week is worked out from ----

  function KeyedDay(c: Civil): int { MakeDay(FullYear(c.year), c.month - 1, c.day) }

  /** Moved by `Date.UTC`, and where to. */
  predicate Moved(y: int) { 0 <= y <= 99 }

  predicate Landing(y: int) { 1900 <= y <= 1999 }

  lemma LateInTheYear(leap: bool, leap': bool, m: int, d: int)
    requires 0 <= m < 12 && 1 <= d <= MonthOffset(leap, m + 1) - MonthOffset(leap, m)
    ensures 0 <= MonthOffset(leap', m) + d - 1 < MonthOffset(leap', 12)
  {
  }

  lemma MovedDateLands(c: Civil)
    requires ValidCivil(c) && Moved(c.year)
    ensures CivilOf(KeyedDay(c)).year == 1900 + c.year
  {
    hide IsLeap, DayFromYear, MonthOffset, CivilOf;
    var y := FullYear(c.year);
    MakeDayWithin(y, c.month - 1, c.day);
    LateInTheYear(IsLeap(c.year), IsLeap(y), c.month - 1, c.day);
    FullYearLength(y);
    hide MakeDay;
    CivilYear(KeyedDay(c), y);
  }

  lemma CivilYear(day: int, y: int)
    requires DayFromYear(y) <= day < DayFromYear(y + 1)
    ensures CivilOf(day).year == y
  {
    YearIsUnique(day, y);
  }

  lemma WeekOfTheKeyedDay(c: Civil)
    requires Plain(CivilOf(KeyedDay(c)).year)
    ensures IsoWeek(c) == IsoWeek(CivilOf(KeyedDay(c)))
  {
    hide MakeDay, CivilOf, WeekOfDay;
    assert KeyedDay(CivilOf(KeyedDay(c))) == KeyedDay(c);
  }

  /** The week year of a date is the year it falls in, give or take one. */
  lemma WeekYearIsNear(day: int)
    ensures CivilOf(day).year - 1 <= CivilOf(MondayOf(day) + 3).year <= CivilOf(day).year + 1
  {
    hide CivilOf, DayFromYear;
    var y := CivilOf(day).year;
    MondayStart(day);
    CivilSpan(day);
    YearSpan(y - 1);
    YearSpan(y + 1);
    hide MondayOf;
    var thursday := MondayOf(day) + 3;
    if thursday < DayFromYear(y) {
      CivilYear(thursday, y - 1);
    } else if thursday >= DayFromYear(y + 1) {
      CivilYear(thursday, y + 1);
    } else {
      CivilYear(thursday, y);
    }
  }

  lemma CivilSpan(day: int)
    ensures DayFromYear(CivilOf(day).year) <= day < DayFromYear(CivilOf(day).year + 1)
  {
  }

  // ---- days and months ----

  /** Days and months are told apart by every instant of a plain year, and by no other. */
  lemma ShortKeysTellExactly(r: Recurrence, a: int)
    requires r == Daily || r == Monthly
    ensures (forall b :: KeyTells(r, a, b)) <==> Plain(IstParts(a).year)
  {
    hide KeyTells;
    if Plain(IstParts(a).year) {
      forall b ensures KeyTells(r, a, b) { ShortKeysTell(r, a, b); }
    } else {
      EveryInstantIsInItsWindow(r, a);
      OwnKeyTells(r, a);
      assert !KeyTells(r, a, a);
    }
  }

  lemma OwnKeyTells(r: Recurrence, a: int)
    ensures KeyTells(r, a, a) <==> Within(PeriodFor(r, a), a)
  {
    hide PeriodFor;
  }

  lemma ShortKeysTell(r: Recurrence, a: int, b: int)
    requires (r == Daily || r == Monthly) && Plain(IstParts(a).year)
    ensures KeyTells(r, a, b)
  {
    hide DayFromYear, IsLeap, MakeDay, MonthOffset, IsoWeek, Key, Pad;
    var da, db := IstDay(a), IstDay(b);
    WindowInDays(r, a);
    MidnightOrder(FirstDay(r, da), b);
    MidnightOrder(EndDay(r, da), b);
    match r
    case Daily =>
      DailyKeys(CivilOf(da), CivilOf(db));
      assert CivilOf(da) == CivilOf(db) <==> da == db;
    case Monthly =>
      SameMonth(da, db);
      MonthKeys(CivilOf(da), CivilOf(db));
  }

  // ---- weeks ----

  predicate SameWeek(a: int, b: int) { MondayOf(a) == MondayOf(b) }

  /** No day of this one's week is in a moved year, or in one of those they are moved to. */
  ghost predicate ClearWeek(day: int) {
    forall d :: SameWeek(day, d) ==> !Moved(CivilOf(d).year) && !Landing(CivilOf(d).year)
  }

  function KeyOf(w: Week): string { Key(w.year, "-W", w.week) }

  function WeekKey(at: int): string { PeriodFor(Weekly, at).key }

  lemma WeekKeyIs(at: int)
    ensures WeekKey(at) == KeyOf(IsoWeek(IstParts(at)))
  {
    hide ValidCivil, DayOfCivil, DayFromYear, IsoWeek, CivilOf, Key, MakeDay;
  }

  /** For a plain year the window is the week itself. */
  lemma WeekWindow(a: int, b: int)
    requires Plain(IstParts(a).year)
    ensures Within(PeriodFor(Weekly, a), b) <==> SameWeek(IstDay(a), IstDay(b))
  {
    hide PeriodFor, CivilOf;
    var da, db := IstDay(a), IstDay(b);
    WindowInDays(Weekly, a);
    MidnightOrder(MondayOf(da), b);
    MidnightOrder(MondayOf(da) + 7, b);
    Mondays(da, db);
  }

  lemma WeekInMovedYear(b: int)
    requires Moved(IstParts(b).year)
    ensures var d := KeyedDay(IstParts(b));
            Landing(CivilOf(d).year) && IsoWeek(IstParts(b)) == IsoWeek(CivilOf(d))
            && 1899 <= IsoWeek(IstParts(b)).year <= 2000
  {
    hide ValidCivil, DayOfCivil, DayFromYear, IsoWeek, CivilOf, MakeDay;
    MovedDateLands(IstParts(b));
    WeekOfTheKeyedDay(IstParts(b));
    WeekYearIsNear(KeyedDay(IstParts(b)));
    WeekYearOf(KeyedDay(IstParts(b)));
  }

  lemma WeekYearOf(day: int)
    requires Plain(CivilOf(day).year)
    ensures IsoWeek(CivilOf(day)).year == CivilOf(MondayOf(day) + 3).year
  {
    hide MakeDay, CivilOf, RoundedQuotient, DayFromYear, ValidCivil, MondayOf;
  }

  /** Plain days of plain weeks share a week number exactly when they share a week. */
  lemma PlainWeeksTell(a: int, b: int)
    requires Plain(CivilOf(a).year) && Plain(CivilOf(MondayOf(a) + 3).year)
    requires Plain(CivilOf(b).year) && Plain(CivilOf(MondayOf(b) + 3).year)
    ensures KeyOf(IsoWeek(CivilOf(a))) == KeyOf(IsoWeek(CivilOf(b))) <==> SameWeek(a, b)
  {
    hide ValidCivil, DayOfCivil, DayFromYear, IsoWeek, CivilOf, IsWeekOf, Key;
    PlainWeekIsTheStandards(a);
    PlainWeekIsTheStandards(b);
    WeeksAreMondays(MondayOf(a), IsoWeek(CivilOf(a)), MondayOf(b), IsoWeek(CivilOf(b)));
    WeekKeys(IsoWeek(CivilOf(a)), IsoWeek(CivilOf(b)));
  }

  lemma ThursdayIsInTheWeek(day: int)
    ensures SameWeek(day, MondayOf(day) + 3) && SameWeek(day, day)
  {
    MondayStart(day);
    Mondays(day, MondayOf(day) + 3);
    hide MondayOf;
  }

  /** For an instant of a plain year: the key tells exactly when the week numbers do. */
  lemma WeekTells(a: int, b: int)
    requires Plain(IstParts(a).year)
    ensures KeyTells(Weekly, a, b)
            <==> (KeyOf(IsoWeek(IstParts(a))) == KeyOf(IsoWeek(IstParts(b))) <==> SameWeek(IstDay(a), IstDay(b)))
  {
    WeekWindow(a, b);
    WeekKeyIs(a);
    WeekKeyIs(b);
    hide IsoWeek, CivilOf, KeyOf, PeriodFor, SameWeek;
  }

  lemma ClearWeekIsPlain(day: int)
    requires ClearWeek(day)
    ensures Plain(CivilOf(day).year) && Plain(CivilOf(MondayOf(day) + 3).year)
  {
    ThursdayIsInTheWeek(day);
    hide CivilOf, MondayOf, SameWeek;
  }

  /** A day of a clear week shares its week's number with exactly the days of that week. */
  lemma ClearWeekIsNumbered(da: int, b: int)
    requires ClearWeek(da) && Plain(CivilOf(da).year) && Plain(CivilOf(MondayOf(da) + 3).year)
    ensures KeyOf(IsoWeek(CivilOf(da))) == KeyOf(IsoWeek(IstParts(b))) <==> SameWeek(da, IstDay(b))
  {
    var db := IstDay(b);
    hide ValidCivil, DayOfCivil, DayFromYear, IsoWeek, CivilOf, KeyOf, MondayOf, SameWeek, ClearWeek, IstDay;
    if Moved(IstParts(b).year) {
      ClearIsNotMoved(da, b);
    } else if Moved(CivilOf(MondayOf(db) + 3).year) {
      EdgeWeekIsApart(da, db);
    } else {
      PlainWeeksTell(da, db);
    }
  }

  lemma ClearWeeksTell(a: int, b: int)
    requires ClearWeek(IstDay(a))
    ensures KeyTells(Weekly, a, b)
  {
    hide ValidCivil, DayOfCivil, DayFromYear, IsoWeek, CivilOf, KeyOf, MondayOf, KeyTells, SameWeek, ClearWeek, IstDay;
    ClearWeekIsPlain(IstDay(a));
    assert Plain(IstParts(a).year);
    WeekTells(a, b);
    ClearWeekIsNumbered(IstDay(a), b);
  }

  /** A date in a moved year has the key of a week its landing year has a day in. */
  lemma ClearIsNotMoved(da: int, b: int)
    requires ClearWeek(da) && Moved(IstParts(b).year)
    requires Plain(CivilOf(da).year) && Plain(CivilOf(MondayOf(da) + 3).year)
    ensures !SameWeek(da, IstDay(b))
    ensures KeyOf(IsoWeek(CivilOf(da))) != KeyOf(IsoWeek(IstParts(b)))
  {
    WeekInMovedYear(b);
    var d := KeyedDay(IstParts(b));
    hide ValidCivil, DayOfCivil, DayFromYear, IsoWeek, CivilOf, KeyOf, MakeDay, MondayOf;
    WeekYearIsNear(d);
    assert !SameWeek(da, d);
    PlainWeeksTell(da, d);
  }

  /** Nor does a week whose year is a moved one share its key with a week of a plain year. */
  lemma EdgeWeekIsApart(da: int, db: int)
    requires Plain(CivilOf(da).year) && Plain(CivilOf(MondayOf(da) + 3).year)
    requires Plain(CivilOf(db).year) && Moved(CivilOf(MondayOf(db) + 3).year)
    ensures !SameWeek(da, db)
    ensures KeyOf(IsoWeek(CivilOf(da))) != KeyOf(IsoWeek(CivilOf(db)))
  {
    hide IsoWeek, CivilOf, MondayOf, KeyOf, DayFromYear, ValidCivil, DayOfCivil;
    WeekYearOf(da);
    WeekYearOf(db);
    YearsTellKeys(IsoWeek(CivilOf(da)), IsoWeek(CivilOf(db)));
  }

  lemma YearsTellKeys(w: Week, w': Week)
    ensures KeyOf(w) == KeyOf(w') ==> w.year == w'.year
  {
    hide Key;
    if KeyOf(w) == KeyOf(w') { WeekKeyGivesYear(w.year, w.week, w'.year, w'.week); }
  }

  /** An instant on a given day. */
  lemma InstantOn(day: int)
    ensures IstDay(Midnight(day)) == day
  {
    MidnightOrder(day, Midnight(day));
    MidnightOrder(day + 1, Midnight(day));
  }

  /** A week with a day in a moved year has two keys. */
  lemma MovedDaySplitsTheWeek(a: int, d: int)
    requires Plain(IstParts(a).year) && SameWeek(IstDay(a), d) && Moved(CivilOf(d).year)
    ensures !KeyTells(Weekly, a, Midnight(d))
  {
    var da, b := IstDay(a), Midnight(d);
    InstantOn(d);
    WeekInMovedYear(b);
    WeekYearOf(da);
    WeekYearIsNear(d);
    hide ValidCivil, DayOfCivil, DayFromYear, IsoWeek, CivilOf, KeyOf, KeyTells;
    WeekTells(a, b);
    YearsTellKeys(IsoWeek(CivilOf(da)), IsoWeek(CivilOf(d)));
  }

  /** The date `Date.UTC` would move onto this day. */
  lemma MovedOnto(d: int)
    requires Landing(CivilOf(d).year)
    ensures var c := CivilOf(d); var source := c.(year := c.year - 1900);
            ValidCivil(source) && KeyedDay(source) == d && Moved(source.year)
  {
    hide DayFromYear, MakeDay, MonthOffset, IsLeap, CivilOf;
    var c := CivilOf(d);
    LeapLanding(c.year);
    MonthsGrow(IsLeap(c.year), IsLeap(c.year - 1900), c.month - 1);
  }

  lemma LeapLanding(y: int)
    requires Landing(y)
    ensures IsLeap(y) ==> IsLeap(y - 1900)
  {
  }

  lemma MonthsGrow(leap: bool, leap': bool, m: int)
    requires 0 <= m < 12 && (leap ==> leap')
    ensures MonthOffset(leap, m + 1) - MonthOffset(leap, m) <= MonthOffset(leap', m + 1) - MonthOffset(leap', m)
  {
  }

  /** A week with a day in a landing year shares its key with a date nineteen centuries before. */
  lemma LandingDaySharesItsKey(a: int, d: int)
    requires Plain(IstParts(a).year) && SameWeek(IstDay(a), d) && Landing(CivilOf(d).year)
    ensures exists b :: !KeyTells(Weekly, a, b)
  {
    hide CivilOf, MakeDay, KeyTells, MondayOf, Midnight;
    MovedOnto(d);
    var c := CivilOf(d);
    var source := c.(year := c.year - 1900);
    var b := Midnight(DayOfCivil(source));
    InstantOn(DayOfCivil(source));
    CivilRoundTrip(source);
    assert IstParts(b) == source;
    SharesKeyNotWeek(a, b, d);
  }

  lemma SharesKeyNotWeek(a: int, b: int, d: int)
    requires Plain(IstParts(a).year) && SameWeek(IstDay(a), d) && Landing(CivilOf(d).year)
    requires Moved(IstParts(b).year) && KeyedDay(IstParts(b)) == d
    ensures !KeyTells(Weekly, a, b)
  {
    var da, db := IstDay(a), IstDay(b);
    FarApart(da, db, d);
    WeekInMovedYear(b);
    WeekYearIsNear(d);
    hide ValidCivil, DayOfCivil, DayFromYear, IsoWeek, CivilOf, KeyOf, KeyTells, MakeDay, MondayOf, IstDay;
    WeekTells(a, b);
    PlainWeeksTell(da, d);
  }

  /** A week with a day in the twentieth century has none in the first. */
  lemma FarApart(da: int, db: int, d: int)
    requires SameWeek(da, d) && Landing(CivilOf(d).year) && Moved(CivilOf(db).year)
    ensures !SameWeek(da, db) && Plain(CivilOf(MondayOf(da) + 3).year) && Plain(CivilOf(MondayOf(d) + 3).year)
  {
    WeekYearIsNear(d);
    WeekYearIsNear(db);
    hide CivilOf, MondayOf;
  }

  /** A week is told by its key from every other instant exactly when none of its days is in the
      years 0 to 99 or 1900 to 1999. */
  lemma WeekKeysTellExactly(a: int)
    ensures (forall b :: KeyTells(Weekly, a, b)) <==> ClearWeek(IstDay(a))
  {
    hide ValidCivil, DayOfCivil, DayFromYear, CivilOf, MondayOf, IstDay, KeyTells;
    if ClearWeek(IstDay(a)) {
      forall b ensures KeyTells(Weekly, a, b) { ClearWeeksTell(a, b); }
    } else if !Plain(IstParts(a).year) {
      EveryInstantIsInItsWindow(Weekly, a);
      OwnKeyTells(Weekly, a);
      assert !KeyTells(Weekly, a, a);
    } else {
      var d :| SameWeek(IstDay(a), d) && (Moved(CivilOf(d).year) || Landing(CivilOf(d).year));
      if Moved(CivilOf(d).year) {
        MovedDaySplitsTheWeek(a, d);
        assert !KeyTells(Weekly, a, Midnight(d));
      } else {
        LandingDaySharesItsKey(a, d);
      }
    }
  }
}
