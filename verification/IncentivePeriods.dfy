/** Which run of a scheme an instant counts toward. Every boundary is Indian midnight. */
module IncentivePeriods {
  import opened Calendar

  const IST_OFFSET_MS: int := 19_800_000

  const WEEK_MS: int := 604_800_000

  datatype Recurrence = Once | Daily | Weekly | Monthly

  /** A half-open window of instants and the key that names it. */
  datatype Period = Period(key: string, start: int, end: int)

  datatype Week = Week(year: int, week: int)

  function IstDay(at: int): int { Day(at + IST_OFFSET_MS) }

  function IstParts(at: int): Civil { CivilOf(IstDay(at)) }

  function IstMidnight(y: int, m: int, d: int): int { Utc(y, m - 1, d) - IST_OFFSET_MS }

  // ---- keys ----

  function Digit(n: nat): char
    requires n < 10
  {
    "0123456789"[n]
  }

  function Digits(n: nat): (s: string)
    ensures |s| >= 1 && s[0] != '-'
    ensures n < 100 ==> |s| == (if n < 10 then 1 else 2)
  {
    if n < 10 then [Digit(n)] else Digits(n / 10) + [Digit(n % 10)]
  }

  function Decimal(n: int): string { if n < 0 then "-" + Digits(-n) else Digits(n) }

  /** `padStart(2, '0')` of the decimal form. */
  function Pad(n: int): (s: string)
    ensures 0 <= n < 100 ==> |s| == 2
  {
    if 0 <= n < 10 then "0" + Digits(n) else Decimal(n)
  }

  lemma {:induction false} DigitsAreInjective(a: nat, b: nat)
    requires Digits(a) == Digits(b)
    ensures a == b
  {
    if a >= 10 && b >= 10 {
      Suffix(Digits(a / 10), [Digit(a % 10)], Digits(b / 10), [Digit(b % 10)]);
      DigitsAreInjective(a / 10, b / 10);
    }
  }

  lemma Suffix(x: string, s: string, x': string, s': string)
    requires x + s == x' + s' && |s| == |s'|
    ensures x == x' && s == s'
  {
    assert x == (x + s)[..|x|] && s == (x + s)[|x|..];
    assert x' == (x' + s')[..|x'|] && s' == (x' + s')[|x'|..];
  }

  lemma DecimalIsInjective(a: int, b: int)
    requires Decimal(a) == Decimal(b)
    ensures a == b
  {
    if a < 0 && b < 0 {
      assert Decimal(a)[1..] == Digits(-a) && Decimal(b)[1..] == Digits(-b);
      DigitsAreInjective(-a, -b);
    } else if a >= 0 && b >= 0 {
      DigitsAreInjective(a, b);
    }
  }

  lemma PadIsInjective(a: nat, b: nat)
    requires a < 100 && b < 100 && Pad(a) == Pad(b)
    ensures a == b
  {
    if a < 10 && b < 10 {
      assert Pad(a)[1..] == Digits(a) && Pad(b)[1..] == Digits(b);
      DigitsAreInjective(a, b);
    } else if a >= 10 && b >= 10 {
      DigitsAreInjective(a, b);
    } else {
      var large := if a < 10 then b else a;
      LeadingDigit(large);
    }
  }

  lemma LeadingDigit(n: nat)
    requires 10 <= n < 100
    ensures Digits(n) == [Digit(n / 10), Digit(n % 10)] && Digit(n / 10) != '0'
  {
    assert Digits(n / 10) == [Digit(n / 10)];
  }

  /** `<decimal><separator><two digits>`: the shape every key ends in. */
  function Key(y: int, separator: string, part: int): string { Decimal(y) + separator + Pad(part) }

  lemma KeyIsInjective(y: int, y': int, separator: string, part: nat, part': nat)
    requires part < 100 && part' < 100
    requires Key(y, separator, part) == Key(y', separator, part')
    ensures y == y' && part == part'
  {
    Suffix(Decimal(y) + separator, Pad(part), Decimal(y') + separator, Pad(part'));
    Suffix(Decimal(y), separator, Decimal(y'), separator);
    DecimalIsInjective(y, y');
    PadIsInjective(part, part');
  }

  // ---- isoWeek ----

  /** Monday is 0. */
  function DayOfWeek(day: int): int { (WeekDay(day) + 6) % 7 }

  function MondayOf(day: int): int { day - DayOfWeek(day) }

  /** `Math.round(n / d)`. */
  function RoundedQuotient(n: int, d: int): int
    requires d > 0
  {
    (2 * n + d) / (2 * d)
  }

  /** The week of a day: the year of its Thursday, counted from that year's first. */
  function WeekOfDay(day: int): Week {
    var thursday := MondayOf(day) + 3;
    var weekYear := CivilOf(thursday).year;
    var firstThursday := MondayOf(MakeDay(FullYear(weekYear), 0, 4)) + 3;
    Week(weekYear, 1 + RoundedQuotient((thursday - firstThursday) * MS_PER_DAY, WEEK_MS))
  }

  function IsoWeek(c: Civil): Week { WeekOfDay(MakeDay(FullYear(c.year), c.month - 1, c.day)) }

  /** Stepping a date to the Thursday of its week. */
  method ToThursday(date: JsDate)
    requires TimeInDay(date.time) == 0
    modifies date
    ensures date.time == (MondayOf(Day(old(date.time))) + 3) * MS_PER_DAY
  {
    hide CivilOf;
    var dayOfWeek := (WeekDay(Day(date.time)) + 6) % 7;
    date.SetUtcDate(CivilOf(Day(date.time)).day - dayOfWeek + 3);
  }

  lemma MidnightOf(day: int)
    ensures Day(day * MS_PER_DAY) == day && TimeInDay(day * MS_PER_DAY) == 0
  {
    Composed(day, 0);
  }

  method ComputeIsoWeek(year: int, month: int, day: int) returns (r: Week)
    ensures r == IsoWeek(Civil(year, month, day))
  {
    hide DayFromYear, IsLeap, MakeDay, CivilOf, RoundedQuotient, Day, TimeInDay, MondayOf;
    MidnightOf(MakeDay(FullYear(year), month - 1, day));
    var date := new JsDate(Utc(year, month - 1, day));
    ToThursday(date);
    MidnightOf(MondayOf(MakeDay(FullYear(year), month - 1, day)) + 3);
    var weekYear := CivilOf(Day(date.time)).year;
    MidnightOf(MakeDay(FullYear(weekYear), 0, 4));
    var firstThursday := new JsDate(Utc(weekYear, 0, 4));
    ToThursday(firstThursday);
    r := Week(weekYear, 1 + RoundedQuotient(date.time - firstThursday.time, WEEK_MS));
  }

  // ---- periodFor ----

  function PeriodFor(r: Recurrence, at: int): Period {
    var c := IstParts(at);
    match r
    case Daily =>
      Period(Key(c.year, "-", c.month) + "-" + Pad(c.day),
             IstMidnight(c.year, c.month, c.day), IstMidnight(c.year, c.month, c.day + 1))
    case Weekly =>
      var w := IsoWeek(c);
      var dayOfWeek := DayOfWeek(MakeDay(FullYear(c.year), c.month - 1, c.day));
      Period(Key(w.year, "-W", w.week),
             IstMidnight(c.year, c.month, c.day - dayOfWeek), IstMidnight(c.year, c.month, c.day - dayOfWeek + 7))
    case Monthly =>
      Period(Key(c.year, "-", c.month),
             IstMidnight(c.year, c.month, 1), IstMidnight(c.year, c.month + 1, 1))
    case Once =>
      // From the epoch to 31 December 9999.
      Period("lifetime", 0, 253_402_214_400_000)
  }

  function PayoutPeriod(periodEnd: int, periodDays: int): (int, int) {
    var c := IstParts(periodEnd);
    (IstMidnight(c.year, c.month, c.day - (periodDays - 1)), IstMidnight(c.year, c.month, c.day + 1))
  }
}
