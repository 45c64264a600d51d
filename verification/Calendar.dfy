/**
  Days since 1970-01-01 as dates and weekdays: the closed formulas of the clock, and the
  calendar they stand for, the proleptic Gregorian one stepped day by day.
 */
module Calendar {
  datatype Date = Date(year: int, month: int, day: int)

  // --------------------------------------------------------------- the calendar itself

  predicate Leap(y: int) {
    y % 4 == 0 && (y % 100 != 0 || y % 400 == 0)
  }

  function MonthLength(y: int, m: int): int {
    if m == 2 then (if Leap(y) then 29 else 28)
    else if m == 4 || m == 6 || m == 9 || m == 11 then 30
    else 31
  }

  function NextDay(t: Date): Date {
    if t.day < MonthLength(t.year, t.month) then t.(day := t.day + 1)
    else if t.month < 12 then Date(t.year, t.month + 1, 1)
    else Date(t.year + 1, 1, 1)
  }

  function PreviousDay(t: Date): Date {
    if t.day > 1 then t.(day := t.day - 1)
    else if t.month > 1 then Date(t.year, t.month - 1, MonthLength(t.year, t.month - 1))
    else Date(t.year - 1, 12, 31)
  }

  /** The date `z` days after 1970-01-01, one day at a time. */
  function Stepped(z: int): Date
    decreases if z < 0 then -z else z
  {
    if z == 0 then Date(1970, 1, 1)
    else if z > 0 then NextDay(Stepped(z - 1))
    else PreviousDay(Stepped(z + 1))
  }

  ghost predicate IsDate(t: Date) {
    1 <= t.month <= 12 && 1 <= t.day <= MonthLength(t.year, t.month)
  }

  lemma {:induction false} BackAndForth(t: Date)
    requires IsDate(t)
    ensures PreviousDay(NextDay(t)) == t && IsDate(NextDay(t))
  {
  }

  // -------------------------------------------------------------------- the formulas

  /** C's division of integers, toward zero. */
  function Quotient(a: int, b: int): int
    requires b > 0
  {
    if a >= 0 then a / b else -(-a / b)
  }

  function Remainder(a: int, b: int): int
    requires b > 0
  {
    a - Quotient(a, b) * b
  }

  const ERA := 146097

  function Era(z: int): int {
    Quotient(if z >= 0 then z else z - 146096, ERA)
  }

  function YearOfEra(doe: int): int
    requires doe >= 0
  {
    (doe - doe / 1460 + doe / 36524 - doe / 146096) / 365
  }

  function DayOfYear(doe: int): int
    requires doe >= 0
  {
    var yoe := YearOfEra(doe);
    doe - (365 * yoe + yoe / 4 - yoe / 100)
  }

  function MonthIndex(doy: int): int {
    (5 * doy + 2) / 153
  }

  function DayOfMonth(doy: int): int {
    doy - (153 * MonthIndex(doy) + 2) / 5 + 1
  }

  /** The date from a year and a day counted from the first of March. */
  function FromMarch(y: int, doy: int): Date {
    var mp := MonthIndex(doy);
    var m := if mp < 10 then mp + 3 else mp - 9;
    Date(y + (if m <= 2 then 1 else 0), m, DayOfMonth(doy))
  }

  function CivilFromDays(days: int): Date {
    var z := days + 719468;
    var era := Era(z);
    var doe := z - era * ERA;
    EraFloors(z);
    FromMarch(YearOfEra(doe) + era * 400, DayOfYear(doe))
  }

  function WeekdayFromDays(z: int): int {
    if z >= -4 then Remainder(z + 4, 7) else Remainder(z + 5, 7) + 6
  }

  // -------------------------------------------------------------------- eras

  lemma {:induction false} EraFloors(z: int)
    ensures 0 <= z - Era(z) * ERA < ERA
  {
  }

  // ------------------------------------------------------------ years within an era

  /** The day of the era a year begins on, years running from March. */
  function YearStart(y: int): int {
    365 * y + y / 4 - y / 100
  }

  function YearLength(y: int): int {
    if Leap(y + 1) then 366 else 365
  }

  /** The year formula on a day given by century, four years, year and day. */
  lemma {:induction false} YearFormula(c: int, q: int, t: int, r: int)
    requires 0 <= c <= 3 && 0 <= q <= 24 && 0 <= t <= 3 && 0 <= r <= 365
    requires r == 365 ==> t == 3 && (q == 24 ==> c == 3)
    ensures YearOfEra(36524 * c + 1461 * q + 365 * t + r) == 100 * c + 4 * q + t
  {
    var doe := 36524 * c + 1461 * q + 365 * t + r;
    var low := 24 * c + q + 365 * t + r;
    var e := if low >= 1460 then 1 else 0;
    assert doe == 1460 * (25 * c + q) + low;
    assert doe / 1460 == 25 * c + q + e;
    CenturyFormula(c, q, t, r);
    assert doe - doe / 1460 + doe / 36524 - doe / 146096 == 365 * (100 * c + 4 * q + t) + (r - e);
  }

  lemma {:induction false} CenturyFormula(c: int, q: int, t: int, r: int)
    requires 0 <= c <= 3 && 0 <= q <= 24 && 0 <= t <= 3 && 0 <= r <= 365
    requires r == 365 ==> t == 3 && (q == 24 ==> c == 3)
    ensures var doe := 36524 * c + 1461 * q + 365 * t + r;
            doe / 36524 - doe / 146096 == c
  {
    var rest := 1461 * q + 365 * t + r;
    assert rest <= 36524 && (rest == 36524 ==> c == 3);
  }

  /** Day `r` of year `y` of an era is found to be that. */
  lemma {:induction false} YearFound(y: int, r: int)
    requires 0 <= y < 400 && 0 <= r < YearLength(y)
    ensures YearOfEra(YearStart(y) + r) == y && DayOfYear(YearStart(y) + r) == r
  {
    var c := y / 100;
    var q := (y - 100 * c) / 4;
    var t := y - 100 * c - 4 * q;
    assert y / 4 == 25 * c + q;
    if r == 365 {
      assert (y + 1) % 4 == 0;
    }
    YearFormula(c, q, t, r);
  }

  lemma {:induction false} YearAfter(y: int)
    requires 0 <= y < 400
    ensures YearStart(y) + YearLength(y) == if y == 399 then ERA else YearStart(y + 1)
  {
    assert (y + 1) / 4 == y / 4 + if (y + 1) % 4 == 0 then 1 else 0;
    assert (y + 1) / 100 == y / 100 + if (y + 1) % 100 == 0 then 1 else 0;
    assert (y + 1) % 100 == 0 ==> (y + 1) % 4 == 0;
    assert (y + 1) % 400 == 0 <==> y == 399;
  }

  /** Every day of an era is a day of one of its years. */
  lemma {:induction false} YearPlace(doe: int) returns (y: int, r: int)
    requires 0 <= doe < ERA
    ensures 0 <= y < 400 && 0 <= r < YearLength(y) && doe == YearStart(y) + r
  {
    y, r := 0, doe;
    while r >= YearLength(y)
      invariant 0 <= y < 400 && 0 <= r && doe == YearStart(y) + r
      decreases 400 - y
    {
      YearAfter(y);
      r := r - YearLength(y);
      y := y + 1;
    }
  }

  // ------------------------------------------------------------- months within a year

  /** The day of the year the month `mp` after March begins on. */
  function MonthStart(mp: int): int {
    (153 * mp + 2) / 5
  }

  lemma {:induction false} MonthFound(doy: int, mp: int)
    ensures MonthIndex(doy) == mp <==> MonthStart(mp) <= doy < MonthStart(mp + 1)
  {
  }

  function MonthNumber(mp: int): int {
    if mp < 10 then mp + 3 else mp - 9
  }

  lemma {:induction false} MonthSpan(y: int, mp: int)
    requires 0 <= mp <= 10
    ensures MonthStart(mp + 1) - MonthStart(mp) == MonthLength(y, MonthNumber(mp)) && MonthStart(0) == 0
    ensures MonthStart(11) == 337
    ensures MonthNumber(mp + 1) == if MonthNumber(mp) == 12 then 1 else MonthNumber(mp) + 1
  {
    assert mp == 0 || mp == 1 || mp == 2 || mp == 3 || mp == 4 || mp == 5
      || mp == 6 || mp == 7 || mp == 8 || mp == 9 || mp == 10;
  }

  lemma {:induction false} MonthNext(y: int, doy: int)
    requires 0 <= doy && doy + 1 < YearLength(y)
    ensures IsDate(FromMarch(y, doy)) && FromMarch(y, doy + 1) == NextDay(FromMarch(y, doy))
  {
    var mp := MonthIndex(doy);
    assert 0 <= mp <= 11;
    MonthFound(doy, mp);
    MonthFound(doy + 1, mp);
    MonthFound(doy + 1, mp + 1);
    var year := FromMarch(y, doy).year;
    if mp <= 10 {
      MonthSpan(year, mp);
      NextMonth(doy, mp);
    } else {
      MonthSpan(year, 10);
    }
  }

  lemma {:induction false} NextMonth(doy: int, mp: int)
    requires 0 <= mp <= 10 && MonthStart(mp) <= doy < MonthStart(mp + 1)
    ensures doy + 1 < MonthStart(mp + 1) || (doy + 1 == MonthStart(mp + 1) && doy + 1 < MonthStart(mp + 2))
  {
  }

  lemma {:induction false} MonthLast(y: int)
    ensures IsDate(FromMarch(y, YearLength(y) - 1))
    ensures NextDay(FromMarch(y, YearLength(y) - 1)) == FromMarch(y + 1, 0)
  {
  }

  // ---------------------------------------------------------------------- all days

  lemma {:induction false} LeapEra(y: int, era: int)
    ensures Leap(y + era * 400) == Leap(y) && YearLength(y + era * 400) == YearLength(y)
    decreases if era < 0 then -era else era
  {
    if era > 0 {
      LeapEra(y, era - 1);
      LeapCycle(y + (era - 1) * 400);
    } else if era < 0 {
      LeapEra(y, era + 1);
      LeapCycle(y + era * 400);
    }
  }

  lemma {:induction false} LeapCycle(y: int)
    ensures Leap(y + 400) == Leap(y) && YearLength(y + 400) == YearLength(y)
  {
    assert (y + 400) % 4 == y % 4 && (y + 401) % 4 == (y + 1) % 4;
    assert (y + 400) % 100 == y % 100 && (y + 401) % 100 == (y + 1) % 100;
    assert (y + 400) % 400 == y % 400 && (y + 401) % 400 == (y + 1) % 400;
  }

  lemma {:induction false} EraIs(z: int, era: int)
    requires 0 <= z - era * ERA < ERA
    ensures Era(z) == era
  {
    EraFloors(z);
  }

  /** The date of day `r` of year `y` of an era. */
  lemma {:induction false} CivilAt(days: int, era: int, y: int, r: int)
    requires 0 <= y < 400 && 0 <= r < YearLength(y) && days + 719468 == era * ERA + YearStart(y) + r
    ensures CivilFromDays(days) == FromMarch(y + era * 400, r)
  {
    hide YearStart, YearLength, FromMarch, YearOfEra, DayOfYear, Era;
    var z := days + 719468;
    YearFound(y, r);
    YearEnds(y);
    EraIs(z, era);
    assert z - era * ERA == YearStart(y) + r;
  }

  lemma {:induction false} YearEnds(y: int)
    requires 0 <= y < 400
    ensures 0 <= YearStart(y) && YearStart(y) + YearLength(y) <= ERA
    decreases 400 - y
  {
    YearAfter(y);
    if y < 399 {
      YearEnds(y + 1);
    }
  }

  lemma {:induction false} CivilNext(days: int)
    ensures IsDate(CivilFromDays(days)) && CivilFromDays(days + 1) == NextDay(CivilFromDays(days))
  {
    hide YearStart, YearLength, FromMarch, NextDay, CivilFromDays, Leap, IsDate, Era;
    var z := days + 719468;
    var era := Era(z);
    EraFloors(z);
    var y, r := YearPlace(z - era * ERA);
    CivilAt(days, era, y, r);
    LeapEra(y, era);
    YearAfter(y);
    if r + 1 < YearLength(y) {
      CivilAt(days + 1, era, y, r + 1);
      MonthNext(y + era * 400, r);
    } else {
      MonthLast(y + era * 400);
      NonEmptyYears(y);
      if y < 399 {
        CivilAt(days + 1, era, y + 1, 0);
      } else {
        CivilAt(days + 1, era + 1, 0, 0);
      }
    }
  }

  lemma {:induction false} NonEmptyYears(y: int)
    ensures 0 < YearLength(y + 1) && 0 < YearLength(0) && YearStart(0) == 0
  {
  }

  lemma {:induction false} Epoch()
    ensures CivilFromDays(0) == Date(1970, 1, 1)
  {
    assert Era(719468) == 4;
    assert YearOfEra(135080) == 369 && DayOfYear(135080) == 306;
  }

  /** On every day, before the epoch or after it, the formula gives the calendar's date. */
  lemma {:induction false} CivilIsCalendar(z: int)
    ensures CivilFromDays(z) == Stepped(z) && IsDate(Stepped(z))
    decreases if z < 0 then -z else z
  {
    hide CivilFromDays, NextDay, PreviousDay, IsDate;
    Epoch();
    CivilNext(z);
    if z > 0 {
      CivilIsCalendar(z - 1);
      CivilNext(z - 1);
    } else if z < 0 {
      CivilIsCalendar(z + 1);
      BackAndForth(CivilFromDays(z));
    }
  }

  /** Different days have different dates. */
  lemma {:induction false} CivilInjective(a: int, b: int)
    requires a <= b && CivilFromDays(a) == CivilFromDays(b)
    ensures a == b
  {
    if a < b {
      CivilGrows(a, b);
    }
  }

  ghost predicate Before(s: Date, t: Date) {
    s.year < t.year || (s.year == t.year && (s.month < t.month || (s.month == t.month && s.day < t.day)))
  }

  lemma {:induction false} CivilGrows(a: int, b: int)
    requires a < b
    ensures Before(CivilFromDays(a), CivilFromDays(b))
    decreases b - a
  {
    CivilNext(b - 1);
    hide CivilFromDays;
    if a < b - 1 {
      CivilGrows(a, b - 1);
    }
  }

  /** The weekday is the days since a Sunday modulo seven, so it moves on by one a day. */
  lemma {:induction false} WeekdayAdvances(z: int)
    ensures 0 <= WeekdayFromDays(z) <= 6 && WeekdayFromDays(0) == 4
    ensures WeekdayFromDays(z + 1) == (WeekdayFromDays(z) + 1) % 7
  {
    WeekdayIs(z);
    WeekdayIs(z + 1);
  }

  lemma {:induction false} WeekdayIs(z: int)
    ensures WeekdayFromDays(z) == (z + 4) % 7
  {
    if z < -4 {
      var k := -(z + 5);
      assert Quotient(z + 5, 7) == -(k / 7);
      assert z + 4 == 7 * (-(k / 7) - 1) + (6 - k % 7);
    }
  }

  // -------------------------------------------------------------------- word width

  predicate InWord(x: int) {
    -0x8000_0000 <= x < 0x8000_0000
  }

  /** In 32-bit integers the formula's first sum overflows exactly on the last 719468 days;
      on the others no intermediate value does. */
  lemma {:induction false} CivilInWord(days: int)
    requires InWord(days)
    ensures InWord(days + 719468) <==> days < 0x8000_0000 - 719468
    ensures InWord(days + 719468) ==>
              var z := days + 719468;
              var era := Era(z);
              var doe := z - era * ERA;
              && (z < 0 ==> InWord(z - 146096)) && InWord(era * ERA) && 0 <= doe < ERA
              && InWord(era * 400) && InWord(CivilFromDays(days).year)
  {
    if InWord(days + 719468) {
      var z := days + 719468;
      var era := Era(z);
      EraFloors(z);
      assert -14701 <= era <= 14700;
      var y, r := YearPlace(z - era * ERA);
      CivilAt(days, era, y, r);
    }
  }
}
