/** Days since 1970-01-01 as proleptic Gregorian dates, with the leap years of Appendix C of RFC 3339. */
module Calendar {
  datatype Date = Date(year: int, month: int, day: int)

  /** Division that truncates toward zero. */
  function TruncDiv(a: int, b: int): int
    requires b > 0
  {
    if a >= 0 then a / b else 0 - (0 - a) / b
  }

  // ---- the algorithm, part by part -------------------------------------------------------------------

  function Era(z: int): int {
    TruncDiv(if z >= 0 then z else z - 146096, 146097)
  }

  function YearOfEra(doe: int): int
    requires doe >= 0
  {
    (doe - doe / 1460 + doe / 36524 - doe / 146096) / 365
  }

  function YearStart(yoe: int): int
    requires yoe >= 0
  {
    365 * yoe + yoe / 4 - yoe / 100
  }

  /** Month and day from the day of a year that starts in March. */
  function MonthDay(year: int, doy: int): Date {
    var mp := TruncDiv(5 * doy + 2, 153);
    var d := doy - TruncDiv(153 * mp + 2, 5) + 1;
    var m := mp + (if mp < 10 then 3 else -9);
    Date(year + (if m <= 2 then 1 else 0), m, d)
  }

  function CivilFromDays(days: int): Date {
    var z := days + 719468;
    var era := Era(z);
    var doe := z - era * 146097;
    EraBounds(z);
    var yoe := YearOfEra(doe);
    YearOfEraBound(doe);
    MonthDay(yoe + era * 400, doe - YearStart(yoe))
  }

  lemma EraBounds(z: int)
    ensures 0 <= z - Era(z) * 146097 < 146097
  {
  }

  lemma YearOfEraBound(doe: int)
    requires 0 <= doe < 146097
    ensures 0 <= YearOfEra(doe) < 400
  {
  }

  // ---- the calendar it must agree with ---------------------------------------------------------------

  predicate IsLeap(year: int) {
    year % 4 == 0 && (year % 100 != 0 || year % 400 == 0)
  }

  function DaysInMonth(year: int, month: int): int {
    if month == 2 then (if IsLeap(year) then 29 else 28)
    else if month == 4 || month == 6 || month == 9 || month == 11 then 30
    else 31
  }

  predicate IsDate(d: Date) {
    1 <= d.month <= 12 && 1 <= d.day <= DaysInMonth(d.year, d.month)
  }

  function NextDay(d: Date): Date {
    if d.day < DaysInMonth(d.year, d.month) then d.(day := d.day + 1)
    else if d.month < 12 then Date(d.year, d.month + 1, 1)
    else Date(d.year + 1, 1, 1)
  }

  // ---- years inside an era -----------------------------------------------------------------------------

  /** The length of the year that starts in March of year `yoe` and holds the February of the next. */
  function YearLength(yoe: int): int {
    if IsLeap(yoe + 1) then 366 else 365
  }

  /** The year formula inverts the year starts: century, four-year cycle, year and day determine it. */
  lemma YearOfParts(c: int, q: int, s: int, doy: int)
    requires 0 <= c < 4 && 0 <= q < 25 && 0 <= s < 4 && 0 <= doy <= 365
    requires doy == 365 ==> s == 3 && (q == 24 ==> c == 3)
    ensures YearOfEra(36524 * c + 1461 * q + 365 * s + doy) == 100 * c + 4 * q + s
  {
    var doe := 36524 * c + 1461 * q + 365 * s + doy;
    var rest := 24 * c + q + 365 * s + doy;
    var e := if rest >= 1460 then 1 else 0;
    assert doe == 1460 * (25 * c + q) + rest;
    assert doe / 1460 == 25 * c + q + e;
    assert doe / 36524 - doe / 146096 == c;
    assert doe - doe / 1460 + doe / 36524 - doe / 146096 == 365 * (100 * c + 4 * q + s) + (doy - e);
    assert 0 <= doy - e < 365;
  }

  lemma YearDivides(yoe: int)
    requires 0 <= yoe < 400
    ensures var c, q, s := yoe / 100, yoe % 100 / 4, yoe % 4;
            && 0 <= c < 4 && 0 <= q < 25 && 0 <= s < 4 && yoe == 100 * c + 4 * q + s
            && YearStart(yoe) == 36524 * c + 1461 * q + 365 * s
  {
    var c := yoe / 100;
    var r := yoe % 100;
    assert yoe == 100 * c + r && 0 <= r < 100;
    assert yoe % 4 == r % 4 && yoe / 4 == 25 * c + r / 4;
  }

  lemma LeapByParts(yoe: int, c: int, q: int, s: int)
    requires 0 <= c < 4 && 0 <= q < 25 && 0 <= s < 4 && yoe == 100 * c + 4 * q + s
    ensures IsLeap(yoe + 1) <==> s == 3 && (q == 24 ==> c == 3)
  {
  }

  lemma YearPartsOf(yoe: int)
    requires 0 <= yoe < 400
    ensures var c, q, s := yoe / 100, yoe % 100 / 4, yoe % 4;
            && 0 <= c < 4 && 0 <= q < 25 && 0 <= s < 4 && yoe == 100 * c + 4 * q + s
            && YearStart(yoe) == 36524 * c + 1461 * q + 365 * s
            && (IsLeap(yoe + 1) <==> s == 3 && (q == 24 ==> c == 3))
  {
    YearDivides(yoe);
    LeapByParts(yoe, yoe / 100, yoe % 100 / 4, yoe % 4);
    hide IsLeap, YearStart;
  }

  /** Every day of every year of an era is mapped to that year. */
  lemma YearOfEraInverse(yoe: int, doy: int)
    requires 0 <= yoe < 400 && 0 <= doy < YearLength(yoe)
    ensures 0 <= YearStart(yoe) + doy && YearOfEra(YearStart(yoe) + doy) == yoe
  {
    YearPartsOf(yoe);
    YearOfParts(yoe / 100, yoe % 100 / 4, yoe % 4, doy);
  }

  lemma NextYearStart(yoe: int)
    requires 0 <= yoe < 400
    ensures YearStart(yoe) + YearLength(yoe) == if yoe == 399 then 146097 else YearStart(yoe + 1)
    ensures YearStart(0) == 0
  {
    YearPartsOf(yoe);
    if yoe < 399 {
      YearPartsOf(yoe + 1);
    }
  }

  /** A day of an era lies in the year the formula gives. */
  lemma {:induction false} DayInYear(doe: int, yoe: int)
    requires 0 <= doe < 146097 && 0 <= yoe <= 400 && doe < if yoe == 400 then 146097 else YearStart(yoe)
    ensures var y := YearOfEra(doe);
            0 <= y < 400 && YearStart(y) <= doe < YearStart(y) + YearLength(y)
    decreases yoe
  {
    NextYearStart(0);
    NextYearStart(yoe - 1);
    if YearStart(yoe - 1) <= doe {
      YearOfEraInverse(yoe - 1, doe - YearStart(yoe - 1));
    } else {
      DayInYear(doe, yoe - 1);
    }
  }

  // ---- the main results ------------------------------------------------------------------------------------

  /** Day zero is the first of January 1970. */
  lemma Epoch()
    ensures CivilFromDays(0) == Date(1970, 1, 1)
  {
  }

  lemma MonthDayIsDate(year: int, doy: int)
    requires 0 <= doy < if IsLeap(year + 1) then 366 else 365
    ensures IsDate(MonthDay(year, doy))
  {
  }

  /** From March to December the year does not matter. */
  lemma DayNextInYear(year: int, doy: int)
    requires 0 <= doy < 306
    ensures MonthDay(year, doy + 1) == NextDay(MonthDay(year, doy))
  {
    hide IsLeap;
  }

  lemma DayNextAfterYear(year: int, doy: int)
    requires 306 <= doy && doy + 1 < if IsLeap(year + 1) then 366 else 365
    ensures MonthDay(year, doy + 1) == NextDay(MonthDay(year, doy))
  {
    hide IsLeap;
  }

  lemma MonthDayNext(year: int, doy: int)
    requires 0 <= doy && doy + 1 < if IsLeap(year + 1) then 366 else 365
    ensures MonthDay(year, doy + 1) == NextDay(MonthDay(year, doy))
  {
    hide IsLeap, MonthDay, NextDay;
    if doy < 306 {
      DayNextInYear(year, doy);
    } else {
      DayNextAfterYear(year, doy);
    }
  }

  lemma MonthDayLast(year: int, doy: int)
    requires doy + 1 == if IsLeap(year + 1) then 366 else 365
    ensures MonthDay(year + 1, 0) == NextDay(MonthDay(year, doy))
  {
  }

  lemma Mod4(a: int, q: int)
    ensures (a + 4 * q) % 4 == a % 4
  {
  }

  lemma Mod100(a: int, q: int)
    ensures (a + 100 * q) % 100 == a % 100
  {
  }

  lemma Mod400(a: int, q: int)
    ensures (a + 400 * q) % 400 == a % 400
  {
  }

  lemma LeapInEra(yoe: int, era: int)
    ensures IsLeap(yoe + 1) <==> IsLeap(yoe + era * 400 + 1)
  {
    var a := yoe + 1;
    Mod4(a, 100 * era);
    Mod100(a, 4 * era);
    Mod400(a, era);
    assert a + 4 * (100 * era) == a + 400 * era == a + 100 * (4 * era) == yoe + era * 400 + 1;
  }

  /** Every day number names a real date, and the next day number names the next date. */
  lemma CivilFollowsCalendar(days: int)
    ensures IsDate(CivilFromDays(days))
    ensures CivilFromDays(days + 1) == NextDay(CivilFromDays(days))
  {
    hide MonthDay, NextDay, YearOfEra, YearStart, IsLeap, IsDate;
    var z := days + 719468;
    var era := Era(z);
    var doe := z - era * 146097;
    EraBounds(z);
    DayInYear(doe, 400);
    var yoe := YearOfEra(doe);
    var doy := doe - YearStart(yoe);
    var year := yoe + era * 400;
    LeapInEra(yoe, era);
    MonthDayIsDate(year, doy);
    NextEra(z);
    NextYearStart(yoe);
    assert YearLength(yoe) == if IsLeap(year + 1) then 366 else 365;
    if doy + 1 < YearLength(yoe) {
      LastDayOfEra(yoe, doy);
      assert (z + 1) - Era(z + 1) * 146097 == doe + 1 == YearStart(yoe) + (doy + 1);
      YearOfEraInverse(yoe, doy + 1);
      MonthDayNext(year, doy);
    } else {
      MonthDayLast(year, doy);
      if yoe == 399 {
        YearOfEraInverse(0, 0);
        NextYearStart(0);
      } else {
        YearPartsOf(yoe + 1);
        assert (z + 1) - Era(z + 1) * 146097 == doe + 1 == YearStart(yoe + 1) + 0;
        YearOfEraInverse(yoe + 1, 0);
      }
    }
  }

  lemma LastDayOfEra(yoe: int, doy: int)
    requires 0 <= yoe < 400 && 0 <= doy && doy + 1 < YearLength(yoe)
    ensures YearStart(yoe) + doy < 146096
  {
    YearPartsOf(yoe);
  }

  lemma NextEra(z: int)
    ensures var doe := z - Era(z) * 146097;
            Era(z + 1) == if doe == 146096 then Era(z) + 1 else Era(z)
  {
  }

  /** Hence the date of the day before is the day before. */
  lemma CivilBackwards(days: int)
    ensures NextDay(CivilFromDays(days - 1)) == CivilFromDays(days)
  {
    CivilFollowsCalendar(days - 1);
  }

  // ---- the other direction -------------------------------------------------------------------------------

  function DaysFromCivil(date: Date): int {
    var y := if date.month <= 2 then date.year - 1 else date.year;
    var era := TruncDiv(if y >= 0 then y else y - 399, 400);
    var yoe := y - era * 400;
    var doy := TruncDiv(153 * (date.month + (if date.month > 2 then -1 else 9)) + 2, 5) + date.day - 1;
    var doe := yoe * 365 + TruncDiv(yoe, 4) - TruncDiv(yoe, 100) + doy;
    era * 146097 + doe - 719468
  }

  /** How far the month term overshoots: two months' worth of days from March on. */
  function MonthExcess(month: int): int {
    if month <= 2 then 0
    else TruncDiv(153 * (month - 1) + 2, 5) - TruncDiv(153 * (month - 3) + 2, 5)
  }

  lemma YearEra(yoe: int, era: int)
    requires 0 <= yoe < 400
    ensures var y := yoe + era * 400;
            TruncDiv(if y >= 0 then y else y - 399, 400) == era
  {
  }

  lemma MonthDayBack(year: int, doy: int)
    requires 0 <= doy < 366
    ensures var date := MonthDay(year, doy);
            && 1 <= date.month <= 12
            && (if date.month <= 2 then date.year - 1 else date.year) == year
            && TruncDiv(153 * (date.month + (if date.month > 2 then -1 else 9)) + 2, 5) + date.day - 1 == doy + MonthExcess(date.month)
  {
  }

  /** The day number of a date by its era, its year of the era and its day of the year. */
  lemma DaysFromParts(date: Date, era: int, yoe: int, doy: int)
    requires 0 <= yoe < 400 && (if date.month <= 2 then date.year - 1 else date.year) == yoe + era * 400
    requires TruncDiv(153 * (date.month + (if date.month > 2 then -1 else 9)) + 2, 5) + date.day - 1 == doy
    ensures DaysFromCivil(date) == era * 146097 + YearStart(yoe) + doy - 719468
  {
    YearEra(yoe, era);
  }

  /** The day number computed back from a date is too large by the month term, and only by that. */
  lemma DaysFromCivilOvershoots(days: int)
    ensures DaysFromCivil(CivilFromDays(days)) == days + MonthExcess(CivilFromDays(days).month)
  {
    hide MonthDay, YearOfEra, MonthExcess, DaysFromCivil, YearStart, TruncDiv;
    var z := days + 719468;
    var era := Era(z);
    var doe := z - era * 146097;
    EraBounds(z);
    DayInYear(doe, 400);
    var yoe := YearOfEra(doe);
    var doy := doe - YearStart(yoe);
    MonthDayBack(yoe + era * 400, doy);
    var date := MonthDay(yoe + era * 400, doy);
    DaysFromParts(date, era, yoe, doy + MonthExcess(date.month));
  }

  /** So converting back inverts exactly the dates of January and February. */
  lemma DaysFromCivilInverseIff(days: int)
    ensures DaysFromCivil(CivilFromDays(days)) == days <==> CivilFromDays(days).month <= 2
  {
    DaysFromCivilOvershoots(days);
    hide DaysFromCivil;
    CivilFollowsCalendar(days);
    hide CivilFromDays;
  }

  const NANOS_PER_DAY: int := 86_400_000_000_000

  /** Rendering an instant picks its day by truncation: the right day exactly from 1970 on, or at midnight. */
  lemma RenderedDayIff(nanos: int)
    ensures TruncDiv(nanos, NANOS_PER_DAY) == nanos / NANOS_PER_DAY <==> nanos >= 0 || nanos % NANOS_PER_DAY == 0
  {
  }
}
