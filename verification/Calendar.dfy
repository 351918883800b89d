/** Unix seconds to a Gregorian UTC stamp, as the bench certificates print it.

    `CivilFromDays` is the era arithmetic of the source. Its partner is `DaysFromCivil`, which
    counts days year by year and month by month from 1970-01-01 and shares nothing with it. */
module Calendar {

  datatype Date = Date(year: int, month: int, day: int)

  // ----- The proleptic Gregorian calendar (section 5.7 and Appendix C of RFC 3339) -----

  predicate IsLeap(y: int) {
    y % 4 == 0 && (y % 100 != 0 || y % 400 == 0)
  }

  function MonthLength(y: int, m: int): int {
    if m == 2 then (if IsLeap(y) then 29 else 28)
    else if m in {4, 6, 9, 11} then 30
    else 31
  }

  predicate ValidDate(d: Date) {
    1 <= d.month <= 12 && 1 <= d.day <= MonthLength(d.year, d.month)
  }

  /** The calendar day after `d`. */
  function NextDate(d: Date): Date {
    if d.day < MonthLength(d.year, d.month) then Date(d.year, d.month, d.day + 1)
    else if d.month < 12 then Date(d.year, d.month + 1, 1)
    else Date(d.year + 1, 1, 1)
  }

  function DaysInYear(y: int): int {
    if IsLeap(y) then 366 else 365
  }

  /** Days from 1970-01-01 to the first of January of year `y`, one year at a time. */
  function DaysBeforeYear(y: int): int
    decreases if y >= 1970 then y - 1970 else 1970 - y
  {
    if y == 1970 then 0
    else if y > 1970 then DaysBeforeYear(y - 1) + DaysInYear(y - 1)
    else DaysBeforeYear(y + 1) - DaysInYear(y)
  }

  /** Days from the first of January to the first of month `m`, one month at a time. */
  function DaysBeforeMonth(y: int, m: int): int
    decreases m
  {
    if m <= 1 then 0 else DaysBeforeMonth(y, m - 1) + MonthLength(y, m - 1)
  }

  function DaysFromCivil(d: Date): int {
    DaysBeforeYear(d.year) + DaysBeforeMonth(d.year, d.month) + d.day - 1
  }

  // ----- The source's conversion -----

  function YearOfEra(doe: int): int {
    (doe - doe / 1460 + doe / 36524 - doe / 146096) / 365
  }

  /** Days of the era before its year `yoe`, where years run from March to February. */
  function EraYearStart(yoe: int): int {
    365 * yoe + yoe / 4 - yoe / 100
  }

  function MonthIndex(doy: int): int {
    (5 * doy + 2) / 153
  }

  /** Days of a March-based year before its month `mp` (0 is March, 11 is February). */
  function MarchMonthStart(mp: int): int {
    (153 * mp + 2) / 5
  }

  /** The date of day `doy` of the year that starts in March of year `y`. */
  function DateInMarchYear(y: int, doy: int): Date {
    var mp := MonthIndex(doy);
    var m := if mp < 10 then mp + 3 else mp - 9;
    Date(if m <= 2 then y + 1 else y, m, doy - MarchMonthStart(mp) + 1)
  }

  /** The date of day `doe` of the 400-year era `era`. */
  function DateInEra(era: int, doe: int): Date {
    var yoe := YearOfEra(doe);
    DateInMarchYear(yoe + era * 400, doe - EraYearStart(yoe))
  }

  /** `days_to_ymd` before the year is narrowed to 32 bits. */
  function CivilFromDays(days: int): Date {
    DateInEra((days + 719468) / 146097, (days + 719468) % 146097)
  }

  const TWO_31 := 0x8000_0000
  const TWO_32 := 0x1_0000_0000
  const TWO_63 := 0x8000_0000_0000_0000
  const TWO_64 := 0x1_0000_0000_0000_0000

  /** The `as i32` cast: keep 32 bits, read them as two's complement. */
  function WrapI32(y: int): (r: int)
    ensures -TWO_31 <= r < TWO_31 && (r - y) % TWO_32 == 0
    ensures -TWO_31 <= y < TWO_31 ==> r == y
  {
    (y + TWO_31) % TWO_32 - TWO_31
  }

  /** The date `days_to_ymd` returns. */
  function YmdFromDays(days: int): Date {
    var d := CivilFromDays(days);
    d.(year := WrapI32(d.year))
  }

  /** `days_to_ymd`: straight-line arithmetic on 64-bit values, `days` shifted in place. */
  method DaysToYmd(days: int) returns (year: int, month: int, day: int)
    requires -TWO_63 <= days && days + 719468 < TWO_63
    ensures Date(year, month, day) == YmdFromDays(days)
    ensures -TWO_31 <= year < TWO_31 && 1 <= month <= 12 && 1 <= day <= 31
  {
    var z := days;
    z := z + 719468;
    var era := z / 146097;
    var doe := z % 146097;
    var yoe := (doe - doe / 1460 + doe / 36524 - doe / 146096) / 365;
    assert yoe == YearOfEra(doe);
    var y := yoe + era * 400;
    var doy := doe - (365 * yoe + yoe / 4 - yoe / 100);
    var mp := (5 * doy + 2) / 153;
    var d := doy - (153 * mp + 2) / 5 + 1;
    var m := if mp < 10 then mp + 3 else mp - 9;
    y := if m <= 2 then y + 1 else y;
    assert Date(y, m, d) == DateInEra(era, doe);
    CivilFromDaysIsInverse(days);
    return WrapI32(y), m, d;
  }

  // ----- The conversion is the calendar -----

  /** The year of the era written as whole centuries, whole four-year cycles and years: the
      corrections by 1460, 36524 and 146096 find it from the day number. */
  lemma YearOfEraFromCycles(c: int, a: int, b: int, t: int)
    requires 0 <= c <= 3 && 0 <= a <= 24 && 0 <= b <= 3 && 0 <= t <= 365
    requires t == 365 ==> b == 3 && (a < 24 || c == 3)
    ensures YearOfEra(36524 * c + 1461 * a + 365 * b + t) == 100 * c + 4 * a + b
    ensures EraYearStart(100 * c + 4 * a + b) == 36524 * c + 1461 * a + 365 * b
  {
    var s := 365 * b + t;
    var doe := 36524 * c + 1461 * a + s;
    var e := if 24 * c + a + s >= 1460 then 1 else 0;
    assert doe / 1460 == 25 * c + a + e;
    assert doe / 36524 - doe / 146096 == c;
    assert doe - doe / 1460 + doe / 36524 - doe / 146096 == 365 * (100 * c + 4 * a) + (s - e);
    assert 365 * b <= s - e < 365 * (b + 1);
    assert (100 * c + 4 * a + b) / 4 == 25 * c + a;
    assert (100 * c + 4 * a + b) / 100 == c;
  }

  lemma YearOfEraBrackets(doe: int)
    requires 0 <= doe < 146097
    ensures var yoe := YearOfEra(doe);
            && 0 <= yoe < 400
            && 0 <= doe - EraYearStart(yoe) <= 365
            && (doe - EraYearStart(yoe) == 365 ==> IsLeap(yoe + 1))
  {
    var c := if doe == 146096 then 3 else doe / 36524;
    var r := doe - 36524 * c;
    var a := r / 1461;
    var s := r - 1461 * a;
    var b := if s == 1460 then 3 else s / 365;
    YearOfEraFromCycles(c, a, b, s - 365 * b);
    if s == 1460 {
      LeapAfterCycles(c, a);
    }
  }

  lemma LeapAfterCycles(c: int, a: int)
    requires 0 <= c <= 3 && 0 <= a <= 24 && (a < 24 || c == 3)
    ensures IsLeap(100 * c + 4 * a + 4)
  {
    var y := 4 * (25 * c + a + 1);
    if a < 24 {
      assert y == 100 * c + 4 * (a + 1);
    }
  }

  /** Within a March-based year the index `mp` is the month that contains day `doy`. */
  lemma MonthIndexBrackets(doy: int)
    requires 0 <= doy <= 365
    ensures var mp := MonthIndex(doy);
            && 0 <= mp <= 11
            && MarchMonthStart(mp) <= doy
            && (mp < 11 ==> doy < MarchMonthStart(mp + 1))
  {
  }

  function LeapsThrough(y: int): int {
    y / 4 - y / 100 + y / 400
  }

  lemma DivisionStep(y: int, k: int)
    requires k in {4, 100, 400}
    ensures y / k - (y - 1) / k == if y % k == 0 then 1 else 0
  {
  }

  lemma LeapStep(y: int)
    ensures LeapsThrough(y) - LeapsThrough(y - 1) == if IsLeap(y) then 1 else 0
  {
    DivisionStep(y, 4);
    DivisionStep(y, 100);
    DivisionStep(y, 400);
    MultiplesNest(y);
  }

  lemma MultiplesNest(y: int)
    ensures y % 400 == 0 ==> y % 100 == 0
    ensures y % 100 == 0 ==> y % 4 == 0
  {
    if y % 400 == 0 {
      Multiple100(4 * (y / 400));
    }
    if y % 100 == 0 {
      Multiple4(25 * (y / 100));
    }
  }

  lemma Multiple100(k: int)
    ensures 100 * k % 100 == 0
  {
  }

  lemma Multiple4(k: int)
    ensures 4 * k % 4 == 0
  {
  }

  lemma {:induction false} DaysBeforeYearClosed(y: int)
    ensures DaysBeforeYear(y) == 365 * y + LeapsThrough(y - 1) - 719527
    decreases if y >= 1970 then y - 1970 else 1970 - y
  {
    if y > 1970 {
      DaysBeforeYearClosed(y - 1);
      LeapStep(y - 1);
    } else if y < 1970 {
      DaysBeforeYearClosed(y + 1);
      LeapStep(y);
    }
  }

  lemma MonthStarts(y: int, mp: int)
    requires 0 <= mp <= 11
    ensures mp < 10 ==> DaysBeforeMonth(y, mp + 3) == 59 + (if IsLeap(y) then 1 else 0) + MarchMonthStart(mp)
    ensures mp >= 10 ==> DaysBeforeMonth(y, mp - 9) == MarchMonthStart(mp) - 306
    ensures mp < 11 ==> MarchMonthStart(mp + 1) - MarchMonthStart(mp) == MonthLength(y, if mp < 10 then mp + 3 else mp - 9)
  {
    assert DaysBeforeMonth(y, 1) == 0;
    assert DaysBeforeMonth(y, 2) == 31;
    assert DaysBeforeMonth(y, 3) == 59 + (if IsLeap(y) then 1 else 0);
    assert DaysBeforeMonth(y, 4) == DaysBeforeMonth(y, 3) + 31;
    assert DaysBeforeMonth(y, 5) == DaysBeforeMonth(y, 4) + 30;
    assert DaysBeforeMonth(y, 6) == DaysBeforeMonth(y, 5) + 31;
    assert DaysBeforeMonth(y, 7) == DaysBeforeMonth(y, 6) + 30;
    assert DaysBeforeMonth(y, 8) == DaysBeforeMonth(y, 7) + 31;
    assert DaysBeforeMonth(y, 9) == DaysBeforeMonth(y, 8) + 31;
    assert DaysBeforeMonth(y, 10) == DaysBeforeMonth(y, 9) + 30;
    assert DaysBeforeMonth(y, 11) == DaysBeforeMonth(y, 10) + 31;
    assert DaysBeforeMonth(y, 12) == DaysBeforeMonth(y, 11) + 30;
  }

  lemma DateInMarchYearCounts(y: int, doy: int)
    requires 0 <= doy <= 365 && (doy == 365 ==> IsLeap(y + 1))
    ensures ValidDate(DateInMarchYear(y, doy))
    ensures DaysFromCivil(DateInMarchYear(y, doy)) == 365 * y + LeapsThrough(y) + doy - 719468
  {
    MonthIndexBrackets(doy);
    var mp := MonthIndex(doy);
    if mp < 10 {
      MonthStarts(y, mp);
      LeapStep(y);
      DaysBeforeYearClosed(y);
    } else {
      MonthStarts(y + 1, mp);
      DaysBeforeYearClosed(y + 1);
    }
  }

  lemma ErasRepeat(yoe: int, era: int)
    ensures IsLeap(yoe + era * 400 + 1) == IsLeap(yoe + 1)
    ensures 0 <= yoe < 400 ==>
              365 * (yoe + era * 400) + LeapsThrough(yoe + era * 400) == era * 146097 + EraYearStart(yoe)
  {
    var y := yoe + era * 400;
    assert y / 4 == yoe / 4 + 100 * era && y / 100 == yoe / 100 + 4 * era && y / 400 == yoe / 400 + era;
    assert (y + 1) / 4 == (yoe + 1) / 4 + 100 * era && (y + 1) / 100 == (yoe + 1) / 100 + 4 * era
           && (y + 1) / 400 == (yoe + 1) / 400 + era;
  }

  /** Every day number becomes a real calendar date, and counting days up to that date gives
      the number back. */
  lemma CivilFromDaysIsInverse(days: int)
    ensures ValidDate(CivilFromDays(days))
    ensures DaysFromCivil(CivilFromDays(days)) == days
  {
    EraDayCounts((days + 719468) / 146097, (days + 719468) % 146097);
  }

  lemma EraDayCounts(era: int, doe: int)
    requires 0 <= doe < 146097
    ensures ValidDate(DateInEra(era, doe))
    ensures DaysFromCivil(DateInEra(era, doe)) == era * 146097 + doe - 719468
  {
    hide DateInMarchYear, DaysFromCivil, YearOfEra, EraYearStart, LeapsThrough, IsLeap, ValidDate;
    YearOfEraBrackets(doe);
    var yoe := YearOfEra(doe);
    ErasRepeat(yoe, era);
    var y := yoe + era * 400;
    var doy := doe - EraYearStart(yoe);
    DateInMarchYearCounts(y, doy);
  }

  lemma {:induction false} DaysBeforeMonthIncreases(y: int, m: int, n: int)
    requires 1 <= m < n <= 13
    ensures DaysBeforeMonth(y, m) + MonthLength(y, m) <= DaysBeforeMonth(y, n)
    decreases n
  {
    if m < n - 1 {
      DaysBeforeMonthIncreases(y, m, n - 1);
    }
  }

  lemma YearDaysAddUp(y: int)
    ensures DaysBeforeMonth(y, 13) == DaysInYear(y)
    ensures DaysBeforeYear(y + 1) == DaysBeforeYear(y) + DaysInYear(y)
  {
    MonthStarts(y, 9);
    assert DaysBeforeMonth(y, 13) == DaysBeforeMonth(y, 12) + 31;
  }

  lemma MonthHasDays(y: int)
    ensures MonthLength(y, 1) == 31
  {
  }

  lemma YearsIncrease(y: int, z: int)
    requires y <= z
    ensures DaysBeforeYear(y) <= DaysBeforeYear(z)
  {
    DaysBeforeYearClosed(y);
    DaysBeforeYearClosed(z);
    hide DaysBeforeYear;
  }

  lemma DaysFromCivilIncreases(a: Date, b: Date)
    requires ValidDate(a) && ValidDate(b)
    requires a.year < b.year || (a.year == b.year && (a.month < b.month || (a.month == b.month && a.day < b.day)))
    ensures DaysFromCivil(a) < DaysFromCivil(b)
  {
    assert DaysBeforeMonth(b.year, 1) == 0;
    hide DaysBeforeYear, DaysBeforeMonth, DaysInYear, MonthLength;
    if a.year < b.year {
      DaysBeforeMonthIncreases(a.year, a.month, 13);
      YearDaysAddUp(a.year);
      YearsIncrease(a.year + 1, b.year);
      MonthHasDays(b.year);
      if b.month > 1 {
        DaysBeforeMonthIncreases(b.year, 1, b.month);
      }
    } else if a.month < b.month {
      DaysBeforeMonthIncreases(a.year, a.month, b.month);
    }
  }

  /** The conversion is a bijection between the integers and the valid dates: this half says
      that no date is missed. */
  lemma CivilFromDaysIsOnto(d: Date)
    requires ValidDate(d)
    ensures CivilFromDays(DaysFromCivil(d)) == d
  {
    var e := CivilFromDays(DaysFromCivil(d));
    CivilFromDaysIsInverse(DaysFromCivil(d));
    if e != d {
      if d.year < e.year || (d.year == e.year && (d.month < e.month || (d.month == e.month && d.day < e.day))) {
        DaysFromCivilIncreases(d, e);
      } else {
        DaysFromCivilIncreases(e, d);
      }
      assert false;
    }
  }

  /** The next day number is the next calendar day, leap days and year ends included. */
  lemma CivilFromDaysSteps(days: int)
    ensures CivilFromDays(days + 1) == NextDate(CivilFromDays(days))
  {
    hide CivilFromDays, NextDate, DaysFromCivil, ValidDate;
    CivilFromDaysIsInverse(days);
    NextDateCounts(CivilFromDays(days));
    CivilFromDaysIsOnto(NextDate(CivilFromDays(days)));
  }

  lemma NextDateCounts(d: Date)
    requires ValidDate(d)
    ensures ValidDate(NextDate(d)) && DaysFromCivil(NextDate(d)) == DaysFromCivil(d) + 1
  {
    YearDaysAddUp(d.year);
    assert DaysBeforeMonth(d.year, d.month + 1) == DaysBeforeMonth(d.year, d.month) + MonthLength(d.year, d.month);
  }

  lemma CivilEpoch()
    ensures CivilFromDays(0) == Date(1970, 1, 1)
  {
    CivilFromDaysIsOnto(Date(1970, 1, 1));
  }
}
