/**
 * Calendar dates in the YYYY-MM-DD layout, as time.Parse reads them with
 * the layout "2006-01-02": exactly four year digits, two month digits and two
 * day digits separated by dashes, a month from 1 to 12, a day that exists in
 * that month, and nothing after. A date is a day number: days since
 * 1970-01-01, the day that starts at second 0 of Unix time (UTC).
 */
module Dates {
  import opened Common
  import opened NumText

  const SecondsPerDay: int := 86400

  predicate IsLeap(y: int)
  {
    y % 4 == 0 && (y % 100 != 0 || y % 400 == 0)
  }

  function DaysIn(m: int, y: int): (n: int)
    requires 1 <= m <= 12
    ensures 28 <= n <= 31
  {
    if m == 2 then (if IsLeap(y) then 29 else 28)
    else if m == 4 || m == 6 || m == 9 || m == 11 then 30
    else 31
  }

  /** Days of the first `k` March-based years of a 400-year era. */
  function YoeDays(k: int): int
  {
    k * 365 + k / 4 - k / 100
  }

  /** Days from 0000-03-01 to March 1 of year yy. */
  function YearStart(yy: int): int
  {
    (yy / 400) * 146097 + YoeDays(yy % 400)
  }

  /** Days from March 1 to the first of each month, March first. */
  const MarchOffsets: seq<int> := [0, 31, 61, 92, 122, 153, 184, 214, 245, 275, 306, 337]

  /** Days from March 1 to the first of month m, in a year that starts in March. */
  function MonthOffset(m: int): int
    requires 1 <= m <= 12
  {
    MarchOffsets[(m + 9) % 12]
  }

  /** The day number of a date of the proleptic Gregorian calendar (the era arithmetic of Hinnant's days_from_civil, with the month offsets tabulated). */
  function DaysFromCivil(y: int, m: int, d: int): int
    requires 1 <= m <= 12
  {
    YearStart(if m <= 2 then y - 1 else y) + MonthOffset(m) + d - 1 - 719468
  }

  /** Within a month consecutive days have consecutive numbers; 1970-01-01 is day 0. */
  lemma DaysFromCivilProperties(y: int, m: int, d: int)
    requires 1 <= m <= 12
    ensures DaysFromCivil(y, m, d + 1) == DaysFromCivil(y, m, d) + 1
    ensures DaysFromCivil(1970, 1, 1) == 0
  {
    DivMod400(1969, 4, 369);
    assert YoeDays(369) == 134685 + 92 - 3;
    assert MonthOffset(1) == 306;
  }

  lemma QuarterStep(k: int)
    ensures k / 4 - (k - 1) / 4 == if k % 4 == 0 then 1 else 0
  {
    if k % 4 == 0 {
      DivMod4(k - 1, k / 4 - 1, 3);
    } else {
      DivMod4(k - 1, k / 4, k % 4 - 1);
    }
  }

  lemma CenturyStep(k: int)
    ensures k / 100 - (k - 1) / 100 == if k % 100 == 0 then 1 else 0
  {
    if k % 100 == 0 {
      DivMod100(k - 1, k / 100 - 1, 99);
    } else {
      DivMod100(k - 1, k / 100, k % 100 - 1);
    }
  }

  lemma YearLengthInEra(y: int)
    requires y % 400 != 0
    ensures YearStart(y) - YearStart(y - 1) == if IsLeap(y) then 366 else 365
  {
    var e, k := y / 400, y % 400;
    DivMod400(y - 1, e, k - 1);
    assert YearStart(y) - YearStart(y - 1) == YoeDays(k) - YoeDays(k - 1);
    QuarterStep(k);
    CenturyStep(k);
    assert YoeDays(k) - YoeDays(k - 1) == 365 + (k / 4 - (k - 1) / 4) - (k / 100 - (k - 1) / 100);
    DivMod4(y, 100 * e + k / 4, k % 4);
    DivMod100(y, 4 * e + k / 100, k % 100);
    assert IsLeap(y) <==> k % 4 == 0 && k % 100 != 0;
  }

  lemma YearLengthEraStart(y: int)
    requires y % 400 == 0
    ensures YearStart(y) - YearStart(y - 1) == 366 && IsLeap(y)
  {
    var e := y / 400;
    DivMod400(y - 1, e - 1, 399);
    assert YoeDays(399) == 145635 + 99 - 3;
    assert YoeDays(0) == 0;
    DivMod4(y, 100 * e, 0);
    DivMod100(y, 4 * e, 0);
  }

  /** The March-based year that ends in February of year y has 366 days exactly when y is a leap year. */
  lemma YearLength(y: int)
    ensures YearStart(y) - YearStart(y - 1) == if IsLeap(y) then 366 else 365
  {
    if y % 400 == 0 {
      YearLengthEraStart(y);
    } else {
      YearLengthInEra(y);
    }
  }

  lemma DecemberFollows(y: int)
    ensures DaysFromCivil(y + 1, 1, 1) == DaysFromCivil(y, 12, 31) + 1
  {
    assert MonthOffset(1) == 306 && MonthOffset(12) == 275;
  }

  lemma FebruaryFollows(y: int)
    ensures DaysFromCivil(y, 3, 1) == DaysFromCivil(y, 2, DaysIn(2, y)) + 1
  {
    assert MonthOffset(3) == 0 && MonthOffset(2) == 337;
    YearLength(y);
  }

  lemma OtherMonthFollows(y: int, m: int)
    requires 1 <= m <= 11 && m != 2
    ensures DaysFromCivil(y, m + 1, 1) == DaysFromCivil(y, m, DaysIn(m, y)) + 1
  {
    MonthOffsetStep(m, y);
  }

  /** The first day of a month follows the last day of the month before, across year ends and leap days. */
  lemma NextMonthFollows(y: int, m: int)
    requires 1 <= m <= 12
    ensures m < 12 ==> DaysFromCivil(y, m + 1, 1) == DaysFromCivil(y, m, DaysIn(m, y)) + 1
    ensures m == 12 ==> DaysFromCivil(y + 1, 1, 1) == DaysFromCivil(y, 12, 31) + 1
  {
    if m == 12 {
      DecemberFollows(y);
    } else if m == 2 {
      FebruaryFollows(y);
    } else {
      OtherMonthFollows(y, m);
    }
  }

  /** Within one March-based year the month offsets grow by the length of the month. */
  lemma MonthOffsetStep(m: int, y: int)
    requires 1 <= m <= 11 && m != 2
    ensures MonthOffset(m + 1) - MonthOffset(m) == DaysIn(m, y)
  {
  }

  /** Four digits, a dash, two digits, a dash, two digits. */
  predicate DateShaped(s: string)
  {
    |s| == 10 && s[4] == '-' && s[7] == '-' && AllDigits(s[..4]) && AllDigits(s[5..7]) && AllDigits(s[8..])
  }

  function YearOf(s: string): nat requires DateShaped(s) { DigitsValue(s[..4]) }
  function MonthOf(s: string): nat requires DateShaped(s) { DigitsValue(s[5..7]) }
  function DayOf(s: string): nat requires DateShaped(s) { DigitsValue(s[8..]) }

  /** time.Parse("2006-01-02", s), as a day number. */
  function ParseDate(s: string): (r: Option<int>)
    ensures r.Some? <==> DateShaped(s) && 1 <= MonthOf(s) <= 12 && 1 <= DayOf(s) <= DaysIn(MonthOf(s), YearOf(s))
    ensures r.Some? ==> r.value == DaysFromCivil(YearOf(s), MonthOf(s), DayOf(s))
  {
    if !DateShaped(s) then None
    else
      var y, m, d := YearOf(s), MonthOf(s), DayOf(s);
      if 1 <= m <= 12 && 1 <= d <= DaysIn(m, y) then Some(DaysFromCivil(y, m, d)) else None
  }

  /** The second at which a parsed date starts. */
  function StartSecond(day: int): int
  {
    day * SecondsPerDay
  }

  lemma TwoDigits(s: string)
    requires |s| == 2 && AllDigits(s)
    ensures DigitsValue(s) == 10 * DigitValue(s[0]) + DigitValue(s[1])
  {
    var head := s[..1];
    assert head[..0] == [] && head[0] == s[0];
    assert DigitsValue(head) == DigitValue(s[0]);
    assert s[..|s| - 1] == head;
  }

  lemma FourDigits(s: string)
    requires |s| == 4 && AllDigits(s)
    ensures DigitsValue(s) == 1000 * DigitValue(s[0]) + 100 * DigitValue(s[1]) + 10 * DigitValue(s[2]) + DigitValue(s[3])
  {
    assert s[..3][..2] == s[..2];
    TwoDigits(s[..2]);
  }

  /** The fields of a well-shaped date string. */
  lemma DateFields(s: string)
    requires DateShaped(s)
    ensures YearOf(s) == 1000 * DigitValue(s[0]) + 100 * DigitValue(s[1]) + 10 * DigitValue(s[2]) + DigitValue(s[3])
    ensures MonthOf(s) == 10 * DigitValue(s[5]) + DigitValue(s[6])
    ensures DayOf(s) == 10 * DigitValue(s[8]) + DigitValue(s[9])
  {
    FourDigits(s[..4]);
    TwoDigits(s[5..7]);
    TwoDigits(s[8..]);
  }

  /** The Unix epoch is day 0. */
  lemma EpochIsDayZero()
    ensures ParseDate("1970-01-01") == Some(0)
  {
    var s := "1970-01-01";
    DateFields(s);
    assert YearOf(s) == 1970 && MonthOf(s) == 1 && DayOf(s) == 1;
    DaysFromCivilProperties(1970, 1, 1);
  }

  /** A leap day parses only in a leap year. */
  lemma LeapDayExamples()
    ensures ParseDate("2024-02-29").Some?
    ensures ParseDate("2023-02-29").None?
  {
    var leap, plain := "2024-02-29", "2023-02-29";
    DateFields(leap);
    assert YearOf(leap) == 2024 && MonthOf(leap) == 2 && DayOf(leap) == 29;
    DateFields(plain);
    assert YearOf(plain) == 2023 && MonthOf(plain) == 2 && DayOf(plain) == 29;
  }

  /** No month 13, and the month needs two digits. */
  lemma MonthExamples()
    ensures ParseDate("2024-13-01").None?
    ensures ParseDate("2024-1-15").None?
  {
    DateFields("2024-13-01");
  }
}
