/** Days since 1970-01-01 to a date of the proleptic Gregorian calendar. */
module CivilDate {
  const DAYS_PER_YEAR: int := 365
  const YEARS_PER_ERA: int := 400
  const DAYS_PER_ERA: int := 146097
  const DAYS_PER_4_YEARS: int := 1460
  const DAYS_PER_100_YEARS: int := 36524
  const EPOCH_SHIFT_DAYS: int := 719468

  datatype Date = Date(year: int, month: int, day: int)

  const EPOCH: Date := Date(1970, 1, 1)

  // ----- the calendar -----

  predicate Leap(year: int) {
    year % 4 == 0 && (year % 100 != 0 || year % 400 == 0)
  }

  function MonthDays(year: int, month: int): int {
    if month == 2 then (if Leap(year) then 29 else 28)
    else if month == 4 || month == 6 || month == 9 || month == 11 then 30
    else 31
  }

  predicate ValidDate(d: Date) {
    1 <= d.month <= 12 && 1 <= d.day <= MonthDays(d.year, d.month)
  }

  /** The day after a date. */
  function NextDay(d: Date): Date {
    if d.day < MonthDays(d.year, d.month) then Date(d.year, d.month, d.day + 1)
    else if d.month < 12 then Date(d.year, d.month + 1, 1)
    else Date(d.year + 1, 1, 1)
  }

  // ----- the conversion -----

  /** Division of the source's signed integers: towards zero. */
  function TruncDiv(a: int, b: int): int
    requires b > 0
  {
    if a >= 0 then a / b else -(-a / b)
  }

  function Era(z: int): int {
    TruncDiv(if z >= 0 then z else z - (DAYS_PER_ERA - 1), DAYS_PER_ERA)
  }

  function YearOfEra(doe: int): int {
    var corrected := doe - TruncDiv(doe, DAYS_PER_4_YEARS) + TruncDiv(doe, DAYS_PER_100_YEARS)
                     - TruncDiv(doe, DAYS_PER_ERA - 1);
    TruncDiv(corrected, DAYS_PER_YEAR)
  }

  /** The days of the era before a March-based year of it. */
  function YearStart(yoe: int): int {
    DAYS_PER_YEAR * yoe + TruncDiv(yoe, 4) - TruncDiv(yoe, 100)
  }

  /** The date of the `doy`-th day after 1 March of `year`. */
  function DateInYear(year: int, doy: int): Date {
    var mp := TruncDiv(5 * doy + 2, 153);
    var day := doy - TruncDiv(153 * mp + 2, 5) + 1;
    var month := if mp < 10 then mp + 3 else mp - 9;
    Date(if month <= 2 then year + 1 else year, month, day)
  }

  function DateInEra(era: int, doe: int): Date {
    var yoe := YearOfEra(doe);
    DateInYear(yoe + era * YEARS_PER_ERA, doe - YearStart(yoe))
  }

  function CivilFromDays(days: int): Date {
    var z := days + EPOCH_SHIFT_DAYS;
    var era := Era(z);
    DateInEra(era, z - era * DAYS_PER_ERA)
  }

  // ----- the era is a floor -----

  /** Despite truncating division, negative day numbers fall in the era that contains them. */
  lemma EraIsFloor(z: int)
    ensures 0 <= z - Era(z) * DAYS_PER_ERA < DAYS_PER_ERA
  {
  }

  // ----- the year of the era -----

  /** The year length: March-based year `yoe` ends with the February of the next calendar year. */
  function YearLength(yoe: int): int {
    if Leap(yoe + 1) then 366 else 365
  }

  /** The corrections cancel exactly: a day is assigned to the March-based year, written in centuries, four-year
      groups and years, that holds it. */
  lemma YearOfDigits(a: int, b: int, e: int, doy: int)
    requires 0 <= a <= 3 && 0 <= b <= 24 && 0 <= e <= 3
    requires 0 <= doy < YearLength(100 * a + 4 * b + e)
    ensures YearStart(100 * a + 4 * b + e) == 36524 * a + 1461 * b + 365 * e
    ensures YearOfEra(36524 * a + 1461 * b + 365 * e + doy) == 100 * a + 4 * b + e
  {
    var doe := 36524 * a + 1461 * b + 365 * e + doy;
    var extra := if 24 * a + b + 365 * e + doy >= DAYS_PER_4_YEARS then 1 else 0;
    var last := if doe == DAYS_PER_ERA - 1 then 1 else 0;
    assert (100 * a + 4 * b + e) / 4 == 25 * a + b && (100 * a + 4 * b + e) / 100 == a;
    assert doy <= 365 && (doy == 365 ==> e == 3 && (b < 24 || a == 3));
    assert doe / DAYS_PER_4_YEARS == 25 * a + b + extra;
    assert doe / DAYS_PER_100_YEARS == a + last;
    assert doe / (DAYS_PER_ERA - 1) == last;
  }

  /** The leap day closes a four-year group, except at a century that does not close the era. */
  lemma LeapDigits(a: int, b: int, e: int)
    requires 0 <= a <= 3 && 0 <= b <= 24 && 0 <= e <= 3
    ensures Leap(100 * a + 4 * b + e + 1) <==> e == 3 && (b < 24 || a == 3)
  {
  }

  /** The centuries, four-year groups, years and days of a day of the era. */
  lemma Digits(doe: int) returns (a: int, b: int, e: int, doy: int)
    requires 0 <= doe < DAYS_PER_ERA
    ensures 0 <= a <= 3 && 0 <= b <= 24 && 0 <= e <= 3
    ensures doe == 36524 * a + 1461 * b + 365 * e + doy
    ensures 0 <= doy <= 365 && (doy == 365 ==> e == 3 && (b < 24 || a == 3))
  {
    a := if doe / 36524 < 4 then doe / 36524 else 3;
    b := (doe - 36524 * a) / 1461;
    var inGroup := doe - 36524 * a - 1461 * b;
    e := if inGroup / 365 < 4 then inGroup / 365 else 3;
    doy := inGroup - 365 * e;
  }

  /** The year of the era contains the day. */
  lemma YearContains(doe: int)
    requires 0 <= doe < DAYS_PER_ERA
    ensures var yoe := YearOfEra(doe);
            0 <= yoe < YEARS_PER_ERA && YearStart(yoe) <= doe < YearStart(yoe) + YearLength(yoe)
  {
    var a, b, e, doy := Digits(doe);
    LeapDigits(a, b, e);
    YearOfDigits(a, b, e, doy);
  }

  // ----- the independent day count -----

  /** The days before 1 January of `year`, counted from 1 January of year 1. */
  function DaysBeforeYear(year: int): int {
    365 * (year - 1) + (year - 1) / 4 - (year - 1) / 100 + (year - 1) / 400
  }

  function DaysBeforeMonth(year: int, month: int): int
    decreases month
  {
    if month <= 1 then 0 else DaysBeforeMonth(year, month - 1) + MonthDays(year, month - 1)
  }

  /** The number of a date: days since 1970-01-01. */
  function DayNumber(d: Date): int {
    DaysBeforeYear(d.year) + DaysBeforeMonth(d.year, d.month) + d.day - 1 - DaysBeforeYear(1970)
  }

  /** A date and its number. */
  predicate Numbers(d: Date, days: int) {
    ValidDate(d) && DayNumber(d) == days
  }

  lemma MonthTable(year: int)
    ensures DaysBeforeMonth(year, 1) == 0
    ensures DaysBeforeMonth(year, 2) == 31
    ensures var l := if Leap(year) then 1 else 0;
            && DaysBeforeMonth(year, 3) == 59 + l && DaysBeforeMonth(year, 4) == 90 + l
            && DaysBeforeMonth(year, 5) == 120 + l && DaysBeforeMonth(year, 6) == 151 + l
            && DaysBeforeMonth(year, 7) == 181 + l && DaysBeforeMonth(year, 8) == 212 + l
            && DaysBeforeMonth(year, 9) == 243 + l && DaysBeforeMonth(year, 10) == 273 + l
            && DaysBeforeMonth(year, 11) == 304 + l && DaysBeforeMonth(year, 12) == 334 + l
            && DaysBeforeMonth(year, 13) == 365 + l
  {
    assert DaysBeforeMonth(year, 3) == DaysBeforeMonth(year, 2) + MonthDays(year, 2);
    assert DaysBeforeMonth(year, 5) == DaysBeforeMonth(year, 4) + 30;
    assert DaysBeforeMonth(year, 7) == DaysBeforeMonth(year, 6) + 30;
    assert DaysBeforeMonth(year, 9) == DaysBeforeMonth(year, 8) + 31;
    assert DaysBeforeMonth(year, 11) == DaysBeforeMonth(year, 10) + 31;
    assert DaysBeforeMonth(year, 13) == DaysBeforeMonth(year, 12) + 31;
  }

  lemma YearLengths(year: int)
    ensures DaysBeforeYear(year + 1) == DaysBeforeYear(year) + if Leap(year) then 366 else 365
  {
    assert year / 4 == (year - 1) / 4 + if year % 4 == 0 then 1 else 0;
    assert year / 100 == (year - 1) / 100 + if year % 100 == 0 then 1 else 0;
    assert year / 400 == (year - 1) / 400 + if year % 400 == 0 then 1 else 0;
    assert year % 400 == 0 ==> year % 100 == 0;
    assert year % 100 == 0 ==> year % 4 == 0;
  }

  /** The day count is a count: consecutive dates have consecutive numbers. */
  lemma DayNumberCounts(d: Date)
    requires ValidDate(d)
    ensures ValidDate(NextDay(d)) && DayNumber(NextDay(d)) == DayNumber(d) + 1
  {
    MonthTable(d.year);
    YearLengths(d.year);
  }

  lemma EpochIsZero()
    ensures Numbers(EPOCH, 0)
  {
  }

  lemma {:induction false} YearsGrow(a: int, b: int)
    requires a < b
    ensures DaysBeforeYear(a + 1) <= DaysBeforeYear(b)
    decreases b - a
  {
    if a + 1 < b {
      YearsGrow(a, b - 1);
      YearLengths(b - 1);
    }
  }

  lemma {:induction false} MonthsGrow(year: int, a: int, b: int)
    requires 1 <= a < b
    ensures DaysBeforeMonth(year, a) + MonthDays(year, a) <= DaysBeforeMonth(year, b)
    decreases b
  {
    if a + 1 < b { MonthsGrow(year, a, b - 1); }
  }

  lemma InYear(d: Date)
    requires ValidDate(d)
    ensures DaysBeforeYear(d.year) <= DayNumber(d) + DaysBeforeYear(1970) < DaysBeforeYear(d.year + 1)
  {
    MonthTable(d.year);
    YearLengths(d.year);
  }

  lemma DayNumberIsInjective(d: Date, other: Date)
    requires ValidDate(d) && ValidDate(other) && DayNumber(d) == DayNumber(other)
    ensures d == other
  {
    InYear(d);
    InYear(other);
    if d.year < other.year { YearsGrow(d.year, other.year); }
    if other.year < d.year { YearsGrow(other.year, d.year); }
    if d.month < other.month { MonthsGrow(d.year, d.month, other.month); }
    if other.month < d.month { MonthsGrow(d.year, other.month, d.month); }
  }

  // ----- the conversion is the inverse of the count -----

  /** March 1 of a year of the era, in the count. */
  lemma MarchFirst(era: int, yoe: int)
    requires 0 <= yoe < YEARS_PER_ERA
    ensures DaysBeforeYear(yoe + era * YEARS_PER_ERA + 1) == era * DAYS_PER_ERA + YearStart(yoe)
    ensures Leap(yoe + era * YEARS_PER_ERA + 1) == Leap(yoe + 1)
  {
    var year := yoe + era * YEARS_PER_ERA;
    assert year / 4 == yoe / 4 + 100 * era;
    assert year / 100 == yoe / 100 + 4 * era;
    assert year / 400 == era;
    assert (year + 1) % 4 == (yoe + 1) % 4;
    assert (year + 1) % 100 == (yoe + 1) % 100;
    assert (year + 1) % 400 == (yoe + 1) % 400;
  }

  /** The month fit stays inside the months, whatever the length of February. */
  lemma MonthFit(doy: int)
    requires 0 <= doy <= 365
    ensures var mp := TruncDiv(5 * doy + 2, 153);
            0 <= mp <= 11 && MarchStart(mp) <= doy < MarchStart(mp + 1) && TruncDiv(153 * mp + 2, 5) == MarchStart(mp)
  {
  }

  /** Days from 1 March to the first of the `mp`-th month after it. */
  function MarchStart(mp: int): int
    requires 0 <= mp <= 12
  {
    [0, 31, 61, 92, 122, 153, 184, 214, 245, 275, 306, 337, 367][mp]
  }

  lemma DateInYearCounts(year: int, doy: int)
    requires 0 <= doy < if Leap(year + 1) then 366 else 365
    ensures var d := DateInYear(year, doy);
            ValidDate(d) && DayNumber(d) == DaysBeforeYear(year + 1) - 306 + doy - DaysBeforeYear(1970)
  {
    MonthTable(year);
    MonthTable(year + 1);
    YearLengths(year);
    MonthFit(doy);
  }

  lemma DateOfYearCounts(era: int, yoe: int, doy: int)
    requires 0 <= yoe < YEARS_PER_ERA && 0 <= doy < YearLength(yoe)
    ensures Numbers(DateInYear(yoe + era * YEARS_PER_ERA, doy),
                    era * DAYS_PER_ERA + YearStart(yoe) + doy - EPOCH_SHIFT_DAYS)
  {
    MarchFirst(era, yoe);
    DateInYearCounts(yoe + era * YEARS_PER_ERA, doy);
    assert DaysBeforeYear(1970) == 719162;
  }

  lemma DateInEraCounts(era: int, doe: int)
    requires 0 <= doe < DAYS_PER_ERA
    ensures Numbers(DateInEra(era, doe), era * DAYS_PER_ERA + doe - EPOCH_SHIFT_DAYS)
  {
    YearContains(doe);
    var yoe := YearOfEra(doe);
    DateOfYearCounts(era, yoe, doe - YearStart(yoe));
    assert era * DAYS_PER_ERA + YearStart(yoe) + (doe - YearStart(yoe)) - EPOCH_SHIFT_DAYS
        == era * DAYS_PER_ERA + doe - EPOCH_SHIFT_DAYS;
  }

  /** The conversion gives a valid date with the number it was given. */
  lemma ConvertsToItsNumber(days: int)
    ensures ValidDate(CivilFromDays(days)) && DayNumber(CivilFromDays(days)) == days
  {
    var z := days + EPOCH_SHIFT_DAYS;
    EraIsFloor(z);
    DateInEraCounts(Era(z), z - Era(z) * DAYS_PER_ERA);
    assert Numbers(CivilFromDays(days), days);
  }

  /** The conversion is the inverse of the day count, over all dates. */
  lemma ConversionInvertsCount(d: Date)
    requires ValidDate(d)
    ensures CivilFromDays(DayNumber(d)) == d
  {
    ConvertsToItsNumber(DayNumber(d));
    DayNumberIsInjective(CivilFromDays(DayNumber(d)), d);
  }

  lemma NextIsNumbered(d: Date, days: int)
    requires Numbers(d, days)
    ensures Numbers(NextDay(d), days + 1)
  {
    DayNumberCounts(d);
  }

  lemma NumberDeterminesDate(d: Date, days: int)
    requires Numbers(d, days)
    ensures CivilFromDays(days) == d
  {
    ConversionInvertsCount(d);
  }

  /** Consecutive day numbers, negative ones included, are consecutive dates; day 0 is the epoch. */
  lemma ConsecutiveDays(days: int)
    ensures CivilFromDays(0) == EPOCH
    ensures CivilFromDays(days + 1) == NextDay(CivilFromDays(days))
  {
    ConvertsToItsNumber(days);
    NextIsNumbered(CivilFromDays(days), days);
    NumberDeterminesDate(NextDay(CivilFromDays(days)), days + 1);
    EpochIsZero();
    NumberDeterminesDate(EPOCH, 0);
  }
}
