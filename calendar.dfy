/** The calendar fields that pandas derives from an epoch timestamp in
    milliseconds (`pd.to_datetime(ts, unit='ms')` and the `.dt` accessors
    hour, day, week, month, year, weekday), on the proleptic Gregorian
    calendar in UTC.  Day numbers count days since 1970-01-01 (day 0). */
module Calendar {

  const MsPerHour: int := 3_600_000
  const MsPerDay: int := 86_400_000

  /** Days from 0001-01-01 to 1970-01-01. */
  const EpochOrdinal: int := 719_162

  datatype Date = Date(year: int, month: int, day: int)

  predicate IsLeapYear(y: int) {
    y % 4 == 0 && (y % 100 != 0 || y % 400 == 0)
  }

  function YearLength(y: int): int {
    if IsLeapYear(y) then 366 else 365
  }

  function DaysInMonth(y: int, m: int): int
    requires 1 <= m <= 12
  {
    if m == 2 then (if IsLeapYear(y) then 29 else 28)
    else if m == 4 || m == 6 || m == 9 || m == 11 then 30
    else 31
  }

  /** Days of year `y` before the first of month `m`. */
  function DaysBeforeMonth(y: int, m: int): int
    requires 1 <= m <= 12
  {
    [0, 31, 59, 90, 120, 151, 181, 212, 243, 273, 304, 334][m - 1]
      + (if m > 2 && IsLeapYear(y) then 1 else 0)
  }

  predicate ValidDate(d: Date) {
    1 <= d.month <= 12 && 1 <= d.day <= DaysInMonth(d.year, d.month)
  }

  /** Day number of January 1 of year `y`: 365 days per year plus one for
      every leap year before it. */
  function Jan1(y: int): int {
    var p := y - 1;
    365 * p + p / 4 - p / 100 + p / 400 - EpochOrdinal
  }

  /** The reference inverse: the day number of a calendar date. */
  function DaysFromCivil(d: Date): int
    requires 1 <= d.month <= 12
  {
    Jan1(d.year) + DaysBeforeMonth(d.year, d.month) + d.day - 1
  }

  /** Year and zero-based day of year of day number `z`, by splitting the
      days since 0001-01-01 into 400-, 100-, 4- and 1-year cycles.  The
      fourth year of a 4-year cycle and the fourth century of a 400-year
      cycle are one day longer; their last day comes out as a fifth
      year (or century) and is moved back to December 31. */
  function YearAndOrdinal(z: int): (int, int) {
    var n := z + EpochOrdinal;
    var n400, r400 := n / 146097, n % 146097;
    var n100, r100 := r400 / 36524, r400 % 36524;
    var n4, r4 := r100 / 1461, r100 % 1461;
    var n1, r1 := r4 / 365, r4 % 365;
    var year := 400 * n400 + 100 * n100 + 4 * n4 + n1 + 1;
    if n1 == 4 || n100 == 4 then (year - 1, 365) else (year, r1)
  }

  /** Month and day of the `r`-th (zero-based) day of year `y`, counted
      from the first of month `m`. */
  function MonthAndDay(y: int, r: int, m: int): (int, int)
    requires 1 <= m <= 12
    decreases 12 - m
  {
    if m == 12 || r < DaysInMonth(y, m) then (m, r + 1)
    else MonthAndDay(y, r - DaysInMonth(y, m), m + 1)
  }

  function CivilFromDays(z: int): Date {
    var (y, r) := YearAndOrdinal(z);
    var (m, d) := MonthAndDay(y, r, 1);
    Date(y, m, d)
  }

  /** pandas `dt.weekday`: Monday is 0; day 0 (1970-01-01) was a Thursday. */
  function Weekday(z: int): (w: int)
    ensures 0 <= w <= 6
  {
    (z + 3) % 7
  }

  /** pandas `dt.week`, the ISO 8601 week number, by estimate and correction
      (see `WeekOfYear`). */
  function IsoWeek(z: int): (w: int)
    ensures 1 <= w <= 53
  {
    var (y, r) := YearAndOrdinal(z);
    WeekOfYear(y, r, Weekday(z))
  }

  /** Week number of the `r`-th (zero-based) day of year `y`, a weekday
      `wd`: the estimate counts weeks from the week that holds January 4;
      a day before week 1 belongs to the last week (52 or 53) of the
      previous year, and a day late in December whose Thursday falls in
      the next year is in week 1 of the next year. */
  function WeekOfYear(y: int, r: int, wd: int): (w: int)
    ensures 1 <= w <= 53
  {
    var e := r - wd + 3;
    if e < 0 then
      (if e == -1 || (e == -2 && IsLeapYear(y - 1)) then 53 else 52)
    else if e >= YearLength(y) then 1
    else e / 7 + 1
  }

  /** ISO 8601 week numbering stated directly: a week runs Monday to Sunday
      and belongs to the year that holds its Thursday; it is numbered by
      the position of that Thursday in its year. */
  function IsoWeekOfThursday(z: int): int {
    var thursday := z - Weekday(z) + 3;
    (thursday - Jan1(YearAndOrdinal(thursday).0)) / 7 + 1
  }

  function DayNumber(ts: int): int {
    ts / MsPerDay
  }

  /** pandas `dt.hour` of a millisecond timestamp. */
  function HourOf(ts: int): (h: int)
    ensures 0 <= h <= 23
  {
    (ts % MsPerDay) / MsPerHour
  }

  // ---------------------------------------------------------------------
  // Lemmas

  lemma DivStep(y: int)
    ensures y / 4 - (y - 1) / 4 == (if y % 4 == 0 then 1 else 0)
    ensures y / 100 - (y - 1) / 100 == (if y % 100 == 0 then 1 else 0)
    ensures y / 400 - (y - 1) / 400 == (if y % 400 == 0 then 1 else 0)
  {
  }

  /** Consecutive January firsts lie one year length apart. */
  lemma Jan1Step(y: int)
    ensures Jan1(y + 1) == Jan1(y) + YearLength(y)
  {
    DivStep(y);
  }

  lemma {:induction false} Jan1Monotone(a: int, b: int)
    requires a <= b
    ensures Jan1(a) <= Jan1(b)
    decreases b - a
  {
    if a < b {
      Jan1Monotone(a, b - 1);
      Jan1Step(b - 1);
    }
  }

  /** Day number `z` is day `r` of year `y` exactly when `z - Jan1(y) == r`
      and `r` is inside the year; a day number lies in one year only. */
  lemma YearIsUnique(w: int, y1: int, y2: int)
    requires Jan1(y1) <= w < Jan1(y1 + 1)
    requires Jan1(y2) <= w < Jan1(y2 + 1)
    ensures y1 == y2
  {
    if y1 < y2 {
      Jan1Monotone(y1 + 1, y2);
    } else if y2 < y1 {
      Jan1Monotone(y2 + 1, y1);
    }
  }

  /** January 1 of the year after `a` 400-year cycles, `b` centuries,
      `c` 4-year cycles and `e` years counted from 0001-01-01. */
  lemma Jan1OfCycles(a: int, b: int, c: int, e: int)
    requires 0 <= b <= 3 && 0 <= c <= 24 && 0 <= e <= 3
    ensures Jan1(400 * a + 100 * b + 4 * c + e + 1)
      == 146097 * a + 36524 * b + 1461 * c + 365 * e - EpochOrdinal
  {
    var p := 400 * a + 100 * b + 4 * c + e;
    assert p / 4 == 100 * a + 25 * b + c;
    assert p / 100 == 4 * a + b;
    assert p / 400 == a;
  }

  /** The four stages of `YearAndOrdinal`: quotient and remainder at each
      stage, and when the quotient can reach its extra value. */
  lemma CycleSplit(n: int)
    ensures var n400, r400 := n / 146097, n % 146097;
      var n100, r100 := r400 / 36524, r400 % 36524;
      var n4, r4 := r100 / 1461, r100 % 1461;
      var n1, r1 := r4 / 365, r4 % 365;
      && n == 146097 * n400 + 36524 * n100 + 1461 * n4 + 365 * n1 + r1
      && 0 <= n100 <= 4 && 0 <= n4 <= 24 && 0 <= n1 <= 4 && 0 <= r1 < 365
      && (n100 == 4 ==> n4 == 0 && n1 == 0 && r1 == 0)
      && (n1 == 4 ==> n4 <= 23 && r1 == 0)
  {
    var n400, r400 := n / 146097, n % 146097;
    var n100, r100 := r400 / 36524, r400 % 36524;
    var n4, r4 := r100 / 1461, r100 % 1461;
    var n1, r1 := r4 / 365, r4 % 365;
    StageFacts(n, r400, n100, r100, n4, r4, n1, r1);
  }

  lemma StageFacts(n: int, r400: int, n100: int, r100: int, n4: int, r4: int, n1: int, r1: int)
    requires r400 == n % 146097
    requires n100 == r400 / 36524 && r100 == r400 % 36524
    requires n4 == r100 / 1461 && r4 == r100 % 1461
    requires n1 == r4 / 365 && r1 == r4 % 365
    ensures n == 146097 * (n / 146097) + 36524 * n100 + 1461 * n4 + 365 * n1 + r1
    ensures 0 <= n100 <= 4 && 0 <= n4 <= 24 && 0 <= n1 <= 4 && 0 <= r1 < 365
    ensures n100 == 4 ==> n4 == 0 && n1 == 0 && r1 == 0
    ensures n1 == 4 ==> n4 <= 23 && r1 == 0
  {
    assert 0 <= r400 < 146097;
    assert r400 == 36524 * n100 + r100 && 0 <= r100 < 36524;
    assert r100 == 1461 * n4 + r4 && 0 <= r4 < 1461;
    assert r4 == 365 * n1 + r1;
  }

  /** `YearAndOrdinal` names the year that holds day `z` and the position
      of `z` in it. */
  lemma YearAndOrdinalCorrect(z: int)
    ensures var (y, r) := YearAndOrdinal(z);
      0 <= r < YearLength(y) && Jan1(y) + r == z
  {
    var n := z + EpochOrdinal;
    CycleSplit(n);
    var n400, r400 := n / 146097, n % 146097;
    var n100, r100 := r400 / 36524, r400 % 36524;
    var n4, r4 := r100 / 1461, r100 % 1461;
    var n1, r1 := r4 / 365, r4 % 365;
    var year := 400 * n400 + 100 * n100 + 4 * n4 + n1 + 1;
    assert YearAndOrdinal(z) == if n1 == 4 || n100 == 4 then (year - 1, 365) else (year, r1);
    CyclesYear(n400, n100, n4, n1, r1);
  }

  /** The year and ordinal that the four stages name hold the day they
      count. */
  lemma CyclesYear(n400: int, n100: int, n4: int, n1: int, r1: int)
    requires 0 <= n100 <= 4 && 0 <= n4 <= 24 && 0 <= n1 <= 4 && 0 <= r1 < 365
    requires n100 == 4 ==> n4 == 0 && n1 == 0 && r1 == 0
    requires n1 == 4 ==> n4 <= 23 && r1 == 0
    ensures var year := 400 * n400 + 100 * n100 + 4 * n4 + n1 + 1;
      var (y, r) := if n1 == 4 || n100 == 4 then (year - 1, 365) else (year, r1);
      && 0 <= r < YearLength(y)
      && Jan1(y) + r == 146097 * n400 + 36524 * n100 + 1461 * n4 + 365 * n1 + r1 - EpochOrdinal
  {
    if n100 == 4 {
      Jan1OfCycles(n400, 3, 24, 3);
      LeapCentury(n400);
    } else if n1 == 4 {
      Jan1OfCycles(n400, n100, n4, 3);
      LeapFourth(n400, n100, n4);
    } else {
      Jan1OfCycles(n400, n100, n4, n1);
    }
  }

  lemma LeapCentury(a: int)
    ensures IsLeapYear(400 * a + 400)
  {
    assert 400 * a + 400 == 400 * (a + 1);
  }

  lemma LeapFourth(a: int, b: int, c: int)
    requires 0 <= b <= 3 && 0 <= c <= 23
    ensures IsLeapYear(400 * a + 100 * b + 4 * c + 4)
  {
    var y := 400 * a + 100 * b + 4 * c + 4;
    assert y == 4 * (100 * a + 25 * b + c + 1);
    assert y == 100 * (4 * a + b) + (4 * c + 4) && 4 <= 4 * c + 4 < 100;
  }

  lemma DaysBeforeMonthStep(y: int, m: int)
    requires 1 <= m < 12
    ensures DaysBeforeMonth(y, m + 1) == DaysBeforeMonth(y, m) + DaysInMonth(y, m)
  {
  }

  lemma DaysBeforeDecember(y: int)
    ensures DaysBeforeMonth(y, 12) + DaysInMonth(y, 12) == YearLength(y)
  {
  }

  /** Walking the months from `m` finds the month and day of the `r`-th day
      after the first of `m`. */
  lemma {:induction false} MonthAndDayCorrect(y: int, r: int, m: int)
    requires 1 <= m <= 12
    requires 0 <= r && DaysBeforeMonth(y, m) + r < YearLength(y)
    ensures var (m', d) := MonthAndDay(y, r, m);
      m <= m' <= 12 && 1 <= d <= DaysInMonth(y, m') &&
      DaysBeforeMonth(y, m') + d - 1 == DaysBeforeMonth(y, m) + r
    decreases 12 - m
  {
    if m == 12 {
      DaysBeforeDecember(y);
    } else if r >= DaysInMonth(y, m) {
      DaysBeforeMonthStep(y, m);
      MonthAndDayCorrect(y, r - DaysInMonth(y, m), m + 1);
    }
  }

  /** A valid date falls inside its year. */
  lemma OrdinalInYear(d: Date)
    requires ValidDate(d)
    ensures 0 <= DaysBeforeMonth(d.year, d.month) + d.day - 1 < YearLength(d.year)
  {
  }

  /** Two valid dates of one year at the same position are the same date. */
  lemma MonthIsUnique(y: int, m1: int, d1: int, m2: int, d2: int)
    requires ValidDate(Date(y, m1, d1)) && ValidDate(Date(y, m2, d2))
    requires DaysBeforeMonth(y, m1) + d1 == DaysBeforeMonth(y, m2) + d2
    ensures m1 == m2 && d1 == d2
  {
  }

  /** Every day number names a valid date, and that date maps back to it. */
  lemma CivilFromDaysRoundTrip(z: int)
    ensures ValidDate(CivilFromDays(z))
    ensures DaysFromCivil(CivilFromDays(z)) == z
  {
    YearAndOrdinalCorrect(z);
    var (y, r) := YearAndOrdinal(z);
    MonthAndDayCorrect(y, r, 1);
  }

  /** Every valid date maps to a day number that maps back to it. */
  lemma DaysFromCivilRoundTrip(d: Date)
    requires ValidDate(d)
    ensures CivilFromDays(DaysFromCivil(d)) == d
  {
    var z := DaysFromCivil(d);
    var c := CivilFromDays(z);
    CivilFromDaysRoundTrip(z);
    OrdinalInYear(d);
    OrdinalInYear(c);
    Jan1Step(d.year);
    Jan1Step(c.year);
    YearIsUnique(z, d.year, c.year);
    MonthIsUnique(d.year, d.month, d.day, c.month, c.day);
  }

  /** The year of day `w` is `y` exactly when `w` lies between January 1 of
      `y` and January 1 of the next year. */
  lemma YearOfDay(w: int, y: int)
    ensures YearAndOrdinal(w).0 == y <==> Jan1(y) <= w < Jan1(y + 1)
  {
    YearAndOrdinalCorrect(w);
    var y' := YearAndOrdinal(w).0;
    Jan1Step(y');
    if Jan1(y) <= w < Jan1(y + 1) {
      YearIsUnique(w, y, y');
    }
  }

  /** The estimate-and-correct week number is the ISO 8601 week number. */
  lemma IsoWeekIsWeekOfThursday(z: int)
    ensures IsoWeek(z) == IsoWeekOfThursday(z)
  {
    var yr := YearAndOrdinal(z);
    var thursday := z - Weekday(z) + 3;
    var ty := YearAndOrdinal(thursday);
    YearAndOrdinalCorrect(z);
    YearAndOrdinalCorrect(thursday);
    Jan1Step(ty.0);
    ThursdayWeek(yr.0, yr.1, Weekday(z), thursday, ty.0);
  }

  lemma ThursdayWeek(y: int, r: int, wd: int, thursday: int, ty: int)
    requires 0 <= r < YearLength(y) && 0 <= wd <= 6
    requires thursday == Jan1(y) + r - wd + 3
    requires Jan1(ty) <= thursday < Jan1(ty + 1)
    ensures WeekOfYear(y, r, wd) == (thursday - Jan1(ty)) / 7 + 1
  {
    var e := r - wd + 3;
    if e < 0 {
      ThursdayInYearBefore(y, e, thursday, ty);
      LastWeek(y - 1, e);
    } else if e >= YearLength(y) {
      ThursdayInYearAfter(y, e, thursday, ty);
    } else {
      ThursdayInSameYear(y, e, thursday, ty);
    }
  }

  /** A Thursday up to three days before January 1 of `y` lies in `y - 1`. */
  lemma ThursdayInYearBefore(y: int, e: int, thursday: int, ty: int)
    requires -3 <= e < 0 && thursday == Jan1(y) + e
    requires Jan1(ty) <= thursday < Jan1(ty + 1)
    ensures ty == y - 1 && thursday - Jan1(ty) == YearLength(y - 1) + e
  {
    Jan1Step(y - 1);
    YearIsUnique(thursday, ty, y - 1);
  }

  /** A Thursday up to three days after the end of `y` lies in `y + 1`. */
  lemma ThursdayInYearAfter(y: int, e: int, thursday: int, ty: int)
    requires YearLength(y) <= e < YearLength(y) + 3 && thursday == Jan1(y) + e
    requires Jan1(ty) <= thursday < Jan1(ty + 1)
    ensures ty == y + 1 && thursday - Jan1(ty) == e - YearLength(y)
  {
    Jan1Step(y);
    Jan1Step(y + 1);
    YearIsUnique(thursday, ty, y + 1);
  }

  lemma ThursdayInSameYear(y: int, e: int, thursday: int, ty: int)
    requires 0 <= e < YearLength(y) && thursday == Jan1(y) + e
    requires Jan1(ty) <= thursday < Jan1(ty + 1)
    ensures ty == y && thursday - Jan1(ty) == e
  {
    Jan1Step(y);
    YearIsUnique(thursday, ty, y);
  }

  /** A week whose Thursday is `-e` days before January 1 of the year after
      `y` is week 53 of `y` when that Thursday is December 31, or December 30
      of a leap year, and week 52 otherwise. */
  lemma LastWeek(y: int, e: int)
    requires -3 <= e < 0
    ensures (YearLength(y) + e) / 7 + 1
      == (if e == -1 || (e == -2 && IsLeapYear(y)) then 53 else 52)
  {}

  /** Day 4 (1970-01-05) was a Monday, and `Weekday` counts the days since
      it modulo 7: Monday 0, Tuesday 1, ..., Sunday 6, as `dt.weekday`. */
  lemma MondayIsZero(z: int)
    ensures Weekday(z) == (z - DaysFromCivil(Date(1970, 1, 5))) % 7
  {
  }

  /** The year and day of year of a day that lies in year `y`. */
  lemma YearAndOrdinalOf(z: int, y: int)
    requires Jan1(y) <= z < Jan1(y + 1)
    ensures YearAndOrdinal(z) == (y, z - Jan1(y))
  {
    YearOfDay(z, y);
    YearAndOrdinalCorrect(z);
  }

  /** Day 0 is 1970-01-01, the Unix epoch, in both directions. */
  lemma EpochIsJan1970()
    ensures CivilFromDays(0) == Date(1970, 1, 1)
    ensures DaysFromCivil(Date(1970, 1, 1)) == 0
  {
    assert Jan1(1970) == 0 && Jan1(1971) == 365;
    YearAndOrdinalOf(0, 1970);
  }

  /** The Thursday `IsoWeekOfThursday` picks is a Thursday of the same
      Monday-to-Sunday week as day `z`. */
  lemma ThursdayOfWeek(z: int)
    ensures var thursday := z - Weekday(z) + 3;
      && Weekday(thursday) == 3
      && thursday - 3 <= z <= thursday + 3
      && Weekday(thursday - 3) == 0
  {
  }

  /** 2018-12-31, a Monday, is in week 1 of 2019. */
  lemma IsoWeekOfMondayBeforeNewYear()
    ensures Weekday(DaysFromCivil(Date(2018, 12, 31))) == 0 && IsoWeek(DaysFromCivil(Date(2018, 12, 31))) == 1
  {
    assert Jan1(2018) == 17532 && Jan1(2019) == 17897;
    assert DaysFromCivil(Date(2018, 12, 31)) == 17896;
    YearAndOrdinalOf(17896, 2018);
  }

  /** 2021-01-01, a Friday, is in week 53 of 2020. */
  lemma IsoWeekOfFridayNewYear()
    ensures Weekday(DaysFromCivil(Date(2021, 1, 1))) == 4 && IsoWeek(DaysFromCivil(Date(2021, 1, 1))) == 53
  {
    assert Jan1(2021) == 18628 && Jan1(2022) == 18993;
    YearAndOrdinalOf(18628, 2021);
  }

  /** 2022-01-02, a Sunday, is in week 52 of 2021. */
  lemma IsoWeekOfSundayAfterNewYear()
    ensures Weekday(DaysFromCivil(Date(2022, 1, 2))) == 6 && IsoWeek(DaysFromCivil(Date(2022, 1, 2))) == 52
  {
    assert Jan1(2022) == 18993 && Jan1(2023) == 19358;
    assert DaysFromCivil(Date(2022, 1, 2)) == 18994;
    YearAndOrdinalOf(18994, 2022);
  }

  /** 2018-11-11, a Sunday, is in week 45. */
  lemma IsoWeekOfSundayInNovember()
    ensures Weekday(DaysFromCivil(Date(2018, 11, 11))) == 6 && IsoWeek(DaysFromCivil(Date(2018, 11, 11))) == 45
  {
    assert Jan1(2018) == 17532 && Jan1(2019) == 17897;
    assert DaysFromCivil(Date(2018, 11, 11)) == 17846;
    YearAndOrdinalOf(17846, 2018);
  }
}
