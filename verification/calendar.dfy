/** Conversion between epoch seconds and broken-down EFI times (Misc.c): the closed-form
    Gregorian/Julian-day arithmetic against a plain count of days. */
module Calendar {

  const YEARS := 0x1_0000

  type Uint16 = n: int | 0 <= n < YEARS

  /** EFI_TIME (section 8.3 of the UEFI Specification 2.10). */
  datatype EfiTime = EfiTime(
    year: Uint16, month: nat, day: nat,
    hour: nat, minute: nat, second: nat, nanosecond: nat,
    timeZone: int, daylight: nat)

  const EPOCH_JULIAN_DATE := 2440588
  const SEC_PER_MIN := 60
  const SEC_PER_HOUR := 3600
  const SEC_PER_DAY := 86400

  const EFI_UNSPECIFIED_TIMEZONE := 0x07FF
  const EFI_TIME_DAYLIGHT_BITS := 3

  // ----- the code -----

  /** The century of day `dg` of a four-century cycle. */
  function CenturyNumber(dg: int): int {
    (((dg / 36524) + 1) * 3) / 4
  }

  /** The year of day `db` of a four-year cycle. */
  function YearNumber(db: int): int {
    (((db / 365) + 1) * 3) / 4
  }

  /** First half of the date part of EpochToEfiTime: the year, counted from March of year -4800,
      and the day within it. */
  function YearAndDay(J: nat): (int, int) {
    var j := J + 32044;
    var g := j / 146097;
    var dg := j % 146097;
    var c := CenturyNumber(dg);
    var dc := dg - c * 36524;
    var b := dc / 1461;
    var db := dc % 1461;
    var a := YearNumber(db);
    var da := db - a * 365;
    (g * 400 + c * 100 + b * 4 + a, da)
  }

  /** Second half: the calendar year, month and day of day `da` of such a year. */
  function MonthAndDay(y: int, da: int): (int, int, int) {
    var m := ((da * 5 + 308) / 153) - 2;
    var d := da - (((m + 4) * 153) / 5) + 122;
    (y - 4800 + (m + 2) / 12, (m + 2) % 12 + 1, d + 1)
  }

  function DateOfJulianDay(J: nat): (int, int, int) {
    var (y, da) := YearAndDay(J);
    MonthAndDay(y, da)
  }

  /** The date of an epoch second. */
  function DateOfSecond(epochSeconds: nat): (d: (int, int, int))
    ensures d.0 >= 1970 && ValidDate(d.0, d.1, d.2)
    ensures JulianDay(d.0, d.1, d.2) == epochSeconds / SEC_PER_DAY + EPOCH_JULIAN_DATE
  {
    DateIs(epochSeconds / SEC_PER_DAY + EPOCH_JULIAN_DATE);
    DateOfJulianDay(epochSeconds / SEC_PER_DAY + EPOCH_JULIAN_DATE)
  }

  /** The hour, minute and second of an epoch second. */
  function ClockOfSecond(epochSeconds: nat): (c: (nat, nat, nat))
    ensures c.0 < 24 && c.1 < 60 && c.2 < 60
    ensures epochSeconds == epochSeconds / SEC_PER_DAY * SEC_PER_DAY + c.0 * SEC_PER_HOUR + c.1 * SEC_PER_MIN + c.2
  {
    ClockOf(epochSeconds);
    var ss := epochSeconds % 60;
    var a := (epochSeconds - ss) / 60;
    var mm := a % 60;
    var b := (a - mm) / 60;
    var hh := b % 24;
    (hh, mm, ss)
  }

  /** EpochToEfiTime; the year is stored in 16 bits, and the time zone and daylight fields of `time` are
      left as they were. */
  function EpochToEfiTime(epochSeconds: nat, time: EfiTime): (r: EfiTime) {
    var ((year, month, day), (hh, mm, ss)) := (DateOfSecond(epochSeconds), ClockOfSecond(epochSeconds));
    time.(year := year % YEARS, month := month, day := day, hour := hh, minute := mm, second := ss, nanosecond := 0)
  }

  /** The Julian day number of a date, as EfiTimeToEpoch computes it. */
  function JulianDay(year: int, month: int, day: int): int {
    var a := (14 - month) / 12;
    var y := year + 4800 - a;
    var m := month + 12 * a - 3;
    day + (153 * m + 2) / 5 + 365 * y + y / 4 - y / 100 + y / 400 - 32045
  }

  function EfiTimeToEpoch(t: EfiTime): int {
    (JulianDay(t.year, t.month, t.day) - EPOCH_JULIAN_DATE) * SEC_PER_DAY
      + t.hour * SEC_PER_HOUR + t.minute * SEC_PER_MIN + t.second
  }

  predicate IsLeapYear(year: int) {
    if year % 4 == 0 then
      if year % 100 == 0 then
        if year % 400 == 0 then true else false
      else true
    else false
  }

  const DAY_OF_MONTH: seq<int> := [31, 29, 31, 30, 31, 30, 31, 31, 30, 31, 30, 31]

  predicate DayValid(year: int, month: int, day: int)
    requires 1 <= month <= 12
  {
    !(day < 1 || day > DAY_OF_MONTH[month - 1] || (month == 2 && !IsLeapYear(year) && day > 28))
  }

  predicate EfiTimeIsValid(t: EfiTime) {
    !(t.year < 1900 || t.year > 9999
      || t.month < 1 || t.month > 12
      || !DayValid(t.year, t.month, t.day)
      || t.hour > 23 || t.minute > 59 || t.second > 59
      || t.nanosecond > 999999999
      || !(t.timeZone == EFI_UNSPECIFIED_TIMEZONE || -1440 <= t.timeZone <= 1440)
      || t.daylight > EFI_TIME_DAYLIGHT_BITS)
  }

  // ----- the calendar itself -----

  /** The length of a month, from the table and the leap-year rule. */
  function MonthLength(year: int, month: int): (n: int)
    requires 1 <= month <= 12
    ensures 28 <= n <= 31
  {
    if month == 2 && !IsLeapYear(year) then 28 else DAY_OF_MONTH[month - 1]
  }

  /** Days of `year` before the first of `month`. */
  function DaysBeforeMonth(year: int, month: int): (n: int)
    requires 1 <= month <= 13
    ensures n >= 0
    decreases month
  {
    if month == 1 then 0 else DaysBeforeMonth(year, month - 1) + MonthLength(year, month - 1)
  }

  function YearLength(year: int): int {
    DaysBeforeMonth(year, 13)
  }

  /** Days from 1970-01-01 to the first day of `year`. */
  function DaysBeforeYear(year: int): (n: int)
    requires year >= 1970
    ensures n >= 0
    decreases year
  {
    if year == 1970 then 0 else DaysBeforeYear(year - 1) + YearLength(year - 1)
  }

  /** Days since 1970-01-01, counted year by year and month by month. */
  function DayCount(year: int, month: int, day: int): int
    requires year >= 1970 && 1 <= month <= 12
  {
    DaysBeforeYear(year) + DaysBeforeMonth(year, month) + day - 1
  }

  predicate ValidDate(year: int, month: int, day: int) {
    1 <= month <= 12 && DayValid(year, month, day)
  }

  lemma YearLengthIs(year: int)
    ensures YearLength(year) == if IsLeapYear(year) then 366 else 365
  {
    assert DaysBeforeMonth(year, 4) == DaysBeforeMonth(year, 3) + 31;
    assert DaysBeforeMonth(year, 7) == DaysBeforeMonth(year, 4) + 91;
    assert DaysBeforeMonth(year, 10) == DaysBeforeMonth(year, 7) + 92;
    assert DaysBeforeMonth(year, 13) == DaysBeforeMonth(year, 10) + 92;
  }

  /** The days the leap rule has added up to March of `year`, counted from year -4800. */
  function LeapDays(y: int): int {
    y / 4 - y / 100 + y / 400
  }

  lemma Quarters(y: int)
    ensures (y + 4800) / 4 - (y + 4799) / 4 == if y % 4 == 0 then 1 else 0
  {
  }

  lemma Centuries(y: int)
    ensures (y + 4800) / 100 - (y + 4799) / 100 == if y % 100 == 0 then 1 else 0
  {
  }

  lemma Cycles(y: int)
    ensures (y + 4800) / 400 - (y + 4799) / 400 == if y % 400 == 0 then 1 else 0
  {
  }

  lemma FourHundred(y: int)
    ensures y % 400 == 0 ==> y % 100 == 0
    ensures y % 100 == 0 ==> y % 4 == 0
  {
    if y % 400 == 0 {
      Multiple(4 * (y / 400), 100);
    }
    if y % 100 == 0 {
      Multiple(25 * (y / 100), 4);
    }
  }

  lemma Multiple(k: int, n: int)
    requires n == 100 || n == 4
    ensures (n * k) % n == 0
  {
  }

  lemma LeapStep(y: int)
    ensures LeapDays(y + 4800) == LeapDays(y + 4799) + (if IsLeapYear(y) then 1 else 0)
  {
    Quarters(y);
    Centuries(y);
    Cycles(y);
    FourHundred(y);
  }

  lemma JulianParts(year: int, month: int, day: int)
    requires 1 <= month <= 12
    ensures month <= 2 ==>
      JulianDay(year, month, day) ==
        day + (153 * (month + 9) + 2) / 5 + 365 * (year + 4799) + LeapDays(year + 4799) - 32045
    ensures month > 2 ==>
      JulianDay(year, month, day) ==
        day + (153 * (month - 3) + 2) / 5 + 365 * (year + 4800) + LeapDays(year + 4800) - 32045
  {
  }

  /** One year on the calendar is one year in the formula. */
  lemma JulianYear(year: int)
    ensures JulianDay(year + 1, 1, 1) == JulianDay(year, 1, 1) + YearLength(year)
  {
    YearLengthIs(year);
    JulianParts(year, 1, 1);
    JulianParts(year + 1, 1, 1);
    LeapStep(year);
    hide JulianDay, LeapDays, IsLeapYear;
  }

  /** Within a year the formula counts days from the month table. */
  lemma JulianMonth(year: int, month: int, day: int)
    requires 1 <= month <= 12
    ensures JulianDay(year, month, day) == JulianDay(year, 1, 1) + DaysBeforeMonth(year, month) + day - 1
    decreases month
  {
    if month > 1 {
      JulianMonth(year, month - 1, day);
      JulianNextMonth(year, month, day);
    }
  }

  /** The formula's month term against the month table, counted from March. */
  lemma MonthTerm(year: int, month: int)
    requires 4 <= month <= 12
    ensures (153 * (month - 3) + 2) / 5 == (153 * (month - 4) + 2) / 5 + MonthLength(year, month - 1)
  {
    hide IsLeapYear;
    if month <= 6 {
      assert month == 4 || month == 5 || month == 6;
    } else if month <= 9 {
      assert month == 7 || month == 8 || month == 9;
    } else {
      assert month == 10 || month == 11 || month == 12;
    }
  }

  lemma JulianNextMonth(year: int, month: int, day: int)
    requires 2 <= month <= 12
    ensures JulianDay(year, month, day) == JulianDay(year, month - 1, day) + MonthLength(year, month - 1)
  {
    hide JulianDay, LeapDays, IsLeapYear;
    JulianParts(year, month, day);
    JulianParts(year, month - 1, day);
    if month > 3 {
      hide MonthLength;
      MonthTerm(year, month);
    } else if month == 3 {
      LeapStep(year);
    }
  }

  lemma {:induction false} JulianFirst(year: int)
    requires year >= 1970
    ensures JulianDay(year, 1, 1) - EPOCH_JULIAN_DATE == DaysBeforeYear(year)
    decreases year
  {
    if year > 1970 {
      JulianFirst(year - 1);
      JulianYear(year - 1);
    }
  }

  /** The closed formula is the day count. */
  lemma FormulaCountsDays(year: int, month: int, day: int)
    requires year >= 1970 && 1 <= month <= 12
    ensures JulianDay(year, month, day) - EPOCH_JULIAN_DATE == DayCount(year, month, day)
  {
    JulianFirst(year);
    JulianMonth(year, month, day);
  }

  // ----- the way back -----

  lemma CenturyOf(dg: int, c: int, dc: int)
    requires 0 <= dg < 146097 && c == CenturyNumber(dg) && dc == dg - c * 36524
    ensures 0 <= c <= 3 && 0 <= dc <= 36524 && (dc == 36524 ==> c == 3)
  {
    assert dg / 36524 <= 4;
  }

  lemma YearOf(db: int, a: int, da: int)
    requires 0 <= db < 1461 && a == YearNumber(db) && da == db - a * 365
    ensures 0 <= a <= 3 && 0 <= da <= 365 && (da == 365 ==> a == 3 && db == 1460)
  {
    assert db / 365 <= 4;
  }

  lemma QuarterOf(dc: int)
    requires 0 <= dc <= 36524
    ensures 0 <= dc / 1461 <= 24 && 0 <= dc % 1461 < 1461 && dc == 1461 * (dc / 1461) + dc % 1461
    ensures dc / 1461 == 24 && dc % 1461 == 1460 ==> dc == 36524
  {
  }

  /** The leap days up to a year given by its four-century, century, four-year and year numbers. */
  lemma LeapDaysOf(g: int, c: int, b: int, a: int)
    requires g >= 0 && 0 <= c <= 3 && 0 <= b <= 24 && 0 <= a <= 3
    ensures LeapDays(g * 400 + c * 100 + b * 4 + a) == 97 * g + 24 * c + b
  {
    var y := g * 400 + c * 100 + b * 4 + a;
    assert y / 4 == 100 * g + 25 * c + b;
    assert y / 100 == 4 * g + c;
    assert y / 400 == g;
  }

  /** A year with a day 365 after March ends in a leap February. */
  lemma LeapFebruary(g: int, c: int, b: int)
    requires g >= 0 && 0 <= c <= 3 && 0 <= b <= 24 && (b == 24 ==> c == 3)
    ensures IsLeapYear(g * 400 + c * 100 + b * 4 + 3 - 4799)
  {
    var y := g * 400 + c * 100 + b * 4 + 3 - 4799;
    assert y == 4 * (100 * g + 25 * c + b - 1199);
    if b == 24 {
      assert y == 400 * (g - 11);
    } else {
      assert y == 100 * (4 * g + c - 48) + (4 * b + 4);
    }
  }

  /** The digits of a day number in four-century cycles, centuries, four-year cycles and years. */
  ghost predicate YearDigits(j: int, g: int, c: int, b: int, a: int, da: int) {
    && g >= 0 && 0 <= c <= 3 && 0 <= b <= 24 && 0 <= a <= 3 && 0 <= da <= 365
    && (da == 365 ==> a == 3 && (b == 24 ==> c == 3))
    && j == 146097 * g + 36524 * c + 1461 * b + 365 * a + da
  }

  lemma YearAndDayDigits(J: nat) returns (g: int, c: int, b: int, a: int, da: int)
    ensures YearDigits(J + 32044, g, c, b, a, da)
    ensures YearAndDay(J) == (g * 400 + c * 100 + b * 4 + a, da)
  {
    hide CenturyNumber, YearNumber;
    g := (J + 32044) / 146097;
    var dg := (J + 32044) % 146097;
    c := CenturyNumber(dg);
    var dc := dg - c * 36524;
    b := dc / 1461;
    var db := dc % 1461;
    a := YearNumber(db);
    da := db - a * 365;
    assert YearAndDay(J) == (g * 400 + c * 100 + b * 4 + a, da);
    hide YearAndDay;
    CenturyOf(dg, c, dc);
    QuarterOf(dc);
    YearOf(db, a, da);
  }

  lemma YearAndDayIs(J: nat)
    requires J >= EPOCH_JULIAN_DATE
    ensures var (y, da) := YearAndDay(J);
      && y >= 6769 && (y == 6769 ==> da >= 306) && 0 <= da <= 365 && (da == 365 ==> IsLeapYear(y - 4799))
      && 365 * y + LeapDays(y) + da == J + 32044
  {
    hide YearAndDay, IsLeapYear, LeapDays;
    var g, c, b, a, da := YearAndDayDigits(J);
    LeapDaysOf(g, c, b, a);
    if da == 365 { LeapFebruary(g, c, b); }
    NotBeforeEpoch(g * 400 + c * 100 + b * 4 + a, da);
  }

  lemma NotBeforeEpoch(y: int, da: int)
    requires y >= 0 && 0 <= da <= 365 && 365 * y + LeapDays(y) + da >= EPOCH_JULIAN_DATE + 32044
    ensures y >= 6769 && (y == 6769 ==> da >= 306)
  {
    LeapDaysBound(y);
    assert LeapDays(6769) == 1641;
    hide LeapDays;
  }

  lemma LeapDaysBound(y: int)
    requires y >= 0
    ensures LeapDays(y) <= y / 4
  {
  }

  /** Day `da` of a year counted from March is a date whose Julian day the formula gives back. */
  lemma MonthAndDayIs(y: int, da: int)
    requires 0 <= da <= 365 && (da == 365 ==> IsLeapYear(y - 4799))
    ensures var (year, month, day) := MonthAndDay(y, da);
      && ValidDate(year, month, day)
      && year == (if da >= 306 then y - 4799 else y - 4800)
      && JulianDay(year, month, day) == da + 1 + 365 * y + LeapDays(y) - 32045
  {
    hide LeapDays, IsLeapYear, JulianDay;
    var m := ((da * 5 + 308) / 153) - 2;
    var d := da - (((m + 4) * 153) / 5) + 122;
    MonthOf(da, m, d);
    var (year, month, day) := MonthAndDay(y, da);
    JulianParts(year, month, day);
  }

  /** The month and day of a day counted from March. */
  lemma MonthOf(da: int, m: int, d: int)
    requires 0 <= da <= 365 && m == ((da * 5 + 308) / 153) - 2 && d == da - (((m + 4) * 153) / 5) + 122
    ensures 0 <= m <= 11 && (m >= 10 <==> da >= 306)
    ensures d + (153 * m + 2) / 5 == da
    ensures 0 <= d < DAY_OF_MONTH[(m + 2) % 12] && (m == 11 && d == 28 ==> da == 365)
  {
    assert ((m + 4) * 153) / 5 == (153 * m + 2) / 5 + 122;
    assert 0 <= m <= 11;
    if m <= 3 {
      assert m == 0 || m == 1 || m == 2 || m == 3;
    } else if m <= 7 {
      assert m == 4 || m == 5 || m == 6 || m == 7;
    } else {
      assert m == 8 || m == 9 || m == 10 || m == 11;
    }
  }

  /** The date of a Julian day from the epoch on is valid, not before 1970, and has that number. */
  lemma DateIs(J: nat)
    requires J >= EPOCH_JULIAN_DATE
    ensures var (year, month, day) := DateOfJulianDay(J);
      year >= 1970 && ValidDate(year, month, day) && JulianDay(year, month, day) == J
  {
    var (y, da) := YearAndDay(J);
    YearAndDayIs(J);
    MonthAndDayIs(y, da);
    hide YearAndDay, MonthAndDay, JulianDay, IsLeapYear, ValidDate, LeapDays;
  }

  // ----- order -----

  lemma {:induction false} DayWithinYear(year: int, month: int, day: int)
    requires ValidDate(year, month, day)
    ensures 0 <= DaysBeforeMonth(year, month) + day - 1 < YearLength(year)
  {
    MonthsGrow(year, month + 1, 13);
  }

  lemma {:induction false} MonthsGrow(year: int, m: int, n: int)
    requires 1 <= m <= n <= 13
    ensures DaysBeforeMonth(year, m) <= DaysBeforeMonth(year, n)
    decreases n
  {
    if m < n { MonthsGrow(year, m, n - 1); }
  }

  lemma {:induction false} YearsGrow(y: int, z: int)
    requires 1970 <= y <= z
    ensures DaysBeforeYear(y) <= DaysBeforeYear(z)
    decreases z
  {
    hide YearLength, IsLeapYear, DaysBeforeMonth;
    if y < z {
      YearsGrow(y, z - 1);
      YearLengthIs(z - 1);
    }
  }

  predicate DateBefore(y: int, m: int, d: int, y': int, m': int, d': int) {
    y < y' || (y == y' && (m < m' || (m == m' && d < d')))
  }

  lemma EarlierYear(y: int, m: int, d: int, y': int, m': int, d': int)
    requires y >= 1970 && ValidDate(y, m, d) && y' > y && ValidDate(y', m', d')
    ensures DayCount(y, m, d) < DayCount(y', m', d')
  {
    hide YearLength, DaysBeforeMonth, DayValid;
    DayWithinYear(y, m, d);
    DayWithinYear(y', m', d');
    YearsGrow(y + 1, y');
  }

  lemma DayCountIncreases(y: int, m: int, d: int, y': int, m': int, d': int)
    requires y >= 1970 && ValidDate(y, m, d) && y' >= 1970 && ValidDate(y', m', d')
    requires DateBefore(y, m, d, y', m', d')
    ensures DayCount(y, m, d) < DayCount(y', m', d')
  {
    MonthsAreValid(y, m, d);
    hide DayCount, ValidDate, DaysBeforeYear, DaysBeforeMonth;
    if y < y' {
      EarlierYear(y, m, d, y', m', d');
    } else if m < m' {
      LaterMonth(y, m, d, m', d');
    } else {
      LaterDay(y, m, d, d');
    }
  }

  lemma LaterMonth(y: int, m: int, d: int, m': int, d': int)
    requires y >= 1970 && ValidDate(y, m, d) && ValidDate(y, m', d') && m < m'
    ensures DayCount(y, m, d) < DayCount(y, m', d')
  {
    hide DaysBeforeYear, IsLeapYear, DaysBeforeMonth;
    MonthsGrow(y, m + 1, m');
    AfterMonth(y, m);
  }

  lemma AfterMonth(y: int, m: int)
    requires 1 <= m <= 12
    ensures DaysBeforeMonth(y, m + 1) == DaysBeforeMonth(y, m) + MonthLength(y, m)
  {
  }

  lemma LaterDay(y: int, m: int, d: int, d': int)
    requires y >= 1970 && 1 <= m <= 12 && d < d'
    ensures DayCount(y, m, d) < DayCount(y, m, d')
  {
    hide DaysBeforeYear, DaysBeforeMonth;
  }

  /** The fields are within their ranges and the day exists. */
  predicate ProperTime(t: EfiTime) {
    ValidDate(t.year, t.month, t.day) && t.hour <= 23 && t.minute <= 59 && t.second <= 59
  }

  /** Lexicographic order on year, month, day, hour, minute and second. */
  predicate Before(t: EfiTime, u: EfiTime) {
    || DateBefore(t.year, t.month, t.day, u.year, u.month, u.day)
    || (t.year == u.year && t.month == u.month && t.day == u.day
        && (t.hour < u.hour || (t.hour == u.hour
          && (t.minute < u.minute || (t.minute == u.minute && t.second < u.second)))))
  }

  function SecondOfDay(t: EfiTime): int {
    t.hour * SEC_PER_HOUR + t.minute * SEC_PER_MIN + t.second
  }

  /** EfiTimeToEpoch counts the seconds since 1970-01-01 on the calendar. */
  lemma EpochCountsSeconds(t: EfiTime)
    requires t.year >= 1970 && ProperTime(t)
    ensures EfiTimeToEpoch(t) == DayCount(t.year, t.month, t.day) * SEC_PER_DAY + SecondOfDay(t)
    ensures 0 <= SecondOfDay(t) < SEC_PER_DAY && DayCount(t.year, t.month, t.day) >= 0
  {
    FormulaCountsDays(t.year, t.month, t.day);
    DayWithinYear(t.year, t.month, t.day);
    hide JulianDay;
  }

  /** Later times have larger epoch values. */
  lemma EpochIncreases(t: EfiTime, u: EfiTime)
    requires t.year >= 1970 && ProperTime(t) && u.year >= 1970 && ProperTime(u) && Before(t, u)
    ensures EfiTimeToEpoch(t) < EfiTimeToEpoch(u)
  {
    EpochCountsSeconds(t);
    EpochCountsSeconds(u);
    var m, n := DayCount(t.year, t.month, t.day), DayCount(u.year, u.month, u.day);
    if DateBefore(t.year, t.month, t.day, u.year, u.month, u.day) {
      DayCountIncreases(t.year, t.month, t.day, u.year, u.month, u.day);
      hide *;
      assert m < n;
      assert m * SEC_PER_DAY + SEC_PER_DAY <= n * SEC_PER_DAY;
    }
  }

  // ----- round trips -----

  lemma ClockOf(E: nat)
    ensures var ss := E % 60;
      var a := (E - ss) / 60;
      var mm := a % 60;
      var hh := ((a - mm) / 60) % 24;
      0 <= ss < 60 && 0 <= mm < 60 && 0 <= hh < 24
        && E == (E / SEC_PER_DAY) * SEC_PER_DAY + hh * SEC_PER_HOUR + mm * SEC_PER_MIN + ss
  {
    var ss := E % 60;
    var a := E / 60;
    var mm := a % 60;
    var h := a / 60;
    assert (E - ss) / 60 == a && (a - mm) / 60 == h;
    assert E == 60 * a + ss && a == 60 * h + mm && h == 24 * (h / 24) + h % 24;
    assert E == SEC_PER_DAY * (h / 24) + (h % 24) * SEC_PER_HOUR + mm * SEC_PER_MIN + ss;
    assert E / SEC_PER_DAY == h / 24;
  }

  /** Seconds from the epoch to the first day of a year. */
  function SecondsToYear(y: int): nat
    requires y >= 1970
  {
    DaysBeforeYear(y) * SEC_PER_DAY
  }

  /** An epoch second lies in a year before `y` exactly if it comes before that year's first. */
  lemma YearOfSecond(E: nat, y: int)
    requires y >= 1970
    ensures DateOfSecond(E).0 < y <==> E < SecondsToYear(y)
  {
    hide DaysBeforeYear, YearLength, DaysBeforeMonth, DateOfSecond, JulianDay, ValidDate;
    var n := E / SEC_PER_DAY;
    var (year, month, day) := DateOfSecond(E);
    FormulaCountsDays(year, month, day) by { MonthsAreValid(year, month, day); }
    DayWithinYear(year, month, day);
    WholeDays(E, n, DaysBeforeYear(y));
    if year < y {
      YearsGrow(year + 1, y);
      NextYear(year);
    } else {
      YearsGrow(y, year);
    }
  }

  lemma MonthsAreValid(year: int, month: int, day: int)
    requires ValidDate(year, month, day)
    ensures 1 <= month <= 12
  {
  }

  lemma WholeDays(E: nat, n: int, d: int)
    requires n == E / SEC_PER_DAY
    ensures n < d <==> E < d * SEC_PER_DAY
  {
    assert E == n * SEC_PER_DAY + E % SEC_PER_DAY;
    if n < d { assert (n + 1) * SEC_PER_DAY <= d * SEC_PER_DAY; } else { assert d * SEC_PER_DAY <= n * SEC_PER_DAY; }
  }

  lemma NextYear(y: int)
    requires y >= 1970
    ensures DaysBeforeYear(y + 1) == DaysBeforeYear(y) + YearLength(y)
  {
    hide YearLength;
  }

  /** While the year fits its field the time made from an epoch second is proper and converts back. */
  lemma EpochConvertsBack(E: nat, time: EfiTime)
    requires DateOfSecond(E).0 < YEARS
    ensures var t := EpochToEfiTime(E, time);
      t.year == DateOfSecond(E).0 && ProperTime(t) && EfiTimeToEpoch(t) == E
  {
    hide DateOfSecond, ClockOfSecond, JulianDay, ValidDate;
  }

  /** A proper time is in the year its second is in. */
  lemma YearOfTime(t: EfiTime)
    requires t.year >= 1970 && ProperTime(t)
    ensures EfiTimeToEpoch(t) >= 0 && DateOfSecond(EfiTimeToEpoch(t)).0 == t.year
  {
    hide EfiTimeToEpoch, JulianDay, DayCount, DateOfSecond, ValidDate, DateBefore;
    EpochCountsSeconds(t);
    ProperDate(t);
    MonthsAreValid(t.year, t.month, t.day);
    var n := DayCount(t.year, t.month, t.day);
    hide ProperTime;
    assert EfiTimeToEpoch(t) >= 0;
    var E: nat := EfiTimeToEpoch(t);
    assert E / SEC_PER_DAY == n by { DayOf(n, SecondOfDay(t), E); }
    FormulaCountsDays(t.year, t.month, t.day);
    SameDay(DateOfSecond(E), (t.year, t.month, t.day));
  }

  lemma DayOf(n: int, s: int, E: nat)
    requires 0 <= s < SEC_PER_DAY && E == n * SEC_PER_DAY + s
    ensures E / SEC_PER_DAY == n
  {
  }

  lemma ProperDate(t: EfiTime)
    requires ProperTime(t)
    ensures ValidDate(t.year, t.month, t.day)
  {
  }

  /** Two valid dates with the same Julian day are the same. */
  lemma SameDay(p: (int, int, int), q: (int, int, int))
    requires p.0 >= 1970 && ValidDate(p.0, p.1, p.2) && q.0 >= 1970 && ValidDate(q.0, q.1, q.2)
    requires JulianDay(p.0, p.1, p.2) == JulianDay(q.0, q.1, q.2)
    ensures p == q
  {
    hide JulianDay, DayCount;
    FormulaCountsDays(p.0, p.1, p.2);
    FormulaCountsDays(q.0, q.1, q.2);
    hide ValidDate;
    if DateBefore(p.0, p.1, p.2, q.0, q.1, q.2) { DayCountIncreases(p.0, p.1, p.2, q.0, q.1, q.2); }
    if DateBefore(q.0, q.1, q.2, p.0, p.1, p.2) { DayCountIncreases(q.0, q.1, q.2, p.0, p.1, p.2); }
  }

  /** An epoch second becomes a proper time from 1970 on that converts back to it exactly if it comes before
      year 65536, the first that the 16-bit year cannot hold. */
  lemma EpochRoundTrip(E: nat, time: EfiTime)
    ensures var t := EpochToEfiTime(E, time);
      (t.year >= 1970 && ProperTime(t) && EfiTimeToEpoch(t) == E) <==> E < SecondsToYear(YEARS)
  {
    var t := EpochToEfiTime(E, time);
    YearOfSecond(E, YEARS);
    hide EpochToEfiTime, SecondsToYear, ProperTime, EfiTimeToEpoch;
    if DateOfSecond(E).0 < YEARS { EpochConvertsBack(E, time); }
    if t.year >= 1970 && ProperTime(t) && EfiTimeToEpoch(t) == E { YearOfTime(t); }
  }

  /** A proper time from 1970 on comes back from its epoch value in every field the epoch covers. */
  lemma TimeRoundTrip(t: EfiTime)
    requires t.year >= 1970 && ProperTime(t)
    ensures EfiTimeToEpoch(t) >= 0
    ensures EpochToEfiTime(EfiTimeToEpoch(t), t) == t.(nanosecond := 0)
  {
    hide EpochToEfiTime, EfiTimeToEpoch, ProperTime, Before, DateOfSecond;
    YearOfTime(t);
    var E: nat := EfiTimeToEpoch(t);
    var u := EpochToEfiTime(E, t);
    EpochConvertsBack(E, t);
    if Before(t, u) { EpochIncreases(t, u); }
    if Before(u, t) { EpochIncreases(u, t); }
    SameMoment(t, u);
    OtherFields(E, t);
  }

  lemma SameMoment(t: EfiTime, u: EfiTime)
    requires !Before(t, u) && !Before(u, t)
    ensures t.year == u.year && t.month == u.month && t.day == u.day
    ensures t.hour == u.hour && t.minute == u.minute && t.second == u.second
  {
  }

  lemma OtherFields(E: nat, t: EfiTime)
    ensures var u := EpochToEfiTime(E, t); u.nanosecond == 0 && u.timeZone == t.timeZone && u.daylight == t.daylight
  {
    hide DateOfSecond, ClockOfSecond, ValidDate, JulianDay;
  }

  // ----- validity -----

  /** A valid time in the sense of EfiTimeIsValid is proper. */
  lemma ValidIsProper(t: EfiTime)
    requires EfiTimeIsValid(t)
    ensures ProperTime(t)
  {
  }

  /** The zones the UEFI Specification (section 8.3 of version 2.10) allows: none given, or up to a day's minutes
      either way. */
  predicate ZoneAllowed(timeZone: int) {
    timeZone == 0x07FF || -24 * 60 <= timeZone <= 24 * 60
  }

  /** What is left of a byte of flags when the two daylight flags, bits 0 and 1, are taken out. */
  function OtherFlags(daylight: nat): int {
    daylight - daylight % 2 - daylight / 2 % 2 * 2
  }

  predicate ZoneAndFlagsAllowed(t: EfiTime) {
    ZoneAllowed(t.timeZone) && OtherFlags(t.daylight) == 0
  }

  /** EfiTimeIsValid accepts exactly the times of years 1900 to 9999 whose day the month has, whose clock fields
      and nanosecond are in range, whose zone is allowed and which have no flags but the daylight ones. */
  lemma ValidExactly(t: EfiTime)
    ensures EfiTimeIsValid(t) <==>
      && 1900 <= t.year <= 9999
      && 1 <= t.month <= 12 && 1 <= t.day <= MonthLength(t.year, t.month)
      && t.hour < 24 && t.minute < 60 && t.second < 60 && t.nanosecond < 1_000_000_000
      && ZoneAllowed(t.timeZone) && OtherFlags(t.daylight) == 0
    ensures EfiTimeIsValid(t) <==>
      ProperTime(t) && 1900 <= t.year <= 9999 && t.nanosecond < 1_000_000_000 && ZoneAndFlagsAllowed(t)
  {
    FlagsAllowed(t.daylight);
    hide OtherFlags, IsLeapYear;
  }

  lemma FlagsAllowed(daylight: nat)
    ensures OtherFlags(daylight) == 0 <==> daylight <= EFI_TIME_DAYLIGHT_BITS
  {
  }

  /** Valid times from 1970 on come back from their epoch values, and later ones have larger values. */
  lemma ValidTimes(t: EfiTime, u: EfiTime)
    requires EfiTimeIsValid(t) && t.year >= 1970
    ensures EfiTimeToEpoch(t) >= 0 && EpochToEfiTime(EfiTimeToEpoch(t), t) == t.(nanosecond := 0)
    ensures EfiTimeIsValid(u) && u.year >= 1970 && Before(t, u) ==> EfiTimeToEpoch(t) < EfiTimeToEpoch(u)
  {
    ValidIsProper(t);
    hide EfiTimeIsValid, EpochToEfiTime, EfiTimeToEpoch, Before, ProperTime;
    TimeRoundTrip(t);
    if EfiTimeIsValid(u) && u.year >= 1970 && Before(t, u) {
      ValidIsProper(u);
      EpochIncreases(t, u);
    }
  }

  /** Seconds from the epoch to the first day of year 10000, and of year 65536. */
  const SECONDS_TO_YEAR_10000: nat := 253402300800
  const SECONDS_TO_YEAR_65536: nat := 2005949145600

  lemma YearsInSeconds()
    ensures SecondsToYear(10000) == SECONDS_TO_YEAR_10000 && SecondsToYear(YEARS) == SECONDS_TO_YEAR_65536
  {
    hide DaysBeforeYear;
    JulianFirst(10000);
    JulianFirst(YEARS);
    assert JulianDay(10000, 1, 1) == 5373485;
    assert JulianDay(YEARS, 1, 1) == EPOCH_JULIAN_DATE + SECONDS_TO_YEAR_65536 / SEC_PER_DAY;
  }

  /** The day is the one a leap year has more. */
  predicate LeapDay(month: int, day: int) {
    month == 2 && day == 29
  }

  /** The time made from an epoch second is one EfiTimeIsValid accepts exactly if what 16 bits hold of its year
      lies between 1900 and 9999 and has the day, and the zone and daylight fields it was given are allowed.
      Before year 65536 the former means exactly before year 10000. */
  lemma EpochGivesValidTime(E: nat, time: EfiTime)
    ensures var t, y := EpochToEfiTime(E, time), DateOfSecond(E).0 % YEARS;
      EfiTimeIsValid(t) <==>
        1900 <= y <= 9999 && (LeapDay(t.month, t.day) ==> IsLeapYear(y)) && ZoneAndFlagsAllowed(time)
    ensures E < SECONDS_TO_YEAR_65536 ==>
      (EfiTimeIsValid(EpochToEfiTime(E, time)) <==> E < SECONDS_TO_YEAR_10000 && ZoneAndFlagsAllowed(time))
  {
    FlagsAllowed(time.daylight);
    hide OtherFlags, DateOfSecond, ClockOfSecond, JulianDay, IsLeapYear, DayValid, SecondsToYear, ValidDate;
    var (year, month, day) := DateOfSecond(E);
    TruncatedDay(year, month, day);
    YearsInSeconds();
    YearOfSecond(E, 10000);
    YearOfSecond(E, YEARS);
    LeapDayExists(year, month, day);
  }

  lemma TruncatedDay(year: int, month: int, day: int)
    requires year >= 0 && ValidDate(year, month, day)
    ensures 1 <= month <= 12 && (DayValid(year % YEARS, month, day) <==>
      (LeapDay(month, day) ==> IsLeapYear(year % YEARS)))
  {
    hide IsLeapYear;
  }

  lemma LeapDayExists(year: int, month: int, day: int)
    requires ValidDate(year, month, day)
    ensures LeapDay(month, day) ==> IsLeapYear(year)
  {
    hide IsLeapYear;
  }

  /** The first second of year 67536 reads as the first of year 2000. */
  lemma YearIsTruncated(time: EfiTime)
    ensures var t := EpochToEfiTime(2069063049600, time);
      && t.year == 2000 && t.month == 1 && t.day == 1 && EfiTimeToEpoch(t) != 2069063049600
      && (EfiTimeIsValid(t) <==> ZoneAndFlagsAllowed(time))
  {
    hide DateOfSecond, ClockOfSecond, EfiTimeIsValid, EfiTimeToEpoch, IsLeapYear;
    FirstOfYear67536();
    EpochGivesValidTime(2069063049600, time);
    FirstOfYear2000(EpochToEfiTime(2069063049600, time));
  }

  lemma FirstOfYear67536()
    ensures DateOfSecond(2069063049600) == (67536, 1, 1) && ClockOfSecond(2069063049600) == (0, 0, 0)
  {
    hide DateOfSecond, ValidDate;
    assert JulianDay(67536, 1, 1) == 2069063049600 / SEC_PER_DAY + EPOCH_JULIAN_DATE;
    assert ValidDate(67536, 1, 1) by { JanuaryFirst(67536); }
    hide JulianDay;
    SameDay(DateOfSecond(2069063049600), (67536, 1, 1));
  }

  lemma JanuaryFirst(year: int)
    ensures ValidDate(year, 1, 1)
  {
  }

  lemma FirstOfYear2000(t: EfiTime)
    requires t.year == 2000 && t.month == 1 && t.day == 1 && t.hour == 0 && t.minute == 0 && t.second == 0
    ensures EfiTimeToEpoch(t) == 946684800
  {
  }

  // ----- 32-bit arithmetic -----

  const WORD := 0x1_0000_0000

  function Wrap(n: int): (w: nat)
    ensures w < WORD
    ensures 0 <= n < WORD ==> w == n
  {
    n % WORD
  }

  /** JulianDay with every unsigned operation reduced to 32 bits. */
  function JulianDay32(year: nat, month: nat, day: nat): nat {
    var a := (14 - month) / 12;
    var m := Wrap(Wrap(month + Wrap(12 * a)) - 3);
    JulianYear32(year, a, day, Wrap(Wrap(153 * m) + 2) / 5)
  }

  function JulianYear32(year: nat, a: int, day: nat, t: nat): nat {
    var y := Wrap(Wrap(year + 4800) - a);
    JulianSum32(day, t, y, y / 4, y / 100, y / 400)
  }

  function JulianSum32(day: nat, t: nat, y: nat, q: nat, c: nat, f: nat): nat {
    var n := Wrap(Wrap(day + t) + Wrap(365 * y));
    Wrap(Wrap(Wrap(Wrap(n + q) - c) + f) - 32045)
  }

  /** EfiTimeToEpoch with every unsigned operation reduced to 32 bits. */
  function EfiTimeToEpoch32(t: EfiTime): nat {
    var days := Wrap(JulianDay32(t.year, t.month, t.day) - EPOCH_JULIAN_DATE);
    Wrap(Wrap(Wrap(Wrap(days * SEC_PER_DAY) + Wrap(t.hour * SEC_PER_HOUR)) + Wrap(t.minute * SEC_PER_MIN)) + t.second)
  }

  /** The last second a 32-bit count reaches: 2106-02-07 06:28:15. */
  const LAST_SECOND := EfiTime(2106, 2, 7, 6, 28, 15, 0, 0, 0)

  lemma LastSecond()
    ensures EfiTimeToEpoch(LAST_SECOND) == WORD - 1 && ProperTime(LAST_SECOND)
  {
  }

  lemma WrapSum(a: int, b: int)
    ensures Wrap(Wrap(a) + b) == Wrap(a + b)
    ensures Wrap(a + Wrap(b)) == Wrap(a + b)
  {
    assert Wrap(a) == a - WORD * (a / WORD) && Wrap(b) == b - WORD * (b / WORD);
    WrapShift(a + b, -(a / WORD));
    WrapShift(a + b, -(b / WORD));
  }

  lemma WrapShift(a: int, k: int)
    ensures Wrap(a + WORD * k) == Wrap(a)
  {
    assert a + WORD * k == WORD * (a / WORD + k) + a % WORD;
  }

  /** The Julian day number does not overflow. */
  lemma JulianFits(year: nat, month: nat, day: nat)
    requires 1970 <= year <= 0xFFFF && ValidDate(year, month, day)
    ensures JulianDay32(year, month, day) == JulianDay(year, month, day)
    ensures EPOCH_JULIAN_DATE <= JulianDay(year, month, day) < WORD
  {
    hide Wrap, IsLeapYear, JulianSum32;
    JulianIsLate(year, month, day);
    var a := (14 - month) / 12;
    var m := month + 12 * a - 3;
    MonthFits(month, a, m);
    var t := (153 * m + 2) / 5;
    YearTermsFit(year, a, day, t);
    assert JulianDay32(year, month, day) == JulianYear32(year, a, day, t);
    assert JulianDay(year, month, day) == JulianYearTerms(year, a, day, t);
    hide JulianDay, JulianDay32, JulianYear32, JulianYearTerms;
  }

  function JulianYearTerms(year: nat, a: nat, day: nat, t: nat): int {
    var y := year + 4800 - a;
    day + t + 365 * y + y / 4 - y / 100 + y / 400 - 32045
  }

  lemma YearTermsFit(year: nat, a: nat, day: nat, t: nat)
    requires 1970 <= year <= 0xFFFF && day <= 31 && t <= 400 && a <= 1
    ensures JulianYear32(year, a, day, t) == JulianYearTerms(year, a, day, t) < WORD
  {
    hide Wrap, JulianSum32;
    var y := year + 4800 - a;
    assert Wrap(Wrap(year + 4800) - a) == y;
    YearQuotients(y);
    JulianSum(day, t, y, y / 4, y / 100, y / 400);
  }

  lemma MonthFits(month: nat, a: nat, m: int)
    requires 1 <= month <= 12 && a == (14 - month) / 12 && m == month + 12 * a - 3
    ensures a <= 1 && 0 <= m <= 11 && 0 <= (153 * m + 2) / 5 <= 400
    ensures Wrap(Wrap(month + Wrap(12 * a)) - 3) == m
    ensures Wrap(Wrap(153 * m) + 2) == 153 * m + 2
  {
    hide Wrap;
  }

  lemma YearQuotients(y: nat)
    ensures y / 400 <= y / 100 <= y / 4 <= y
  {
  }

  lemma JulianSum(day: nat, t: nat, y: nat, q: nat, c: nat, f: nat)
    requires day <= 31 && t <= 400 && 6769 <= y <= 70335 && f <= c <= q <= y
    ensures JulianSum32(day, t, y, q, c, f) == day + t + 365 * y + q - c + f - 32045 < 30000000
  {
    hide Wrap;
  }

  lemma JulianIsLate(year: nat, month: nat, day: nat)
    requires year >= 1970 && ValidDate(year, month, day)
    ensures JulianDay(year, month, day) >= EPOCH_JULIAN_DATE && 1 <= day <= 31
  {
    hide DaysBeforeYear, DaysBeforeMonth, YearLength, IsLeapYear, JulianDay;
    FormulaCountsDays(year, month, day);
    DayWithinYear(year, month, day);
  }

  lemma WrapIs(n: int)
    ensures Wrap(n) == n % WORD
  {
  }

  lemma FourTerms(p: int, q: int, r: int, s: int)
    ensures Wrap(Wrap(Wrap(Wrap(p) + Wrap(q)) + Wrap(r)) + s) == Wrap(p + q + r + s)
  {
    WrapSum(p, Wrap(q));
    WrapSum(p, q);
    WrapSum(p + q, Wrap(r));
    WrapSum(p + q, r);
    WrapSum(p + q + r, s);
    hide Wrap;
  }

  /** With 32-bit arithmetic the result is the epoch value modulo 2^32. */
  lemma EpochModuloWord(t: EfiTime)
    requires t.year >= 1970 && ProperTime(t)
    ensures EfiTimeToEpoch32(t) == EfiTimeToEpoch(t) % WORD
  {
    hide JulianDay, JulianDay32, ValidDate, Wrap;
    JulianFits(t.year, t.month, t.day);
    var days := JulianDay(t.year, t.month, t.day) - EPOCH_JULIAN_DATE;
    FourTerms(days * SEC_PER_DAY, t.hour * SEC_PER_HOUR, t.minute * SEC_PER_MIN, t.second);
    WrapIs(EfiTimeToEpoch(t));
  }

  /** 32-bit arithmetic gives the exact epoch value exactly up to 2106-02-07 06:28:15. */
  lemma ExactUntilLastSecond(t: EfiTime)
    requires t.year >= 1970 && ProperTime(t)
    ensures EfiTimeToEpoch32(t) == EfiTimeToEpoch(t) <==> !Before(LAST_SECOND, t)
  {
    hide EfiTimeToEpoch, EfiTimeToEpoch32, DayCount, ValidDate, Before;
    EpochModuloWord(t);
    LastSecond();
    if Before(LAST_SECOND, t) {
      EpochIncreases(LAST_SECOND, t);
    } else {
      UpToLastSecond(t);
    }
  }

  lemma UpToLastSecond(t: EfiTime)
    requires t.year >= 1970 && ProperTime(t) && !Before(LAST_SECOND, t)
    ensures 0 <= EfiTimeToEpoch(t) < WORD
  {
    LastSecond();
    EpochCountsSeconds(t);
    if Before(t, LAST_SECOND) {
      EpochIncreases(t, LAST_SECOND);
    } else {
      SameEpoch(t, LAST_SECOND);
    }
    hide EfiTimeToEpoch, DayCount, ProperTime;
  }

  lemma SameEpoch(t: EfiTime, u: EfiTime)
    requires !Before(t, u) && !Before(u, t)
    ensures EfiTimeToEpoch(t) == EfiTimeToEpoch(u)
  {
    hide JulianDay, Before;
    SameMoment(t, u);
  }

  function CenturyNumber32(dg: nat): nat {
    Wrap(Wrap((dg / 36524) + 1) * 3) / 4
  }

  function YearNumber32(db: nat): nat {
    Wrap(Wrap((db / 365) + 1) * 3) / 4
  }

  /** The date part of EpochToEfiTime with every unsigned operation reduced to 32 bits. */
  function YearAndDay32(J: nat): (nat, nat) {
    var j := Wrap(J + 32044);
    var g := j / 146097;
    var dg := j % 146097;
    var c := CenturyNumber32(dg);
    var dc := Wrap(dg - Wrap(c * 36524));
    YearOfCentury32(g, c, dc)
  }

  function YearOfCentury32(g: nat, c: nat, dc: nat): (nat, nat) {
    var b := dc / 1461;
    var db := dc % 1461;
    var a := YearNumber32(db);
    var da := Wrap(db - Wrap(a * 365));
    (Wrap(Wrap(Wrap(Wrap(g * 400) + Wrap(c * 100)) + Wrap(b * 4)) + a), da)
  }

  function MonthAndDay32(y: nat, da: nat): (int, int, int) {
    var m := Wrap(Wrap(Wrap(da * 5) + 308) / 153 - 2);
    var d := Wrap(Wrap(da - Wrap(Wrap(m + 4) * 153) / 5) + 122);
    (Wrap(Wrap(y - 4800) + Wrap(m + 2) / 12), Wrap(m + 2) % 12 + 1, Wrap(d + 1))
  }

  function DateOfJulianDay32(J: nat): (int, int, int) {
    var (y, da) := YearAndDay32(J);
    MonthAndDay32(y, da)
  }

  /** Converting a 32-bit epoch value loses nothing to 32-bit arithmetic: the one difference that
      goes below zero is made up for by the addition that follows it. */
  lemma DateFits(E: nat)
    requires E < WORD
    ensures var J := E / SEC_PER_DAY + EPOCH_JULIAN_DATE; DateOfJulianDay32(J) == DateOfJulianDay(J)
  {
    var J := E / SEC_PER_DAY + EPOCH_JULIAN_DATE;
    hide Wrap;
    YearAndDayFits(J);
    YearAndDayIs(J);
    MonthAndDayFits(YearAndDay(J).0, YearAndDay(J).1);
    hide IsLeapYear, LeapDays, YearAndDay, MonthAndDay, YearAndDay32, MonthAndDay32;
  }

  function ClockOfSecond32(epochSeconds: nat): (nat, nat, nat) {
    var ss := epochSeconds % 60;
    var a := Wrap(epochSeconds - ss) / 60;
    var mm := a % 60;
    var b := Wrap(a - mm) / 60;
    var hh := b % 24;
    (hh, mm, ss)
  }

  function DateOfSecond32(epochSeconds: nat): (d: (int, int, int)) {
    DateOfJulianDay32(Wrap(epochSeconds / SEC_PER_DAY + EPOCH_JULIAN_DATE))
  }

  lemma DateOfSecondFits(E: nat)
    requires E < WORD
    ensures DateOfSecond32(E) == DateOfSecond(E)
  {
    hide DateOfJulianDay, DateOfJulianDay32;
    DateFits(E);
    assert E / SEC_PER_DAY + EPOCH_JULIAN_DATE < WORD;
    hide Wrap;
  }

  /** EpochToEfiTime with every unsigned operation reduced to 32 bits. */
  function EpochToEfiTime32(epochSeconds: nat, time: EfiTime): EfiTime
    requires epochSeconds < WORD
  {
    hide DateOfSecond, DateOfSecond32, ClockOfSecond32, ValidDate, JulianDay;
    DateOfSecondFits(epochSeconds);
    DatesAreNat(DateOfSecond(epochSeconds));
    var ((year, month, day), (hh, mm, ss)) := (DateOfSecond32(epochSeconds), ClockOfSecond32(epochSeconds));
    time.(year := year % YEARS, month := month, day := day, hour := hh, minute := mm, second := ss, nanosecond := 0)
  }

  lemma DatesAreNat(d: (int, int, int))
    requires ValidDate(d.0, d.1, d.2)
    ensures d.1 >= 0 && d.2 >= 0
  {
  }

  lemma ClockFits(E: nat)
    requires E < WORD
    ensures ClockOfSecond32(E) == ClockOfSecond(E)
  {
    hide Wrap;
    var ss := E % 60;
    assert Wrap(E - ss) == E - ss;
    var a := (E - ss) / 60;
    assert 0 <= a <= E;
    assert Wrap(a - a % 60) == a - a % 60;
  }

  lemma TimeFits(E: nat, time: EfiTime)
    requires E < WORD
    ensures EpochToEfiTime32(E, time) == EpochToEfiTime(E, time)
  {
    DateOfSecondFits(E);
    ClockFits(E);
    hide DateOfSecond, DateOfSecond32, ClockOfSecond, ClockOfSecond32, JulianDay, ValidDate;
  }

  /** With 32-bit UINTN every epoch second converts back to itself, and the time it becomes is valid exactly if
      the zone and daylight fields it was given are allowed. */
  lemma RoundTrip32(E: nat, time: EfiTime)
    requires E < WORD
    ensures var t := EpochToEfiTime32(E, time);
      EfiTimeToEpoch32(t) == E && (EfiTimeIsValid(t) <==> ZoneAndFlagsAllowed(time))
  {
    hide ZoneAndFlagsAllowed;
    hide EpochToEfiTime, EpochToEfiTime32, EfiTimeToEpoch, EfiTimeToEpoch32, EfiTimeIsValid, ProperTime;
    TimeFits(E, time);
    WordIsEarly(E, time);
    EpochModuloWord(EpochToEfiTime(E, time));
  }

  lemma WordIsEarly(E: nat, time: EfiTime)
    requires E < WORD
    ensures var t := EpochToEfiTime(E, time);
      && t.year >= 1970 && ProperTime(t) && EfiTimeToEpoch(t) == E
      && (EfiTimeIsValid(t) <==> ZoneAndFlagsAllowed(time))
  {
    hide ZoneAndFlagsAllowed;
    hide EpochToEfiTime, EfiTimeToEpoch, EfiTimeIsValid, ProperTime, SecondsToYear, DateOfSecond, IsLeapYear, LeapDay;
    YearsInSeconds();
    EpochRoundTrip(E, time);
    EpochGivesValidTime(E, time);
  }

  /** With 32-bit UINTN a proper time from 1970 up to the last second comes back from its epoch value. */
  lemma TimeRoundTrip32(t: EfiTime)
    requires t.year >= 1970 && ProperTime(t) && !Before(LAST_SECOND, t)
    ensures EfiTimeToEpoch32(t) < WORD && EpochToEfiTime32(EfiTimeToEpoch32(t), t) == t.(nanosecond := 0)
  {
    hide EpochToEfiTime, EpochToEfiTime32, EfiTimeToEpoch, EfiTimeToEpoch32, ProperTime, Before;
    UpToLastSecond(t);
    ExactUntilLastSecond(t);
    TimeFits(EfiTimeToEpoch(t), t);
    TimeRoundTrip(t);
  }

  lemma YearAndDayFits(J: nat)
    requires EPOCH_JULIAN_DATE <= J <= EPOCH_JULIAN_DATE + 49711
    ensures YearAndDay32(J) == YearAndDay(J) && YearAndDay(J).0 < 10000
  {
    hide Wrap, CenturyNumber, YearNumber, CenturyNumber32, YearNumber32, YearOfCentury32;
    var g, dg := (J + 32044) / 146097, (J + 32044) % 146097;
    var c := CenturyNumber(dg);
    var dc := dg - c * 36524;
    CenturyFits(dg);
    CenturyOf(dg, c, dc);
    YearOfCenturyFits(g, c, dc);
    assert Wrap(dg - Wrap(c * 36524)) == dc;
    assert YearAndDay32(J) == YearOfCentury32(g, c, dc);
  }

  lemma YearOfCenturyFits(g: nat, c: nat, dc: nat)
    requires g <= 17 && c <= 3 && dc <= 36524
    ensures var a := YearNumber(dc % 1461);
      && YearOfCentury32(g, c, dc) == (g * 400 + c * 100 + dc / 1461 * 4 + a, dc % 1461 - a * 365)
      && g * 400 + c * 100 + dc / 1461 * 4 + a < 10000
  {
    hide Wrap, YearNumber, YearNumber32;
    var b, db := dc / 1461, dc % 1461;
    QuarterOf(dc);
    YearFits(db);
    var a := YearNumber(db);
    YearOf(db, a, db - a * 365);
    YearSum(g, c, b, a);
    assert Wrap(db - Wrap(a * 365)) == db - a * 365;
  }

  lemma CenturyFits(dg: nat)
    requires dg < 146097
    ensures CenturyNumber32(dg) == CenturyNumber(dg)
  {
    hide Wrap;
    assert dg / 36524 <= 4;
  }

  lemma YearFits(db: nat)
    requires db < 1461
    ensures YearNumber32(db) == YearNumber(db)
  {
    hide Wrap;
    assert db / 365 <= 4;
  }

  lemma YearSum(g: nat, c: nat, b: nat, a: nat)
    requires g <= 17 && c <= 3 && b <= 24 && a <= 3
    ensures Wrap(Wrap(Wrap(Wrap(g * 400) + Wrap(c * 100)) + Wrap(b * 4)) + a) == g * 400 + c * 100 + b * 4 + a < 10000
    ensures Wrap(c * 36524) == c * 36524 && Wrap(a * 365) == a * 365
  {
    hide Wrap;
  }

  lemma MonthAndDayFits(y: nat, da: nat)
    requires 6769 <= y < 10000 && 0 <= da <= 365
    ensures MonthAndDay32(y, da) == MonthAndDay(y, da)
  {
    hide Wrap, MonthAndDay, MonthAndDay32;
    var m := ((da * 5 + 308) / 153) - 2;
    var s := ((m + 4) * 153) / 5;
    MonthOf(da, m, da - s + 122);
    MonthNumberFits(da, m);
    DayFits(da, s);
    MonthCarry(y, m);
    assert Wrap(m + 2) == m + 2;
    MonthAndDayParts(y, da, m, s);
  }

  lemma MonthAndDayParts(y: nat, da: nat, m: nat, s: nat)
    requires m == ((da * 5 + 308) / 153) - 2 && s == ((m + 4) * 153) / 5 && 0 <= da - s + 122
    requires Wrap(Wrap(Wrap(da * 5) + 308) / 153 - 2) == m && Wrap(Wrap(m + 4) * 153) == (m + 4) * 153
    requires Wrap(Wrap(da - s) + 122) == da - s + 122 && Wrap(da - s + 122 + 1) == da - s + 122 + 1
    requires Wrap(Wrap(y - 4800) + (m + 2) / 12) == y - 4800 + (m + 2) / 12 && Wrap(m + 2) == m + 2
    ensures MonthAndDay32(y, da) == MonthAndDay(y, da)
  {
    hide Wrap;
  }

  lemma MonthNumberFits(da: nat, m: int)
    requires da <= 365 && m == ((da * 5 + 308) / 153) - 2 && 0 <= m <= 11
    ensures Wrap(Wrap(Wrap(da * 5) + 308) / 153 - 2) == m
    ensures Wrap(Wrap(m + 4) * 153) == (m + 4) * 153
    ensures 0 <= ((m + 4) * 153) / 5 <= 459
  {
    hide Wrap;
  }

  lemma DayFits(da: nat, s: nat)
    requires 0 <= da - s + 122 && da <= 365 && s <= 459
    ensures Wrap(Wrap(da - s) + 122) == da - s + 122
    ensures Wrap(da - s + 122 + 1) == da - s + 122 + 1
  {
    WrapSum(da - s, 122);
    hide Wrap;
  }

  lemma MonthCarry(y: nat, m: nat)
    requires 6769 <= y < 10000 && m <= 11
    ensures Wrap(Wrap(y - 4800) + (m + 2) / 12) == y - 4800 + (m + 2) / 12
  {
    hide Wrap;
    assert (m + 2) / 12 <= 1;
  }
}
