/**
 * Civil UTC time and whole seconds since the Unix epoch.
 *
 * `calendar.timegm(x.utctimetuple())` drops the sub-second part of a timestamp
 * and returns the POSIX "Seconds Since the Epoch" value of the remaining civil
 * fields (POSIX.1-2017 Base Definitions, section 4.16). The model computes that
 * formula on the fields directly and proves it against an independent reference:
 * stepping a civil time forward by one second adds exactly one.
 */
module Epoch {

  /** A timestamp broken into civil UTC fields, as `utctimetuple` sees it. */
  datatype CivilTime = CivilTime(
    year: int, month: int, day: int,
    hour: int, minute: int, second: int,
    microsecond: int)

  /** 1970-01-01T00:00:00Z */
  const EPOCH := CivilTime(1970, 1, 1, 0, 0, 0, 0)

  predicate IsLeapYear(year: int) {
    year % 4 == 0 && (year % 100 != 0 || year % 400 == 0)
  }

  function DaysInYear(year: int): int {
    if IsLeapYear(year) then 366 else 365
  }

  function DaysInMonth(year: int, month: int): int
    requires 1 <= month <= 12
  {
    if month == 2 then (if IsLeapYear(year) then 29 else 28)
    else if month == 4 || month == 6 || month == 9 || month == 11 then 30
    else 31
  }

  /** The fields of a real `datetime`: every civil field within its range. */
  predicate Valid(t: CivilTime) {
    && 1 <= t.month <= 12
    && 1 <= t.day <= DaysInMonth(t.year, t.month)
    && 0 <= t.hour < 24
    && 0 <= t.minute < 60
    && 0 <= t.second < 60
    && 0 <= t.microsecond < 1000000
  }

  /** Days of the year that precede the first day of `month`. */
  function DaysBeforeMonth(year: int, month: int): int
    requires 1 <= month <= 12
  {
    [0, 31, 59, 90, 120, 151, 181, 212, 243, 273, 304, 334][month - 1]
      + (if month > 2 && IsLeapYear(year) then 1 else 0)
  }

  /** `tm_yday`: the day of the year counted from 0. */
  function YearDay(t: CivilTime): int
    requires Valid(t)
  {
    DaysBeforeMonth(t.year, t.month) + t.day - 1
  }

  /**
   * The POSIX formula, with `tm_year == year - 1900`. Divisions are floor
   * divisions, which is what `calendar.timegm` computes for every year; the
   * microsecond field takes no part.
   */
  function UnixTime(t: CivilTime): int
    requires Valid(t)
  {
    var y := t.year - 1900;
    t.second + t.minute * 60 + t.hour * 3600 + YearDay(t) * 86400
      + (y - 70) * 31536000 + ((y - 69) / 4) * 86400
      - ((y - 1) / 100) * 86400 + ((y + 299) / 400) * 86400
  }

  /** Days from 1970-01-01 to January 1st of `year`, the year part of the formula. */
  function YearStart(year: int): int {
    var y := year - 1900;
    (y - 70) * 365 + (y - 69) / 4 - (y - 1) / 100 + (y + 299) / 400
  }

  /** Strictly earlier, comparing the fields down to whole seconds. */
  predicate Before(a: CivilTime, b: CivilTime) {
    || a.year < b.year
    || (a.year == b.year && a.month < b.month)
    || (a.year == b.year && a.month == b.month && a.day < b.day)
    || (a.year == b.year && a.month == b.month && a.day == b.day && a.hour < b.hour)
    || (a.year == b.year && a.month == b.month && a.day == b.day && a.hour == b.hour
        && a.minute < b.minute)
    || (a.year == b.year && a.month == b.month && a.day == b.day && a.hour == b.hour
        && a.minute == b.minute && a.second < b.second)
  }

  /** The same instant at one-second resolution. */
  predicate SameSecond(a: CivilTime, b: CivilTime) {
    a.year == b.year && a.month == b.month && a.day == b.day
      && a.hour == b.hour && a.minute == b.minute && a.second == b.second
  }

  /** The civil time one second later, carrying into minutes, hours, days, months and years. */
  function Tick(t: CivilTime): (r: CivilTime)
    requires Valid(t)
    ensures Valid(r)
  {
    if t.second < 59 then t.(second := t.second + 1)
    else if t.minute < 59 then t.(second := 0, minute := t.minute + 1)
    else if t.hour < 23 then t.(second := 0, minute := 0, hour := t.hour + 1)
    else if t.day < DaysInMonth(t.year, t.month) then
      t.(second := 0, minute := 0, hour := 0, day := t.day + 1)
    else if t.month < 12 then
      t.(second := 0, minute := 0, hour := 0, day := 1, month := t.month + 1)
    else
      t.(second := 0, minute := 0, hour := 0, day := 1, month := 1, year := t.year + 1)
  }

  /** The civil time `n` seconds after `t`. */
  function TickN(t: CivilTime, n: nat): (r: CivilTime)
    requires Valid(t)
    ensures Valid(r)
  {
    if n == 0 then t else Tick(TickN(t, n - 1))
  }

  // ---------------------------------------------------------------------------
  // Arithmetic behind the formula

  /** Each leap term of the formula steps up by one exactly in the years it counts. */
  lemma FourYearTermStep(year: int)
    ensures (year - 1968) / 4 == (year - 1969) / 4 + (if year % 4 == 0 then 1 else 0)
  {
  }

  lemma CenturyTermStep(year: int)
    ensures (year - 1900) / 100 == (year - 1901) / 100 + (if year % 100 == 0 then 1 else 0)
  {
  }

  lemma FourCenturyTermStep(year: int)
    ensures (year - 1600) / 400 == (year - 1601) / 400 + (if year % 400 == 0 then 1 else 0)
  {
  }

  /** Consecutive year starts lie one year's length apart. */
  lemma YearStartNext(year: int)
    ensures YearStart(year + 1) == YearStart(year) + DaysInYear(year)
  {
    FourYearTermStep(year);
    CenturyTermStep(year);
    FourCenturyTermStep(year);
    LeapYearTerms(year);
    assert YearStart(year) == (year - 1970) * 365 + (year - 1969) / 4 - (year - 1901) / 100 + (year - 1601) / 400;
    assert YearStart(year + 1) == (year - 1969) * 365 + (year - 1968) / 4 - (year - 1900) / 100 + (year - 1600) / 400;
  }

  /** A year's length counts the three leap terms it triggers. */
  lemma LeapYearTerms(year: int)
    ensures DaysInYear(year) == 365 + (if year % 4 == 0 then 1 else 0) - (if year % 100 == 0 then 1 else 0)
                                    + (if year % 400 == 0 then 1 else 0)
  {
    if year % 400 == 0 {
      CenturyOfFourCenturies(year);
    }
    if year % 100 == 0 {
      FourOfCentury(year);
    }
  }

  lemma CenturyOfFourCenturies(year: int)
    requires year % 400 == 0
    ensures year % 100 == 0
  {
    var k := year / 400;
    assert year == 100 * (4 * k);
  }

  lemma FourOfCentury(year: int)
    requires year % 100 == 0
    ensures year % 4 == 0
  {
    var k := year / 100;
    assert year == 4 * (25 * k);
  }

  lemma {:induction false} YearStartMonotone(y1: int, y2: int)
    requires y1 < y2
    ensures YearStart(y1) + DaysInYear(y1) <= YearStart(y2)
    decreases y2 - y1
  {
    YearStartNext(y1);
    if y1 + 1 < y2 {
      YearStartMonotone(y1 + 1, y2);
    }
  }

  lemma DaysBeforeMonthNext(year: int, month: int)
    requires 1 <= month < 12
    ensures DaysBeforeMonth(year, month + 1) == DaysBeforeMonth(year, month) + DaysInMonth(year, month)
  {
  }

  lemma {:induction false} DaysBeforeMonthMonotone(year: int, m1: int, m2: int)
    requires 1 <= m1 < m2 <= 12
    ensures DaysBeforeMonth(year, m1) + DaysInMonth(year, m1) <= DaysBeforeMonth(year, m2)
    decreases m2 - m1
  {
    DaysBeforeMonthNext(year, m1);
    if m1 + 1 < m2 {
      DaysBeforeMonthMonotone(year, m1 + 1, m2);
    }
  }

  lemma YearDayBound(t: CivilTime)
    requires Valid(t)
    ensures 0 <= YearDay(t) < DaysInYear(t.year)
  {
  }

  /** The formula is a day count times 86400 plus the second of the day. */
  lemma UnixTimeSplit(t: CivilTime)
    requires Valid(t)
    ensures UnixTime(t) == (YearStart(t.year) + YearDay(t)) * 86400
                           + t.hour * 3600 + t.minute * 60 + t.second
  {
  }

  // ---------------------------------------------------------------------------
  // Properties of the conversion

  /** The epoch itself is second 0. */
  lemma UnixTimeOfEpoch()
    ensures UnixTime(EPOCH) == 0
  {
  }

  /** 2000-01-01T00:00:00Z is second 946684800. */
  lemma UnixTimeOfY2K()
    ensures Valid(CivilTime(2000, 1, 1, 0, 0, 0, 0))
    ensures UnixTime(CivilTime(2000, 1, 1, 0, 0, 0, 0)) == 946684800
  {
  }

  /** Sub-second fields are truncated away. */
  lemma UnixTimeIgnoresMicroseconds(t: CivilTime, us: int)
    requires Valid(t) && 0 <= us < 1000000
    ensures Valid(t.(microsecond := us))
    ensures UnixTime(t.(microsecond := us)) == UnixTime(t)
  {
  }

  /** One second later in civil time is one more second since the epoch. */
  lemma UnixTimeOfTick(t: CivilTime)
    requires Valid(t)
    ensures UnixTime(Tick(t)) == UnixTime(t) + 1
  {
    var u := Tick(t);
    UnixTimeSplit(t);
    UnixTimeSplit(u);
    if t.second < 59 || t.minute < 59 || t.hour < 23 {
    } else if t.day < DaysInMonth(t.year, t.month) {
    } else if t.month < 12 {
      DaysBeforeMonthNext(t.year, t.month);
    } else {
      YearStartNext(t.year);
      assert DaysBeforeMonth(t.year, 12) + 31 == DaysInYear(t.year);
    }
  }

  /** The conversion counts whole seconds: `n` seconds after `t` is `UnixTime(t) + n`. */
  lemma {:induction false} UnixTimeOfTickN(t: CivilTime, n: nat)
    requires Valid(t)
    ensures UnixTime(TickN(t, n)) == UnixTime(t) + n
  {
    if n > 0 {
      UnixTimeOfTickN(t, n - 1);
      UnixTimeOfTick(TickN(t, n - 1));
    }
  }

  /** The value at `n` seconds after the epoch is `n`. */
  lemma {:induction false} UnixTimeCountsFromEpoch(n: nat)
    ensures UnixTime(TickN(EPOCH, n)) == n
  {
    var e := EPOCH;
    assert UnixTime(TickN(e, n)) == UnixTime(e) + n by { UnixTimeOfTickN(e, n); }
    assert UnixTime(e) == 0 by { UnixTimeOfEpoch(); }
  }

  lemma BeforeIncreases(a: CivilTime, b: CivilTime)
    requires Valid(a) && Valid(b) && Before(a, b)
    ensures UnixTime(a) < UnixTime(b)
  {
    UnixTimeSplit(a);
    UnixTimeSplit(b);
    YearDayBound(a);
    if a.year < b.year {
      YearStartMonotone(a.year, b.year);
      YearDayBound(b);
    } else if a.month < b.month {
      DaysBeforeMonthMonotone(a.year, a.month, b.month);
    }
  }

  /**
   * The conversion is strictly increasing at one-second resolution, in both
   * directions: earlier civil time if and only if fewer seconds.
   */
  lemma UnixTimeOrder(a: CivilTime, b: CivilTime)
    requires Valid(a) && Valid(b)
    ensures Before(a, b) <==> UnixTime(a) < UnixTime(b)
    ensures SameSecond(a, b) <==> UnixTime(a) == UnixTime(b)
  {
    if Before(a, b) {
      BeforeIncreases(a, b);
    } else if Before(b, a) {
      BeforeIncreases(b, a);
    } else {
      assert SameSecond(a, b);
    }
  }
}
