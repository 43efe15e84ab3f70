/**
 * The proleptic Gregorian calendar over integer day numbers, day 0 being
 * 1 January 1970 (a Thursday). This is the part of `Date` the week
 * computation needs: the year a day falls in, the day 1 January of a year
 * falls on, and the day of the week.
 */
module Calendar {
  const MsPerDay := 86400000
  const EpochYear := 1970

  predicate IsLeapYear(y: int)
  {
    y % 4 == 0 && (y % 100 != 0 || y % 400 == 0)
  }

  function YearLength(y: int): int
  {
    if IsLeapYear(y) then 366 else 365
  }

  /** The day number of 1 January of year `y`. */
  function YearStart(y: int): int
    decreases if y >= EpochYear then y - EpochYear else EpochYear - y
  {
    if y == EpochYear then 0
    else if y > EpochYear then YearStart(y - 1) + YearLength(y - 1)
    else YearStart(y + 1) - YearLength(y)
  }

  lemma YearStartStep(y: int)
    ensures YearStart(y + 1) == YearStart(y) + YearLength(y)
  {
  }

  /** Later years start later, by at least 365 days a year. */
  lemma {:induction false} YearStartGrows(a: int, b: int)
    requires a <= b
    ensures YearStart(a) + 365 * (b - a) <= YearStart(b)
    decreases b - a
  {
    if a < b {
      YearStartGrows(a, b - 1);
      YearStartStep(b - 1);
    }
  }

  /** Years are at most 366 days long, so `EpochYear + k` starts no later than day 366k (365k backwards). */
  lemma {:induction false} YearStartBounded(k: int)
    ensures k >= 0 ==> YearStart(EpochYear + k) <= 366 * k
    ensures k <= 0 ==> YearStart(EpochYear + k) <= 365 * k
    decreases if k >= 0 then k else -k
  {
    if k > 0 {
      YearStartBounded(k - 1);
      YearStartStep(EpochYear + k - 1);
    } else if k < 0 {
      YearStartBounded(k + 1);
      YearStartStep(EpochYear + k);
    }
  }

  function YearFrom(d: int, y: int): (r: int)
    requires YearStart(y) <= d
    ensures YearStart(r) <= d < YearStart(r + 1)
    decreases d - YearStart(y)
  {
    YearStartStep(y);
    if d < YearStart(y + 1) then y else YearFrom(d, y + 1)
  }

  /** `getFullYear()`: the year day `d` falls in. */
  function YearOf(d: int): (y: int)
    ensures YearStart(y) <= d < YearStart(y + 1)
  {
    var k := if d >= 0 then d / 366 else d / 365;
    YearStartBounded(k);
    YearFrom(d, EpochYear + k)
  }

  /** A day belongs to exactly one year. */
  lemma YearOfUnique(d: int, y: int)
    requires YearStart(y) <= d < YearStart(y + 1)
    ensures YearOf(d) == y
  {
    var z := YearOf(d);
    if z < y {
      YearStartGrows(z + 1, y);
    } else if y < z {
      YearStartGrows(y + 1, z);
    }
  }

  /** `getDay()`: 0 for Sunday up to 6 for Saturday. */
  function JsDay(d: int): (w: int)
    ensures 0 <= w < 7
  {
    (d + 4) % 7
  }

  /** Day 0, 1 January 1970, is a Thursday, and Sundays are the days 3 modulo 7. */
  lemma JsDayAnchors(d: int)
    ensures JsDay(0) == 4
    ensures JsDay(d) == 0 <==> d % 7 == 3
  {
  }

  /** The ISO 8601 weekday index, 0 for Monday up to 6 for Sunday: `(getDay() + 6) % 7`. */
  function IsoWeekday(d: int): (w: int)
    ensures 0 <= w < 7
    ensures w == (d + 3) % 7
  {
    (JsDay(d) + 6) % 7
  }

  /** Moving `k` days on moves the weekday `k` places on, modulo 7. */
  lemma IsoWeekdayShift(d: int, k: int)
    ensures IsoWeekday(d + k) == (IsoWeekday(d) + k) % 7
  {
    var w := IsoWeekday(d);
    var q := (d + 3) / 7;
    var q' := (w + k) / 7;
    assert d + k + 3 == 7 * (q + q') + (w + k) % 7;
  }

  /** Two days on the same weekday are a whole number of weeks apart. */
  lemma SameWeekdayWeeksApart(a: int, b: int)
    requires IsoWeekday(a) == IsoWeekday(b)
    ensures (a - b) % 7 == 0
  {
  }

  /** Two days on the same weekday less than a week apart are the same day. */
  lemma SameWeekdayClose(a: int, b: int)
    requires IsoWeekday(a) == IsoWeekday(b)
    requires -7 < a - b < 7
    ensures a == b
  {
    SameWeekdayWeeksApart(a, b);
  }

  /** The day number of a time value at midnight, and back. */
  lemma MidnightDay(k: int)
    ensures (k * MsPerDay) / MsPerDay == k
  {
  }
}
