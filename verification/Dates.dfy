/** Instants, days and months, as Python's proleptic Gregorian `datetime` counts them. */
module Dates {

  /** Microseconds in a day, the resolution of `datetime`. */
  const DAY: int := 86_400_000_000

  /** A day number: `date.toordinal()`, where day 1 is Monday, 1 January of year 1. */
  type Ordinal = d: int | 1 <= d witness 1

  /** A UTC instant, in microseconds; the first one is midnight of day 1. */
  type Instant = t: int | DAY <= t witness DAY

  function DayOf(t: Instant): Ordinal {
    t / DAY
  }

  function Midnight(d: Ordinal): Instant {
    d * DAY
  }

  /** 23:59:59.999999 of day `d`. */
  function EndOfDay(d: Ordinal): Instant {
    d * DAY + (DAY - 1)
  }

  /** `timedelta.days`: whole days, rounded down. */
  function WholeDays(delta: int): int {
    delta / DAY
  }

  /** `date.weekday()`: Monday is 0 and Sunday is 6. */
  function Weekday(d: Ordinal): int {
    (d + 6) % 7
  }

  predicate IsWeekend(d: Ordinal) {
    5 <= Weekday(d)
  }

  predicate IsWeekday(d: Ordinal) {
    !IsWeekend(d)
  }

  predicate IsLeap(y: int) {
    y % 4 == 0 && (y % 100 != 0 || y % 400 == 0)
  }

  /** The length of the `k`-th month, counted from January of year 1. */
  function MonthDays(k: nat): (n: int)
    ensures 28 <= n <= 31
  {
    if k % 12 == 1 then (if IsLeap(k / 12 + 1) then 29 else 28)
    else if k % 12 in {3, 5, 8, 10} then 30
    else 31
  }

  /** The first day of the `k`-th month. */
  function MonthStart(k: nat): int {
    if k == 0 then 1 else MonthStart(k - 1) + MonthDays(k - 1)
  }

  /** The month that day `d` falls in, searched upwards from month `k`. */
  function MonthFrom(d: Ordinal, k: nat): (m: nat)
    requires MonthStart(k) <= d
    ensures k <= m && MonthStart(m) <= d < MonthStart(m + 1)
    decreases d - MonthStart(k)
  {
    if d < MonthStart(k + 1) then k else MonthFrom(d, k + 1)
  }

  function MonthOf(d: Ordinal): (m: nat)
    ensures MonthStart(m) <= d < MonthStart(m + 1)
  {
    MonthFrom(d, 0)
  }

  function DayOfMonth(d: Ordinal): (r: int)
    ensures 1 <= r <= 31
  {
    d - MonthStart(MonthOf(d)) + 1
  }

  /** Months cut in two after the 15th. */
  function HalfMonthOf(d: Ordinal): nat {
    2 * MonthOf(d) + if 15 < DayOfMonth(d) then 1 else 0
  }

  lemma {:induction false} MonthStartsAscend(k: nat, m: nat)
    requires k <= m
    ensures MonthStart(k) <= MonthStart(m)
  {
    if k < m {
      MonthStartsAscend(k, m - 1);
    }
  }

  lemma {:induction false} MonthsAscend(d: Ordinal, e: Ordinal)
    requires d <= e
    ensures MonthOf(d) <= MonthOf(e)
    ensures HalfMonthOf(d) <= HalfMonthOf(e)
  {
    if MonthOf(e) < MonthOf(d) {
      MonthStartsAscend(MonthOf(e) + 1, MonthOf(d));
    }
  }

  // ---------- the civil calendar ----------

  /** Days of a common year before its `m`-th month. */
  const DAYS_BEFORE_MONTH: seq<int> := [0, 31, 59, 90, 120, 151, 181, 212, 243, 273, 304, 334]

  /** The leap years among the first `y` years: every fourth, but of the hundredth ones only every fourth. */
  function LeapDays(y: nat): int {
    Multiples(y, 4) - Multiples(y, 100) + Multiples(y, 400)
  }

  function Multiples(y: nat, n: nat): nat
    requires 0 < n
  {
    y / n
  }

  /** The first of month `m` of year `y + 1`, counted by whole years and a table. */
  function CivilMonthStart(y: nat, m: nat): int
    requires m < 12
  {
    365 * y + LeapDays(y) + 1 + DAYS_BEFORE_MONTH[m] + if 2 <= m then LeapDays(y + 1) - LeapDays(y) else 0
  }

  lemma {:induction false} NextMultiple4(y: nat)
    ensures Multiples(y + 1, 4) == Multiples(y, 4) + if (y + 1) % 4 == 0 then 1 else 0
  {
  }

  lemma {:induction false} NextMultiple100(y: nat)
    ensures Multiples(y + 1, 100) == Multiples(y, 100) + if (y + 1) % 100 == 0 then 1 else 0
  {
  }

  lemma {:induction false} NextMultiple400(y: nat)
    ensures Multiples(y + 1, 400) == Multiples(y, 400) + if (y + 1) % 400 == 0 then 1 else 0
  {
  }

  lemma {:induction false} FourTimes(z: nat)
    ensures (4 * z) % 4 == 0
  {
  }

  lemma {:induction false} HundredTimes(z: nat)
    ensures (100 * z) % 100 == 0
  {
  }

  lemma {:induction false} HundredsAreFours(y: nat)
    requires y % 100 == 0
    ensures y % 4 == 0
  {
    var z := y / 100;
    FourTimes(25 * z);
    assert y == 100 * z == 4 * (25 * z);
  }

  lemma {:induction false} FourHundredsAreHundreds(y: nat)
    requires y % 400 == 0
    ensures y % 100 == 0
  {
    var z := y / 400;
    HundredTimes(4 * z);
    assert y == 400 * z == 100 * (4 * z);
  }

  lemma {:induction false} LeapYears(y: nat)
    ensures LeapDays(y + 1) == LeapDays(y) + if IsLeap(y + 1) then 1 else 0
  {
    hide Multiples;
    NextMultiple4(y);
    NextMultiple100(y);
    NextMultiple400(y);
    if (y + 1) % 100 == 0 {
      HundredsAreFours(y + 1);
    }
    if (y + 1) % 400 == 0 {
      FourHundredsAreHundreds(y + 1);
    }
  }

  /** The length of month `m` of year `y + 1`. */
  lemma {:induction false} MonthLength(y: nat, m: nat)
    requires m < 12
    ensures MonthDays(12 * y + m)
            == if m == 1 then (if IsLeap(y + 1) then 29 else 28)
               else if m == 11 then 31 else DAYS_BEFORE_MONTH[m + 1] - DAYS_BEFORE_MONTH[m]
  {
    hide IsLeap;
    assert (12 * y + m) / 12 == y && (12 * y + m) % 12 == m;
  }

  /** Counting month by month from year 1 gives the Gregorian calendar. */
  lemma {:induction false} MonthsAreCivil(y: nat, m: nat)
    requires m < 12
    ensures MonthStart(12 * y + m) == CivilMonthStart(y, m)
    decreases y, m
  {
    hide MonthDays, IsLeap, LeapDays;
    NoLeapDays();
    if 0 < m {
      MonthsAreCivil(y, m - 1);
      MonthLength(y, m - 1);
      LeapYears(y);
    } else if 0 < y {
      MonthsAreCivil(y - 1, 11);
      MonthLength(y - 1, 11);
      LeapYears(y - 1);
    }
  }

  lemma {:induction false} NoLeapDays()
    ensures LeapDays(0) == 0
  {
  }

  /** Day 1 is a Monday, the days of the week follow each other, and the last two are the weekend. */
  lemma {:induction false} DaysOfTheWeek(d: Ordinal)
    ensures Weekday(1) == 0 && Weekday(d + 1) == (Weekday(d) + 1) % 7
    ensures IsWeekend(d) <==> Weekday(d) == 5 || Weekday(d) == 6
    ensures IsWeekday(d) <==> Weekday(d) < 5
  {
  }
}
