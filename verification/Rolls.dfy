/** Rolling a date to a business day: `Calendar.adjust` of hdlib on the two calendars that
    `CalendarType.to_hdl_calendar` can return. */
module Rolls {
  import opened Dates

  datatype Calendar = NullCalendar | WesternCalendar

  datatype Convention =
    | Unadjusted
    | Following
    | ModifiedFollowing
    | HalfMonthModifiedFollowing
    | Preceding
    | ModifiedPreceding
    | Nearest

  predicate IsBusinessDay(cal: Calendar, d: Ordinal) {
    cal.NullCalendar? || !IsWeekend(d)
  }

  /** Every day is one on the null calendar, and Monday to Friday on the other. */
  lemma {:induction false} BusinessDaysAre(d: Ordinal)
    ensures IsBusinessDay(NullCalendar, d)
    ensures IsBusinessDay(WesternCalendar, d) <==> Weekday(d) < 5
  {
  }

  /** The first business day on or after `d`. */
  function RollForward(cal: Calendar, d: Ordinal): (r: Ordinal)
    ensures d <= r && IsBusinessDay(cal, r)
    ensures forall x: Ordinal :: d <= x < r ==> !IsBusinessDay(cal, x)
    ensures r == d + if IsBusinessDay(cal, d) then 0 else 7 - Weekday(d)
    decreases if IsBusinessDay(cal, d) then 0 else 7 - Weekday(d)
  {
    if IsBusinessDay(cal, d) then d else RollForward(cal, d + 1)
  }

  /** The last business day on or before `d`. */
  function RollBack(cal: Calendar, d: Ordinal): (r: Ordinal)
    ensures r <= d && IsBusinessDay(cal, r)
    ensures forall x: Ordinal :: r < x <= d ==> !IsBusinessDay(cal, x)
    ensures r == d - if IsBusinessDay(cal, d) then 0 else Weekday(d) - 4
    decreases if IsBusinessDay(cal, d) then 0 else Weekday(d)
  {
    if IsBusinessDay(cal, d) then d else RollBack(cal, d - 1)
  }

  /** The rolled day, stated by what each convention promises (section 4.12 of the 2006 ISDA
      Definitions); `AdjustDate` is the code's own search for it. */
  function Adjust(cal: Calendar, d: Ordinal, c: Convention): Ordinal {
    var f, p := RollForward(cal, d), RollBack(cal, d);
    match c
    case Unadjusted => d
    case Following => f
    case ModifiedFollowing => if MonthOf(f) == MonthOf(d) then f else p
    case HalfMonthModifiedFollowing => if HalfMonthOf(f) == HalfMonthOf(d) then f else p
    case Preceding => p
    case ModifiedPreceding => if MonthOf(p) == MonthOf(d) then p else f
    case Nearest => if f - d <= d - p then f else p
  }

  /** The loops of `Calendar.adjust`. */
  method AdjustDate(cal: Calendar, d: Ordinal, c: Convention) returns (r: Ordinal)
    ensures r == Adjust(cal, d, c)
    decreases c.ModifiedFollowing? || c.HalfMonthModifiedFollowing? || c.ModifiedPreceding?
  {
    var d1 := d;
    if c == Unadjusted {
      return d1;
    }
    if c == Following || c == ModifiedFollowing || c == HalfMonthModifiedFollowing {
      while !IsBusinessDay(cal, d1)
        invariant d <= d1 <= RollForward(cal, d)
        decreases RollForward(cal, d) - d1
      {
        d1 := d1 + 1;
      }
      assert d1 == RollForward(cal, d);
      if c == ModifiedFollowing || c == HalfMonthModifiedFollowing {
        HalfMonthCrossed(d, d1);
        if MonthOf(d1) != MonthOf(d) {
          r := AdjustDate(cal, d, Preceding);
          return;
        }
        if c == HalfMonthModifiedFollowing {
          if DayOfMonth(d) <= 15 && 15 < DayOfMonth(d1) {
            r := AdjustDate(cal, d, Preceding);
            return;
          }
        }
      }
    } else if c == Preceding || c == ModifiedPreceding {
      while !IsBusinessDay(cal, d1)
        invariant RollBack(cal, d) <= d1 <= d
        decreases d1
      {
        d1 := d1 - 1;
      }
      assert d1 == RollBack(cal, d);
      if c == ModifiedPreceding && MonthOf(d1) != MonthOf(d) {
        r := AdjustDate(cal, d, Following);
        return;
      }
    } else {
      d1 := NearestDate(cal, d);
    }
    return d1;
  }

  /** The two-sided search of the NEAREST branch. */
  method NearestDate(cal: Calendar, d: Ordinal) returns (r: Ordinal)
    ensures r == Adjust(cal, d, Nearest)
  {
    var d1, d2 := d, d;
    while !IsBusinessDay(cal, d1) && !IsBusinessDay(cal, d2)
      invariant d <= d1 <= RollForward(cal, d) && RollBack(cal, d) <= d2 <= d
      invariant d1 - d == d - d2
      decreases d2
    {
      d1 := d1 + 1;
      d2 := d2 - 1;
    }
    if !IsBusinessDay(cal, d1) {
      return d2;
    }
    return d1;
  }

  /** The code's two tests for leaving the half month, on a day not before `d`. */
  lemma {:induction false} HalfMonthCrossed(d: Ordinal, f: Ordinal)
    requires d <= f
    ensures HalfMonthOf(f) != HalfMonthOf(d)
            <==> MonthOf(f) != MonthOf(d) || (DayOfMonth(d) <= 15 && 15 < DayOfMonth(f))
  {
  }

  /** Every convention but `Unadjusted` pays on a business day. */
  lemma {:induction false} AdjustLandsOnBusinessDay(cal: Calendar, d: Ordinal, c: Convention)
    ensures c != Unadjusted ==> IsBusinessDay(cal, Adjust(cal, d, c))
    ensures IsBusinessDay(cal, d) ==> Adjust(cal, d, c) == d
    ensures -2 <= Adjust(cal, d, c) - d <= 2
  {
  }

  /** `Nearest` is nearest, and a tie goes to the later day. */
  lemma {:induction false} NearestIsClosest(cal: Calendar, d: Ordinal, b: Ordinal)
    requires IsBusinessDay(cal, b)
    ensures var r := Adjust(cal, d, Nearest);
            if b < d then (if r < d then d - r <= d - b else r - d <= d - b)
            else (if r < d then d - r < b - d else r - d <= b - d)
  {
  }

  /** No business day separates a day's two roll targets, so a business day on one side of
      `d`'s gap lies beyond the target on that side. */
  lemma {:induction false} GapsAreEmpty(cal: Calendar, d: Ordinal, b: Ordinal)
    requires IsBusinessDay(cal, b)
    ensures RollBack(cal, d) < b ==> RollForward(cal, d) <= b
    ensures b < RollForward(cal, d) ==> b <= RollBack(cal, d)
  {
  }

  lemma {:induction false} RollsAscend(cal: Calendar, d: Ordinal, e: Ordinal)
    requires d <= e
    ensures RollForward(cal, d) <= RollForward(cal, e)
    ensures RollBack(cal, d) <= RollBack(cal, e)
  {
  }

  /** A later day never rolls to an earlier one. */
  lemma {:induction false} AdjustMonotone(cal: Calendar, d: Ordinal, e: Ordinal, c: Convention)
    requires d <= e
    ensures Adjust(cal, d, c) <= Adjust(cal, e, c)
  {
    hide MonthOf, MonthStart, DayOfMonth, HalfMonthOf, RollForward, RollBack, IsWeekend;
    RollsAscend(cal, d, e);
    var fd, fe, pd, pe := RollForward(cal, d), RollForward(cal, e), RollBack(cal, d), RollBack(cal, e);
    GapsAreEmpty(cal, e, fd);
    GapsAreEmpty(cal, d, pe);
    MonthsAscend(d, e);
    MonthsAscend(e, fe);
    MonthsAscend(pd, d);
  }

  /** The modified conventions keep a payment in its own month, and the half-month one in
      its own half of the month. */
  lemma {:induction false} ModifiedStaysInPeriod(cal: Calendar, d: Ordinal)
    ensures MonthOf(Adjust(cal, d, ModifiedFollowing)) == MonthOf(d)
    ensures MonthOf(Adjust(cal, d, ModifiedPreceding)) == MonthOf(d)
    ensures HalfMonthOf(Adjust(cal, d, HalfMonthModifiedFollowing)) == HalfMonthOf(d)
  {
    var f, p := RollForward(cal, d), RollBack(cal, d);
    var m := MonthOf(d);
    MonthsAscend(p, d);
    MonthsAscend(d, f);
    if f != d {
      assert f - p <= 3;
    }
    InMonth(f, m);
    InMonth(p, m);
  }

  lemma {:induction false} InMonth(d: Ordinal, m: nat)
    ensures MonthOf(d) == m <==> MonthStart(m) <= d < MonthStart(m + 1)
  {
    if MonthOf(d) < m {
      MonthStartsAscend(MonthOf(d) + 1, m);
    } else if m < MonthOf(d) {
      MonthStartsAscend(m + 1, MonthOf(d));
    }
  }

  // ---------- what the conventions promise, without their definition ----------

  /** `p` is the least business day on or after `d`. */
  ghost predicate IsFirstFrom(cal: Calendar, d: Ordinal, p: Ordinal) {
    d <= p && IsBusinessDay(cal, p) && forall x: Ordinal :: d <= x < p ==> !IsBusinessDay(cal, x)
  }

  /** `p` is the greatest business day on or before `d`. */
  ghost predicate IsLastUpTo(cal: Calendar, d: Ordinal, p: Ordinal) {
    p <= d && IsBusinessDay(cal, p) && forall x: Ordinal :: p < x <= d ==> !IsBusinessDay(cal, x)
  }

  function Distance(d: Ordinal, e: Ordinal): nat {
    if d <= e then e - d else d - e
  }

  /** `p` is a business day that none is closer than, and the later one of a tie. */
  ghost predicate IsNearest(cal: Calendar, d: Ordinal, p: Ordinal) {
    && IsBusinessDay(cal, p)
    && forall x: Ordinal :: IsBusinessDay(cal, x) ==>
         Distance(d, p) < Distance(d, x) || (Distance(d, p) == Distance(d, x) && x <= p)
  }

  /** A day that convention `c` may roll `d` to, as the 2006 ISDA Definitions word it: the modified conventions
      go to the other side only when no day on their own side is left in the period. */
  ghost predicate IsRolled(cal: Calendar, c: Convention, d: Ordinal, p: Ordinal) {
    match c
    case Unadjusted => p == d
    case Following => IsFirstFrom(cal, d, p)
    case Preceding => IsLastUpTo(cal, d, p)
    case Nearest => IsNearest(cal, d, p)
    case ModifiedFollowing =>
      if exists x: Ordinal :: IsFirstFrom(cal, d, x) && MonthOf(x) == MonthOf(d) then IsFirstFrom(cal, d, p)
      else IsLastUpTo(cal, d, p)
    case HalfMonthModifiedFollowing =>
      if exists x: Ordinal :: IsFirstFrom(cal, d, x) && HalfMonthOf(x) == HalfMonthOf(d) then IsFirstFrom(cal, d, p)
      else IsLastUpTo(cal, d, p)
    case ModifiedPreceding =>
      if exists x: Ordinal :: IsLastUpTo(cal, d, x) && MonthOf(x) == MonthOf(d) then IsLastUpTo(cal, d, p)
      else IsFirstFrom(cal, d, p)
  }

  lemma {:induction false} RollsAreExtreme(cal: Calendar, d: Ordinal, x: Ordinal)
    ensures IsFirstFrom(cal, d, x) <==> x == RollForward(cal, d)
    ensures IsLastUpTo(cal, d, x) <==> x == RollBack(cal, d)
  {
  }

  lemma {:induction false} NearestIsNearest(cal: Calendar, d: Ordinal)
    ensures IsNearest(cal, d, Adjust(cal, d, Nearest))
  {
    AdjustLandsOnBusinessDay(cal, d, Nearest);
    hide RollForward, RollBack, IsWeekend, Adjust;
    forall x: Ordinal | IsBusinessDay(cal, x)
      ensures var p := Adjust(cal, d, Nearest);
              Distance(d, p) < Distance(d, x) || (Distance(d, p) == Distance(d, x) && x <= p)
    {
      NearestIsClosest(cal, d, x);
    }
  }

  /** Every convention rolls a day to what it promises, and to no other day. */
  lemma {:induction false} AdjustIsRolled(cal: Calendar, c: Convention, d: Ordinal, p: Ordinal)
    ensures IsRolled(cal, c, d, p) <==> p == Adjust(cal, d, c)
  {
    hide MonthOf, HalfMonthOf, IsFirstFrom, IsLastUpTo, IsNearest, RollForward, RollBack, IsBusinessDay;
    forall x: Ordinal
      ensures IsFirstFrom(cal, d, x) <==> x == RollForward(cal, d)
      ensures IsLastUpTo(cal, d, x) <==> x == RollBack(cal, d)
    {
      RollsAreExtreme(cal, d, x);
    }
    if c == Nearest {
      NearestIsNearest(cal, d);
      if IsNearest(cal, d, p) {
        OneNearest(cal, d, p, Adjust(cal, d, c));
      }
    }
  }

  lemma {:induction false} OneNearest(cal: Calendar, d: Ordinal, p: Ordinal, q: Ordinal)
    requires IsNearest(cal, d, p) && IsNearest(cal, d, q)
    ensures p == q
  {
    hide IsBusinessDay;
  }

  lemma {:induction false} UnadjustedStays()
    ensures forall d: Ordinal {:trigger Adjust(NullCalendar, d, Unadjusted)} :: Adjust(NullCalendar, d, Unadjusted) == d
  {
  }
}
