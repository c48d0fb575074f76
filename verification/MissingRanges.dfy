/** Coalescing missing business days into ranges (`extract_incorrect_date` and
    `convert_missing_dates_to_ranges`). */
module MissingRanges {
  import opened Wrappers
  import opened Dates
  import Sorting

  /** A row of the summary. */
  datatype Range = Range(number: nat, start: Ordinal, end: Ordinal)

  function Span(from: int, to: int): int {
    to - from + 1
  }

  /** `bdate_range(from, to)`. */
  function BusinessDays(from: Ordinal, to: int): seq<Ordinal>
    decreases Span(from, to)
  {
    if to < from then [] else (if IsWeekday(from) then [from] else []) + BusinessDays(from + 1, to)
  }

  function NextBusinessDay(d: Ordinal): Ordinal {
    if Weekday(d) == 4 then d + 3 else if Weekday(d) == 5 then d + 2 else d + 1
  }

  /** The `transition` column: the day does not follow the one before it. */
  predicate Transition(days: seq<Ordinal>, i: nat)
    requires i < |days|
  {
    && 0 < i
    && if Weekday(days[i]) != 0 then days[i] > days[i - 1] + 1 else days[i] > days[i - 1] + 3
  }

  /** Business days in strictly increasing order: what `extract_incorrect_date` reports missing. */
  ghost predicate AreBusinessDays(days: seq<Ordinal>) {
    && (forall i :: 0 <= i < |days| ==> IsWeekday(days[i]))
    && forall i, j :: 0 <= i < j < |days| ==> days[i] < days[j]
  }

  /** The day-name test finds exactly the gaps in the business-day calendar. */
  lemma {:induction false} TransitionIsGap(days: seq<Ordinal>, i: nat)
    requires AreBusinessDays(days) && 0 < i < |days|
    ensures Transition(days, i) <==> NextBusinessDay(days[i - 1]) < days[i]
    ensures !Transition(days, i) <==> days[i] == NextBusinessDay(days[i - 1])
  {
  }

  lemma {:induction false} NextIsNext(d: Ordinal)
    ensures d < NextBusinessDay(d) && IsWeekday(NextBusinessDay(d))
    ensures forall x: Ordinal :: d < x < NextBusinessDay(d) ==> !IsWeekday(x)
  {
  }

  lemma {:induction false} OnlyTheLast(from: Ordinal, to: Ordinal)
    requires from <= to && IsWeekday(to) && forall x: Ordinal :: from <= x < to ==> !IsWeekday(x)
    ensures BusinessDays(from, to) == [to]
    decreases Span(from, to)
  {
    hide IsWeekday;
    if from < to {
      OnlyTheLast(from + 1, to);
    } else {
      assert BusinessDays(from + 1, to) == [];
    }
  }

  lemma {:induction false} BusinessDaysGrow(from: Ordinal, d: Ordinal)
    requires from <= d && IsWeekday(d)
    ensures BusinessDays(from, NextBusinessDay(d)) == BusinessDays(from, d) + [NextBusinessDay(d)]
    decreases Span(from, d)
  {
    hide IsWeekday, NextBusinessDay;
    NextIsNext(d);
    if from == d {
      OnlyTheLast(d + 1, NextBusinessDay(d));
      OnlyTheLast(d, d);
    } else {
      BusinessDaysGrow(from + 1, d);
    }
  }

  /** A run without transitions is all the business days from its first to its last. */
  lemma {:induction false} RunIsAllBusinessDays(days: seq<Ordinal>, first: nat, last: nat)
    requires AreBusinessDays(days) && first <= last < |days|
    requires forall i :: first < i <= last ==> !Transition(days, i)
    ensures BusinessDays(days[first], days[last]) == days[first..last + 1]
  {
    if first < last {
      RunIsAllBusinessDays(days, first, last - 1);
      TransitionIsGap(days, last);
      assert days[first] <= days[last - 1];
      BusinessDaysGrow(days[first], days[last - 1]);
    } else {
      assert BusinessDays(days[first], days[first]) == [days[first]] + BusinessDays(days[first] + 1, days[first]);
    }
  }

  /** The business days of the ranges, one range after the other. */
  function Expanded(ranges: seq<Range>): seq<Ordinal> {
    if ranges == [] then []
    else Expanded(ranges[..|ranges| - 1]) + BusinessDays(ranges[|ranges| - 1].start, ranges[|ranges| - 1].end)
  }

  /** Ranges numbered 1, 2, 3, ..., in order, each from a business day to a business day, with at least one
      business day between neighbours. */
  ghost predicate Separate(ranges: seq<Range>) {
    && (forall i :: 0 <= i < |ranges| ==>
          && ranges[i].number == i + 1 && ranges[i].start <= ranges[i].end
          && IsWeekday(ranges[i].start) && IsWeekday(ranges[i].end))
    && forall i :: 0 < i < |ranges| ==> NextBusinessDay(ranges[i - 1].end) < ranges[i].start
  }

  /** The ranges so far cover the days before `s`, and an unbroken run leads from `s` to `idx`. */
  ghost predicate InRun(days: seq<Ordinal>, ranges: seq<Range>, s: nat, idx: nat) {
    && s <= idx < |days| && Expanded(ranges) == days[..s] && Separate(ranges)
    && (forall i :: s < i <= idx ==> !Transition(days, i))
    && (ranges == [] <==> s == 0) && (0 < s ==> Transition(days, s))
    && (0 < s && ranges != [] ==> ranges[|ranges| - 1].end == days[s - 1])
  }

  lemma {:induction false} RunStarts(days: seq<Ordinal>)
    requires days != []
    ensures InRun(days, [], 0, 0)
  {
  }

  lemma {:induction false} RunGoesOn(days: seq<Ordinal>, ranges: seq<Range>, s: nat, idx: nat)
    requires InRun(days, ranges, s, idx) && idx + 1 < |days| && !Transition(days, idx + 1)
    ensures InRun(days, ranges, s, idx + 1)
  {
  }

  /** Closing the run gives a range that expands to it. */
  lemma {:induction false} RunCloses(days: seq<Ordinal>, ranges: seq<Range>, s: nat, idx: nat)
    requires AreBusinessDays(days) && InRun(days, ranges, s, idx)
    ensures Transition(days, idx) ==> s == idx
    ensures var more := ranges + [Range(|ranges| + 1, days[s], days[idx])];
            && Separate(more) && Expanded(more) == days[..idx + 1]
            && (idx + 1 < |days| && Transition(days, idx + 1) ==> InRun(days, more, idx + 1, idx + 1))
  {
    hide IsWeekday, NextBusinessDay, Transition;
    RunIsAllBusinessDays(days, s, idx);
    var more := ranges + [Range(|ranges| + 1, days[s], days[idx])];
    assert more[..|ranges|] == ranges;
    assert days[..s] + days[s..idx + 1] == days[..idx + 1];
    if 0 < s {
      TransitionIsGap(days, s);
    }
    assert s < idx ==> days[s] < days[idx];
  }

  function DayNumber(d: Ordinal): real {
    d as real
  }

  /** `sort_index` */
  function SortIndex(days: seq<Ordinal>): seq<Ordinal> {
    Sorting.SortBy(days, DayNumber)
  }

  ghost predicate DistinctDays(days: seq<Ordinal>) {
    forall i, j :: 0 <= i < j < |days| ==> days[i] != days[j]
  }

  lemma {:induction false} DistinctIffOnce(days: seq<Ordinal>)
    ensures DistinctDays(days) <==> forall d :: d in days ==> multiset(days)[d] == 1
  {
    if days != [] {
      var front, last := days[..|days| - 1], days[|days| - 1];
      assert days == front + [last];
      DistinctIffOnce(front);
      if DistinctDays(days) {
        assert last !in front;
      } else if DistinctDays(front) {
        assert last in front;
        assert multiset(days)[last] == multiset(front)[last] + 1;
      } else {
        var d :| d in front && multiset(front)[d] != 1;
        assert multiset(days)[d] != 1;
      }
    }
  }

  lemma {:induction false} RearrangedStaysDistinct(days: seq<Ordinal>, others: seq<Ordinal>)
    requires multiset(days) == multiset(others) && DistinctDays(days)
    ensures DistinctDays(others)
    ensures forall d :: d in others ==> d in days
  {
    hide DistinctDays;
    DistinctIffOnce(days);
    DistinctIffOnce(others);
    forall d | d in others
      ensures d in days && multiset(others)[d] == 1
    {
      assert d in multiset(days);
    }
  }

  /** Sorting keeps every day as often, and puts distinct business days in strictly increasing order. */
  lemma {:induction false} SortIndexSorts(days: seq<Ordinal>)
    ensures multiset(SortIndex(days)) == multiset(days)
    ensures DistinctDays(days) && (forall d :: d in days ==> IsWeekday(d)) ==> AreBusinessDays(SortIndex(days))
  {
    hide IsWeekday;
    Sorting.SortSorts(days, DayNumber);
    if DistinctDays(days) && forall d :: d in days ==> IsWeekday(d) {
      var sorted := SortIndex(days);
      RearrangedStaysDistinct(days, sorted);
      forall i, j | 0 <= i < j < |sorted|
        ensures sorted[i] < sorted[j]
      {
        assert DayNumber(sorted[i]) <= DayNumber(sorted[j]);
      }
      forall i | 0 <= i < |sorted|
        ensures IsWeekday(sorted[i])
      {
        assert sorted[i] in sorted;
      }
    }
  }

  lemma {:induction false} SortedAlready(days: seq<Ordinal>)
    requires AreBusinessDays(days)
    ensures SortIndex(days) == days
  {
    Sorting.SortedStays(days, DayNumber);
  }

  /** `convert_missing_dates_to_ranges`, on distinct business days in any order: expanding the ranges gives
      back exactly the days, sorted, and the ranges are separate, so none could be longer. */
  method ConvertMissingDatesToRanges(index: seq<Ordinal>) returns (ranges: seq<Range>)
    requires DistinctDays(index) && forall d :: d in index ==> IsWeekday(d)
    ensures Expanded(ranges) == SortIndex(index)
    ensures AreBusinessDays(Expanded(ranges)) && multiset(Expanded(ranges)) == multiset(index)
    ensures Separate(ranges)
  {
    SortIndexSorts(index);
    ranges := CoalesceSorted(SortIndex(index));
  }

  /** The loop over the sorted days. */
  method CoalesceSorted(days: seq<Ordinal>) returns (ranges: seq<Range>)
    requires AreBusinessDays(days)
    ensures Expanded(ranges) == days
    ensures Separate(ranges)
  {
    hide InRun, Transition, AreBusinessDays;
    ranges := [];
    if |days| == 0 {
      return;
    }
    var r: nat := 1;
    var startDate, endDate := days[0], days[0];
    ghost var s := 0;
    RunStarts(days);
    for idx := 0 to |days|
      invariant r == |ranges| + 1
      invariant idx < |days| ==> s <= idx && startDate == days[s] && InRun(days, ranges, s, idx)
      invariant idx == |days| ==> Expanded(ranges) == days && Separate(ranges)
    {
      RunCloses(days, ranges, s, idx);
      if idx == |days| - 1 {
        endDate := days[idx];
        ranges := ranges + [Range(r, startDate, endDate)];
        r := r + 1;
        assert days[..idx + 1] == days;
        return;
      }
      var transition, nextTransition := Transition(days, idx), Transition(days, idx + 1);
      if !transition && nextTransition {
        endDate := days[idx];
        ranges := ranges + [Range(r, startDate, endDate)];
        r := r + 1;
        startDate := days[idx + 1];
        s := idx + 1;
      } else if transition && nextTransition {
        endDate := days[idx];
        ranges := ranges + [Range(r, endDate, endDate)];
        r := r + 1;
        startDate := days[idx + 1];
        s := idx + 1;
      } else {
        RunGoesOn(days, ranges, s, idx);
      }
    }
  }

  // ---------- with extraction ----------

  function Least(days: seq<Ordinal>): (r: Ordinal)
    requires days != []
    ensures r in days && forall d :: d in days ==> r <= d
  {
    if |days| == 1 then days[0]
    else
      var front, last := days[..|days| - 1], days[|days| - 1];
      assert days == front + [last];
      var r := Least(front);
      if last < r then last else r
  }

  function Greatest(days: seq<Ordinal>): (r: Ordinal)
    requires days != []
    ensures r in days && forall d :: d in days ==> d <= r
  {
    if |days| == 1 then days[0]
    else
      var front, last := days[..|days| - 1], days[|days| - 1];
      assert days == front + [last];
      var r := Greatest(front);
      if r < last then last else r
  }

  function Without(days: seq<Ordinal>, present: seq<Ordinal>): seq<Ordinal> {
    if days == [] then []
    else (if days[0] in present then [] else [days[0]]) + Without(days[1..], present)
  }

  function Weekends(days: seq<Ordinal>): seq<Ordinal> {
    if days == [] then [] else (if IsWeekend(days[0]) then [days[0]] else []) + Weekends(days[1..])
  }

  /** The index with the time of day dropped. */
  function Normalised(index: seq<Instant>): (r: seq<Ordinal>)
    ensures |r| == |index| && forall i :: 0 <= i < |r| ==> r[i] == DayOf(index[i])
  {
    seq(|index|, i requires 0 <= i < |index| => DayOf(index[i]))
  }

  /** `extract_incorrect_date`: the missing business days and the weekend days present. An empty frame has no
      first date, and asking for its business days raises. */
  function ExtractIncorrectDate(index: seq<Instant>): Result<(seq<Ordinal>, seq<Ordinal>)> {
    var days := Normalised(index);
    if days == [] then Raised(ValueError)
    else Ok((Without(BusinessDays(Least(days), Greatest(days)), days), Weekends(days)))
  }

  lemma {:induction false} WeekendsCount(days: seq<Ordinal>, d: Ordinal)
    ensures multiset(Weekends(days))[d] == if 5 <= Weekday(d) then multiset(days)[d] else 0
  {
    if days != [] {
      hide Weekday;
      WeekendsCount(days[1..], d);
      assert days == [days[0]] + days[1..];
    }
  }

  /** The other half of the extraction: the weekend days of the frame, each as often as it is there. */
  lemma {:induction false} ExtractedWeekends(index: seq<Instant>, d: Ordinal)
    requires index != []
    ensures ExtractIncorrectDate(index).Ok?
    ensures multiset(ExtractIncorrectDate(index).value.1)[d]
            == if 5 <= Weekday(d) then multiset(Normalised(index))[d] else 0
  {
    WeekendsCount(Normalised(index), d);
  }

  lemma {:induction false} BusinessDaysMembers(from: Ordinal, to: int)
    ensures forall d :: d in BusinessDays(from, to) <==> from <= d <= to && IsWeekday(d)
    ensures AreBusinessDays(BusinessDays(from, to))
    decreases Span(from, to)
  {
    hide IsWeekday;
    if from <= to {
      BusinessDaysMembers(from + 1, to);
      var rest := BusinessDays(from + 1, to);
      forall i | 0 <= i < |rest|
        ensures from < rest[i]
      {
        assert rest[i] in rest;
      }
    }
  }

  lemma {:induction false} WithoutMembers(days: seq<Ordinal>, present: seq<Ordinal>)
    requires AreBusinessDays(days)
    ensures forall d :: d in Without(days, present) <==> d in days && d !in present
    ensures AreBusinessDays(Without(days, present))
  {
    if days != [] {
      WithoutMembers(days[1..], present);
      var rest := Without(days[1..], present);
      forall i | 0 <= i < |rest|
        ensures days[0] < rest[i]
      {
        assert rest[i] in days[1..];
      }
    }
  }

  /** Extraction and coalescing together: the expanded ranges are the business days between the first and the
      last date that the frame lacks, so with the business days it has they make up all of them. */
  method MissingRangesOf(index: seq<Instant>) returns (r: Result<seq<Range>>)
    ensures r.Raised? <==> index == []
    ensures r.Ok? ==> Separate(r.value) && AreBusinessDays(Expanded(r.value))
    ensures r.Ok? ==> var days := Normalised(index);
            forall d: Ordinal :: Least(days) <= d <= Greatest(days) && IsWeekday(d) <==>
                                 d in Expanded(r.value) || (d in days && IsWeekday(d))
    ensures r.Ok? ==> forall d :: d in Expanded(r.value) ==> d !in Normalised(index)
  {
    var extracted := ExtractIncorrectDate(index);
    if extracted.Raised? {
      return Raised(extracted.error);
    }
    ghost var days := Normalised(index);
    BusinessDaysMembers(Least(days), Greatest(days));
    WithoutMembers(BusinessDays(Least(days), Greatest(days)), days);
    SortedAlready(extracted.value.0);
    var ranges := ConvertMissingDatesToRanges(extracted.value.0);
    return Ok(ranges);
  }
}
