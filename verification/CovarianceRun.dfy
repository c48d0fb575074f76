/** The covariance run over two spot series (`create_estimators_for_pairs`): a merge join, a cursor over
    end-of-day cuts and an exponentially weighted estimate. */
module CovarianceRun {
  import opened Wrappers
  import opened Dates
  import opened Mixes
  import opened Sums

  datatype Spot = Spot(date: Instant, rate: real)

  /** A date that both series have, with the two rates. */
  datatype Match = Match(date: Instant, rate1: real, rate2: real)

  /** A float: a real number, or an infinity or NaN. Adding or scaling the latter never gives back a number,
      so which of them it is makes no difference here. */
  datatype Number = Finite(value: real) | NotFinite

  /** A covariance row to be created. */
  datatype Entry = Entry(date: Instant, cut: Instant, covariance: Number)

  /** The log return from the second rate to the first, and the weight of the last estimate. */
  datatype Model = Model(logReturn: (real, real) -> real, lambda: real)

  /** One point for each instant, in time order. */
  ghost predicate InTime(s: seq<Spot>) {
    forall i, j :: 0 <= i < j < |s| ==> s[i].date < s[j].date
  }

  // ---------- the merge join ----------

  /** What is left to match of two series. */
  function Merge(s: seq<Spot>, t: seq<Spot>): seq<Match>
    decreases |s| + |t|
  {
    if s == [] || t == [] then []
    else if s[0].date < t[0].date then Merge(s[1..], t)
    else if t[0].date < s[0].date then Merge(s, t[1..])
    else [Match(s[0].date, s[0].rate, t[0].rate)] + Merge(s[1..], t[1..])
  }

  predicate Has(s: seq<Spot>, date: Instant, rate: real) {
    Spot(date, rate) in s
  }

  ghost predicate From(s: seq<Spot>, t: seq<Spot>, m: Match) {
    Has(s, m.date, m.rate1) && Has(t, m.date, m.rate2)
  }

  ghost predicate DatesAscend(matches: seq<Match>) {
    forall i, j :: 0 <= i < j < |matches| ==> matches[i].date < matches[j].date
  }

  /** The join visits exactly the sorted intersection of the two date lists, with each date's own
      rates. */
  lemma {:induction false} MergeIsIntersection(s: seq<Spot>, t: seq<Spot>)
    requires InTime(s) && InTime(t)
    ensures forall m :: m in Merge(s, t) <==> From(s, t, m)
    ensures DatesAscend(Merge(s, t))
    decreases |s| + |t|
  {
    if s == [] || t == [] {
    } else if s[0].date < t[0].date {
      MergeIsIntersection(s[1..], t);
      FirstIsUnmatched(s, t);
    } else if t[0].date < s[0].date {
      MergeIsIntersection(s, t[1..]);
      FirstIsUnmatched(t, s);
    } else {
      var rest := Merge(s[1..], t[1..]);
      MergeIsIntersection(s[1..], t[1..]);
      FirstsMatch(s, t);
      forall j | 0 <= j < |rest|
        ensures s[0].date < rest[j].date
      {
        assert From(s[1..], t[1..], rest[j]);
      }
      assert forall m :: m in Merge(s, t) <==> m == Match(s[0].date, s[0].rate, t[0].rate) || m in rest;
    }
  }

  lemma {:induction false} FirstIsUnmatched(s: seq<Spot>, t: seq<Spot>)
    requires InTime(s) && InTime(t) && s != [] && t != [] && s[0].date < t[0].date
    ensures forall x, y :: x in s && y in t && x.date == y.date ==> x in s[1..]
  {
  }

  lemma {:induction false} FirstsMatch(s: seq<Spot>, t: seq<Spot>)
    requires InTime(s) && InTime(t) && s != [] && t != [] && s[0].date == t[0].date
    ensures forall x, y :: x in s && y in t && x.date == y.date ==>
              (x == s[0] && y == t[0]) || (x in s[1..] && y in t[1..])
    ensures forall x :: x in s[1..] ==> s[0].date < x.date
  {
  }

  // ---------- the end-of-day cuts ----------

  /** `get_eod_cuts_in_range`, on the cuts in time order. */
  function CutsInRange(cuts: seq<Instant>, from: Instant, to: Instant): seq<Instant> {
    if cuts == [] then []
    else CutsInRange(cuts[..|cuts| - 1], from, to)
         + if from <= cuts[|cuts| - 1] <= to then [cuts[|cuts| - 1]] else []
  }

  ghost predicate InOrder(cuts: seq<Instant>) {
    forall i, j :: 0 <= i < j < |cuts| ==> cuts[i] <= cuts[j]
  }

  lemma {:induction false} CutsWithin(cuts: seq<Instant>, from: Instant, to: Instant)
    ensures forall c :: c in CutsInRange(cuts, from, to) <==> c in cuts && from <= c <= to
  {
    if cuts != [] {
      CutsWithin(cuts[..|cuts| - 1], from, to);
      assert cuts == cuts[..|cuts| - 1] + [cuts[|cuts| - 1]];
    }
  }

  lemma {:induction false} RangeOfCuts(cuts: seq<Instant>, from: Instant, to: Instant)
    requires InOrder(cuts)
    ensures forall c :: c in CutsInRange(cuts, from, to) <==> c in cuts && from <= c <= to
    ensures InOrder(CutsInRange(cuts, from, to))
  {
    CutsWithin(cuts, from, to);
    if cuts != [] {
      var front, last := cuts[..|cuts| - 1], cuts[|cuts| - 1];
      RangeOfCuts(front, from, to);
      var kept := CutsInRange(front, from, to);
      forall i | 0 <= i < |kept|
        ensures kept[i] <= last
      {
        assert kept[i] in kept;
        InFront(cuts, kept[i]);
      }
    }
  }

  lemma {:induction false} InFront(cuts: seq<Instant>, c: Instant)
    requires InOrder(cuts) && cuts != [] && c in cuts[..|cuts| - 1]
    ensures c <= cuts[|cuts| - 1]
  {
  }

  /** The first cut whose day is not before `day`, or the number of cuts. */
  function FirstCut(cuts: seq<Instant>, day: Ordinal): (i: nat)
    ensures i <= |cuts| && (forall j :: 0 <= j < i ==> DayOf(cuts[j]) < day)
    ensures i < |cuts| ==> day <= DayOf(cuts[i])
  {
    if cuts == [] || day <= DayOf(cuts[0]) then 0 else 1 + FirstCut(cuts[1..], day)
  }

  /** The cuts between the start of the first common day and the end of the last. */
  function CutsFor(s: seq<Spot>, t: seq<Spot>, cuts: seq<Instant>): seq<Instant>
    requires s != [] && t != []
  {
    var first := if s[0].date < t[0].date then t[0].date else s[0].date;
    var last := if s[|s| - 1].date < t[|t| - 1].date then s[|s| - 1].date else t[|t| - 1].date;
    CutsInRange(cuts, Midnight(DayOf(first)), Midnight(DayOf(last) + 1))
  }

  // ---------- the estimates ----------

  /** `year_fraction` of the house day counter. */
  function YearFraction(from: Instant, to: Instant): real {
    (DayOf(to) - DayOf(from)) as real / 365.0
  }

  /** The instantaneous covariance of the two log returns between two common dates. Between two dates of one
      day it is divided by zero, and what numpy makes of that is no number. */
  function InstantCovariance(m: Model, last: Match, now: Match): Number {
    if DayOf(last.date) == DayOf(now.date) then NotFinite
    else
      var product := m.logReturn(now.rate1, last.rate1) * m.logReturn(now.rate2, last.rate2);
      Finite(product / YearFraction(last.date, now.date))
  }

  function Covariance(m: Model, matches: seq<Match>, i: nat): Number
    requires 1 <= i < |matches|
  {
    InstantCovariance(m, matches[i - 1], matches[i])
  }

  /** `FxEstimator.estimate` of an EWMA estimator. */
  function Ewma(m: Model, today: Number, lastDay: Number): Number {
    if today.Finite? && lastDay.Finite? then Finite(Mix(m.lambda, today.value, lastDay.value)) else NotFinite
  }

  /** The estimate at common date `i`; the first one starts from its own covariance. */
  function Estimate(m: Model, matches: seq<Match>, i: nat): Number
    requires 1 <= i < |matches|
  {
    var today := Covariance(m, matches, i);
    Ewma(m, today, if i == 1 then today else Estimate(m, matches, i - 1))
  }

  /** Entry `i` of a run: made for common date `i + 1` from the returns since common date `i`. */
  predicate IsEntry(e: Entry, m: Model, matches: seq<Match>, cuts: seq<Instant>, i: nat)
    requires i + 1 < |matches|
  {
    && e.date == matches[i + 1].date
    && FirstCut(cuts, DayOf(e.date)) < |cuts| && e.cut == cuts[FirstCut(cuts, DayOf(e.date))]
    && e.covariance == Estimate(m, matches, i + 1)
  }

  /** `data` holds one entry per consecutive pair of common dates, up to the first date without a cut. */
  ghost predicate IsRun(data: seq<Entry>, m: Model, matches: seq<Match>, cuts: seq<Instant>) {
    && (|data| == 0 || |data| < |matches|)
    && (forall i :: 0 <= i < |data| ==> IsEntry(data[i], m, matches, cuts, i))
    && (|data| + 1 < |matches| ==> FirstCut(cuts, DayOf(matches[|data| + 1].date)) == |cuts|)
  }

  /** The cut cursor only moves forward, yet it finds what a search from the start would find. */
  method AdvanceCut(cuts: seq<Instant>, from: nat, day: Ordinal) returns (itd: nat)
    requires from <= |cuts| && forall j :: 0 <= j < from ==> DayOf(cuts[j]) < day
    ensures itd == FirstCut(cuts, day)
  {
    itd := from;
    while itd < |cuts| && DayOf(cuts[itd]) < day
      invariant from <= itd <= |cuts| && forall j :: 0 <= j < itd ==> DayOf(cuts[j]) < day
    {
      itd := itd + 1;
    }
  }

  /** `create_estimators_for_pairs`. The loop ends because each turn leaves fewer points ahead. */
  method CreateEstimatorsForPairs(s: seq<Spot>, t: seq<Spot>, eodCuts: seq<Instant>, m: Model)
    returns (data: seq<Entry>)
    requires InTime(s) && InTime(t) && InOrder(eodCuts)
    ensures DatesAscend(Merge(s, t))
    ensures s == [] || t == [] ==> data == []
    ensures s != [] && t != [] ==> IsRun(data, m, Merge(s, t), CutsFor(s, t, eodCuts))
  {
    MergeIsIntersection(s, t);
    if |s| == 0 || |t| == 0 {
      return [];
    }
    data := JoinAndFold(s, t, CutsFor(s, t, eodCuts), m);
  }

  /** What the loop knows after `n` common dates. */
  ghost predicate Folded(m: Model, matches: seq<Match>, cuts: seq<Instant>, n: nat, itd: nat, last: Option<Match>,
                         lastEstimate: Option<Number>, data: seq<Entry>)
  {
    && n <= |matches| && |data| == (if n == 0 then 0 else n - 1)
    && last == (if n == 0 then None else Some(matches[n - 1]))
    && lastEstimate == (if n < 2 then None else Some(Estimate(m, matches, n - 1)))
    && (forall i :: 0 <= i < |data| ==> IsEntry(data[i], m, matches, cuts, i))
    && itd <= |cuts| && forall j :: 0 <= j < itd ==> n != 0 && DayOf(cuts[j]) < DayOf(matches[n - 1].date)
  }

  lemma {:induction false} NothingFolded(m: Model, matches: seq<Match>, cuts: seq<Instant>)
    ensures Folded(m, matches, cuts, 0, 0, None, None, [])
  {
  }

  lemma {:induction false} FoldKnows(m: Model, matches: seq<Match>, cuts: seq<Instant>, n: nat, itd: nat,
                                  last: Option<Match>,
                  lastEstimate: Option<Number>, data: seq<Entry>)
    requires DatesAscend(matches) && n < |matches| && Folded(m, matches, cuts, n, itd, last, lastEstimate, data)
    ensures last == if n == 0 then None else Some(matches[n - 1])
    ensures itd <= |cuts| && forall j :: 0 <= j < itd ==> DayOf(cuts[j]) < DayOf(matches[n].date)
  {
  }

  lemma {:induction false} FoldsFirst(m: Model, matches: seq<Match>, cuts: seq<Instant>, itd: nat,
                                  lastEstimate: Option<Number>,
                   data: seq<Entry>)
    requires 0 < |matches| && Folded(m, matches, cuts, 0, itd, None, lastEstimate, data)
    ensures Folded(m, matches, cuts, 1, itd, Some(matches[0]), lastEstimate, data)
  {
  }

  /** The fold's step: one more entry, with the next estimate and the first cut not before its day. */
  lemma {:induction false} FoldsNext(m: Model, matches: seq<Match>, cuts: seq<Instant>, n: nat, itd: nat,
                                  last: Option<Match>,
                  lastEstimate: Option<Number>, data: seq<Entry>)
    requires DatesAscend(matches) && 1 <= n < |matches| && Folded(m, matches, cuts, n, itd, last, lastEstimate, data)
    requires FirstCut(cuts, DayOf(matches[n].date)) < |cuts|
    ensures var covar := InstantCovariance(m, matches[n - 1], matches[n]);
            var estimate := Ewma(m, covar, if lastEstimate.None? then covar else lastEstimate.value);
            var itd' := FirstCut(cuts, DayOf(matches[n].date));
            Folded(m, matches, cuts, n + 1, itd', Some(matches[n]), Some(estimate),
                   data + [Entry(matches[n].date, cuts[itd'], estimate)])
  {
  }

  lemma {:induction false} OutOfCuts(m: Model, matches: seq<Match>, cuts: seq<Instant>, n: nat, itd: nat,
                                  last: Option<Match>,
                  lastEstimate: Option<Number>, data: seq<Entry>)
    requires n <= |matches| && Folded(m, matches, cuts, n, itd, last, lastEstimate, data)
    requires n < |matches| ==> 0 < n && FirstCut(cuts, DayOf(matches[n].date)) == |cuts|
    ensures IsRun(data, m, matches, cuts)
  {
  }

  /** How the two cursors leave what is left to match. */
  lemma {:induction false} MergeAhead(s: seq<Spot>, t: seq<Spot>, i: nat, j: nat)
    requires i < |s| && j < |t|
    ensures s[i].date < t[j].date ==> Merge(s[i..], t[j..]) == Merge(s[i + 1..], t[j..])
    ensures t[j].date < s[i].date ==> Merge(s[i..], t[j..]) == Merge(s[i..], t[j + 1..])
    ensures s[i].date == t[j].date ==>
              Merge(s[i..], t[j..]) == [Match(s[i].date, s[i].rate, t[j].rate)] + Merge(s[i + 1..], t[j + 1..])
    ensures i + 1 == |s| ==> Merge(s[i + 1..], t[j..]) == Merge(s[i + 1..], t[j + 1..]) == []
    ensures j + 1 == |t| ==> Merge(s[i..], t[j + 1..]) == Merge(s[i + 1..], t[j + 1..]) == []
  {
  }

  /** The loop of the run: the merge join, the cut cursor and the fold in one. */
  method JoinAndFold(s: seq<Spot>, t: seq<Spot>, cuts: seq<Instant>, m: Model) returns (data: seq<Entry>)
    requires 0 < |s| && 0 < |t| && InTime(s) && InTime(t)
    ensures IsRun(data, m, Merge(s, t), cuts)
  {
    assert DatesAscend(Merge(s, t)) by {
      MergeIsIntersection(s, t);
    }
    hide Merge, InTime, Folded, IsRun, IsEntry, Estimate, InstantCovariance, Ewma, DatesAscend, FirstCut, From, Has;
    data := [];
    ghost var matches, n := Merge(s, t), 0;
    var it1, it2, itd := 0, 0, 0;
    var last: Option<Match> := None;
    var lastEstimate: Option<Number> := None;
    NothingFolded(m, matches, cuts);
    assert s[it1..] == s && t[it2..] == t;
    while true
      invariant it1 < |s| && it2 < |t| && n <= |matches|
      invariant matches[n..] == Merge(s[it1..], t[it2..])
      invariant Folded(m, matches, cuts, n, itd, last, lastEstimate, data)
      decreases |s| - it1 + |t| - it2
    {
      MergeAhead(s, t, it1, it2);
      if s[it1].date < t[it2].date {
        it1 := it1 + 1;
        if |s| <= it1 {
          break;
        }
        continue;
      }
      if t[it2].date < s[it1].date {
        it2 := it2 + 1;
        if |t| <= it2 {
          break;
        }
        continue;
      }
      var now := Match(s[it1].date, s[it1].rate, t[it2].rate);
      assert matches[n..][0] == now;
      FoldKnows(m, matches, cuts, n, itd, last, lastEstimate, data);
      if last.Some? {
        ghost var before := itd;
        itd := AdvanceCut(cuts, itd, DayOf(now.date));
        if |cuts| <= itd {
          OutOfCuts(m, matches, cuts, n, before, last, lastEstimate, data);
          return;
        }
        FoldsNext(m, matches, cuts, n, before, last, lastEstimate, data);
        var covar := InstantCovariance(m, last.value, now);
        var estimate := Ewma(m, covar, if lastEstimate.None? then covar else lastEstimate.value);
        data := data + [Entry(now.date, cuts[itd], estimate)];
        lastEstimate := Some(estimate);
      } else {
        FoldsFirst(m, matches, cuts, itd, lastEstimate, data);
      }
      last := Some(now);
      n := n + 1;
      it1, it2 := it1 + 1, it2 + 1;
      if |s| <= it1 || |t| <= it2 {
        break;
      }
    }
    OutOfCuts(m, matches, cuts, n, itd, last, lastEstimate, data);
  }

  // ---------- what a run means ----------

  /** The common dates after the first all have a cut on their own day. */
  ghost predicate HaveOwnCuts(matches: seq<Match>, eodCuts: seq<Instant>) {
    forall i :: 1 <= i < |matches| ==> HasCutOn(eodCuts, DayOf(matches[i].date))
  }

  ghost predicate HasCutOn(eodCuts: seq<Instant>, day: Ordinal) {
    exists c :: c in eodCuts && DayOf(c) == day
  }

  /** No entry is dropped and every entry's cut is of the entry's own day, if and only if every common date
      after the first has such a cut. */
  lemma {:induction false} CompleteIffOwnCuts(s: seq<Spot>, t: seq<Spot>, eodCuts: seq<Instant>, m: Model,
                                  data: seq<Entry>)
    requires InTime(s) && InTime(t) && InOrder(eodCuts) && s != [] && t != []
    requires IsRun(data, m, Merge(s, t), CutsFor(s, t, eodCuts))
    ensures HaveOwnCuts(Merge(s, t), eodCuts) <==>
            && |data| == (if Merge(s, t) == [] then 0 else |Merge(s, t)| - 1)
            && forall i :: 0 <= i < |data| ==> DayOf(data[i].cut) == DayOf(data[i].date)
  {
    hide Merge, CutsFor, FirstCut, Estimate, InTime, InOrder;
    var matches, cuts := Merge(s, t), CutsFor(s, t, eodCuts);
    if HaveOwnCuts(matches, eodCuts) {
      forall i | 1 <= i < |matches|
        ensures var f := FirstCut(cuts, DayOf(matches[i].date));
                f < |cuts| && DayOf(cuts[f]) == DayOf(matches[i].date)
      {
        CutFound(s, t, eodCuts, matches[i]);
      }
    } else {
      var k :| 1 <= k < |matches| && !HasCutOn(eodCuts, DayOf(matches[k].date));
      if |data| == |matches| - 1 {
        assert IsEntry(data[k - 1], m, matches, cuts, k - 1);
        CutsAreCuts(s, t, eodCuts, data[k - 1].cut);
      }
    }
  }

  lemma {:induction false} CutsAreCuts(s: seq<Spot>, t: seq<Spot>, eodCuts: seq<Instant>, c: Instant)
    requires s != [] && t != [] && c in CutsFor(s, t, eodCuts)
    ensures HasCutOn(eodCuts, DayOf(c))
  {
    hide CutsInRange;
    var first := if s[0].date < t[0].date then t[0].date else s[0].date;
    var last := if s[|s| - 1].date < t[|t| - 1].date then s[|s| - 1].date else t[|t| - 1].date;
    CutsWithin(eodCuts, Midnight(DayOf(first)), Midnight(DayOf(last) + 1));
  }

  lemma {:induction false} CommonDays(s: seq<Spot>, t: seq<Spot>, x: Match)
    requires InTime(s) && InTime(t) && x in Merge(s, t)
    ensures s != [] && t != []
    ensures DayOf(s[0].date) <= DayOf(x.date) <= DayOf(s[|s| - 1].date)
    ensures DayOf(t[0].date) <= DayOf(x.date) <= DayOf(t[|t| - 1].date)
  {
    hide Merge;
    MergeIsIntersection(s, t);
    assert From(s, t, x);
    var i :| 0 <= i < |s| && s[i] == Spot(x.date, x.rate1);
    var j :| 0 <= j < |t| && t[j] == Spot(x.date, x.rate2);
  }

  lemma {:induction false} FirstOfOrdered(cuts: seq<Instant>, c: Instant)
    requires InOrder(cuts) && c in cuts
    ensures var f := FirstCut(cuts, DayOf(c)); f < |cuts| && DayOf(cuts[f]) == DayOf(c)
  {
  }

  lemma {:induction false} CutFound(s: seq<Spot>, t: seq<Spot>, eodCuts: seq<Instant>, x: Match)
    requires InTime(s) && InTime(t) && InOrder(eodCuts) && x in Merge(s, t)
    requires HasCutOn(eodCuts, DayOf(x.date))
    ensures s != [] && t != []
    ensures var cuts := CutsFor(s, t, eodCuts);
            var f := FirstCut(cuts, DayOf(x.date));
            f < |cuts| && DayOf(cuts[f]) == DayOf(x.date)
  {
    hide Merge, InTime, InOrder, FirstCut;
    CommonDays(s, t, x);
    var first := if s[0].date < t[0].date then t[0].date else s[0].date;
    var last := if s[|s| - 1].date < t[|t| - 1].date then s[|s| - 1].date else t[|t| - 1].date;
    var from, to := Midnight(DayOf(first)), Midnight(DayOf(last) + 1);
    RangeOfCuts(eodCuts, from, to);
    var c :| c in eodCuts && DayOf(c) == DayOf(x.date);
    assert from <= c <= to;
    FirstOfOrdered(CutsFor(s, t, eodCuts), c);
  }

  /** No two neighbours up to common date `i` fall on one day. */
  ghost predicate OneADay(matches: seq<Match>, i: nat) {
    forall j :: 1 <= j <= i && j < |matches| ==> DayOf(matches[j - 1].date) != DayOf(matches[j].date)
  }

  /** An estimate is a number if and only if no two common dates so far fall on one day: from the first
      such pair on, no later estimate recovers. */
  lemma {:induction false} EstimateIsFiniteIff(m: Model, matches: seq<Match>, i: nat)
    requires 1 <= i < |matches|
    ensures Estimate(m, matches, i).Finite? <==> OneADay(matches, i)
  {
    if 1 < i {
      EstimateIsFiniteIff(m, matches, i - 1);
    }
  }

  /** Every estimate lies between any bounds of the instantaneous covariances seen so far. */
  lemma {:induction false} EstimateIsConvex(m: Model, matches: seq<Match>, i: nat, low: real, high: real)
    requires 1 <= i < |matches| && OneADay(matches, i) && 0.0 <= m.lambda <= 1.0
    requires forall j :: 1 <= j <= i ==> low <= Covariance(m, matches, j).value <= high
    ensures Estimate(m, matches, i).Finite? && low <= Estimate(m, matches, i).value <= high
  {
    hide Mix;
    var today := Covariance(m, matches, i).value;
    if i == 1 {
      MixIsConvex(m.lambda, today, today, low, high);
    } else {
      EstimateIsConvex(m, matches, i - 1, low, high);
      MixIsConvex(m.lambda, today, Estimate(m, matches, i - 1).value, low, high);
    }
  }

  // ---------- bounds and symmetry ----------

  lemma {:induction false} SelfCovariance(m: Model, s: seq<Spot>, j: nat)
    requires InTime(s) && 1 <= j < |Merge(s, s)|
    ensures Covariance(m, Merge(s, s), j).Finite? ==> 0.0 <= Covariance(m, Merge(s, s), j).value
  {
    SelfMatches(s);
    var now, last := Merge(s, s)[j], Merge(s, s)[j - 1];
    assert last.date < now.date;
    var r := m.logReturn(now.rate1, last.rate1);
    assert m.logReturn(now.rate2, last.rate2) == r;
    if DayOf(last.date) != DayOf(now.date) {
      SquareOverPositive(r, YearFraction(last.date, now.date));
    }
  }

  /** A pair run against itself never yields a negative estimate. */
  lemma {:induction false} SelfRunIsNonNegative(m: Model, s: seq<Spot>, i: nat)
    requires InTime(s) && 0.0 <= m.lambda <= 1.0 && 1 <= i < |Merge(s, s)|
    ensures Estimate(m, Merge(s, s), i).Finite? ==> 0.0 <= Estimate(m, Merge(s, s), i).value
  {
    hide Mix, Merge;
    SelfCovariance(m, s, i);
    var matches := Merge(s, s);
    if Estimate(m, matches, i).Finite? {
      var today := Covariance(m, matches, i).value;
      if i == 1 {
        MixIsNonNegative(m.lambda, today, today);
      } else {
        SelfRunIsNonNegative(m, s, i - 1);
        MixIsNonNegative(m.lambda, today, Estimate(m, matches, i - 1).value);
      }
    }
  }

  lemma {:induction false} MixIsNonNegative(l: real, x: real, y: real)
    requires 0.0 <= l <= 1.0 && 0.0 <= x && 0.0 <= y
    ensures 0.0 <= Mix(l, x, y)
  {
    MixIsConvex(l, x, y, 0.0, if x < y then y else x);
  }

  lemma {:induction false} SquareOverPositive(r: real, d: real)
    requires 0.0 < d
    ensures 0.0 <= r * r / d
  {
  }

  lemma {:induction false} SelfMatches(s: seq<Spot>)
    ensures |Merge(s, s)| == |s|
    ensures forall i :: 0 <= i < |s| ==> Merge(s, s)[i] == Match(s[i].date, s[i].rate, s[i].rate)
  {
    if s != [] {
      SelfMatches(s[1..]);
    }
  }

  function Swapped(matches: seq<Match>): (r: seq<Match>)
    ensures |r| == |matches|
    ensures forall i :: 0 <= i < |r| ==> r[i] == Match(matches[i].date, matches[i].rate2, matches[i].rate1)
  {
    seq(|matches|, i requires 0 <= i < |matches| => Match(matches[i].date, matches[i].rate2, matches[i].rate1))
  }

  lemma {:induction false} MergeSwaps(s: seq<Spot>, t: seq<Spot>)
    ensures Merge(t, s) == Swapped(Merge(s, t))
    decreases |s| + |t|
  {
    if s == [] || t == [] {
    } else if s[0].date < t[0].date {
      MergeSwaps(s[1..], t);
    } else if t[0].date < s[0].date {
      MergeSwaps(s, t[1..]);
    } else {
      MergeSwaps(s[1..], t[1..]);
    }
  }

  lemma {:induction false} EstimateSwaps(m: Model, matches: seq<Match>, i: nat)
    requires 1 <= i < |matches|
    ensures Estimate(m, Swapped(matches), i) == Estimate(m, matches, i)
  {
    var now, last := matches[i], matches[i - 1];
    var x, y := m.logReturn(now.rate1, last.rate1), m.logReturn(now.rate2, last.rate2);
    assert x * y == y * x;
    CovarianceSwaps(m, matches, i);
    if 1 < i {
      EstimateSwaps(m, matches, i - 1);
    }
  }

  lemma {:induction false} CovarianceSwaps(m: Model, matches: seq<Match>, i: nat)
    requires 1 <= i < |matches|
    ensures Covariance(m, Swapped(matches), i) == Covariance(m, matches, i)
  {
  }

  lemma {:induction false} CutsForSwaps(s: seq<Spot>, t: seq<Spot>, eodCuts: seq<Instant>)
    requires s != [] && t != []
    ensures CutsFor(s, t, eodCuts) == CutsFor(t, s, eodCuts)
  {
  }

  /** Swapping the two series gives the same dates, cuts and estimates, for all that the loop treats them
      differently: the two runs are equal entry by entry. */
  lemma {:induction false} RunIsSymmetric(s: seq<Spot>, t: seq<Spot>, eodCuts: seq<Instant>, m: Model, d: seq<Entry>,
                                  e: seq<Entry>)
    requires s != [] && t != []
    requires IsRun(d, m, Merge(s, t), CutsFor(s, t, eodCuts)) && IsRun(e, m, Merge(t, s), CutsFor(t, s, eodCuts))
    ensures d == e
  {
    hide Estimate, FirstCut, CutsFor, Merge;
    MergeSwaps(s, t);
    CutsForSwaps(s, t, eodCuts);
    var matches := Merge(s, t);
    forall i | 0 <= i < |d| && i < |e|
      ensures d[i] == e[i]
    {
      EstimateSwaps(m, matches, i + 1);
    }
    RunNotLonger(m, matches, Merge(t, s), CutsFor(s, t, eodCuts), d, e);
    RunNotLonger(m, Merge(t, s), matches, CutsFor(s, t, eodCuts), e, d);
  }

  predicate HasEntry(data: seq<Entry>, i: nat) {
    i < |data|
  }

  /** Where one run found a cut, so did any other run over the same dates. */
  lemma {:induction false} RunNotLonger(m: Model, a: seq<Match>, b: seq<Match>, cuts: seq<Instant>, d: seq<Entry>,
                                  e: seq<Entry>)
    requires IsRun(d, m, a, cuts) && IsRun(e, m, b, cuts)
    requires |a| == |b| && forall i :: 0 <= i < |a| ==> a[i].date == b[i].date
    ensures |d| <= |e|
  {
    hide Estimate, FirstCut;
    forall i: nat | HasEntry(d, i)
      ensures i != |e|
    {
      assert IsEntry(d[i], m, a, cuts, i);
    }
    assert !HasEntry(d, |e|);
  }

  // ---------- the closed form of a run ----------

  /** `c[j]` is the covariance of the log returns since the common date before, per year of 365 days: times the
      days in between it makes 365 times the product of the two returns. */
  ghost predicate AreCovariances(c: seq<real>, m: Model, matches: seq<Match>, i: nat)
    requires i < |matches| == |c|
  {
    forall j :: 1 <= j <= i ==>
      var last, now := matches[j - 1], matches[j];
      c[j] * (DayOf(now.date) - DayOf(last.date)) as real
      == 365.0 * (m.logReturn(now.rate1, last.rate1) * m.logReturn(now.rate2, last.rate2))
  }

  /** (1 - l) * l^(i - j) * c[j] for j = k + 2 */
  function Term(l: real, c: seq<real>, i: nat, k: nat): real {
    if k + 2 <= i < |c| then (1.0 - l) * (Pow(l, i - 2 - k) * c[k + 2]) else 0.0
  }

  function Terms(l: real, c: seq<real>, i: nat): nat -> real {
    (k: nat) => Term(l, c, i, k)
  }

  /** The first covariance and the later ones, each with the weight that the decay leaves it. */
  function WeightedSum(l: real, c: seq<real>, i: nat): real
    requires 1 <= i < |c|
  {
    Pow(l, i - 1) * c[1] + Sum(i - 1, Terms(l, c, i))
  }

  lemma {:induction false} TermDecays(l: real, c: seq<real>, i: nat, k: nat)
    requires k + 3 <= i < |c|
    ensures Term(l, c, i, k) == l * Term(l, c, i - 1, k)
  {
    var p, x := Pow(l, i - 3 - k), c[k + 2];
    assert Pow(l, i - 2 - k) == l * p;
    assert (1.0 - l) * ((l * p) * x) == l * ((1.0 - l) * (p * x));
  }

  lemma {:induction false} LastTerm(l: real, c: seq<real>, i: nat)
    requires 2 <= i < |c|
    ensures Term(l, c, i, i - 2) == (1.0 - l) * c[i]
  {
    assert Pow(l, 0) == 1.0;
    assert 1.0 * c[i] == c[i];
  }

  lemma {:induction false} TermsGrow(l: real, c: seq<real>, i: nat)
    requires 2 <= i < |c|
    ensures Sum(i - 1, Terms(l, c, i)) == l * Sum(i - 2, Terms(l, c, i - 1)) + (1.0 - l) * c[i]
  {
    hide Term;
    forall k: nat | k < i - 2
      ensures Terms(l, c, i)(k) == l * Terms(l, c, i - 1)(k)
    {
      TermDecays(l, c, i, k);
    }
    LastTerm(l, c, i);
    SumScales(i - 2, Terms(l, c, i - 1), Terms(l, c, i), l);
    LastOfSum(i - 1, Terms(l, c, i));
  }

  lemma {:induction false} Distributes(l: real, p: real, x: real, y: real)
    ensures (l * p) * x + l * y == l * (p * x + y)
  {
  }

  lemma {:induction false} WeightedSumGrows(l: real, c: seq<real>, i: nat)
    requires 2 <= i < |c|
    ensures WeightedSum(l, c, i) == (1.0 - l) * c[i] + l * WeightedSum(l, c, i - 1)
  {
    hide Terms;
    TermsGrow(l, c, i);
    assert Pow(l, i - 1) == l * Pow(l, i - 2);
    Distributes(l, Pow(l, i - 2), c[1], Sum(i - 2, Terms(l, c, i - 1)));
  }

  lemma {:induction false} CovarianceIs(m: Model, matches: seq<Match>, i: nat, x: real)
    requires 1 <= i < |matches| && DayOf(matches[i - 1].date) != DayOf(matches[i].date)
    requires var last, now := matches[i - 1], matches[i];
             x * (DayOf(now.date) - DayOf(last.date)) as real
             == 365.0 * (m.logReturn(now.rate1, last.rate1) * m.logReturn(now.rate2, last.rate2))
    ensures Covariance(m, matches, i) == Finite(x)
  {
    var last, now := matches[i - 1], matches[i];
    Quotient(m.logReturn(now.rate1, last.rate1) * m.logReturn(now.rate2, last.rate2),
             (DayOf(now.date) - DayOf(last.date)) as real, x);
  }

  lemma {:induction false} Quotient(a: real, d: real, x: real)
    requires d != 0.0 && x * d == 365.0 * a
    ensures d / 365.0 != 0.0 && a / (d / 365.0) == x
  {
    var y := d / 365.0;
    assert x * y == a;
  }

  /** The estimate at a common date, when no two so far fall on one day: with weight `l` for the last estimate,
      covariance `j` counts (1 - l) * l^(i - j), and the first one l^(i - 1). Without decay it is today's
      covariance alone, and with full decay it stays the first one. */
  lemma {:induction false} EstimateIsWeightedSum(m: Model, matches: seq<Match>, i: nat, c: seq<real>)
    requires 1 <= i < |matches| == |c| && OneADay(matches, i) && AreCovariances(c, m, matches, i)
    ensures Estimate(m, matches, i) == Finite(WeightedSum(m.lambda, c, i))
    ensures m.lambda == 0.0 ==> Estimate(m, matches, i) == Finite(c[i])
    ensures m.lambda == 1.0 ==> Estimate(m, matches, i) == Finite(c[1])
  {
    hide Estimate, Covariance, WeightedSum;
    CovarianceIs(m, matches, i, c[i]);
    if i == 1 {
      FirstEstimate(m, matches, c[1]);
      FirstWeight(m.lambda, c);
    } else {
      EstimateIsWeightedSum(m, matches, i - 1, c);
      EstimateGrows(m, matches, i, c[i], WeightedSum(m.lambda, c, i - 1));
      WeightedSumGrows(m.lambda, c, i);
      Extremes(m.lambda, c[i], WeightedSum(m.lambda, c, i - 1));
    }
  }

  lemma {:induction false} FirstEstimate(m: Model, matches: seq<Match>, x: real)
    requires 1 < |matches| && Covariance(m, matches, 1) == Finite(x)
    ensures Estimate(m, matches, 1) == Finite(x)
  {
    assert (1.0 - m.lambda) * x + m.lambda * x == x;
  }

  lemma {:induction false} EstimateGrows(m: Model, matches: seq<Match>, i: nat, x: real, e: real)
    requires 2 <= i < |matches| && Covariance(m, matches, i) == Finite(x) && Estimate(m, matches, i - 1) == Finite(e)
    ensures Estimate(m, matches, i) == Finite((1.0 - m.lambda) * x + m.lambda * e)
  {
    hide Covariance;
  }

  lemma {:induction false} Extremes(l: real, x: real, e: real)
    ensures l == 0.0 ==> (1.0 - l) * x + l * e == x
    ensures l == 1.0 ==> (1.0 - l) * x + l * e == e
  {
  }

  lemma {:induction false} FirstWeight(l: real, c: seq<real>)
    requires 1 < |c|
    ensures WeightedSum(l, c, 1) == c[1]
  {
  }

  /** `cut` is the earliest end-of-day cut on or after `day`, from the start of the later first day of the two
      series to the start of the day after the earlier last one. */
  ghost predicate IsCutFor(s: seq<Spot>, t: seq<Spot>, eodCuts: seq<Instant>, day: Ordinal, cut: Instant)
    requires s != [] && t != []
  {
    && IsCandidate(s, t, eodCuts, day, cut)
    && forall c :: IsCandidate(s, t, eodCuts, day, c) ==> cut <= c
  }

  ghost predicate HasNoCut(s: seq<Spot>, t: seq<Spot>, eodCuts: seq<Instant>, day: Ordinal)
    requires s != [] && t != []
  {
    forall c :: c in eodCuts ==> !IsCandidate(s, t, eodCuts, day, c)
  }

  predicate IsCandidate(s: seq<Spot>, t: seq<Spot>, eodCuts: seq<Instant>, day: Ordinal, c: Instant)
    requires s != [] && t != []
  {
    && c in eodCuts && day <= DayOf(c)
    && Midnight(DayOf(s[0].date)) <= c && Midnight(DayOf(t[0].date)) <= c
    && (c <= Midnight(DayOf(s[|s| - 1].date) + 1) && c <= Midnight(DayOf(t[|t| - 1].date) + 1))
  }

  lemma {:induction false} LaterStart(x: Instant, y: Instant, c: Instant)
    ensures var later := if x < y then y else x;
            Midnight(DayOf(later)) <= c <==> Midnight(DayOf(x)) <= c && Midnight(DayOf(y)) <= c
  {
  }

  lemma {:induction false} EarlierEnd(x: Instant, y: Instant, c: Instant)
    ensures var earlier := if x < y then x else y;
            c <= Midnight(DayOf(earlier) + 1) <==> c <= Midnight(DayOf(x) + 1) && c <= Midnight(DayOf(y) + 1)
  {
  }

  lemma {:induction false} CutsForAre(s: seq<Spot>, t: seq<Spot>, eodCuts: seq<Instant>, day: Ordinal, c: Instant)
    requires InOrder(eodCuts) && s != [] && t != []
    ensures InOrder(CutsFor(s, t, eodCuts))
    ensures c in CutsFor(s, t, eodCuts) && day <= DayOf(c) <==> IsCandidate(s, t, eodCuts, day, c)
  {
    hide CutsInRange, InOrder, Midnight, DayOf;
    var first := if s[0].date < t[0].date then t[0].date else s[0].date;
    var last := if s[|s| - 1].date < t[|t| - 1].date then s[|s| - 1].date else t[|t| - 1].date;
    RangeOfCuts(eodCuts, Midnight(DayOf(first)), Midnight(DayOf(last) + 1));
    LaterStart(s[0].date, t[0].date, c);
    EarlierEnd(s[|s| - 1].date, t[|t| - 1].date, c);
  }

  lemma {:induction false} FirstCutIsLeast(cuts: seq<Instant>, day: Ordinal)
    requires InOrder(cuts)
    ensures var f := FirstCut(cuts, day);
            && (f < |cuts| ==> forall c :: c in cuts && day <= DayOf(c) ==> cuts[f] <= c)
            && (f == |cuts| ==> forall c :: c in cuts ==> DayOf(c) < day)
  {
    var f := FirstCut(cuts, day);
    forall c | c in cuts && f < |cuts| && day <= DayOf(c)
      ensures cuts[f] <= c
    {
      var k :| 0 <= k < |cuts| && cuts[k] == c;
      assert f <= k;
    }
  }

  /** What a run returns, in terms of the two series, their common dates, the cuts and the covariances: entry
      `i` is for common date `i + 1`, with that date's cut and the weighted sum up to it; and the entries end
      with the common dates, or at the first one without a cut. */
  lemma {:induction false} RunIsClosedForm(s: seq<Spot>, t: seq<Spot>, eodCuts: seq<Instant>, m: Model,
                                           data: seq<Entry>, c: seq<real>)
    requires InOrder(eodCuts) && s != [] && t != [] && IsRun(data, m, Merge(s, t), CutsFor(s, t, eodCuts))
    requires |c| == |Merge(s, t)| && forall i :: 0 <= i < |c| && OneADay(Merge(s, t), i) ==>
                                               AreCovariances(c, m, Merge(s, t), i)
    ensures |data| == 0 || |data| < |Merge(s, t)|
    ensures forall i :: 0 <= i < |data| ==>
              && data[i].date == Merge(s, t)[i + 1].date
              && IsCutFor(s, t, eodCuts, DayOf(data[i].date), data[i].cut)
              && data[i].covariance == if OneADay(Merge(s, t), i + 1) then Finite(WeightedSum(m.lambda, c, i + 1))
                                       else NotFinite
    ensures |data| + 1 < |Merge(s, t)| ==> HasNoCut(s, t, eodCuts, DayOf(Merge(s, t)[|data| + 1].date))
  {
    hide Merge, CutsFor, FirstCut, Estimate, InOrder, WeightedSum, AreCovariances, OneADay, IsCandidate;
    var matches, cuts := Merge(s, t), CutsFor(s, t, eodCuts);
    CutsForAre(s, t, eodCuts, 1, DAY);
    forall i | 0 <= i < |data|
      ensures data[i].date == matches[i + 1].date
      ensures IsCutFor(s, t, eodCuts, DayOf(data[i].date), data[i].cut)
      ensures data[i].covariance
              == if OneADay(matches, i + 1) then Finite(WeightedSum(m.lambda, c, i + 1)) else NotFinite
    {
      assert IsEntry(data[i], m, matches, cuts, i);
      EntryHasCut(s, t, eodCuts, DayOf(data[i].date), data[i].cut);
      EstimateIsFiniteIff(m, matches, i + 1);
      if OneADay(matches, i + 1) {
        EstimateIsWeightedSum(m, matches, i + 1, c);
      }
    }
    if |data| + 1 < |matches| {
      var day := DayOf(matches[|data| + 1].date);
      FirstCutIsLeast(cuts, day);
      forall x | x in eodCuts
        ensures !IsCandidate(s, t, eodCuts, day, x)
      {
        CutsForAre(s, t, eodCuts, day, x);
      }
    }
  }

  lemma {:induction false} EntryHasCut(s: seq<Spot>, t: seq<Spot>, eodCuts: seq<Instant>, day: Ordinal, cut: Instant)
    requires InOrder(eodCuts) && s != [] && t != []
    requires var cuts := CutsFor(s, t, eodCuts);
             FirstCut(cuts, day) < |cuts| && cut == cuts[FirstCut(cuts, day)]
    ensures IsCutFor(s, t, eodCuts, day, cut)
  {
    hide CutsFor, FirstCut, InOrder, IsCandidate;
    var cuts := CutsFor(s, t, eodCuts);
    CutsForAre(s, t, eodCuts, day, cut);
    FirstCutIsLeast(cuts, day);
    forall x | IsCandidate(s, t, eodCuts, day, x)
      ensures cut <= x
    {
      CutsForAre(s, t, eodCuts, day, x);
    }
  }
}
