/** Consecutive windows over the same generators neither lose nor repeat a cashflow. */
module WindowChaining {
  import opened Wrappers
  import opened Dates
  import opened Generators
  import opened ActiveWindow

  /** The window (from, to] when `late`, and [from, to) otherwise. */
  function Between(late: bool, from: Instant, to: Instant): Window {
    Window(from, None, Some(to), !late, late, false)
  }

  lemma {:induction false} BetweenIs(late: bool, from: Instant, to: Instant, p: Instant)
    ensures InWindow(Between(late, from, to), p) <==> if late then from < p <= to else from <= p < to
  {
  }

  lemma {:induction false} BetweenEnds(cfs: seq<Generator>, late: bool, from: Instant, to: Instant)
    ensures forall g :: g in cfs ==> Ends(g, Between(late, from, to))
  {
    forall g | g in cfs
      ensures Ends(g, Between(late, from, to))
    {
      BoundedWindowEnds(g, Between(late, from, to));
    }
  }

  /** The listings of one window. */
  ghost function Flows(cfs: seq<Generator>, late: bool, from: Instant, to: Instant): seq<CashFlow> {
    BetweenEnds(cfs, late, from, to);
    Listings(cfs, Between(late, from, to))
  }

  /** The listings of each window between neighbouring cut points, one after the other. */
  ghost function Chained(cfs: seq<Generator>, late: bool, cuts: seq<Instant>): seq<CashFlow> {
    if |cuts| < 2 then []
    else Chained(cfs, late, cuts[..|cuts| - 1]) + Flows(cfs, late, cuts[|cuts| - 2], cuts[|cuts| - 1])
  }

  ghost predicate Ordered(cuts: seq<Instant>) {
    forall i, j :: 0 <= i <= j < |cuts| ==> cuts[i] <= cuts[j]
  }

  /** On one generator the two halves of a window come out in order, so its listing is the first
      half's followed by the second's. */
  lemma {:induction false} PrefixSplits(g: Generator, late: bool, a: Instant, b: Instant, c: Instant, n: nat)
    requires a <= b <= c
    ensures Filtered(g, Between(late, a, c), n)
            == Filtered(g, Between(late, a, b), n) + Filtered(g, Between(late, b, c), n)
  {
    hide PayDate, Emits;
    if n != 0 {
      PrefixSplits(g, late, a, b, c, n - 1);
      if Listed(g, Between(late, a, b), n - 1) {
        forall k: nat | 0 <= k < n - 1
          ensures !Listed(g, Between(late, b, c), k)
        {
          EmitsHasCalendar(g, n - 1);
          PayDatesAscend(g, k, n - 1);
        }
        FilteredSkips(g, Between(late, b, c), 0, n - 1);
      }
    }
  }

  lemma {:induction false} EmitsHasCalendar(g: Generator, k: nat)
    requires Emits(g, k)
    ensures g.calendar.Some?
  {
  }

  lemma {:induction false} WindowSplits(g: Generator, late: bool, a: Instant, b: Instant, c: Instant)
    requires a <= b <= c
    requires Ends(g, Between(late, a, b)) && Ends(g, Between(late, b, c)) && Ends(g, Between(late, a, c))
    ensures Listing(g, Between(late, a, c)) == Listing(g, Between(late, a, b)) + Listing(g, Between(late, b, c))
  {
    hide PayDate, Emits, Listing;
    var l: nat :| EndsBy(g, Between(late, a, b), l);
    var m: nat :| EndsBy(g, Between(late, b, c), m);
    var n: nat :| EndsBy(g, Between(late, a, c), n);
    var top := l + m + n;
    ListingIsFilter(g, Between(late, a, b), top);
    ListingIsFilter(g, Between(late, b, c), top);
    ListingIsFilter(g, Between(late, a, c), top);
    PrefixSplits(g, late, a, b, c, top);
  }

  /** Two neighbouring windows together return the flows, and the totals, of the window they make. */
  lemma {:induction false} TwoWindowsConserve(cfs: seq<Generator>, late: bool, a: Instant, b: Instant, c: Instant,
                                              currency: string)
    requires a <= b <= c
    ensures multiset(Flows(cfs, late, a, c)) == multiset(Flows(cfs, late, a, b)) + multiset(Flows(cfs, late, b, c))
    ensures Total(Flows(cfs, late, a, c), currency)
            == Total(Flows(cfs, late, a, b), currency) + Total(Flows(cfs, late, b, c), currency)
  {
    hide PayDate, Emits, Listing;
    BetweenEnds(cfs, late, a, b);
    BetweenEnds(cfs, late, b, c);
    BetweenEnds(cfs, late, a, c);
    if cfs != [] {
      var front, g := cfs[..|cfs| - 1], cfs[|cfs| - 1];
      TwoWindowsConserve(front, late, a, b, c, currency);
      WindowSplits(g, late, a, b, c);
      TotalAppends(Flows(front, late, a, b), Listing(g, Between(late, a, b)), currency);
      TotalAppends(Flows(front, late, b, c), Listing(g, Between(late, b, c)), currency);
      TotalAppends(Flows(front, late, a, c), Listing(g, Between(late, a, c)), currency);
      TotalAppends(Listing(g, Between(late, a, b)), Listing(g, Between(late, b, c)), currency);
    }
  }

  /** Any chain of windows over ordered cut points conserves the cashflows of the single window from
      the first cut to the last, as a multiset and as a total in every currency. */
  lemma {:induction false} WindowChainConserves(cfs: seq<Generator>, late: bool, cuts: seq<Instant>, currency: string)
    requires |cuts| >= 1 && Ordered(cuts)
    ensures multiset(Chained(cfs, late, cuts)) == multiset(Flows(cfs, late, cuts[0], cuts[|cuts| - 1]))
    ensures Total(Chained(cfs, late, cuts), currency)
            == Total(Flows(cfs, late, cuts[0], cuts[|cuts| - 1]), currency)
  {
    hide PayDate, Emits, Listing, Flows;
    if |cuts| == 1 {
      NothingWithin(cfs, late, cuts[0]);
    } else {
      var front := cuts[..|cuts| - 1];
      WindowChainConserves(cfs, late, front, currency);
      var a, b, c := cuts[0], cuts[|cuts| - 2], cuts[|cuts| - 1];
      TwoWindowsConserve(cfs, late, a, b, c, currency);
      TotalAppends(Chained(cfs, late, front), Flows(cfs, late, b, c), currency);
    }
  }

  lemma {:induction false} NothingWithin(cfs: seq<Generator>, late: bool, a: Instant)
    ensures Flows(cfs, late, a, a) == []
  {
    hide PayDate, Emits, Listing;
    BetweenEnds(cfs, late, a, a);
    if cfs != [] {
      NothingWithin(cfs[..|cfs| - 1], late, a);
      assert EndsBy(cfs[|cfs| - 1], Between(late, a, a), 0);
      ListingIsFilter(cfs[|cfs| - 1], Between(late, a, a), 0);
    }
  }

  // ---------- generators unknown at the start of a window ----------

  /** The same window with `skip_less_than_ref_date` on: it leaves out the generators created after its own
      start, the ones that `exclude_unknown_on_ref_date` leaves out of the query. */
  function Known(late: bool, from: Instant, to: Instant): Window {
    Between(late, from, to).(skipNewer := true)
  }

  ghost function KnownFlows(cfs: seq<Generator>, late: bool, from: Instant, to: Instant): seq<CashFlow> {
    KnownEnds(cfs, late, from, to);
    Listings(cfs, Known(late, from, to))
  }

  lemma {:induction false} KnownEnds(cfs: seq<Generator>, late: bool, from: Instant, to: Instant)
    ensures forall g :: g in cfs ==> Ends(g, Known(late, from, to))
  {
    forall g | g in cfs
      ensures Ends(g, Known(late, from, to))
    {
      BoundedWindowEnds(g, Known(late, from, to));
    }
  }

  ghost function KnownChain(cfs: seq<Generator>, late: bool, cuts: seq<Instant>): seq<CashFlow> {
    if |cuts| < 2 then []
    else KnownChain(cfs, late, cuts[..|cuts| - 1]) + KnownFlows(cfs, late, cuts[|cuts| - 2], cuts[|cuts| - 1])
  }

  function CreatedBy(cfs: seq<Generator>, t: Instant): seq<Generator> {
    if cfs == [] then []
    else CreatedBy(cfs[..|cfs| - 1], t) + if cfs[|cfs| - 1].created <= t then [cfs[|cfs| - 1]] else []
  }

  function CreatedAfter(cfs: seq<Generator>, t: Instant): seq<Generator> {
    if cfs == [] then []
    else CreatedAfter(cfs[..|cfs| - 1], t) + if cfs[|cfs| - 1].created <= t then [] else [cfs[|cfs| - 1]]
  }

  lemma {:induction false} CreatedMembers(cfs: seq<Generator>, t: Instant)
    ensures forall g :: g in CreatedBy(cfs, t) <==> g in cfs && g.created <= t
    ensures forall g :: g in CreatedAfter(cfs, t) <==> g in cfs && t < g.created
  {
    if cfs != [] {
      CreatedMembers(cfs[..|cfs| - 1], t);
      assert cfs == cfs[..|cfs| - 1] + [cfs[|cfs| - 1]];
    }
  }

  lemma {:induction false} NextKnown(cfs: seq<Generator>, g: Generator, late: bool, a: Instant, b: Instant)
    ensures Ends(g, Known(late, a, b))
    ensures KnownFlows(cfs + [g], late, a, b) == KnownFlows(cfs, late, a, b) + Listing(g, Known(late, a, b))
  {
    hide Listing;
    assert (cfs + [g])[..|cfs|] == cfs;
    assert g in cfs + [g];
    KnownEnds(cfs + [g], late, a, b);
    KnownEnds(cfs, late, a, b);
  }

  /** A window's flows are those of the generators created by `t` and of those created after it. */
  lemma {:induction false} FlowsSplitByCreation(cfs: seq<Generator>, late: bool, a: Instant, b: Instant, t: Instant)
    ensures multiset(KnownFlows(cfs, late, a, b))
            == multiset(KnownFlows(CreatedBy(cfs, t), late, a, b))
               + multiset(KnownFlows(CreatedAfter(cfs, t), late, a, b))
  {
    hide KnownFlows, Listing, Known;
    if cfs == [] {
      NoneKnown(late, a, b);
    } else {
      var front, g := cfs[..|cfs| - 1], cfs[|cfs| - 1];
      assert cfs == front + [g];
      FlowsSplitByCreation(front, late, a, b, t);
      NextKnown(front, g, late, a, b);
      NextKnown(CreatedBy(front, t), g, late, a, b);
      NextKnown(CreatedAfter(front, t), g, late, a, b);
      assert CreatedBy(front, t) + [] == CreatedBy(front, t) && CreatedAfter(front, t) + [] == CreatedAfter(front, t);
    }
  }

  lemma {:induction false} NoneKnown(late: bool, a: Instant, b: Instant)
    ensures KnownFlows([], late, a, b) == []
  {
  }

  lemma {:induction false} ChainSplitsByCreation(cfs: seq<Generator>, late: bool, cuts: seq<Instant>, t: Instant)
    ensures multiset(KnownChain(cfs, late, cuts))
            == multiset(KnownChain(CreatedBy(cfs, t), late, cuts))
               + multiset(KnownChain(CreatedAfter(cfs, t), late, cuts))
  {
    hide KnownFlows, CreatedBy, CreatedAfter;
    if 2 <= |cuts| {
      ChainSplitsByCreation(cfs, late, cuts[..|cuts| - 1], t);
      FlowsSplitByCreation(cfs, late, cuts[|cuts| - 2], cuts[|cuts| - 1], t);
    }
  }

  /** Generators created by the start of a window are all known in it. */
  lemma {:induction false} AllKnown(cfs: seq<Generator>, late: bool, a: Instant, b: Instant)
    requires forall g :: g in cfs ==> g.created <= a
    ensures KnownFlows(cfs, late, a, b) == Flows(cfs, late, a, b)
  {
    hide Listing;
    BetweenEnds(cfs, late, a, b);
    KnownEnds(cfs, late, a, b);
    if cfs != [] {
      AllKnown(cfs[..|cfs| - 1], late, a, b);
      assert Unskipping(Known(late, a, b)) == Between(late, a, b);
      assert cfs[|cfs| - 1] in cfs;
      ListingUnlessSkipped(cfs[|cfs| - 1], Known(late, a, b));
    }
  }

  lemma {:induction false} AllKnownThroughout(cfs: seq<Generator>, late: bool, cuts: seq<Instant>)
    requires |cuts| >= 1 && Ordered(cuts) && forall g :: g in cfs ==> g.created <= cuts[0]
    ensures KnownChain(cfs, late, cuts) == Chained(cfs, late, cuts)
  {
    hide KnownFlows, Flows;
    if 2 <= |cuts| {
      AllKnownThroughout(cfs, late, cuts[..|cuts| - 1]);
      AllKnown(cfs, late, cuts[|cuts| - 2], cuts[|cuts| - 1]);
    }
  }

  /** Whether the window lists nothing of a generator that is known at its start. */
  ghost predicate NothingNew(g: Generator, late: bool, from: Instant, to: Instant) {
    BoundedWindowEnds(g, Between(late, from, to));
    g.created <= from ==> Listing(g, Between(late, from, to)) == []
  }

  ghost predicate NothingNewIn(g: Generator, late: bool, cuts: seq<Instant>, i: nat)
    requires 1 <= i < |cuts|
  {
    NothingNew(g, late, cuts[i - 1], cuts[i])
  }

  lemma {:induction false} NothingNewIff(g: Generator, late: bool, a: Instant, b: Instant)
    requires Ends(g, Known(late, a, b))
    ensures Listing(g, Known(late, a, b)) == [] <==> NothingNew(g, late, a, b)
  {
    hide Listing;
    BoundedWindowEnds(g, Between(late, a, b));
    assert Unskipping(Known(late, a, b)) == Between(late, a, b);
    ListingUnlessSkipped(g, Known(late, a, b));
  }

  lemma {:induction false} NothingKnownIff(cfs: seq<Generator>, late: bool, a: Instant, b: Instant)
    ensures KnownFlows(cfs, late, a, b) == [] <==> forall g :: g in cfs ==> NothingNew(g, late, a, b)
  {
    hide KnownFlows, Listing, NothingNew;
    if cfs == [] {
      NoneKnown(late, a, b);
    } else {
      var front, g := cfs[..|cfs| - 1], cfs[|cfs| - 1];
      assert cfs == front + [g];
      NothingKnownIff(front, late, a, b);
      NextKnown(front, g, late, a, b);
      NothingNewIff(g, late, a, b);
    }
  }

  lemma {:induction false} NothingChainedIff(cfs: seq<Generator>, late: bool, cuts: seq<Instant>)
    ensures KnownChain(cfs, late, cuts) == [] <==>
            forall g, i :: g in cfs && 1 <= i < |cuts| ==> NothingNewIn(g, late, cuts, i)
  {
    hide KnownFlows, NothingNew;
    if 2 <= |cuts| {
      var n, front := |cuts| - 1, cuts[..|cuts| - 1];
      NothingChainedIff(cfs, late, front);
      NothingKnownIff(cfs, late, cuts[n - 1], cuts[n]);
      assert forall g, i :: g in cfs && 1 <= i < n ==>
                              (NothingNewIn(g, late, cuts, i) <==> NothingNewIn(g, late, front, i));
      assert forall g :: g in cfs ==> (NothingNewIn(g, late, cuts, n) <==> NothingNew(g, late, cuts[n - 1], cuts[n]));
    }
  }

  /** With unknown generators left out of each window, the chain returns the single window's flows and, in
      addition, those of generators that became known on the way. */
  lemma {:induction false} KnownChainGains(cfs: seq<Generator>, late: bool, cuts: seq<Instant>)
    requires |cuts| >= 1 && Ordered(cuts)
    ensures multiset(KnownChain(cfs, late, cuts))
            == multiset(KnownFlows(cfs, late, cuts[0], cuts[|cuts| - 1]))
               + multiset(KnownChain(CreatedAfter(cfs, cuts[0]), late, cuts))
  {
    hide KnownFlows, KnownChain, Flows, Chained, CreatedBy, CreatedAfter, NothingNew;
    var older, newer := CreatedBy(cfs, cuts[0]), CreatedAfter(cfs, cuts[0]);
    var last := cuts[|cuts| - 1];
    CreatedMembers(cfs, cuts[0]);
    ChainSplitsByCreation(cfs, late, cuts, cuts[0]);
    FlowsSplitByCreation(cfs, late, cuts[0], last, cuts[0]);
    AllKnownThroughout(older, late, cuts);
    AllKnown(older, late, cuts[0], last);
    WindowChainConserves(older, late, cuts, "");
    NothingKnownIff(newer, late, cuts[0], last);
    forall g | g in newer
      ensures NothingNew(g, late, cuts[0], last)
    {
      UnknownHasNothingNew(g, late, cuts[0], last);
    }
  }

  lemma {:induction false} UnknownHasNothingNew(g: Generator, late: bool, from: Instant, to: Instant)
    requires from < g.created
    ensures NothingNew(g, late, from, to)
  {
  }

  /** So it conserves the cashflows if and only if no window lists a flow of a generator created after the
      first cut point and by the window's start. */
  lemma {:induction false} KnownChainConservesIff(cfs: seq<Generator>, late: bool, cuts: seq<Instant>)
    requires |cuts| >= 1 && Ordered(cuts)
    ensures multiset(KnownChain(cfs, late, cuts)) == multiset(KnownFlows(cfs, late, cuts[0], cuts[|cuts| - 1])) <==>
            forall g, i :: g in cfs && cuts[0] < g.created && 1 <= i < |cuts| ==> NothingNewIn(g, late, cuts, i)
  {
    hide KnownFlows, KnownChain, CreatedAfter, NothingNewIn;
    var newer := CreatedAfter(cfs, cuts[0]);
    KnownChainGains(cfs, late, cuts);
    NothingChainedIff(newer, late, cuts);
    CreatedMembers(cfs, cuts[0]);
    var extra := KnownChain(newer, late, cuts);
    assert multiset(extra) == multiset{} <==> extra == [] by {
      if extra != [] {
        assert extra[0] in multiset(extra);
      }
    }
  }
}
