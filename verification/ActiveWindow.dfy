/** Windowing the generated cashflows (`iter_active_cashflows`): skip, then stop early. */
module ActiveWindow {
  import opened Wrappers
  import opened Dates
  import opened Rolls
  import opened Generators

  /** The arguments of `iter_active_cashflows`. */
  datatype Window = Window(
    ref: Instant,
    maxDays: Option<int>,
    maxDate: Option<Instant>,
    onValueDate: bool,
    includeEnd: bool,
    skipNewer: bool)

  predicate BeforeStart(w: Window, p: Instant) {
    if w.onValueDate then p < w.ref else p <= w.ref
  }

  predicate PastMaxDays(w: Window, p: Instant) {
    w.maxDays.Some? &&
    var daysAway := WholeDays(p - w.ref);
    if w.includeEnd then daysAway > w.maxDays.value else daysAway >= w.maxDays.value
  }

  predicate PastMaxDate(w: Window, p: Instant) {
    w.maxDate.Some? && if w.includeEnd then p > w.maxDate.value else p >= w.maxDate.value
  }

  predicate PastWindow(w: Window, p: Instant) {
    PastMaxDays(w, p) || PastMaxDate(w, p)
  }

  predicate InWindow(w: Window, p: Instant) {
    !BeforeStart(w, p) && !PastWindow(w, p)
  }

  /** `.days` rounds down, so a window of `m` days ends at a whole number of days after `ref`: `m`
      of them, or `m + 1` when its end is included. */
  lemma {:induction false} MaxDaysIsHalfOpen(w: Window, p: Instant)
    requires w.maxDays.Some?
    ensures PastMaxDays(w, p) <==> w.ref + (w.maxDays.value + if w.includeEnd then 1 else 0) * DAY <= p
  {
  }

  lemma {:induction false} WindowEndStays(w: Window, p: Instant, q: Instant)
    requires p <= q && PastWindow(w, p)
    ensures PastWindow(w, q)
  {
  }

  predicate Skipped(g: Generator, w: Window) {
    w.skipNewer && g.created > w.ref
  }

  /** The plain filter: occurrence `k` of the whole rolled recurrence belongs to the window. */
  predicate Listed(g: Generator, w: Window, k: nat) {
    !Skipped(g, w) && Emits(g, k) && InWindow(w, PayDate(g, k))
  }

  /** The filter applied to the first `n` occurrences. */
  function Filtered(g: Generator, w: Window, n: nat): seq<CashFlow> {
    if n == 0 then []
    else Filtered(g, w, n - 1) + if Listed(g, w, n - 1) then [FlowAt(g, n - 1)] else []
  }

  /** No occurrence from `n` on belongs to the window. */
  ghost predicate EndsBy(g: Generator, w: Window, n: nat) {
    forall k: nat :: n <= k ==> !Listed(g, w, k)
  }

  ghost predicate Ends(g: Generator, w: Window) {
    exists n: nat :: EndsBy(g, w, n)
  }

  /** The filter of the whole recurrence, for a window that ends. */
  ghost function Listing(g: Generator, w: Window): seq<CashFlow>
    requires Ends(g, w)
  {
    var n: nat :| EndsBy(g, w, n);
    Filtered(g, w, n)
  }

  lemma {:induction false} FilteredSkips(g: Generator, w: Window, n: nat, m: nat)
    requires n <= m && forall k: nat :: n <= k < m ==> !Listed(g, w, k)
    ensures Filtered(g, w, m) == Filtered(g, w, n)
  {
    if n < m {
      FilteredSkips(g, w, n, m - 1);
    }
  }

  /** Every long enough prefix of the recurrence has the same filter, which is the listing. */
  lemma {:induction false} ListingIsFilter(g: Generator, w: Window, m: nat)
    requires EndsBy(g, w, m)
    ensures Ends(g, w) && Listing(g, w) == Filtered(g, w, m)
  {
    var n: nat :| EndsBy(g, w, n) && Listing(g, w) == Filtered(g, w, n);
    assert EndsBy(g, w, n);
    if n <= m {
      FilteredSkips(g, w, n, m);
    } else {
      FilteredSkips(g, w, m, n);
    }
  }

  /** Once an occurrence is past the window end, so is everything after it: the `break`. */
  lemma {:induction false} BreakIsFinal(g: Generator, w: Window, k: nat)
    requires g.calendar.Some? && PastWindow(w, PayDate(g, k))
    ensures EndsBy(g, w, k)
  {
    forall j: nat | k <= j
      ensures !Listed(g, w, j)
    {
      PayDatesAscend(g, k, j);
      WindowEndStays(w, PayDate(g, k), PayDate(g, j));
    }
  }

  /** Occurrences `lo` to `hi - 1` are all early ones, which the loop passes over. */
  ghost predicate AllEarly(g: Generator, w: Window, lo: nat, hi: nat) {
    forall k: nat :: lo <= k < hi ==> Emits(g, k) && BeforeStart(w, PayDate(g, k))
  }

  /** How far the skipping of `continue` can still go from occurrence `k`. */
  function SkipsLeft(g: Generator, w: Window, k: nat): nat {
    if IsRecurring(g) then
      var left := w.ref + 3 * DAY + 1 - g.periodicity.value.at(k);
      if left < 0 then 0 else left
    else if k == 0 then 1 else 0
  }

  lemma {:induction false} SkippingAdvances(g: Generator, w: Window, k: nat)
    requires Emits(g, k) && BeforeStart(w, PayDate(g, k))
    ensures SkipsLeft(g, w, k + 1) < SkipsLeft(g, w, k)
  {
  }

  /** The inner loop of `iter_active_cashflows` up to its next `yield`, on one generator. It ends on
      endless recurrences and unbounded windows alike; it pulls early occurrences and one more; the
      yields are, one by one, what the plain filter keeps, and a stop means nothing is left to keep. */
  method NextActive(s: HdlStream, w: Window) returns (r: Pull)
    requires s.Valid() && !s.finished && !Skipped(s.g, w)
    modifies s
    ensures s.Valid() && old(s.position) <= s.position
    ensures old(s.position) < s.position ==> AllEarly(s.g, w, old(s.position), s.position - 1)
    ensures r.Yield? ==> old(s.position) < s.position && !s.finished && Listed(s.g, w, s.position - 1)
    ensures r.Yield? ==> Filtered(s.g, w, s.position) == Filtered(s.g, w, old(s.position)) + [r.flow]
    ensures r.StopIteration? ==> Ends(s.g, w) && Listing(s.g, w) == Filtered(s.g, w, old(s.position))
    ensures r.Fail? <==> s.g.calendar.None?
    ensures r.Fail? ==> r.error == NotImplementedError
  {
    hide PayDate, Filtered, PastMaxDays, PastMaxDate;
    while true
      invariant s.Valid() && !s.finished && old(s.position) <= s.position
      invariant AllEarly(s.g, w, old(s.position), s.position)
      invariant s.g.calendar.None? ==> s.position == old(s.position)
      decreases SkipsLeft(s.g, w, s.position)
    {
      ghost var k := s.position;
      r := s.Next();
      if r.Fail? {
        return;
      }
      if r.StopIteration? {
        StopsAt(s.g, w, old(s.position), k, k);
        return;
      }
      if BeforeStart(w, r.flow.payDate) {
        SkippingAdvances(s.g, w, k);
        continue;
      }
      if PastMaxDays(w, r.flow.payDate) {
        BreakIsFinal(s.g, w, k);
        StopsAt(s.g, w, old(s.position), k, k);
        return StopIteration;
      }
      if PastMaxDate(w, r.flow.payDate) {
        BreakIsFinal(s.g, w, k);
        StopsAt(s.g, w, old(s.position), k, k);
        return StopIteration;
      }
      YieldsAt(s.g, w, old(s.position), k);
      return;
    }
  }

  lemma {:induction false} StopsAt(g: Generator, w: Window, lo: nat, hi: nat, n: nat)
    requires lo <= hi == n && AllEarly(g, w, lo, hi) && EndsBy(g, w, n)
    ensures Ends(g, w) && Listing(g, w) == Filtered(g, w, lo)
  {
    hide PayDate;
    FilteredSkips(g, w, lo, hi);
    ListingIsFilter(g, w, hi);
  }

  lemma {:induction false} YieldsAt(g: Generator, w: Window, lo: nat, k: nat)
    requires lo <= k && AllEarly(g, w, lo, k) && Listed(g, w, k)
    ensures Filtered(g, w, k + 1) == Filtered(g, w, lo) + [FlowAt(g, k)]
  {
    hide PayDate;
    FilteredSkips(g, w, lo, k);
  }

  // ---------- the whole list ----------

  lemma {:induction false} PayDatesPass(g: Generator, end: int, k: nat)
    requires g.calendar.Some? && IsRecurring(g)
    requires end + 3 * DAY - g.periodicity.value.at(0) < k
    ensures end < PayDate(g, k)
  {
    RuleAdvances(g.periodicity.value, k);
    PayDateNearOccurrence(g, k);
  }

  /** A window with either bound ends on every generator, endless recurrences included; a generator
      that itself ends does so in every window. */
  lemma {:induction false} BoundedWindowEnds(g: Generator, w: Window)
    requires w.maxDays.Some? || w.maxDate.Some? || !IsRecurring(g) || g.endDate.Some?
             || g.periodicity.value.count.Some?
    ensures Ends(g, w)
  {
    if g.calendar.None? {
      assert EndsBy(g, w, 0);
    } else if !IsRecurring(g) {
      assert EndsBy(g, w, 1);
    } else if g.periodicity.value.count.Some? {
      assert EndsBy(g, w, g.periodicity.value.count.value);
    } else {
      var end := if w.maxDays.Some? then w.ref + (w.maxDays.value + 1) * DAY
                 else if w.maxDate.Some? then w.maxDate.value
                 else EndOfDay(DayOf(g.endDate.value));
      var far := end + 3 * DAY - g.periodicity.value.at(0) + 1;
      var n: nat := if far < 0 then 0 else far;
      PayDatesPass(g, end, n);
      if w.maxDays.Some? || w.maxDate.Some? {
        if w.maxDays.Some? {
          MaxDaysIsHalfOpen(w, PayDate(g, n));
        }
        BreakIsFinal(g, w, n);
      } else {
        forall k: nat | n <= k
          ensures !Listed(g, w, k)
        {
          PayDatesPass(g, end, k);
        }
        assert EndsBy(g, w, n);
      }
    }
  }

  /** The listings of several generators, one after the other. */
  ghost function Listings(cfs: seq<Generator>, w: Window): seq<CashFlow>
    requires forall g :: g in cfs ==> Ends(g, w)
  {
    if cfs == [] then [] else Listings(cfs[..|cfs| - 1], w) + Listing(cfs[|cfs| - 1], w)
  }

  predicate Fails(g: Generator, w: Window) {
    !Skipped(g, w) && g.calendar.None?
  }

  /** `list(iter_active_cashflows(cfs, ...))`: skipping and stopping early returns the plain filter of
      every generator's whole recurrence, or raises exactly when an unskipped one has no calendar. */
  method ListActive(cfs: seq<Generator>, w: Window) returns (r: Result<seq<CashFlow>>)
    requires forall g :: g in cfs ==> Ends(g, w)
    ensures r.Raised? <==> exists i :: 0 <= i < |cfs| && Fails(cfs[i], w)
    ensures r.Raised? ==> r.error == NotImplementedError
    ensures r.Ok? ==> r.value == Listings(cfs, w)
  {
    hide PayDate, Emits;
    var flows: seq<CashFlow> := [];
    for i := 0 to |cfs|
      invariant flows == Listings(cfs[..i], w)
      invariant forall j :: 0 <= j < i ==> !Fails(cfs[j], w)
    {
      assert cfs[..i + 1][..i] == cfs[..i];
      if Skipped(cfs[i], w) {
        assert EndsBy(cfs[i], w, 0);
        ListingIsFilter(cfs[i], w, 0);
        continue;
      }
      var one, _ := ListOne(cfs[i], w);
      if one.Raised? {
        return one;
      }
      flows := flows + one.value;
    }
    assert cfs[..|cfs|] == cfs;
    return Ok(flows);
  }

  /** An occurrence that the loop looks at and goes on from. */
  predicate GoesOn(g: Generator, w: Window, k: nat) {
    Emits(g, k) && (BeforeStart(w, PayDate(g, k)) || InWindow(w, PayDate(g, k)))
  }

  lemma {:induction false} PulledGoOn(g: Generator, w: Window, lo: nat, hi: nat, yielded: bool)
    requires lo < hi ==> AllEarly(g, w, lo, hi - 1)
    requires yielded ==> lo < hi && Listed(g, w, hi - 1)
    ensures forall k: nat :: lo <= k && k + 1 < hi ==> GoesOn(g, w, k)
    ensures yielded ==> GoesOn(g, w, hi - 1)
  {
  }

  /** The inner loop run to its end. Of the occurrences it pulls, endless recurrence or not, only the last
      can lie past the end of the window. */
  method ListOne(g: Generator, w: Window) returns (r: Result<seq<CashFlow>>, ghost pulled: nat)
    requires Ends(g, w) && !Skipped(g, w)
    ensures if g.calendar.None? then r == Raised(NotImplementedError) else r == Ok(Listing(g, w))
    ensures forall k: nat :: k + 1 < pulled ==> GoesOn(g, w, k)
  {
    hide PayDate, Emits, GoesOn, InWindow, BeforeStart;
    pulled := 0;
    var s := new HdlStream(g);
    var flows: seq<CashFlow> := [];
    ghost var n: nat :| EndsBy(g, w, n);
    while true
      invariant fresh(s) && s.Valid() && !s.finished && s.g == g && s.position <= n
      invariant flows == Filtered(g, w, s.position)
      invariant pulled == s.position && forall k: nat :: k < s.position ==> GoesOn(g, w, k)
      decreases n - s.position
    {
      ghost var from := s.position;
      var pull := NextActive(s, w);
      pulled := s.position;
      PulledGoOn(g, w, from, s.position, pull.Yield?);
      match pull
      case Yield(flow) => flows := flows + [flow];
      case StopIteration => return Ok(flows), pulled;
      case Fail(e) => return Raised(e), pulled;
    }
  }

  // ---------- what a listing holds, in terms of the rows ----------

  /** `f` is the flow of occurrence `k`, and the arguments of the call admit it: the start is included or not, a
      bound of `m` days ends the window `m` whole days after the reference, or `m + 1` with its end included,
      and a bound by date includes that instant or not. */
  ghost predicate Admits(g: Generator, w: Window, k: nat, f: CashFlow) {
    && IsGenerated(g, k, f) && (w.skipNewer ==> g.created <= w.ref)
    && (if w.onValueDate then w.ref <= f.payDate else w.ref < f.payDate)
    && (w.maxDays.Some? ==> f.payDate < w.ref + (w.maxDays.value + if w.includeEnd then 1 else 0) * DAY)
    && (w.maxDate.Some? ==> if w.includeEnd then f.payDate <= w.maxDate.value else f.payDate < w.maxDate.value)
  }

  lemma {:induction false} ListedIffAdmitted(g: Generator, w: Window, k: nat, f: CashFlow)
    ensures Listed(g, w, k) && f == FlowAt(g, k) <==> Admits(g, w, k, f)
  {
    hide Emits, IsGenerated, PayDate;
    EmitsIff(g, k, f);
    if w.maxDays.Some? {
      MaxDaysIsHalfOpen(w, f.payDate);
    }
    CalendarOf(g, k, f);
  }

  lemma {:induction false} CalendarOf(g: Generator, k: nat, f: CashFlow)
    ensures Emits(g, k) || IsGenerated(g, k, f) ==> g.calendar.Some?
  {
  }

  lemma {:induction false} FilteredIsAdmitted(g: Generator, w: Window, n: nat, f: CashFlow)
    ensures f in Filtered(g, w, n) <==> exists k: nat :: k < n && Admits(g, w, k, f)
  {
    hide Listed, Admits;
    if n != 0 {
      FilteredIsAdmitted(g, w, n - 1, f);
      ListedIffAdmitted(g, w, n - 1, f);
    }
  }

  /** A listing holds exactly the flows of the generator that the call admits. */
  lemma {:induction false} ListingIsAdmitted(g: Generator, w: Window, f: CashFlow)
    requires Ends(g, w)
    ensures f in Listing(g, w) <==> exists k: nat :: Admits(g, w, k, f)
  {
    hide Listed, Admits;
    var n: nat :| EndsBy(g, w, n);
    ListingIsFilter(g, w, n);
    FilteredIsAdmitted(g, w, n, f);
    forall k: nat | Admits(g, w, k, f)
      ensures k < n
    {
      ListedIffAdmitted(g, w, k, f);
    }
  }

  /** And the whole list holds exactly the flows that the call admits of its generators. */
  lemma {:induction false} ListingsAreAdmitted(cfs: seq<Generator>, w: Window, f: CashFlow)
    requires forall g :: g in cfs ==> Ends(g, w)
    ensures f in Listings(cfs, w) <==> exists g, k: nat :: g in cfs && Admits(g, w, k, f)
  {
    hide Listing, Admits;
    if cfs != [] {
      var front, last := cfs[..|cfs| - 1], cfs[|cfs| - 1];
      assert cfs == front + [last];
      ListingsAreAdmitted(front, w, f);
      ListingIsAdmitted(last, w, f);
    }
  }

  // ---------- the skip flag, as documented and as written ----------

  /** What the documentation of `skip_less_than_ref_date` says: skip what was created before the reference date. */
  predicate SkippedAsDocumented(g: Generator, w: Window) {
    w.skipNewer && g.created < w.ref
  }

  function Unskipping(w: Window): Window {
    w.(skipNewer := false)
  }

  /** The listings that the documentation promises. */
  ghost function DocumentedListing(g: Generator, w: Window): seq<CashFlow>
    requires Ends(g, Unskipping(w))
  {
    if SkippedAsDocumented(g, w) then [] else Listing(g, Unskipping(w))
  }

  ghost function DocumentedListings(cfs: seq<Generator>, w: Window): seq<CashFlow>
    requires forall g :: g in cfs ==> Ends(g, Unskipping(w))
  {
    if cfs == [] then [] else DocumentedListings(cfs[..|cfs| - 1], w) + DocumentedListing(cfs[|cfs| - 1], w)
  }

  /** The flag either hides a generator or makes no difference. */
  lemma {:induction false} ListingUnlessSkipped(g: Generator, w: Window)
    requires Ends(g, Unskipping(w))
    ensures Ends(g, w) && Listing(g, w) == if Skipped(g, w) then [] else Listing(g, Unskipping(w))
  {
    var n: nat :| EndsBy(g, Unskipping(w), n);
    ListingIsFilter(g, Unskipping(w), n);
    if Skipped(g, w) {
      assert EndsBy(g, w, 0);
      ListingIsFilter(g, w, 0);
    } else {
      forall k: nat | n <= k
        ensures !Listed(g, w, k)
      {
        ListedAlike(g, w, k);
      }
      ListingIsFilter(g, w, n);
      SameFilter(g, w, n);
    }
  }

  lemma {:induction false} ListedAlike(g: Generator, w: Window, k: nat)
    requires !Skipped(g, w)
    ensures Listed(g, w, k) <==> Listed(g, Unskipping(w), k)
  {
    hide PayDate, Emits;
  }

  lemma {:induction false} SameFilter(g: Generator, w: Window, n: nat)
    requires !Skipped(g, w)
    ensures Filtered(g, w, n) == Filtered(g, Unskipping(w), n)
  {
    hide PayDate, Listed, Skipped;
    if n != 0 {
      SameFilter(g, w, n - 1);
      ListedAlike(g, w, n - 1);
    }
  }

  /** Created exactly at the reference date, or with nothing in the window to tell the two skips apart. */
  ghost predicate SkipsAgree(g: Generator, w: Window)
    requires Ends(g, Unskipping(w))
  {
    w.skipNewer ==> g.created == w.ref || Listing(g, Unskipping(w)) == []
  }

  /** On one generator the code does what is documented if and only if the flag is off, the generator was
      created at the reference date itself, or the window lists nothing of it. */
  lemma {:induction false} SkipIsDocumentedIff(g: Generator, w: Window)
    requires Ends(g, Unskipping(w))
    ensures Ends(g, w) && (Listing(g, w) == DocumentedListing(g, w) <==> SkipsAgree(g, w))
  {
    ListingUnlessSkipped(g, w);
  }

  ghost predicate DistinctNames(cfs: seq<Generator>) {
    forall i, j :: 0 <= i < j < |cfs| ==> cfs[i].name != cfs[j].name
  }

  lemma {:induction false} ListedUnderItsName(g: Generator, w: Window)
    requires Ends(g, w)
    ensures forall f :: f in Listing(g, w) ==> f.name == g.name
  {
    var n: nat :| EndsBy(g, w, n);
    ListingIsFilter(g, w, n);
    FilteredUnderItsName(g, w, n);
  }

  lemma {:induction false} FilteredUnderItsName(g: Generator, w: Window, n: nat)
    ensures forall f :: f in Filtered(g, w, n) ==> f.name == g.name
  {
    if n != 0 {
      FilteredUnderItsName(g, w, n - 1);
    }
  }

  /** On several generators the whole list is as documented when it is so for each; and only then, when the
      flows tell by their names which generator they come from. */
  lemma {:induction false} SkipsAreDocumentedIff(cfs: seq<Generator>, w: Window)
    requires forall g :: g in cfs ==> Ends(g, Unskipping(w))
    ensures forall g :: g in cfs ==> Ends(g, w)
    ensures (forall g :: g in cfs ==> SkipsAgree(g, w)) ==> Listings(cfs, w) == DocumentedListings(cfs, w)
    ensures DistinctNames(cfs) ==>
              (Listings(cfs, w) == DocumentedListings(cfs, w) <==> forall g :: g in cfs ==> SkipsAgree(g, w))
  {
    hide Listing, DocumentedListing, SkipsAgree;
    if cfs != [] {
      var front, g := cfs[..|cfs| - 1], cfs[|cfs| - 1];
      assert cfs == front + [g];
      SkipsAreDocumentedIff(front, w);
      SkipIsDocumentedIff(g, w);
      if DistinctNames(cfs) && Listings(cfs, w) == DocumentedListings(cfs, w) {
        ListsUnderOtherNames(front, w, g.name);
        UnderItsNames(g, w);
        SameTails(Listings(front, w), Listing(g, w), DocumentedListings(front, w), DocumentedListing(g, w), g.name);
      }
    }
  }

  lemma {:induction false} UnderItsNames(g: Generator, w: Window)
    requires Ends(g, Unskipping(w)) && Ends(g, w)
    ensures forall f :: f in Listing(g, w) || f in DocumentedListing(g, w) ==> f.name == g.name
  {
    hide Listing;
    ListedUnderItsName(g, w);
    ListedUnderItsName(g, Unskipping(w));
  }

  lemma {:induction false} ListsUnderOtherNames(cfs: seq<Generator>, w: Window, name: Option<string>)
    requires forall g :: g in cfs ==> Ends(g, Unskipping(w)) && Ends(g, w) && g.name != name
    ensures forall f :: f in Listings(cfs, w) || f in DocumentedListings(cfs, w) ==> f.name != name
  {
    hide Listing, DocumentedListing;
    if cfs != [] {
      ListsUnderOtherNames(cfs[..|cfs| - 1], w, name);
      UnderItsNames(cfs[|cfs| - 1], w);
    }
  }

  /** Two equal lists whose tails are the flows named `name` have equal tails. */
  lemma {:induction false} SameTails(a: seq<CashFlow>, b: seq<CashFlow>, c: seq<CashFlow>, d: seq<CashFlow>,
                                     name: Option<string>)
    requires a + b == c + d
    requires forall f :: f in a || f in c ==> f.name != name
    requires forall f :: f in b || f in d ==> f.name == name
    ensures a == c && b == d
  {
    NamedFrom(a, b, name);
    NamedFrom(c, d, name);
    var all := a + b;
    assert |a| < |all| ==> all[|a|].name == name;
    assert |c| < |all| ==> all[|c|].name == name;
    assert a == (a + b)[..|a|] && c == (c + d)[..|c|];
    assert b == (a + b)[|a|..] && d == (c + d)[|c|..];
  }

  lemma {:induction false} NamedFrom(a: seq<CashFlow>, b: seq<CashFlow>, name: Option<string>)
    requires (forall f :: f in a ==> f.name != name) && forall f :: f in b ==> f.name == name
    ensures forall i :: 0 <= i < |a + b| ==> ((a + b)[i].name == name <==> |a| <= i)
  {
  }

  /** A flow created on day 1 and asked for on day 5, paying on day 10: the fee calculation's window lists it,
      though it was created before the reference date; created on day 7 it is missing, though it was not. */
  lemma {:induction false} SkipsTheWrongOnes(created: Instant)
    ensures var g := Generator(None, 1.0, "EUR", Some(NullCalendar), None, Midnight(10), None, None, created);
            var w := Window(Midnight(5), Some(30), None, true, true, true);
            && Ends(g, w) && Ends(g, Unskipping(w))
            && (created == Midnight(1) ==> |Listing(g, w)| == 1 && DocumentedListing(g, w) == [])
            && (created == Midnight(7) ==> Listing(g, w) == [] && |DocumentedListing(g, w)| == 1)
  {
    hide Adjust;
    var g := Generator(None, 1.0, "EUR", Some(NullCalendar), None, Midnight(10), None, None, created);
    var w := Window(Midnight(5), Some(30), None, true, true, true);
    UnadjustedStays();
    assert Adjust(NullCalendar, 10, Unadjusted) == 10;
    assert EndsBy(g, Unskipping(w), 1);
    ListingIsFilter(g, Unskipping(w), 1);
    ListingUnlessSkipped(g, w);
    assert Filtered(g, Unskipping(w), 0) == [];
  }
}
