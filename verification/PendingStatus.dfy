/** The end-of-day status step (`update_pending_cashflows`) beside the queries that pick the cashflows
    to hedge. */
module PendingStatus {
  import opened Wrappers
  import opened Dates
  import opened Generators
  import opened ActiveWindow
  import opened WindowChaining
  import Sorting

  datatype Status =
    | Inactive
    | PendingApproval
    | PendingActivation
    | Active
    | PendingDeactivation
    | PendingMargin
    | PendingPayment
    | PaymentFail

  /** A row of the cashflow table, as a value. */
  datatype Row = Row(company: int, account: int, generator: Generator, status: Status)

  /** What the end-of-day step of `company` makes of a row's status. */
  function NextStatus(company: int, owner: int, status: Status): Status {
    if owner != company then status
    else match status
      case PendingActivation => Active
      case PendingDeactivation => Inactive
      case _ => status
  }

  // ---------- the step itself, on the rows in place ----------

  class CashFlowRecord {
    const company: int
    const account: int
    const generator: Generator
    var status: Status

    constructor (company: int, account: int, generator: Generator, status: Status)
      ensures this.company == company && this.account == account
      ensures this.generator == generator && this.status == status
    {
      this.company, this.account, this.generator, this.status := company, account, generator, status;
    }
  }

  /** The rows as they stand. */
  function View(rows: seq<CashFlowRecord>): (r: seq<Row>)
    reads rows
    ensures |r| == |rows|
    ensures forall i :: 0 <= i < |rows| ==>
              r[i] == Row(rows[i].company, rows[i].account, rows[i].generator, rows[i].status)
  {
    seq(|rows|, i requires 0 <= i < |rows| reads rows =>
      Row(rows[i].company, rows[i].account, rows[i].generator, rows[i].status))
  }

  /** The table after the end-of-day step of one company. */
  function Step(table: seq<Row>, company: int): seq<Row> {
    seq(|table|, i requires 0 <= i < |table| =>
      table[i].(status := NextStatus(company, table[i].company, table[i].status)))
  }

  ghost predicate Distinct(rows: seq<CashFlowRecord>) {
    forall i, j :: 0 <= i < j < |rows| ==> rows[i] != rows[j]
  }

  function Statuses(rows: seq<CashFlowRecord>): (r: seq<Status>)
    reads rows
    ensures |r| == |rows| && forall i :: 0 <= i < |rows| ==> r[i] == rows[i].status
  {
    seq(|rows|, i requires 0 <= i < |rows| reads rows => rows[i].status)
  }

  /** `get_company_cashflows(company, status)`, when the rows have the given statuses. */
  function Picked(rows: seq<CashFlowRecord>, statuses: seq<Status>, company: int, status: Status): seq<CashFlowRecord>
    requires |rows| == |statuses|
  {
    if rows == [] then []
    else
      var n := |rows| - 1;
      Picked(rows[..n], statuses[..n], company, status)
      + if rows[n].company == company && statuses[n] == status then [rows[n]] else []
  }

  lemma {:induction false} PickedFinds(rows: seq<CashFlowRecord>, statuses: seq<Status>, company: int, status: Status,
                                       i: nat)
    requires i < |rows| == |statuses| && rows[i].company == company && statuses[i] == status
    ensures rows[i] in Picked(rows, statuses, company, status)
  {
    var n := |rows| - 1;
    if i < n {
      PickedFinds(rows[..n], statuses[..n], company, status, i);
    }
  }

  lemma {:induction false} PickedComeFrom(rows: seq<CashFlowRecord>, statuses: seq<Status>, company: int,
                                  status: Status,
                                          x: CashFlowRecord)
      returns (i: nat)
    requires |rows| == |statuses| && x in Picked(rows, statuses, company, status)
    ensures i < |rows| && rows[i] == x && x.company == company && statuses[i] == status
  {
    var n := |rows| - 1;
    if x in Picked(rows[..n], statuses[..n], company, status) {
      i := PickedComeFrom(rows[..n], statuses[..n], company, status, x);
    } else {
      i := n;
    }
  }

  lemma {:induction false} PickedDistinct(rows: seq<CashFlowRecord>, statuses: seq<Status>, company: int,
                                  status: Status)
    requires |rows| == |statuses| && Distinct(rows)
    ensures Distinct(Picked(rows, statuses, company, status))
  {
    if rows != [] {
      var n := |rows| - 1;
      PickedDistinct(rows[..n], statuses[..n], company, status);
      var picked := Picked(rows[..n], statuses[..n], company, status);
      forall k | 0 <= k < |picked|
        ensures picked[k] != rows[n]
      {
        var i := PickedComeFrom(rows[..n], statuses[..n], company, status, picked[k]);
      }
    }
  }

  lemma {:induction false} PickedRows(rows: seq<CashFlowRecord>, statuses: seq<Status>, company: int, status: Status)
    requires |rows| == |statuses|
    ensures var r := Picked(rows, statuses, company, status);
            && (forall i :: 0 <= i < |rows| && rows[i].company == company && statuses[i] == status ==> rows[i] in r)
            && (forall x :: x in r ==>
                  exists i :: 0 <= i < |rows| && rows[i] == x && x.company == company && statuses[i] == status)
            && (Distinct(rows) ==> Distinct(r))
  {
    hide Picked, Distinct;
    forall i | 0 <= i < |rows| && rows[i].company == company && statuses[i] == status
      ensures rows[i] in Picked(rows, statuses, company, status)
    {
      PickedFinds(rows, statuses, company, status, i);
    }
    forall x | x in Picked(rows, statuses, company, status)
      ensures exists i :: 0 <= i < |rows| && rows[i] == x && x.company == company && statuses[i] == status
    {
      var i := PickedComeFrom(rows, statuses, company, status, x);
    }
    if Distinct(rows) {
      PickedDistinct(rows, statuses, company, status);
    }
  }

  /** Picking looks for one status only, so rows moving between two others do not disturb it. */
  lemma {:induction false} PickedSame(rows: seq<CashFlowRecord>, before: seq<Status>, after: seq<Status>,
                                      company: int, status: Status)
    requires |rows| == |before| == |after|
    requires forall i :: 0 <= i < |rows| && (before[i] == status || after[i] == status) ==> before[i] == after[i]
    ensures Picked(rows, before, company, status) == Picked(rows, after, company, status)
  {
    if rows != [] {
      var n := |rows| - 1;
      PickedSame(rows[..n], before[..n], after[..n], company, status);
    }
  }

  lemma {:induction false} AppendDistinct(xs: seq<CashFlowRecord>, ys: seq<CashFlowRecord>)
    requires Distinct(xs) && Distinct(ys)
    requires forall x :: x in xs ==> x !in ys
    ensures Distinct(xs + ys)
  {
    forall i, j | 0 <= i < j < |xs + ys|
      ensures (xs + ys)[i] != (xs + ys)[j]
    {
      assert i < |xs| <= j ==> xs[i] in xs && ys[j - |xs|] in ys;
    }
  }

  /** One of the two loops: every row that the company has in status `from` moves to `to`. */
  method MoveAll(rows: seq<CashFlowRecord>, company: int, from: Status, to: Status)
    returns (picked: seq<CashFlowRecord>)
    requires Distinct(rows) && from != to
    modifies rows
    ensures picked == Picked(rows, old(Statuses(rows)), company, from) && Distinct(picked)
    ensures forall x :: x in rows ==>
                          x.status == if x.company == company && old(x.status) == from then to else old(x.status)
    ensures forall x :: x in picked <==> x in rows && x.company == company && old(x.status) == from
  {
    picked := Picked(rows, Statuses(rows), company, from);
    PickedRows(rows, Statuses(rows), company, from);
    for i := 0 to |picked|
      invariant forall x :: x in rows ==> x.status == if x in picked[..i] then to else old(x.status)
    {
      assert picked[i] in picked && picked[i] in rows;
      picked[i].status := to;
    }
  }

  /** Every row gets its next status, and the rows returned are exactly those that changed:
      the activated ones, then the deactivated ones, each once. */
  method UpdatePendingCashflows(rows: seq<CashFlowRecord>, company: int) returns (updated: seq<CashFlowRecord>)
    requires Distinct(rows)
    modifies rows
    ensures View(rows) == Step(old(View(rows)), company)
    ensures forall x :: x in rows ==>
              x.status == if x.company != company then old(x.status)
                          else if old(x.status) == PendingActivation then Active
                          else if old(x.status) == PendingDeactivation then Inactive
                          else old(x.status)
    ensures updated == Picked(rows, old(Statuses(rows)), company, PendingActivation)
                       + Picked(rows, old(Statuses(rows)), company, PendingDeactivation)
    ensures Distinct(updated) && forall x :: x in updated <==> x in rows && x.status != old(x.status)
  {
    hide Picked, Distinct;
    var activated := MoveAll(rows, company, PendingActivation, Active);
    PickedSame(rows, old(Statuses(rows)), Statuses(rows), company, PendingDeactivation);
    var deactivated := MoveAll(rows, company, PendingDeactivation, Inactive);
    AppendDistinct(activated, deactivated);
    updated := activated + deactivated;
  }

  // ---------- what the step means for the table, on values ----------

  /** The end-of-day steps of several companies, in the order given. */
  function Steps(table: seq<Row>, companies: seq<int>): seq<Row> {
    if companies == [] then table
    else Step(Steps(table, companies[..|companies| - 1]), companies[|companies| - 1])
  }

  /** However the companies interleave or repeat, each of their rows moves once and no other row moves:
      the step is idempotent and the order of the companies does not matter. */
  lemma {:induction false} StepsMoveEachRowOnce(table: seq<Row>, companies: seq<int>)
    ensures |Steps(table, companies)| == |table|
    ensures forall i :: 0 <= i < |table| ==>
              Steps(table, companies)[i] ==
              if table[i].company in companies
              then table[i].(status := NextStatus(table[i].company, table[i].company, table[i].status))
              else table[i]
  {
    if companies != [] {
      var front, last := companies[..|companies| - 1], companies[|companies| - 1];
      StepsMoveEachRowOnce(table, front);
      assert companies == front + [last];
    }
  }

  /** No company that has had its step has a pending activation or deactivation left. */
  lemma {:induction false} NothingPendingAfterSteps(table: seq<Row>, companies: seq<int>, i: nat)
    requires i < |table|
    requires table[i].company in companies
    ensures |Steps(table, companies)| == |table|
    ensures var row := Steps(table, companies)[i];
            row.company == table[i].company && row.status != PendingActivation && row.status != PendingDeactivation
    ensures Step(Steps(table, companies), table[i].company) == Steps(table, companies)
  {
    StepsMoveEachRowOnce(table, companies);
  }

  predicate IsHedged(status: Status, includePendingMargin: bool) {
    status == Active || status == PendingActivation || (includePendingMargin && status == PendingMargin)
  }

  /** The arguments of `get_cashflow_object`. */
  datatype Query = Query(
    account: int,
    startDate: Instant,
    excludeUnknownOnRefDate: bool,
    currencies: Option<set<string>>,
    includePendingMargin: bool)

  predicate Matches(q: Query, row: Row) {
    && row.account == q.account
    && (q.excludeUnknownOnRefDate ==> row.generator.created <= q.startDate)
    && (q.currencies.Some? ==> row.generator.currency in q.currencies.value)
    && IsHedged(row.status, q.includePendingMargin)
  }

  ghost predicate ByDate(gs: seq<Generator>) {
    forall i, j :: 0 <= i < j < |gs| ==> gs[i].date <= gs[j].date
  }

  function StartOf(g: Generator): real {
    g.date as real
  }

  /** `order_by('date')`, keeping table order on equal dates. */
  function InsertByDate(gs: seq<Generator>, g: Generator): seq<Generator> {
    Sorting.InsertBy(gs, g, StartOf)
  }

  lemma {:induction false} InsertKeepsOrder(gs: seq<Generator>, g: Generator)
    requires ByDate(gs)
    ensures ByDate(InsertByDate(gs, g))
    ensures multiset(InsertByDate(gs, g)) == multiset(gs) + multiset{g}
  {
    Sorting.InsertKeepsOrder(gs, g, StartOf);
    Sorting.InsertAdds(gs, g, StartOf);
    var r := InsertByDate(gs, g);
    forall i, j | 0 <= i < j < |r|
      ensures r[i].date <= r[j].date
    {
      assert StartOf(r[i]) <= StartOf(r[j]);
    }
  }

  /** `get_cashflow_object`: the hedged generators of an account, by start date. */
  function GetCashflowObject(table: seq<Row>, q: Query): seq<Generator> {
    if table == [] then []
    else
      var rest := GetCashflowObject(table[..|table| - 1], q);
      if Matches(q, table[|table| - 1]) then InsertByDate(rest, table[|table| - 1].generator) else rest
  }

  /** The plain filter: the generators of the matching rows, in table order. */
  function Matching(table: seq<Row>, q: Query): seq<Generator> {
    if table == [] then []
    else
      var last := table[|table| - 1];
      Matching(table[..|table| - 1], q) + if Matches(q, last) then [last.generator] else []
  }

  lemma {:induction false} MatchingMembers(table: seq<Row>, q: Query)
    ensures forall g :: g in Matching(table, q) <==>
              exists i :: 0 <= i < |table| && Matches(q, table[i]) && table[i].generator == g
  {
    hide Matches;
    if table != [] {
      var front := table[..|table| - 1];
      MatchingMembers(front, q);
      assert forall i :: 0 <= i < |front| ==> table[i] == front[i];
    }
  }

  lemma {:induction false} QueryIsSorted(table: seq<Row>, q: Query)
    ensures ByDate(GetCashflowObject(table, q))
    ensures multiset(GetCashflowObject(table, q)) == multiset(Matching(table, q))
  {
    hide Matches, InsertByDate, ByDate;
    if table == [] {
      NoneByDate();
    } else {
      var front, row := table[..|table| - 1], table[|table| - 1];
      QueryIsSorted(front, q);
      InsertKeepsOrder(GetCashflowObject(front, q), row.generator);
    }
  }

  lemma {:induction false} NoneByDate()
    ensures ByDate([])
  {
  }

  /** The query returns the matching rows' generators, each as often as it matches, by start date. */
  lemma {:induction false} QueryIsOrdered(table: seq<Row>, q: Query)
    ensures ByDate(GetCashflowObject(table, q))
    ensures multiset(GetCashflowObject(table, q)) == multiset(Matching(table, q))
    ensures forall g :: g in GetCashflowObject(table, q) <==>
              exists i :: 0 <= i < |table| && Matches(q, table[i]) && table[i].generator == g
  {
    hide GetCashflowObject, Matching, Matches, ByDate;
    QueryIsSorted(table, q);
    MatchingMembers(table, q);
    assert forall g :: g in GetCashflowObject(table, q) <==> g in multiset(GetCashflowObject(table, q));
    assert forall g :: g in Matching(table, q) <==> g in multiset(Matching(table, q));
  }

  /** Which generators the query returns, in terms of the columns. */
  lemma {:induction false} QuerySelects(table: seq<Row>, q: Query, g: Generator)
    ensures g in GetCashflowObject(table, q) <==>
              exists i :: 0 <= i < |table| && table[i].generator == g && table[i].account == q.account
                          && (q.excludeUnknownOnRefDate ==> g.created <= q.startDate)
                          && (q.currencies.Some? ==> g.currency in q.currencies.value)
                          && (table[i].status in {Active, PendingActivation}
                              || (q.includePendingMargin && table[i].status == PendingMargin))
  {
    hide GetCashflowObject;
    QueryIsOrdered(table, q);
  }

  /** And which the company query returns. */
  lemma {:induction false} CompanySelects(table: seq<Row>, company: int, margin: bool, g: Generator)
    ensures g in CompanyActive(table, company, margin) <==>
              exists i :: 0 <= i < |table| && table[i].generator == g && table[i].company == company
                          && (table[i].status in {Active, PendingActivation}
                              || (margin && table[i].status == PendingMargin))
  {
    if table != [] {
      var front := table[..|table| - 1];
      CompanySelects(front, company, margin, g);
      assert forall i :: 0 <= i < |front| ==> front[i] == table[i];
    }
  }

  /** `get_company_active_cashflows`. */
  function CompanyActive(table: seq<Row>, company: int, includePendingMargin: bool): seq<Generator> {
    if table == [] then []
    else
      var row := table[|table| - 1];
      CompanyActive(table[..|table| - 1], company, includePendingMargin)
      + if row.company == company && IsHedged(row.status, includePendingMargin) then [row.generator] else []
  }

  lemma {:induction false} StepIsInvisible(table: seq<Row>, company: int, q: Query, c: int, margin: bool)
    ensures GetCashflowObject(Step(table, company), q) == GetCashflowObject(table, q)
    ensures CompanyActive(Step(table, company), c, margin) == CompanyActive(table, c, margin)
  {
    hide InsertByDate;
    if table != [] {
      var front := table[..|table| - 1];
      StepIsInvisible(front, company, q, c, margin);
      assert Step(table, company)[..|table| - 1] == Step(front, company);
    }
  }

  /** No interleaving of end-of-day steps changes which generators the hedger is given to window, for an
      account or for a whole company, nor their order. */
  lemma {:induction false} StepsAreInvisible(table: seq<Row>, companies: seq<int>, q: Query, c: int, margin: bool)
    ensures GetCashflowObject(Steps(table, companies), q) == GetCashflowObject(table, q)
    ensures CompanyActive(Steps(table, companies), c, margin) == CompanyActive(table, c, margin)
  {
    if companies != [] {
      var front := companies[..|companies| - 1];
      StepsAreInvisible(table, front, q, c, margin);
      StepIsInvisible(Steps(table, front), companies[|companies| - 1], q, c, margin);
    }
  }

  // ---------- two flags, one filter ----------

  lemma {:induction false} CreatedByKeepsOrder(gs: seq<Generator>, t: Instant)
    requires ByDate(gs)
    ensures ByDate(CreatedBy(gs, t))
    ensures gs != [] ==> forall g :: g in CreatedBy(gs, t) ==> g.date <= gs[|gs| - 1].date
  {
    if gs != [] {
      CreatedByKeepsOrder(gs[..|gs| - 1], t);
    }
  }

  lemma {:induction false} CreatedByNext(gs: seq<Generator>, g: Generator, t: Instant)
    ensures CreatedBy(gs + [g], t) == if g.created <= t then CreatedBy(gs, t) + [g] else CreatedBy(gs, t)
  {
  }

  lemma {:induction false} InsertLast(gs: seq<Generator>, g: Generator)
    requires forall x :: x in gs ==> x.date <= g.date
    ensures InsertByDate(gs, g) == gs + [g]
  {
  }

  lemma {:induction false} InsertBeforeLast(front: seq<Generator>, last: Generator, g: Generator)
    requires g.date < last.date
    ensures InsertByDate(front + [last], g) == InsertByDate(front, g) + [last]
  {
  }

  lemma {:induction false} InsertThenFilter(gs: seq<Generator>, g: Generator, t: Instant)
    requires ByDate(gs)
    ensures CreatedBy(InsertByDate(gs, g), t)
            == if g.created <= t then InsertByDate(CreatedBy(gs, t), g) else CreatedBy(gs, t)
  {
    hide CreatedBy, InsertByDate;
    CreatedByNext(gs, g, t);
    if gs == [] || gs[|gs| - 1].date <= g.date {
      CreatedByKeepsOrder(gs, t);
      CreatedMembers(gs, t);
      InsertLast(gs, g);
      InsertLast(CreatedBy(gs, t), g);
    } else {
      var front, last := gs[..|gs| - 1], gs[|gs| - 1];
      assert gs == front + [last];
      InsertThenFilter(front, g, t);
      InsertBeforeLast(front, last, g);
      InsertBeforeLast(CreatedBy(front, t), last, g);
      CreatedByNext(front, last, t);
      CreatedByNext(InsertByDate(front, g), last, t);
    }
  }

  lemma {:induction false} NoneCreated(t: Instant)
    ensures CreatedBy([], t) == []
  {
  }

  /** Excluding unknown cashflows from the query filters its answer by creation. */
  lemma {:induction false} ExcludeFiltersAnswer(table: seq<Row>, q: Query)
    ensures GetCashflowObject(table, q.(excludeUnknownOnRefDate := true))
            == CreatedBy(GetCashflowObject(table, q.(excludeUnknownOnRefDate := false)), q.startDate)
  {
    hide InsertByDate, ByDate, CreatedBy;
    if table == [] {
      NoneCreated(q.startDate);
    } else {
      var front, g := table[..|table| - 1], table[|table| - 1].generator;
      ExcludeFiltersAnswer(front, q);
      QueryIsSorted(front, q.(excludeUnknownOnRefDate := false));
      InsertThenFilter(GetCashflowObject(front, q.(excludeUnknownOnRefDate := false)), g, q.startDate);
    }
  }

  lemma {:induction false} SkippingFilters(cfs: seq<Generator>, w: Window)
    requires w.skipNewer && forall g :: g in cfs ==> Ends(g, Unskipping(w))
    ensures forall g :: g in cfs ==> Ends(g, w)
    ensures forall g :: g in CreatedBy(cfs, w.ref) ==> g in cfs
    ensures Listings(cfs, w) == Listings(CreatedBy(cfs, w.ref), Unskipping(w))
  {
    hide Listing;
    CreatedMembers(cfs, w.ref);
    if cfs != [] {
      var front, g := cfs[..|cfs| - 1], cfs[|cfs| - 1];
      assert cfs == front + [g];
      SkippingFilters(front, w);
      ListingUnlessSkipped(g, w);
      var kept := CreatedBy(front, w.ref);
      assert (kept + [g])[..|kept|] == kept && kept + [] == kept;
    }
  }

  /** `skip_less_than_ref_date` does in the window just what `exclude_unknown_on_ref_date` does in the query:
      either flag alone gives the same flows in the same order, and the second adds nothing to the first. */
  lemma {:induction false} SkippingIsExcluding(table: seq<Row>, q: Query, w: Window)
    requires w.skipNewer && w.ref == q.startDate
    requires forall g :: g in GetCashflowObject(table, q.(excludeUnknownOnRefDate := false)) ==> Ends(g, Unskipping(w))
    ensures var all := GetCashflowObject(table, q.(excludeUnknownOnRefDate := false));
            var known := GetCashflowObject(table, q.(excludeUnknownOnRefDate := true));
            && (forall g :: g in known ==> g in all) && (forall g :: g in all ==> Ends(g, w))
            && Listings(all, w) == Listings(known, Unskipping(w)) == Listings(known, w)
  {
    hide GetCashflowObject, Listings;
    var all := GetCashflowObject(table, q.(excludeUnknownOnRefDate := false));
    ExcludeFiltersAnswer(table, q);
    SkippingFilters(all, w);
    var known := CreatedBy(all, w.ref);
    CreatedMembers(all, w.ref);
    SkippingFilters(known, w);
    AllCreatedBy(known, w.ref);
  }

  lemma {:induction false} AllCreatedBy(cfs: seq<Generator>, t: Instant)
    requires forall g :: g in cfs ==> g.created <= t
    ensures CreatedBy(cfs, t) == cfs
  {
    if cfs != [] {
      var front, g := cfs[..|cfs| - 1], cfs[|cfs| - 1];
      assert cfs == front + [g];
      AllCreatedBy(front, t);
    }
  }
}
