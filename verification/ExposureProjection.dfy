/** Projected cash exposures (`CashFlowProviderService`): group the flows by pay date, then run each
    currency's balance down date by date. */
module ExposureProjection {
  import opened Wrappers
  import opened Dates
  import opened Rolls
  import opened Generators
  import opened ActiveWindow
  import opened Dicts

  // ---------- grouping by roll-off date ----------

  function Paying(flows: seq<CashFlow>, date: Instant): seq<CashFlow> {
    if flows == [] then []
    else
      var last := flows[|flows| - 1];
      Paying(flows[..|flows| - 1], date) + if last.payDate == date then [last] else []
  }

  /** The pay dates, in the order in which they first appear. */
  function RollDates(flows: seq<CashFlow>): seq<Instant> {
    if flows == [] then []
    else
      var rest, last := RollDates(flows[..|flows| - 1]), flows[|flows| - 1].payDate;
      if last in rest then rest else rest + [last]
  }

  lemma {:induction false} RollDatesAreThePayDates(flows: seq<CashFlow>)
    ensures forall d :: d in RollDates(flows) <==> exists i :: 0 <= i < |flows| && flows[i].payDate == d
    ensures forall i, j :: 0 <= i < j < |RollDates(flows)| ==> RollDates(flows)[i] != RollDates(flows)[j]
  {
    if flows != [] {
      var front := flows[..|flows| - 1];
      RollDatesAreThePayDates(front);
      forall d
        ensures d in RollDates(flows) <==> exists i :: 0 <= i < |flows| && flows[i].payDate == d
      {
        assert flows[|flows| - 1].payDate == d ==> d in RollDates(flows);
        assert forall i :: 0 <= i < |front| ==> flows[i] == front[i];
      }
    }
  }

  lemma {:induction false} RollDateOf(flows: seq<CashFlow>, f: CashFlow) returns (k: nat)
    requires f in flows
    ensures k < |RollDates(flows)| && RollDates(flows)[k] == f.payDate
  {
    RollDatesAreThePayDates(flows);
    var i :| 0 <= i < |flows| && flows[i] == f;
    assert flows[i].payDate in RollDates(flows);
    k :| 0 <= k < |RollDates(flows)| && RollDates(flows)[k] == f.payDate;
  }

  lemma {:induction false} NoFlowsNoDates(flows: seq<CashFlow>)
    ensures RollDates(flows) == [] <==> flows == []
  {
  }

  /** The groups of the flows so far. */
  ghost predicate Grouped(groups: Dict<Instant, seq<CashFlow>>, flows: seq<CashFlow>) {
    && Valid(groups) && groups.keys == RollDates(flows)
    && forall d :: Get(groups, d, []) == Paying(flows, d)
  }

  lemma {:induction false} GroupedNext(groups: Dict<Instant, seq<CashFlow>>, flows: seq<CashFlow>, f: CashFlow)
    requires Grouped(groups, flows)
    ensures Grouped(Put(groups, f.payDate, Get(groups, f.payDate, []) + [f]), flows + [f])
  {
  }

  /** `get_cashflows_by_rolloff_date`: the groups partition the flows, each in its original order. */
  method GetCashflowsByRolloffDate(flows: seq<CashFlow>) returns (groups: Dict<Instant, seq<CashFlow>>)
    ensures Valid(groups) && groups.keys == RollDates(flows)
    ensures forall d :: d in groups.at ==> groups.at[d] == Paying(flows, d)
  {
    hide Paying, RollDates;
    groups := Dict([], map[]);
    assert Grouped(groups, []) by {
      NothingGrouped();
    }
    for i := 0 to |flows|
      invariant Grouped(groups, flows[..i])
    {
      hide Grouped;
      assert flows[..i + 1] == flows[..i] + [flows[i]];
      GroupedNext(groups, flows[..i], flows[i]);
      ghost var before := groups;
      var payDate := flows[i].payDate;
      if payDate !in groups.at {
        groups := Put(groups, payDate, []);
      }
      groups := Put(groups, payDate, groups.at[payDate] + [flows[i]]);
      assert groups.at == Put(before, payDate, Get(before, payDate, []) + [flows[i]]).at;
    }
    assert flows[..|flows|] == flows;
  }

  lemma {:induction false} NothingGrouped()
    ensures Grouped(Dict([], map[]), [])
  {
  }

  // ---------- running the balances down ----------

  lemma {:induction false} PayingCounts(flows: seq<CashFlow>, date: Instant, f: CashFlow)
    ensures multiset(Paying(flows, date))[f] == if f.payDate == date then multiset(flows)[f] else 0
  {
    if flows != [] {
      var front, last := flows[..|flows| - 1], flows[|flows| - 1];
      PayingCounts(front, date, f);
      assert flows == front + [last];
    }
  }

  lemma {:induction false} RolledCounts(flows: seq<CashFlow>, dates: seq<Instant>, f: CashFlow)
    requires forall i, j :: 0 <= i < j < |dates| ==> dates[i] != dates[j]
    ensures multiset(Rolled(flows, dates))[f] == if f.payDate in dates then multiset(flows)[f] else 0
  {
    if dates != [] {
      var front, last := dates[..|dates| - 1], dates[|dates| - 1];
      RolledCounts(flows, front, f);
      PayingCounts(flows, last, f);
      assert dates == front + [last];
    }
  }

  /** The groups taken together are the flows, each exactly as often. */
  lemma {:induction false} GroupsPartition(flows: seq<CashFlow>)
    ensures multiset(Rolled(flows, RollDates(flows))) == multiset(flows)
  {
    RollDatesAreThePayDates(flows);
    forall f: CashFlow
      ensures multiset(Rolled(flows, RollDates(flows)))[f] == multiset(flows)[f]
    {
      RolledCounts(flows, RollDates(flows), f);
      if f in multiset(flows) {
        var k := RollDateOf(flows, f);
      }
    }
  }

  /** One line of the projection: a date and each currency's exposure from that date on. */
  datatype Row = Row(date: Instant, exposures: seq<(string, real)>)

  /** The flows of the given roll dates, group after group. */
  function Rolled(flows: seq<CashFlow>, dates: seq<Instant>): seq<CashFlow> {
    if dates == [] then [] else Rolled(flows, dates[..|dates| - 1]) + Paying(flows, dates[|dates| - 1])
  }

  /** The currencies, in the order in which they first appear. */
  function Currencies(flows: seq<CashFlow>): seq<string> {
    if flows == [] then []
    else
      var rest, last := Currencies(flows[..|flows| - 1]), flows[|flows| - 1].currency;
      if last in rest then rest else rest + [last]
  }

  lemma {:induction false} CurrenciesAppear(flows: seq<CashFlow>, i: nat)
    requires i < |flows|
    ensures flows[i].currency in Currencies(flows)
  {
    if i < |flows| - 1 {
      CurrenciesAppear(flows[..|flows| - 1], i);
    }
  }

  /** `0` for a balance within a thousandth of it. */
  function Snap(x: real): real {
    if -0.001 < x < 0.001 then 0.0 else x
  }

  /** A currency's balance after subtracting the flows one by one, snapping each time. */
  function Balance(start: real, currency: string, flows: seq<CashFlow>): real {
    if flows == [] then start
    else
      var last := flows[|flows| - 1];
      var before := Balance(start, currency, flows[..|flows| - 1]);
      if last.currency == currency then Snap(before - last.amount) else before
  }

  function Items(d: Dict<string, real>): seq<(string, real)>
    requires forall k :: k in d.keys ==> k in d.at
  {
    seq(|d.keys|, i requires 0 <= i < |d.keys| => (d.keys[i], d.at[d.keys[i]]))
  }

  /** Row `n` of the projection: what is left after the first `n` roll dates. */
  function RowAt(flows: seq<CashFlow>, startDate: Instant, n: nat): Row
    requires n <= |RollDates(flows)|
  {
    var dates := RollDates(flows);
    var all := Rolled(flows, dates);
    var names := Currencies(all);
    Row(if n == 0 then startDate else dates[n - 1],
        seq(|names|, i requires 0 <= i < |names| =>
          (names[i], Balance(Total(all, names[i]), names[i], Rolled(flows, dates[..n])))))
  }

  /** The number of leading dates not after `endDate`. */
  function DatesUpTo(dates: seq<Instant>, endDate: Instant): (n: nat)
    ensures n <= |dates| && (forall i :: 0 <= i < n ==> dates[i] <= endDate)
    ensures n < |dates| ==> endDate < dates[n]
  {
    if dates == [] || endDate < dates[0] then 0 else 1 + DatesUpTo(dates[1..], endDate)
  }

  /** The running balances are the totals of the flows entered so far. */
  ghost predicate Tracks(running: Dict<string, real>, entered: seq<CashFlow>) {
    && Valid(running) && running.keys == Currencies(entered)
    && forall c :: Get(running, c, 0.0) == Total(entered, c)
  }

  lemma {:induction false} TracksOnce(running: Dict<string, real>, entered: seq<CashFlow>, f: CashFlow)
    requires Tracks(running, entered)
    ensures Tracks(Put(running, f.currency, Get(running, f.currency, 0.0) + f.amount), entered + [f])
  {
    assert (entered + [f])[..|entered|] == entered;
    forall c
      ensures Total(entered + [f], c) == Total(entered, c) + if f.currency == c then f.amount else 0.0
    {
    }
  }

  /** The inner loop of the first pass, on one group. */
  method EnterGroup(before: Dict<string, real>, group: seq<CashFlow>, startDate: Instant, ghost entered: seq<CashFlow>)
    returns (running: Dict<string, real>)
    requires Tracks(before, entered)
    requires forall j :: 0 <= j < |group| ==> startDate < group[j].payDate
    ensures Tracks(running, entered + group)
  {
    hide Tracks;
    running := before;
    assert entered + group[..0] == entered;
    for j := 0 to |group|
      invariant Tracks(running, entered + group[..j])
    {
      assert entered + group[..j + 1] == entered + group[..j] + [group[j]];
      TracksOnce(running, entered + group[..j], group[j]);
      var cashflow := group[j];
      if startDate < cashflow.payDate {
        running := Put(running, cashflow.currency, Get(running, cashflow.currency, 0.0) + cashflow.amount);
      }
    }
    assert group[..|group|] == group;
  }

  /** The first pass. */
  method InitialExposures(flows: seq<CashFlow>, groups: Dict<Instant, seq<CashFlow>>, startDate: Instant)
    returns (running: Dict<string, real>)
    requires Valid(groups) && forall d :: d in groups.at ==> groups.at[d] == Paying(flows, d)
    requires forall f :: f in flows ==> startDate < f.payDate
    ensures Tracks(running, Rolled(flows, groups.keys))
  {
    running := Dict([], map[]);
    for i := 0 to |groups.keys|
      invariant Tracks(running, Rolled(flows, groups.keys[..i]))
    {
      assert groups.keys[..i + 1][..i] == groups.keys[..i];
      PayingIsFrom(flows, groups.keys[i]);
      running := EnterGroup(running, groups.at[groups.keys[i]], startDate, Rolled(flows, groups.keys[..i]));
    }
    assert groups.keys[..|groups.keys|] == groups.keys;
  }

  lemma {:induction false} PayingIsFrom(flows: seq<CashFlow>, date: Instant)
    ensures forall f :: f in Paying(flows, date) <==> f in flows && f.payDate == date
  {
    if flows != [] {
      var front := flows[..|flows| - 1];
      PayingIsFrom(front, date);
      assert flows == front + [flows[|flows| - 1]];
    }
  }

  /** The running balances are `start` run down by the flows paid so far. */
  ghost predicate RunsDown(running: Dict<string, real>, start: Dict<string, real>, paid: seq<CashFlow>) {
    && Valid(running) && Valid(start) && running.keys == start.keys
    && forall c :: c in running.at ==> running.at[c] == Balance(start.at[c], c, paid)
  }

  lemma {:induction false} RunsDownOnce(before: Dict<string, real>, start: Dict<string, real>, paid: seq<CashFlow>,
                                  f: CashFlow)
    requires RunsDown(before, start, paid) && f.currency in start.keys
    ensures f.currency in before.at
    ensures RunsDown(Put(before, f.currency, Snap(before.at[f.currency] - f.amount)), start, paid + [f])
  {
  }

  /** The inner loop of the second pass, on one group. */
  method SubtractGroup(before: Dict<string, real>, group: seq<CashFlow>, ghost start: Dict<string, real>,
                       ghost paid: seq<CashFlow>)
    returns (running: Dict<string, real>)
    requires RunsDown(before, start, paid)
    requires forall j :: 0 <= j < |group| ==> group[j].currency in start.keys
    ensures RunsDown(running, start, paid + group)
  {
    hide RunsDown;
    running := before;
    assert paid + group[..0] == paid;
    for j := 0 to |group|
      invariant RunsDown(running, start, paid + group[..j])
    {
      assert paid + group[..j + 1] == paid + group[..j] + [group[j]];
      RunsDownOnce(running, start, paid + group[..j], group[j]);
      var amount := running.at[group[j].currency];
      amount := amount - group[j].amount;
      if -0.001 < amount < 0.001 {
        amount := 0.0;
      }
      running := Put(running, group[j].currency, amount);
    }
    assert group[..|group|] == group;
  }

  /** `get_projected_raw_cash_exposures`, on flows that all pay after the start date. No currency is
      missing in the second pass, every row lists the same currencies, and row by row the balances
      are those of `RowAt`, up to the first roll date after the end. */
  method GetProjectedRawCashExposures(flows: seq<CashFlow>, startDate: Instant, endDate: Instant)
    returns (rows: seq<Row>)
    requires forall f :: f in flows ==> startDate < f.payDate
    ensures flows == [] ==> rows == []
    ensures flows != [] ==> |rows| == 1 + DatesUpTo(RollDates(flows), endDate)
    ensures forall n :: 0 <= n < |rows| ==> rows[n] == RowAt(flows, startDate, n)
  {
    hide Rolled, RowAt, Tracks, Balance, Currencies, RollDates, Paying, DatesUpTo;
    var groups := GetCashflowsByRolloffDate(flows);
    NoFlowsNoDates(flows);
    if |groups.keys| == 0 {
      return [];
    }
    var dates := groups.keys;
    var initial := InitialExposures(flows, groups, startDate);
    var running := initial;
    RunsDownAtStart(initial, Rolled(flows, dates));
    assert dates[..0] == [];
    NothingRolled(flows);
    rows := [Row(startDate, Items(running))];
    RowIsCurrent(flows, startDate, 0, running, initial);
    for i := 0 to |dates|
      invariant |rows| == i + 1 && (forall n :: 0 <= n < |rows| ==> rows[n] == RowAt(flows, startDate, n))
      invariant forall k :: 0 <= k < i ==> dates[k] <= endDate
      invariant RunsDown(running, initial, Rolled(flows, dates[..i]))
    {
      if endDate < dates[i] {
        CutIsUnique(dates, endDate, i);
        return;
      }
      RolledGrows(flows, dates, i);
      GroupIsRolled(flows, dates, i);
      running := SubtractGroup(running, groups.at[dates[i]], initial, Rolled(flows, dates[..i]));
      rows := rows + [Row(dates[i], Items(running))];
      RowIsCurrent(flows, startDate, i + 1, running, initial);
    }
    CutIsUnique(dates, endDate, |dates|);
  }

  lemma {:induction false} NothingRolled(flows: seq<CashFlow>)
    ensures Rolled(flows, []) == []
  {
  }

  lemma {:induction false} RolledGrows(flows: seq<CashFlow>, dates: seq<Instant>, i: nat)
    requires i < |dates|
    ensures Rolled(flows, dates[..i + 1]) == Rolled(flows, dates[..i]) + Paying(flows, dates[i])
  {
    assert dates[..i + 1][..i] == dates[..i];
  }

  lemma {:induction false} RunsDownAtStart(initial: Dict<string, real>, entered: seq<CashFlow>)
    requires Tracks(initial, entered)
    ensures RunsDown(initial, initial, []) && initial.keys == Currencies(entered)
  {
  }

  lemma {:induction false} RowIsCurrent(flows: seq<CashFlow>, startDate: Instant, n: nat, running: Dict<string, real>,
                     initial: Dict<string, real>)
    requires n <= |RollDates(flows)|
    requires Tracks(initial, Rolled(flows, RollDates(flows)))
    requires RunsDown(running, initial, Rolled(flows, RollDates(flows)[..n]))
    ensures RowAt(flows, startDate, n)
            == Row(if n == 0 then startDate else RollDates(flows)[n - 1], Items(running))
  {
  }

  lemma {:induction false} CutIsUnique(dates: seq<Instant>, endDate: Instant, n: nat)
    requires n <= |dates| && (forall i :: 0 <= i < n ==> dates[i] <= endDate)
    requires n < |dates| ==> endDate < dates[n]
    ensures DatesUpTo(dates, endDate) == n
  {
  }

  /** Every currency subtracted in the second pass was entered in the first. */
  lemma {:induction false} GroupIsRolled(flows: seq<CashFlow>, dates: seq<Instant>, i: nat)
    requires i < |dates|
    ensures forall j :: 0 <= j < |Paying(flows, dates[i])| ==>
              Paying(flows, dates[i])[j].currency in Currencies(Rolled(flows, dates))
  {
    forall j | 0 <= j < |Paying(flows, dates[i])|
      ensures Paying(flows, dates[i])[j].currency in Currencies(Rolled(flows, dates))
    {
      RolledContains(flows, dates, i, j);
      var f := Paying(flows, dates[i])[j];
      var k :| 0 <= k < |Rolled(flows, dates)| && Rolled(flows, dates)[k] == f;
      CurrenciesAppear(Rolled(flows, dates), k);
    }
  }

  lemma {:induction false} RolledContains(flows: seq<CashFlow>, dates: seq<Instant>, i: nat, j: nat)
    requires i < |dates| && j < |Paying(flows, dates[i])|
    ensures Paying(flows, dates[i])[j] in Rolled(flows, dates)
  {
    if i < |dates| - 1 {
      RolledContains(flows, dates[..|dates| - 1], i, j);
    }
  }

  // ---------- what the rows mean ----------

  /** The sum of a currency's amounts over the flows paying on one of the given dates. */
  function TotalOn(flows: seq<CashFlow>, currency: string, dates: set<Instant>): real {
    if flows == [] then 0.0
    else
      var last := flows[|flows| - 1];
      TotalOn(flows[..|flows| - 1], currency, dates)
      + if last.currency == currency && last.payDate in dates then last.amount else 0.0
  }

  /** The number of a currency's flows paying on one of the given dates. */
  function CountOn(flows: seq<CashFlow>, currency: string, dates: set<Instant>): nat {
    if flows == [] then 0
    else
      var last := flows[|flows| - 1];
      CountOn(flows[..|flows| - 1], currency, dates)
      + if last.currency == currency && last.payDate in dates then 1 else 0
  }

  function Count(flows: seq<CashFlow>, currency: string): nat {
    if flows == [] then 0
    else Count(flows[..|flows| - 1], currency) + if flows[|flows| - 1].currency == currency then 1 else 0
  }

  /** The sum of a currency's amounts over the flows paying strictly after `date`. */
  function TotalAfter(flows: seq<CashFlow>, currency: string, date: Instant): real {
    if flows == [] then 0.0
    else
      var last := flows[|flows| - 1];
      TotalAfter(flows[..|flows| - 1], currency, date)
      + if last.currency == currency && date < last.payDate then last.amount else 0.0
  }

  /** The number of a currency's flows paid by `date`. */
  function CountBy(flows: seq<CashFlow>, currency: string, date: Instant): nat {
    if flows == [] then 0
    else
      var last := flows[|flows| - 1];
      CountBy(flows[..|flows| - 1], currency, date)
      + if last.currency == currency && last.payDate <= date then 1 else 0
  }

  /** The allowed error after `count` subtractions: none at first, then less than 0.001 for each. */
  predicate Within(error: real, count: nat) {
    if count == 0 then error == 0.0 else -0.001 * count as real < error < 0.001 * count as real
  }

  lemma {:induction false} BalanceError(start: real, currency: string, flows: seq<CashFlow>)
    ensures Within(Balance(start, currency, flows) - (start - Total(flows, currency)), Count(flows, currency))
  {
    if flows != [] {
      BalanceError(start, currency, flows[..|flows| - 1]);
    }
  }

  lemma {:induction false} OneGroup(flows: seq<CashFlow>, currency: string, date: Instant)
    ensures Total(Paying(flows, date), currency) == TotalOn(flows, currency, {date})
    ensures Count(Paying(flows, date), currency) == CountOn(flows, currency, {date})
  {
    if flows != [] {
      var front, last := flows[..|flows| - 1], flows[|flows| - 1];
      OneGroup(front, currency, date);
      if last.payDate == date {
        assert Paying(flows, date) == Paying(front, date) + [last];
      } else {
        assert Paying(flows, date) == Paying(front, date);
      }
    }
  }

  lemma {:induction false} DisjointDates(flows: seq<CashFlow>, currency: string, d: set<Instant>, e: set<Instant>)
    requires d !! e
    ensures TotalOn(flows, currency, d + e) == TotalOn(flows, currency, d) + TotalOn(flows, currency, e)
    ensures CountOn(flows, currency, d + e) == CountOn(flows, currency, d) + CountOn(flows, currency, e)
  {
    if flows != [] {
      DisjointDates(flows[..|flows| - 1], currency, d, e);
    }
  }

  lemma {:induction false} CountAppends(x: seq<CashFlow>, y: seq<CashFlow>, currency: string)
    ensures Count(x + y, currency) == Count(x, currency) + Count(y, currency)
  {
    if y == [] {
      assert x + y == x;
    } else {
      assert (x + y)[..|x + y| - 1] == x + y[..|y| - 1];
      CountAppends(x, y[..|y| - 1], currency);
    }
  }

  function DateSet(dates: seq<Instant>): set<Instant> {
    set i | 0 <= i < |dates| :: dates[i]
  }

  lemma {:induction false} NoDates(flows: seq<CashFlow>, currency: string)
    ensures TotalOn(flows, currency, {}) == 0.0 && CountOn(flows, currency, {}) == 0
  {
    if flows != [] {
      NoDates(flows[..|flows| - 1], currency);
    }
  }

  /** Groups partition the flows: rolling off some dates rolls off the flows of those dates. */
  lemma {:induction false} RolledTotals(flows: seq<CashFlow>, dates: seq<Instant>, currency: string)
    requires forall i, j :: 0 <= i < j < |dates| ==> dates[i] != dates[j]
    ensures Total(Rolled(flows, dates), currency) == TotalOn(flows, currency, DateSet(dates))
    ensures Count(Rolled(flows, dates), currency) == CountOn(flows, currency, DateSet(dates))
  {
    if dates == [] {
      assert DateSet(dates) == {};
      NoDates(flows, currency);
    } else {
      var front, last := dates[..|dates| - 1], dates[|dates| - 1];
      RolledTotals(flows, front, currency);
      OneGroup(flows, currency, last);
      TotalAppends(Rolled(flows, front), Paying(flows, last), currency);
      CountAppends(Rolled(flows, front), Paying(flows, last), currency);
      DisjointDates(flows, currency, DateSet(front), {last});
      assert DateSet(dates) == DateSet(front) + {last};
    }
  }

  /** What the first `n` roll dates leave unpaid. */
  function Unpaid(flows: seq<CashFlow>, currency: string, n: nat): real
    requires n <= |RollDates(flows)|
  {
    TotalOn(flows, currency, DateSet(RollDates(flows)[n..]))
  }

  /** Whatever the order of the flows, row `n` holds for each currency the sum of the groups still to
      come, up to less than 0.001 for each of that currency's flows already subtracted. */
  lemma {:induction false} RowTracksUnpaid(flows: seq<CashFlow>, startDate: Instant, n: nat, i: nat)
    requires n <= |RollDates(flows)| && i < |RowAt(flows, startDate, n).exposures|
    ensures var (currency, amount) := RowAt(flows, startDate, n).exposures[i];
            Within(amount - Unpaid(flows, currency, n), CountOn(flows, currency, DateSet(RollDates(flows)[..n])))
  {
    hide Balance, Rolled, TotalOn, CountOn, Total, Count, Within;
    var dates := RollDates(flows);
    var currency := RowAt(flows, startDate, n).exposures[i].0;
    RollDatesAreThePayDates(flows);
    RolledTotals(flows, dates, currency);
    RolledTotals(flows, dates[..n], currency);
    DisjointDates(flows, currency, DateSet(dates[..n]), DateSet(dates[n..]));
    assert DateSet(dates) == DateSet(dates[..n]) + DateSet(dates[n..]) by {
      assert forall k :: n <= k < |dates| ==> dates[k] == dates[n..][k - n];
      assert forall k :: 0 <= k < n ==> dates[k] == dates[..n][k];
    }
    BalanceError(Total(Rolled(flows, dates), currency), currency, Rolled(flows, dates[..n]));
  }

  lemma {:induction false} SameDates(flows: seq<CashFlow>, currency: string, paid: set<Instant>, unpaid: set<Instant>,
                                     date: Instant)
    requires forall f :: f in flows ==> (f.payDate in unpaid <==> date < f.payDate)
    requires forall f :: f in flows ==> (f.payDate in paid <==> f.payDate <= date)
    ensures TotalOn(flows, currency, unpaid) == TotalAfter(flows, currency, date)
    ensures CountOn(flows, currency, paid) == CountBy(flows, currency, date)
  {
    if flows != [] {
      var front := flows[..|flows| - 1];
      assert forall f :: f in front ==> f in flows;
      SameDates(front, currency, paid, unpaid, date);
    }
  }

  /** The first `n` dates come in order, and every other date comes after them. */
  ghost predicate OrderedUpTo(dates: seq<Instant>, n: nat)
    requires n <= |dates|
  {
    forall i, j :: 0 <= i < n && i < j < |dates| ==> dates[i] < dates[j]
  }

  ghost predicate Ascending(dates: seq<Instant>) {
    OrderedUpTo(dates, |dates|)
  }

  /** The dates of groups still to come that are not after the date of row `n`: their flows have been paid. */
  function Overdue(dates: seq<Instant>, n: nat): set<Instant>
    requires 1 <= n <= |dates|
  {
    set d | d in DateSet(dates[n..]) && d <= dates[n - 1]
  }

  /** The dates of groups already subtracted that are after the date of row `n`: their flows have not. */
  function Early(dates: seq<Instant>, n: nat): set<Instant>
    requires 1 <= n <= |dates|
  {
    set d | d in DateSet(dates[..n]) && dates[n - 1] < d
  }

  /** In any order and for any amounts, what a row leaves out of account: it still counts the overdue flows
      and no longer counts the early ones. */
  lemma {:induction false} UnpaidIsOffByOverdueAndEarly(flows: seq<CashFlow>, currency: string, n: nat)
    requires 1 <= n <= |RollDates(flows)|
    ensures var dates := RollDates(flows);
            Unpaid(flows, currency, n)
            == TotalAfter(flows, currency, dates[n - 1])
               + TotalOn(flows, currency, Overdue(dates, n)) - TotalOn(flows, currency, Early(dates, n))
  {
    hide RollDates, TotalOn, CountOn, TotalAfter, CountBy;
    var dates := RollDates(flows);
    var coming, gone, date := DateSet(dates[n..]), DateSet(dates[..n]), dates[n - 1];
    var overdue, early := Overdue(dates, n), Early(dates, n);
    var after := (coming - overdue) + early;
    RollDatesAreThePayDates(flows);
    SplitDates(dates, n);
    forall f | f in flows
      ensures f.payDate in after <==> date < f.payDate
      ensures f.payDate in (gone - early) + overdue <==> f.payDate <= date
    {
      var k := RollDateOf(flows, f);
    }
    SameDates(flows, currency, (gone - early) + overdue, after, date);
    DisjointDates(flows, currency, coming - overdue, early);
    DisjointDates(flows, currency, coming - overdue, overdue);
    assert (coming - overdue) + overdue == coming;
  }

  /** Every date is before or after the cut, and none is both. */
  lemma {:induction false} SplitDates(dates: seq<Instant>, n: nat)
    requires n <= |dates| && forall i, j :: 0 <= i < j < |dates| ==> dates[i] != dates[j]
    ensures DateSet(dates) == DateSet(dates[..n]) + DateSet(dates[n..]) && DateSet(dates[..n]) !! DateSet(dates[n..])
    ensures forall k :: 0 <= k < |dates| ==> dates[k] in DateSet(dates)
  {
  }

  /** When the roll dates come in order up to row `n`, the groups before and after it are the flows paid by
      its date and those paying strictly after it. */
  lemma {:induction false} OrderSplitsByDate(flows: seq<CashFlow>, currency: string, n: nat, date: Instant)
    requires n <= |RollDates(flows)| && OrderedUpTo(RollDates(flows), n)
    requires if n == 0 then forall f :: f in flows ==> date < f.payDate else date == RollDates(flows)[n - 1]
    ensures Unpaid(flows, currency, n) == TotalAfter(flows, currency, date)
    ensures CountOn(flows, currency, DateSet(RollDates(flows)[..n])) == CountBy(flows, currency, date)
  {
    hide RollDates, TotalOn, CountOn, TotalAfter, CountBy;
    var dates := RollDates(flows);
    forall f | f in flows
      ensures f.payDate in DateSet(dates[n..]) <==> date < f.payDate
      ensures f.payDate in DateSet(dates[..n]) <==> f.payDate <= date
    {
      var k := RollDateOf(flows, f);
      if k < n {
        assert dates[..n][k] == f.payDate;
        assert f.payDate in DateSet(dates[..n]);
      } else {
        assert dates[n..][k - n] == f.payDate;
        assert f.payDate in DateSet(dates[n..]);
      }
    }
    SameDates(flows, currency, DateSet(dates[..n]), DateSet(dates[n..]), date);
  }

  /** A row is right when it holds per currency the amounts paying strictly after its date, with an error
      below 0.001 times the number of that currency's flows paid by then, and none before the first is paid. */
  ghost predicate RowIsRight(flows: seq<CashFlow>, row: Row) {
    forall i :: 0 <= i < |row.exposures| ==> EntryIsRight(flows, row, i)
  }

  predicate EntryIsRight(flows: seq<CashFlow>, row: Row, i: nat)
    requires i < |row.exposures|
  {
    var (currency, amount) := row.exposures[i];
    Within(amount - TotalAfter(flows, currency, row.date), CountBy(flows, currency, row.date))
  }

  /** A thousandth or more away from zero, or zero itself. */
  predicate IsSnapped(x: real) {
    x <= -0.001 || x == 0.0 || 0.001 <= x
  }

  lemma {:induction false} BalanceIsSnapped(start: real, currency: string, flows: seq<CashFlow>)
    requires exists f :: f in flows && f.currency == currency
    ensures IsSnapped(Balance(start, currency, flows))
  {
    var front, last := flows[..|flows| - 1], flows[|flows| - 1];
    assert flows == front + [last];
    if last.currency != currency {
      BalanceIsSnapped(start, currency, front);
    }
  }

  lemma {:induction false} RolledHolds(flows: seq<CashFlow>, dates: seq<Instant>, f: CashFlow)
    requires f in flows && f.payDate in dates
    ensures f in Rolled(flows, dates)
  {
    var front, last := dates[..|dates| - 1], dates[|dates| - 1];
    assert dates == front + [last];
    if f.payDate == last {
      PayingIsFrom(flows, last);
    } else {
      RolledHolds(flows, front, f);
    }
  }

  /** Once a flow of a currency has been subtracted, no row shows a small balance of it: it is either zero or at
      least a thousandth. */
  lemma {:induction false} NoSmallBalance(flows: seq<CashFlow>, startDate: Instant, n: nat, i: nat, f: CashFlow)
    requires n <= |RollDates(flows)| && i < |RowAt(flows, startDate, n).exposures|
    requires f in flows && f.currency == RowAt(flows, startDate, n).exposures[i].0 && f.payDate in RollDates(flows)[..n]
    ensures IsSnapped(RowAt(flows, startDate, n).exposures[i].1)
  {
    hide Balance, Rolled, RollDates, Total, Currencies, IsSnapped;
    RolledHolds(flows, RollDates(flows)[..n], f);
    var all, currency := Rolled(flows, RollDates(flows)), f.currency;
    BalanceIsSnapped(Total(all, currency), currency, Rolled(flows, RollDates(flows)[..n]));
  }

  /** The projection refines a direct sum: with the roll dates in order up to it, a row is right. */
  lemma {:induction false} ProjectionRefinesSum(flows: seq<CashFlow>, startDate: Instant, n: nat)
    requires forall f :: f in flows ==> startDate < f.payDate
    requires n <= |RollDates(flows)| && OrderedUpTo(RollDates(flows), n)
    ensures RowIsRight(flows, RowAt(flows, startDate, n))
  {
    hide Within, OrderedUpTo, Unpaid, RollDates;
    var row := RowAt(flows, startDate, n);
    forall i | 0 <= i < |row.exposures|
      ensures EntryIsRight(flows, row, i)
    {
      RowTracksUnpaid(flows, startDate, n, i);
      OrderSplitsByDate(flows, row.exposures[i].0, n, row.date);
    }
  }

  /** With ascending roll dates the rows stop exactly at the last roll date not after the end. */
  lemma {:induction false} RowsStopAtEnd(dates: seq<Instant>, endDate: Instant, k: nat)
    requires Ascending(dates) && k < |dates|
    ensures k < DatesUpTo(dates, endDate) <==> dates[k] <= endDate
  {
  }

  /** A row lists exactly the currencies of the flows, each once, whatever its date. */
  lemma {:induction false} RowsListEveryCurrency(flows: seq<CashFlow>, startDate: Instant, n: nat, currency: string)
    requires n <= |RollDates(flows)|
    ensures var names := Names(RowAt(flows, startDate, n));
            && (currency in names <==> exists f :: f in flows && f.currency == currency)
            && forall i, j :: 0 <= i < j < |names| ==> names[i] != names[j]
  {
    hide Rolled, Currencies, RollDates, Balance, Total;
    var dates := RollDates(flows);
    var all := Rolled(flows, dates);
    CurrenciesAreDistinct(all);
    assert Names(RowAt(flows, startDate, n)) == Currencies(all);
    if f :| f in flows && f.currency == currency {
      var i := RollDateOf(flows, f);
      PayingIsFrom(flows, dates[i]);
      var j :| 0 <= j < |Paying(flows, dates[i])| && Paying(flows, dates[i])[j] == f;
      GroupIsRolled(flows, dates, i);
    }
    if currency in Currencies(all) {
      CurrencyComesFrom(all, currency);
      var f :| f in all && f.currency == currency;
      RolledIsFrom(flows, dates, f);
    }
  }

  lemma {:induction false} CurrenciesAreDistinct(flows: seq<CashFlow>)
    ensures forall i, j :: 0 <= i < j < |Currencies(flows)| ==> Currencies(flows)[i] != Currencies(flows)[j]
  {
    if flows != [] {
      CurrenciesAreDistinct(flows[..|flows| - 1]);
    }
  }

  lemma {:induction false} CurrencyComesFrom(flows: seq<CashFlow>, currency: string)
    requires currency in Currencies(flows)
    ensures exists f :: f in flows && f.currency == currency
  {
    var front, last := flows[..|flows| - 1], flows[|flows| - 1];
    if last.currency == currency {
      assert last in flows;
    } else {
      CurrencyComesFrom(front, currency);
      var f :| f in front && f.currency == currency;
      assert f in flows;
    }
  }

  lemma {:induction false} RolledIsFrom(flows: seq<CashFlow>, dates: seq<Instant>, f: CashFlow)
    requires f in Rolled(flows, dates)
    ensures f in flows
  {
    var front, last := dates[..|dates| - 1], dates[|dates| - 1];
    PayingIsFrom(flows, last);
    if f !in Paying(flows, last) {
      RolledIsFrom(flows, front, f);
    }
  }

  // ---------- when the order is right ----------

  ghost predicate InPayOrder(flows: seq<CashFlow>) {
    forall i, j :: 0 <= i < j < |flows| ==> flows[i].payDate <= flows[j].payDate
  }

  lemma {:induction false} PayOrderAscends(flows: seq<CashFlow>)
    requires InPayOrder(flows)
    ensures Ascending(RollDates(flows))
  {
    if flows != [] {
      var front := flows[..|flows| - 1];
      PayOrderAscends(front);
      RollDatesAreThePayDates(front);
      forall k | 0 <= k < |RollDates(front)|
        ensures RollDates(front)[k] <= flows[|flows| - 1].payDate
      {
        assert RollDates(front)[k] in RollDates(front);
      }
    }
  }

  lemma {:induction false} FilteredInPayOrder(g: Generator, w: Window, n: nat)
    ensures InPayOrder(Filtered(g, w, n))
    ensures forall f :: f in Filtered(g, w, n) ==>
              g.calendar.Some? && exists k: nat :: k < n && f.payDate == PayDate(g, k)
  {
    hide PayDate, InWindow;
    if n != 0 {
      FilteredInPayOrder(g, w, n - 1);
      var front := Filtered(g, w, n - 1);
      if Listed(g, w, n - 1) {
        forall i | 0 <= i < |front|
          ensures front[i].payDate <= PayDate(g, n - 1)
        {
          assert front[i] in front;
          var k: nat :| k < n - 1 && front[i].payDate == PayDate(g, k);
          PayDatesAscend(g, k, n - 1);
        }
      }
      forall f | f in Filtered(g, w, n)
        ensures exists k: nat :: k < n && f.payDate == PayDate(g, k)
      {
        if f !in front {
          assert f.payDate == PayDate(g, n - 1);
        }
      }
    }
  }

  /** The projection of a single generator, recurring or not, has its roll dates in order. */
  lemma {:induction false} OneGeneratorIsOrdered(g: Generator, w: Window)
    requires Ends(g, w)
    ensures Ascending(RollDates(Listing(g, w)))
  {
    hide RollDates, Filtered;
    var n: nat :| EndsBy(g, w, n);
    ListingIsFilter(g, w, n);
    FilteredInPayOrder(g, w, n);
    PayOrderAscends(Listing(g, w));
  }

  /** For flows that do not recur, sorting the generators by start date is enough, as long as they roll alike. */
  lemma {:induction false} OneOffsAreOrdered(cfs: seq<Generator>, w: Window)
    requires forall g :: g in cfs ==> Ends(g, w)
    requires forall g :: g in cfs ==>
               !IsRecurring(g) && g.calendar == cfs[0].calendar && HdlRoll(g.roll) == HdlRoll(cfs[0].roll)
    requires forall i, j :: 0 <= i < j < |cfs| ==> cfs[i].date <= cfs[j].date
    ensures InPayOrder(Listings(cfs, w)) && Ascending(RollDates(Listings(cfs, w)))
  {
    OneOffsInPayOrder(cfs, w);
    PayOrderAscends(Listings(cfs, w));
  }

  lemma {:induction false} OneOffsInPayOrder(cfs: seq<Generator>, w: Window)
    requires forall g :: g in cfs ==> Ends(g, w)
    requires forall g :: g in cfs ==>
               !IsRecurring(g) && g.calendar == cfs[0].calendar && HdlRoll(g.roll) == HdlRoll(cfs[0].roll)
    requires forall i, j :: 0 <= i < j < |cfs| ==> cfs[i].date <= cfs[j].date
    ensures InPayOrder(Listings(cfs, w))
    ensures forall f :: f in Listings(cfs, w) ==>
              && cfs[0].calendar.Some?
              && f.payDate <= PayDate(cfs[|cfs| - 1], 0)
  {
    hide Adjust, InWindow;
    if cfs != [] {
      var front, g := cfs[..|cfs| - 1], cfs[|cfs| - 1];
      OneOffsInPayOrder(front, w);
      assert g in cfs && cfs[0] in cfs;
      OneOffListing(g, w);
      if front != [] && g.calendar.Some? {
        var last := front[|front| - 1];
        assert last in cfs;
        AdjustMonotone(g.calendar.value, DayOf(last.date), DayOf(g.date), HdlRoll(g.roll));
      }
    }
  }

  lemma {:induction false} OneOffListing(g: Generator, w: Window)
    requires Ends(g, w) && !IsRecurring(g)
    ensures |Listing(g, w)| <= 1
    ensures forall f :: f in Listing(g, w) ==> g.calendar.Some? && f.payDate == PayDate(g, 0)
  {
    assert EndsBy(g, w, 1);
    ListingIsFilter(g, w, 1);
    assert Filtered(g, w, 0) == [];
  }

  // ---------- when the order is wrong ----------

  lemma {:induction false} FirstLate(dates: seq<Instant>, n: nat) returns (i: nat, j: nat)
    requires n <= |dates| && !OrderedUpTo(dates, n) && forall i, j :: 0 <= i < j < |dates| ==> dates[i] != dates[j]
    ensures i < n && i < j < |dates| && dates[j] < dates[i] && OrderedUpTo(dates, i)
  {
    if OrderedUpTo(dates, n - 1) {
      i := n - 1;
      j :| i < j < |dates| && dates[j] <= dates[i];
    } else {
      i, j := FirstLate(dates, n - 1);
    }
  }

  lemma {:induction false} CountsAreBounded(flows: seq<CashFlow>, currency: string, dates: set<Instant>, date: Instant)
    ensures CountOn(flows, currency, dates) <= |flows| && CountBy(flows, currency, date) <= |flows|
  {
    if flows != [] {
      CountsAreBounded(flows[..|flows| - 1], currency, dates, date);
    }
  }

  /** For amounts too large to be snapped away the order of the roll dates decides: the rows up to `endDate`
      are all right if and only if the roll dates up to there come in order, before all the others. */
  lemma {:induction false} RowsAreRightIffOrdered(flows: seq<CashFlow>, startDate: Instant, endDate: Instant)
    requires forall f :: f in flows ==> startDate < f.payDate && 0.002 * |flows| as real <= f.amount
    ensures var count := DatesUpTo(RollDates(flows), endDate);
            OrderedUpTo(RollDates(flows), count) <==>
            forall n :: 0 <= n <= count ==> RowIsRight(flows, RowAt(flows, startDate, n))
  {
    hide RollDates, RowAt, RowIsRight;
    var dates := RollDates(flows);
    var count := DatesUpTo(dates, endDate);
    RollDatesAreThePayDates(flows);
    if OrderedUpTo(dates, count) {
      forall n | 0 <= n <= count
        ensures RowIsRight(flows, RowAt(flows, startDate, n))
      {
        ProjectionRefinesSum(flows, startDate, n);
      }
    } else {
      var i, j := FirstLate(dates, count);
      LateFlowMisstates(flows, startDate, i, j);
    }
  }

  /** The flows with other amounts. */
  function WithAmounts(flows: seq<CashFlow>, amounts: seq<real>): (r: seq<CashFlow>)
    requires |amounts| == |flows|
    ensures |r| == |flows| && forall i :: 0 <= i < |r| ==> r[i] == flows[i].(amount := amounts[i])
  {
    seq(|flows|, i requires 0 <= i < |flows| => flows[i].(amount := amounts[i]))
  }

  lemma {:induction false} RollDatesIgnoreAmounts(flows: seq<CashFlow>, others: seq<CashFlow>)
    requires |flows| == |others| && forall i :: 0 <= i < |flows| ==> flows[i].payDate == others[i].payDate
    ensures RollDates(flows) == RollDates(others)
  {
    if flows != [] {
      RollDatesIgnoreAmounts(flows[..|flows| - 1], others[..|others| - 1]);
    }
  }

  /** All rows up to `endDate` are right with the given amounts. */
  ghost predicate RightWith(flows: seq<CashFlow>, startDate: Instant, endDate: Instant, amounts: seq<real>)
    requires |amounts| == |flows|
  {
    var f := WithAmounts(flows, amounts);
    forall n :: 0 <= n <= DatesUpTo(RollDates(f), endDate) ==> RowIsRight(f, RowAt(f, startDate, n))
  }

  /** Whatever the flows are worth, payables and small change included: the roll dates up to `endDate` come in
      order, before all the others, if and only if the rows are right for every choice of amounts. */
  lemma {:induction false} OrderIsRightForAllAmounts(flows: seq<CashFlow>, startDate: Instant, endDate: Instant)
    requires forall f :: f in flows ==> startDate < f.payDate
    ensures OrderedUpTo(RollDates(flows), DatesUpTo(RollDates(flows), endDate)) <==>
            forall amounts: seq<real> :: |amounts| == |flows| ==> RightWith(flows, startDate, endDate, amounts)
  {
    hide RollDates, RowAt, RowIsRight, OrderedUpTo, DatesUpTo;
    if OrderedUpTo(RollDates(flows), DatesUpTo(RollDates(flows), endDate)) {
      forall amounts: seq<real> | |amounts| == |flows|
        ensures RightWith(flows, startDate, endDate, amounts)
      {
        var f := WithAmounts(flows, amounts);
        RollDatesIgnoreAmounts(flows, f);
        forall n | 0 <= n <= DatesUpTo(RollDates(f), endDate)
          ensures RowIsRight(f, RowAt(f, startDate, n))
        {
          OrderedEarlier(RollDates(f), DatesUpTo(RollDates(f), endDate), n);
          ProjectionRefinesSum(f, startDate, n);
        }
      }
    } else {
      var amounts := seq(|flows|, _ => 0.002 * |flows| as real);
      var f := WithAmounts(flows, amounts);
      RollDatesIgnoreAmounts(flows, f);
      RowsAreRightIffOrdered(f, startDate, endDate);
      assert !RightWith(flows, startDate, endDate, amounts);
    }
  }

  lemma {:induction false} OrderedEarlier(dates: seq<Instant>, count: nat, n: nat)
    requires n <= count <= |dates| && OrderedUpTo(dates, count)
    ensures OrderedUpTo(dates, n)
  {
  }

  /** The row before the first late date still counts that date's flows, which have been paid. */
  lemma {:induction false} LateFlowMisstates(flows: seq<CashFlow>, startDate: Instant, i: nat, j: nat)
    requires forall f :: f in flows ==> startDate < f.payDate && 0.002 * |flows| as real <= f.amount
    requires i < j < |RollDates(flows)| && RollDates(flows)[j] < RollDates(flows)[i]
    requires OrderedUpTo(RollDates(flows), i)
    ensures !RowIsRight(flows, RowAt(flows, startDate, i + 1))
  {
    hide RollDates, RowAt, TotalOn, CountOn, TotalAfter, CountBy, Overdue, Early, Unpaid, OrderedUpTo;
    var dates, row := RollDates(flows), RowAt(flows, startDate, i + 1);
    RollDatesAreThePayDates(flows);
    assert dates[j] in dates;
    var k :| 0 <= k < |flows| && flows[k].payDate == dates[j];
    var f := flows[k];
    var x := EntryOf(flows, startDate, i + 1, f);
    RowTracksUnpaid(flows, startDate, i + 1, x);
    UnpaidIsOffByOverdueAndEarly(flows, f.currency, i + 1);
    assert Early(dates, i + 1) == {} && dates[j] in Overdue(dates, i + 1) by {
      FirstLateHasNoEarly(dates, i, j);
    }
    NoDates(flows, f.currency);
    LargeTotal(flows, f, Overdue(dates, i + 1), 0.002 * |flows| as real);
    CountsAreBounded(flows, f.currency, DateSet(dates[..i + 1]), row.date);
    assert row.date == dates[i] by {
      RowDate(flows, startDate, i + 1);
    }
    assert !EntryIsRight(flows, row, x);
  }

  /** The rows are dated by the start and then by the roll dates. */
  lemma {:induction false} RowDate(flows: seq<CashFlow>, startDate: Instant, n: nat)
    requires n <= |RollDates(flows)|
    ensures RowAt(flows, startDate, n).date == if n == 0 then startDate else RollDates(flows)[n - 1]
  {
  }

  lemma {:induction false} FirstLateHasNoEarly(dates: seq<Instant>, i: nat, j: nat)
    requires i < j < |dates| && dates[j] < dates[i] && OrderedUpTo(dates, i)
    ensures Early(dates, i + 1) == {} && dates[j] in Overdue(dates, i + 1)
  {
  }

  /** Where a row holds the currency of a flow. */
  lemma {:induction false} EntryOf(flows: seq<CashFlow>, startDate: Instant, n: nat, f: CashFlow) returns (x: nat)
    requires n <= |RollDates(flows)| && f in flows
    ensures x < |RowAt(flows, startDate, n).exposures| && RowAt(flows, startDate, n).exposures[x].0 == f.currency
  {
    RowsListEveryCurrency(flows, startDate, n, f.currency);
    var names := Names(RowAt(flows, startDate, n));
    x :| 0 <= x < |names| && names[x] == f.currency;
  }

  /** A total that includes `f` is no smaller than the least amount. */
  lemma {:induction false} LargeTotal(flows: seq<CashFlow>, f: CashFlow, dates: set<Instant>, least: real)
    requires 0.0 <= least && forall g :: g in flows ==> least <= g.amount
    ensures 0.0 <= TotalOn(flows, f.currency, dates)
    ensures f in flows && f.payDate in dates ==> least <= TotalOn(flows, f.currency, dates)
  {
    if flows != [] {
      var front := flows[..|flows| - 1];
      assert flows == front + [flows[|flows| - 1]];
      LargeTotal(front, f, dates, least);
    }
  }

  /** The unrolled flow of day `d`. */
  function OneOff(d: Ordinal): CashFlow {
    CashFlow(None, 1.0, "EUR", Midnight(d))
  }

  /** A generator that pays 1 EUR `count` times, 20 days apart, from day `d` on. */
  function EveryTwentyDays(d: Ordinal, count: nat): (g: Generator)
    ensures g.calendar.Some? && g.date == Midnight(d)
    ensures forall k :: 0 <= k < count ==> FlowAt(g, k) == OneOff(d + 20 * k)
    ensures forall k: nat :: Emits(g, k) <==> k < count
  {
    hide Adjust;
    var rule := Recurrence((k: nat) => Midnight(d + 20 * k), Some(count));
    assert Increasing(rule);
    var g := Generator(None, 1.0, "EUR", Some(NullCalendar), None, Midnight(d), None, Some(rule), DAY);
    assert forall k: nat :: DayOf(Occurrence(g, k)) == d + 20 * k;
    UnadjustedStays();
    g
  }

  function Payments(d: Ordinal, n: nat): seq<CashFlow> {
    if n == 0 then [] else Payments(d, n - 1) + [OneOff(d + 20 * (n - 1))]
  }

  /** The window that the projection asks for: flows after `startDate`, up to `maxDays` days away. */
  function ProviderWindow(startDate: Instant, maxDays: int): Window {
    Window(startDate, Some(maxDays), None, false, true, false)
  }

  /** Sorting generators by start date does not order their flows, and the projection is wrong for it: one
      that pays on days 10 and 30, followed by one that pays on day 20, gives roll dates 10, 30, 20, and the
      row for day 30 still shows an exposure of 1 EUR although nothing pays after that day. */
  lemma {:induction false} InterleavedGeneratorsMisstate(horizon: nat)
    ensures var cfs := [EveryTwentyDays(10, 2), EveryTwentyDays(20, 1)];
            var startDate, endDate := Midnight(1), Midnight(40);
            var w := ProviderWindow(startDate, DayOf(endDate) - DayOf(startDate) + horizon);
            && cfs[0].date <= cfs[1].date && (forall g :: g in cfs ==> Ends(g, w))
            && var flows := Listings(cfs, w);
               && flows == [OneOff(10), OneOff(30), OneOff(20)]
               && DatesUpTo(RollDates(flows), endDate) == |RollDates(flows)| == 3
               && RowAt(flows, startDate, 2) == Row(Midnight(30), [("EUR", 1.0)])
               && TotalAfter(flows, "EUR", Midnight(30)) == 0.0 && !RowIsRight(flows, RowAt(flows, startDate, 2))
  {
    hide EveryTwentyDays, FlowAt, Emits, PayDate, RollDates, RowAt, RowIsRight;
    var a, b := EveryTwentyDays(10, 2), EveryTwentyDays(20, 1);
    var w := ProviderWindow(Midnight(1), 39 + horizon);
    AllListed(10, 2, w, 2);
    AllListed(20, 1, w, 1);
    assert Listings([a], w) == Listing(a, w) by {
      assert [a][..0] == [];
    }
    assert Listings([a, b], w) == Listing(a, w) + Listing(b, w) by {
      assert [a, b][..1] == [a];
    }
    assert Payments(10, 1) == [OneOff(10)];
    OutOfOrder();
    OutOfOrderRow();
  }

  lemma {:induction false} OutOfOrder()
    ensures RollDates([OneOff(10), OneOff(30), OneOff(20)]) == [Midnight(10), Midnight(30), Midnight(20)]
    ensures DatesUpTo([Midnight(10), Midnight(30), Midnight(20)], Midnight(40)) == 3
  {
    var flows := [OneOff(10), OneOff(30), OneOff(20)];
    assert flows[..2] == [OneOff(10), OneOff(30)] && flows[..2][..1] == [OneOff(10)];
    assert RollDates([OneOff(10)]) == [Midnight(10)];
    assert RollDates(flows[..2]) == [Midnight(10), Midnight(30)];
    CutIsUnique([Midnight(10), Midnight(30), Midnight(20)], Midnight(40), 3);
  }

  lemma {:induction false} PayingOutOfOrder(d: Ordinal)
    requires d in {10, 30, 20}
    ensures Paying([OneOff(10), OneOff(30), OneOff(20)], Midnight(d)) == [OneOff(d)]
  {
    var flows := [OneOff(10), OneOff(30), OneOff(20)];
    assert flows[..2] == [OneOff(10), OneOff(30)] && flows[..2][..1] == [OneOff(10)] && [OneOff(10)][..0] == [];
    assert Paying([OneOff(10)], Midnight(d)) == if d == 10 then [OneOff(10)] else [];
    assert Paying(flows[..2], Midnight(d)) == if d == 20 then [] else [OneOff(d)];
  }

  lemma {:induction false} RolledOutOfOrder()
    ensures var flows := [OneOff(10), OneOff(30), OneOff(20)];
            var dates := [Midnight(10), Midnight(30), Midnight(20)];
            Rolled(flows, dates) == flows && Rolled(flows, dates[..2]) == flows[..2]
  {
    hide Paying;
    var flows, dates := [OneOff(10), OneOff(30), OneOff(20)], [Midnight(10), Midnight(30), Midnight(20)];
    PayingOutOfOrder(10);
    PayingOutOfOrder(30);
    PayingOutOfOrder(20);
    NothingRolled(flows);
    assert dates[..0] == [] && dates[..3] == dates;
    RolledGrows(flows, dates, 0);
    RolledGrows(flows, dates, 1);
    RolledGrows(flows, dates, 2);
  }

  lemma {:induction false} BalanceOutOfOrder()
    ensures var flows := [OneOff(10), OneOff(30), OneOff(20)];
            Currencies(flows) == ["EUR"] && Balance(Total(flows, "EUR"), "EUR", flows[..2]) == 1.0
    ensures var flows := [OneOff(10), OneOff(30), OneOff(20)];
            TotalAfter(flows, "EUR", Midnight(30)) == 0.0 && CountBy(flows, "EUR", Midnight(30)) == 3
  {
    var flows := [OneOff(10), OneOff(30), OneOff(20)];
    assert flows[..2] == [OneOff(10), OneOff(30)] && flows[..2][..1] == [OneOff(10)] && [OneOff(10)][..0] == [];
    assert Currencies([OneOff(10)]) == ["EUR"] && Currencies(flows[..2]) == ["EUR"];
    assert Total([OneOff(10)], "EUR") == 1.0 && Total(flows[..2], "EUR") == 2.0;
    assert Balance(3.0, "EUR", [OneOff(10)]) == 2.0;
    assert TotalAfter([OneOff(10)], "EUR", Midnight(30)) == 0.0 && TotalAfter(flows[..2], "EUR", Midnight(30)) == 0.0;
    assert CountBy([OneOff(10)], "EUR", Midnight(30)) == 1 && CountBy(flows[..2], "EUR", Midnight(30)) == 2;
  }

  lemma {:induction false} OutOfOrderRow()
    ensures var flows := [OneOff(10), OneOff(30), OneOff(20)];
            && |RollDates(flows)| == 3
            && RowAt(flows, Midnight(1), 2) == Row(Midnight(30), [("EUR", 1.0)])
            && TotalAfter(flows, "EUR", Midnight(30)) == 0.0 && !RowIsRight(flows, RowAt(flows, Midnight(1), 2))
  {
    hide RollDates, Rolled, Currencies, Balance, Total, TotalAfter, CountBy;
    var flows := [OneOff(10), OneOff(30), OneOff(20)];
    OutOfOrder();
    RolledOutOfOrder();
    BalanceOutOfOrder();
    assert !EntryIsRight(flows, RowAt(flows, Midnight(1), 2), 0);
  }

  lemma {:induction false} AllListed(d: Ordinal, count: nat, w: Window, n: nat)
    requires n <= count && 1 < d && d + 20 * count <= 60
    requires w.ref == DAY && w.maxDays.Some? && 39 <= w.maxDays.value
    requires w == ProviderWindow(w.ref, w.maxDays.value)
    ensures Filtered(EveryTwentyDays(d, count), w, n) == Payments(d, n)
    ensures n == count ==> Ends(EveryTwentyDays(d, count), w)
                           && Listing(EveryTwentyDays(d, count), w) == Filtered(EveryTwentyDays(d, count), w, n)
  {
    hide EveryTwentyDays, Emits, PayDate;
    var g := EveryTwentyDays(d, count);
    if n != 0 {
      AllListed(d, count, w, n - 1);
      assert FlowAt(g, n - 1) == OneOff(d + 20 * (n - 1));
      assert Listed(g, w, n - 1);
    }
    if n == count {
      assert EndsBy(g, w, n);
      ListingIsFilter(g, w, n);
    }
  }

  // ---------- from the generators to the time series ----------

  /** The flows that the projection is made from: those of the generators that pay after `startDate` and up to
      `maxDays` whole days away. */
  lemma {:induction false} ProvidedFlows(cfs: seq<Generator>, startDate: Instant, maxDays: int, f: CashFlow)
    requires forall g :: g in cfs ==> Ends(g, ProviderWindow(startDate, maxDays))
    ensures f in Listings(cfs, ProviderWindow(startDate, maxDays)) <==>
              && startDate < f.payDate < startDate + (maxDays + 1) * DAY
              && exists g, k: nat :: g in cfs && IsGenerated(g, k, f)
  {
    hide Listings, IsGenerated;
    var w := ProviderWindow(startDate, maxDays);
    ListingsAreAdmitted(cfs, w, f);
    assert forall g, k: nat :: Admits(g, w, k, f) <==>
                                 IsGenerated(g, k, f) && startDate < f.payDate < startDate + (maxDays + 1) * DAY;
  }

  lemma {:induction false} ListedFlowsPayLater(cfs: seq<Generator>, w: Window)
    requires !w.onValueDate && forall g :: g in cfs ==> Ends(g, w)
    ensures forall f :: f in Listings(cfs, w) ==> w.ref < f.payDate
  {
    if cfs != [] {
      ListedFlowsPayLater(cfs[..|cfs| - 1], w);
      var g := cfs[|cfs| - 1];
      assert g in cfs;
      var n: nat :| EndsBy(g, w, n);
      ListingIsFilter(g, w, n);
      FilteredPayLater(g, w, n);
    }
  }

  lemma {:induction false} FilteredPayLater(g: Generator, w: Window, n: nat)
    requires !w.onValueDate
    ensures forall f :: f in Filtered(g, w, n) ==> w.ref < f.payDate
  {
    hide PayDate;
    if n != 0 {
      FilteredPayLater(g, w, n - 1);
    }
  }

  /** `get_projected_raw_cash_exposures_ts`: the exact transpose of the rows. Its first look-up raises an
      IndexError exactly when the window holds no flow; a generator without a calendar raises earlier. */
  method GetProjectedRawCashExposuresTs(cfs: seq<Generator>, startDate: Instant, endDate: Instant, maxHorizon: int)
    returns (r: Result<(seq<Instant>, Dict<string, seq<real>>)>)
    ensures forall g :: g in cfs ==> Ends(g, ProviderWindow(startDate, DayOf(endDate) - DayOf(startDate) + maxHorizon))
    ensures var w := ProviderWindow(startDate, DayOf(endDate) - DayOf(startDate) + maxHorizon);
            if exists i :: 0 <= i < |cfs| && Fails(cfs[i], w) then r == Raised(NotImplementedError)
            else if Listings(cfs, w) == [] then r == Raised(IndexError)
            else r.Ok? && TransposeOf(r.value.0, r.value.1, Listings(cfs, w), startDate, endDate)
  {
    var w := ProviderWindow(startDate, DayOf(endDate) - DayOf(startDate) + maxHorizon);
    forall g | g in cfs
      ensures Ends(g, w)
    {
      BoundedWindowEnds(g, w);
    }
    var listed := ListActive(cfs, w);
    if listed.Raised? {
      return Raised(listed.error);
    }
    ListedFlowsPayLater(cfs, w);
    r := Reshape(listed.value, startDate, endDate);
  }

  /** Column `i` of the series holds, date by date, entry `i` of the rows. */
  ghost predicate TransposeOf(dates: seq<Instant>, series: Dict<string, seq<real>>, flows: seq<CashFlow>,
                              startDate: Instant, endDate: Instant)
  {
    var count := 1 + DatesUpTo(RollDates(flows), endDate);
    var first := RowAt(flows, startDate, 0).exposures;
    && |dates| == count && |series.keys| == |first|
    && (forall n :: 0 <= n < count ==> dates[n] == RowAt(flows, startDate, n).date)
    && forall i :: 0 <= i < |first| ==>
         && series.keys[i] == first[i].0 && first[i].0 in series.at && |series.at[first[i].0]| == count
         && forall n :: 0 <= n < count ==>
              RowAt(flows, startDate, n).exposures[i] == (first[i].0, series.at[first[i].0][n])
  }

  /** The rows list `names`, in that order. */
  ghost predicate Uniform(rows: seq<Row>, names: seq<string>) {
    && (forall i, j :: 0 <= i < j < |names| ==> names[i] != names[j])
    && forall n :: 0 <= n < |rows| ==>
         |rows[n].exposures| == |names| && forall i :: 0 <= i < |names| ==> rows[n].exposures[i].0 == names[i]
  }

  /** The lists hold the first `n` rows, column by column. */
  ghost predicate Columns(series: Dict<string, seq<real>>, names: seq<string>, rows: seq<Row>, n: nat)
    requires n <= |rows| && Uniform(rows, names)
  {
    && Valid(series) && series.keys == names
    && forall i :: 0 <= i < |names| ==>
         && |series.at[names[i]]| == n
         && forall m :: 0 <= m < n ==> series.at[names[i]][m] == rows[m].exposures[i].1
  }

  method Reshape(flows: seq<CashFlow>, startDate: Instant, endDate: Instant)
    returns (r: Result<(seq<Instant>, Dict<string, seq<real>>)>)
    requires forall f :: f in flows ==> startDate < f.payDate
    ensures if flows == [] then r == Raised(IndexError)
            else r.Ok? && TransposeOf(r.value.0, r.value.1, flows, startDate, endDate)
  {
    hide RowAt, DatesUpTo;
    var rows := GetProjectedRawCashExposures(flows, startDate, endDate);
    if |rows| == 0 {
      return Raised(IndexError);
    }
    ghost var names := Names(rows[0]);
    NamesAreDistinct(flows, startDate);
    assert Uniform(rows, names);
    var series := EmptyColumns(rows, names);
    var dates: seq<Instant> := [];
    for n := 0 to |rows|
      invariant |dates| == n && forall m :: 0 <= m < n ==> dates[m] == rows[m].date
      invariant Columns(series, names, rows, n)
    {
      dates := dates + [rows[n].date];
      series := AppendRow(series, names, rows, n);
    }
    r := Ok((dates, series));
    TransposeFromColumns(dates, series, rows, flows, startDate, endDate);
  }

  function Names(row: Row): seq<string> {
    seq(|row.exposures|, i requires 0 <= i < |row.exposures| => row.exposures[i].0)
  }

  lemma {:induction false} TransposeFromColumns(dates: seq<Instant>, series: Dict<string, seq<real>>, rows: seq<Row>,
                                  flows: seq<CashFlow>,
                             startDate: Instant, endDate: Instant)
    requires |rows| == 1 + DatesUpTo(RollDates(flows), endDate) == |dates|
    requires forall n :: 0 <= n < |rows| ==> rows[n] == RowAt(flows, startDate, n) && dates[n] == rows[n].date
    requires Uniform(rows, Names(rows[0])) && Columns(series, Names(rows[0]), rows, |rows|)
    ensures TransposeOf(dates, series, flows, startDate, endDate)
  {
  }

  /** The lists before the first row: one empty list per currency. */
  method EmptyColumns(rows: seq<Row>, ghost names: seq<string>) returns (series: Dict<string, seq<real>>)
    requires 0 < |rows| && Uniform(rows, names)
    ensures Columns(series, names, rows, 0)
  {
    series := Dict([], map[]);
    for i := 0 to |rows[0].exposures|
      invariant Valid(series) && series.keys == names[..i]
      invariant forall c :: c in series.at ==> series.at[c] == []
    {
      series := Put(series, rows[0].exposures[i].0, []);
    }
    assert names[..|names|] == names;
  }

  lemma {:induction false} NamesAreDistinct(flows: seq<CashFlow>, startDate: Instant)
    ensures var first := RowAt(flows, startDate, 0).exposures;
            forall i, j :: 0 <= i < j < |first| ==> first[i].0 != first[j].0
    ensures forall n :: 0 <= n <= |RollDates(flows)| ==>
              && |RowAt(flows, startDate, n).exposures| == |RowAt(flows, startDate, 0).exposures|
              && forall i :: 0 <= i < |RowAt(flows, startDate, 0).exposures| ==>
                   RowAt(flows, startDate, n).exposures[i].0 == RowAt(flows, startDate, 0).exposures[i].0
  {
    CurrenciesAreDistinct(Rolled(flows, RollDates(flows)));
  }

  /** The first `j` currencies have their amount of the row appended, the others do not. */
  ghost predicate Appended(series: Dict<string, seq<real>>, before: Dict<string, seq<real>>, names: seq<string>,
                           row: Row, j: nat)
    requires |row.exposures| == |names|
  {
    && Valid(series) && Valid(before) && series.keys == before.keys == names
    && forall i :: 0 <= i < |names| ==>
         series.at[names[i]] == before.at[names[i]] + if i < j then [row.exposures[i].1] else []
  }

  lemma {:induction false} AppendedNext(series: Dict<string, seq<real>>, before: Dict<string, seq<real>>,
                                        names: seq<string>, row: Row, j: nat)
    requires j < |row.exposures| == |names| && row.exposures[j].0 == names[j] && Appended(series, before, names, row, j)
    ensures names[j] in series.at
    ensures Appended(Put(series, names[j], series.at[names[j]] + [row.exposures[j].1]), before, names, row, j + 1)
  {
  }

  /** The inner loop of the reshaping: one row appended to every currency's list. */
  method AppendRow(before: Dict<string, seq<real>>, ghost names: seq<string>, rows: seq<Row>, n: nat)
    returns (series: Dict<string, seq<real>>)
    requires n < |rows| && Uniform(rows, names) && Columns(before, names, rows, n)
    ensures Columns(series, names, rows, n + 1)
  {
    series := before;
    for j := 0 to |rows[n].exposures|
      invariant Appended(series, before, names, rows[n], j)
    {
      hide Appended, Columns;
      AppendedNext(series, before, names, rows[n], j);
      var (currency, amount) := rows[n].exposures[j];
      series := Put(series, currency, series.at[currency] + [amount]);
    }
  }
}
