/** The unhedged backtest (`stylized_run`): evenly stepped start dates, then day by day the cumulative
    roll-off, the NPV and the total value of every account. */
module BacktestRollOff {
  import opened Wrappers
  import opened Dates
  import opened Sums
  import Percentiles

  // ---------- the sampled start dates ----------

  /** The number of dates in `yield_range(from, to)`, which includes both ends. */
  function RangeLength(from: Instant, to: int): nat {
    if to < from then 0 else (to - from) / DAY + 1
  }

  /** Exactly the first `RangeLength` days from `from` on are not after `to`. */
  lemma {:induction false} RangeLengthCounts(from: Instant, to: int, i: nat)
    ensures i < RangeLength(from, to) <==> from + i * DAY <= to
  {
  }

  /** What sampling `count` start dates gives for runs of `days` days: as many as asked for and as fit,
      evenly stepped from the first possible one on, or the error of each case without any. */
  ghost predicate IsSampling(r: Result<seq<Instant>>, minDate: Instant, maxDate: Instant, days: int, count: int) {
    var spare := DayOf(maxDate) - DayOf(minDate) - days;
    && (spare < 0 ==> r == Raised(ValueError))
    && (0 <= spare && (spare == 0 || count == 0) && 0 <= count ==>
          r == Raised(if RangeLength(minDate, maxDate - days * DAY) == 0 then ValueError else OverflowError))
    && (0 <= spare && count < 0 ==> r == Ok([]))
    && (0 < spare && 0 < count ==>
          r.Ok? && EvenlyStepped(r.value, minDate, maxDate - days * DAY, if count < spare then count else spare))
  }

  method SampleDates(minDate: Instant, maxDate: Instant, days: int, count: int) returns (r: Result<seq<Instant>>)
    ensures IsSampling(r, minDate, maxDate, days, count)
  {
    var span := DayOf(maxDate) - DayOf(minDate);
    if span < days {
      return Raised(ValueError);
    }
    var n := if count < span - days then count else span - days;
    var length := RangeLength(minDate, maxDate - days * DAY);
    if n == 0 {
      return Raised(if length == 0 then ValueError else OverflowError);
    }
    var dates: seq<Instant> := [];
    if n < 0 {
      return Ok(dates);
    }
    LongEnough(minDate, maxDate, days);
    var step := length / n;
    StepFits(length, n, n - 1);
    for i := 0 to n
      invariant |dates| == i && forall j :: 0 <= j < i ==> dates[j] == minDate + j * step * DAY
    {
      StepFits(length, n, i);
      dates := dates + [minDate + i * step * DAY];
    }
    WithinRange(minDate, maxDate - days * DAY, length, n);
    return Ok(dates);
  }

  /** `n` dates in strictly increasing order from `first` on, as many whole days apart as the range allows,
      and none after `last`. */
  ghost predicate EvenlyStepped(dates: seq<Instant>, first: Instant, last: int, n: int)
    requires 0 < n
  {
    var step := RangeLength(first, last) / n;
    && 1 <= step && |dates| == n
    && forall i :: 0 <= i < n ==> dates[i] == first + i * step * DAY <= last
  }

  lemma {:induction false} LongEnough(minDate: Instant, maxDate: Instant, days: int)
    requires 0 < DayOf(maxDate) - DayOf(minDate) - days
    ensures DayOf(maxDate) - DayOf(minDate) - days <= RangeLength(minDate, maxDate - days * DAY)
  {
  }

  lemma {:induction false} StepFits(length: nat, n: nat, i: nat)
    requires 0 < n <= length && i < n
    ensures 1 <= length / n && 0 <= i * (length / n) < length
  {
  }

  lemma {:induction false} WithinRange(first: Instant, last: int, length: nat, n: nat)
    requires 0 < n <= length && length == RangeLength(first, last)
    ensures forall i :: 0 <= i < n ==> first + i * (length / n) * DAY <= last
  {
  }

  // ---------- one account on one start date ----------

  /** A cashflow reduced to its domestic value and the days until it pays. */
  datatype StylizedFlow = StylizedFlow(currency: string, domesticAmount: real, daysTillPayDate: nat)

  datatype Flow = Flow(currency: string, amount: real, payDate: Instant)

  /** Market data and the clock: the value at a date of an amount of a currency in domestic currency and
      back, the NPV of flows at a date (`None` when it is NaN), the NPV on the original date, the seconds
      that the roll-off step of a day takes, and the square root. */
  datatype Market = Market(
    toDomestic: (Instant, string, real) -> real,
    fromDomestic: (Instant, string, real) -> real,
    npv: (seq<Flow>, Instant) -> Option<real>,
    originalNpv: Option<real>,
    elapsed: nat -> real,
    root: real -> real)

  function Restylized(m: Market, f: StylizedFlow, date: Instant): Flow {
    Flow(f.currency, m.fromDomestic(date, f.currency, f.domesticAmount), date + f.daysTillPayDate * DAY)
  }

  function RestylizedAll(m: Market, fs: seq<StylizedFlow>, date: Instant): (r: seq<Flow>)
    ensures |r| == |fs| && forall i :: 0 <= i < |r| ==> r[i] == Restylized(m, fs[i], date)
  {
    seq(|fs|, i requires 0 <= i < |fs| => Restylized(m, fs[i], date))
  }

  /** The lists that a run keeps for an account. */
  datatype Lists = Lists(totals: seq<Option<real>>, rollOffs: seq<real>, npvs: seq<Option<real>>)

  ghost predicate Ascending(dates: seq<Instant>) {
    forall i, j :: 0 <= i < j < |dates| ==> dates[i] < dates[j]
  }

  /** The value rolled off between two neighbouring days: flows paying from the first up to the second. */
  function RolledOff(m: Market, flows: seq<Flow>, from: Instant, to: Instant): real {
    if flows == [] then 0.0
    else
      var f := flows[|flows| - 1];
      RolledOff(m, flows[..|flows| - 1], from, to)
      + if from <= f.payDate < to then m.toDomestic(to, f.currency, f.amount) else 0.0
  }

  /** The first simulated day after an instant that some day follows. */
  function FirstDayAfter(dates: seq<Instant>, p: Instant): (r: Instant)
    requires exists i :: 0 <= i < |dates| && p < dates[i]
    ensures r in dates && p < r
  {
    if p < dates[0] then dates[0] else FirstDayAfter(dates[1..], p)
  }

  /** The conserved quantity: every flow paying on or after day 0 and before day `k` once, valued on the
      first simulated day after it pays. */
  function Cumulative(m: Market, flows: seq<Flow>, dates: seq<Instant>, k: nat): real
    requires k < |dates|
  {
    if flows == [] then 0.0
    else
      var f := flows[|flows| - 1];
      Cumulative(m, flows[..|flows| - 1], dates, k)
      + if dates[0] <= f.payDate < dates[k] then m.toDomestic(FirstDayAfter(dates, f.payDate), f.currency, f.amount)
        else 0.0
  }

  lemma {:induction false} FirstDayIs(dates: seq<Instant>, p: Instant, k: nat)
    requires Ascending(dates) && 0 < k < |dates| && dates[k - 1] <= p < dates[k]
    ensures FirstDayAfter(dates, p) == dates[k]
  {
    assert dates[0] <= dates[k - 1];
    if k == 1 {
      assert dates[1..][0] == dates[1];
    } else {
      FirstDayIs(dates[1..], p, k - 1);
    }
  }

  /** Half-open days neither lose nor repeat a flow. */
  lemma {:induction false} CumulativeGrows(m: Market, flows: seq<Flow>, dates: seq<Instant>, k: nat)
    requires Ascending(dates) && 0 < k < |dates|
    ensures Cumulative(m, flows, dates, k)
            == Cumulative(m, flows, dates, k - 1) + RolledOff(m, flows, dates[k - 1], dates[k])
  {
    if flows != [] {
      var f := flows[|flows| - 1];
      CumulativeGrows(m, flows[..|flows| - 1], dates, k);
      assert dates[0] <= dates[k - 1] < dates[k];
      if dates[k - 1] <= f.payDate < dates[k] {
        FirstDayIs(dates, f.payDate, k);
      }
    }
  }

  lemma {:induction false} NothingYet(m: Market, flows: seq<Flow>, dates: seq<Instant>)
    requires 0 < |dates|
    ensures Cumulative(m, flows, dates, 0) == 0.0
  {
    if flows != [] {
      NothingYet(m, flows[..|flows| - 1], dates);
    }
  }

  /** The NPV kept for a day: a NaN carries over the last one less the roll-off, to which the code has by
      then added the elapsed seconds. */
  function CarriedNpv(m: Market, npv: Option<real>, last: Option<Option<real>>, rollOff: real, k: nat): Option<real> {
    if npv.Some? then npv
    else match last
      case None => m.originalNpv
      case Some(None) => None
      case Some(Some(x)) => Some(x - (rollOff + m.elapsed(k)))
  }

  function Plus(x: Option<real>, y: real): Option<real> {
    if x.None? then None else Some(x.value + y)
  }

  /** The roll-off of day `k`, which is none on the first day. */
  function DayRollOff(m: Market, flows: seq<Flow>, dates: seq<Instant>, k: nat): real
    requires k < |dates|
  {
    if k == 0 then 0.0 else RolledOff(m, flows, dates[k - 1], dates[k])
  }

  /** Day `k` of the lists: the roll-off list conserves the flows, the total is NPV plus roll-off. */
  predicate DayKept(m: Market, flows: seq<Flow>, dates: seq<Instant>, lists: Lists, k: nat)
    requires k < |dates| && k < |lists.totals| && k < |lists.rollOffs| && k < |lists.npvs|
  {
    && lists.rollOffs[k] == Cumulative(m, flows, dates, k)
    && lists.totals[k] == Plus(lists.npvs[k], Cumulative(m, flows, dates, k))
    && lists.npvs[k] == CarriedNpv(m, m.npv(flows, dates[k]), if k == 0 then None else Some(lists.npvs[k - 1]),
                                   DayRollOff(m, flows, dates, k), k)
  }

  /** The lists after `n` days stay aligned: one element a day in each. */
  ghost predicate DaysKept(m: Market, flows: seq<Flow>, dates: seq<Instant>, lists: Lists, n: nat) {
    && n <= |dates| && |lists.totals| == |lists.npvs| == n && |lists.rollOffs| == (if n == 0 then 1 else n)
    && lists.rollOffs[0] == 0.0
    && forall k: nat {:trigger DayKept(m, flows, dates, lists, k)} :: k < n ==> DayKept(m, flows, dates, lists, k)
  }

  /** One more day keeps the lists aligned and the flows conserved. */
  lemma {:induction false} NextDayKept(m: Market, flows: seq<Flow>, dates: seq<Instant>, lists: Lists, k: nat)
    requires Ascending(dates) && k < |dates| && DaysKept(m, flows, dates, lists, k)
    ensures var last := if k == 0 then None else Some(lists.npvs[k - 1]);
            var npv := CarriedNpv(m, m.npv(flows, dates[k]), last, DayRollOff(m, flows, dates, k), k);
            var total := if k == 0 then 0.0 else lists.rollOffs[k - 1] + DayRollOff(m, flows, dates, k);
            DaysKept(m, flows, dates,
                     Lists(lists.totals + [Plus(npv, total)], lists.rollOffs + (if k == 0 then [] else [total]),
                           lists.npvs + [npv]), k + 1)
  {
    hide Cumulative, RolledOff, CarriedNpv, Plus;
    NothingYet(m, flows, dates);
    if 0 < k {
      CumulativeGrows(m, flows, dates, k);
      assert DayKept(m, flows, dates, lists, k - 1);
    }
    var last := if k == 0 then None else Some(lists.npvs[k - 1]);
    var npv := CarriedNpv(m, m.npv(flows, dates[k]), last, DayRollOff(m, flows, dates, k), k);
    var total := if k == 0 then 0.0 else lists.rollOffs[k - 1] + DayRollOff(m, flows, dates, k);
    var more := Lists(lists.totals + [Plus(npv, total)], lists.rollOffs + (if k == 0 then [] else [total]),
                      lists.npvs + [npv]);
    forall j: nat | j < k + 1
      ensures DayKept(m, flows, dates, more, j)
    {
      if j < k {
        assert DayKept(m, flows, dates, lists, j);
      }
    }
  }

  /** The roll-off loop of one day. */
  method RollOffOfDay(m: Market, flows: seq<Flow>, from: Instant, to: Instant) returns (rollOff: real)
    ensures rollOff == RolledOff(m, flows, from, to)
  {
    rollOff := 0.0;
    for i := 0 to |flows|
      invariant rollOff == RolledOff(m, flows[..i], from, to)
    {
      assert flows[..i + 1][..i] == flows[..i];
      if from <= flows[i].payDate < to {
        rollOff := rollOff + m.toDomestic(to, flows[i].currency, flows[i].amount);
      }
    }
    assert flows[..|flows|] == flows;
  }

  /** The simulation of one account over the days of one run. */
  method RunAccount(m: Market, flows: seq<Flow>, dates: seq<Instant>) returns (lists: Lists)
    requires Ascending(dates)
    ensures DaysKept(m, flows, dates, lists, |dates|)
  {
    hide Cumulative, RolledOff, CarriedNpv, Plus;
    lists := Lists([], [0.0], []);
    var lastDate: Option<Instant> := None;
    for k := 0 to |dates|
      invariant DaysKept(m, flows, dates, lists, k)
      invariant lastDate == if k == 0 then None else Some(dates[k - 1])
    {
      NextDayKept(m, flows, dates, lists, k);
      var rollOff, totalRollOff := 0.0, 0.0;
      var rollOffs := lists.rollOffs;
      if lastDate.Some? {
        rollOff := RollOffOfDay(m, flows, lastDate.value, dates[k]);
        totalRollOff := rollOffs[|rollOffs| - 1] + rollOff;
        rollOffs := rollOffs + [totalRollOff];
      }
      var npv := CarriedNpv(m, m.npv(flows, dates[k]), if k == 0 then None else Some(lists.npvs[k - 1]), rollOff, k);
      assert rollOffs == lists.rollOffs + if k == 0 then [] else [totalRollOff];
      lists := Lists(lists.totals + [Plus(npv, totalRollOff)], rollOffs, lists.npvs + [npv]);
      lastDate := Some(dates[k]);
    }
  }

  /** A carried-over day keeps the total value of the day before, short of the elapsed seconds: what rolls
      off leaves the NPV, but the clock does too. */
  lemma {:induction false} CarryOverKeepsTotal(m: Market, flows: seq<Flow>, dates: seq<Instant>, lists: Lists, k: nat)
    requires Ascending(dates) && DaysKept(m, flows, dates, lists, |dates|) && 0 < k < |dates|
    requires m.npv(flows, dates[k]).None? && lists.npvs[k - 1].Some?
    ensures lists.totals[k - 1].Some? && lists.totals[k].Some?
    ensures lists.totals[k].value == lists.totals[k - 1].value - m.elapsed(k)
    ensures lists.totals[k] == lists.totals[k - 1] <==> m.elapsed(k) == 0.0
  {
    hide Cumulative, RolledOff;
    assert DayKept(m, flows, dates, lists, k) && DayKept(m, flows, dates, lists, k - 1);
    CumulativeGrows(m, flows, dates, k);
  }

  /** A value of the day is known on the original date or on some day up to `k`. */
  ghost predicate ValuedBy(m: Market, flows: seq<Flow>, dates: seq<Instant>, k: nat)
    requires k < |dates|
  {
    m.originalNpv.Some? || exists i: nat :: i <= k && m.npv(flows, dates[i]).Some?
  }

  /** The total of a day is a number if and only if the original NPV or that of some day so far is: a NaN is
      carried over only from the first days, and never comes back. */
  lemma {:induction false} TotalIsNumberIff(m: Market, flows: seq<Flow>, dates: seq<Instant>, lists: Lists, k: nat)
    requires DaysKept(m, flows, dates, lists, |dates|) && k < |dates|
    ensures lists.totals[k].Some? <==> ValuedBy(m, flows, dates, k)
  {
    hide Cumulative, RolledOff;
    assert DayKept(m, flows, dates, lists, k);
    if 0 < k {
      TotalIsNumberIff(m, flows, dates, lists, k - 1);
      assert DayKept(m, flows, dates, lists, k - 1);
    }
  }

  // ---------- a run in terms of the stylized flows ----------

  /** What a stylized flow adds to the roll-off by day `k` of a run that starts on `date`: it pays
      `daysTillPayDate` days later, and is counted from the day after, at that day's value. */
  function PaidBy(m: Market, f: StylizedFlow, date: Instant, k: nat): real {
    if f.daysTillPayDate < k
    then m.toDomestic(date + (f.daysTillPayDate + 1) * DAY, f.currency,
                      m.fromDomestic(date, f.currency, f.domesticAmount))
    else 0.0
  }

  function Payments(m: Market, fs: seq<StylizedFlow>, date: Instant, k: nat): nat -> real {
    (i: nat) => if i < |fs| then PaidBy(m, fs[i], date, k) else 0.0
  }

  /** The flows that a run simulates. */
  ghost predicate AreFlows(flows: seq<Flow>, m: Market, fs: seq<StylizedFlow>, date: Instant) {
    && |flows| == |fs|
    && forall i :: 0 <= i < |fs| ==>
         && flows[i].currency == fs[i].currency
         && flows[i].amount == m.fromDomestic(date, fs[i].currency, fs[i].domesticAmount)
         && flows[i].payDate == date + fs[i].daysTillPayDate * DAY
  }

  /** The NPV kept on day `k`: a NaN gives way to that of the original date on the first day, and later to that
      of the day before less what rolled off since and the elapsed seconds. */
  function KeptNpv(m: Market, npv: Option<real>, lists: Lists, k: nat): Option<real>
    requires k < |lists.npvs| && k < |lists.rollOffs|
  {
    if npv.Some? then npv
    else if k == 0 then m.originalNpv
    else if lists.npvs[k - 1].None? then None
    else Some(lists.npvs[k - 1].value - ((lists.rollOffs[k] - lists.rollOffs[k - 1]) + m.elapsed(k)))
  }

  /** The lists of a run of `days` days from `date`. */
  ghost predicate IsRunOf(m: Market, fs: seq<StylizedFlow>, days: int, date: Instant, lists: Lists) {
    && |lists.totals| == |lists.rollOffs| == |lists.npvs| == days + 1
    && (forall k: nat :: k <= days ==> DayIs(m, fs, date, lists, k))
    && forall flows, k: nat :: k <= days && AreFlows(flows, m, fs, date) ==>
         lists.npvs[k] == KeptNpv(m, m.npv(flows, date + k * DAY), lists, k)
  }

  predicate DayIs(m: Market, fs: seq<StylizedFlow>, date: Instant, lists: Lists, k: nat)
    requires k < |lists.totals| && k < |lists.rollOffs| && k < |lists.npvs|
  {
    && lists.rollOffs[k] == Sum(|fs|, Payments(m, fs, date, k))
    && match lists.npvs[k]
       case None => lists.totals[k] == None
       case Some(x) => lists.totals[k] == Some(x + lists.rollOffs[k])
  }

  lemma {:induction false} PaymentCounts(m: Market, f: StylizedFlow, date: Instant, days: nat, k: nat)
    requires k <= days
    ensures var dates, g := DaysFrom(date, days), Restylized(m, f, date);
            PaidBy(m, f, date, k)
            == if dates[0] <= g.payDate < dates[k]
               then m.toDomestic(FirstDayAfter(dates, g.payDate), g.currency, g.amount) else 0.0
  {
    hide FirstDayAfter;
    if f.daysTillPayDate < k {
      FirstDayIs(DaysFrom(date, days), Restylized(m, f, date).payDate, f.daysTillPayDate + 1);
    }
  }

  lemma {:induction false} CumulativeIsSum(m: Market, fs: seq<StylizedFlow>, date: Instant, days: nat, k: nat)
    requires k <= days
    ensures Cumulative(m, RestylizedAll(m, fs, date), DaysFrom(date, days), k)
            == Sum(|fs|, Payments(m, fs, date, k))
  {
    hide PaidBy, FirstDayAfter, Restylized, DaysFrom;
    if fs != [] {
      var front, last := fs[..|fs| - 1], fs[|fs| - 1];
      CumulativeIsSum(m, front, date, days, k);
      assert RestylizedAll(m, fs, date)[..|front|] == RestylizedAll(m, front, date);
      SumsAgree(|front|, Payments(m, fs, date, k), Payments(m, front, date, k));
      PaymentCounts(m, last, date, days, k);
    }
  }

  lemma {:induction false} FlowsAreRestylized(flows: seq<Flow>, m: Market, fs: seq<StylizedFlow>, date: Instant)
    ensures AreFlows(flows, m, fs, date) <==> flows == RestylizedAll(m, fs, date)
  {
  }

  /** So the lists that the simulation keeps are these. */
  lemma {:induction false} RunIsOfFlows(m: Market, fs: seq<StylizedFlow>, days: nat, date: Instant, lists: Lists)
    requires DaysKept(m, RestylizedAll(m, fs, date), DaysFrom(date, days), lists, days + 1)
    ensures IsRunOf(m, fs, days, date, lists)
  {
    hide Cumulative, RolledOff, RestylizedAll, AreFlows, Payments;
    var all, dates := RestylizedAll(m, fs, date), DaysFrom(date, days);
    forall k: nat | k <= days
      ensures DayIs(m, fs, date, lists, k)
      ensures lists.npvs[k] == KeptNpv(m, m.npv(all, date + k * DAY), lists, k)
    {
      assert DayKept(m, all, dates, lists, k);
      CumulativeIsSum(m, fs, date, days, k);
      if 0 < k {
        assert DayKept(m, all, dates, lists, k - 1);
        CumulativeGrows(m, all, dates, k);
      }
    }
    forall flows, k: nat | k <= days && AreFlows(flows, m, fs, date)
      ensures lists.npvs[k] == KeptNpv(m, m.npv(flows, date + k * DAY), lists, k)
    {
      FlowsAreRestylized(flows, m, fs, date);
    }
  }

  // ---------- the statistics of a run ----------

  function Minus(x: Option<real>, y: Option<real>): Option<real> {
    if x.Some? && y.Some? then Some(x.value - y.value) else None
  }

  function Times(x: real, y: real): real {
    x * y
  }

  function Square(x: real): real {
    Times(x, x)
  }

  function AddSquare(sum: Option<real>, x: Option<real>): Option<real> {
    if sum.Some? && x.Some? then Some(sum.value + Square(x.value)) else None
  }

  /** The sum of the squared changes from each total to the next. */
  function SquaredChanges(totals: seq<Option<real>>): Option<real> {
    if |totals| <= 1 then Some(0.0)
    else
      var n := |totals| - 1;
      AddSquare(SquaredChanges(totals[..n]), Minus(totals[n], totals[n - 1]))
  }

  ghost predicate IsConstant(totals: seq<Option<real>>) {
    forall k :: 0 <= k < |totals| ==> totals[k] == totals[0]
  }

  /** A path of numbers has squared changes that add up to nothing if and only if it is constant. */
  lemma {:induction false} NoChangeIffConstant(totals: seq<Option<real>>)
    requires forall k :: 0 <= k < |totals| ==> totals[k].Some?
    ensures SquaredChanges(totals).Some? && 0.0 <= SquaredChanges(totals).value
    ensures SquaredChanges(totals).value == 0.0 <==> IsConstant(totals)
  {
    hide Square;
    if 1 < |totals| {
      var n := |totals| - 1;
      NoChangeIffConstant(totals[..n]);
      SquareIsPositive(totals[n].value - totals[n - 1].value);
      assert IsConstant(totals) <==> IsConstant(totals[..n]) && totals[n] == totals[n - 1] by {
        assert totals[..n][n - 1] == totals[n - 1];
        assert forall k :: 0 <= k < n ==> totals[k] == totals[..n][k];
      }
    }
  }

  lemma {:induction false} SquareIsProduct(x: real)
    ensures Square(x) == x * x
  {
  }

  lemma {:induction false} SignOfProduct(x: real, y: real)
    ensures (0.0 < x && 0.0 < y) || (x < 0.0 && y < 0.0) ==> 0.0 < Times(x, y)
    ensures x == 0.0 ==> Times(x, y) == 0.0
  {
  }

  lemma {:induction false} SquareIsPositive(x: real)
    ensures 0.0 <= Square(x)
    ensures Square(x) == 0.0 <==> x == 0.0
  {
    hide Times;
    SignOfProduct(x, x);
  }

  /** A row of `by_date_stats`: the runs kept so far, the start date, and for each account the loss over the
      run and the realized volatility. */
  datatype Stats = Stats(kept: nat, date: Instant, losses: seq<Option<real>>, vols: seq<Option<real>>)

  function Volatility(m: Market, totals: seq<Option<real>>, days: int): Option<real>
    requires days != 0
  {
    var rv := SquaredChanges(totals);
    if rv.Some? then Some(m.root(365.25 * rv.value / days as real)) else None
  }

  /** The statistics of a run of `days` days. */
  ghost predicate IsStats(stats: Stats, m: Market, days: int, run: seq<Lists>, kept: nat, date: Instant)
    requires days != 0 && forall a :: 0 <= a < |run| ==> run[a].totals != []
  {
    && stats.kept == kept && stats.date == date && |stats.losses| == |stats.vols| == |run|
    && forall a :: 0 <= a < |run| ==>
         var totals := run[a].totals;
         stats.losses[a] == Minus(totals[0], totals[|totals| - 1]) && stats.vols[a] == Volatility(m, totals, days)
  }

  function SquaredSteps(totals: seq<Option<real>>): nat -> real {
    (k: nat) =>
      if k + 1 < |totals| && totals[k].Some? && totals[k + 1].Some?
      then Square(totals[k + 1].value - totals[k].value) else 0.0
  }

  lemma {:induction false} StepsOfFront(totals: seq<Option<real>>)
    requires 1 < |totals|
    ensures var n := |totals| - 1;
            Sum(n - 1, SquaredSteps(totals[..n])) == Sum(n - 1, SquaredSteps(totals))
  {
    hide Square;
    var n := |totals| - 1;
    SumsAgree(n - 1, SquaredSteps(totals[..n]), SquaredSteps(totals));
  }

  lemma {:induction false} SquaredChangesAreSum(totals: seq<Option<real>>)
    requires totals != []
    ensures if forall k :: 0 <= k < |totals| ==> totals[k].Some?
            then SquaredChanges(totals) == Some(Sum(|totals| - 1, SquaredSteps(totals)))
            else |totals| == 1 || SquaredChanges(totals) == None
  {
    hide Square;
    if 1 < |totals| {
      var n := |totals| - 1;
      var front := totals[..n];
      SquaredChangesAreSum(front);
      StepsOfFront(totals);
      if forall k :: 0 <= k < |totals| ==> totals[k].Some? {
        assert forall k :: 0 <= k < |front| ==> front[k] == totals[k];
        LastOfSum(n, SquaredSteps(totals));
      } else if totals[n].Some? && 1 < n {
        var k :| 0 <= k < |totals| && totals[k].None?;
        assert front[k].None?;
      }
    }
  }

  /** The statistics of a run in terms of its totals: what it lost from the first day to the last, and the root
      of the sum of its squared daily changes, scaled to a year of 365.25 days; any NaN makes them NaN. */
  lemma {:induction false} StatsMean(stats: Stats, m: Market, days: int, run: seq<Lists>, kept: nat, date: Instant,
                                     a: nat)
    requires days != 0 && forall b :: 0 <= b < |run| ==> 2 <= |run[b].totals|
    requires IsStats(stats, m, days, run, kept, date) && a < |run|
    ensures stats.kept == kept && stats.date == date && |stats.losses| == |stats.vols| == |run|
    ensures var t := run[a].totals;
            && stats.losses[a] == (if t[0].None? || t[|t| - 1].None? then None
                                   else Some(t[0].value - t[|t| - 1].value))
            && stats.vols[a] == if exists k :: 0 <= k < |t| && t[k].None? then None
                                else Some(m.root(365.25 * Sum(|t| - 1, SquaredSteps(t)) / days as real))
  {
    hide SquaredChanges, SquaredSteps;
    SquaredChangesAreSum(run[a].totals);
  }

  /** The inner loop over the totals of an account. */
  method SumSquaredChanges(totals: seq<Option<real>>) returns (rv: Option<real>)
    requires totals != []
    ensures rv == SquaredChanges(totals)
  {
    rv := Some(0.0);
    var x0 := totals[0];
    for k := 1 to |totals|
      invariant rv == SquaredChanges(totals[..k]) && x0 == totals[k - 1]
    {
      assert totals[..k + 1][..k] == totals[..k];
      rv := AddSquare(rv, Minus(totals[k], x0));
      x0 := totals[k];
    }
    assert totals[..|totals|] == totals;
  }

  /** The row of a run. The volatility is per day, so a run of no days has none: the division raises. */
  method StatsOf(m: Market, days: int, run: seq<Lists>, kept: nat, date: Instant) returns (r: Result<Stats>)
    requires run != [] && forall a :: 0 <= a < |run| ==> run[a].totals != []
    ensures days == 0 ==> r == Raised(ZeroDivisionError)
    ensures days != 0 ==> r.Ok? && IsStats(r.value, m, days, run, kept, date)
  {
    var losses, vols := [], [];
    for a := 0 to |run|
      invariant |losses| == |vols| == a && (days == 0 ==> a == 0)
      invariant days != 0 ==> forall b :: 0 <= b < a ==>
                  && losses[b] == Minus(run[b].totals[0], run[b].totals[|run[b].totals| - 1])
                  && vols[b] == Volatility(m, run[b].totals, days)
    {
      var totals := run[a].totals;
      losses := losses + [Minus(totals[0], totals[|totals| - 1])];
      var rv := SumSquaredChanges(totals);
      if days == 0 {
        return Raised(ZeroDivisionError);
      }
      vols := vols + [if rv.Some? then Some(m.root(365.25 * rv.value / days as real)) else None];
    }
    return Ok(Stats(kept, date, losses, vols));
  }

  // ---------- the whole backtest ----------

  /** `yield_range(date, date + days)`. */
  function DaysFrom(date: Instant, days: nat): (r: seq<Instant>)
    ensures |r| == days + 1 && Ascending(r)
  {
    seq(days + 1, k requires 0 <= k <= days => date + k * DAY)
  }

  /** A run is kept when every account ends on a number. */
  predicate Kept(run: seq<Lists>) {
    forall a :: 0 <= a < |run| ==> run[a].totals != [] && run[a].totals[|run[a].totals| - 1].Some?
  }

  function KeptRuns(runs: seq<seq<Lists>>): seq<seq<Lists>> {
    if runs == [] then []
    else KeptRuns(runs[..|runs| - 1]) + if Kept(runs[|runs| - 1]) then [runs[|runs| - 1]] else []
  }

  /** Run by run, a list of runs loses exactly those in which some account does not end on a number. */
  lemma {:induction false} KeptRunsAre(runs: seq<seq<Lists>>, run: seq<Lists>)
    requires forall a :: 0 <= a < |run| ==> run[a].totals != []
    ensures KeptRuns([]) == []
    ensures KeptRuns(runs + [run])
            == if exists a :: 0 <= a < |run| && run[a].totals[|run[a].totals| - 1].None? then KeptRuns(runs)
               else KeptRuns(runs) + [run]
  {
    assert (runs + [run])[..|runs|] == runs;
  }

  lemma {:induction false} KeptRunsAreKept(runs: seq<seq<Lists>>)
    ensures forall run :: run in KeptRuns(runs) ==> run in runs && Kept(run)
  {
    hide Kept;
    if runs != [] {
      KeptRunsAreKept(runs[..|runs| - 1]);
    }
  }

  /** Every account of a run that started on `date` has its days kept. */
  ghost predicate IsRunFrom(m: Market, accounts: seq<seq<StylizedFlow>>, days: int, date: Instant, run: seq<Lists>) {
    && 0 <= days && |run| == |accounts|
    && forall a :: 0 <= a < |run| ==>
         DaysKept(m, RestylizedAll(m, accounts[a], date), DaysFrom(date, days), run[a], days + 1)
  }

  lemma {:induction false} RunIsLong(m: Market, accounts: seq<seq<StylizedFlow>>, days: int, date: Instant,
                                  run: seq<Lists>)
    requires IsRunFrom(m, accounts, days, date, run)
    ensures |run| == |accounts| && 0 <= days
    ensures forall a :: 0 <= a < |run| ==> |run[a].totals| == days + 1
  {
  }

  /** Run `i` of `runs` started on date `i`, and is the run of the stylized flows of every account. */
  ghost predicate AreRuns(m: Market, accounts: seq<seq<StylizedFlow>>, days: int, dates: seq<Instant>,
                          runs: seq<seq<Lists>>)
  {
    && |runs| <= |dates|
    && forall i :: 0 <= i < |runs| ==>
         && IsRunFrom(m, accounts, days, dates[i], runs[i]) && |runs[i]| == |accounts|
         && forall a :: 0 <= a < |accounts| ==> IsRunOf(m, accounts[a], days, dates[i], runs[i][a])
  }

  /** The rows of `by_date_stats`, one for each run, kept or not. */
  ghost predicate AreStats(stats: seq<Stats>, m: Market, days: int, dates: seq<Instant>, runs: seq<seq<Lists>>) {
    && days != 0 && |stats| == |runs| <= |dates|
    && forall i :: 0 <= i < |runs| ==>
         && (forall a :: 0 <= a < |runs[i]| ==> runs[i][a].totals != [])
         && IsStats(stats[i], m, days, runs[i], |KeptRuns(runs[..i + 1])|, dates[i])
  }

  class UnhedgedBacktester {
    const accounts: seq<seq<StylizedFlow>>
    var numSamples: nat
    var daysInBacktest: int
    var stylizationDates: Option<seq<Instant>>
    var byDateStats: seq<Stats>
    var totalValues: seq<seq<seq<Option<real>>>>
    var rollOffs: seq<seq<seq<real>>>
    var npvs: seq<seq<seq<Option<real>>>>

    /** The stored runs are of the same accounts and of the same length, and end on numbers. */
    ghost predicate Valid()
      reads this
    {
      AreHistories(totalValues, |accounts|) && |rollOffs| == |npvs| == |totalValues|
    }

    constructor (accounts: seq<seq<StylizedFlow>>)
      ensures Valid() && this.accounts == accounts && numSamples == 0
      ensures totalValues == [] && rollOffs == [] && npvs == [] && stylizationDates == None
    {
      this.accounts := accounts;
      numSamples, daysInBacktest, stylizationDates, byDateStats := 0, 0, None, [];
      totalValues, rollOffs, npvs := [], [], [];
    }

    /** The run started on one date, for all accounts. */
    method OneRun(m: Market, days: nat, date: Instant) returns (run: seq<Lists>)
      ensures IsRunFrom(m, accounts, days, date, run) && |run| == |accounts|
      ensures forall a :: 0 <= a < |accounts| ==> IsRunOf(m, accounts[a], days, date, run[a])
    {
      hide IsRunOf, DaysKept;
      run := [];
      for a := 0 to |accounts|
        invariant |run| == a
        invariant forall b :: 0 <= b < a ==>
                    && DaysKept(m, RestylizedAll(m, accounts[b], date), DaysFrom(date, days), run[b], days + 1)
                    && IsRunOf(m, accounts[b], days, date, run[b])
      {
        var lists := RunAccount(m, RestylizedAll(m, accounts[a], date), DaysFrom(date, days));
        RunIsOfFlows(m, accounts[a], days, date, lists);
        run := run + [lists];
      }
    }

    /** The NaN check on the last total of every account. */
    method EndsOnNumbers(run: seq<Lists>) returns (allGood: bool)
      requires forall a :: 0 <= a < |run| ==> run[a].totals != []
      ensures allGood == Kept(run)
    {
      allGood := true;
      for a := 0 to |run|
        invariant allGood <==> forall b :: 0 <= b < a ==> run[b].totals[|run[b].totals| - 1].Some?
      {
        if run[a].totals[|run[a].totals| - 1].None? {
          allGood := false;
        }
      }
    }

    /** The end of a run: its lists are stored if no account ends on a NaN. */
    method StoreIfGood(run: seq<Lists>, ghost runs: seq<seq<Lists>>) returns (allGood: bool)
      requires forall a :: 0 <= a < |run| ==> run[a].totals != []
      requires HoldRuns(totalValues, rollOffs, npvs, KeptRuns(runs))
      modifies this`totalValues, this`rollOffs, this`npvs
      ensures HoldRuns(totalValues, rollOffs, npvs, KeptRuns(runs + [run]))
      ensures |KeptRuns(runs + [run])| == |KeptRuns(runs)| + if allGood then 1 else 0
    {
      hide Kept, KeptRuns, HoldRuns, Totals, RollOffs, Npvs;
      allGood := EndsOnNumbers(run);
      HistoriesGrow(totalValues, rollOffs, npvs, runs, run);
      if allGood {
        totalValues := totalValues + [Totals(run)];
        rollOffs := rollOffs + [RollOffs(run)];
        npvs := npvs + [Npvs(run)];
      }
    }

    /** The loop over the sampled dates. Runs of at least one day are all simulated: the three histories hold
        the kept ones, in order, the number of samples is how many there are, and every run has its row of
        statistics. A run of no days has no volatility, so the first one ends the loop with the number of
        samples still that of the dates. */
    method RunSamples(m: Market, days: nat, dates: seq<Instant>) returns (r: Result<()>, ghost runs: seq<seq<Lists>>)
      requires 0 < |accounts| && byDateStats == []
      modifies this`totalValues, this`rollOffs, this`npvs, this`numSamples, this`byDateStats
      ensures AreRuns(m, accounts, days, dates, runs) && HoldRuns(totalValues, rollOffs, npvs, KeptRuns(runs))
      ensures days != 0 || dates == [] ==>
                && r == Ok(()) && |runs| == |dates| && numSamples == |KeptRuns(runs)|
                && if days != 0 then AreStats(byDateStats, m, days, dates, runs) else byDateStats == []
      ensures days == 0 && dates != [] ==>
                r == Raised(ZeroDivisionError) && |runs| == 1 && numSamples == |dates| && byDateStats == []
    {
      hide IsRunFrom, IsRunOf, AreRuns, Kept, KeptRuns, HoldRuns, Totals, RollOffs, Npvs, IsStats, AreStats;
      totalValues, rollOffs, npvs := [], [], [];
      NoRuns(m, accounts, days, dates);
      numSamples := |dates|;
      runs := [];
      var actual := 0;
      for i := 0 to |dates|
        invariant |runs| == i && AreRuns(m, accounts, days, dates, runs)
        invariant actual == |KeptRuns(runs)| && HoldRuns(totalValues, rollOffs, npvs, KeptRuns(runs))
        invariant numSamples == |dates|
        invariant if days == 0 then i == 0 && byDateStats == [] else AreStats(byDateStats, m, days, dates, runs)
      {
        var run := OneRun(m, days, dates[i]);
        RunIsLong(m, accounts, days, dates[i], run);
        RunsGrow(m, accounts, days, dates, runs, run);
        ghost var before := runs;
        var allGood := StoreIfGood(run, runs);
        runs := runs + [run];
        if allGood {
          actual := actual + 1;
        }
        var stats := StatsOf(m, days, run, actual, dates[i]);
        if stats.Raised? {
          r := Raised(stats.error);
          return;
        }
        StatsGrow(byDateStats, m, days, dates, before, run, stats.value);
        byDateStats := byDateStats + [stats.value];
      }
      numSamples := actual;
      r := Ok(());
    }

    /** `stylized_run`, where both market dates are those of `get_common_date_range`. Without accounts it does
        nothing, and when the dates cannot be sampled it raises before it touches the histories. Once they are
        sampled it succeeds if and only if it ends on a later day than it starts or no date was sampled: then
        every sampled date is run, the histories hold the runs that end on numbers, and the number of samples
        is theirs. On one day, or backwards, the first run raises with the number of samples that of the dates. */
    method StylizedRun(m: Market, startDate: Instant, endDate: Instant, count: int, firstSpot: Instant,
                       lastSpot: Instant)
      returns (r: Result<()>, ghost runs: seq<seq<Lists>>)
      requires Valid()
      modifies this
      ensures Valid() && daysInBacktest == DayOf(endDate) - DayOf(startDate)
      ensures |accounts| == 0 ==> r == Ok(())
      ensures |accounts| == 0 || (r.Raised? && r.error !in {IndexError, ZeroDivisionError}) ==>
                && totalValues == old(totalValues) && rollOffs == old(rollOffs) && npvs == old(npvs)
                && numSamples == old(numSamples) && stylizationDates == old(stylizationDates) && byDateStats == []
      ensures 0 < |accounts| && r.Raised? && r.error !in {IndexError, ZeroDivisionError} ==>
                IsSampling(Raised(r.error), if firstSpot < MIN_DATE then MIN_DATE else firstSpot, lastSpot,
                           daysInBacktest, count)
      ensures 0 < |accounts| && (r.Ok? || r.error in {IndexError, ZeroDivisionError}) ==>
                && stylizationDates.Some? && var dates := stylizationDates.value;
                && IsSampling(Ok(dates), if firstSpot < MIN_DATE then MIN_DATE else firstSpot, lastSpot,
                              daysInBacktest, count)
                && AreRuns(m, accounts, daysInBacktest, dates, runs)
                && HoldRuns(totalValues, rollOffs, npvs, KeptRuns(runs))
                && r == (if 0 < daysInBacktest || dates == [] then Ok(())
                         else if daysInBacktest == 0 then Raised(ZeroDivisionError) else Raised(IndexError))
                && |runs| == (if r.Ok? then |dates| else if daysInBacktest == 0 then 1 else 0)
                && numSamples == (if r.Ok? then |totalValues| else |dates|)
                && (if r.Ok? && daysInBacktest != 0 then AreStats(byDateStats, m, daysInBacktest, dates, runs)
                    else byDateStats == [])
    {
      hide IsRunFrom, IsRunOf, Kept, IsSampling, IsStats, AreHistories;
      runs := [];
      byDateStats := [];
      daysInBacktest := DayOf(endDate) - DayOf(startDate);
      if |accounts| == 0 {
        return Ok(()), [];
      }
      var sampled := SampleDates(Latest(firstSpot, MIN_DATE), lastSpot, daysInBacktest, count);
      if sampled.Raised? {
        SamplingErrors(sampled, Latest(firstSpot, MIN_DATE), lastSpot, daysInBacktest, count);
        return Raised(sampled.error), [];
      }
      stylizationDates := Some(sampled.value);
      if daysInBacktest < 0 {
        totalValues, rollOffs, npvs, numSamples := [], [], [], |sampled.value|;
        NoHistories(|accounts|);
        return if sampled.value == [] then Ok(()) else Raised(IndexError), [];
      }
      r, runs := RunSamples(m, daysInBacktest, sampled.value);
      RunsAreHistories(m, accounts, daysInBacktest, sampled.value, runs, totalValues, rollOffs, npvs);
    }

    /** `compute_percentiles` of one account. Every curve has a value for each step; where the account's paths
        are numbers, and they are at the last step, it is the interpolated percentile of the sorted values.
        After a run that succeeded, positions are counted among the stored runs, and the indices are in range
        exactly for percentiles in range. */
    method ComputePercentiles(percentiles: seq<real>, account: nat) returns (r: Result<seq<seq<Option<real>>>>)
      requires Valid()
      ensures |totalValues| == 0 || numSamples == 0 ==> r == Raised(NoDataError)
      ensures |totalValues| != 0 && numSamples == 1 ==> r == Raised(SinglePathError)
      ensures |totalValues| != 0 && 2 <= numSamples && |accounts| <= account ==> r == Raised(KeyError)
      ensures |totalValues| != 0 && 2 <= numSamples && account < |accounts| ==>
                if exists j :: 0 <= j < |percentiles|
                     && !Percentiles.CellFits(|totalValues|, Percentiles.Cell(numSamples, percentiles[j]))
                then r == Raised(IndexError)
                else
                  && r.Ok?
                  && Percentiles.AreCurves(r.value, Percentiles.Column(totalValues, account), numSamples, percentiles)
      ensures 2 <= numSamples == |totalValues| && account < |accounts| && r.Ok? ==>
                Percentiles.CurvesInterpolate(r.value, Percentiles.Column(totalValues, account), percentiles)
      ensures 2 <= numSamples == |totalValues| && account < |accounts| ==>
                (r.Raised? <==> exists j :: 0 <= j < |percentiles| && !Percentiles.InRange(numSamples, percentiles[j]))
    {
      hide Percentiles.Position, Percentiles.Sort, Percentiles.InRange, Percentiles.CellFits, Percentiles.InCellOf;
      hide Percentiles.CellAt, Percentiles.PartialCurves, Percentiles.CurvesInterpolate;
      if |totalValues| == 0 || numSamples == 0 {
        return Raised(NoDataError);
      }
      if numSamples == 1 {
        return Raised(SinglePathError);
      }
      var cached: seq<(int, real)> := [];
      for j := 0 to |percentiles|
        invariant |cached| == j && forall k :: 0 <= k < j ==> cached[k] == Percentiles.Cell(numSamples, percentiles[k])
      {
        cached := cached + [Percentiles.CellAt(Percentiles.Position(numSamples, percentiles[j]))];
      }
      FitsIffInRange(numSamples, percentiles);
      if |accounts| <= account {
        return Raised(KeyError);
      }
      var trajectories := Percentiles.Column(totalValues, account);
      var curves := seq(|percentiles|, _ => []);
      NoCurves(curves, trajectories, numSamples, percentiles);
      for it := 0 to |totalValues[0][account]|
        invariant Percentiles.PartialCurves(curves, trajectories, numSamples, percentiles, it)
        invariant |curves| == |percentiles|
        invariant 0 < it ==> forall j :: 0 <= j < |cached| ==> Percentiles.CellFits(|totalValues|, cached[j])
      {
        var column := Percentiles.Column(trajectories, it);
        var values := Percentiles.SortColumn(column);
        var step := Percentiles.OneStep(values, cached);
        if step.Raised? {
          return Raised(step.error);
        }
        Percentiles.CurvesGrow(curves, trajectories, numSamples, percentiles, it, values, step.value);
        curves := seq(|curves|, j requires 0 <= j < |curves| => curves[j] + [step.value[j]]);
      }
      if numSamples == |totalValues| {
        Percentiles.CurvesAreInterpolated(curves, trajectories, percentiles);
      }
      return Ok(curves);
    }
  }

  /** Percentile positions are in range of their own number of samples exactly for percentiles in range. */
  lemma {:induction false} FitsIffInRange(n: nat, percentiles: seq<real>)
    requires 2 <= n
    ensures forall j :: 0 <= j < |percentiles| ==>
              (Percentiles.CellFits(n, Percentiles.Cell(n, percentiles[j])) <==> Percentiles.InRange(n, percentiles[j]))
  {
    var values := seq(n, _ => 0.0);
    forall j | 0 <= j < |percentiles|
      ensures Percentiles.CellFits(n, Percentiles.Cell(n, percentiles[j])) <==> Percentiles.InRange(n, percentiles[j])
    {
      Percentiles.PercentileOkIff(values, percentiles[j]);
    }
  }

  lemma {:induction false} NoCurves(curves: seq<seq<Option<real>>>, trajectories: seq<seq<Option<real>>>, samples: nat,
                                    percentiles: seq<real>)
    requires |curves| == |percentiles| && forall j :: 0 <= j < |curves| ==> curves[j] == []
    requires trajectories != [] && Percentiles.Aligned(trajectories, |trajectories[0]|)
    ensures Percentiles.PartialCurves(curves, trajectories, samples, percentiles, 0)
  {
  }

  /** Paths of `accounts` accounts, all of one length, that end on numbers. */
  ghost predicate AreHistories(totalValues: seq<seq<seq<Option<real>>>>, accounts: nat) {
    && (forall i :: 0 <= i < |totalValues| ==> |totalValues[i]| == accounts)
    && forall i, a :: 0 <= i < |totalValues| && 0 <= a < accounts ==>
         && |totalValues[i][a]| == |totalValues[0][a]| && totalValues[i][a] != []
         && totalValues[i][a][|totalValues[i][a]| - 1].Some?
  }

  lemma {:induction false} NoHistories(accounts: nat)
    ensures AreHistories([], accounts)
  {
  }

  lemma {:induction false} RunsAreHistories(m: Market, accounts: seq<seq<StylizedFlow>>, days: int, dates: seq<Instant>,
                                            runs: seq<seq<Lists>>, totalValues: seq<seq<seq<Option<real>>>>,
                                            rollOffs: seq<seq<seq<real>>>, npvs: seq<seq<seq<Option<real>>>>)
    requires AreRuns(m, accounts, days, dates, runs) && HoldRuns(totalValues, rollOffs, npvs, KeptRuns(runs))
    ensures AreHistories(totalValues, |accounts|) && |rollOffs| == |npvs| == |totalValues|
  {
    hide IsRunFrom, IsRunOf, KeptRuns;
    KeptRunsAreKept(runs);
    var kept := KeptRuns(runs);
    forall i | 0 <= i < |kept|
      ensures |kept[i]| == |accounts| && Kept(kept[i])
      ensures forall a :: 0 <= a < |kept[i]| ==> |kept[i][a].totals| == days + 1
    {
      assert kept[i] in kept;
      var j :| 0 <= j < |runs| && runs[j] == kept[i];
      RunIsLong(m, accounts, days, dates[j], runs[j]);
    }
  }

  /** At the last step all stored paths are numbers, so the curves are determined there. */
  lemma {:induction false} CurvesEndOnNumbers(totalValues: seq<seq<seq<Option<real>>>>, accounts: nat, account: nat)
    requires AreHistories(totalValues, accounts) && totalValues != [] && account < accounts
    ensures |totalValues[0][account]| != 0
    ensures Percentiles.Aligned(Percentiles.Column(totalValues, account), |totalValues[0][account]|)
    ensures var last := |totalValues[0][account]| - 1;
            Percentiles.AllNumbers(Percentiles.Column(Percentiles.Column(totalValues, account), last))
  {
  }

  lemma {:induction false} NoRuns(m: Market, accounts: seq<seq<StylizedFlow>>, days: int, dates: seq<Instant>)
    ensures AreRuns(m, accounts, days, dates, []) && KeptRuns([]) == [] && HoldRuns([], [], [], [])
    ensures days != 0 ==> AreStats([], m, days, dates, [])
  {
  }

  lemma {:induction false} RunsGrow(m: Market, accounts: seq<seq<StylizedFlow>>, days: int, dates: seq<Instant>,
                                    runs: seq<seq<Lists>>, run: seq<Lists>)
    requires AreRuns(m, accounts, days, dates, runs) && |runs| < |dates|
    requires IsRunFrom(m, accounts, days, dates[|runs|], run) && |run| == |accounts|
    requires forall a :: 0 <= a < |accounts| ==> IsRunOf(m, accounts[a], days, dates[|runs|], run[a])
    ensures AreRuns(m, accounts, days, dates, runs + [run])
  {
    hide IsRunFrom, IsRunOf;
  }

  lemma {:induction false} HistoriesGrow(totalValues: seq<seq<seq<Option<real>>>>, rollOffs: seq<seq<seq<real>>>,
                                         npvs: seq<seq<seq<Option<real>>>>, runs: seq<seq<Lists>>, run: seq<Lists>)
    requires HoldRuns(totalValues, rollOffs, npvs, KeptRuns(runs))
    ensures if Kept(run)
            then && |KeptRuns(runs + [run])| == |KeptRuns(runs)| + 1
                 && HoldRuns(totalValues + [Totals(run)], rollOffs + [RollOffs(run)], npvs + [Npvs(run)],
                             KeptRuns(runs + [run]))
            else && |KeptRuns(runs + [run])| == |KeptRuns(runs)|
                 && HoldRuns(totalValues, rollOffs, npvs, KeptRuns(runs + [run]))
  {
    hide Kept;
    assert (runs + [run])[..|runs|] == runs;
  }

  lemma {:induction false} StatsGrow(stats: seq<Stats>, m: Market, days: int, dates: seq<Instant>,
                                  runs: seq<seq<Lists>>,
                                     run: seq<Lists>, one: Stats)
    requires AreStats(stats, m, days, dates, runs) && |runs| < |dates|
    requires forall a :: 0 <= a < |run| ==> run[a].totals != []
    requires IsStats(one, m, days, run, |KeptRuns(runs + [run])|, dates[|runs|])
    ensures AreStats(stats + [one], m, days, dates, runs + [run])
  {
    hide IsStats, KeptRuns;
    var more: seq<seq<Lists>> := runs + [run];
    forall i: nat | i < |more|
      ensures forall a: nat :: 0 <= a < |more[i]| ==> more[i][a].totals != []
      ensures IsStats((stats + [one])[i], m, days, more[i], |KeptRuns(more[..i + 1])|, dates[i])
    {
      if i < |runs| {
        assert more[..i + 1] == runs[..i + 1];
      } else {
        assert more[..i + 1] == more;
      }
    }
  }

  /** A backtest that starts and ends on one day, over a hundred days of spots: it raises, and claims ten
      samples where it has stored one run at most. */
  method SameDayBacktest(m: Market, date: Instant) returns (b: UnhedgedBacktester, r: Result<()>)
    ensures r == Raised(ZeroDivisionError)
    ensures b.numSamples == 10 && |b.totalValues| <= 1 && b.byDateStats == []
  {
    hide IsSampling, AreRuns, HoldRuns, AreStats;
    b := new UnhedgedBacktester([[]]);
    ghost var runs;
    var lastSpot: Instant := MIN_DATE + 100 * DAY;
    r, runs := b.StylizedRun(m, date, date, 10, MIN_DATE, lastSpot);
    if r.Raised? && r.error !in {IndexError, ZeroDivisionError} {
      SamplesTen(Raised(r.error), lastSpot);
    } else {
      SamplesTen(Ok(b.stylizationDates.value), lastSpot);
    }
    KeptAtMost(runs);
    StoredAreKept(b.totalValues, b.rollOffs, b.npvs, KeptRuns(runs));
  }

  lemma {:induction false} StoredAreKept(totalValues: seq<seq<seq<Option<real>>>>, rollOffs: seq<seq<seq<real>>>,
                                         npvs: seq<seq<seq<Option<real>>>>, runs: seq<seq<Lists>>)
    requires HoldRuns(totalValues, rollOffs, npvs, runs)
    ensures |totalValues| == |runs|
  {
  }

  lemma {:induction false} SamplesTen(r: Result<seq<Instant>>, lastSpot: Instant)
    requires lastSpot == MIN_DATE + 100 * DAY && IsSampling(r, Latest(MIN_DATE, MIN_DATE), lastSpot, 0, 10)
    ensures r.Ok? && |r.value| == 10
  {
  }

  lemma {:induction false} KeptAtMost(runs: seq<seq<Lists>>)
    ensures |KeptRuns(runs)| <= |runs|
  {
    if runs != [] {
      KeptAtMost(runs[..|runs| - 1]);
    }
  }

  /** The earliest date that is sampled: 1 January 2000. */
  const MIN_DATE: Instant := Midnight(730_120)

  lemma {:induction false} FirstSampledDate()
    ensures MIN_DATE == Midnight(CivilMonthStart(1999, 0))
  {
  }

  function Latest(x: Instant, y: Instant): Instant {
    if x < y then y else x
  }

  lemma {:induction false} SamplingErrors(r: Result<seq<Instant>>, minDate: Instant, maxDate: Instant, days: int,
                                  count: int)
    requires r.Raised? && IsSampling(r, minDate, maxDate, days, count)
    ensures r.error !in {IndexError, ZeroDivisionError}
  {
  }

  function Totals(run: seq<Lists>): seq<seq<Option<real>>> {
    seq(|run|, a requires 0 <= a < |run| => run[a].totals)
  }

  function RollOffs(run: seq<Lists>): seq<seq<real>> {
    seq(|run|, a requires 0 <= a < |run| => run[a].rollOffs)
  }

  function Npvs(run: seq<Lists>): seq<seq<Option<real>>> {
    seq(|run|, a requires 0 <= a < |run| => run[a].npvs)
  }

  /** The three histories hold exactly the given runs, in order. */
  ghost predicate HoldRuns(totalValues: seq<seq<seq<Option<real>>>>, rollOffs: seq<seq<seq<real>>>,
                           npvs: seq<seq<seq<Option<real>>>>, runs: seq<seq<Lists>>)
  {
    && |totalValues| == |rollOffs| == |npvs| == |runs|
    && forall i :: 0 <= i < |runs| ==>
         && |totalValues[i]| == |rollOffs[i]| == |npvs[i]| == |runs[i]|
         && forall a :: 0 <= a < |runs[i]| ==>
              && totalValues[i][a] == runs[i][a].totals && rollOffs[i][a] == runs[i][a].rollOffs
              && npvs[i][a] == runs[i][a].npvs
  }
}
