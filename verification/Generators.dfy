/** Cashflow generators and their expansion into dated cashflows (`get_hdl_cashflows`). */
module Generators {
  import opened Wrappers
  import opened Dates
  import opened Rolls

  /** The instants an icalendar rule lists (RFC 5545, section 3.3.10), endless unless a COUNT or
      UNTIL part leaves only the first `count` of them. */
  datatype Recurrence = Recurrence(at: nat -> Instant, count: Option<nat>)

  ghost predicate Increasing(r: Recurrence) {
    forall i: nat, j: nat :: i < j ==> r.at(i) < r.at(j)
  }

  /** A rule lists its instants in strictly increasing order. */
  type Rule = r: Recurrence | Increasing(r)
    witness Recurrence((k: nat) => DAY + k, None)

  /** The fields of a `CashFlow` row that define its flows. */
  datatype Generator = Generator(
    name: Option<string>,
    amount: real,
    currency: string,
    calendar: Option<Calendar>,
    roll: Option<Convention>,
    date: Instant,
    endDate: Option<Instant>,
    periodicity: Option<Rule>,
    created: Instant)

  /** hdlib's dated cashflow. */
  datatype CashFlow = CashFlow(name: Option<string>, amount: real, currency: string, payDate: Instant)

  /** What one `next()` on a Python generator does. */
  datatype Pull = Yield(flow: CashFlow) | StopIteration | Fail(error: Exception)

  predicate IsRecurring(g: Generator) {
    g.periodicity.Some?
  }

  function HdlRoll(roll: Option<Convention>): Convention {
    if roll.None? then Unadjusted else roll.value
  }

  predicate HasOccurrence(g: Generator, k: nat) {
    if IsRecurring(g) then g.periodicity.value.count.Some? ==> k < g.periodicity.value.count.value
    else k == 0
  }

  function Occurrence(g: Generator, k: nat): Instant {
    if IsRecurring(g) then g.periodicity.value.at(k) else g.date
  }

  /** The rolled date of occurrence `k`; `from_datetime_date` has dropped the time of day. */
  function PayDate(g: Generator, k: nat): Instant
    requires g.calendar.Some?
  {
    Midnight(Adjust(g.calendar.value, DayOf(Occurrence(g, k)), HdlRoll(g.roll)))
  }

  /** Only a recurring generator heeds its end date, which stands for the end of that day. */
  predicate PastEnd(g: Generator, k: nat)
    requires g.calendar.Some?
  {
    IsRecurring(g) && g.endDate.Some? && EndOfDay(DayOf(g.endDate.value)) < PayDate(g, k)
  }

  function FlowAt(g: Generator, k: nat): CashFlow
    requires g.calendar.Some?
  {
    CashFlow(g.name, g.amount, g.currency, PayDate(g, k))
  }

  /** The plain filter that defines a generator's flows: an occurrence of the rule not past the end. */
  predicate Emits(g: Generator, k: nat) {
    g.calendar.Some? && HasOccurrence(g, k) && !PastEnd(g, k)
  }

  /** `p` is midnight of the day that day `d` rolls to on the generator's calendar, by its own convention; a
      generator without one does not roll. */
  ghost predicate PaysFor(g: Generator, d: Ordinal, p: Instant) {
    && p == Midnight(DayOf(p)) && g.calendar.Some?
    && match g.roll
       case None => DayOf(p) == d
       case Some(c) => IsRolled(g.calendar.value, c, d, DayOf(p))
  }

  /** The flow of occurrence `k`, in terms of the row: its name, amount and currency, paid on the rolled day of
      the rule's instant, or of the start date when there is no rule. */
  ghost predicate IsFlowOf(g: Generator, k: nat, f: CashFlow) {
    && f.name == g.name && f.amount == g.amount && f.currency == g.currency
    && match g.periodicity
       case None => k == 0 && PaysFor(g, DayOf(g.date), f.payDate)
       case Some(rule) => (rule.count.Some? ==> k < rule.count.value) && PaysFor(g, DayOf(rule.at(k)), f.payDate)
  }

  /** A flow of the generator, not past the end date of its rule by day. */
  ghost predicate IsGenerated(g: Generator, k: nat, f: CashFlow) {
    IsFlowOf(g, k, f) && (g.periodicity.Some? && g.endDate.Some? ==> DayOf(f.payDate) <= DayOf(g.endDate.value))
  }

  lemma {:induction false} PaysOnRolledDay(g: Generator, k: nat, p: Instant)
    requires g.calendar.Some?
    ensures PaysFor(g, DayOf(Occurrence(g, k)), p) <==> p == PayDate(g, k)
  {
    hide IsRolled, Adjust;
    AdjustIsRolled(g.calendar.value, HdlRoll(g.roll), DayOf(Occurrence(g, k)), DayOf(p));
    UnadjustedIsNone(g.calendar.value, DayOf(Occurrence(g, k)), DayOf(p));
  }

  lemma {:induction false} UnadjustedIsNone(cal: Calendar, d: Ordinal, p: Ordinal)
    ensures IsRolled(cal, Unadjusted, d, p) <==> p == d
  {
  }

  /** What the plain filter keeps, in terms of the row. */
  lemma {:induction false} EmitsIff(g: Generator, k: nat, f: CashFlow)
    ensures Emits(g, k) && f == FlowAt(g, k) <==> IsGenerated(g, k, f)
  {
    hide PayDate, IsRolled;
    if g.calendar.Some? {
      PaysOnRolledDay(g, k, f.payDate);
      if IsRecurring(g) && g.endDate.Some? {
        PastEndByDay(g, k);
      }
    }
  }

  /** Rolling keeps the order of the rule: pay dates never go back. */
  lemma {:induction false} PayDatesAscend(g: Generator, i: nat, j: nat)
    requires g.calendar.Some? && i <= j
    ensures PayDate(g, i) <= PayDate(g, j)
  {
    if i < j {
      assert Occurrence(g, i) <= Occurrence(g, j);
      AdjustMonotone(g.calendar.value, DayOf(Occurrence(g, i)), DayOf(Occurrence(g, j)), HdlRoll(g.roll));
    }
  }

  /** So the `break` at the end date loses nothing: the emitted occurrences are an initial run. */
  lemma {:induction false} EmissionIsInitialRun(g: Generator, i: nat, j: nat)
    requires i <= j && Emits(g, j)
    ensures Emits(g, i)
  {
    PayDatesAscend(g, i, j);
  }

  /** The end-date test on days: a flow is cut exactly when it pays on a later day. */
  lemma {:induction false} PastEndByDay(g: Generator, k: nat)
    requires g.calendar.Some? && IsRecurring(g) && g.endDate.Some?
    ensures PastEnd(g, k) <==> DayOf(g.endDate.value) < DayOf(PayDate(g, k))
    ensures PastEnd(g, k) <==> g.endDate.value < PayDate(g, k)
  {
  }

  lemma {:induction false} PayDateNearOccurrence(g: Generator, k: nat)
    requires g.calendar.Some?
    ensures Occurrence(g, k) - 3 * DAY < PayDate(g, k) <= Occurrence(g, k) + 2 * DAY
  {
  }

  lemma {:induction false} RuleAdvances(r: Rule, k: nat)
    ensures r.at(0) + k <= r.at(k)
  {
    if k != 0 {
      RuleAdvances(r, k - 1);
      assert r.at(k - 1) < r.at(k);
    }
  }

  /** The sum of a currency's amounts. */
  function Total(flows: seq<CashFlow>, currency: string): real {
    if flows == [] then 0.0
    else Total(flows[..|flows| - 1], currency)
         + if flows[|flows| - 1].currency == currency then flows[|flows| - 1].amount else 0.0
  }

  lemma {:induction false} TotalAppends(x: seq<CashFlow>, y: seq<CashFlow>, currency: string)
    ensures Total(x + y, currency) == Total(x, currency) + Total(y, currency)
  {
    if y == [] {
      assert x + y == x;
    } else {
      assert (x + y)[..|x + y| - 1] == x + y[..|y| - 1];
      TotalAppends(x, y[..|y| - 1], currency);
    }
  }

  /** The Python generator object that `get_hdl_cashflows` returns. */
  class HdlStream {
    const g: Generator
    var position: nat
    var finished: bool

    /** Everything before `position` was emitted; once finished, nothing is left to emit. */
    ghost predicate Valid()
      reads this
    {
      && (forall k: nat :: k < position ==> Emits(g, k))
      && (finished ==> forall k: nat :: position <= k ==> !Emits(g, k))
    }

    constructor (g: Generator)
      ensures Valid() && this.g == g && position == 0 && !finished
    {
      this.g := g;
      position, finished := 0, false;
    }

    /** Runs to the next `yield`. The yields are occurrence 0, 1, 2, ... up to the last one that
        the plain filter keeps, whether or not the rule itself ends. */
    method Next() returns (r: Pull)
      requires Valid()
      modifies this
      ensures Valid()
      ensures r.Yield? ==> Emits(g, old(position)) && r.flow == FlowAt(g, old(position))
      ensures r.Yield? ==> IsGenerated(g, old(position), r.flow)
      ensures r.Yield? ==> position == old(position) + 1 && !finished
      ensures r.StopIteration? ==> finished && position == old(position)
      ensures r.Fail? ==> finished && position == old(position)
      ensures r.Fail? <==> !old(finished) && g.calendar.None?
      ensures r.Fail? ==> r.error == NotImplementedError
    {
      hide IsGenerated, Adjust;
      if finished {
        return StopIteration;
      }
      if g.calendar.None? {
        finished := true;
        return Fail(NotImplementedError);
      }
      if IsRecurring(g) {
        if g.periodicity.value.count.Some? && g.periodicity.value.count.value <= position {
          finished := true;
          return StopIteration;
        }
        var day := AdjustDate(g.calendar.value, DayOf(g.periodicity.value.at(position)), HdlRoll(g.roll));
        if g.endDate.Some? && EndOfDay(DayOf(g.endDate.value)) < Midnight(day) {
          finished := true;
          forall k: nat | position <= k
            ensures !Emits(g, k)
          {
            PayDatesAscend(g, position, k);
          }
          return StopIteration;
        }
        r := Yield(CashFlow(g.name, g.amount, g.currency, Midnight(day)));
        EmitsIff(g, position, r.flow);
        position := position + 1;
        return;
      }
      if position == 0 {
        var day := AdjustDate(g.calendar.value, DayOf(g.date), HdlRoll(g.roll));
        r := Yield(CashFlow(g.name, g.amount, g.currency, Midnight(day)));
        EmitsIff(g, 0, r.flow);
        position := 1;
        return;
      }
      finished := true;
      return StopIteration;
    }
  }
}
