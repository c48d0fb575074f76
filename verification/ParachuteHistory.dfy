/** The life cycle of a parachute cashflow and the as-of-time query over it
    (`ParachuteCashFlow`). */
module ParachuteHistory {
  import opened Wrappers
  import opened Dates

  /** A row of the table. */
  datatype Row = Row(
    account: int,
    payDate: Instant,
    amount: real,
    generationTime: Instant,
    initialNpv: Option<real>,
    initialSpot: real,
    deactivationDate: Option<Instant>,
    deactivatedByRolloff: Option<bool>,
    finalNpv: Option<real>,
    finalSpot: Option<real>)

  /** The closing fields are set together or not at all. */
  predicate Consistent(row: Row) {
    && row.deactivatedByRolloff.Some? == row.deactivationDate.Some?
    && row.finalNpv.Some? == row.deactivationDate.Some?
    && row.finalSpot.Some? == row.deactivationDate.Some?
  }

  predicate IsOpen(row: Row) {
    row.deactivationDate.None?
  }

  function ValueOf(unitNpv: real, amount: real): real {
    unitNpv * amount
  }

  /** What `_close` makes of a row: the first close counts, later ones change nothing. */
  function Closed(row: Row, time: Instant, unitNpv: real, spot: real, didRolloff: bool): Row {
    if !IsOpen(row) then row
    else row.(deactivationDate := Some(time), deactivatedByRolloff := Some(didRolloff),
              finalNpv := Some(ValueOf(unitNpv, row.amount)), finalSpot := Some(spot))
  }

  /** The row as `create_cashflow` inserts it. */
  function Created(account: int, payDate: Instant, amount: real, generationTime: Instant, initialNpv: Option<real>,
                   initialSpot: real): Row {
    Row(account, payDate, amount, generationTime, initialNpv, initialSpot, None, None, None, None)
  }

  class ParachuteCashFlow {
    const account: int
    const payDate: Instant
    const amount: real
    const generationTime: Instant
    const initialNpv: Option<real>
    const initialSpot: real
    var deactivationDate: Option<Instant>
    var deactivatedByRolloff: Option<bool>
    var finalNpv: Option<real>
    var finalSpot: Option<real>

    function View(): Row
      reads this
    {
      Row(account, payDate, amount, generationTime, initialNpv, initialSpot,
          deactivationDate, deactivatedByRolloff, finalNpv, finalSpot)
    }

    constructor CreateCashflow(account: int, payDate: Instant, amount: real, generationTime: Instant,
                               initialNpv: Option<real>, initialSpot: real)
      ensures View() == Created(account, payDate, amount, generationTime, initialNpv, initialSpot)
      ensures Consistent(View())
    {
      this.account, this.payDate, this.amount := account, payDate, amount;
      this.generationTime, this.initialNpv, this.initialSpot := generationTime, initialNpv, initialSpot;
      deactivationDate, deactivatedByRolloff, finalNpv, finalSpot := None, None, None, None;
    }

    method Close(time: Instant, finalUnitNpv: real, finalSpot: real, didRolloff: bool)
      modifies this
      ensures View() == Closed(old(View()), time, finalUnitNpv, finalSpot, didRolloff)
      ensures old(Consistent(View())) ==> Consistent(View())
      ensures old(deactivationDate).None? ==>
                && deactivationDate == Some(time) && deactivatedByRolloff == Some(didRolloff)
                && finalNpv == Some(ValueOf(finalUnitNpv, amount)) && this.finalSpot == Some(finalSpot)
      ensures old(deactivationDate).Some? ==> View() == old(View())
    {
      if deactivationDate.Some? {
        return;
      }
      deactivationDate := Some(time);
      deactivatedByRolloff := Some(didRolloff);
      finalNpv := Some(ValueOf(finalUnitNpv, amount));
      this.finalSpot := Some(finalSpot);
    }

    method DeactivateCashflow(time: Instant, finalNpv: real, finalSpot: real)
      modifies this
      ensures View() == Closed(old(View()), time, finalNpv, finalSpot, false)
    {
      Close(time, finalNpv, finalSpot, false);
    }

    method CloseByRolloff(time: Instant, finalSpot: real)
      modifies this
      ensures View() == Closed(old(View()), time, finalSpot, finalSpot, true)
    {
      Close(time, finalSpot, finalSpot, true);
    }
  }

  /** `realized_pnl`. */
  function RealizedPnl(row: Row): Result<Option<real>> {
    if row.finalNpv.None? || row.finalNpv.value == 0.0 then Ok(None)
    else if row.initialNpv.None? then Raised(TypeError)
    else Ok(Some(row.finalNpv.value - row.initialNpv.value))
  }

  /** "If the cashflow is closed, return its PnL" holds if and only if it has an initial value and closes at
      a value other than zero. A zero counts as no value and gives `None`; a missing initial value raises. */
  lemma {:induction false} RealizedPnlIff(row: Row, time: Instant, unitNpv: real, spot: real, didRolloff: bool)
    requires Consistent(row) && IsOpen(row)
    ensures RealizedPnl(row) == Ok(None)
    ensures var pnl := RealizedPnl(Closed(row, time, unitNpv, spot, didRolloff));
            && (pnl.Ok? && pnl.value.Some? <==> row.initialNpv.Some? && unitNpv != 0.0 && row.amount != 0.0)
            && (pnl.Ok? && pnl.value.Some? ==> pnl.value.value == unitNpv * row.amount - row.initialNpv.value)
            && (pnl == Ok(None) <==> unitNpv == 0.0 || row.amount == 0.0)
            && (pnl == Raised(TypeError) <==> row.initialNpv.None? && unitNpv != 0.0 && row.amount != 0.0)
  {
  }

  // ---------- the query ----------

  datatype Query = Query(
    refDate: Instant,
    account: int,
    includeRolledOff: bool,
    allowDeactivated: bool,
    startPayDate: Option<Instant>,
    endPayDate: Option<Instant>)

  /** The predicate that `get_account_cashflows` builds; a look-up on a null column is false. */
  predicate Selected(row: Row, q: Query) {
    && row.generationTime <= q.refDate && row.account == q.account
    && (if q.includeRolledOff
        then !(row.deactivatedByRolloff.Some? && !row.deactivatedByRolloff.value
               && row.deactivationDate.Some? && row.deactivationDate.value <= q.refDate)
        else row.deactivationDate.None? || row.deactivationDate.value > q.refDate)
    && (!q.allowDeactivated ==>
          || row.deactivatedByRolloff.None? || row.deactivatedByRolloff.value
          || (row.deactivationDate.Some? && row.deactivationDate.value > q.refDate))
    && (q.startPayDate.Some? ==> row.payDate >= q.startPayDate.value)
    && (q.endPayDate.Some? ==> row.payDate <= q.endPayDate.value)
  }

  /** `allow_deactivated` changes nothing: whatever the flags, a flow deleted by the reference date is
      never returned. */
  lemma {:induction false} AllowDeactivatedIsInert(row: Row, q: Query)
    requires Consistent(row)
    ensures Selected(row, q) == Selected(row, q.(allowDeactivated := !q.allowDeactivated))
    ensures Selected(row, q) ==>
              !(row.deactivatedByRolloff.Some? && !row.deactivatedByRolloff.value
                && row.deactivationDate.value <= q.refDate)
  {
  }

  // ---------- runs ----------

  /** One step of a history: a creation or a close of the row with primary key `id`. */
  datatype Step =
    | Create(id: nat, row: Row)
    | Deactivate(id: nat, time: Instant, unitNpv: real, spot: real)
    | RollOff(id: nat, time: Instant, spot: real)

  function Stamp(step: Step): Instant {
    match step
    case Create(_, row) => row.generationTime
    case Deactivate(_, time, _, _) => time
    case RollOff(_, time, _) => time
  }

  type Table = map<nat, Row>

  /** A step on the table; a key is never created twice, and closing needs an existing row. */
  function Apply(table: Table, step: Step): Table {
    match step
    case Create(id, row) =>
      if id in table then table
      else
        table[id := Created(row.account, row.payDate, row.amount, row.generationTime, row.initialNpv, row.initialSpot)]
    case Deactivate(id, time, unitNpv, spot) =>
      if id in table then table[id := Closed(table[id], time, unitNpv, spot, false)] else table
    case RollOff(id, time, spot) =>
      if id in table then table[id := Closed(table[id], time, spot, spot, true)] else table
  }

  function Run(table: Table, log: seq<Step>): Table {
    if log == [] then table else Apply(Run(table, log[..|log| - 1]), log[|log| - 1])
  }

  ghost predicate AllConsistent(table: Table) {
    forall id :: id in table ==> Consistent(table[id])
  }

  lemma {:induction false} RunsStayConsistent(table: Table, log: seq<Step>)
    requires AllConsistent(table)
    ensures AllConsistent(Run(table, log))
  {
    if log != [] {
      RunsStayConsistent(table, log[..|log| - 1]);
    }
  }

  /** A row as it was known at `time`: a later close has not happened yet. */
  function AsOf(row: Row, time: Instant): Row {
    if row.deactivationDate.Some? && row.deactivationDate.value > time
    then row.(deactivationDate := None, deactivatedByRolloff := None, finalNpv := None, finalSpot := None)
    else row
  }

  /** What the query returns, each row as it was known at the reference date. */
  function Answer(table: Table, q: Query): Table {
    map id | id in table && Selected(table[id], q) :: AsOf(table[id], q.refDate)
  }

  /** Stability over runs: no later sequence of creations and closes stamped after the reference date
      changes an answer, for any setting of the flags. */
  lemma {:induction false} LaterStepsAreInvisible(table: Table, log: seq<Step>, q: Query)
    requires AllConsistent(table)
    requires forall i :: 0 <= i < |log| ==> q.refDate < Stamp(log[i])
    ensures Answer(Run(table, log), q) == Answer(table, q)
  {
    if log != [] {
      var front := log[..|log| - 1];
      LaterStepsAreInvisible(table, front, q);
      RunsStayConsistent(table, front);
      OneLaterStep(Run(table, front), log[|log| - 1], q);
    }
  }

  /** A close stamped after the reference date does not show in an answer. */
  lemma {:induction false} LaterCloseIsInvisible(row: Row, time: Instant, unitNpv: real, spot: real, didRolloff: bool,
                                  q: Query)
    requires Consistent(row) && q.refDate < time
    ensures var closed := Closed(row, time, unitNpv, spot, didRolloff);
            Selected(closed, q) == Selected(row, q) && AsOf(closed, q.refDate) == AsOf(row, q.refDate)
  {
  }

  lemma {:induction false} NotYetCreated(row: Row, q: Query)
    requires q.refDate < row.generationTime
    ensures !Selected(row, q)
  {
  }

  lemma {:induction false} OneLaterStep(table: Table, step: Step, q: Query)
    requires AllConsistent(table) && q.refDate < Stamp(step)
    ensures Answer(Apply(table, step), q) == Answer(table, q)
  {
    hide Selected, Closed, AsOf;
    match step
    case Create(id, row) =>
      if id !in table {
        NotYetCreated(Apply(table, step)[id], q);
      }
    case Deactivate(id, time, unitNpv, spot) =>
      if id in table {
        LaterCloseIsInvisible(table[id], time, unitNpv, spot, false, q);
      }
    case RollOff(id, time, spot) =>
      if id in table {
        LaterCloseIsInvisible(table[id], time, spot, spot, true, q);
      }
  }

  /** The steps stamped by `time`, in log order. */
  function UpTo(log: seq<Step>, time: Instant): seq<Step> {
    if log == [] then []
    else
      var front, last := UpTo(log[..|log| - 1], time), log[|log| - 1];
      if Stamp(last) <= time then front + [last] else front
  }

  ghost predicate Chronological(log: seq<Step>) {
    forall i, j :: 0 <= i <= j < |log| ==> Stamp(log[i]) <= Stamp(log[j])
  }

  /** What the flags ask of a row in the state reached by the reference date. */
  predicate Asked(row: Row, q: Query) {
    && row.account == q.account
    && (IsOpen(row) || (q.includeRolledOff && row.deactivatedByRolloff.Some? && row.deactivatedByRolloff.value))
    && (q.startPayDate.Some? ==> row.payDate >= q.startPayDate.value)
    && (q.endPayDate.Some? ==> row.payDate <= q.endPayDate.value)
  }

  lemma {:induction false} ChronologicalSplits(log: seq<Step>, time: Instant) returns (k: nat)
    requires Chronological(log)
    ensures k <= |log| && UpTo(log, time) == log[..k]
    ensures forall i :: k <= i < |log| ==> time < Stamp(log[i])
    ensures forall i :: 0 <= i < k ==> Stamp(log[i]) <= time
  {
    k := 0;
    if log != [] {
      var front := log[..|log| - 1];
      k := ChronologicalSplits(front, time);
      if Stamp(log[|log| - 1]) <= time {
        k := |log|;
        assert front[..|front|] == front;
        assert front == log[..|log| - 1];
      } else {
        assert front[..k] == log[..k];
      }
    }
  }

  lemma {:induction false} RunAppends(table: Table, x: seq<Step>, y: seq<Step>)
    ensures Run(table, x + y) == Run(Run(table, x), y)
  {
    if y == [] {
      assert x + y == x;
    } else {
      assert (x + y)[..|x + y| - 1] == x + y[..|y| - 1];
      RunAppends(table, x, y[..|y| - 1]);
    }
  }

  lemma {:induction false} StampsBound(log: seq<Step>, time: Instant)
    requires forall i :: 0 <= i < |log| ==> Stamp(log[i]) <= time
    ensures forall id :: id in Run(map[], log) ==>
              var row := Run(map[], log)[id];
              row.generationTime <= time && (row.deactivationDate.Some? ==> row.deactivationDate.value <= time)
  {
    if log != [] {
      StampsBound(log[..|log| - 1], time);
    }
  }

  /** After a chronological history, the query returns exactly the rows that the flags ask for in the
      state reached by replaying the steps up to the reference date. The default flags ask for the
      rows open in that state. */
  lemma {:induction false} AnswerIsReplay(log: seq<Step>, q: Query)
    requires Chronological(log)
    ensures var known := Run(map[], UpTo(log, q.refDate));
            Answer(Run(map[], log), q) == map id | id in known && Asked(known[id], q) :: known[id]
  {
    hide Run, UpTo;
    var k := ChronologicalSplits(log, q.refDate);
    var known := Run(map[], log[..k]);
    assert log == log[..k] + log[k..];
    RunAppends(map[], log[..k], log[k..]);
    RunsStayConsistent(map[], log[..k]);
    LaterStepsAreInvisible(known, log[k..], q);
    StampsBound(log[..k], q.refDate);
    assert forall id :: id in known ==> (Selected(known[id], q) <==> Asked(known[id], q));
  }

  // ---------- the answer in terms of the steps ----------

  predicate IsClose(step: Step, id: nat) {
    !step.Create? && step.id == id
  }

  /** Step `c` creates row `id`: the first that asks for it. */
  predicate Creates(log: seq<Step>, c: nat, id: nat) {
    && c < |log| && log[c].Create? && log[c].id == id
    && forall b :: 0 <= b < c ==> !(log[b].Create? && log[b].id == id)
  }

  /** Step `i` is the first close of row `id` after step `c`. */
  predicate ClosesFirst(log: seq<Step>, c: nat, i: nat, id: nat) {
    c < i < |log| && IsClose(log[i], id) && forall j :: c < j < i ==> !IsClose(log[j], id)
  }

  predicate NeverCloses(log: seq<Step>, c: nat, id: nat) {
    forall j :: c < j < |log| ==> !IsClose(log[j], id)
  }

  /** A row as created. */
  predicate HasCreated(row: Row, made: Row) {
    && row.account == made.account && row.payDate == made.payDate && row.amount == made.amount
    && row.generationTime == made.generationTime
    && row.initialNpv == made.initialNpv && row.initialSpot == made.initialSpot
  }

  /** The closing columns after a close: its time and spot, the unit value times the amount, and whether it was
      a roll-off, which values the unit at the spot. */
  predicate HasClosed(row: Row, step: Step) {
    match step
    case Create(_, _) => false
    case Deactivate(_, time, unitNpv, spot) =>
      row.deactivationDate == Some(time) && row.deactivatedByRolloff == Some(false)
      && row.finalNpv == Some(ValueOf(unitNpv, row.amount)) && row.finalSpot == Some(spot)
    case RollOff(_, time, spot) =>
      row.deactivationDate == Some(time) && row.deactivatedByRolloff == Some(true)
      && row.finalNpv == Some(ValueOf(spot, row.amount)) && row.finalSpot == Some(spot)
  }

  predicate HasNotClosed(row: Row) {
    row.deactivationDate == None && row.deactivatedByRolloff == None && row.finalNpv == None && row.finalSpot == None
  }

  lemma {:induction false} CreatesEarlier(log: seq<Step>, step: Step, c: nat, id: nat)
    ensures c < |log| ==> (Creates(log + [step], c, id) <==> Creates(log, c, id))
    ensures Creates(log + [step], |log|, id) <==>
            step.Create? && step.id == id && forall c: nat :: !Creates(log, c, id)
  {
    if exists b :: 0 <= b < |log| && log[b].Create? && log[b].id == id {
      var b: nat := FirstCreation(log, id);
      assert Creates(log, b, id);
      assert (log + [step])[b] == log[b];
    } else {
      assert forall b :: 0 <= b < |log| ==> (log + [step])[b] == log[b];
    }
  }

  lemma {:induction false} FirstCreation(log: seq<Step>, id: nat) returns (c: nat)
    requires exists b :: 0 <= b < |log| && log[b].Create? && log[b].id == id
    ensures Creates(log, c, id)
  {
    var front := log[..|log| - 1];
    if exists b :: 0 <= b < |front| && front[b].Create? && front[b].id == id {
      c := FirstCreation(front, id);
    } else {
      c := |front|;
      assert forall b :: 0 <= b < |front| ==> front[b] == log[b];
    }
  }

  /** A step on one row. */
  lemma {:induction false} ApplyTo(table: Table, step: Step, id: nat)
    ensures step.id != id ==> (id in Apply(table, step) <==> id in table)
                              && (id in table ==> Apply(table, step)[id] == table[id])
    ensures step.id == id && step.Create? ==> id in Apply(table, step)
    ensures step.id == id && step.Create? && id !in table ==>
              HasCreated(Apply(table, step)[id], step.row) && HasNotClosed(Apply(table, step)[id])
    ensures IsClose(step, id) ==> (id in Apply(table, step) <==> id in table)
    ensures IsClose(step, id) && id in table ==>
              && HasCreated(Apply(table, step)[id], table[id])
              && (HasNotClosed(table[id]) ==> HasClosed(Apply(table, step)[id], step))
    ensures step.id == id && id in table && (step.Create? || table[id].deactivationDate.Some?) ==>
              id in Apply(table, step) && Apply(table, step)[id] == table[id]
  {
  }

  /** The row that a history leaves under a key: none unless some step created it, and otherwise as created,
      and closed by the first close after that, if there is one. */
  ghost predicate IsRowOf(table: Table, log: seq<Step>, id: nat) {
    && (id in table <==> exists c: nat :: Creates(log, c, id))
    && forall c: nat :: Creates(log, c, id) ==>
         && id in table && HasCreated(table[id], log[c].row)
         && (NeverCloses(log, c, id) ==> HasNotClosed(table[id]))
         && forall i: nat :: ClosesFirst(log, c, i, id) ==> HasClosed(table[id], log[i])
  }

  lemma {:induction false} RunLeavesRow(log: seq<Step>, id: nat)
    ensures IsRowOf(Run(map[], log), log, id)
  {
    if log != [] {
      var front, last := log[..|log| - 1], log[|log| - 1];
      assert log == front + [last];
      RunLeavesRow(front, id);
      ApplyTo(Run(map[], front), last, id);
      RowGoesOn(Run(map[], front), Run(map[], log), front, last, id);
    }
  }

  lemma {:induction false} RowGoesOn(before: Table, after: Table, log: seq<Step>, step: Step, id: nat)
    requires IsRowOf(before, log, id) && after == Apply(before, step)
    ensures IsRowOf(after, log + [step], id)
  {
    hide Apply, HasCreated, HasClosed, HasNotClosed;
    ApplyTo(before, step, id);
    CreatesEarlier(log, step, 0, id);
    forall c: nat | c < |log|
      ensures Creates(log + [step], c, id) <==> Creates(log, c, id)
    {
      CreatesEarlier(log, step, c, id);
    }
    if c: nat :| Creates(log + [step], c, id) {
      RowStays(before, after, log, step, c, id);
      forall d: nat | Creates(log + [step], d, id)
        ensures c == d
      {
      }
    }
  }

  lemma {:induction false} RowStays(before: Table, after: Table, log: seq<Step>, step: Step, c: nat, id: nat)
    requires IsRowOf(before, log, id) && after == Apply(before, step) && Creates(log + [step], c, id)
    requires c < |log| ==> Creates(log, c, id)
    requires c == |log| ==> id !in before
    ensures id in after && HasCreated(after[id], (log + [step])[c].row)
    ensures NeverCloses(log + [step], c, id) ==> HasNotClosed(after[id])
    ensures forall i: nat :: ClosesFirst(log + [step], c, i, id) ==> HasClosed(after[id], (log + [step])[i])
  {
    hide Apply;
    ApplyTo(before, step, id);
    var more := log + [step];
    if c < |log| {
      assert forall j :: 0 <= j < |log| ==> more[j] == log[j];
      assert more[|log|] == step;
      if NeverCloses(log, c, id) {
        assert HasNotClosed(before[id]);
        assert NeverCloses(more, c, id) ==> !IsClose(more[|log|], id);
        assert forall i: nat :: ClosesFirst(more, c, i, id) ==> i == |log|;
      } else {
        var i := FirstCloseAfter(log, c, id);
        assert HasClosed(before[id], log[i]);
        assert ClosesFirst(more, c, i, id);
        assert !NeverCloses(more, c, id) by {
          assert IsClose(more[i], id);
        }
        assert forall k: nat :: ClosesFirst(more, c, k, id) ==> k == i;
      }
    }
  }

  lemma {:induction false} FirstCloseAfter(log: seq<Step>, c: nat, id: nat) returns (i: nat)
    requires c < |log| && !NeverCloses(log, c, id)
    ensures ClosesFirst(log, c, i, id)
  {
    var front := log[..|log| - 1];
    if c < |front| && !NeverCloses(front, c, id) {
      i := FirstCloseAfter(front, c, id);
    } else {
      i := |front|;
      assert forall j :: 0 <= j < |front| ==> front[j] == log[j];
    }
  }

  /** The query asks for row `id`, created by step `c`: it is known by the reference date, of the account and
      pay dates asked for, and not closed by then, unless rolled-off rows are included and a roll-off was the
      close that counted. */
  predicate AskedOf(log: seq<Step>, c: nat, id: nat, q: Query)
    requires Creates(log, c, id)
  {
    var made := log[c].row;
    && made.generationTime <= q.refDate && made.account == q.account
    && (q.startPayDate.Some? ==> q.startPayDate.value <= made.payDate)
    && (q.endPayDate.Some? ==> made.payDate <= q.endPayDate.value)
    && ((forall i :: c < i < |log| && IsClose(log[i], id) ==> q.refDate < log[i].time)
        || (q.includeRolledOff && exists i: nat :: i < |log| && ClosesFirst(log, c, i, id) && log[i].RollOff?))
  }

  /** After a chronological history, the query returns exactly the rows that its steps say it asks for. */
  lemma {:induction false} AnswerIsAskedOf(log: seq<Step>, q: Query, id: nat)
    requires Chronological(log)
    ensures id in Answer(Run(map[], log), q) <==> exists c: nat :: Creates(log, c, id) && AskedOf(log, c, id, q)
  {
    hide Run;
    RunLeavesRow(log, id);
    var table := Run(map[], log);
    if c: nat :| Creates(log, c, id) {
      if NeverCloses(log, c, id) {
        assert forall i: nat :: !ClosesFirst(log, c, i, id);
      } else {
        var i := FirstCloseAfter(log, c, id);
        assert HasClosed(table[id], log[i]);
        FirstCloseIsEarliest(log, c, i, id, q.refDate);
        assert forall k: nat :: ClosesFirst(log, c, k, id) ==> k == i;
      }
      assert forall d: nat :: Creates(log, d, id) ==> d == c;
    }
  }

  lemma {:induction false} FirstCloseIsEarliest(log: seq<Step>, c: nat, i: nat, id: nat, time: Instant)
    requires Chronological(log) && ClosesFirst(log, c, i, id)
    ensures (forall k :: c < k < |log| && IsClose(log[k], id) ==> time < log[k].time) <==> time < log[i].time
  {
    forall k | c < k < |log| && IsClose(log[k], id)
      ensures log[i].time <= log[k].time
    {
      assert Stamp(log[i]) <= Stamp(log[k]);
    }
  }

  // ---------- histories that are not chronological ----------

  /** The creation time of row `id`, if it is ever created. */
  function Born(log: seq<Step>, id: nat): Option<Instant> {
    if log == [] then None
    else
      var born, last := Born(log[..|log| - 1], id), log[|log| - 1];
      if born.None? && last.Create? && last.id == id then Some(Stamp(last)) else born
  }

  /** The stamp of the first close of row `id` in log order: the one that counts. */
  function FirstClose(log: seq<Step>, id: nat): Option<Instant> {
    if log == [] then None
    else
      var front, last := log[..|log| - 1], log[|log| - 1];
      var first := FirstClose(front, id);
      if first.None? && Born(front, id).Some? && IsClose(last, id) then Some(Stamp(last)) else first
  }

  /** The earliest stamp of any close of row `id`. */
  function EarliestClose(log: seq<Step>, id: nat): Option<Instant> {
    if log == [] then None
    else
      var front, last := log[..|log| - 1], log[|log| - 1];
      var earliest := EarliestClose(front, id);
      if Born(front, id).Some? && IsClose(last, id) && (earliest.None? || Stamp(last) < earliest.value)
      then Some(Stamp(last)) else earliest
  }

  /** Creations use new keys. */
  ghost predicate CreatedOnce(log: seq<Step>) {
    forall i, j :: 0 <= i < j < |log| && log[i].Create? && log[j].Create? ==> log[i].id != log[j].id
  }

  lemma {:induction false} RunSummary(log: seq<Step>, id: nat)
    ensures id in Run(map[], log) <==> Born(log, id).Some?
    ensures id in Run(map[], log) ==>
              && Run(map[], log)[id].generationTime == Born(log, id).value
              && Run(map[], log)[id].deactivationDate == FirstClose(log, id)
    ensures Born(log, id).None? ==> FirstClose(log, id).None? && EarliestClose(log, id).None?
    ensures FirstClose(log, id).Some? <==> EarliestClose(log, id).Some?
    ensures FirstClose(log, id).Some? ==> EarliestClose(log, id).value <= FirstClose(log, id).value
  {
    if log != [] {
      RunSummary(log[..|log| - 1], id);
    }
  }

  lemma {:induction false} NeverCreated(log: seq<Step>, id: nat)
    requires forall i :: 0 <= i < |log| && log[i].Create? ==> log[i].id != id
    ensures Born(log, id).None?
  {
    if log != [] {
      NeverCreated(log[..|log| - 1], id);
    }
  }

  lemma {:induction false} UpToSummary(log: seq<Step>, time: Instant, id: nat)
    requires CreatedOnce(log)
    ensures var part := UpTo(log, time);
            && (Born(part, id) == if Born(log, id).Some? && Born(log, id).value <= time then Born(log, id) else None)
            && (Born(part, id).Some? ==>
                  (FirstClose(part, id).Some? <==>
                   EarliestClose(log, id).Some? && EarliestClose(log, id).value <= time))
  {
    hide Run;
    if log != [] {
      var front, last := log[..|log| - 1], log[|log| - 1];
      UpToSummary(front, time, id);
      RunSummary(front, id);
      if last.Create? && last.id == id {
        NeverCreated(front, id);
        RunSummary(UpTo(front, time), id);
      }
      if Stamp(last) <= time {
        assert UpTo(log, time) == UpTo(front, time) + [last];
        assert (UpTo(front, time) + [last])[..|UpTo(front, time)|] == UpTo(front, time);
      }
    }
  }

  predicate LiveAsOf(table: Table, id: nat, time: Instant) {
    && id in table && table[id].generationTime <= time
    && (IsOpen(table[id]) || time < table[id].deactivationDate.value)
  }

  predicate LiveNow(table: Table, id: nat) {
    id in table && IsOpen(table[id])
  }

  /** The final table, read as of `time`, agrees on row `id` with the replay of the steps up to `time`. */
  predicate AsOfIsReplay(log: seq<Step>, id: nat, time: Instant) {
    LiveAsOf(Run(map[], log), id, time) <==> LiveNow(Run(map[], UpTo(log, time)), id)
  }

  /** No close that came too late to count is stamped before the close that did count, unless that one
      is stamped no later than the creation. */
  predicate CloseInOrder(log: seq<Step>, id: nat) {
    FirstClose(log, id).Some? && EarliestClose(log, id).Some? && Born(log, id).Some? ==>
      || FirstClose(log, id).value <= EarliestClose(log, id).value
      || FirstClose(log, id).value <= Born(log, id).value
  }

  ghost predicate ClosedInOrder(log: seq<Step>) {
    forall id :: CloseInOrder(log, id)
  }

  /** For histories in any order, the as-of view of the final table is the replay up to each time if and only
      if every row's counting close is stamped no later than its ignored ones, or no later than its creation
      (when the row is live at no time either way). */
  lemma {:induction false} AsOfIsReplayIffClosedInOrder(log: seq<Step>)
    requires CreatedOnce(log)
    ensures ClosedInOrder(log) <==>
            forall id: nat, time: Instant :: AsOfIsReplay(log, id, time)
  {
    forall id: nat, time: Instant
      ensures LiveAsOf(Run(map[], log), id, time) <==>
              Born(log, id).Some? && Born(log, id).value <= time
              && (FirstClose(log, id).None? || time < FirstClose(log, id).value)
      ensures LiveNow(Run(map[], UpTo(log, time)), id) <==>
              Born(log, id).Some? && Born(log, id).value <= time
              && (EarliestClose(log, id).None? || time < EarliestClose(log, id).value)
      ensures FirstClose(log, id).Some? <==> EarliestClose(log, id).Some?
      ensures FirstClose(log, id).Some? ==>
                Born(log, id).Some? && EarliestClose(log, id).value <= FirstClose(log, id).value
    {
      RunSummary(log, id);
      UpToSummary(log, time, id);
      RunSummary(UpTo(log, time), id);
    }
    if id: nat :| !CloseInOrder(log, id) {
      var born, earliest := Born(log, id).value, EarliestClose(log, id).value;
      var time: Instant := if earliest < born then born else earliest;
      assert !AsOfIsReplay(log, id, time);
    } else {
      forall id: nat, time: Instant
        ensures AsOfIsReplay(log, id, time)
      {
        assert CloseInOrder(log, id);
      }
    }
  }
}
