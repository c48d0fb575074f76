/** Rebuilding a cashflow's original fields from its audit log (`get_changed_cashflows_as_of`). */
module ChangeLog {
  import opened Wrappers
  import opened Dicts

  /** A field of a cashflow; the last form is the two-element tuple that the code builds. */
  datatype Value =
    | Null
    | Text(text: string)
    | Number(number: real)
    | Moment(instant: int)
    | Currency(id: int)
    | Flag(flag: bool)
    | Tuple(first: string, second: Option<int>)

  /** The log keeps every value as text. */
  datatype Change = Change(field: string, before: string, after: string)

  datatype Entry = Entry(timestamp: int, changes: seq<Change>)

  /** An item of a field's list: a logged value and when it was set, unknown for the first. */
  datatype Item = Item(value: string, at: Option<int>)

  type Record = map<string, Value>

  /** A record as the log would write it. */
  type Texts = map<string, string>

  ghost predicate KeepsText(show: Value -> string) {
    forall t: string :: show(Text(t)) == t
  }

  /** How the log writes a value down: texts as they are, all else in some way. */
  type Show = show: Value -> string | KeepsText(show)
    witness (v: Value) => if v.Text? then v.text else "None"

  function Shown(show: Show, record: Record): Texts {
    map f | f in record :: show(record[f])
  }

  // ---------- which entries are read ----------

  function Stamped(log: seq<Entry>, from: int, to: int): seq<Entry> {
    if log == [] then []
    else
      var last := log[|log| - 1];
      Stamped(log[..|log| - 1], from, to) + if from <= last.timestamp <= to then [last] else []
  }

  lemma {:induction false} LaterEntriesCount(log: seq<Entry>, time: int, now: int)
    requires time <= now
    ensures |Stamped(log, time, time)| <= |Stamped(log, time, now)|
    ensures if exists i :: 0 <= i < |log| && time < log[i].timestamp <= now
            then |Stamped(log, time, time)| < |Stamped(log, time, now)|
            else Stamped(log, time, time) == Stamped(log, time, now)
  {
    if log != [] {
      var front := log[..|log| - 1];
      LaterEntriesCount(front, time, now);
      assert forall i :: 0 <= i < |front| ==> front[i] == log[i];
    }
  }

  /** The query asks for both `timestamp >= time` and `timestamp <= time`, so it reads what changed between
      `time` and `now`, as promised, exactly when nothing changed after the instant `time` itself. */
  lemma {:induction false} QueryReadsOneInstant(log: seq<Entry>, time: int, now: int)
    requires time <= now
    ensures Stamped(log, time, time) == Stamped(log, time, now) <==>
            forall i :: 0 <= i < |log| ==> !(time < log[i].timestamp <= now)
  {
    LaterEntriesCount(log, time, now);
  }

  // ---------- the chain check ----------

  /** All changes of the entries in order, each with its entry's time. */
  function Flat(entries: seq<Entry>): seq<(Change, int)> {
    if entries == [] then []
    else Flat(entries[..|entries| - 1]) + Dated(entries[|entries| - 1].changes, entries[|entries| - 1].timestamp)
  }

  function Dated(changes: seq<Change>, timestamp: int): (r: seq<(Change, int)>)
    ensures |r| == |changes| && forall i :: 0 <= i < |r| ==> r[i] == (changes[i], timestamp)
  {
    seq(|changes|, i requires 0 <= i < |changes| => (changes[i], timestamp))
  }

  /** The changes of one field. */
  function Of(changes: seq<(Change, int)>, field: string): seq<(Change, int)> {
    if changes == [] then []
    else
      var last := changes[|changes| - 1];
      Of(changes[..|changes| - 1], field) + if last.0.field == field then [last] else []
  }

  /** Each change starts from the value that the one before it left. */
  ghost predicate Contiguous(changes: seq<(Change, int)>) {
    forall i :: 0 < i < |changes| ==> changes[i - 1].0.after == changes[i].0.before
  }

  /** The list of a field: its value before the first change, then the value after each. */
  function ItemsOf(changes: seq<(Change, int)>): seq<Item> {
    if changes == [] then []
    else
      var front, last := changes[..|changes| - 1], changes[|changes| - 1];
      (if front == [] then [Item(last.0.before, None)] else ItemsOf(front)) + [Item(last.0.after, Some(last.1))]
  }

  lemma {:induction false} ItemsAt(changes: seq<(Change, int)>)
    requires changes != []
    ensures |ItemsOf(changes)| == |changes| + 1
    ensures ItemsOf(changes)[0] == Item(changes[0].0.before, None)
    ensures ItemsOf(changes)[|changes|] == Item(changes[|changes| - 1].0.after, Some(changes[|changes| - 1].1))
  {
    if 1 < |changes| {
      ItemsAt(changes[..|changes| - 1]);
    }
  }

  /** The list of one field after some changes. */
  ghost predicate FieldCollected(fields: Dict<string, seq<Item>>, changes: seq<(Change, int)>, field: string) {
    Contiguous(Of(changes, field)) && Get(fields, field, []) == ItemsOf(Of(changes, field))
  }

  /** The lists after some changes. */
  ghost predicate Collected(fields: Dict<string, seq<Item>>, changes: seq<(Change, int)>) {
    Valid(fields) && forall f :: FieldCollected(fields, changes, f)
  }

  /** The list that a change appends to. */
  function ListFor(fields: Dict<string, seq<Item>>, change: Change): (r: seq<Item>)
    ensures r != []
  {
    var list := Get(fields, change.field, []);
    if |list| == 0 then list + [Item(change.before, None)] else list
  }

  lemma {:induction false} OfOne(changes: seq<(Change, int)>, change: (Change, int), field: string)
    ensures Of(changes + [change], field)
            == if change.0.field == field then Of(changes, field) + [change] else Of(changes, field)
  {
  }

  lemma {:induction false} ItemsOfOne(changes: seq<(Change, int)>, change: (Change, int))
    ensures ItemsOf(changes + [change])
            == (if changes == [] then [Item(change.0.before, None)] else ItemsOf(changes))
               + [Item(change.0.after, Some(change.1))]
  {
  }

  /** Appending one change to its field's list keeps all lists, unless the change does not chain. */
  lemma {:induction false} CollectOne(fields: Dict<string, seq<Item>>, changes: seq<(Change, int)>, change: Change,
                                  timestamp: int)
    requires Collected(fields, changes)
    ensures var list := ListFor(fields, change);
            var more := changes + [(change, timestamp)];
            if list[|list| - 1].value != change.before then !Contiguous(Of(more, change.field))
            else Collected(Put(fields, change.field, list + [Item(change.after, Some(timestamp))]), more)
  {
    hide Of, ItemsOf, Contiguous;
    var more := changes + [(change, timestamp)];
    var list := ListFor(fields, change);
    var fields' := Put(fields, change.field, list + [Item(change.after, Some(timestamp))]);
    assert FieldCollected(fields, changes, change.field);
    LastItem(changes, change, timestamp, list);
    forall f
      ensures list[|list| - 1].value == change.before ==> FieldCollected(fields', more, f)
    {
      assert FieldCollected(fields, changes, f);
      OfOne(changes, (change, timestamp), f);
    }
  }

  lemma {:induction false} LastItem(changes: seq<(Change, int)>, change: Change, timestamp: int, list: seq<Item>)
    requires var items := ItemsOf(Of(changes, change.field));
             list == if |items| == 0 then items + [Item(change.before, None)] else items
    requires Contiguous(Of(changes, change.field))
    ensures list != []
    ensures var more := Of(changes + [(change, timestamp)], change.field);
            if list[|list| - 1].value != change.before then !Contiguous(more)
            else Contiguous(more) && ItemsOf(more) == list + [Item(change.after, Some(timestamp))]
  {
    hide Of, ItemsOf, Contiguous;
    var mine := Of(changes, change.field);
    var one := (change, timestamp);
    OfOne(changes, one, change.field);
    ItemsOfOne(mine, one);
    ChainsOn(mine, one);
    if mine == [] {
      NoItems();
    } else {
      ItemsAt(mine);
    }
  }

  lemma {:induction false} NoItems()
    ensures ItemsOf([]) == []
  {
  }

  lemma {:induction false} ChainsOn(mine: seq<(Change, int)>, one: (Change, int))
    requires Contiguous(mine)
    ensures Contiguous(mine + [one]) <==> mine == [] || mine[|mine| - 1].0.after == one.0.before
  {
    var more := mine + [one];
    if mine != [] {
      assert more[|mine| - 1] == mine[|mine| - 1] && more[|mine|] == one;
    }
  }

  lemma {:induction false} BreakStays(changes: seq<(Change, int)>, more: seq<(Change, int)>, field: string)
    requires !Contiguous(Of(changes, field))
    ensures !Contiguous(Of(changes + more, field))
  {
    if more == [] {
      assert changes + more == changes;
    } else {
      var front := more[..|more| - 1];
      BreakStays(changes, front, field);
      assert (changes + more)[..|changes + more| - 1] == changes + front;
      var i :| 0 < i < |Of(changes + front, field)|
               && Of(changes + front, field)[i - 1].0.after != Of(changes + front, field)[i].0.before;
      assert Of(changes + more, field)[i] == Of(changes + front, field)[i];
      assert Of(changes + more, field)[i - 1] == Of(changes + front, field)[i - 1];
    }
  }

  /** The loop over a cashflow's entries in time order: it raises a ValueError exactly when some field's
      changes do not chain, and otherwise collects every field's list. */
  method CollectChanges(entries: seq<Entry>) returns (r: Result<Dict<string, seq<Item>>>)
    ensures r.Raised? <==> exists f :: !Contiguous(Of(Flat(entries), f))
    ensures r.Raised? ==> r.error == ValueError
    ensures r.Ok? ==> Collected(r.value, Flat(entries))
  {
    hide Collected, Contiguous, Of;
    var fields: Dict<string, seq<Item>> := Dict([], map[]);
    NothingCollected();
    for i := 0 to |entries|
      invariant Collected(fields, Flat(entries[..i]))
    {
      assert entries[..i + 1][..i] == entries[..i];
      var one := CollectEntry(fields, entries[i], Flat(entries[..i]));
      if one.Raised? {
        FlatAppends(entries, i + 1);
        ghost var f :| !Contiguous(Of(Flat(entries[..i + 1]), f));
        BreakStays(Flat(entries[..i + 1]), Flat(entries)[|Flat(entries[..i + 1])|..], f);
        return Raised(one.error);
      }
      fields := one.value;
    }
    assert entries[..|entries|] == entries;
    CollectedChains(fields, Flat(entries));
    return Ok(fields);
  }

  lemma {:induction false} NothingCollected()
    ensures Collected(Dict([], map[]), [])
  {
  }

  lemma {:induction false} CollectedChains(fields: Dict<string, seq<Item>>, changes: seq<(Change, int)>)
    requires Collected(fields, changes)
    ensures forall f :: Contiguous(Of(changes, f))
  {
    forall f
      ensures Contiguous(Of(changes, f))
    {
      assert FieldCollected(fields, changes, f);
    }
  }

  lemma {:induction false} FlatAppends(entries: seq<Entry>, i: nat)
    requires i <= |entries|
    ensures |Flat(entries[..i])| <= |Flat(entries)|
    ensures Flat(entries[..i]) + Flat(entries)[|Flat(entries[..i])|..] == Flat(entries)
  {
    if i < |entries| {
      var front := entries[..|entries| - 1];
      FlatAppends(front, i);
      assert front[..i] == entries[..i];
    } else {
      assert entries[..i] == entries;
    }
  }

  /** The inner loop, over the fields that one entry changed. */
  method CollectEntry(before: Dict<string, seq<Item>>, entry: Entry, ghost earlier: seq<(Change, int)>)
    returns (r: Result<Dict<string, seq<Item>>>)
    requires Collected(before, earlier)
    ensures r.Ok? ==> Collected(r.value, earlier + Dated(entry.changes, entry.timestamp))
    ensures r.Raised? ==> r.error == ValueError
    ensures r.Raised? ==> exists f :: !Contiguous(Of(earlier + Dated(entry.changes, entry.timestamp), f))
  {
    hide Collected, Contiguous, Of;
    var fields := before;
    ghost var dated := Dated(entry.changes, entry.timestamp);
    assert earlier + dated[..0] == earlier;
    for j := 0 to |entry.changes|
      invariant Collected(fields, earlier + dated[..j])
    {
      var change := entry.changes[j];
      CollectOne(fields, earlier + dated[..j], change, entry.timestamp);
      assert earlier + dated[..j + 1] == earlier + dated[..j] + [(change, entry.timestamp)];
      var list := ListFor(fields, change);
      if list[|list| - 1].value != change.before {
        BreakStays(earlier + dated[..j + 1], dated[j + 1..], change.field);
        assert earlier + dated[..j + 1] + dated[j + 1..] == earlier + dated;
        return Raised(ValueError);
      }
      list := list + [Item(change.after, Some(entry.timestamp))];
      fields := Put(fields, change.field, list);
    }
    assert dated[..|dated|] == dated;
    return Ok(fields);
  }

  // ---------- all cashflows of an account ----------

  /** A row of the audit log: the cashflow's key and the entry. */
  datatype LogRow = LogRow(pk: int, entry: Entry)

  /** A cashflow as it is now. */
  datatype Flow = Flow(account: int, record: Record)

  /** The rows that the query reads. They are of one instant, so sorting them by time leaves them as they are. */
  function Read(log: seq<LogRow>, time: int): seq<LogRow> {
    if log == [] then []
    else
      var last := log[|log| - 1];
      Read(log[..|log| - 1], time) + if time <= last.entry.timestamp <= time then [last] else []
  }

  /** The entries of one cashflow. */
  function EntriesOf(rows: seq<LogRow>, pk: int): seq<Entry> {
    if rows == [] then []
    else
      var last := rows[|rows| - 1];
      if last.pk == pk then EntriesOf(rows[..|rows| - 1], pk) + [last.entry] else EntriesOf(rows[..|rows| - 1], pk)
  }

  /** The cashflows with entries, in the order in which they first appear. */
  function Logged(rows: seq<LogRow>): seq<int> {
    if rows == [] then []
    else
      var rest, last := Logged(rows[..|rows| - 1]), rows[|rows| - 1].pk;
      if last in rest then rest else rest + [last]
  }

  /** A cashflow that still exists and belongs to the account. */
  predicate Concerned(flows: map<int, Flow>, account: int, pk: int) {
    pk in flows && flows[pk].account == account
  }

  function ConcernedOf(flows: map<int, Flow>, account: int, pks: seq<int>): seq<int> {
    if pks == [] then []
    else
      var front, last := ConcernedOf(flows, account, pks[..|pks| - 1]), pks[|pks| - 1];
      if Concerned(flows, account, last) then front + [last] else front
  }

  /** Some field of the cashflow has changes that do not chain. */
  ghost predicate Broken(rows: seq<LogRow>, pk: int) {
    exists f :: !Contiguous(Of(Flat(EntriesOf(rows, pk)), f))
  }

  /** The groups of the rows so far. */
  ghost predicate Grouped(groups: Dict<int, seq<Entry>>, rows: seq<LogRow>) {
    && Valid(groups) && groups.keys == Logged(rows)
    && forall pk :: Get(groups, pk, []) == EntriesOf(rows, pk)
  }

  lemma {:induction false} GroupedNext(groups: Dict<int, seq<Entry>>, rows: seq<LogRow>, row: LogRow)
    requires Grouped(groups, rows)
    ensures Grouped(Put(groups, row.pk, Get(groups, row.pk, []) + [row.entry]), rows + [row])
  {
  }

  method GroupByCashflow(rows: seq<LogRow>) returns (groups: Dict<int, seq<Entry>>)
    ensures Valid(groups) && groups.keys == Logged(rows)
    ensures forall pk :: Get(groups, pk, []) == EntriesOf(rows, pk)
  {
    groups := Dict([], map[]);
    for i := 0 to |rows|
      invariant Grouped(groups, rows[..i])
    {
      hide Grouped;
      assert rows[..i + 1] == rows[..i] + [rows[i]];
      GroupedNext(groups, rows[..i], rows[i]);
      groups := Put(groups, rows[i].pk, Get(groups, rows[i].pk, []) + [rows[i].entry]);
    }
    assert rows[..|rows|] == rows;
  }

  /** The summaries of the concerned ones among `pks`. */
  ghost predicate Summarised(summaries: Dict<int, Dict<string, seq<Item>>>, rows: seq<LogRow>, flows: map<int, Flow>,
                             account: int, pks: seq<int>)
  {
    && Valid(summaries) && summaries.keys == ConcernedOf(flows, account, pks)
    && forall pk :: pk in summaries.at ==> Collected(summaries.at[pk], Flat(EntriesOf(rows, pk)))
  }

  lemma {:induction false} ConcernedMembers(flows: map<int, Flow>, account: int, pks: seq<int>)
    ensures forall pk :: pk in ConcernedOf(flows, account, pks) <==> pk in pks && Concerned(flows, account, pk)
  {
    if pks != [] {
      ConcernedMembers(flows, account, pks[..|pks| - 1]);
      assert pks == pks[..|pks| - 1] + [pks[|pks| - 1]];
    }
  }

  lemma {:induction false} SummarisedNext(summaries: Dict<int, Dict<string, seq<Item>>>, rows: seq<LogRow>,
                                          flows: map<int, Flow>, account: int, pks: seq<int>, pk: int,
                                          fields: Dict<string, seq<Item>>)
    requires Summarised(summaries, rows, flows, account, pks) && pk !in pks
    requires Concerned(flows, account, pk) ==> Collected(fields, Flat(EntriesOf(rows, pk)))
    ensures Summarised(if Concerned(flows, account, pk) then Put(summaries, pk, fields) else summaries,
                       rows, flows, account, pks + [pk])
  {
    hide Collected, Flat, EntriesOf;
    ConcernedMembers(flows, account, pks);
    assert (pks + [pk])[..|pks|] == pks;
  }

  lemma {:induction false} UnloggedHasNoEntries(rows: seq<LogRow>, pk: int)
    requires pk !in Logged(rows)
    ensures EntriesOf(rows, pk) == [] && !Broken(rows, pk)
  {
    if rows != [] {
      UnloggedHasNoEntries(rows[..|rows| - 1], pk);
    }
  }

  /** The first half of `get_changed_cashflows_as_of`: the entries grouped by cashflow, deleted ones and those
      of other accounts left out, and each group checked and collected. It gives nothing when no entry is of
      that instant, raises when some concerned cashflow's changes do not chain, and otherwise summarises
      exactly the concerned ones, in the order of their first entries. */
  method SummariseChanges(log: seq<LogRow>, time: int, flows: map<int, Flow>, account: int)
    returns (r: Result<Option<Dict<int, Dict<string, seq<Item>>>>>)
    ensures r == Ok(None) <==> forall i :: 0 <= i < |log| ==> log[i].entry.timestamp != time
    ensures var rows := Read(log, time);
            r.Raised? <==> exists pk :: pk in flows && flows[pk].account == account && Broken(rows, pk)
    ensures r.Raised? ==> r.error == ValueError
    ensures r.Ok? && r.value.Some? ==>
              Summarised(r.value.value, Read(log, time), flows, account, Logged(Read(log, time)))
    ensures r.Ok? && r.value.Some? ==> forall pk :: pk in r.value.value.at <==>
              pk in flows && flows[pk].account == account && IsLoggedAt(log, time, pk)
  {
    hide Summarised, Collected, EntriesOf, Contiguous, Of, Flat, Concerned, Logged, IsLoggedAt;
    var rows := Read(log, time);
    forall pk
      ensures Concerned(flows, account, pk) <==> pk in flows && flows[pk].account == account
    {
      ConcernedIff(flows, account, pk);
    }
    ReadNothingIff(log, time);
    NothingLoggedIff(rows);
    if |rows| == 0 {
      forall pk
        ensures !Broken(rows, pk)
      {
        UnloggedHasNoEntries(rows, pk);
      }
      return Ok(None);
    }
    var groups := GroupByCashflow(rows);
    var summaries: Dict<int, Dict<string, seq<Item>>> := Dict([], map[]);
    NothingSummarised(rows, flows, account);
    for i := 0 to |groups.keys|
      invariant Summarised(summaries, rows, flows, account, groups.keys[..i])
      invariant forall j :: 0 <= j < i && Concerned(flows, account, groups.keys[j]) ==> !Broken(rows, groups.keys[j])
    {
      var pk := groups.keys[i];
      assert groups.keys[..i + 1] == groups.keys[..i] + [pk];
      if !Concerned(flows, account, pk) {
        SummarisedNext(summaries, rows, flows, account, groups.keys[..i], pk, Dict([], map[]));
        continue;
      }
      assert groups.at[pk] == Get(groups, pk, []) == EntriesOf(rows, pk);
      var fields := CollectChanges(groups.at[pk]);
      if fields.Raised? {
        assert Broken(rows, pk);
        return Raised(fields.error);
      }
      assert !Broken(rows, pk) by {
        CollectedChains(fields.value, Flat(EntriesOf(rows, pk)));
      }
      SummarisedNext(summaries, rows, flows, account, groups.keys[..i], pk, fields.value);
      summaries := Put(summaries, pk, fields.value);
    }
    assert groups.keys[..|groups.keys|] == groups.keys;
    forall pk | Concerned(flows, account, pk)
      ensures !Broken(rows, pk)
    {
      if pk !in groups.keys {
        UnloggedHasNoEntries(rows, pk);
      }
    }
    SummarisedAre(summaries, log, time, flows, account);
    return Ok(Some(summaries));
  }

  /** Some entry of the cashflow is of that instant. */
  ghost predicate IsLoggedAt(log: seq<LogRow>, time: int, pk: int) {
    exists i :: 0 <= i < |log| && log[i].pk == pk && log[i].entry.timestamp == time
  }

  lemma {:induction false} ConcernedIff(flows: map<int, Flow>, account: int, pk: int)
    ensures Concerned(flows, account, pk) <==> pk in flows && flows[pk].account == account
  {
  }

  lemma {:induction false} LoggedIff(rows: seq<LogRow>, pk: int)
    ensures pk in Logged(rows) <==> exists i :: 0 <= i < |rows| && rows[i].pk == pk
  {
    if rows != [] {
      var front := rows[..|rows| - 1];
      LoggedIff(front, pk);
      assert forall i :: 0 <= i < |front| ==> front[i] == rows[i];
    }
  }

  /** Entry by entry, the query reads those of the instant, in their order. */
  lemma {:induction false} ReadNext(log: seq<LogRow>, row: LogRow, time: int)
    ensures Read([], time) == []
    ensures Read(log + [row], time)
            == if row.entry.timestamp == time then Read(log, time) + [row] else Read(log, time)
  {
    assert (log + [row])[..|log|] == log;
  }

  /** Entry by entry, a cashflow's group has its own ones, in their order. */
  lemma {:induction false} EntriesNext(rows: seq<LogRow>, row: LogRow, pk: int)
    ensures EntriesOf([], pk) == []
    ensures EntriesOf(rows + [row], pk)
            == if row.pk == pk then EntriesOf(rows, pk) + [row.entry] else EntriesOf(rows, pk)
  {
    assert (rows + [row])[..|rows|] == rows;
  }

  lemma {:induction false} LoggedAtIff(log: seq<LogRow>, time: int, pk: int)
    ensures pk in Logged(Read(log, time)) <==> IsLoggedAt(log, time, pk)
  {
    hide Logged;
    LoggedIff(Read(log, time), pk);
    ReadMembers(log, time, pk);
  }

  lemma {:induction false} ReadMembers(log: seq<LogRow>, time: int, pk: int)
    ensures (exists i :: 0 <= i < |Read(log, time)| && Read(log, time)[i].pk == pk) <==> IsLoggedAt(log, time, pk)
  {
    if log != [] {
      var front, last := log[..|log| - 1], log[|log| - 1];
      assert log == front + [last];
      ReadMembers(front, time, pk);
      ReadNext(front, last, time);
      var read := Read(front, time);
      assert forall i :: 0 <= i < |read| ==> (read + [last])[i] == read[i];
      assert (read + [last])[|read|] == last;
    }
  }

  lemma {:induction false} SummarisedAre(summaries: Dict<int, Dict<string, seq<Item>>>, log: seq<LogRow>, time: int,
                                         flows: map<int, Flow>, account: int)
    requires Summarised(summaries, Read(log, time), flows, account, Logged(Read(log, time)))
    ensures forall pk :: pk in summaries.at <==>
              pk in flows && flows[pk].account == account && IsLoggedAt(log, time, pk)
  {
    hide Logged, Read, IsLoggedAt;
    ConcernedMembers(flows, account, Logged(Read(log, time)));
    forall pk
      ensures pk in Logged(Read(log, time)) <==> IsLoggedAt(log, time, pk)
    {
      LoggedAtIff(log, time, pk);
    }
  }

  lemma {:induction false} NothingSummarised(rows: seq<LogRow>, flows: map<int, Flow>, account: int)
    ensures Summarised(Dict([], map[]), rows, flows, account, [])
  {
  }

  lemma {:induction false} ReadNothingIff(log: seq<LogRow>, time: int)
    ensures Read(log, time) == [] <==> forall i :: 0 <= i < |log| ==> log[i].entry.timestamp != time
  {
    if log != [] {
      var front := log[..|log| - 1];
      ReadNothingIff(front, time);
      assert forall i :: 0 <= i < |front| ==> front[i] == log[i];
    }
  }

  lemma {:induction false} NothingLoggedIff(rows: seq<LogRow>)
    ensures Logged(rows) == [] <==> rows == []
  {
  }

  // ---------- undo and replay ----------

  /** The texts with every listed change made, in order; a field they do not have is passed over. */
  function Replay(texts: Texts, changes: seq<(Change, int)>): Texts {
    if changes == [] then texts
    else
      var front, last := Replay(texts, changes[..|changes| - 1]), changes[|changes| - 1].0;
      if last.field in front then front[last.field := last.after] else front
  }

  /** The record with every changed field set back to the value in its list's first item, which is a text:
      what the code sets out to build. */
  function Undo(record: Record, fields: Dict<string, seq<Item>>): Record {
    map f | f in record :: var list := Get(fields, f, []); if list == [] then record[f] else Text(list[0].value)
  }

  /** The record as the code builds it: the field is set to the whole first item, a pair. */
  function UndoAsWritten(record: Record, fields: Dict<string, seq<Item>>): Record {
    map f | f in record ::
      var list := Get(fields, f, []); if list == [] then record[f] else Tuple(list[0].value, list[0].at)
  }

  lemma {:induction false} ReplayField(texts: Texts, changes: seq<(Change, int)>, f: string)
    requires f in texts
    ensures Replay(texts, changes).Keys == texts.Keys
    ensures Replay(texts, changes)[f]
            == var mine := Of(changes, f); if mine == [] then texts[f] else mine[|mine| - 1].0.after
  {
    if changes != [] {
      ReplayField(texts, changes[..|changes| - 1], f);
    }
  }

  lemma {:induction false} ReplayKeepsKeys(texts: Texts, changes: seq<(Change, int)>)
    ensures Replay(texts, changes).Keys == texts.Keys
  {
    if changes != [] {
      ReplayKeepsKeys(texts, changes[..|changes| - 1]);
    }
  }

  /** The texts are those that the last change of each field left. */
  ghost predicate IsCurrent(texts: Texts, changes: seq<(Change, int)>) {
    forall f :: f in texts ==> LeftBy(texts[f], Of(changes, f))
  }

  predicate LeftBy(text: string, mine: seq<(Change, int)>) {
    mine == [] || text == mine[|mine| - 1].0.after
  }

  /** The texts are those that the first change of each field started from. */
  ghost predicate IsOriginal(texts: Texts, changes: seq<(Change, int)>) {
    forall f :: f in texts ==> TakenBy(texts[f], Of(changes, f))
  }

  predicate TakenBy(text: string, mine: seq<(Change, int)>) {
    mine == [] || text == mine[0].0.before
  }

  /** `current` is what the logged changes made of `original`; unlogged fields are the same in both. */
  ghost predicate Became(show: Show, original: Record, current: Record, changes: seq<(Change, int)>) {
    && original.Keys == current.Keys && IsOriginal(Shown(show, original), changes)
    && Shown(show, current) == Replay(Shown(show, original), changes)
    && forall f :: f in original && Of(changes, f) == [] ==> current[f] == original[f]
  }

  lemma {:induction false} FirstItem(fields: Dict<string, seq<Item>>, changes: seq<(Change, int)>, f: string)
    requires Collected(fields, changes)
    ensures var list, mine := Get(fields, f, []), Of(changes, f);
            if mine == [] then list == [] else list != [] && list[0] == Item(mine[0].0.before, None)
  {
    assert FieldCollected(fields, changes, f);
    if Of(changes, f) != [] {
      ItemsAt(Of(changes, f));
    }
  }

  /** Undo inverts replay, as the log sees it: the undone record reads as an original one, and replaying the
      log on it gives back what the current record reads. */
  lemma {:induction false} ReplayRedoesUndo(show: Show, current: Record, fields: Dict<string, seq<Item>>,
                                            changes: seq<(Change, int)>)
    requires Collected(fields, changes) && IsCurrent(Shown(show, current), changes)
    ensures IsOriginal(Shown(show, Undo(current, fields)), changes)
    ensures Replay(Shown(show, Undo(current, fields)), changes) == Shown(show, current)
  {
    hide Of;
    var undone := Shown(show, Undo(current, fields));
    ReplayKeepsKeys(undone, changes);
    forall f | f in current
      ensures TakenBy(undone[f], Of(changes, f)) && Replay(undone, changes)[f] == show(current[f])
    {
      FirstItem(fields, changes, f);
      ReplayField(undone, changes, f);
      assert LeftBy(Shown(show, current)[f], Of(changes, f));
    }
  }

  /** What the chain check is for: replayed on the original texts, the log finds at every change the value that
      it says was there before. */
  lemma {:induction false} BeforeIsThere(texts: Texts, changes: seq<(Change, int)>, i: nat)
    requires i < |changes| && changes[i].0.field in texts
    requires Contiguous(Of(changes, changes[i].0.field)) && IsOriginal(texts, changes)
    ensures Replay(texts, changes[..i]).Keys == texts.Keys
    ensures Replay(texts, changes[..i])[changes[i].0.field] == changes[i].0.before
  {
    hide Replay, Of;
    var f := changes[i].0.field;
    ReplayField(texts, changes[..i], f);
    OfPrefix(changes, i + 1, f);
    OfOne(changes[..i], changes[i], f);
    assert changes[..i] + [changes[i]] == changes[..i + 1];
    var k := |Of(changes[..i], f)|;
    assert Of(changes, f)[k] == Of(changes[..i + 1], f)[k] == changes[i];
    OfPrefix(changes, i, f);
    assert TakenBy(texts[f], Of(changes, f));
  }

  lemma {:induction false} OfPrefix(changes: seq<(Change, int)>, i: nat, f: string)
    requires i <= |changes|
    ensures Of(changes[..i], f) <= Of(changes, f)
  {
    if i < |changes| {
      var front, last := changes[..|changes| - 1], changes[|changes| - 1];
      assert changes == front + [last];
      OfPrefix(front, i, f);
      assert front[..i] == changes[..i];
      OfOne(front, last, f);
    } else {
      assert changes[..i] == changes;
    }
  }

  lemma {:induction false} UndoneField(show: Show, original: Record, current: Record, fields: Dict<string, seq<Item>>,
                                       changes: seq<(Change, int)>, f: string)
    requires Collected(fields, changes) && Became(show, original, current, changes) && f in original
    ensures f in current
    ensures Undo(current, fields)[f] == if Of(changes, f) == [] then original[f] else Text(show(original[f]))
    ensures show(Undo(current, fields)[f]) == show(original[f])
    ensures Undo(current, fields)[f] == original[f] <==> Of(changes, f) == [] || original[f].Text?
  {
    hide Of, Replay, Collected;
    FirstItem(fields, changes, f);
    assert TakenBy(Shown(show, original)[f], Of(changes, f));
  }

  /** And the other way: the undone record reads as the original one did. It is the original one if and only
      if every changed field was a text, for nothing turns the logged texts back into numbers, dates,
      currencies or nulls. */
  lemma {:induction false} UndoInvertsReplay(show: Show, original: Record, current: Record,
                                             fields: Dict<string, seq<Item>>, changes: seq<(Change, int)>)
    requires Collected(fields, changes) && Became(show, original, current, changes)
    ensures Shown(show, Undo(current, fields)) == Shown(show, original)
    ensures Undo(current, fields) == original <==>
            forall f :: f in original && Of(changes, f) != [] ==> original[f].Text?
  {
    hide Of, Replay, Collected, Undo, KeepsText;
    var undone := Undo(current, fields);
    UndoKeepsKeys(current, fields);
    forall f | f in original
      ensures f in undone && show(undone[f]) == show(original[f])
      ensures undone[f] == original[f] <==> Of(changes, f) == [] || original[f].Text?
    {
      UndoneField(show, original, current, fields, changes, f);
    }
    if forall f :: f in original && Of(changes, f) != [] ==> original[f].Text? {
      assert undone == original;
    }
  }

  lemma {:induction false} UndoKeepsKeys(record: Record, fields: Dict<string, seq<Item>>)
    ensures Undo(record, fields).Keys == record.Keys
  {
  }

  /** The code as it stands gives the original record if and only if no field of the record was changed,
      since it stores the first item itself in place of its value. */
  lemma {:induction false} AsWrittenIsOriginalIffUnchanged(show: Show, original: Record, current: Record,
                                                           fields: Dict<string, seq<Item>>, changes: seq<(Change, int)>)
    requires Collected(fields, changes) && Became(show, original, current, changes)
    requires forall f :: f in original ==> !original[f].Tuple?
    ensures UndoAsWritten(current, fields) == original <==>
            forall f :: f in original ==> Of(changes, f) == []
  {
    hide Of, Replay;
    var written := UndoAsWritten(current, fields);
    forall f | f in original
      ensures Of(changes, f) == [] ==> written[f] == original[f]
      ensures Of(changes, f) != [] ==> written[f].Tuple?
    {
      FirstItem(fields, changes, f);
    }
  }

  /** `is_recurring`, which is computed from the periodicity and so never in the log. */
  predicate Recurs(periodicity: Value) {
    periodicity != Null && periodicity != Text("")
  }

  ghost predicate FlagAgrees(record: Record)
    requires "is_recurring" in record && "periodicity" in record
  {
    record["is_recurring"] == Flag(Recurs(record["periodicity"]))
  }

  /** Even the intended undo keeps the current recurrence flag: it is the original one if and only if the flow
      recurred then as it does now. And it agrees with the undone periodicity only if that text recurs when the
      current one does, which a missing periodicity, written as some text, always does. */
  lemma {:induction false} UndoneFlagAgreesIff(show: Show, original: Record, current: Record,
                                               fields: Dict<string, seq<Item>>, changes: seq<(Change, int)>)
    requires Collected(fields, changes) && Became(show, original, current, changes)
    requires Of(changes, "is_recurring") == [] && "is_recurring" in current && "periodicity" in current
    requires FlagAgrees(current)
    ensures "is_recurring" in Undo(current, fields) && "periodicity" in Undo(current, fields)
    ensures Undo(current, fields)["is_recurring"] == Flag(Recurs(original["periodicity"])) <==>
            Recurs(original["periodicity"]) == Recurs(current["periodicity"])
    ensures FlagAgrees(Undo(current, fields)) <==>
            || Of(changes, "periodicity") == []
            || Recurs(Text(show(original["periodicity"]))) == Recurs(current["periodicity"])
  {
    hide Of, Replay;
    FirstItem(fields, changes, "is_recurring");
    FirstItem(fields, changes, "periodicity");
    assert TakenBy(Shown(show, original)["periodicity"], Of(changes, "periodicity"));
  }
}
