/** `redo_snapshots` as it runs: the snapshots were all read before the loop, and the creator gives a new
    row the latest earlier snapshot as its last link and no next link. */
module SnapshotRedo {
  import opened Wrappers
  import opened SnapshotChain

  // ---------- the table and the methods on it ----------

  /** `r` is the latest snapshot of the account before `time` (`get_last_account_snapshot`). */
  ghost predicate IsLatestBefore(rows: Rows, account: int, time: int, r: Option<nat>) {
    && (r.Some? ==> r.value in rows && rows[r.value].account == account && rows[r.value].time < time)
    && forall k :: k in rows && rows[k].account == account && rows[k].time < time ==>
         r.Some? && rows[k].time <= rows[r.value].time
  }

  class SnapshotTable {
    var rows: Rows

    method Save(s: Snapshot)
      modifies this
      ensures rows == old(rows)[s.id := s.row]
    {
      rows := rows[s.id := s.row];
    }

    method Delete(id: nat)
      modifies this
      ensures rows == old(rows) - Doomed(old(rows), {id})
    {
      rows := rows - Doomed(rows, {id});
    }

    /** Without a new row the last save fails, and the transaction takes back the saves and the delete. */
    method ReplaceSnapshot(prior: Snapshot, redone: Option<Snapshot>) returns (r: Result<()>)
      modifies this
      ensures rows == if redone.Some? then Replaced(old(rows), prior, redone.value) else old(rows)
      ensures r == if redone.Some? then Ok(()) else Raised(AttributeError)
    {
      var before := rows;
      var last, next := Fetch(rows, prior.row.last), Fetch(rows, prior.row.next);
      var lastRow := if last.Some? then rows[last.value] else prior.row;
      var nextRow := if next.Some? then rows[next.value] else prior.row;
      if last.Some? {
        Save(Snapshot(last.value, lastRow.(next := None)));
      }
      if next.Some? {
        Save(Snapshot(next.value, nextRow.(last := None)));
      }
      Delete(prior.id);
      if redone.None? {
        rows := before;
        return Raised(AttributeError);
      }
      Save(redone.value);
      r := Ok(());
    }

    method RelinkSnapshot(redone: Snapshot)
      modifies this
      ensures rows == Relinked(old(rows), redone)
    {
      var last, next := Fetch(rows, redone.row.last), Fetch(rows, redone.row.next);
      var lastRow := if last.Some? then rows[last.value] else redone.row;
      var nextRow := if next.Some? then rows[next.value] else redone.row;
      if last.Some? {
        Save(Snapshot(last.value, lastRow.(next := Some(redone.id))));
      }
      if next.Some? {
        Save(Snapshot(next.value, nextRow.(last := Some(redone.id))));
      }
    }

    method GetLastAccountSnapshot(account: int, time: int) returns (r: Option<nat>)
      ensures IsLatestBefore(rows, account, time, r)
    {
      r := None;
      var left := rows.Keys;
      while left != {}
        invariant left <= rows.Keys
        invariant r.Some? ==> r.value in rows && rows[r.value].account == account && rows[r.value].time < time
        invariant forall k :: k in rows && k !in left && rows[k].account == account && rows[k].time < time ==>
                    r.Some? && rows[k].time <= rows[r.value].time
      {
        var k :| k in left;
        if rows[k].account == account && rows[k].time < time
           && (r.None? || rows[r.value].time < rows[k].time) {
          r := Some(k);
        }
        left := left - {k};
      }
    }

    constructor (rows: Rows)
      ensures this.rows == rows
    {
      this.rows := rows;
    }
  }

  // ---------- what a run leaves behind ----------

  /** One account's snapshots in time order, the keys their new rows would get, and all other rows. */
  datatype Plan = Plan(account: int, chain: seq<nat>, newIds: seq<nat>, times: seq<int>, rest: Rows)

  ghost predicate WellFormed(p: Plan) {
    && |p.chain| == |p.newIds| == |p.times|
    && Distinct(p.chain) && Distinct(p.newIds)
    && (forall i, j :: 0 <= i < |p.chain| && 0 <= j < |p.chain| ==> p.chain[i] != p.newIds[j])
    && (forall i, j :: 0 <= i < j < |p.times| ==> p.times[i] < p.times[j])
    && (forall k :: k in p.rest ==> k !in p.chain && k !in p.newIds && p.rest[k].account != p.account)
    && (forall k :: k in p.rest ==> NoneOf(p.rest[k], p.chain))
  }

  /** The key in slot `j` once the slots in `done` have been redone. */
  function Node(p: Plan, done: set<nat>, j: nat): nat
    requires WellFormed(p) && j < |p.chain|
  {
    if j in done then p.newIds[j] else p.chain[j]
  }

  /** The link between slots `j` and `j + 1` is lost when the first was redone and the second was not. */
  predicate LinkKept(done: set<nat>, j: nat) {
    j in done ==> j + 1 in done
  }

  function ExpectedRow(p: Plan, done: set<nat>, j: nat): Row
    requires WellFormed(p) && j < |p.chain|
  {
    Row(p.account, p.times[j],
        if 0 < j && LinkKept(done, j - 1) then Some(Node(p, done, j - 1)) else None,
        if j + 1 < |p.chain| && LinkKept(done, j) then Some(Node(p, done, j + 1)) else None)
  }

  /** Slot `j` holds its expected row. */
  predicate SlotHolds(p: Plan, done: set<nat>, rows: Rows, j: nat)
    requires WellFormed(p) && j < |p.chain|
  {
    Node(p, done, j) in rows && rows[Node(p, done, j)] == ExpectedRow(p, done, j)
  }

  /** The table after redoing the slots in `done`: the expected rows and the untouched others. */
  ghost predicate TableAfter(p: Plan, done: set<nat>, rows: Rows)
    requires WellFormed(p)
  {
    && (forall j: nat {:trigger SlotHolds(p, done, rows, j)} :: j < |p.chain| ==> SlotHolds(p, done, rows, j))
    && (forall k :: k in p.rest ==> k in rows && rows[k] == p.rest[k])
    && forall k :: k in rows ==> k in p.rest || InSomeSlot(p, done, k)
  }

  ghost predicate InSomeSlot(p: Plan, done: set<nat>, k: nat)
    requires WellFormed(p)
  {
    exists j: nat :: j < |p.chain| && Node(p, done, j) == k
  }

  /** The snapshot of slot `k` as it was read before the loop. */
  function ReadBefore(p: Plan, k: nat): Snapshot
    requires WellFormed(p) && k < |p.chain|
  {
    Snapshot(p.chain[k], Row(p.account, p.times[k], IdAt(p.chain, k as int - 1), IdAt(p.chain, k as int + 1)))
  }

  /** The row that the creator makes for slot `k`. */
  function NewRow(p: Plan, done: set<nat>, k: nat): Snapshot
    requires WellFormed(p) && k < |p.chain|
  {
    Snapshot(p.newIds[k], Row(p.account, p.times[k], if 0 < k then Some(Node(p, done, k - 1)) else None, None))
  }

  /** All slots before `k` that are done lie before it, so the creator finds slot `k - 1`. */
  lemma {:induction false} CreatorFindsPrevious(p: Plan, done: set<nat>, rows: Rows, k: nat, r: Option<nat>)
    requires WellFormed(p) && TableAfter(p, done, rows) && k < |p.chain|
    requires IsLatestBefore(rows, p.account, p.times[k], r)
    ensures r == NewRow(p, done, k).row.last
  {
    if r.Some? {
      assert InSomeSlot(p, done, r.value);
      var j: nat :| j < |p.chain| && Node(p, done, j) == r.value;
      assert SlotHolds(p, done, rows, j);
    }
    if 0 < k {
      assert SlotHolds(p, done, rows, k - 1);
    }
  }

  /** The table with slot `k` redone, stated row by row. */
  function Stepped(p: Plan, done: set<nat>, rows: Rows, k: nat): Rows
    requires WellFormed(p) && k < |p.chain|
  {
    (map x | x in rows && x != p.chain[k] ::
       if 0 < k && x == Node(p, done, k - 1) then rows[x].(next := Some(p.newIds[k]))
       else if k + 1 < |p.chain| && x == p.chain[k + 1] then rows[x].(last := None)
       else rows[x])[p.newIds[k] := NewRow(p, done, k).row]
  }

  lemma {:induction false} NodesDiffer(p: Plan, done: set<nat>, i: nat, j: nat)
    requires WellFormed(p) && i < |p.chain| && j < |p.chain|
    ensures Node(p, done, i) == Node(p, done, j) <==> i == j
    ensures Node(p, done, i) == p.chain[j] <==> i == j && j !in done
    ensures Node(p, done, i) == p.newIds[j] <==> i == j && j in done
    ensures Node(p, done, i) !in p.rest
  {
  }

  /** Whether a chain key is still in the table depends only on its own slot. */
  lemma {:induction false} StillThere(p: Plan, done: set<nat>, rows: Rows, j: nat)
    requires WellFormed(p) && TableAfter(p, done, rows) && j < |p.chain|
    ensures p.chain[j] in rows <==> j !in done
    ensures p.newIds[j] in rows ==> j in done || p.newIds[j] in p.rest
  {
    if j !in done {
      assert SlotHolds(p, done, rows, j);
    }
    if p.chain[j] in rows && InSomeSlot(p, done, p.chain[j]) {
      var i: nat :| i < |p.chain| && Node(p, done, i) == p.chain[j];
      NodesDiffer(p, done, i, j);
    }
    if p.newIds[j] in rows && InSomeSlot(p, done, p.newIds[j]) {
      var i: nat :| i < |p.chain| && Node(p, done, i) == p.newIds[j];
      NodesDiffer(p, done, i, j);
    }
  }

  lemma {:induction false} RowBelongs(p: Plan, done: set<nat>, rows: Rows, x: nat)
    requires WellFormed(p) && TableAfter(p, done, rows) && x in rows
    ensures x in p.rest ==> rows[x] == p.rest[x] && NoneOf(rows[x], p.chain)
    ensures x !in p.rest ==> InSomeSlot(p, done, x)
  {
  }

  /** Decoupling with the links read before the loop leaves nothing that refers to the old row. */
  lemma {:induction false} StaleDecouplingSuffices(p: Plan, done: set<nat>, rows: Rows, k: nat, x: nat)
    requires WellFormed(p) && TableAfter(p, done, rows) && k < |p.chain|
    requires forall d :: d in done ==> d < k
    requires x in Decoupled(rows, ReadBefore(p, k))
    ensures NoneOf(Decoupled(rows, ReadBefore(p, k))[x], [p.chain[k]])
  {
    hide TableAfter, WellFormed;
    if 0 < k {
      StillThere(p, done, rows, k - 1);
    }
    if k + 1 < |p.chain| {
      StillThere(p, done, rows, k + 1);
    }
    RowBelongs(p, done, rows, x);
    if x !in p.rest {
      var j: nat :| j < |p.chain| && Node(p, done, j) == x;
      SlotInTable(p, done, rows, j);
      if 0 < k && k + 1 < |p.chain| {
        NodesDiffer(p, {}, k - 1, k + 1);
      }
      if 0 < j {
        NodesDiffer(p, done, j - 1, k);
      }
      if j + 1 < |p.chain| {
        NodesDiffer(p, done, j + 1, k);
      }
    }
  }

  /** The surgery on the table: only the stale row goes, so what is left is the decoupled and relinked rest. */
  lemma {:induction false} SurgeryDeletesOne(p: Plan, done: set<nat>, rows: Rows, k: nat)
    requires WellFormed(p) && TableAfter(p, done, rows) && k < |p.chain|
    requires forall d :: d in done ==> d < k
    ensures Replaced(rows, ReadBefore(p, k), NewRow(p, done, k))
            == (Decoupled(rows, ReadBefore(p, k)) - {p.chain[k]})[p.newIds[k] := NewRow(p, done, k).row]
  {
    hide Doomed, TableAfter, WellFormed, NoneOf, Decoupled;
    var prior := ReadBefore(p, k);
    var r := Decoupled(rows, prior);
    forall x | x in r
      ensures NoneOf(r[x], [prior.id])
    {
      StaleDecouplingSuffices(p, done, rows, k, x);
    }
    NothingRefers(r, prior.id);
  }

  lemma {:induction false} SurgerySteps(p: Plan, done: set<nat>, rows: Rows, k: nat)
    requires WellFormed(p) && TableAfter(p, done, rows) && k < |p.chain|
    requires forall d :: d in done ==> d < k
    ensures Relinked(Replaced(rows, ReadBefore(p, k), NewRow(p, done, k)), NewRow(p, done, k))
            == Stepped(p, done, rows, k)
  {
    hide Replaced, TableAfter, WellFormed, NoneOf;
    SurgeryDeletesOne(p, done, rows, k);
    StillThere(p, done, rows, k);
    NodesDiffer(p, done, k, k);
    if 0 < k {
      StillThere(p, done, rows, k - 1);
      NodesDiffer(p, done, k - 1, k);
      SlotInTable(p, done, rows, k - 1);
    }
    if k + 1 < |p.chain| {
      StillThere(p, done, rows, k + 1);
      NodesDiffer(p, done, k + 1, k);
      if 0 < k {
        NodesDiffer(p, done, k - 1, k + 1);
      }
    }
  }

  lemma {:induction false} SlotInTable(p: Plan, done: set<nat>, rows: Rows, j: nat)
    requires WellFormed(p) && TableAfter(p, done, rows) && j < |p.chain|
    ensures SlotHolds(p, done, rows, j)
  {
  }

  lemma {:induction false} StepFillsSlot(p: Plan, done: set<nat>, rows: Rows, k: nat, j: nat)
    requires WellFormed(p) && TableAfter(p, done, rows) && k < |p.chain| && j < |p.chain|
    requires forall d :: d in done ==> d < k
    ensures SlotHolds(p, done + {k}, Stepped(p, done, rows, k), j)
  {
    hide TableAfter, WellFormed;
    SlotInTable(p, done, rows, j);
    NodesDiffer(p, done, j, k);
    if 0 < k {
      NodesDiffer(p, done, j, k - 1);
    }
    if k + 1 < |p.chain| {
      NodesDiffer(p, done, j, k + 1);
    }
  }

  /** One redo, with the stale old row and the creator's new row, moves the table to its next state. */
  lemma {:induction false} StepReachesNext(p: Plan, done: set<nat>, rows: Rows, k: nat)
    requires WellFormed(p) && TableAfter(p, done, rows) && k < |p.chain|
    requires forall d :: d in done ==> d < k
    ensures TableAfter(p, done + {k}, Stepped(p, done, rows, k))
  {
    var after, done' := Stepped(p, done, rows, k), done + {k};
    forall j: nat | j < |p.chain|
      ensures SlotHolds(p, done', after, j)
    {
      StepFillsSlot(p, done, rows, k, j);
    }
    forall x | x in p.rest
      ensures x in after && after[x] == p.rest[x]
    {
      if 0 < k {
        NodesDiffer(p, done, k - 1, k);
      }
    }
    forall x | x in after && x !in p.rest
      ensures InSomeSlot(p, done', x)
    {
      if x == p.newIds[k] {
        assert Node(p, done', k) == x;
      } else {
        assert InSomeSlot(p, done, x);
        var j: nat :| j < |p.chain| && Node(p, done, j) == x;
        assert Node(p, done', j) == x;
      }
    }
  }

  /** The slots of a list of distinct ascending positions. */
  function Slots(slots: seq<nat>): set<nat> {
    set m | 0 <= m < |slots| :: slots[m]
  }

  /** The position of the first snapshot for which the creator makes no row, or how many there are. */
  function FirstMissing(newIds: seq<Option<nat>>): (n: nat)
    ensures n <= |newIds| && forall m :: 0 <= m < n ==> newIds[m].Some?
    ensures n < |newIds| ==> newIds[n].None?
  {
    if newIds == [] || newIds[0].None? then 0 else 1 + FirstMissing(newIds[1..])
  }

  lemma {:induction false} MissingIsUnique(newIds: seq<Option<nat>>, n: nat)
    requires n <= |newIds| && forall m :: 0 <= m < n ==> newIds[m].Some?
    requires n < |newIds| ==> newIds[n].None?
    ensures FirstMissing(newIds) == n
  {
  }

  /** The loop of `redo_snapshots` over one account: snapshots read before the loop, in time order. A missing
      row ends it with an AttributeError, the slots before it redone and its own as it was. */
  method RedoSnapshots(table: SnapshotTable, snapshots: seq<Snapshot>, newIds: seq<Option<nat>>,
                       ghost p: Plan, ghost slots: seq<nat>)
      returns (r: Result<()>)
    requires WellFormed(p) && TableAfter(p, {}, table.rows)
    requires |snapshots| == |newIds| == |slots|
    requires forall m, n :: 0 <= m < n < |slots| ==> slots[m] < slots[n]
    requires forall m :: 0 <= m < |slots| ==>
               && slots[m] < |p.chain| && snapshots[m] == ReadBefore(p, slots[m])
               && (newIds[m].Some? ==> newIds[m].value == p.newIds[slots[m]])
    modifies table
    ensures TableAfter(p, Slots(slots[..FirstMissing(newIds)]), table.rows)
    ensures r == if FirstMissing(newIds) == |newIds| then Ok(()) else Raised(AttributeError)
  {
    hide TableAfter, WellFormed, Relinked, Replaced, Stepped, FirstMissing;
    assert Slots(slots[..0]) == {};
    for m := 0 to |snapshots|
      invariant TableAfter(p, Slots(slots[..m]), table.rows)
      invariant forall n :: 0 <= n < m ==> newIds[n].Some?
    {
      var snapshot := snapshots[m];
      ghost var done := Slots(slots[..m]);
      var last := table.GetLastAccountSnapshot(snapshot.row.account, snapshot.row.time);
      CreatorFindsPrevious(p, done, table.rows, slots[m], last);
      if newIds[m].None? {
        MissingIsUnique(newIds, m);
        r := table.ReplaceSnapshot(snapshot, None);
        return;
      }
      var redone := Snapshot(newIds[m].value, Row(snapshot.row.account, snapshot.row.time, last, None));
      SurgerySteps(p, done, table.rows, slots[m]);
      StepReachesNext(p, done, table.rows, slots[m]);
      r := table.ReplaceSnapshot(snapshot, Some(redone));
      table.RelinkSnapshot(redone);
      assert Slots(slots[..m + 1]) == done + {slots[m]};
    }
    MissingIsUnique(newIds, |newIds|);
    r := Ok(());
  }

  /** The keys of the slots in order. */
  function Nodes(p: Plan, done: set<nat>): (r: seq<nat>)
    requires WellFormed(p)
    ensures |r| == |p.chain| && forall j :: 0 <= j < |r| ==> r[j] == Node(p, done, j)
  {
    seq(|p.chain|, j requires 0 <= j < |p.chain| => Node(p, done, j))
  }

  lemma {:induction false} WholeIfSuffix(p: Plan, done: set<nat>, rows: Rows)
    requires WellFormed(p) && TableAfter(p, done, rows)
    requires forall k :: k in p.rest ==> NoneOf(p.rest[k], p.newIds)
    requires forall j: nat :: j in done && j + 1 < |p.chain| ==> j + 1 in done
    ensures Chain(rows, Nodes(p, done))
  {
    var ids := Nodes(p, done);
    forall i, j | 0 <= i < j < |ids|
      ensures ids[i] != ids[j]
    {
      NodesDiffer(p, done, i, j);
    }
    forall j: nat | j < |ids|
      ensures LinkedAt(rows, ids, j)
    {
      SlotInTable(p, done, rows, j);
    }
    forall k | k in rows && k !in ids
      ensures NoneOf(rows[k], ids)
    {
      forall j: nat | j < |p.chain|
        ensures Node(p, done, j) != k
      {
        assert ids[j] in ids;
      }
      assert NoneOf(p.rest[k], p.chain) && NoneOf(p.rest[k], p.newIds);
      assert forall x :: x in ids ==> x in p.chain || x in p.newIds;
    }
    forall k | k in ids
      ensures k in rows
    {
      var j: nat :| j < |ids| && ids[j] == k;
      assert LinkedAt(rows, ids, j);
    }
  }

  /** After a run the account's snapshots form one whole chain if and only if no redone slot is followed by
      one that was not redone: the creator leaves the next link empty, and only the redo of the following
      slot fills it in. */
  lemma {:induction false} RedoIsWholeIffSuffix(p: Plan, done: set<nat>, rows: Rows)
    requires WellFormed(p) && TableAfter(p, done, rows)
    requires forall k :: k in p.rest ==> NoneOf(p.rest[k], p.newIds)
    ensures Chain(rows, Nodes(p, done)) <==> forall j: nat :: j in done && j + 1 < |p.chain| ==> j + 1 in done
  {
    if forall j: nat :: j in done && j + 1 < |p.chain| ==> j + 1 in done {
      WholeIfSuffix(p, done, rows);
    } else {
      var j: nat :| j in done && j + 1 < |p.chain| && j + 1 !in done;
      SlotInTable(p, done, rows, j);
      assert !LinkedAt(rows, Nodes(p, done), j);
    }
  }

  ghost predicate IsWholeAccount(p: Plan, rows: Rows)
    requires WellFormed(p)
  {
    && Chain(rows, p.chain)
    && forall j :: 0 <= j < |p.chain| ==> rows[p.chain[j]].account == p.account && rows[p.chain[j]].time == p.times[j]
  }

  lemma {:induction false} WholeAccountHolds(p: Plan, rows: Rows)
    requires WellFormed(p) && IsWholeAccount(p, rows)
    ensures forall j: nat {:trigger SlotHolds(p, {}, rows, j)} :: j < |p.chain| ==> SlotHolds(p, {}, rows, j)
  {
    forall j: nat | j < |p.chain|
      ensures SlotHolds(p, {}, rows, j)
    {
      assert LinkedAt(rows, p.chain, j);
    }
  }

  /** The table before a run: a whole chain in time order. */
  lemma {:induction false} ChainIsFreshTable(p: Plan, rows: Rows)
    requires WellFormed(p) && IsWholeAccount(p, rows)
    requires forall k :: k in p.rest <==> k in rows && k !in p.chain
    requires forall k :: k in p.rest ==> p.rest[k] == rows[k]
    ensures TableAfter(p, {}, rows)
  {
    WholeAccountHolds(p, rows);
    forall k | k in rows && k !in p.rest
      ensures InSomeSlot(p, {}, k)
    {
      var j: nat :| j < |p.chain| && p.chain[j] == k;
      assert Node(p, {}, j) == k;
    }
  }

  // ---------- the whole script, account after account ----------

  ghost predicate IsKeyOf(p: Plan, k: nat) {
    k in p.chain || k in p.newIds
  }

  /** Plans of different accounts, with no other rows and no key in common. */
  ghost predicate Together(ps: seq<Plan>) {
    && (forall a :: 0 <= a < |ps| ==> ps[a].rest == map[] && WellFormed(ps[a]))
    && (forall a, b :: 0 <= a < |ps| && 0 <= b < |ps| && a != b ==> ps[a].account != ps[b].account)
    && forall a, b, k :: 0 <= a < |ps| && 0 <= b < |ps| && a != b && IsKeyOf(ps[a], k) ==> !IsKeyOf(ps[b], k)
  }

  /** A row of no account in the list, which none of their snapshots' keys appear in. */
  ghost predicate Unrelated(ps: seq<Plan>, k: nat, row: Row) {
    forall a :: 0 <= a < |ps| ==>
      !IsKeyOf(ps[a], k) && row.account != ps[a].account && NoneOf(row, ps[a].chain)
  }

  ghost predicate IsNodeOf(ps: seq<Plan>, dones: seq<set<nat>>, a: nat, k: nat)
    requires Together(ps) && a < |ps| == |dones|
  {
    InSomeSlot(ps[a], dones[a], k)
  }

  ghost predicate AccountHolds(ps: seq<Plan>, dones: seq<set<nat>>, rows: Rows, a: nat)
    requires Together(ps) && a < |ps| == |dones|
  {
    forall j: nat {:trigger SlotHolds(ps[a], dones[a], rows, j)} ::
      j < |ps[a].chain| ==> SlotHolds(ps[a], dones[a], rows, j)
  }

  /** The table with the slots in `dones[a]` of every account `a` redone. */
  ghost predicate TablesAfter(ps: seq<Plan>, dones: seq<set<nat>>, others: Rows, rows: Rows)
    requires Together(ps) && |ps| == |dones|
  {
    && (forall a: nat :: a < |ps| ==> AccountHolds(ps, dones, rows, a))
    && (forall k :: k in others ==> k in rows && rows[k] == others[k] && Unrelated(ps, k, others[k]))
    && forall k :: k in rows && k !in others ==> exists a: nat :: a < |ps| && IsNodeOf(ps, dones, a, k)
  }

  /** Account `a` with all other rows beside it. */
  ghost function WithOthers(ps: seq<Plan>, dones: seq<set<nat>>, rows: Rows, a: nat): Plan
    requires Together(ps) && a < |ps| == |dones|
  {
    ps[a].(rest := map k | k in rows && !IsNodeOf(ps, dones, a, k) :: rows[k])
  }

  lemma {:induction false} SameSlots(p: Plan, rest: Rows, done: set<nat>, rows: Rows, j: nat)
    requires WellFormed(p) && WellFormed(p.(rest := rest)) && j < |p.chain|
    ensures SlotHolds(p.(rest := rest), done, rows, j) <==> SlotHolds(p, done, rows, j)
  {
  }

  lemma {:induction false} SameNodes(p: Plan, rest: Rows, done: set<nat>, k: nat)
    requires WellFormed(p) && WellFormed(p.(rest := rest))
    ensures InSomeSlot(p.(rest := rest), done, k) <==> InSomeSlot(p, done, k)
  {
    if InSomeSlot(p, done, k) {
      var j: nat :| j < |p.chain| && Node(p, done, j) == k;
      assert Node(p.(rest := rest), done, j) == k;
    }
    if InSomeSlot(p.(rest := rest), done, k) {
      var j: nat :| j < |p.chain| && Node(p.(rest := rest), done, j) == k;
      assert Node(p, done, j) == k;
    }
  }

  lemma {:induction false} NodeIsKey(p: Plan, done: set<nat>, k: nat)
    requires WellFormed(p) && InSomeSlot(p, done, k)
    ensures IsKeyOf(p, k)
  {
  }

  /** A row in a slot of one account is a stranger to every other account. */
  lemma {:induction false} SlotIsUnrelated(ps: seq<Plan>, dones: seq<set<nat>>, rows: Rows, a: nat, b: nat, k: nat)
    requires Together(ps) && |ps| == |dones| && a < |ps| && b < |ps| && a != b
    requires AccountHolds(ps, dones, rows, b) && IsNodeOf(ps, dones, b, k)
    ensures k in rows && !IsKeyOf(ps[a], k) && rows[k].account != ps[a].account
    ensures NoneOf(rows[k], ps[a].chain) && NoneOf(rows[k], ps[a].newIds)
  {
    var p, done := ps[b], dones[b];
    var j: nat :| j < |p.chain| && Node(p, done, j) == k;
    assert SlotHolds(p, done, rows, j);
    assert forall i: nat :: i < |p.chain| ==> IsKeyOf(p, Node(p, done, i));
  }

  /** At any time, an account and the rows beside it are a table of that account's own run. */
  lemma {:induction false} OneAccountHolds(ps: seq<Plan>, dones: seq<set<nat>>, others: Rows, rows: Rows, a: nat)
    requires Together(ps) && |ps| == |dones| && a < |ps|
    requires TablesAfter(ps, dones, others, rows)
    ensures WellFormed(WithOthers(ps, dones, rows, a)) && TableAfter(WithOthers(ps, dones, rows, a), dones[a], rows)
  {
    hide SlotHolds, NoneOf, IsKeyOf;
    var q := WithOthers(ps, dones, rows, a);
    assert AccountHolds(ps, dones, rows, a);
    forall k | k in q.rest
      ensures k !in q.chain && k !in q.newIds && q.rest[k].account != q.account && NoneOf(q.rest[k], q.chain)
    {
      KeysOf(ps[a], k);
      if k !in others {
        var b: nat :| b < |ps| && IsNodeOf(ps, dones, b, k);
        assert AccountHolds(ps, dones, rows, b);
        SlotIsUnrelated(ps, dones, rows, a, b, k);
      }
    }
    forall j: nat | j < |q.chain|
      ensures SlotHolds(q, dones[a], rows, j)
    {
      assert SlotHolds(ps[a], dones[a], rows, j);
      SameSlots(ps[a], q.rest, dones[a], rows, j);
    }
    forall k | k in rows && k !in q.rest
      ensures InSomeSlot(q, dones[a], k)
    {
      SameNodes(ps[a], q.rest, dones[a], k);
    }
  }

  lemma {:induction false} KeysOf(p: Plan, k: nat)
    ensures IsKeyOf(p, k) <==> k in p.chain || k in p.newIds
  {
  }

  /** After its turn, its slots are redone and all else is as it was. */
  lemma {:induction false} TurnEnds(ps: seq<Plan>, dones: seq<set<nat>>, others: Rows, before: Rows, a: nat,
                                  done: set<nat>,
                                    rows: Rows)
    requires Together(ps) && |ps| == |dones| && a < |ps| && dones[a] == {}
    requires TablesAfter(ps, dones, others, before)
    requires WellFormed(WithOthers(ps, dones, before, a)) && TableAfter(WithOthers(ps, dones, before, a), done, rows)
    ensures TablesAfter(ps, dones[a := done], others, rows)
  {
    hide SlotHolds, NoneOf, IsKeyOf, WellFormed, Unrelated;
    var q, after := WithOthers(ps, dones, before, a), dones[a := done];
    forall b: nat | b < |ps|
      ensures AccountHolds(ps, after, rows, b)
    {
      if a == b {
        forall j: nat | j < |q.chain|
          ensures SlotHolds(ps[a], done, rows, j)
        {
          assert SlotHolds(q, done, rows, j);
          SameSlots(ps[a], q.rest, done, rows, j);
        }
      } else {
        OtherAccountHolds(ps, dones, before, a, b, rows);
        assert forall j: nat {:trigger SlotHolds(ps[b], dones[b], rows, j)} ::
            j < |ps[b].chain| ==> SlotHolds(ps[b], dones[b], rows, j);
      }
    }
    forall k | k in others
      ensures k in rows && rows[k] == others[k] && Unrelated(ps, k, others[k])
    {
      OtherRowIsBeside(ps, dones, others, before, a, k);
    }
    forall k | k in rows && k !in others
      ensures exists b: nat :: b < |ps| && IsNodeOf(ps, after, b, k)
    {
      if k in q.rest {
        var b: nat :| b < |ps| && IsNodeOf(ps, dones, b, k);
        assert b != a;
        assert IsNodeOf(ps, after, b, k);
      } else {
        SameNodes(ps[a], q.rest, done, k);
        assert IsNodeOf(ps, after, a, k);
      }
    }
  }

  lemma {:induction false} OtherRowIsBeside(ps: seq<Plan>, dones: seq<set<nat>>, others: Rows, rows: Rows, a: nat,
                                  k: nat)
    requires Together(ps) && |ps| == |dones| && a < |ps| && TablesAfter(ps, dones, others, rows) && k in others
    ensures k in WithOthers(ps, dones, rows, a).rest && Unrelated(ps, k, others[k])
  {
    hide SlotHolds, NoneOf, IsKeyOf, WellFormed;
    if IsNodeOf(ps, dones, a, k) {
      NodeIsKey(ps[a], dones[a], k);
    }
  }

  lemma {:induction false} OtherAccountHolds(ps: seq<Plan>, dones: seq<set<nat>>, before: Rows, a: nat, b: nat,
                                  rows: Rows)
    requires Together(ps) && |ps| == |dones| && a < |ps| && b < |ps| && a != b && AccountHolds(ps, dones, before, b)
    requires forall k :: k in WithOthers(ps, dones, before, a).rest ==> k in rows && rows[k] == before[k]
    ensures AccountHolds(ps, dones, rows, b)
  {
    hide NoneOf, IsKeyOf, WellFormed;
    forall j: nat | j < |ps[b].chain|
      ensures SlotHolds(ps[b], dones[b], rows, j)
    {
      assert SlotHolds(ps[b], dones[b], before, j);
      var k := Node(ps[b], dones[b], j);
      assert InSomeSlot(ps[b], dones[b], k);
      NodeIsKey(ps[b], dones[b], k);
      if IsNodeOf(ps, dones, a, k) {
        NodeIsKey(ps[a], dones[a], k);
      }
    }
  }

  /** What the script has for one account: its snapshots to redo and the keys that the new rows will get,
      none where the creator makes no row. */
  datatype Job = Job(snapshots: seq<Snapshot>, newIds: seq<Option<nat>>)

  predicate Completes(job: Job) {
    FirstMissing(job.newIds) == |job.newIds|
  }

  /** The position of the first account that lacks a row, or how many there are. */
  function FirstFailing(jobs: seq<Job>): (n: nat)
    ensures n <= |jobs| && (forall a :: 0 <= a < n ==> Completes(jobs[a])) && (n < |jobs| ==> !Completes(jobs[n]))
  {
    if jobs == [] || !Completes(jobs[0]) then 0 else 1 + FirstFailing(jobs[1..])
  }

  lemma {:induction false} FailingIsUnique(jobs: seq<Job>, n: nat)
    requires n <= |jobs| && (forall a :: 0 <= a < n ==> Completes(jobs[a])) && (n < |jobs| ==> !Completes(jobs[n]))
    ensures FirstFailing(jobs) == n
  {
  }

  /** The job redoes the given slots, in ascending order, with snapshots read before the script began. */
  ghost predicate IsJob(job: Job, p: Plan, slots: seq<nat>)
    requires WellFormed(p) && |job.newIds| == |slots|
  {
    && |job.snapshots| == |slots|
    && (forall m, n :: 0 <= m < n < |slots| ==> slots[m] < slots[n])
    && forall m :: 0 <= m < |slots| ==>
         && slots[m] < |p.chain| && job.snapshots[m] == ReadBefore(p, slots[m])
         && (job.newIds[m].Some? ==> job.newIds[m].value == p.newIds[slots[m]])
  }

  /** The slots redone when the script ends: all of the accounts before the failing one, and of that one those
      before its missing row. */
  function SlotsDone(jobs: seq<Job>, slots: seq<seq<nat>>): seq<set<nat>>
    requires |jobs| == |slots| && forall a :: 0 <= a < |jobs| ==> |jobs[a].newIds| == |slots[a]|
  {
    var n := FirstFailing(jobs);
    if n == |jobs| then SlotsOf(slots, n)
    else SlotsOf(slots, n)[n := Slots(slots[n][..FirstMissing(jobs[n].newIds)])]
  }

  /** `redo_snapshots`: the loop over the accounts, which a missing row ends. */
  method RedoAllSnapshots(table: SnapshotTable, jobs: seq<Job>, ghost ps: seq<Plan>, ghost slots: seq<seq<nat>>,
                          ghost others: Rows)
      returns (r: Result<()>)
    requires |jobs| == |ps| == |slots| && Together(ps)
    requires TablesAfter(ps, SlotsOf(slots, 0), others, table.rows)
    requires forall a :: 0 <= a < |jobs| ==> |jobs[a].newIds| == |slots[a]| && IsJob(jobs[a], ps[a], slots[a])
    modifies table
    ensures TablesAfter(ps, SlotsDone(jobs, slots), others, table.rows)
    ensures r == if FirstFailing(jobs) == |jobs| then Ok(()) else Raised(AttributeError)
  {
    hide TablesAfter, TableAfter, WellFormed, FirstMissing, FirstFailing;
    for a := 0 to |jobs|
      invariant TablesAfter(ps, SlotsOf(slots, a), others, table.rows)
      invariant forall b :: 0 <= b < a ==> Completes(jobs[b])
    {
      ghost var dones := SlotsOf(slots, a);
      ghost var before := table.rows;
      OneAccountHolds(ps, dones, others, before, a);
      ghost var q := WithOthers(ps, dones, before, a);
      r := RedoSnapshots(table, jobs[a].snapshots, jobs[a].newIds, q, slots[a]);
      TurnEnds(ps, dones, others, before, a, Slots(slots[a][..FirstMissing(jobs[a].newIds)]), table.rows);
      if r.Raised? {
        FailingIsUnique(jobs, a);
        return;
      }
      assert slots[a][..|slots[a]|] == slots[a];
      assert dones[a := Slots(slots[a])] == SlotsOf(slots, a + 1);
    }
    FailingIsUnique(jobs, |jobs|);
    r := Ok(());
  }

  /** The slots redone in the first `n` accounts. */
  function SlotsOf(slots: seq<seq<nat>>, n: nat): (r: seq<set<nat>>)
    ensures |r| == |slots| && forall a :: 0 <= a < |r| ==> r[a] == if a < n then Slots(slots[a]) else {}
  {
    seq(|slots|, a requires 0 <= a < |slots| => if a < n then Slots(slots[a]) else {})
  }

  lemma {:induction false} OutsiderIsUnrelated(ps: seq<Plan>, rows: Rows, k: nat)
    requires Together(ps) && forall a :: 0 <= a < |ps| ==> IsWholeAccount(ps[a], rows)
    requires k in rows && !InSomeChain(ps, k)
    requires forall a :: 0 <= a < |ps| ==> k !in ps[a].newIds && rows[k].account != ps[a].account
    ensures Unrelated(ps, k, rows[k])
  {
    hide NoneOf, WellFormed;
    forall a: nat | a < |ps|
      ensures !IsKeyOf(ps[a], k) && NoneOf(rows[k], ps[a].chain)
    {
      assert IsWholeAccount(ps[a], rows);
    }
  }

  /** The tables before the script: every account's snapshots are a whole chain in time order, and the rows
      beside them belong to other accounts. */
  lemma {:induction false} ChainsAreFreshTables(ps: seq<Plan>, slots: seq<seq<nat>>, others: Rows, rows: Rows)
    requires Together(ps) && |ps| == |slots|
    requires forall a :: 0 <= a < |ps| ==> IsWholeAccount(ps[a], rows)
    requires forall k :: k in others <==> k in rows && !InSomeChain(ps, k)
    requires forall k :: k in others ==> others[k] == rows[k]
    requires forall a, k :: 0 <= a < |ps| && k in others ==> k !in ps[a].newIds && others[k].account != ps[a].account
    ensures TablesAfter(ps, SlotsOf(slots, 0), others, rows)
  {
    hide NoneOf, WellFormed, SlotHolds;
    var dones := SlotsOf(slots, 0);
    forall a: nat | a < |ps|
      ensures AccountHolds(ps, dones, rows, a)
    {
      assert IsWholeAccount(ps[a], rows);
      WholeAccountHolds(ps[a], rows);
    }
    forall k | k in others
      ensures Unrelated(ps, k, others[k])
    {
      OutsiderIsUnrelated(ps, rows, k);
    }
    forall k | k in rows && k !in others
      ensures exists a: nat :: a < |ps| && IsNodeOf(ps, dones, a, k)
    {
      var a: nat :| a < |ps| && k in ps[a].chain;
      var j: nat :| j < |ps[a].chain| && ps[a].chain[j] == k;
      assert Node(ps[a], dones[a], j) == k;
      assert IsNodeOf(ps, dones, a, k);
    }
  }

  ghost predicate InSomeChain(ps: seq<Plan>, k: nat) {
    exists a: nat :: a < |ps| && k in ps[a].chain
  }

  /** After the script, every account's snapshots form one whole chain if and only if no redone slot of it is
      followed by one that was not redone. */
  lemma {:induction false} AllWholeIffSuffixes(ps: seq<Plan>, dones: seq<set<nat>>, others: Rows, rows: Rows, a: nat)
    requires Together(ps) && |ps| == |dones| && a < |ps| && TablesAfter(ps, dones, others, rows)
    requires forall k :: k in others ==> NoneOf(others[k], ps[a].newIds)
    ensures Chain(rows, Nodes(ps[a], dones[a])) <==>
            forall j: nat :: j in dones[a] && j + 1 < |ps[a].chain| ==> j + 1 in dones[a]
  {
    hide SlotHolds, NoneOf, IsKeyOf, TableAfter, Chain;
    var q := WithOthers(ps, dones, rows, a);
    OneAccountHolds(ps, dones, others, rows, a);
    forall k | k in q.rest
      ensures NoneOf(q.rest[k], q.newIds)
    {
      if k !in others {
        var b: nat :| b < |ps| && IsNodeOf(ps, dones, b, k);
        SlotIsUnrelated(ps, dones, rows, a, b, k);
      }
    }
    RedoIsWholeIffSuffix(q, dones[a], rows);
    assert forall j: nat :: j < |q.chain| ==> Node(q, dones[a], j) == Node(ps[a], dones[a], j);
    assert Nodes(q, dones[a]) == Nodes(ps[a], dones[a]);
  }
}
