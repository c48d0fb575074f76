/** Surgery on the doubly linked chain of account snapshots (`replace_snapshot`, `relink_snapshot`
    and `redo_snapshots`) under cascading delete. */
module SnapshotChain {
  import opened Wrappers

  /** A snapshot row: both links are foreign keys with `on_delete=CASCADE`. */
  datatype Row = Row(account: int, time: int, last: Option<nat>, next: Option<nat>)

  /** A row as some Python object holds it, perhaps no longer as the table does. */
  datatype Snapshot = Snapshot(id: nat, row: Row)

  type Rows = map<nat, Row>

  predicate Refers(row: Row, ids: set<nat>) {
    (row.last.Some? && row.last.value in ids) || (row.next.Some? && row.next.value in ids)
  }

  // ---------- cascading delete ----------

  /** Everything that deleting `doomed` deletes with it. */
  function Doomed(rows: Rows, doomed: set<nat>): (r: set<nat>)
    ensures doomed <= r && r <= doomed + rows.Keys
    ensures forall k :: k in rows && Refers(rows[k], r) ==> k in r
    decreases rows.Keys - doomed
  {
    var more := doomed + set k | k in rows && Refers(rows[k], doomed);
    if more == doomed then
      assert forall k :: k in rows && Refers(rows[k], doomed) ==> k in more;
      doomed
    else Doomed(rows, more)
  }

  /** A delete stays within any set of rows that nothing outside refers to. */
  lemma {:induction false} DoomedIsLeast(rows: Rows, doomed: set<nat>, closed: set<nat>)
    requires doomed <= closed && forall k :: k in rows && Refers(rows[k], closed) ==> k in closed
    ensures Doomed(rows, doomed) <= closed
    decreases rows.Keys - doomed
  {
    var more := doomed + set k | k in rows && Refers(rows[k], doomed);
    if more != doomed {
      forall k | k in rows && Refers(rows[k], doomed)
        ensures k in closed
      {
        assert Refers(rows[k], closed);
      }
      DoomedIsLeast(rows, more, closed);
    }
  }

  // ---------- the chain ----------

  function IdAt(ids: seq<nat>, i: int): Option<nat> {
    if 0 <= i < |ids| then Some(ids[i]) else None
  }

  ghost predicate Distinct(ids: seq<nat>) {
    forall i, j :: 0 <= i < j < |ids| ==> ids[i] != ids[j]
  }

  predicate NoneOf(row: Row, ids: seq<nat>) {
    (row.last.Some? ==> row.last.value !in ids) && (row.next.Some? ==> row.next.value !in ids)
  }

  /** Row `ids[i]` links to its neighbours in `ids`. */
  predicate LinkedAt(rows: Rows, ids: seq<nat>, i: nat)
    requires i < |ids|
  {
    ids[i] in rows && rows[ids[i]].last == IdAt(ids, i - 1) && rows[ids[i]].next == IdAt(ids, i + 1)
  }

  /** `ids` is a doubly linked chain that no other row refers to. */
  ghost predicate Chain(rows: Rows, ids: seq<nat>) {
    && Distinct(ids) && (forall k :: k in ids ==> k in rows)
    && (forall i: nat {:trigger LinkedAt(rows, ids, i)} :: i < |ids| ==> LinkedAt(rows, ids, i))
    && forall k :: k in rows && k !in ids ==> NoneOf(rows[k], ids)
  }

  lemma {:induction false} DoomedUpwards(rows: Rows, ids: seq<nat>, d: set<nat>, i: nat, j: nat)
    requires Chain(rows, ids) && i <= j < |ids| && ids[i] in d
    requires forall k :: k in rows && Refers(rows[k], d) ==> k in d
    ensures ids[j] in d
  {
    if i < j {
      DoomedUpwards(rows, ids, d, i, j - 1);
      assert LinkedAt(rows, ids, j);
    }
  }

  lemma {:induction false} DoomedDownwards(rows: Rows, ids: seq<nat>, d: set<nat>, i: nat, j: nat)
    requires Chain(rows, ids) && j <= i < |ids| && ids[i] in d
    requires forall k :: k in rows && Refers(rows[k], d) ==> k in d
    ensures ids[j] in d
    decreases i - j
  {
    if j < i {
      DoomedDownwards(rows, ids, d, i, j + 1);
      assert LinkedAt(rows, ids, j);
    }
  }

  /** Why the old snapshot must be decoupled: deleting any row of a chain deletes the whole chain, and
      no other row. */
  lemma {:induction false} DeletePropagates(rows: Rows, ids: seq<nat>, i: nat)
    requires Chain(rows, ids) && i < |ids|
    ensures forall k :: k in Doomed(rows, {ids[i]}) <==> k in ids
  {
    var all := set j | 0 <= j < |ids| :: ids[j];
    var d := Doomed(rows, {ids[i]});
    forall k | k in rows && k !in ids
      ensures !Refers(rows[k], all)
    {
      assert NoneOf(rows[k], ids);
    }
    DoomedIsLeast(rows, {ids[i]}, all);
    forall j: nat | j < |ids|
      ensures ids[j] in d
    {
      if i <= j {
        DoomedUpwards(rows, ids, d, i, j);
      } else {
        DoomedDownwards(rows, ids, d, i, j);
      }
    }
  }

  // ---------- the surgery, on values ----------

  /** The row behind a foreign key; a deleted one raises and is taken as none. */
  function Fetch(rows: Rows, id: Option<nat>): Option<nat> {
    if id.Some? && id.value in rows then id else None
  }

  function Decoupled(rows: Rows, prior: Snapshot): Rows {
    var last, next := Fetch(rows, prior.row.last), Fetch(rows, prior.row.next);
    var r := if last.Some? then rows[last.value := rows[last.value].(next := None)] else rows;
    if next.Some? then r[next.value := rows[next.value].(last := None)] else r
  }

  function Replaced(rows: Rows, prior: Snapshot, redone: Snapshot): Rows {
    var r := Decoupled(rows, prior);
    (r - Doomed(r, {prior.id}))[redone.id := redone.row]
  }

  function Relinked(rows: Rows, redone: Snapshot): Rows {
    var last, next := Fetch(rows, redone.row.last), Fetch(rows, redone.row.next);
    var r := if last.Some? then rows[last.value := rows[last.value].(next := Some(redone.id))] else rows;
    if next.Some? then r[next.value := rows[next.value].(last := Some(redone.id))] else r
  }

  lemma {:induction false} NothingRefers(rows: Rows, id: nat)
    requires forall k :: k in rows ==> NoneOf(rows[k], [id])
    ensures Doomed(rows, {id}) == {id}
  {
  }

  /** The rows of a chain with slot `i` taken by `redone` and its two neighbours pointing there. */
  function Spliced(rows: Rows, ids: seq<nat>, i: nat, redone: Snapshot): Rows
    requires i < |ids|
  {
    (map k | k in rows && k != ids[i] ::
       if Some(k) == IdAt(ids, i - 1) then rows[k].(next := Some(redone.id))
       else if Some(k) == IdAt(ids, i + 1) then rows[k].(last := Some(redone.id))
       else rows[k])[redone.id := redone.row]
  }

  lemma {:induction false} DecoupledIsUnreferenced(rows: Rows, ids: seq<nat>, i: nat, k: nat)
    requires Chain(rows, ids) && i < |ids| && k in rows
    ensures var r := Decoupled(rows, Snapshot(ids[i], rows[ids[i]])); k in r && NoneOf(r[k], [ids[i]])
  {
    assert LinkedAt(rows, ids, i);
    if k in ids {
      var j: nat :| j < |ids| && ids[j] == k;
      assert LinkedAt(rows, ids, j);
    } else {
      assert NoneOf(rows[k], ids);
      if 0 < i {
        assert LinkedAt(rows, ids, i - 1);
      }
      if i + 1 < |ids| {
        assert LinkedAt(rows, ids, i + 1);
      }
    }
  }

  /** Once decoupled, the old row goes alone. */
  lemma {:induction false} SurgeryDeletesOne(rows: Rows, ids: seq<nat>, i: nat, redone: Snapshot)
    requires Chain(rows, ids) && i < |ids|
    ensures Replaced(rows, Snapshot(ids[i], rows[ids[i]]), redone)
            == (Decoupled(rows, Snapshot(ids[i], rows[ids[i]])) - {ids[i]})[redone.id := redone.row]
  {
    hide Doomed, NoneOf, Decoupled;
    var r := Decoupled(rows, Snapshot(ids[i], rows[ids[i]]));
    assert forall k :: k in r ==> k in rows by {
      DecoupledKeys(rows, Snapshot(ids[i], rows[ids[i]]));
    }
    forall k | k in r
      ensures NoneOf(r[k], [ids[i]])
    {
      DecoupledIsUnreferenced(rows, ids, i, k);
    }
    NothingRefers(r, ids[i]);
  }

  lemma {:induction false} DecoupledKeys(rows: Rows, prior: Snapshot)
    ensures Decoupled(rows, prior).Keys == rows.Keys
  {
  }

  lemma {:induction false} SurgerySplices(rows: Rows, ids: seq<nat>, i: nat, redone: Snapshot)
    requires Chain(rows, ids) && i < |ids| && redone.id !in rows
    requires redone.row.last == IdAt(ids, i - 1) && redone.row.next == IdAt(ids, i + 1)
    ensures Relinked(Replaced(rows, Snapshot(ids[i], rows[ids[i]]), redone), redone) == Spliced(rows, ids, i, redone)
  {
    hide Replaced, NoneOf;
    SurgeryDeletesOne(rows, ids, i, redone);
    assert LinkedAt(rows, ids, i);
    if 0 < i {
      assert LinkedAt(rows, ids, i - 1);
    }
    if i + 1 < |ids| {
      assert LinkedAt(rows, ids, i + 1);
    }
  }

  lemma {:induction false} SplicedLinks(rows: Rows, ids: seq<nat>, i: nat, redone: Snapshot, j: nat)
    requires Chain(rows, ids) && i < |ids| && redone.id !in rows && j < |ids|
    requires redone.row.last == IdAt(ids, i - 1) && redone.row.next == IdAt(ids, i + 1)
    ensures LinkedAt(Spliced(rows, ids, i, redone), ids[i := redone.id], j)
  {
    hide NoneOf;
    assert LinkedAt(rows, ids, j);
  }

  lemma {:induction false} SpliceKeepsChain(rows: Rows, ids: seq<nat>, i: nat, redone: Snapshot)
    requires Chain(rows, ids) && i < |ids| && redone.id !in rows
    requires forall k :: k in rows ==> NoneOf(rows[k], [redone.id])
    requires redone.row.last == IdAt(ids, i - 1) && redone.row.next == IdAt(ids, i + 1)
    ensures Chain(Spliced(rows, ids, i, redone), ids[i := redone.id])
  {
    hide NoneOf, Spliced;
    var after, ids' := Spliced(rows, ids, i, redone), ids[i := redone.id];
    forall j: nat | j < |ids|
      ensures LinkedAt(after, ids', j) && ids'[j] in after
    {
      SplicedLinks(rows, ids, i, redone, j);
    }
    assert forall j, k :: 0 <= j < k < |ids'| ==> ids'[j] != ids'[k];
    forall k | k in after && k !in ids'
      ensures NoneOf(after[k], ids')
    {
      SplicedElsewhere(rows, ids, i, redone, k);
    }
  }

  lemma {:induction false} SplicedElsewhere(rows: Rows, ids: seq<nat>, i: nat, redone: Snapshot, k: nat)
    requires Chain(rows, ids) && i < |ids| && redone.id !in rows
    requires k in Spliced(rows, ids, i, redone) && k !in ids[i := redone.id]
    requires k in rows ==> NoneOf(rows[k], [redone.id])
    ensures k in rows && k !in ids && Spliced(rows, ids, i, redone)[k] == rows[k]
    ensures NoneOf(rows[k], ids[i := redone.id])
  {
    var ids' := ids[i := redone.id];
    assert ids'[i] == redone.id;
    forall j | 0 <= j < |ids|
      ensures ids[j] != k
    {
      assert ids'[j] in ids';
    }
    assert NoneOf(rows[k], ids) && NoneOf(rows[k], [redone.id]);
    assert forall x :: x in ids' ==> x in ids || x == redone.id;
  }

  /** Every link of `row` names an existing row. */
  predicate LinksExist(row: Row, rows: Rows) {
    (row.last.Some? ==> row.last.value in rows) && (row.next.Some? ==> row.next.value in rows)
  }

  ghost predicate ForeignKeysHold(rows: Rows) {
    forall k :: k in rows ==> LinksExist(rows[k], rows)
  }

  lemma {:induction false} SplicedLinksExist(rows: Rows, ids: seq<nat>, i: nat, redone: Snapshot, k: nat)
    requires Chain(rows, ids) && i < |ids| && redone.id !in rows
    requires redone.row.last == IdAt(ids, i - 1) && redone.row.next == IdAt(ids, i + 1)
    requires k in Spliced(rows, ids, i, redone) && (k in rows ==> LinksExist(rows[k], rows))
    ensures LinksExist(Spliced(rows, ids, i, redone)[k], Spliced(rows, ids, i, redone))
  {
    assert LinkedAt(rows, ids, i);
    if k in ids {
      var j: nat :| j < |ids| && ids[j] == k;
      assert LinkedAt(rows, ids, j);
    } else if k != redone.id {
      assert NoneOf(rows[k], ids);
    }
  }

  /** When the new row carries the old one's neighbours and the old one is read fresh, replacing and
      relinking gives the same chain with the old slot taken by the new row, and touches nothing else. */
  lemma {:induction false} ReplaceRelinkKeepsChain(rows: Rows, ids: seq<nat>, i: nat, redone: Snapshot)
    requires Chain(rows, ids) && i < |ids| && redone.id !in rows
    requires ForeignKeysHold(rows)
    requires redone.row.last == IdAt(ids, i - 1) && redone.row.next == IdAt(ids, i + 1)
    ensures var after := Relinked(Replaced(rows, Snapshot(ids[i], rows[ids[i]]), redone), redone);
            && Chain(after, ids[i := redone.id]) && ForeignKeysHold(after)
            && after.Keys == rows.Keys - {ids[i]} + {redone.id}
            && (forall k :: k in rows && k !in ids ==> after[k] == rows[k])
            && after[redone.id] == redone.row
  {
    SurgerySplices(rows, ids, i, redone);
    forall k | k in rows
      ensures NoneOf(rows[k], [redone.id])
    {
      assert LinksExist(rows[k], rows);
    }
    SpliceKeepsChain(rows, ids, i, redone);
    forall k | k in Spliced(rows, ids, i, redone)
      ensures LinksExist(Spliced(rows, ids, i, redone)[k], Spliced(rows, ids, i, redone))
    {
      SplicedLinksExist(rows, ids, i, redone, k);
    }
  }

  /** The chain with each listed slot taken by its new row. */
  function Reslotted(ids: seq<nat>, slots: seq<nat>, newIds: seq<nat>): (r: seq<nat>)
    requires |slots| == |newIds| && forall m :: 0 <= m < |slots| ==> slots[m] < |ids|
    ensures |r| == |ids|
    ensures forall k :: k in r ==> k in ids || k in newIds
  {
    if slots == [] then ids
    else
      var m := |slots| - 1;
      Reslotted(ids, slots[..m], newIds[..m])[slots[m] := newIds[m]]
  }

  /** One redo: slot `i` is read fresh from the table, and the new row carries its current neighbours. */
  function RedoneOnce(rows: Rows, chain: seq<nat>, i: int, newId: nat): Rows
    requires 0 <= i < |chain|
  {
    if chain[i] !in rows then rows
    else
      var prior := Snapshot(chain[i], rows[chain[i]]);
      var redone := Snapshot(newId, Row(prior.row.account, prior.row.time, IdAt(chain, i - 1), IdAt(chain, i + 1)));
      Relinked(Replaced(rows, prior, redone), redone)
  }

  function RedoneFresh(rows: Rows, ids: seq<nat>, slots: seq<nat>, newIds: seq<nat>): Rows
    requires |slots| == |newIds| && forall m :: 0 <= m < |slots| ==> slots[m] < |ids|
  {
    if slots == [] then rows
    else
      var m := |slots| - 1;
      RedoneOnce(RedoneFresh(rows, ids, slots[..m], newIds[..m]),
                 Reslotted(ids, slots[..m], newIds[..m]), slots[m], newIds[m])
  }

  lemma {:induction false} RedoOnceKeepsChain(rows: Rows, chain: seq<nat>, i: nat, newId: nat)
    requires Chain(rows, chain) && ForeignKeysHold(rows) && i < |chain| && newId !in rows
    ensures var r := RedoneOnce(rows, chain, i, newId);
            && Chain(r, chain[i := newId]) && ForeignKeysHold(r)
            && (forall k :: k in r ==> k in rows || k == newId)
            && (forall k :: k in rows && k !in chain ==> k in r && r[k] == rows[k])
  {
    hide ForeignKeysHold, Relinked, Replaced;
    var prior := Snapshot(chain[i], rows[chain[i]]);
    var redone := Snapshot(newId, Row(prior.row.account, prior.row.time, IdAt(chain, i - 1), IdAt(chain, i + 1)));
    ReplaceRelinkKeepsChain(rows, chain, i, redone);
  }

  /** Redoing any slots, in any order and however often, keeps one whole chain throughout. */
  lemma {:induction false} RedoKeepsChain(rows: Rows, ids: seq<nat>, slots: seq<nat>, newIds: seq<nat>)
    requires Chain(rows, ids) && ForeignKeysHold(rows)
    requires |slots| == |newIds| && forall m :: 0 <= m < |slots| ==> slots[m] < |ids|
    requires Distinct(newIds) && forall m :: 0 <= m < |newIds| ==> newIds[m] !in rows
    ensures var r := RedoneFresh(rows, ids, slots, newIds);
            && Chain(r, Reslotted(ids, slots, newIds)) && ForeignKeysHold(r)
            && (forall k :: k in r ==> k in rows || k in newIds)
            && (forall k :: k in rows && k !in ids ==> k in r && r[k] == rows[k])
  {
    hide Chain, ForeignKeysHold, RedoneOnce;
    if slots != [] {
      var m := |slots| - 1;
      RedoKeepsChain(rows, ids, slots[..m], newIds[..m]);
      var before := RedoneFresh(rows, ids, slots[..m], newIds[..m]);
      var chain := Reslotted(ids, slots[..m], newIds[..m]);
      assert newIds == newIds[..m] + [newIds[m]];
      RedoOnceKeepsChain(before, chain, slots[m], newIds[m]);
      assert Reslotted(ids, slots, newIds) == chain[slots[m] := newIds[m]];
    }
  }
}
