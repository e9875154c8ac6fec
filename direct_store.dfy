/** The local replica of the Direct objects, as the store the API manager reads and writes:
    rows keyed by table and id, their foreign keys, their `state`, and the history each save
    appends (the `HistoricalRecords` of direct/models.py). `change_id` (direct/api_manager.py)
    and `AdGroup.delete_direct` (direct/models.py) are the two operations on it that the
    reconciliation engine depends on. */
module DirectStore {
  import opened DirectCodec

  /** A row of a table: `Ref("AdGroup", 12)`. Ids below zero are placeholders for objects not
      yet created in Direct. */
  datatype Ref = Ref(table: string, id: int)

  /** The `history_type` of a historical record: `+`, `~` or `-`. */
  datatype HistoryType = Created | Changed | Removed

  /** One historical record: when it was written, why, and the row's fields then: `state`,
      `status`, its foreign keys (the historical models keep `campaign`, `ad_group` and the
      like as plain ids) and its other values. */
  datatype Snapshot = Snapshot(date: int, htype: HistoryType, state: string, status: string,
                               links: map<string, Ref>, values: map<string, Value>)

  /** A row: the account it belongs to (what each class's account filter selects), its foreign
      keys by field name, its `state` and `status`, its other values, and its history in the
      order it was written. */
  datatype Row = Row(owner: string, links: map<string, Ref>, state: string, status: string,
                     values: map<string, Value>, history: seq<Snapshot>)

  const DeleteState := "DELETE"

  /** The historical record a save writes. */
  function Record(row: Row, date: int, htype: HistoryType): Snapshot {
    Snapshot(date, htype, row.state, row.status, row.links, row.values)
  }

  /** `row.save()` at `now`: the row with its changed-record appended. */
  function Saved(row: Row, now: int): (r: Row)
    ensures r.history == row.history + [Record(row, now, Changed)]
    ensures r.(history := row.history) == row
  {
    row.(history := row.history + [Record(row, now, Changed)])
  }

  // ---------------------------------------------------------------- change_id

  /** Some foreign key of `row` points at `target`: `row` is one of target's related objects. */
  predicate LinksTo(row: Row, target: Ref) {
    exists l :: l in row.links && row.links[l] == target
  }

  /** The row with every foreign key to `from` pointed at `to`. */
  function Repoint(row: Row, from: Ref, to: Ref): (r: Row)
    ensures r.links.Keys == row.links.Keys
    ensures forall l :: l in row.links ==> r.links[l] == if row.links[l] == from then to else row.links[l]
    ensures r.(links := row.links) == row
  {
    row.(links := map l | l in row.links :: if row.links[l] == from then to else row.links[l])
  }

  /** What `change_id(obj, new_pk)` leaves: a copy of the object saved under the new id, every
      row that pointed at the object pointed at the copy, and the old row still in place. The
      history is a reverse relation too (`related_name='history'`), so the old row's records
      move to the copy and the old row is left without any. */
  function ChangedId(rows: map<Ref, Row>, obj: Ref, newPk: int, now: int): map<Ref, Row>
    requires obj in rows
  {
    var n := Ref(obj.table, newPk);
    var copied := rows[n := Copy(rows, obj, n, now)];
    var moved := if n == obj then copied else copied[obj := copied[obj].(history := [])];
    map r | r in moved :: if r in rows && LinksTo(rows[r], obj) then Repoint(moved[r], obj, n) else moved[r]
  }

  /** The object saved twice under the primary key `n`: first an insert, recorded as a
      creation, when no row has that key, and an update of that row otherwise; the object's
      own records, moved from the old key, come before the two saves. */
  function Copy(rows: map<Ref, Row>, obj: Ref, n: Ref, now: int): Row
    requires obj in rows
  {
    var row := rows[obj];
    var earlier := if n == obj || n !in rows then row.history else rows[n].history + row.history;
    var first := if n in rows then Changed else Created;
    row.(history := earlier + [Record(row, now, first), Record(row, now, Changed)])
  }

  /** `AdGroup.delete_direct`: the group, each of its text ads and each of its keywords marked
      `DELETE` and saved. */
  function MarkedDeleted(rows: map<Ref, Row>, group: Ref, now: int): map<Ref, Row> {
    map r | r in rows :: if MarkedWith(rows, group, r) then Saved(rows[r].(state := DeleteState), now) else rows[r]
  }

  predicate ChildOf(rows: map<Ref, Row>, group: Ref, r: Ref)
    requires r in rows
  {
    (r.table == "TextAd" || r.table == "Keyword") && "ad_group" in rows[r].links && rows[r].links["ad_group"] == group
  }

  predicate MarkedWith(rows: map<Ref, Row>, group: Ref, r: Ref)
    requires r in rows
  {
    r == group || ChildOf(rows, group, r)
  }

  // ---------------------------------------------------------------- query order

  /** No row is listed twice. */
  predicate Distinct(order: seq<Ref>) {
    forall i, j :: 0 <= i < j < |order| ==> order[i] != order[j]
  }

  /** `order` lists each row of `rows` once: the order in which a query returns them. */
  predicate Listed(rows: map<Ref, Row>, order: seq<Ref>) {
    Distinct(order) && (forall r :: r in order ==> r in rows) && (forall r :: r in rows ==> r in order)
  }

  /** The rows of `order` that are in `s`, in that order: what a filtered query returns. */
  function Select(order: seq<Ref>, s: set<Ref>): (r: seq<Ref>)
    ensures forall x :: x in r <==> x in order && x in s
    ensures Distinct(order) ==> Distinct(r)
    ensures |r| <= |order|
  {
    if order == [] then []
    else
      var rest := Select(order[1..], s);
      assert Distinct(order) ==> Distinct(order[1..]) && order[0] !in order[1..] by {
        if Distinct(order) {
          forall i, j | 0 <= i < j < |order[1..]| ensures order[1..][i] != order[1..][j] {
            assert order[1..][i] == order[i + 1] && order[1..][j] == order[j + 1];
          }
        }
      }
      if order[0] in s then [order[0]] + rest else rest
  }

  /** The rows of `order` that are not in `s`, in that order. */
  function Unselect(order: seq<Ref>, s: set<Ref>): (r: seq<Ref>)
    ensures forall x :: x in r <==> x in order && x !in s
    ensures Distinct(order) ==> Distinct(r)
  {
    Select(order, set x | x in order && x !in s)
  }

  /** The store without the rows of `s`. */
  function Without(rows: map<Ref, Row>, s: set<Ref>): (r: map<Ref, Row>)
    ensures r.Keys == rows.Keys - s
    ensures forall x :: x in r ==> r[x] == rows[x]
  {
    map x | x in rows && x !in s :: rows[x]
  }

  // ---------------------------------------------------------------- cascading deletes

  /** Some foreign key of `row` points at a row of `s`. */
  predicate LinksInto(row: Row, s: set<Ref>) {
    exists l :: l in row.links && row.links[l] in s
  }

  /** Every row of the store that points at a row of `s` is in `s`. */
  predicate Closed(rows: map<Ref, Row>, s: set<Ref>) {
    forall r :: r in rows && LinksInto(rows[r], s) ==> r in s
  }

  /** The rows a queryset `delete()` of `s` removes. Every foreign key of direct/models.py is
      `on_delete=CASCADE`, so a row that points at a deleted row is deleted too, and so on. */
  function Cascade(rows: map<Ref, Row>, s: set<Ref>): (d: set<Ref>)
    ensures s <= d && Closed(rows, d) && d - s <= rows.Keys
    decreases |rows.Keys - s|
  {
    var next := s + set r | r in rows && LinksInto(rows[r], s);
    if next == s then s
    else
      FewerLeft(rows.Keys, s, next);
      Cascade(rows, next)
  }

  /** Growing `s` inside `keys` leaves fewer keys outside it. */
  lemma FewerLeft(keys: set<Ref>, s: set<Ref>, next: set<Ref>)
    requires s <= next && next != s && next - s <= keys
    ensures |keys - next| < |keys - s|
  {
    assert !(next <= s);
    var x :| x in next && x !in s;
    assert keys - next <= (keys - s) - {x};
    SubsetCard(keys - next, (keys - s) - {x});
  }

  lemma {:induction false} SubsetCard(a: set<Ref>, b: set<Ref>)
    requires a <= b
    ensures |a| <= |b|
    decreases |b|
  {
    if a != {} {
      var x :| x in a;
      SubsetCard(a - {x}, b - {x});
    }
  }

  /** The cascade deletes no more than it must: it lies inside every set that holds `s` and
      every row pointing into it. */
  lemma {:induction false} CascadeLeast(rows: map<Ref, Row>, s: set<Ref>, t: set<Ref>)
    requires s <= t && Closed(rows, t)
    ensures Cascade(rows, s) <= t
    decreases |rows.Keys - s|
  {
    var next := s + set r | r in rows && LinksInto(rows[r], s);
    if next != s {
      assert next <= t by {
        forall r | r in rows && LinksInto(rows[r], s) ensures r in t {
          var l :| l in rows[r].links && rows[r].links[l] in s;
          assert LinksInto(rows[r], t);
        }
      }
      FewerLeft(rows.Keys, s, next);
      CascadeLeast(rows, next, t);
    }
  }

  /** When no row points into `s`, the cascade deletes `s` alone. */
  lemma CascadeNone(rows: map<Ref, Row>, s: set<Ref>)
    requires forall r :: r in rows ==> !LinksInto(rows[r], s)
    ensures Cascade(rows, s) == s
  {
    assert (s + set r | r in rows && LinksInto(rows[r], s)) == s;
  }

  /** Inserting a new key lists it last; replacing a row keeps the order. */
  lemma ListedInsert(rows: map<Ref, Row>, order: seq<Ref>, n: Ref, row: Row)
    requires Listed(rows, order)
    ensures Listed(rows[n := row], if n in rows then order else order + [n])
  {
    if n !in rows {
      var o := order + [n];
      forall i, j | 0 <= i < j < |o| ensures o[i] != o[j] {
        if j < |order| {
          assert o[i] == order[i] && o[j] == order[j];
        } else {
          assert o[i] == order[i] && order[i] in rows;
        }
      }
    }
  }

  /** The related rows re-pointed after the copy is saved: the store `ChangedId` describes. */
  lemma RepointedIsChangedId(rows: map<Ref, Row>, obj: Ref, newPk: int, now: int)
    requires obj in rows
    ensures var n := Ref(obj.table, newPk);
      var copied := rows[n := Copy(rows, obj, n, now)];
      var moved := if n == obj then copied else copied[obj := copied[obj].(history := [])];
      var related := set r | r in rows && LinksTo(rows[r], obj);
      (map r | r in moved :: if r in related then Repoint(moved[r], obj, n) else moved[r]) == ChangedId(rows, obj, newPk, now)
  {
  }

  /** A row with its foreign keys to `a` pointed at `a` is the same row. */
  lemma RepointSame(row: Row, a: Ref)
    ensures Repoint(row, a, a) == row
  {
    assert Repoint(row, a, a).links == row.links;
  }

  class Store {
    var rows: map<Ref, Row>
    /** The rows in the order the database returns them: the order they were inserted. */
    var order: seq<Ref>

    constructor(rows0: map<Ref, Row>, order0: seq<Ref>)
      requires Listed(rows0, order0)
      ensures rows == rows0 && order == order0
    {
      rows := rows0;
      order := order0;
    }

    /** `change_id`: the reverse relations are collected first, the object is saved under its
        new id, its historical records are moved to it, then each related row is pointed at
        it. A new key is inserted last. */
    method ChangeId(obj: Ref, newPk: int, now: int)
      requires obj in rows && Listed(rows, order)
      modifies this
      ensures rows == ChangedId(old(rows), obj, newPk, now)
      ensures order == if Ref(obj.table, newPk) in old(rows) then old(order) else old(order) + [Ref(obj.table, newPk)]
      ensures Listed(rows, order)
    {
      ghost var rows0 := rows;
      var related := set r | r in rows && LinksTo(rows[r], obj);
      var n := Ref(obj.table, newPk);
      var copy := Copy(rows, obj, n, now);
      ListedInsert(rows, order, n, copy);
      if n !in rows {
        order := order + [n];
      }
      rows := rows[n := copy];
      if n != obj {
        rows := rows[obj := rows[obj].(history := [])];
      }
      RepointEach(related, obj, n);
      RepointedIsChangedId(rows0, obj, newPk, now);
    }

    /** `getattr(obj, field_name).set(objects)` for each reverse relation: every row of `todo`
        has its foreign keys to `from` pointed at `to`. */
    method RepointEach(todo: set<Ref>, from: Ref, to: Ref)
      modifies this
      ensures rows == map r | r in old(rows) :: if r in todo then Repoint(old(rows)[r], from, to) else old(rows)[r]
      ensures order == old(order)
    {
      var rows0 := rows;
      var left := todo;
      while left != {}
        invariant left <= todo
        invariant rows.Keys == rows0.Keys && order == old(order)
        invariant forall r :: r in rows0 ==> rows[r] == if r in todo - left then Repoint(rows0[r], from, to) else rows0[r]
        decreases left
      {
        var r :| r in left;
        if r in rows {
          rows := rows[r := Repoint(rows[r], from, to)];
        }
        left := left - {r};
      }
    }

    /** A queryset `delete()` of the rows of `s`, which cascades to the rows pointing at them. */
    method DeleteRows(s: set<Ref>)
      requires Listed(rows, order)
      modifies this
      ensures rows == Without(old(rows), Cascade(old(rows), s)) && order == Unselect(old(order), Cascade(old(rows), s))
      ensures Listed(rows, order)
    {
      var gone := Cascade(rows, s);
      rows := Without(rows, gone);
      order := Unselect(order, gone);
    }

    /** `AdGroup.delete_direct` on the group `group`: the group is marked and saved, then each
        of its text ads, then each of its keywords. */
    method DeleteDirect(group: Ref, now: int)
      requires group in rows
      modifies this
      ensures rows == MarkedDeleted(old(rows), group, now) && order == old(order)
    {
      var rows0 := rows;
      rows := rows[group := Saved(rows[group].(state := DeleteState), now)];
      var ads := set r | r in rows0 && r != group && r.table == "TextAd" && ChildOf(rows0, group, r);
      MarkEach(ads, now);
      var keywords := set r | r in rows0 && r != group && r.table == "Keyword" && ChildOf(rows0, group, r);
      MarkEach(keywords, now);
    }

    /** Marking each row of `todo` for deletion and saving it. */
    method MarkEach(todo: set<Ref>, now: int)
      requires todo <= rows.Keys
      modifies this
      ensures rows == map r | r in old(rows) :: if r in todo then Saved(old(rows)[r].(state := DeleteState), now) else old(rows)[r]
      ensures order == old(order)
    {
      var rows0 := rows;
      var left := todo;
      while left != {}
        invariant left <= todo
        invariant rows.Keys == rows0.Keys && order == old(order)
        invariant forall r :: r in rows0 ==> rows[r] == if r in todo - left then Saved(rows0[r].(state := DeleteState), now) else rows0[r]
        decreases left
      {
        var r :| r in left;
        rows := rows[r := Saved(rows[r].(state := DeleteState), now)];
        left := left - {r};
      }
    }

    /** Setting the `status` of each row of `todo` and saving it. */
    method SaveStatus(todo: set<Ref>, status: string, now: int)
      modifies this
      ensures rows == StatusSaved(old(rows), todo, status, now) && order == old(order)
    {
      var rows0 := rows;
      var left := todo;
      while left != {}
        invariant left <= todo
        invariant rows.Keys == rows0.Keys && order == old(order)
        invariant forall r :: r in rows0 ==> rows[r] == if r in todo - left then Saved(rows0[r].(status := status), now) else rows0[r]
        decreases left
      {
        var r :| r in left;
        if r in rows {
          rows := rows[r := Saved(rows[r].(status := status), now)];
        }
        left := left - {r};
      }
    }
  }

  /** The rows of `todo` given `status` and saved; the rest as they were. */
  function StatusSaved(rows: map<Ref, Row>, todo: set<Ref>, status: string, now: int): map<Ref, Row> {
    map r | r in rows :: if r in todo then Saved(rows[r].(status := status), now) else rows[r]
  }

  // ---------------------------------------------------------------- properties

  /** After `change_id` the old row is still there, unchanged but for its own foreign keys
      and its history, which has moved to the new row; the store gains exactly the row of the
      new id. */
  lemma ChangedIdKeepsOldRow(rows: map<Ref, Row>, obj: Ref, newPk: int, now: int)
    requires obj in rows && newPk != obj.id
    ensures var rows' := ChangedId(rows, obj, newPk, now);
      && rows'.Keys == rows.Keys + {Ref(obj.table, newPk)}
      && obj in rows'
      && rows'[obj].(links := rows[obj].links, history := rows[obj].history) == rows[obj]
      && rows'[obj].history == []
  {
  }

  /** The row under the new id holds the object's values; its history is the records of the
      row it replaces, if any, then the object's own, then the two saves, the first a creation
      when the id was unused. */
  lemma ChangedIdCopies(rows: map<Ref, Row>, obj: Ref, newPk: int, now: int)
    requires obj in rows
    ensures var rows' := ChangedId(rows, obj, newPk, now); var n := Ref(obj.table, newPk);
      && n in rows'
      && rows'[n].owner == rows[obj].owner && rows'[n].state == rows[obj].state
      && rows'[n].status == rows[obj].status && rows'[n].values == rows[obj].values
      && rows'[n].history == (if n == obj || n !in rows then [] else rows[n].history) + rows[obj].history
                             + [Record(rows[obj], now, if n in rows then Changed else Created), Record(rows[obj], now, Changed)]
  {
  }

  /** Every row that pointed at the object points at the new id, and, but for the new row
      itself, no row points at the old one any more. */
  lemma ChangedIdMovesRelations(rows: map<Ref, Row>, obj: Ref, newPk: int, now: int)
    requires obj in rows && newPk != obj.id
    ensures var rows' := ChangedId(rows, obj, newPk, now); var n := Ref(obj.table, newPk);
      && (forall r :: r in rows && r != n && LinksTo(rows[r], obj) ==> LinksTo(rows'[r], n))
      && (forall r :: r in rows' && r != n ==> !LinksTo(rows'[r], obj))
  {
    var rows' := ChangedId(rows, obj, newPk, now);
    var n := Ref(obj.table, newPk);
    forall r | r in rows && r != n && LinksTo(rows[r], obj) ensures LinksTo(rows'[r], n) {
      var l :| l in rows[r].links && rows[r].links[l] == obj;
      assert rows'[r].links[l] == n;
    }
  }

  /** Remapping to an unused id, key by key: each foreign key to the object now points at the
      new row, every other key is kept, and the new row has the object's keys. */
  lemma ChangedIdPointwise(rows: map<Ref, Row>, obj: Ref, newPk: int, now: int)
    requires obj in rows && Ref(obj.table, newPk) !in rows
    ensures var rows' := ChangedId(rows, obj, newPk, now); var n := Ref(obj.table, newPk);
      && rows'.Keys == rows.Keys + {n}
      && rows'[n].links == rows[obj].links
      && forall r :: r in rows ==>
           && rows'[r].links.Keys == rows[r].links.Keys
           && forall l :: l in rows[r].links ==> rows'[r].links[l] == if rows[r].links[l] == obj then n else rows[r].links[l]
  {
    var rows' := ChangedId(rows, obj, newPk, now);
    var n := Ref(obj.table, newPk);
    forall r | r in rows
      ensures forall l :: l in rows[r].links ==> rows'[r].links[l] == if rows[r].links[l] == obj then n else rows[r].links[l]
    {
      if !LinksTo(rows[r], obj) {
        assert rows'[r].links == rows[r].links;
      }
    }
  }

  /** Only foreign keys change: each row but the object and the new one keeps its values,
      state and history. */
  lemma ChangedIdOnlyLinks(rows: map<Ref, Row>, obj: Ref, newPk: int, now: int)
    requires obj in rows
    ensures var rows' := ChangedId(rows, obj, newPk, now);
      forall r :: r in rows && r != Ref(obj.table, newPk) && r != obj ==> rows'[r].(links := rows[r].links) == rows[r]
  {
  }

  /** Remapping an object to its own id (what `update_objects` does with each id Direct
      returns) changes nothing but the object's history, which gains the two records of its
      saves. */
  lemma ChangedIdSameId(rows: map<Ref, Row>, obj: Ref, now: int)
    requires obj in rows
    ensures ChangedId(rows, obj, obj.id, now)
         == rows[obj := rows[obj].(history := rows[obj].history + [Record(rows[obj], now, Changed), Record(rows[obj], now, Changed)])]
  {
    var rows' := ChangedId(rows, obj, obj.id, now);
    var rec := Record(rows[obj], now, Changed);
    var copied := rows[obj := Copy(rows, obj, obj, now)];
    forall r | r in rows ensures rows'[r] == copied[r] {
      if LinksTo(rows[r], obj) {
        RepointSame(copied[r], obj);
      }
    }
  }

  /** `delete_direct` marks exactly the group, its text ads and its keywords, each with a
      record of the deletion written now; every other row is left as it was. */
  lemma MarkedDeletedMeaning(rows: map<Ref, Row>, group: Ref, now: int)
    requires group in rows
    ensures var rows' := MarkedDeleted(rows, group, now);
      && rows'.Keys == rows.Keys
      && rows'[group].state == DeleteState
      && (forall r :: r in rows && ChildOf(rows, group, r) ==> rows'[r].state == DeleteState)
      && (forall r :: r in rows && MarkedWith(rows, group, r) ==>
            rows'[r].history == rows[r].history + [Snapshot(now, Changed, DeleteState, rows[r].status, rows[r].links, rows[r].values)])
      && (forall r :: r in rows && !MarkedWith(rows, group, r) ==> rows'[r] == rows[r])
  {
  }
}
