// The database as the model sees it through the mysqli connection: each
// table maps a row id to the row, and each table has its AUTO_INCREMENT
// counter. Only the effects of BaseModel's find/create/update/delete and
// of the few custom writes the domain models issue are modelled.
module Tables {
  import opened Wrappers
  import opened Php

  type Table = map<int, Dict>

  datatype Store = Store(tables: map<string, Table>, counters: map<string, int>)

  const EmptyStore: Store := Store(map[], map[])

  function TableOf(s: Store, t: string): Table
  {
    if t in s.tables then s.tables[t] else map[]
  }

  /** The id the next accepted insert into t receives; ids start at 1. */
  function NextId(s: Store, t: string): (id: int)
    ensures id >= 1
  {
    if t in s.counters && s.counters[t] >= 1 then s.counters[t] else 1
  }

  /** Every stored id lies below its table's counter, as AUTO_INCREMENT keeps it. */
  predicate Fresh(s: Store)
  {
    forall t, k :: t in s.tables && k in s.tables[t] ==> k < NextId(s, t)
  }

  /** The row with id k of table t. */
  function RowAt(s: Store, t: string, k: int): Option<Dict>
  {
    if k in TableOf(s, t) then Some(TableOf(s, t)[k]) else None
  }

  /** An accepted INSERT: the row, its new id under the key column, stored at the next id. */
  function Insert(s: Store, t: string, pk: string, row: Dict): Store
  {
    var id := NextId(s, t);
    Store(s.tables[t := TableOf(s, t)[id := Put(row, StrKey(pk), Int(id))]], s.counters[t := id + 1])
  }

  /** An accepted UPDATE of row k: each changed column takes its new value. */
  function UpdateRow(s: Store, t: string, k: int, changes: Dict): Store
  {
    if k in TableOf(s, t) then
      Store(s.tables[t := TableOf(s, t)[k := Assign(TableOf(s, t)[k], changes)]], s.counters)
    else s
  }

  /** An accepted DELETE of row k. */
  function DeleteRow(s: Store, t: string, k: int): Store
  {
    if t in s.tables then Store(s.tables[t := s.tables[t] - {k}], s.counters) else s
  }

  /** An accepted DELETE of every row the predicate selects. */
  function DeleteWhere(s: Store, t: string, selected: Dict -> bool): Store
  {
    if t in s.tables then
      Store(s.tables[t := map k | k in s.tables[t] && !selected(s.tables[t][k]) :: s.tables[t][k]], s.counters)
    else s
  }

  /**
   * An insert stores the row under the next id, with that id in its key
   * column, moves the counter past it, and leaves every other row as it
   * was; the counter invariant is kept.
   */
  lemma InsertRowAt(s: Store, t: string, pk: string, row: Dict)
    requires Fresh(s)
    ensures var s' := Insert(s, t, pk, row);
      RowAt(s', t, NextId(s, t)) == Some(Put(row, StrKey(pk), Int(NextId(s, t)))) &&
      NextId(s', t) == NextId(s, t) + 1 &&
      RowAt(s, t, NextId(s, t)).None? &&
      (forall t', k :: RowAt(s, t', k).Some? ==> RowAt(s', t', k) == RowAt(s, t', k)) &&
      Fresh(s')
  {
    var s' := Insert(s, t, pk, row);
    var id := NextId(s, t);
    forall t', k | t' in s'.tables && k in s'.tables[t']
      ensures k < NextId(s', t')
    {
      if t' != t {
        assert NextId(s', t') == NextId(s, t');
      }
    }
  }

  /**
   * An update changes only row k, and only the columns it names, keeping
   * the row's id; a missing row leaves the store as it was.
   */
  lemma UpdateRowAt(s: Store, t: string, k: int, changes: Dict)
    requires Fresh(s)
    ensures var s' := UpdateRow(s, t, k, changes);
      (RowAt(s, t, k).None? ==> s' == s) &&
      (RowAt(s, t, k).Some? ==> RowAt(s', t, k) == Some(Assign(RowAt(s, t, k).value, changes))) &&
      (forall t', k' :: t' != t || k' != k ==> RowAt(s', t', k') == RowAt(s, t', k')) &&
      Fresh(s')
  {
    var s' := UpdateRow(s, t, k, changes);
    if k in TableOf(s, t) {
      forall t', k' | t' in s'.tables && k' in s'.tables[t']
        ensures k' < NextId(s', t')
      {
        assert NextId(s', t') == NextId(s, t');
        assert k' in s.tables[t'];
      }
    }
  }

  /** After a delete row k is gone and every other row is as it was. */
  lemma DeleteRowAt(s: Store, t: string, k: int)
    requires Fresh(s)
    ensures var s' := DeleteRow(s, t, k);
      RowAt(s', t, k).None? &&
      (forall t', k' :: t' != t || k' != k ==> RowAt(s', t', k') == RowAt(s, t', k')) &&
      Fresh(s')
  {
    var s' := DeleteRow(s, t, k);
    forall t', k' | t' in s'.tables && k' in s'.tables[t']
      ensures k' < NextId(s', t')
    {
      assert NextId(s', t') == NextId(s, t');
      assert k' in s.tables[t'];
    }
  }

  /** A selective delete removes exactly the selected rows of t. */
  lemma DeleteWhereRowAt(s: Store, t: string, selected: Dict -> bool)
    ensures var s' := DeleteWhere(s, t, selected);
      (forall k :: RowAt(s', t, k) == if RowAt(s, t, k).Some? && !selected(RowAt(s, t, k).value)
                                      then RowAt(s, t, k) else None) &&
      (forall t', k :: t' != t ==> RowAt(s', t', k) == RowAt(s, t', k)) &&
      (Fresh(s) ==> Fresh(s'))
  {
    var s' := DeleteWhere(s, t, selected);
    if Fresh(s) && t in s.tables {
      forall t', k' | t' in s'.tables && k' in s'.tables[t']
        ensures k' < NextId(s', t')
      {
        assert NextId(s', t') == NextId(s, t');
        assert k' in s.tables[t'];
      }
    }
  }

  /** Accepted INSERTs of the rows into t, one after another. */
  function InsertRows(s: Store, t: string, pk: string, rows: seq<Dict>): Store
    decreases |rows|
  {
    if rows == [] then s
    else Insert(InsertRows(s, t, pk, rows[..|rows| - 1]), t, pk, rows[|rows| - 1])
  }

  /** One insert moves only its own table's counter, by one. */
  lemma InsertNext(s: Store, t: string, pk: string, row: Dict, t': string)
    ensures NextId(Insert(s, t, pk, row), t') == if t' == t then NextId(s, t) + 1 else NextId(s, t')
  {
  }

  /** One insert stores its row, holding the new id, at that id. */
  lemma InsertNew(s: Store, t: string, pk: string, row: Dict)
    ensures RowAt(Insert(s, t, pk, row), t, NextId(s, t)) == Some(Put(row, StrKey(pk), Int(NextId(s, t))))
  {
  }

  /** One insert touches only the row at its new id. */
  lemma InsertOther(s: Store, t: string, pk: string, row: Dict, t': string, k: int)
    requires t' != t || k != NextId(s, t)
    ensures RowAt(Insert(s, t, pk, row), t', k) == RowAt(s, t', k)
  {
  }

  /** Inserting rows one after another moves the counter by their number. */
  lemma {:induction false} InsertRowsNext(s: Store, t: string, pk: string, rows: seq<Dict>)
    ensures NextId(InsertRows(s, t, pk, rows), t) == NextId(s, t) + |rows|
    decreases |rows|
  {
    if rows != [] {
      InsertRowsNext(s, t, pk, rows[..|rows| - 1]);
      InsertNext(InsertRows(s, t, pk, rows[..|rows| - 1]), t, pk, rows[|rows| - 1], t);
    }
  }

  /** The last of a run of inserts stores its row at the id the run before it left next. */
  lemma InsertRowsLast(s: Store, t: string, pk: string, rows: seq<Dict>, mid: Store, last: Dict, id: int)
    requires rows != [] && mid == InsertRows(s, t, pk, rows[..|rows| - 1]) && last == rows[|rows| - 1]
    requires NextId(mid, t) == id
    ensures RowAt(InsertRows(s, t, pk, rows), t, id) == Some(Put(last, StrKey(pk), Int(id)))
  {
    InsertNew(mid, t, pk, last);
  }

  /** The last of a run of inserts keeps every other row the run before it left. */
  lemma InsertRowsKeepLast(s: Store, t: string, pk: string, rows: seq<Dict>, mid: Store, k: int)
    requires rows != [] && mid == InsertRows(s, t, pk, rows[..|rows| - 1])
    requires k != NextId(mid, t)
    ensures RowAt(InsertRows(s, t, pk, rows), t, k) == RowAt(mid, t, k)
  {
    InsertOther(mid, t, pk, rows[|rows| - 1], t, k);
  }

  /** The i-th of the inserted rows sits at the i-th id from the next id on, holding that id. */
  lemma {:induction false} InsertRowsAt(s: Store, t: string, pk: string, rows: seq<Dict>, i: int, id: int)
    requires 0 <= i < |rows| && id == NextId(s, t) + i
    ensures RowAt(InsertRows(s, t, pk, rows), t, id) == Some(Put(rows[i], StrKey(pk), Int(id)))
    decreases |rows|
  {
    var front := rows[..|rows| - 1];
    var mid := InsertRows(s, t, pk, front);
    InsertRowsNext(s, t, pk, front);
    if i < |front| {
      InsertRowsAt(s, t, pk, front, i, id);
      InsertRowsKeepLast(s, t, pk, rows, mid, id);
      assert front[i] == rows[i];
    } else {
      InsertRowsLast(s, t, pk, rows, mid, rows[|rows| - 1], id);
    }
  }

  /** Rows below the next id, and rows of other tables, are kept. */
  lemma {:induction false} InsertRowsKeep(s: Store, t: string, pk: string, rows: seq<Dict>, t': string, k: int)
    requires t' != t || k < NextId(s, t)
    ensures RowAt(InsertRows(s, t, pk, rows), t', k) == RowAt(s, t', k)
    decreases |rows|
  {
    if rows != [] {
      var front := rows[..|rows| - 1];
      InsertRowsKeep(s, t, pk, front, t', k);
      InsertRowsNext(s, t, pk, front);
      InsertOther(InsertRows(s, t, pk, front), t, pk, rows[|rows| - 1], t', k);
    }
  }

  /** The counter invariant survives a run of inserts. */
  lemma {:induction false} InsertRowsFresh(s: Store, t: string, pk: string, rows: seq<Dict>)
    requires Fresh(s)
    ensures Fresh(InsertRows(s, t, pk, rows))
    decreases |rows|
  {
    if rows != [] {
      var front := rows[..|rows| - 1];
      InsertRowsFresh(s, t, pk, front);
      InsertRowAt(InsertRows(s, t, pk, front), t, pk, rows[|rows| - 1]);
    }
  }

  /**
   * An update of an existing row gives each column it names the value
   * it assigns, when it names each column once.
   */
  lemma UpdatedColumn(s: Store, t: string, k: int, changes: Dict, col: Key)
    requires RowAt(s, t, k).Some? && UniqueKeys(changes) && HasKey(changes, col)
    ensures RowAt(UpdateRow(s, t, k, changes), t, k).Some?
    ensures Lookup(RowAt(UpdateRow(s, t, k, changes), t, k).value, col) == Lookup(changes, col)
  {
    AssignLookup(RowAt(s, t, k).value, changes, col);
    LastValueUnique(changes, col);
  }
}
