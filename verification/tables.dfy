/**
 * One relational table, as the controllers see it through the database
 * context: rows kept in primary-key order, plus the next value of the
 * identity column. `AsMap` is the abstract view (id -> columns) in which
 * the controllers' contracts are stated.
 */
module Tables {
  import opened Common

  /** A stored row: the identity column and the entity's other columns. */
  datatype Row<R> = Row(id: int, value: R)

  datatype Table<R> = Table(rows: seq<Row<R>>, nextId: int)

  /** Primary keys strictly ascending (the order listings are returned in). */
  ghost predicate Ascending<R>(rows: seq<Row<R>>)
  {
    forall i, j :: 0 <= i < j < |rows| ==> rows[i].id < rows[j].id
  }

  /** Keys ascending, all positive and below the next identity value. */
  ghost predicate WellFormed<R>(t: Table<R>)
  {
    && Ascending(t.rows)
    && 1 <= t.nextId
    && forall i :: 0 <= i < |t.rows| ==> 1 <= t.rows[i].id < t.nextId
  }

  /** The table as a map from primary key to the row's columns. */
  function AsMap<R>(rows: seq<Row<R>>): map<int, R>
  {
    if rows == [] then map[]
    else AsMap(rows[..|rows| - 1])[rows[|rows| - 1].id := rows[|rows| - 1].value]
  }

  lemma {:induction false} AsMapKeys<R>(rows: seq<Row<R>>, id: int)
    ensures id in AsMap(rows) <==> exists i :: 0 <= i < |rows| && rows[i].id == id
  {
    if rows != [] {
      var n := |rows| - 1;
      var init := rows[..n];
      AsMapKeys(init, id);
      if id in AsMap(rows) && id != rows[n].id {
        var i :| 0 <= i < |init| && init[i].id == id;
        assert rows[i].id == id;
      }
      if exists i :: 0 <= i < |rows| && rows[i].id == id {
        var i :| 0 <= i < |rows| && rows[i].id == id;
        if i < n {
          assert init[i].id == id;
        }
      }
    }
  }

  /** With ascending keys, the map sends each row's key to that row. */
  lemma {:induction false} AsMapAt<R>(rows: seq<Row<R>>, k: int)
    requires Ascending(rows) && 0 <= k < |rows|
    ensures rows[k].id in AsMap(rows) && AsMap(rows)[rows[k].id] == rows[k].value
  {
    var n := |rows| - 1;
    if k < n {
      AsMapAt(rows[..n], k);
    }
  }

  /** Keys are distinct, so the table holds as many rows as its map has keys. */
  lemma {:induction false} CountMatchesKeys<R>(rows: seq<Row<R>>)
    requires Ascending(rows)
    ensures |AsMap(rows)| == |rows|
  {
    if rows != [] {
      var n := |rows| - 1;
      CountMatchesKeys(rows[..n]);
      AsMapKeys(rows[..n], rows[n].id);
    }
  }

  lemma {:induction false} AsMapReplace<R>(rows: seq<Row<R>>, k: int, v: R)
    requires Ascending(rows) && 0 <= k < |rows|
    ensures AsMap(rows[k := Row(rows[k].id, v)]) == AsMap(rows)[rows[k].id := v]
  {
    var n := |rows| - 1;
    var rows' := rows[k := Row(rows[k].id, v)];
    if k == n {
      assert rows'[..n] == rows[..n];
    } else {
      AsMapReplace(rows[..n], k, v);
      assert rows'[..n] == rows[..n][k := Row(rows[k].id, v)];
    }
  }

  lemma {:induction false} AsMapRemove<R>(rows: seq<Row<R>>, k: int)
    requires Ascending(rows) && 0 <= k < |rows|
    ensures AsMap(rows[..k] + rows[k + 1..]) == AsMap(rows) - {rows[k].id}
  {
    var n := |rows| - 1;
    var rows' := rows[..k] + rows[k + 1..];
    if k == n {
      assert rows' == rows[..n];
      AsMapKeys(rows[..n], rows[n].id);
    } else {
      var init := rows[..n];
      AsMapRemove(init, k);
      assert rows'[..|rows'| - 1] == init[..k] + init[k + 1..];
      assert rows'[|rows'| - 1] == rows[n];
    }
  }

  function Empty<R>(): (t: Table<R>)
    ensures WellFormed(t) && AsMap(t.rows) == map[]
  {
    Table([], 1)
  }

  /** Add a row under the next identity value (`Add` + `SaveChanges`). */
  function Insert<R>(t: Table<R>, v: R): (t': Table<R>)
    requires WellFormed(t)
    ensures WellFormed(t')
    ensures t.nextId !in AsMap(t.rows)
    ensures AsMap(t'.rows) == AsMap(t.rows)[t.nextId := v]
    ensures |t'.rows| == |t.rows| + 1 && t'.nextId > t.nextId
  {
    AsMapKeys(t.rows, t.nextId);
    var rows' := t.rows + [Row(t.nextId, v)];
    assert rows'[..|rows'| - 1] == t.rows;
    Table(rows', t.nextId + 1)
  }

  /** Overwrite the columns of the row at position k (`Update` + `SaveChanges`). */
  function Replace<R>(t: Table<R>, k: int, v: R): (t': Table<R>)
    requires WellFormed(t) && 0 <= k < |t.rows|
    ensures WellFormed(t')
    ensures AsMap(t'.rows) == AsMap(t.rows)[t.rows[k].id := v]
    ensures |t'.rows| == |t.rows| && t'.nextId == t.nextId
  {
    AsMapReplace(t.rows, k, v);
    Table(t.rows[k := Row(t.rows[k].id, v)], t.nextId)
  }

  lemma RemoveKeepsWellFormed<R>(t: Table<R>, k: int)
    requires WellFormed(t) && 0 <= k < |t.rows|
    ensures WellFormed(Table(t.rows[..k] + t.rows[k + 1..], t.nextId))
  {
    var rows' := t.rows[..k] + t.rows[k + 1..];
    assert forall i :: 0 <= i < |rows'| ==> rows'[i] == if i < k then t.rows[i] else t.rows[i + 1];
  }

  /** Remove the row at position k (`Remove` + `SaveChanges`). */
  function Delete<R>(t: Table<R>, k: int): (t': Table<R>)
    requires WellFormed(t) && 0 <= k < |t.rows|
    ensures WellFormed(t')
    ensures AsMap(t'.rows) == AsMap(t.rows) - {t.rows[k].id}
    ensures |t'.rows| + 1 == |t.rows| && t'.nextId == t.nextId
  {
    AsMapRemove(t.rows, k);
    RemoveKeepsWellFormed(t, k);
    Table(t.rows[..k] + t.rows[k + 1..], t.nextId)
  }

  /** Find the position of the row with primary key `id` (`FindAsync`). */
  method Locate<R>(rows: seq<Row<R>>, id: int) returns (k: Option<nat>)
    ensures k.Some? <==> id in AsMap(rows)
    ensures k.Some? ==> k.value < |rows| && rows[k.value].id == id
  {
    AsMapKeys(rows, id);
    var i := 0;
    while i < |rows|
      invariant 0 <= i <= |rows|
      invariant forall j :: 0 <= j < i ==> rows[j].id != id
    {
      if rows[i].id == id {
        return Some(i);
      }
      i := i + 1;
    }
    return None;
  }
}
