/** A database table with an AUTO_INCREMENT primary key, as the plugin's
    custom tables declare it: the rows in insertion order, each with its id,
    and the counter that gives the next inserted row its id. */
module Tables {

  datatype Row<R> = Row(id: nat, data: R)

  datatype Table<R> = Table(rows: seq<Row<R>>, nextId: nat)

  /** Ids grow with the insertion order, so no two rows share an id. */
  ghost predicate IdsIncreasing<R>(rows: seq<Row<R>>)
  {
    forall i, j :: 0 <= i < j < |rows| ==> rows[i].id < rows[j].id
  }

  /** The auto-increment discipline: every id is positive and below the
      counter, the counter is
      positive, and ids increase with the insertion order. */
  ghost predicate AutoIncrement<R>(t: Table<R>)
  {
    && 1 <= t.nextId
    && IdsIncreasing(t.rows)
    && forall i :: 0 <= i < |t.rows| ==> 1 <= t.rows[i].id < t.nextId
  }

  /** A freshly created table: no rows, the counter at 1. */
  function Empty<R>(): (t: Table<R>)
    ensures t.rows == [] && AutoIncrement(t)
  {
    Table([], 1)
  }

  /** INSERT: the new row takes the counter's value as its id and goes after
      every existing row; the counter advances. */
  function Insert<R>(t: Table<R>, r: R): (u: Table<R>)
    ensures |u.rows| == |t.rows| + 1 && u.rows[..|t.rows|] == t.rows
    ensures u.rows[|t.rows|].data == r
    ensures AutoIncrement(t) ==> AutoIncrement(u)
    ensures AutoIncrement(t) ==> forall i :: 0 <= i < |t.rows| ==> t.rows[i].id != u.rows[|t.rows|].id
  {
    Table(t.rows + [Row(t.nextId, r)], t.nextId + 1)
  }
}
