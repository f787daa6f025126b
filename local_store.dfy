/** The durable store: the SQLite table `gps_data`, whose `id` column is
    `INTEGER PRIMARY KEY AUTOINCREMENT`. Both variants use it through three
    operations: insert one sample, fetch every row, delete every row. */
module LocalStore {

  /** One row as `SELECT *` returns it: the synthetic id, then the sample's columns. */
  datatype Row<S> = Row(id: nat, sample: S)

  /** The samples held by `rows`, in row order. */
  function Samples<S>(rows: seq<Row<S>>): (s: seq<S>)
    ensures |s| == |rows|
    ensures forall i :: 0 <= i < |rows| ==> s[i] == rows[i].sample
  {
    if rows == [] then [] else Samples(rows[..|rows| - 1]) + [rows[|rows| - 1].sample]
  }

  /** Ids are strictly increasing in row order (AUTOINCREMENT never reuses an id). */
  predicate IdsIncreasing<S>(rows: seq<Row<S>>) {
    forall i, j :: 0 <= i < j < |rows| ==> rows[i].id < rows[j].id
  }

  class Store<S> {
    /** The table's rows, in insertion order. */
    var rows: seq<Row<S>>
    /** The id the next insertion receives. */
    var nextId: nat

    ghost predicate Valid()
      reads this
    {
      && IdsIncreasing(rows)
      && (forall i :: 0 <= i < |rows| ==> rows[i].id < nextId)
      && 0 < nextId
    }

    /** `CREATE TABLE IF NOT EXISTS`: a fresh table is empty; SQLite's first
        AUTOINCREMENT id is 1. */
    constructor ()
      ensures Valid()
      ensures rows == [] && nextId == 1
    {
      rows := [];
      nextId := 1;
    }

    /** `INSERT INTO gps_data ...`: appends one row carrying a new, larger id. */
    method Insert(s: S)
      requires Valid()
      modifies this
      ensures Valid()
      ensures rows == old(rows) + [Row(old(nextId), s)]
      ensures Samples(rows) == old(Samples(rows)) + [s]
      ensures nextId == old(nextId) + 1
    {
      rows := rows + [Row(nextId, s)];
      nextId := nextId + 1;
    }

    /** `SELECT * FROM gps_data`: every stored row, in insertion order. */
    method FetchAll() returns (result: seq<Row<S>>)
      requires Valid()
      ensures result == rows
      ensures IdsIncreasing(result)
    {
      result := rows;
    }

    /** `DELETE FROM gps_data`: removes every row; ids are not reused afterwards. */
    method DeleteAll()
      modifies this
      ensures rows == [] && nextId == old(nextId)
      ensures old(Valid()) ==> Valid()
    {
      rows := [];
    }
  }
}
