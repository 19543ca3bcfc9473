/** Dictionaries filled by a replay that refuses to add a key twice. */
module ReplayTables {
  import opened Common

  type Id = string
  type Digest = string
  type Time = int

  function AddUnique<K, V>(table: map<K, V>, key: K, value: V): Result<map<K, V>>
  {
    if key in table then Raised else Ok(table[key := value])
  }

  function AddRow<K, V>(): (map<K, V>, (K, V)) -> Result<map<K, V>>
  {
    (table: map<K, V>, row: (K, V)) => AddUnique(table, row.0, row.1)
  }

  /** A loop of unique additions. */
  function AddRows<K, V>(table: map<K, V>, rows: seq<(K, V)>): Result<map<K, V>>
  {
    Fold(AddRow(), table, rows)
  }

  function RowMap<K, V>(rows: seq<(K, V)>): map<K, V>
  {
    if rows == [] then map[]
    else
      var last := rows[|rows| - 1];
      RowMap(rows[..|rows| - 1])[last.0 := last.1]
  }

  ghost predicate DistinctRows<K, V>(rows: seq<(K, V)>)
  {
    forall i, j :: 0 <= i < j < |rows| ==> rows[i].0 != rows[j].0
  }

  ghost predicate NewRows<K, V>(table: map<K, V>, rows: seq<(K, V)>)
  {
    forall i :: 0 <= i < |rows| ==> rows[i].0 !in table
  }

  lemma {:induction false} RowMapKeys<K, V>(rows: seq<(K, V)>)
    ensures forall key :: key in RowMap(rows) <==> exists i :: 0 <= i < |rows| && rows[i].0 == key
    ensures DistinctRows(rows) ==> forall i :: 0 <= i < |rows| ==> rows[i].0 in RowMap(rows) && RowMap(rows)[rows[i].0] == rows[i].1
  {
    if rows != [] {
      RowMapKeys(rows[..|rows| - 1]);
    }
  }

  /** Unique additions succeed exactly when all keys are new and pairwise different; then the rows
      are what was added. */
  lemma {:induction false} AddRowsExactly<K, V>(table: map<K, V>, rows: seq<(K, V)>)
    ensures AddRows(table, rows).Ok? <==> DistinctRows(rows) && NewRows(table, rows)
    ensures AddRows(table, rows).Ok? ==> AddRows(table, rows).value == table + RowMap(rows)
  {
    if rows != [] {
      var n := |rows| - 1;
      AddRowsExactly(table, rows[..n]);
      RowMapKeys(rows[..n]);
      if AddRows(table, rows[..n]).Ok? {
        AddedIsNew(table, rows, n);
      }
    }
  }

  lemma AddedIsNew<K, V>(table: map<K, V>, rows: seq<(K, V)>, n: nat)
    requires |rows| == n + 1 && DistinctRows(rows[..n]) && NewRows(table, rows[..n])
    ensures rows[n].0 !in table + RowMap(rows[..n]) <==> DistinctRows(rows) && NewRows(table, rows)
  {
    RowMapKeys(rows[..n]);
    if rows[n].0 !in table + RowMap(rows[..n]) {
      forall i, j | 0 <= i < j < |rows|
        ensures rows[i].0 != rows[j].0
      {
        assert rows[..n][i] == rows[i];
        if j < n {
          assert rows[..n][j] == rows[j];
        }
      }
      forall i | 0 <= i < |rows|
        ensures rows[i].0 !in table
      {
        if i < n {
          assert rows[..n][i] == rows[i];
        }
      }
    }
  }

  lemma {:induction false} AddRowsAppend<K, V>(table: map<K, V>, rows: seq<(K, V)>, more: seq<(K, V)>)
    requires AddRows(table, rows).Ok?
    ensures AddRows(table, rows + more) == AddRows(AddRows(table, rows).value, more)
  {
    if more == [] {
      assert rows + more == rows;
    } else {
      var n := |more| - 1;
      AddRowsAppend(table, rows, more[..n]);
      assert rows + more == (rows + more[..n]) + [more[n]];
      FoldSnoc(AddRow(), table, rows + more[..n], more[n]);
    }
  }
}
