/**
 * pkg/scanner/scanner.go: the client-side part of table discovery. The rows
 * of the `system.tables` query and, per table, of the `system.columns` query
 * are parameters; the filtering and de-duplication done on them is modelled.
 */
module Scanner {
  import opened Wrappers
  import opened Text
  import opened Client

  /** `TableInfo`. */
  datatype TableInfo = TableInfo(database: string, table: string, engine: string, timeColumns: seq<string>)

  /** Answers of the time-column query, per (database, table). */
  type ColumnsQuery = (string, string) -> QueryResult

  // ----- scanTimeColumns -----

  /** The `columns` list `scanTimeColumns` builds: string names, each kept at its first occurrence. */
  function DistinctNames(rows: seq<Row>): seq<string>
    decreases |rows|
  {
    if rows == [] then []
    else
      var prev := DistinctNames(rows[..|rows| - 1]);
      match StringField(rows[|rows| - 1], "name")
      case None => prev
      case Some(n) => if n in prev then prev else prev + [n]
  }

  /** `scanTimeColumns`: keeps the string names in row order, dropping repeats via the `seen` map. */
  method ScanTimeColumns(query: QueryResult) returns (r: Result<seq<string>, string>)
    ensures query.Err? ==> r == Err("query time columns failed: " + query.error)
    ensures query.Ok? ==> r == Ok(DistinctNames(query.value))
  {
    if query.Err? {
      return Err("query time columns failed: " + query.error);
    }
    var rows := query.value;
    var columns: seq<string> := [];
    var seen: map<string, bool> := map[];
    var i := 0;
    while i < |rows|
      invariant 0 <= i <= |rows|
      invariant columns == DistinctNames(rows[..i])
      invariant forall n :: n in seen <==> n in columns
      invariant forall n :: n in seen ==> seen[n]
    {
      assert rows[..i + 1][..i] == rows[..i];
      var name := StringField(rows[i], "name");
      if name.Some? && !(name.value in seen && seen[name.value]) {
        columns := columns + [name.value];
        seen := seen[name.value := true];
      }
      i := i + 1;
    }
    assert rows[..|rows|] == rows;
    return Ok(columns);
  }

  predicate NoDuplicates(s: seq<string>) {
    forall i, j :: 0 <= i < j < |s| ==> s[i] != s[j]
  }

  /** A row that carries `n` as its string name. */
  predicate Names(row: Row, n: string) {
    StringField(row, "name") == Some(n)
  }

  /** Of two listed names, the earlier one occurs in some row before every row carrying the later one. */
  predicate InFirstOccurrenceOrder(r: seq<string>, rows: seq<Row>) {
    forall a, b :: 0 <= a < b < |r| ==>
      exists p :: 0 <= p < |rows| && Names(rows[p], r[a]) &&
        forall q :: 0 <= q <= p ==> !Names(rows[q], r[b])
  }

  /** The list holds every string name of the rows and nothing else, without repeats. */
  lemma {:induction false} DistinctNamesMembers(rows: seq<Row>)
    ensures NoDuplicates(DistinctNames(rows))
    ensures forall n :: n in DistinctNames(rows) <==> exists i :: 0 <= i < |rows| && Names(rows[i], n)
    decreases |rows|
  {
    if rows != [] {
      var init := rows[..|rows| - 1];
      var last := rows[|rows| - 1];
      DistinctNamesMembers(init);
      forall n
        ensures n in DistinctNames(rows) <==> exists i :: 0 <= i < |rows| && Names(rows[i], n)
      {
        if Names(last, n) {
          assert Names(rows[|rows| - 1], n);
        }
        if exists i :: 0 <= i < |rows| && Names(rows[i], n) {
          var i :| 0 <= i < |rows| && Names(rows[i], n);
          if i < |rows| - 1 {
            assert Names(init[i], n);
          }
        }
        if exists i :: 0 <= i < |init| && Names(init[i], n) {
          var i :| 0 <= i < |init| && Names(init[i], n);
          assert Names(rows[i], n);
        }
      }
    }
  }

  /**
   * The names are listed in the order of first occurrence: of two listed
   * names, the earlier one occurs in some row before every row carrying the
   * later one.
   */
  lemma {:induction false} DistinctNamesOrder(rows: seq<Row>)
    ensures InFirstOccurrenceOrder(DistinctNames(rows), rows)
    decreases |rows|
  {
    if rows != [] {
      var init := rows[..|rows| - 1];
      var last := rows[|rows| - 1];
      DistinctNamesOrder(init);
      DistinctNamesMembers(init);
      var prev := DistinctNames(init);
      var r := DistinctNames(rows);
      forall a, b | 0 <= a < b < |r|
        ensures exists p :: (0 <= p < |rows| && Names(rows[p], r[a]) &&
          forall q :: 0 <= q <= p ==> !Names(rows[q], r[b]))
      {
        if b < |prev| {
          assert r[a] == prev[a] && r[b] == prev[b];
          var p :| 0 <= p < |init| && Names(init[p], prev[a]) &&
            forall q :: 0 <= q <= p ==> !Names(init[q], prev[b]);
          assert Names(rows[p], r[a]);
          assert forall q :: 0 <= q <= p ==> rows[q] == init[q];
        } else {
          var n := StringField(last, "name").value;
          assert r == prev + [n] && n !in prev;
          assert r[b] == n && r[a] == prev[a];
          assert prev[a] in prev;
          var p :| 0 <= p < |init| && Names(init[p], prev[a]);
          assert Names(rows[p], r[a]);
          assert forall q :: 0 <= q <= p ==> !Names(rows[q], r[b]) by {
            forall q | 0 <= q <= p ensures !Names(rows[q], r[b]) {
              assert rows[q] == init[q];
            }
          }
        }
      }
    }
  }


  // ----- ScanTables -----

  /** A catalog row's (database, table, engine), when all three fields are strings. */
  function TableRow(row: Row): Option<(string, string, string)>
  {
    match (StringField(row, "database"), StringField(row, "table"), StringField(row, "engine"))
    case (Some(d), Some(t), Some(e)) => Some((d, t, e))
    case _ => None
  }

  /** Inner tables of materialized views and system-named tables are skipped. */
  predicate Excluded(table: string) {
    HasPrefix(table, ".inner") || HasPrefix(table, "system")
  }

  /** A row that becomes an entry of the scan's result. */
  predicate Kept(row: Row) {
    TableRow(row).Some? && !Excluded(TableRow(row).value.1)
  }

  /** The time columns recorded for a table: none when their query failed. */
  function TimeColumnsFor(query: QueryResult): seq<string>
  {
    match query
    case Err(_) => []
    case Ok(rows) => DistinctNames(rows)
  }

  /** The entry a kept row becomes. */
  function TableOf(row: Row, columnsQuery: ColumnsQuery): (t: TableInfo)
    requires Kept(row)
    ensures (t.database, t.table, t.engine) == TableRow(row).value
    ensures columnsQuery(t.database, t.table).Err? ==> t.timeColumns == []
  {
    var (d, t, e) := TableRow(row).value;
    TableInfo(d, t, e, TimeColumnsFor(columnsQuery(d, t)))
  }

  /** The list `ScanTables` builds from the table rows. */
  function TablesOf(rows: seq<Row>, columnsQuery: ColumnsQuery): seq<TableInfo>
    decreases |rows|
  {
    if rows == [] then []
    else
      var prev := TablesOf(rows[..|rows| - 1], columnsQuery);
      var row := rows[|rows| - 1];
      if Kept(row) then prev + [TableOf(row, columnsQuery)] else prev
  }

  /** `ScanTables`: keeps the well-formed, non-excluded rows in order and attaches their time columns. */
  method ScanTables(query: QueryResult, columnsQuery: ColumnsQuery) returns (r: Result<seq<TableInfo>, string>)
    ensures query.Err? ==> r == Err("failed to scan tables: " + query.error)
    ensures query.Ok? ==> r == Ok(TablesOf(query.value, columnsQuery))
  {
    if query.Err? {
      return Err("failed to scan tables: " + query.error);
    }
    var rows := query.value;
    var tables: seq<TableInfo> := [];
    var i := 0;
    while i < |rows|
      invariant 0 <= i <= |rows|
      invariant tables == TablesOf(rows[..i], columnsQuery)
    {
      assert rows[..i + 1][..i] == rows[..i];
      var row := rows[i];
      var db := StringField(row, "database");
      var table := StringField(row, "table");
      var engine := StringField(row, "engine");
      if db.Some? && table.Some? && engine.Some?
         && !(HasPrefix(table.value, ".inner") || HasPrefix(table.value, "system")) {
        var timeColumns := ScanTimeColumns(columnsQuery(db.value, table.value));
        var cols := if timeColumns.Err? then [] else timeColumns.value;
        tables := tables + [TableInfo(db.value, table.value, engine.value, cols)];
      }
      i := i + 1;
    }
    assert rows[..|rows|] == rows;
    return Ok(tables);
  }

  /**
   * The result holds exactly the entries of the kept rows: no excluded or
   * malformed row contributes, and every kept row does.
   */
  lemma {:induction false} TablesOfMembers(rows: seq<Row>, columnsQuery: ColumnsQuery, t: TableInfo)
    ensures t in TablesOf(rows, columnsQuery) <==>
      exists i :: 0 <= i < |rows| && Kept(rows[i]) && t == TableOf(rows[i], columnsQuery)
    decreases |rows|
  {
    if rows != [] {
      var init := rows[..|rows| - 1];
      TablesOfMembers(init, columnsQuery, t);
      assert forall i :: 0 <= i < |init| ==> init[i] == rows[i];
      if exists i :: 0 <= i < |rows| && Kept(rows[i]) && t == TableOf(rows[i], columnsQuery) {
        var i :| 0 <= i < |rows| && Kept(rows[i]) && t == TableOf(rows[i], columnsQuery);
        if i < |init| {
          assert Kept(init[i]) && t == TableOf(init[i], columnsQuery);
        }
      }
    }
  }

  /** No table whose name starts with ".inner" or "system" is ever returned. */
  lemma NoExcludedTables(rows: seq<Row>, columnsQuery: ColumnsQuery)
    ensures forall t :: t in TablesOf(rows, columnsQuery) ==> !Excluded(t.table)
  {
    forall t | t in TablesOf(rows, columnsQuery)
      ensures !Excluded(t.table)
    {
      TablesOfMembers(rows, columnsQuery, t);
    }
  }

  /**
   * Output order follows row order: scanning a prefix of the rows yields a
   * prefix of the result, and at most one entry per row.
   */
  lemma {:induction false} TablesOfPrefix(rows: seq<Row>, columnsQuery: ColumnsQuery, k: nat)
    requires k <= |rows|
    ensures TablesOf(rows[..k], columnsQuery) <= TablesOf(rows, columnsQuery)
    ensures |TablesOf(rows, columnsQuery)| <= |rows|
    decreases |rows|
  {
    if rows != [] {
      var init := rows[..|rows| - 1];
      if k == |rows| {
        assert rows[..k] == rows;
        TablesOfPrefix(init, columnsQuery, |init|);
      } else {
        assert rows[..k] == init[..k];
        TablesOfPrefix(init, columnsQuery, k);
      }
    }
  }
}
