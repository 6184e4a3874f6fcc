/**
 * pkg/detector/detector.go: choosing a table's time column. The column
 * catalog and the sampled rows are the answers of the queries the detector
 * sends; they are parameters here.
 */
module Detector {
  import opened Wrappers
  import opened Text
  import opened Client

  /** `TimeColumn`: the chosen column, its declared type, and whether it holds nanosecond epochs. */
  datatype TimeColumn = TimeColumn(name: string, typ: string, isUInt64: bool)

  datatype DetectError =
    | ColumnsQueryFailed(msg: string)   // "failed to query columns: ..."
    | NoTimeColumn                      // ErrNoTimeColumn

  datatype SampleError =
    | SampleQueryFailed(column: string, msg: string)   // "failed to sample column ...: ..."
    | NoDataToSample(column: string)                   // "no data to sample in column ..."

  /** Answers of the sampling query, per (database, table, column). */
  type Sampler = (string, string, string) -> QueryResult

  const DefaultCandidates: seq<string> := ["timestamp", "event_time", "created_at"]

  /** `nanoThreshold`, 1e17: above it a UInt64 value is read as nanoseconds since the epoch. */
  const NanoThreshold: int := 100_000_000_000_000_000

  const TwoTo64: int := 0x1_0000_0000_0000_0000

  // ----- the column catalog -----

  /** A catalog row's (name, type), when both fields are strings. */
  function CatalogEntry(row: Row): Option<(string, string)>
  {
    match (StringField(row, "name"), StringField(row, "type"))
    case (Some(n), Some(t)) => Some((n, t))
    case _ => None
  }

  /** The `columns` map built from the catalog rows: a later row with the same name overwrites. */
  function ColumnMap(rows: seq<Row>): map<string, string>
    decreases |rows|
  {
    if rows == [] then map[]
    else
      var m := ColumnMap(rows[..|rows| - 1]);
      match CatalogEntry(rows[|rows| - 1])
      case None => m
      case Some(e) => m[e.0 := e.1]
  }

  /** A name is in the map iff some well-formed row carries it. */
  lemma {:induction false} ColumnMapNames(rows: seq<Row>, n: string)
    ensures n in ColumnMap(rows) <==>
      exists i :: 0 <= i < |rows| && CatalogEntry(rows[i]).Some? && CatalogEntry(rows[i]).value.0 == n
    decreases |rows|
  {
    if rows != [] {
      var init := rows[..|rows| - 1];
      ColumnMapNames(init, n);
      assert forall i :: 0 <= i < |init| ==> init[i] == rows[i];
    }
  }

  /** A name's type is the one of the LAST well-formed row that carries it. */
  lemma {:induction false} ColumnMapLastWins(rows: seq<Row>, n: string)
    requires n in ColumnMap(rows)
    ensures exists i :: (0 <= i < |rows| && CatalogEntry(rows[i]) == Some((n, ColumnMap(rows)[n])) &&
      forall j :: i < j < |rows| ==> CatalogEntry(rows[j]).None? || CatalogEntry(rows[j]).value.0 != n)
    decreases |rows|
  {
    var init := rows[..|rows| - 1];
    var last := |rows| - 1;
    var e := CatalogEntry(rows[last]);
    if e.Some? && e.value.0 == n {
      assert CatalogEntry(rows[last]) == Some((n, ColumnMap(rows)[n]));
    } else {
      assert n in ColumnMap(init) && ColumnMap(rows)[n] == ColumnMap(init)[n];
      ColumnMapLastWins(init, n);
      var i :| 0 <= i < |init| && CatalogEntry(init[i]) == Some((n, ColumnMap(init)[n])) &&
        (forall j :: i < j < |init| ==> CatalogEntry(init[j]).None? || CatalogEntry(init[j]).value.0 != n);
      assert init[i] == rows[i];
      assert forall j :: i < j < |rows| ==> j == last || init[j] == rows[j];
    }
  }

  // ----- the two type tests -----

  /** `isDateTimeType`. */
  predicate IsDateTimeType(colType: string) {
    HasPrefix(colType, "DateTime") || HasPrefix(colType, "Date")
  }

  /** Testing "DateTime" first adds nothing: the test is "starts with Date". */
  lemma DateTimeTypeIsDatePrefix(colType: string)
    ensures IsDateTimeType(colType) <==> HasPrefix(colType, "Date")
  {
    if HasPrefix(colType, "DateTime") {
      assert colType[..4] == colType[..8][..4] == "Date";
    }
  }

  // ----- isNanoTimestamp -----

  /**
   * The type switch of `isNanoTimestamp` turning a sampled value into `numVal`:
   * only uint64, int64, uint32 and int32 values are converted (the converted
   * signed values wrap modulo 2^64, as Go's `uint64(v)` does); others are skipped.
   */
  function AsUint64(v: Value): (r: Option<int>)
    ensures r.Some? <==> v.VUInt64? || v.VInt64? || v.VUInt32? || v.VInt32?
    ensures r.Some? ==> 0 <= r.value < TwoTo64
    ensures v.VUInt64? ==> r == Some(v.u64 as int)
    ensures v.VUInt32? ==> r == Some(v.u32 as int)
    ensures v.VInt64? ==> r == Some(if v.i64 < 0 then TwoTo64 + v.i64 else v.i64)
    ensures v.VInt32? ==> r == Some(if v.i32 < 0 then TwoTo64 + v.i32 else v.i32)
  {
    match v
    case VUInt64(n) => Some(n as int)
    case VInt64(n) => Some(n % TwoTo64)
    case VUInt32(n) => Some(n as int)
    case VInt32(n) => Some(n % TwoTo64)
    case _ => None
  }

  /** A sampled row whose `column` value converts to a number above the threshold. */
  predicate IsNanoSample(row: Row, column: string)
  {
    column in row && AsUint64(row[column]).Some? && AsUint64(row[column]).value > NanoThreshold
  }

  /** What `isNanoTimestamp` answers for a sampling query's result. */
  function NanoCheck(column: string, sample: QueryResult): (r: Result<bool, SampleError>)
  {
    match sample
    case Err(e) => Err(SampleQueryFailed(column, e))
    case Ok(rows) =>
      if rows == [] then Err(NoDataToSample(column))
      else Ok(exists i :: 0 <= i < |rows| && IsNanoSample(rows[i], column))
  }

  /** `isNanoTimestamp`: scans the sampled rows, returning true at the first nanosecond value. */
  method IsNanoTimestamp(column: string, sample: QueryResult) returns (r: Result<bool, SampleError>)
    ensures r == NanoCheck(column, sample)
  {
    if sample.Err? {
      return Err(SampleQueryFailed(column, sample.error));
    }
    var rows := sample.value;
    if |rows| == 0 {
      return Err(NoDataToSample(column));
    }
    var i := 0;
    while i < |rows|
      invariant 0 <= i <= |rows|
      invariant forall j :: 0 <= j < i ==> !IsNanoSample(rows[j], column)
    {
      var row := rows[i];
      if column in row {
        var numVal := AsUint64(row[column]);
        if numVal.Some? && numVal.value > NanoThreshold {
          return Ok(true);
        }
      }
      i := i + 1;
    }
    return Ok(false);
  }

  /** Exactly 10^17 is not nanoseconds; one more is. */
  lemma NanoThresholdIsStrict(column: string, n: u64)
    ensures NanoCheck(column, Ok([map[column := VUInt64(n)]])) == Ok(n > NanoThreshold)
  {
    var rows := [map[column := VUInt64(n)]];
    assert IsNanoSample(rows[0], column) <==> n > NanoThreshold;
  }

  /**
   * Rows without the column, or whose value is not one of the converted
   * integer types, never change the answer of a non-empty sample.
   */
  lemma IgnoredRowsDoNotMatter(column: string, rows: seq<Row>, extra: Row)
    requires rows != []
    requires column !in extra || AsUint64(extra[column]).None?
    ensures NanoCheck(column, Ok(rows + [extra])) == NanoCheck(column, Ok(rows))
  {
    var all := rows + [extra];
    assert !IsNanoSample(all[|rows|], column);
    if exists i :: 0 <= i < |rows| && IsNanoSample(rows[i], column) {
      var i :| 0 <= i < |rows| && IsNanoSample(rows[i], column);
      assert IsNanoSample(all[i], column);
    }
    if exists i :: 0 <= i < |all| && IsNanoSample(all[i], column) {
      var i :| 0 <= i < |all| && IsNanoSample(all[i], column);
      assert i < |rows| && IsNanoSample(rows[i], column);
    }
  }

  // ----- DetectTimeColumn -----

  /** The candidate names in priority order: the caller's, or the three defaults. */
  function Candidates(preferred: seq<string>): (c: seq<string>)
    ensures |preferred| > 0 ==> c == preferred
    ensures |preferred| == 0 ==> c == ["timestamp", "event_time", "created_at"]
  {
    if |preferred| > 0 then preferred else DefaultCandidates
  }

  /** What the detector concludes about one candidate name. */
  function Probe(columns: map<string, string>, database: string, table: string,
                 name: string, sampleOf: Sampler): (r: Option<TimeColumn>)
    ensures r.Some? ==> name in columns && r.value.name == name && r.value.typ == columns[name]
  {
    if name !in columns then None
    else
      var t := columns[name];
      if IsDateTimeType(t) then Some(TimeColumn(name, t, false))
      else if HasPrefix(t, "UInt64") && NanoCheck(name, sampleOf(database, table, name)) == Ok(true)
      then Some(TimeColumn(name, t, true))
      else None
  }

  /** The first candidate from index `i` on that the probe accepts. */
  function FirstQualifying(columns: map<string, string>, database: string, table: string,
                           cands: seq<string>, i: nat, sampleOf: Sampler): Option<TimeColumn>
    requires i <= |cands|
    decreases |cands| - i
  {
    if i == |cands| then None
    else match Probe(columns, database, table, cands[i], sampleOf)
      case Some(c) => Some(c)
      case None => FirstQualifying(columns, database, table, cands, i + 1, sampleOf)
  }

  /** The result `DetectTimeColumn` returns, given the catalog query's answer. */
  function Detect(database: string, table: string, catalog: QueryResult,
                  preferred: seq<string>, sampleOf: Sampler): Result<TimeColumn, DetectError>
  {
    match catalog
    case Err(e) => Err(ColumnsQueryFailed(e))
    case Ok(rows) =>
      match FirstQualifying(ColumnMap(rows), database, table, Candidates(preferred), 0, sampleOf)
      case None => Err(NoTimeColumn)
      case Some(c) => Ok(c)
  }

  /** `DetectTimeColumn`: builds the name-to-type map, then tries the candidates in order. */
  method DetectTimeColumn(database: string, table: string, catalog: QueryResult,
                          preferred: seq<string>, sampleOf: Sampler)
    returns (r: Result<TimeColumn, DetectError>)
    ensures r == Detect(database, table, catalog, preferred, sampleOf)
  {
    if catalog.Err? {
      return Err(ColumnsQueryFailed(catalog.error));
    }
    var rows := catalog.value;
    var columns: map<string, string> := map[];
    var k := 0;
    while k < |rows|
      invariant 0 <= k <= |rows|
      invariant columns == ColumnMap(rows[..k])
    {
      assert rows[..k + 1][..k] == rows[..k];
      var row := rows[k];
      var name := StringField(row, "name");
      if name.Some? {
        var colType := StringField(row, "type");
        if colType.Some? {
          columns := columns[name.value := colType.value];
        }
      }
      k := k + 1;
    }
    assert rows[..|rows|] == rows;

    var candidates := if |preferred| > 0 then preferred else DefaultCandidates;
    var i := 0;
    while i < |candidates|
      invariant 0 <= i <= |candidates|
      invariant FirstQualifying(columns, database, table, candidates, 0, sampleOf)
             == FirstQualifying(columns, database, table, candidates, i, sampleOf)
    {
      var name := candidates[i];
      if name in columns {
        var colType := columns[name];
        if IsDateTimeType(colType) {
          return Ok(TimeColumn(name, colType, false));
        }
        if HasPrefix(colType, "UInt64") {
          var isNano := IsNanoTimestamp(name, sampleOf(database, table, name));
          if isNano.Ok? && isNano.value {
            return Ok(TimeColumn(name, colType, true));
          }
        }
      }
      i := i + 1;
    }
    return Err(NoTimeColumn);
  }

  // ----- properties of the choice -----

  /**
   * First match: the search returns `c` iff some candidate at index k is
   * accepted as `c` and every candidate before k (from `i`) is passed over.
   */
  lemma {:induction false} FirstQualifyingIsFirstAccepted(columns: map<string, string>, database: string,
      table: string, cands: seq<string>, i: nat, sampleOf: Sampler, c: TimeColumn)
    requires i <= |cands|
    ensures FirstQualifying(columns, database, table, cands, i, sampleOf) == Some(c) <==>
      exists k :: i <= k < |cands| && Probe(columns, database, table, cands[k], sampleOf) == Some(c) &&
        forall j :: i <= j < k ==> Probe(columns, database, table, cands[j], sampleOf).None?
    decreases |cands| - i
  {
    if i < |cands| {
      FirstQualifyingIsFirstAccepted(columns, database, table, cands, i + 1, sampleOf, c);
      var p := Probe(columns, database, table, cands[i], sampleOf);
      if p.None? {
        if exists k :: (i <= k < |cands| && Probe(columns, database, table, cands[k], sampleOf) == Some(c) &&
          forall j :: i <= j < k ==> Probe(columns, database, table, cands[j], sampleOf).None?) {
          var k :| i <= k < |cands| && Probe(columns, database, table, cands[k], sampleOf) == Some(c) &&
            forall j :: i <= j < k ==> Probe(columns, database, table, cands[j], sampleOf).None?;
          assert k != i;
        }
      } else if p == Some(c) {
        assert Probe(columns, database, table, cands[i], sampleOf) == Some(c);
      }
    }
  }

  /** Nothing is found iff every candidate is passed over. */
  lemma {:induction false} FirstQualifyingNone(columns: map<string, string>, database: string,
      table: string, cands: seq<string>, i: nat, sampleOf: Sampler)
    requires i <= |cands|
    ensures FirstQualifying(columns, database, table, cands, i, sampleOf).None? <==>
      forall k :: i <= k < |cands| ==> Probe(columns, database, table, cands[k], sampleOf).None?
    decreases |cands| - i
  {
    if i < |cands| {
      FirstQualifyingNone(columns, database, table, cands, i + 1, sampleOf);
    }
  }

  /**
   * A detected column is a candidate present in the catalog with the catalog's
   * type; it is a date type (`isUInt64` false), or a UInt64 column whose sample
   * held a nanosecond value (`isUInt64` true); and no earlier candidate qualified.
   */
  lemma DetectedColumnIsFirstQualifying(database: string, table: string, catalog: QueryResult,
      preferred: seq<string>, sampleOf: Sampler)
    requires Detect(database, table, catalog, preferred, sampleOf).Ok?
    ensures var c := Detect(database, table, catalog, preferred, sampleOf).value;
      var columns := ColumnMap(catalog.value);
      var cands := Candidates(preferred);
      && c.name in cands && c.name in columns && c.typ == columns[c.name]
      && (!c.isUInt64 <==> IsDateTimeType(c.typ))
      && (c.isUInt64 ==> HasPrefix(c.typ, "UInt64") && NanoCheck(c.name, sampleOf(database, table, c.name)) == Ok(true))
      && exists k :: 0 <= k < |cands| && cands[k] == c.name &&
           forall j :: 0 <= j < k ==> Probe(columns, database, table, cands[j], sampleOf).None?
  {
    var c := Detect(database, table, catalog, preferred, sampleOf).value;
    var columns := ColumnMap(catalog.value);
    var cands := Candidates(preferred);
    FirstQualifyingIsFirstAccepted(columns, database, table, cands, 0, sampleOf, c);
  }

  /** `ErrNoTimeColumn` is returned iff the catalog was read and no candidate qualifies. */
  lemma NotFoundIffNoneQualifies(database: string, table: string, catalog: QueryResult,
      preferred: seq<string>, sampleOf: Sampler)
    requires catalog.Ok?
    ensures Detect(database, table, catalog, preferred, sampleOf) == Err(NoTimeColumn) <==>
      forall k :: 0 <= k < |Candidates(preferred)| ==>
        Probe(ColumnMap(catalog.value), database, table, Candidates(preferred)[k], sampleOf).None?
  {
    FirstQualifyingNone(ColumnMap(catalog.value), database, table, Candidates(preferred), 0, sampleOf);
  }

  /**
   * A date-typed candidate wins over every candidate ranked after it: the
   * result is found at its index or before it.
   */
  lemma CalendarCandidateBoundsSearch(database: string, table: string, catalog: QueryResult,
      preferred: seq<string>, sampleOf: Sampler, k: nat)
    requires catalog.Ok?
    requires k < |Candidates(preferred)|
    requires Candidates(preferred)[k] in ColumnMap(catalog.value)
    requires IsDateTimeType(ColumnMap(catalog.value)[Candidates(preferred)[k]])
    ensures Detect(database, table, catalog, preferred, sampleOf).Ok?
    ensures exists j :: (0 <= j <= k &&
      Probe(ColumnMap(catalog.value), database, table, Candidates(preferred)[j], sampleOf)
        == Some(Detect(database, table, catalog, preferred, sampleOf).value))
  {
    var columns := ColumnMap(catalog.value);
    var cands := Candidates(preferred);
    FirstQualifyingNone(columns, database, table, cands, 0, sampleOf);
    assert Probe(columns, database, table, cands[k], sampleOf).Some?;
    var c := Detect(database, table, catalog, preferred, sampleOf).value;
    FirstQualifyingIsFirstAccepted(columns, database, table, cands, 0, sampleOf, c);
    var j :| 0 <= j < |cands| && Probe(columns, database, table, cands[j], sampleOf) == Some(c) &&
      forall i :: 0 <= i < j ==> Probe(columns, database, table, cands[i], sampleOf).None?;
  }

  /** A UInt64 candidate whose sampling fails is passed over, and the search goes on. */
  lemma SamplingFailureSkipsCandidate(columns: map<string, string>, database: string, table: string,
      name: string, sampleOf: Sampler)
    requires name in columns && HasPrefix(columns[name], "UInt64")
    requires NanoCheck(name, sampleOf(database, table, name)).Err?
    ensures Probe(columns, database, table, name, sampleOf).None?
  {
    DateTimeTypeIsDatePrefix(columns[name]);
    NotBoth(columns[name], "UInt64", "Date", 0);
  }

  /**
   * Worked scenario: the catalog has `timestamp UInt64`, the caller gives no
   * candidates, and the sample is 10, 20, 1.7e18; the column is detected as a
   * nanosecond epoch.
   */
  lemma DetectNanoExample(sampleOf: Sampler)
    requires sampleOf("db", "t", "timestamp") == Ok([map["timestamp" := VUInt64(10)],
      map["timestamp" := VUInt64(20)], map["timestamp" := VUInt64(1_700_000_000_000_000_000)]])
    ensures Detect("db", "t", Ok([map["name" := VString("timestamp"), "type" := VString("UInt64")]]), [], sampleOf)
         == Ok(TimeColumn("timestamp", "UInt64", true))
  {
    var rows := [map["name" := VString("timestamp"), "type" := VString("UInt64")]];
    assert CatalogEntry(rows[0]) == Some(("timestamp", "UInt64"));
    assert ColumnMap(rows) == map["timestamp" := "UInt64"];
    var sample := [map["timestamp" := VUInt64(10)], map["timestamp" := VUInt64(20)],
      map["timestamp" := VUInt64(1_700_000_000_000_000_000)]];
    assert IsNanoSample(sample[2], "timestamp");
    NotBoth("UInt64", "UInt64", "Date", 0);
    NotBoth("UInt64", "UInt64", "DateTime", 0);
    PrefixOfConcat("UInt64", "");
  }
}
