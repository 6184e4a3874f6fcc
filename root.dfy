/**
 * cmd/root.go: the driver. After the configuration is validated, the
 * connection is opened and the tables are scanned, it asks for confirmation
 * (outside dry-run). It then processes the tables one by one: it detects
 * each table's time column and either records a skipped result or executes
 * the TTL statement. At the end it counts the outcomes. Everything the run
 * reads from outside is a `World`.
 */
module Cmd {
  import opened Wrappers
  import opened Text
  import opened Client
  import opened Config
  import opened Detector
  import opened Scanner
  import opened Executor
  import opened Reporter

  /** The answers the outside world gives the run. */
  datatype World = World(
    connectError: Option<string>,            // `client.NewClient` failing
    tablesQuery: QueryResult,                // the table catalog query
    columnsQuery: ColumnsQuery,              // the per-table time-column query
    confirm: string,                         // the line typed at the confirmation prompt
    catalogOf: (string, string) -> QueryResult,  // the detector's column catalog query
    sampleOf: Sampler)                       // the detector's sampling query

  /** Why `run` returns an error. */
  datatype RunError =
    | ConfigInvalid(cause: ConfigError)
    | ConnectFailed(msg: string)
    | ScanFailed(msg: string)
    | SomeTablesFailed

  /** What a run leaves behind: its error, the reporter's results, the statements sent, the pauses. */
  datatype RunReport = RunReport(
    err: Option<RunError>,
    results: seq<ExecutionResult>,
    sent: seq<string>,
    pausedAfter: seq<nat>)

  // ----- one table -----

  const NoTimeFieldReason: string := "未找到合适的时间字段"

  /** The skip reason: fixed when there were no candidates, otherwise it lists them. */
  function SkipReason(cols: seq<string>): string
  {
    if |cols| > 0 then "时间列 [" + Join(cols, ", ") + "] 验证失败" else NoTimeFieldReason
  }

  /** The fixed reason is given exactly when the table had no candidate columns. */
  lemma SkipReasonTellsWhy(cols: seq<string>)
    ensures SkipReason(cols) == NoTimeFieldReason <==> cols == []
    ensures cols != [] ==> HasPrefix(SkipReason(cols), "时间列 [" + Join(cols, ", "))
  {
    if cols != [] {
      assert SkipReason(cols)[0] != NoTimeFieldReason[0];
    }
  }

  /** The result recorded for a table whose detection failed. */
  function SkippedResult(t: TableInfo): ExecutionResult
  {
    ExecutionResult(t.database, t.table, "", "", "", false, None, true, SkipReason(t.timeColumns))
  }

  /** The detection outcome for table `t`, the scanner's time columns taken as preferred candidates. */
  function DetectFor(t: TableInfo, w: World): Result<TimeColumn, DetectError>
  {
    Detect(t.database, t.table, w.catalogOf(t.database, t.table), t.timeColumns, w.sampleOf)
  }

  /** The result recorded for table `t`. */
  function TableOutcome(t: TableInfo, w: World, days: int, dryRun: bool,
                        reply: string -> Option<string>): ExecutionResult
  {
    match DetectFor(t, w)
    case Err(_) => SkippedResult(t)
    case Ok(col) => ExecOutcome(t, col, days, dryRun, reply)
  }

  /** A table's result is skipped exactly when detection failed; a skipped one carries the reason. */
  lemma TableOutcomeSkipped(t: TableInfo, w: World, days: int, dryRun: bool,
                            reply: string -> Option<string>)
    ensures var r := TableOutcome(t, w, days, dryRun, reply);
      && r.database == t.database && r.table == t.table
      && (r.skipped <==> DetectFor(t, w).Err?)
      && (r.skipped ==> r.skipReason == SkipReason(t.timeColumns) && r.sql == "")
      && (!r.skipped ==> r.sql == GenerateTTLSQL(t.database, t.table, DetectFor(t, w).value, days))
  {
    if DetectFor(t, w).Ok? {
      ExecOutcomeFlags(t, DetectFor(t, w).value, days, dryRun, reply);
    }
  }

  /** The two cases of `TableOutcome`, by the detection outcome. */
  lemma TableOutcomeCases(t: TableInfo, w: World, days: int, dryRun: bool, reply: string -> Option<string>)
    ensures DetectFor(t, w).Err? ==> TableOutcome(t, w, days, dryRun, reply) == SkippedResult(t)
    ensures DetectFor(t, w).Ok? ==>
      TableOutcome(t, w, days, dryRun, reply) == ExecOutcome(t, DetectFor(t, w).value, days, dryRun, reply)
  {
  }

  // ----- the table loop -----

  /** `f` applied to every element, in order. */
  function Map<A, B>(xs: seq<A>, f: A -> B): seq<B>
  {
    seq(|xs|, k requires 0 <= k < |xs| => f(xs[k]))
  }

  lemma MapStep<A, B>(xs: seq<A>, i: nat, f: A -> B)
    requires i < |xs|
    ensures Map(xs[..i + 1], f) == Map(xs[..i], f) + [f(xs[i])]
  {
  }

  /** The results of the loop, one per table, in table order. */
  function Outcomes(tables: seq<TableInfo>, w: World, days: int, dryRun: bool,
                    reply: string -> Option<string>): seq<ExecutionResult>
  {
    Map(tables, t => TableOutcome(t, w, days, dryRun, reply))
  }

  /** The statement a result stands for: its SQL when it was sent, nothing when skipped or in dry-run. */
  function SentBy(r: ExecutionResult, dryRun: bool): seq<string>
  {
    if !dryRun && !r.skipped then [r.sql] else []
  }

  /** The pause after the result of table `i` of `n`: only after an executed table that is not the last. */
  function PauseAt(r: ExecutionResult, dryRun: bool, i: nat, n: nat): seq<nat>
  {
    if !dryRun && !r.skipped && i < n - 1 then [i] else []
  }

  /** The statements sent to the server: the SQL of every executed result, none in dry-run. */
  function Statements(results: seq<ExecutionResult>, dryRun: bool): seq<string>
    decreases |results|
  {
    if results == [] then []
    else Statements(results[..|results| - 1], dryRun) + SentBy(results[|results| - 1], dryRun)
  }

  /** The indices of the tables after which the loop pauses, `n` being the number of tables. */
  function Pauses(results: seq<ExecutionResult>, dryRun: bool, n: nat): seq<nat>
    decreases |results|
  {
    if results == [] then []
    else Pauses(results[..|results| - 1], dryRun, n) + PauseAt(results[|results| - 1], dryRun, |results| - 1, n)
  }

  /** `Outcomes` one table at a time. */
  lemma OutcomesStep(tables: seq<TableInfo>, i: nat, w: World, days: int, dryRun: bool,
                     reply: string -> Option<string>, r: ExecutionResult)
    requires i < |tables| && r == TableOutcome(tables[i], w, days, dryRun, reply)
    ensures Outcomes(tables[..i + 1], w, days, dryRun, reply) == Outcomes(tables[..i], w, days, dryRun, reply) + [r]
  {
    MapStep(tables, i, t => TableOutcome(t, w, days, dryRun, reply));
  }

  /**
   * Exactly one result per table, in table order: each names its table and is
   * skipped exactly when that table's detection failed.
   */
  lemma OneResultPerTable(tables: seq<TableInfo>, w: World, days: int, dryRun: bool,
                          reply: string -> Option<string>)
    ensures var rs := Outcomes(tables, w, days, dryRun, reply);
      && |rs| == |tables|
      && forall i :: 0 <= i < |tables| ==>
        && rs[i].database == tables[i].database && rs[i].table == tables[i].table
        && (rs[i].skipped <==> DetectFor(tables[i], w).Err?)
  {
    forall i | 0 <= i < |tables| {
      TableOutcomeSkipped(tables[i], w, days, dryRun, reply);
    }
  }

  /** `Statements` and `Pauses` one result at a time. */
  lemma RecordStep(results: seq<ExecutionResult>, r: ExecutionResult, dryRun: bool, n: nat)
    ensures Statements(results + [r], dryRun) == Statements(results, dryRun) + SentBy(r, dryRun)
    ensures Pauses(results + [r], dryRun, n) == Pauses(results, dryRun, n) + PauseAt(r, dryRun, |results|, n)
  {
    assert (results + [r])[..|results|] == results;
  }

  /**
   * The loop pauses after result i exactly when it is not a dry run, the
   * table was not skipped and it is not the last table.
   */
  lemma {:induction false} PausesBetweenTables(results: seq<ExecutionResult>, dryRun: bool, n: nat)
    ensures forall i :: i in Pauses(results, dryRun, n) <==>
      0 <= i < |results| && !dryRun && !results[i].skipped && i < n - 1
    decreases |results|
  {
    if results != [] {
      var k := |results| - 1;
      PausesBetweenTables(results[..k], dryRun, n);
      assert forall i :: 0 <= i < k ==> results[..k][i] == results[i];
    }
  }

  /** The pauses come in increasing table order. */
  lemma {:induction false} PausesIncrease(results: seq<ExecutionResult>, dryRun: bool, n: nat)
    ensures forall a, b :: 0 <= a < b < |Pauses(results, dryRun, n)| ==>
      Pauses(results, dryRun, n)[a] < Pauses(results, dryRun, n)[b]
    decreases |results|
  {
    if results != [] {
      var k := |results| - 1;
      var prev := Pauses(results[..k], dryRun, n);
      PausesIncrease(results[..k], dryRun, n);
      PausesBetweenTables(results[..k], dryRun, n);
      assert forall j :: 0 <= j < |prev| ==> prev[j] in prev;
      assert forall j :: 0 <= j < |prev| ==> prev[j] < k;
    }
  }


  /** In dry-run every result is either skipped or successful, so nothing fails. */
  lemma DryRunHasNoFailures(tables: seq<TableInfo>, w: World, days: int, reply: string -> Option<string>)
    ensures Tally(Outcomes(tables, w, days, true, reply)).failed == 0
    ensures Statements(Outcomes(tables, w, days, true, reply), true) == []
  {
    var rs := Outcomes(tables, w, days, true, reply);
    FailedResultsMatchTally(rs);
    if FailedResults(rs) != [] {
      var r := FailedResults(rs)[0];
      assert r in rs;
      var i :| 0 <= i < |rs| && rs[i] == r;
      TableOutcomeSkipped(tables[i], w, days, true, reply);
      if DetectFor(tables[i], w).Ok? {
        ExecOutcomeFlags(tables[i], DetectFor(tables[i], w).value, days, true, reply);
      }
      assert false;
    }
    NothingRecordedInDryRun(rs, |tables|);
  }

  /** In dry-run no statement is recorded as sent and no pause is taken. */
  lemma {:induction false} NothingRecordedInDryRun(results: seq<ExecutionResult>, n: nat)
    ensures Statements(results, true) == [] && Pauses(results, true, n) == []
    decreases |results|
  {
    if results != [] {
      NothingRecordedInDryRun(results[..|results| - 1], n);
    }
  }

  /** One pass of the loop body for table `i`: detect, then record a skipped result or execute. */
  method ProcessTable(tables: seq<TableInfo>, i: nat, w: World, days: int, exec: Executor, rep: Reporter)
    returns (result: ExecutionResult)
    requires i < |tables|
    modifies exec.client, rep
    ensures Outcomes(tables[..i + 1], w, days, exec.dryRun, exec.client.reply)
         == Outcomes(tables[..i], w, days, exec.dryRun, exec.client.reply) + [result]
    ensures rep.results == old(rep.results) + [result]
    ensures exec.client.sent == old(exec.client.sent) + SentBy(result, exec.dryRun)
  {
    var table := tables[i];
    var timeCol := DetectTimeColumn(table.database, table.table, w.catalogOf(table.database, table.table),
                                    table.timeColumns, w.sampleOf);
    TableOutcomeCases(table, w, days, exec.dryRun, exec.client.reply);
    if timeCol.Err? {
      result := SkippedResult(table);
    } else {
      result := exec.Execute(table, timeCol.value, days);
      ExecOutcomeFlags(table, timeCol.value, days, exec.dryRun, exec.client.reply);
    }
    rep.AddResult(result);
    OutcomesStep(tables, i, w, days, exec.dryRun, exec.client.reply, result);
  }

  /**
   * The `for i, table := range tables` loop: one result per table through
   * the reporter, the statements through the executor's connection, and the
   * pauses between tables.
   */
  method ProcessTables(tables: seq<TableInfo>, w: World, days: int, exec: Executor, rep: Reporter)
    returns (pausedAfter: seq<nat>)
    modifies exec.client, rep
    ensures rep.results == old(rep.results) + Outcomes(tables, w, days, exec.dryRun, exec.client.reply)
    ensures exec.client.sent
         == old(exec.client.sent) + Statements(Outcomes(tables, w, days, exec.dryRun, exec.client.reply), exec.dryRun)
    ensures pausedAfter == Pauses(Outcomes(tables, w, days, exec.dryRun, exec.client.reply), exec.dryRun, |tables|)
  {
    var reply := exec.client.reply;
    var dryRun := exec.dryRun;
    ghost var done: seq<ExecutionResult> := [];
    pausedAfter := [];
    var i := 0;
    while i < |tables|
      invariant 0 <= i <= |tables|
      invariant done == Outcomes(tables[..i], w, days, dryRun, reply)
      invariant rep.results == old(rep.results) + done
      invariant exec.client.sent == old(exec.client.sent) + Statements(done, dryRun)
      invariant pausedAfter == Pauses(done, dryRun, |tables|)
    {
      var result := ProcessTable(tables, i, w, days, exec, rep);
      RecordStep(done, result, dryRun, |tables|);
      done := done + [result];
      if !dryRun && !result.skipped && i < |tables| - 1 {
        pausedAfter := pausedAfter + [i];
      }
      i := i + 1;
    }
    assert tables[..|tables|] == tables;
  }

  // ----- the whole run -----

  /** What the run leaves behind once it reaches the table loop. */
  function LoopReport(tables: seq<TableInfo>, w: World, days: int, dryRun: bool,
                      reply: string -> Option<string>): RunReport
  {
    var results := Outcomes(tables, w, days, dryRun, reply);
    RunReport(if Tally(results).failed > 0 then Some(SomeTablesFailed) else None,
              results, Statements(results, dryRun), Pauses(results, dryRun, |tables|))
  }

  /** What `run` does, stage by stage. */
  function RunSpec(cfg: Config, w: World, reply: string -> Option<string>): RunReport
  {
    if Validate(cfg).Some? then RunReport(Some(ConfigInvalid(Validate(cfg).value)), [], [], [])
    else if w.connectError.Some? then RunReport(Some(ConnectFailed(w.connectError.value)), [], [], [])
    else if w.tablesQuery.Err? then
      RunReport(Some(ScanFailed("failed to scan tables: " + w.tablesQuery.error)), [], [], [])
    else
      var tables := TablesOf(w.tablesQuery.value, w.columnsQuery);
      if |tables| == 0 then RunReport(None, [], [], [])
      else if !cfg.dryRun && w.confirm != cfg.database then RunReport(None, [], [], [])
      else LoopReport(tables, w, cfg.retentionDays, cfg.dryRun, reply)
  }

  /** The part of `run` from the creation of the executor and reporter to the exit code. */
  method RunTables(cfg: Config, tables: seq<TableInfo>, w: World, cli: Connection) returns (report: RunReport)
    modifies cli
    requires cli.sent == []
    ensures report == LoopReport(tables, w, cfg.retentionDays, cfg.dryRun, cli.reply)
  {
    var exec := new Executor(cli, cfg.dryRun, cfg.verbose);
    var rep := new Reporter(cfg.verbose, cfg.dryRun);
    assert exec.client == cli && exec.dryRun == cfg.dryRun && rep.results == [] && cli.sent == [];
    ghost var results := Outcomes(tables, w, cfg.retentionDays, cfg.dryRun, cli.reply);
    var pausedAfter := ProcessTables(tables, w, cfg.retentionDays, exec, rep);
    assert rep.results == results;
    assert cli.sent == Statements(results, cfg.dryRun);
    assert pausedAfter == Pauses(results, cfg.dryRun, |tables|);
    var summary := rep.PrintSummary();
    assert summary == Tally(results);
    var err := if summary.failed > 0 then Some(SomeTablesFailed) else None;
    return RunReport(err, rep.GetResults(), cli.sent, pausedAfter);
  }

  /** `run`: the connection it opens answers statements with `reply`. */
  method Run(cfg: Config, w: World, reply: string -> Option<string>) returns (report: RunReport)
    ensures report == RunSpec(cfg, w, reply)
  {
    var invalid := Validate(cfg);
    if invalid.Some? {
      return RunReport(Some(ConfigInvalid(invalid.value)), [], [], []);
    }
    if w.connectError.Some? {
      return RunReport(Some(ConnectFailed(w.connectError.value)), [], [], []);
    }
    var cli := new Connection(reply);
    var tables := ScanTables(w.tablesQuery, w.columnsQuery);
    if tables.Err? {
      return RunReport(Some(ScanFailed(tables.error)), [], [], []);
    }
    if |tables.value| == 0 {
      return RunReport(None, [], [], []);
    }
    if !cfg.dryRun && w.confirm != cfg.database {
      return RunReport(None, [], [], []);
    }
    report := RunTables(cfg, tables.value, w, cli);
  }

  /** An invalid configuration stops the run before any connection, scan or statement. */
  lemma InvalidConfigAborts(cfg: Config, w: World, reply: string -> Option<string>)
    requires !Valid(cfg)
    ensures RunSpec(cfg, w, reply) == RunReport(Some(ConfigInvalid(Validate(cfg).value)), [], [], [])
  {
  }

  /** With no tables, or with a wrong confirmation outside dry-run, the run ends cleanly having done nothing. */
  lemma NothingToDoEndsCleanly(cfg: Config, w: World, reply: string -> Option<string>)
    requires Valid(cfg) && w.connectError.None? && w.tablesQuery.Ok?
    requires TablesOf(w.tablesQuery.value, w.columnsQuery) == [] || (!cfg.dryRun && w.confirm != cfg.database)
    ensures RunSpec(cfg, w, reply) == RunReport(None, [], [], [])
  {
  }

  /** The run reports failure for its tables exactly when the summary counts a failed table. */
  lemma FailsIffSomeTableFailed(cfg: Config, w: World, reply: string -> Option<string>)
    ensures var rep := RunSpec(cfg, w, reply);
      rep.err == Some(SomeTablesFailed) <==> Tally(rep.results).failed > 0
  {
    var rep := RunSpec(cfg, w, reply);
    if rep.results == [] {
      assert Tally([]).failed == 0;
    }
  }

  /** A dry run sends no statement, never pauses and never reports failed tables. */
  lemma DryRunSendsNothing(cfg: Config, w: World, reply: string -> Option<string>)
    requires cfg.dryRun
    ensures var rep := RunSpec(cfg, w, reply);
      rep.sent == [] && rep.pausedAfter == [] && rep.err != Some(SomeTablesFailed)
  {
    if Valid(cfg) && w.connectError.None? && w.tablesQuery.Ok? {
      var tables := TablesOf(w.tablesQuery.value, w.columnsQuery);
      DryRunHasNoFailures(tables, w, cfg.retentionDays, reply);
      var rs := Outcomes(tables, w, cfg.retentionDays, true, reply);
      NothingRecordedInDryRun(rs, |tables|);
    }
  }

  // ----- printTablesSummary -----

  /** Byte-wise truncation: longer than `width` becomes the first `keep` bytes and "...". */
  function Truncate(s: string, width: nat, keep: nat): string
    requires keep <= width
  {
    if |s| > width then s[..keep] + "..." else s
  }

  /** With room for the ellipsis, the text fits the column, and is unchanged exactly when it already fit. */
  lemma TruncateFits(s: string, width: nat, keep: nat)
    requires keep + 3 <= width
    ensures |Truncate(s, width, keep)| <= width
    ensures Truncate(s, width, keep) == s <==> |s| <= width
    ensures |s| > width ==> HasPrefix(s, Truncate(s, width, keep)[..keep])
  {
  }

  /** The name and engine widths of the summary table. */
  const NameWidth: nat := 37
  const NameKeep: nat := 34
  const EngineWidth: nat := 17
  const EngineKeep: nat := 14

  /** One line of the table summary: name, engine, time columns. */
  datatype SummaryRow = SummaryRow(name: string, engine: string, timeColumns: string)

  function SummaryRowOf(t: TableInfo): SummaryRow
  {
    SummaryRow(Truncate(t.table, NameWidth, NameKeep), Truncate(t.engine, EngineWidth, EngineKeep),
               if |t.timeColumns| > 0 then Join(t.timeColumns, ", ") else "无")
  }

  /** Number of tables with at least one time column. */
  function CountWithTime(tables: seq<TableInfo>): nat
    decreases |tables|
  {
    if tables == [] then 0
    else CountWithTime(tables[..|tables| - 1]) + (if |tables[|tables| - 1].timeColumns| > 0 then 1 else 0)
  }

  /** The count reaches the total exactly when every table has time columns. */
  lemma {:induction false} CountWithTimeAll(tables: seq<TableInfo>)
    ensures CountWithTime(tables) <= |tables|
    ensures CountWithTime(tables) == |tables| <==> forall t :: t in tables ==> t.timeColumns != []
    decreases |tables|
  {
    if tables != [] {
      var init := tables[..|tables| - 1];
      CountWithTimeAll(init);
      assert tables == init + [tables[|tables| - 1]];
      assert forall t :: t in tables <==> t in init || t == tables[|tables| - 1];
    }
  }

  /** The count is zero exactly when no table has time columns. */
  lemma {:induction false} CountWithTimeNone(tables: seq<TableInfo>)
    ensures CountWithTime(tables) == 0 <==> forall t :: t in tables ==> t.timeColumns == []
    decreases |tables|
  {
    if tables != [] {
      var init := tables[..|tables| - 1];
      CountWithTimeNone(init);
      assert tables == init + [tables[|tables| - 1]];
      assert forall t :: t in tables <==> t in init || t == tables[|tables| - 1];
    }
  }

  /** `printTablesSummary`: the printed rows and the count of tables with time columns. */
  method TablesSummary(tables: seq<TableInfo>) returns (rows: seq<SummaryRow>, tablesWithTime: nat)
    ensures |rows| == |tables|
    ensures forall i :: 0 <= i < |tables| ==> rows[i] == SummaryRowOf(tables[i])
    ensures tablesWithTime == CountWithTime(tables)
  {
    rows := [];
    tablesWithTime := 0;
    var i := 0;
    while i < |tables|
      invariant 0 <= i <= |tables|
      invariant |rows| == i
      invariant forall k :: 0 <= k < i ==> rows[k] == SummaryRowOf(tables[k])
      invariant tablesWithTime == CountWithTime(tables[..i])
    {
      assert tables[..i + 1][..i] == tables[..i];
      var table := tables[i];
      var timeColsStr := "无";
      if |table.timeColumns| > 0 {
        timeColsStr := Join(table.timeColumns, ", ");
        tablesWithTime := tablesWithTime + 1;
      }
      var tableName := table.table;
      if |tableName| > NameWidth {
        tableName := tableName[..NameKeep] + "...";
      }
      var engine := table.engine;
      if |engine| > EngineWidth {
        engine := engine[..EngineKeep] + "...";
      }
      rows := rows + [SummaryRow(tableName, engine, timeColsStr)];
      i := i + 1;
    }
    assert tables[..|tables|] == tables;
  }
}
