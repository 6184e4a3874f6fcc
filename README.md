# clickhouse-ttl-tool, modelled in Dafny

clickhouse-ttl-tool sets a retention TTL on every table of one ClickHouse
database. A run goes through these steps:

1. It validates the configuration.
2. It scans the database's tables and their candidate time columns.
3. For each table it looks for a time column: a `Date`/`DateTime` column, or a
   `UInt64` column whose sampled values look like nanosecond epochs.
4. It builds an `ALTER TABLE … MODIFY TTL … + INTERVAL N DAY` statement and
   executes it, or only records it in dry-run mode.
5. It counts the outcomes as skipped, succeeded or failed, and fails the run
   iff some table failed.

Each Go package is one Dafny module:

- `Utils` holds the identifier escaper.
- `Client` holds the scan-target type mapping and the connection.
- `Config`, `Detector`, `Scanner`, `Executor` and `Reporter` model the
  packages of the same names.
- `Cmd` models the driver `cmd/root.go`.
- `Text` and `Wrappers` hold shared helpers: prefixes, joining, decimal
  printing and parsing, `Option` and `Result`.

The database is never contacted. Every query's answer is a parameter: a
sequence of rows, or the error text. The one statement that changes the
server goes through `Client.Connection.Exec`. That call records the
statement in the connection's `sent` log and takes the server's verdict from
a `reply` function. A whole run is `Cmd.Run` over a `World` value, which holds
the connect error, the table and column scan answers, the catalog and sample
answers per table, and the confirmation line the operator typed.

State-changing code is modelled as methods, each proved against a
specification function; where the source loops, the method loops too and
carries the invariants:

- `DetectTimeColumn` and `isNanoTimestamp`
- `ScanTables` and `scanTimeColumns`
- `Execute`
- `AddResult` and `PrintSummary`
- the per-table loop of `run`
- `printTablesSummary`

The properties are proved about those functions.

## Model

| member | source | states |
|---|---|---|
| Utils.EscapeIdentifier | pkg/utils/escape.go:13-18 | the result starts and ends with a backtick |
| Utils.EscapeLength | pkg/utils/escape.go:15-17 | output length is input length + 2 + the number of backticks in the input |
| Utils.EscapeInnerPaired | pkg/utils/escape.go:15 | between the outer delimiters backticks occur only in adjacent pairs |
| Utils.ReadQuotedEscape | pkg/utils/escape.go:13-18 | reading a quoted identifier off the escaped name followed by any text not starting with a backtick gives back the name and exactly that text |
| Utils.UnescapeRoundTrip | pkg/utils/escape.go:13-18 | dropping the outer backticks and collapsing doubled ones returns the original input |
| Utils.EscapeInjective | pkg/utils/escape.go:15-17 | distinct inputs give distinct outputs |
| Utils.EscapeTwiceDiffers | pkg/utils/escape.go:15-17 | escaping is not idempotent: escaping an escaped name changes it |
| Utils.EscapeWithoutTicks | pkg/utils/escape.go:13-18 | a name without backticks is just wrapped in one backtick on each side |
| Utils.EscapeExamplePlain | pkg/utils/escape.go:13-18 | "" gives "``" and `my_table` gives "\`my_table\`" |
| Utils.EscapeTwoInnerTicks | pkg/utils/escape.go:15-17 | a name with two inner backticks has each of them doubled, as in `table`with`backticks` |
| Client.StringField | pkg/scanner/scanner.go:54-67 | the `.(string)` assertion succeeds iff the key is present and holds a string, and then yields that string |
| Client.CreateScanTarget | pkg/client/clickhouse.go:68-119 | the target is a nullable pointer iff the type name starts with "Nullable(" |
| Client.CreateNullableScanTarget | pkg/client/clickhouse.go:122-149 | a nullable target is always a pointer to one of String, Int64, Int32, UInt64, UInt32, Float64, Float32 |
| Client.FirstPrefixMatch | pkg/client/clickhouse.go:77-117 | a first-match search over a prefix table yields the default or the kind of a matching entry |
| Client.PlainTargetIsFirstMatch | pkg/client/clickhouse.go:77-117 | a non-nullable type gets the kind of the first matching prefix in the fixed order String/FixedString, Int64…Int8, UInt64…UInt8, Float64, Float32, DateTime/Date, and string when none matches |
| Client.PlainHeadIsFirstMatch | pkg/client/clickhouse.go:77-95 | the same, for types matching one of the first seven prefixes |
| Client.PlainTailIsFirstMatch | pkg/client/clickhouse.go:96-117 | the same, for types matching none of the first seven prefixes |
| Client.NullableTargetIsFirstMatch | pkg/client/clickhouse.go:122-149 | an inner type gets the nullable kind of the first matching prefix among String/FixedString, Int64, Int32, UInt64, UInt32, Float64, Float32, and nullable string otherwise |
| Client.NullableUnwraps | pkg/client/clickhouse.go:70-74 | "Nullable(X)" dispatches on X with the prefix and one trailing ")" removed; without a closing parenthesis, X is used as it is |
| Client.NullableDateIsString | pkg/client/clickhouse.go:122-149 | Nullable(Date…) maps to a nullable string, since the nullable branch has no date case |
| Client.NullableSmallIntIsString | pkg/client/clickhouse.go:122-149 | Nullable(Int16/Int8/UInt16/UInt8…) maps to a nullable string |
| Client.SkipNonMatching | pkg/client/clickhouse.go:77-117 | entries whose prefix does not match can be skipped: the search ends where it would from the first later entry |
| Client.NoMatchIsDefault | pkg/client/clickhouse.go:114-117 | when no prefix from a position on matches, the search yields its default |
| Client.DerefValueKind | pkg/client/clickhouse.go:197-261 | dereferencing yields nil iff the target is nullable and holds nil; otherwise the value has the target's kind |
| Client.Connection.constructor | pkg/client/clickhouse.go:24-58 | a new connection has sent nothing and answers with the given reply |
| Client.Connection.Exec | pkg/client/clickhouse.go:264-269 | the statement is appended to the sent log; the error is the server's reply |
| Client.ExecError | pkg/client/clickhouse.go:264-269 | Exec fails iff the server rejects the statement |
| Config.Validate | pkg/config/config.go:24-46 | no error iff host, user and database are non-empty, 1 <= port <= 65535 and retention days > 0 |
| Config.ValidateReportsFirstFailure | pkg/config/config.go:25-43 | the checks run in the order host, port, user, database, retention, and the first failing one is reported |
| Config.PortBoundaries | pkg/config/config.go:29 | ports 0 and 65536 are rejected; 1 and 65535 pass the port check |
| Config.GetEnvOrDefault | pkg/config/config.go:49-54 | the environment value when set and non-empty, otherwise the default |
| Config.EnvUnsetEqualsEmpty | pkg/config/config.go:49-54 | an unset variable and an empty one give the same answer |
| Detector.ColumnMapNames | pkg/detector/detector.go:60-71 | a name is in the column map iff some catalog row holds it with string name and type |
| Detector.ColumnMapLastWins | pkg/detector/detector.go:60-71 | a name's mapped type comes from the last catalog row holding that name |
| Detector.DateTimeTypeIsDatePrefix | pkg/detector/detector.go:120-124 | `isDateTimeType` holds iff the type starts with "Date" |
| Detector.AsUint64 | pkg/detector/detector.go:159-175 | only uint64, int64, uint32 and int32 values convert; unsigned values keep their value, non-negative signed values keep theirs, and negative signed values wrap to 2^64 + v, as `uint64(v)` does |
| Detector.IsNanoTimestamp | pkg/detector/detector.go:129-191 | a failed sample query or an empty sample is an error; otherwise true iff some converted sampled value is above 10^17 |
| Detector.NanoThresholdIsStrict | pkg/detector/detector.go:184-187 | exactly 10^17 is not nanoseconds; any larger value is |
| Detector.IgnoredRowsDoNotMatter | pkg/detector/detector.go:152-175 | a row lacking the column or holding a non-converted value never changes the answer |
| Detector.Candidates | pkg/detector/detector.go:74-79 | the caller's list when non-empty, else exactly timestamp, event_time, created_at |
| Detector.Probe | pkg/detector/detector.go:83-113 | an accepted candidate is present in the column map with the mapped type |
| Detector.DetectTimeColumn | pkg/detector/detector.go:42-117 | the loop returns what the first-qualifying specification gives: a column-query failure, the first qualifying candidate, or `ErrNoTimeColumn` |
| Detector.FirstQualifyingIsFirstAccepted | pkg/detector/detector.go:82-114 | the search returns c iff some candidate yields c and every earlier candidate was passed over |
| Detector.FirstQualifyingNone | pkg/detector/detector.go:82-116 | the search finds nothing iff every candidate is passed over |
| Detector.DetectedColumnIsFirstQualifying | pkg/detector/detector.go:82-113 | a detected column is a candidate present in the catalog with the catalog's type; it is a date type (IsUInt64 false) or a UInt64 with a nanosecond sample (IsUInt64 true); no earlier candidate qualified |
| Detector.NotFoundIffNoneQualifies | pkg/detector/detector.go:116 | `ErrNoTimeColumn` iff the catalog was read and no candidate qualifies |
| Detector.CalendarCandidateBoundsSearch | pkg/detector/detector.go:89-95 | a present date-typed candidate guarantees a result at its own position or an earlier one |
| Detector.SamplingFailureSkipsCandidate | pkg/detector/detector.go:100-104 | a UInt64 candidate whose sampling fails is passed over |
| Detector.DetectNanoExample | pkg/detector/detector.go:97-112 | a UInt64 column with a sample above 10^17 is detected with IsUInt64 true |
| Scanner.ScanTimeColumns | pkg/scanner/scanner.go:95-134 | a query failure is reported with its message; otherwise the distinct string names in order |
| Scanner.DistinctNamesMembers | pkg/scanner/scanner.go:122-131 | the output has no duplicates and holds exactly the string-valued names of the rows |
| Scanner.DistinctNamesOrder | pkg/scanner/scanner.go:122-131 | names appear in the order of their first occurrence |
| Scanner.TableOf | pkg/scanner/scanner.go:75-87 | an entry copies database, table and engine from its row, and a failed column scan leaves it with no time columns |
| Scanner.ScanTables | pkg/scanner/scanner.go:34-91 | a query failure is "failed to scan tables: …"; otherwise the loop returns the kept rows' entries in row order |
| Scanner.TablesOfMembers | pkg/scanner/scanner.go:52-88 | an entry is in the output iff some row has string database, table and engine, is not excluded and builds that entry |
| Scanner.NoExcludedTables | pkg/scanner/scanner.go:70-72 | no output table name starts with ".inner" or "system" |
| Scanner.TablesOfPrefix | pkg/scanner/scanner.go:52-88 | output order follows row order: a row prefix gives an output prefix, and there are never more tables than rows |
| Executor.ShapeOf | pkg/executor/executor.go:95-114 | the nanosecond shape iff IsUInt64, whatever the type; the DateTime64 shape iff not IsUInt64 and the type starts with "DateTime64"; bare otherwise |
| Executor.GenerateTTLSQLFrame | pkg/executor/executor.go:83-115 | the statement is "ALTER TABLE <db>.<t> MODIFY TTL <expr> + INTERVAL <N> DAY" with escaped names and the shape's expression: `toDateTime(<c> / 1000000000)` for nanoseconds, `toDateTime(<c>)` for DateTime64, the bare column otherwise |
| Executor.ParseDaysOf | pkg/executor/executor.go:97-113 | the printed day count reads back as the same integer |
| Executor.ParseTTLExprOf | pkg/executor/executor.go:89-113 | the escaped column's expression reads back as the column and its shape |
| Executor.ParseGenerated | pkg/executor/executor.go:83-115 | parsing the statement gives back database, table, column, shape and days, whatever characters the names hold |
| Executor.GenerateTTLSQLInjective | pkg/executor/executor.go:83-115 | equal statements come from equal database, table, column name, shape and days |
| Executor.ExecOutcomeFlags | pkg/executor/executor.go:52-78 | the result copies table and column and carries the statement; it is never skipped; in dry run it succeeds with no error; otherwise it succeeds iff the server accepts; error iff not success |
| Executor.Executor.constructor | pkg/executor/executor.go:37-43 | keeps the connection and the two flags |
| Executor.Executor.Execute | pkg/executor/executor.go:46-79 | returns the outcome above and sends the statement exactly when not in dry run |
| Reporter.BucketOf | pkg/reporter/reporter.go:91-99 | skipped iff Skipped; success iff not skipped and Success; failed iff neither |
| Reporter.CountIn | pkg/reporter/reporter.go:91-99 | a bucket never counts more results than there are |
| Reporter.TallyPartitions | pkg/reporter/reporter.go:85-99 | success + failed + skipped = total |
| Reporter.FailedResultsMatchTally | pkg/reporter/reporter.go:114-121 | the failed listing holds exactly the results counted as failed, and as many |
| Reporter.TallyAppend | pkg/reporter/reporter.go:91-99 | one more result raises total and its own bucket by one and no other count |
| Reporter.SkippedWinsOverSuccess | pkg/reporter/reporter.go:92-93 | a skipped result counts as skipped even with Success set |
| Reporter.Reporter.constructor | pkg/reporter/reporter.go:31-38 | a new reporter holds no results |
| Reporter.Reporter.AddResult | pkg/reporter/reporter.go:41-43 | appends at the end and leaves earlier results unchanged |
| Reporter.Reporter.PrintSummary | pkg/reporter/reporter.go:82-124 | the counting loop yields the tally of the results held |
| Cmd.SkipReasonTellsWhy | cmd/root.go:172-175 | the fixed "未找到合适的时间字段" iff the table has no time columns; otherwise the reason lists them joined by ", " |
| Cmd.TableOutcomeSkipped | cmd/root.go:169-190 | a table's result names the table; it is skipped iff detection failed, then carrying the reason and no statement; otherwise it carries the generated statement |
| Cmd.OneResultPerTable | cmd/root.go:167-196 | exactly one result per table, in table order |
| Cmd.PausesBetweenTables | cmd/root.go:192-195 | a pause follows table i iff not dry run, the table was not skipped and it is not the last |
| Cmd.PausesIncrease | cmd/root.go:167-196 | pauses happen in table order |
| Cmd.DryRunHasNoFailures | cmd/root.go:167-196 | in dry run no table fails and no statement is sent |
| Cmd.ProcessTable | cmd/root.go:169-195 | one loop step adds the table's result to the reporter and sends its statement only when executed outside dry run |
| Cmd.ProcessTables | cmd/root.go:167-196 | the loop leaves the reporter with every table's result in order, the connection with the executed statements, and the pauses as specified |
| Cmd.RunTables | cmd/root.go:159-210 | processing the tables and summarising gives the specified report |
| Cmd.Run | cmd/root.go:92-211 | the driver's early exits and loop give the specified report |
| Cmd.InvalidConfigAborts | cmd/root.go:97-99 | an invalid configuration stops the run before any connection, result or statement |
| Cmd.NothingToDoEndsCleanly | cmd/root.go:125-155 | with no tables, or a mismatched confirmation outside dry run, the run ends without error and with no result |
| Cmd.FailsIffSomeTableFailed | cmd/root.go:199-204 | the run reports failed tables iff the summary's failed count is positive |
| Cmd.DryRunSendsNothing | cmd/root.go:134-196 | a dry run sends no statement, never pauses and never fails on tables |
| Cmd.TruncateFits | cmd/root.go:249-259 | a truncated text fits its width, is unchanged iff it already fits, and keeps a prefix of the original |
| Cmd.CountWithTimeAll | cmd/root.go:241-247 | the count of tables with time columns is at most the table count, and equal iff every table has some |
| Cmd.CountWithTimeNone | cmd/root.go:241-247 | the count is zero iff no table has time columns |
| Cmd.TablesSummary | cmd/root.go:235-266 | one row per table: the name cut to 34 bytes + "..." when longer than 37, the engine to 14 + "..." when longer than 17, the joined columns or "无"; plus the count of tables with time columns |
| Text.IntDecimalRoundTrip | pkg/executor/executor.go:97-113 | the `%d` text of the day count parses back to the same integer |

## Left out

- Network I/O is not modelled. `NewClient`, `Query` and `Close` are left
  out, along with ping, compression and timeouts; connecting is a
  `connectError` input.
- The scan-target choice and dereference inside `Query` are modelled. The row
  loop that drives them is not.
- The SQL text of the catalog, column and sample queries is not modelled, and
  neither is what the server filters: engines, `LIKE`, `ORDER BY`,
  `LIMIT 10`. Their answers are inputs. The `database` argument of
  `ScanTables` therefore does not appear in the model.
- Printing is left out: the header, the configuration, `PrintProgress` and
  the summary text. `printTablesSummary` is modelled as the rows it would
  print and its count.
- `fmt.Scanln` is left out. The confirmation line is an input string.
- Cobra flag wiring and main.go are left out.
- `time.Sleep` and `time.Since` are left out. A pause is recorded as the index
  of the table after which it happens. `Summary.Duration` is dropped.
- Float values are not modelled. A float column keeps only its kind tag.
- `context` cancellation and deadlines are left out.
- Whether ClickHouse accepts the generated TTL is left out. Only the
  statement text is modelled, and the server's verdict is the `reply`
  function.
- Error values are data constructors rather than wrapped Go errors. The
  messages that decide behaviour keep their text ("failed to scan tables: …",
  "query time columns failed: …", "failed to execute TTL: …"). The driver's
  Chinese error prefixes are the `RunError` constructors.
- `verbose` is kept as a flag. It only affects printing.
- Detector.AsUint64: Go's `uint` and `int` cases are not modelled, because no
  scan target produces those types, so a sampled value never has them.
- Cmd.TruncateFits: strings are sequences of characters with one character
  per byte. The byte-wise cut is therefore exact for ASCII names only, and a
  cut inside a multi-byte UTF-8 character is not modelled.
- Reporter.Reporter.GetResults: it reads the `results` field. Its insertion
  order is stated by `AddResult` and the constructor.
