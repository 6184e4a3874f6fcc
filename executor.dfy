/**
 * pkg/executor/executor.go: building the `ALTER TABLE ... MODIFY TTL`
 * statement for a detected time column, and running or previewing it.
 * `ParseTTL` reads such a statement back; it serves as the statement's
 * partner, showing that the text determines every value that went into it.
 */
module Executor {
  import opened Wrappers
  import opened Text
  import opened Utils
  import opened Client
  import opened Detector
  import opened Scanner

  /** `ExecutionResult`; `error` is the error's text, `None` for nil. */
  datatype ExecutionResult = ExecutionResult(
    database: string,
    table: string,
    timeColumn: string,
    timeType: string,
    sql: string,
    success: bool,
    error: Option<string>,
    skipped: bool,
    skipReason: string)

  /** The three expression shapes of the TTL statement. */
  datatype TTLShape =
    | NanoEpoch   // toDateTime(<col> / 1000000000)
    | SubSecond   // toDateTime(<col>)
    | Bare        // <col>

  /** Which shape `generateTTLSQL` chooses for a column. */
  function ShapeOf(col: TimeColumn): (shape: TTLShape)
    ensures col.isUInt64 <==> shape == NanoEpoch
    ensures shape == SubSecond <==> !col.isUInt64 && HasPrefix(col.typ, "DateTime64")
  {
    if col.isUInt64 then NanoEpoch
    else if HasPrefix(col.typ, "DateTime64") then SubSecond
    else Bare
  }

  /** `generateTTLSQL`. */
  function GenerateTTLSQL(database: string, table: string, col: TimeColumn, days: int): string
  {
    var dbEscaped := EscapeIdentifier(database);
    var tableEscaped := EscapeIdentifier(table);
    var colEscaped := EscapeIdentifier(col.name);
    if col.isUInt64 then
      "ALTER TABLE " + dbEscaped + "." + tableEscaped + " MODIFY TTL toDateTime(" + colEscaped
        + " / 1000000000) + INTERVAL " + IntToDecimal(days) + " DAY"
    else if HasPrefix(col.typ, "DateTime64") then
      "ALTER TABLE " + dbEscaped + "." + tableEscaped + " MODIFY TTL toDateTime(" + colEscaped
        + ") + INTERVAL " + IntToDecimal(days) + " DAY"
    else
      "ALTER TABLE " + dbEscaped + "." + tableEscaped + " MODIFY TTL " + colEscaped
        + " + INTERVAL " + IntToDecimal(days) + " DAY"
  }

  // ----- reading a statement back -----

  /** The values a TTL statement is made from. */
  datatype TTLStatement = TTLStatement(database: string, table: string, column: string, shape: TTLShape, days: int)

  /** Reads the TTL expression: the column, its shape, and the text after it. */
  function ParseTTLExpr(s: string): Option<(string, TTLShape, string)>
  {
    if HasPrefix(s, "toDateTime(") then
      var q :- ReadQuoted(s[|"toDateTime("|..]);
      if HasPrefix(q.1, " / 1000000000)") then Some((q.0, NanoEpoch, q.1[|" / 1000000000)"|..]))
      else if HasPrefix(q.1, ")") then Some((q.0, SubSecond, q.1[1..]))
      else None
    else
      var q :- ReadQuoted(s);
      Some((q.0, Bare, q.1))
  }

  /** Reads "<N> DAY". */
  function ParseDays(s: string): Option<int>
  {
    if HasSuffix(s, " DAY") then ParseInt(s[..|s| - 4]) else None
  }

  /** Reads a statement of the form `generateTTLSQL` writes. */
  function ParseTTL(sql: string): Option<TTLStatement>
  {
    var a :- Expect(sql, "ALTER TABLE ");
    var db :- ReadQuoted(a);
    var b :- Expect(db.1, ".");
    var tb :- ReadQuoted(b);
    var c :- Expect(tb.1, " MODIFY TTL ");
    var e :- ParseTTLExpr(c);
    var d :- Expect(e.2, " + INTERVAL ");
    var n :- ParseDays(d);
    Some(TTLStatement(db.0, tb.0, e.0, e.1, n))
  }

  lemma ParseDaysOf(days: int)
    ensures ParseDays(IntToDecimal(days) + " DAY") == Some(days)
  {
    var s := IntToDecimal(days) + " DAY";
    assert s[|s| - 4..] == " DAY";
    assert s[..|s| - 4] == IntToDecimal(days);
    IntDecimalRoundTrip(days);
  }

  lemma ParseTTLExprOf(column: string, shape: TTLShape, rest: string)
    requires |rest| > 0 && rest[0] != Tick
    ensures ParseTTLExpr(ExprText(EscapeIdentifier(column), shape) + rest) == Some((column, shape, rest))
  {
    var c := EscapeIdentifier(column);
    var s := ExprText(c, shape);
    match shape
    case NanoEpoch =>
      var tail := " / 1000000000)" + rest;
      assert s + rest == "toDateTime(" + (c + tail);
      ExpectConcat("toDateTime(", c + tail);
      ReadQuotedEscape(column, tail);
      ExpectConcat(" / 1000000000)", rest);
    case SubSecond =>
      var tail := ")" + rest;
      assert s + rest == "toDateTime(" + (c + tail);
      ExpectConcat("toDateTime(", c + tail);
      ReadQuotedEscape(column, tail);
      ExpectConcat(")", rest);
    case Bare =>
      ReadQuotedEscape(column, rest);
      assert !HasPrefix(s + rest, "toDateTime(") by {
        assert (s + rest)[0] == Tick;
      }
  }

  /** The expression text of each shape for an escaped column. */
  function ExprText(colEscaped: string, shape: TTLShape): string
  {
    match shape
    case NanoEpoch => "toDateTime(" + colEscaped + " / 1000000000)"
    case SubSecond => "toDateTime(" + colEscaped + ")"
    case Bare => colEscaped
  }

  /** The right-nested form of the statement text. */
  function Framed(a: string, b: string, expr: string, n: string): string
  {
    "ALTER TABLE " + (a + ("." + (b + (" MODIFY TTL " + (expr + (" + INTERVAL " + (n + " DAY")))))))
  }

  lemma FrameNano(a: string, b: string, c: string, n: string)
    ensures "ALTER TABLE " + a + "." + b + " MODIFY TTL toDateTime(" + c + " / 1000000000) + INTERVAL " + n + " DAY"
         == Framed(a, b, ExprText(c, NanoEpoch), n)
  {
  }

  lemma FrameSubSecond(a: string, b: string, c: string, n: string)
    ensures "ALTER TABLE " + a + "." + b + " MODIFY TTL toDateTime(" + c + ") + INTERVAL " + n + " DAY"
         == Framed(a, b, ExprText(c, SubSecond), n)
  {
  }

  lemma FrameBare(a: string, b: string, c: string, n: string)
    ensures "ALTER TABLE " + a + "." + b + " MODIFY TTL " + c + " + INTERVAL " + n + " DAY"
         == Framed(a, b, ExprText(c, Bare), n)
  {
  }

  /** The statement is the fixed frame around the shape's expression. */
  lemma GenerateTTLSQLFrame(database: string, table: string, col: TimeColumn, days: int)
    ensures GenerateTTLSQL(database, table, col, days)
      == Framed(EscapeIdentifier(database), EscapeIdentifier(table),
                ExprText(EscapeIdentifier(col.name), ShapeOf(col)), IntToDecimal(days))
  {
    var a, b, c, n := EscapeIdentifier(database), EscapeIdentifier(table), EscapeIdentifier(col.name), IntToDecimal(days);
    FrameNano(a, b, c, n);
    FrameSubSecond(a, b, c, n);
    FrameBare(a, b, c, n);
  }

  /**
   * Reading the generated statement back yields exactly the database, table,
   * column, expression shape and day count it was built from: the escaping
   * keeps every name inside its own identifier, whatever characters it holds.
   */
  lemma ParseGenerated(database: string, table: string, col: TimeColumn, days: int)
    ensures ParseTTL(GenerateTTLSQL(database, table, col, days))
         == Some(TTLStatement(database, table, col.name, ShapeOf(col), days))
  {
    GenerateTTLSQLFrame(database, table, col, days);
    var tail := " + INTERVAL " + (IntToDecimal(days) + " DAY");
    var r4 := ExprText(EscapeIdentifier(col.name), ShapeOf(col)) + tail;
    var r3 := " MODIFY TTL " + r4;
    var r2 := EscapeIdentifier(table) + r3;
    var r1 := "." + r2;
    var r0 := EscapeIdentifier(database) + r1;
    ExpectConcat("ALTER TABLE ", r0);
    ReadQuotedEscape(database, r1);
    ExpectConcat(".", r2);
    ReadQuotedEscape(table, r3);
    ExpectConcat(" MODIFY TTL ", r4);
    ParseTTLExprOf(col.name, ShapeOf(col), tail);
    ExpectConcat(" + INTERVAL ", IntToDecimal(days) + " DAY");
    ParseDaysOf(days);
  }

  /** Statements built from different values differ. */
  lemma GenerateTTLSQLInjective(db1: string, t1: string, c1: TimeColumn, d1: int,
                                db2: string, t2: string, c2: TimeColumn, d2: int)
    requires GenerateTTLSQL(db1, t1, c1, d1) == GenerateTTLSQL(db2, t2, c2, d2)
    ensures db1 == db2 && t1 == t2 && c1.name == c2.name && ShapeOf(c1) == ShapeOf(c2) && d1 == d2
  {
    ParseGenerated(db1, t1, c1, d1);
    ParseGenerated(db2, t2, c2, d2);
  }

  // ----- Execute -----

  /** The result `Execute` returns; `reply` is the server's answer to the statement. */
  function ExecOutcome(table: TableInfo, col: TimeColumn, days: int, dryRun: bool,
                       reply: string -> Option<string>): ExecutionResult
  {
    var sql := GenerateTTLSQL(table.database, table.table, col, days);
    var result := ExecutionResult(table.database, table.table, col.name, col.typ, sql, false, None, false, "");
    if dryRun then result.(success := true)
    else match ExecError(reply, sql)
      case Some(e) => result.(error := Some("failed to execute TTL: " + e), success := false)
      case None => result.(success := true)
  }

  /**
   * An executed table's result copies the table and column, carries the
   * generated statement, is never skipped, and fails exactly when the
   * statement was sent and the server rejected it, in which case it has an error.
   */
  lemma ExecOutcomeFlags(table: TableInfo, col: TimeColumn, days: int, dryRun: bool,
                         reply: string -> Option<string>)
    ensures var r := ExecOutcome(table, col, days, dryRun, reply);
      && r.database == table.database && r.table == table.table
      && r.timeColumn == col.name && r.timeType == col.typ
      && r.sql == GenerateTTLSQL(table.database, table.table, col, days)
      && !r.skipped
      && (dryRun ==> r.success && r.error.None?)
      && (!dryRun ==> (r.success <==> reply(r.sql).None?))
      && (r.error.Some? <==> !r.success)
  {
  }

  /** `Executor`: the connection and the two mode flags, fixed at construction. */
  class Executor {
    const client: Connection
    const dryRun: bool
    const verbose: bool

    /** `NewExecutor`. */
    constructor (client: Connection, dryRun: bool, verbose: bool)
      ensures this.client == client && this.dryRun == dryRun && this.verbose == verbose
    {
      this.client := client;
      this.dryRun := dryRun;
      this.verbose := verbose;
    }

    /** `Execute`: builds the statement; in dry-run records it, otherwise sends it once. */
    method Execute(table: TableInfo, timeCol: TimeColumn, retentionDays: int) returns (result: ExecutionResult)
      modifies client
      ensures result == ExecOutcome(table, timeCol, retentionDays, dryRun, client.reply)
      ensures client.sent == old(client.sent) + (if dryRun then [] else [result.sql])
    {
      result := ExecutionResult(table.database, table.table, timeCol.name, timeCol.typ, "", false, None, false, "");
      var sql := GenerateTTLSQL(table.database, table.table, timeCol, retentionDays);
      result := result.(sql := sql);
      if dryRun {
        result := result.(success := true);
        return;
      }
      var err := client.Exec(sql);
      if err.Some? {
        result := result.(error := Some("failed to execute TTL: " + err.value), success := false);
        return;
      }
      result := result.(success := true);
    }
  }
}
