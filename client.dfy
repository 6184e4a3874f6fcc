/**
 * The parts of pkg/client/clickhouse.go that carry logic: how a column's
 * declared ClickHouse type picks the Go scan target (`createScanTarget`,
 * `createNullableScanTarget`), how the scanned target becomes a row value
 * (`derefValue`), and `Exec` as the one call that changes the server.
 * Row values are a tagged variant with one constructor per Go scalar type
 * the driver can produce.
 */
module Client {
  import opened Wrappers
  import opened Text

  type u64 = x: int | 0 <= x < 0x1_0000_0000_0000_0000
  type i64 = x: int | -0x8000_0000_0000_0000 <= x < 0x8000_0000_0000_0000
  type u32 = x: int | 0 <= x < 0x1_0000_0000
  type i32 = x: int | -0x8000_0000 <= x < 0x8000_0000
  type u16 = x: int | 0 <= x < 0x1_0000
  type i16 = x: int | -0x8000 <= x < 0x8000
  type u8 = x: int | 0 <= x < 0x100
  type i8 = x: int | -0x80 <= x < 0x80

  /** The Go scalar types a scan target can hold. */
  datatype Kind =
    | KString | KInt64 | KInt32 | KInt16 | KInt8
    | KUInt64 | KUInt32 | KUInt16 | KUInt8
    | KFloat64 | KFloat32 | KTime

  /** `*T` (a plain column) or `**T` (a Nullable column) for the Go type of `kind`. */
  datatype ScanTarget = Plain(kind: Kind) | NullablePtr(kind: Kind)

  /** A value in a result row (`interface{}`); floats keep only their type. */
  datatype Value =
    | VString(s: string)
    | VInt64(i64: i64) | VInt32(i32: i32) | VInt16(i16: i16) | VInt8(i8: i8)
    | VUInt64(u64: u64) | VUInt32(u32: u32) | VUInt16(u16: u16) | VUInt8(u8: u8)
    | VFloat64 | VFloat32
    | VTime(unixNanos: int)
    | VNil

  /** A result row: column name to value, as `map[string]interface{}`. */
  type Row = map<string, Value>

  /** The answer of a `Query` call: the rows, or the error text. */
  type QueryResult = Result<seq<Row>, string>

  /** `row[key].(string)`: the field when it is present and holds a string. */
  function StringField(row: Row, key: string): (r: Option<string>)
    ensures r.Some? <==> key in row && row[key].VString?
    ensures r.Some? ==> row[key] == VString(r.value)
  {
    if key in row && row[key].VString? then Some(row[key].s) else None
  }

  function KindOf(v: Value): Option<Kind>
  {
    match v
    case VString(_) => Some(KString)
    case VInt64(_) => Some(KInt64)
    case VInt32(_) => Some(KInt32)
    case VInt16(_) => Some(KInt16)
    case VInt8(_) => Some(KInt8)
    case VUInt64(_) => Some(KUInt64)
    case VUInt32(_) => Some(KUInt32)
    case VUInt16(_) => Some(KUInt16)
    case VUInt8(_) => Some(KUInt8)
    case VFloat64 => Some(KFloat64)
    case VFloat32 => Some(KFloat32)
    case VTime(_) => Some(KTime)
    case VNil => None
  }

  const NullablePrefix := "Nullable("

  /** `createScanTarget`: the scan target for a declared column type. */
  function CreateScanTarget(dbType: string): (t: ScanTarget)
    ensures HasPrefix(dbType, NullablePrefix) <==> t.NullablePtr?
  {
    if HasPrefix(dbType, NullablePrefix) then
      CreateNullableScanTarget(TrimSuffix(dbType[|NullablePrefix|..], ")"))
    else Plain(PlainKind(dbType))
  }

  /** The `switch` of `createScanTarget` for a column that is not Nullable; unmatched types scan as strings. */
  function PlainKind(dbType: string): Kind
  {
    if HasPrefix(dbType, "String") || HasPrefix(dbType, "FixedString") then KString
    else if HasPrefix(dbType, "Int64") then KInt64
    else if HasPrefix(dbType, "Int32") then KInt32
    else if HasPrefix(dbType, "Int16") then KInt16
    else if HasPrefix(dbType, "Int8") then KInt8
    else if HasPrefix(dbType, "UInt64") then KUInt64
    else if HasPrefix(dbType, "UInt32") then KUInt32
    else if HasPrefix(dbType, "UInt16") then KUInt16
    else if HasPrefix(dbType, "UInt8") then KUInt8
    else if HasPrefix(dbType, "Float64") then KFloat64
    else if HasPrefix(dbType, "Float32") then KFloat32
    else if HasPrefix(dbType, "DateTime") || HasPrefix(dbType, "Date") then KTime
    else KString
  }

  /** The kinds a Nullable column can be scanned into. */
  predicate NullableKind(k: Kind) {
    k in {KString, KInt64, KInt32, KUInt64, KUInt32, KFloat64, KFloat32}
  }

  /** `createNullableScanTarget`: the scan target for the type inside `Nullable(...)`. */
  function CreateNullableScanTarget(innerType: string): (t: ScanTarget)
    ensures t.NullablePtr? && NullableKind(t.kind)
  {
    if HasPrefix(innerType, "String") || HasPrefix(innerType, "FixedString") then NullablePtr(KString)
    else if HasPrefix(innerType, "Int64") then NullablePtr(KInt64)
    else if HasPrefix(innerType, "Int32") then NullablePtr(KInt32)
    else if HasPrefix(innerType, "UInt64") then NullablePtr(KUInt64)
    else if HasPrefix(innerType, "UInt32") then NullablePtr(KUInt32)
    else if HasPrefix(innerType, "Float64") then NullablePtr(KFloat64)
    else if HasPrefix(innerType, "Float32") then NullablePtr(KFloat32)
    else NullablePtr(KString)
  }

  /** A scan target after `rows.Scan` has filled it: `*T` holds a value, `**T` maybe nil. */
  datatype Filled = FilledPlain(v: Value) | FilledNullable(p: Option<Value>)

  /** The filled target matches the target that was created for the column. */
  predicate Fits(t: ScanTarget, f: Filled)
  {
    match t
    case Plain(k) => f.FilledPlain? && KindOf(f.v) == Some(k)
    case NullablePtr(k) => f.FilledNullable? && (f.p.Some? ==> KindOf(f.p.value) == Some(k))
  }

  /** `derefValue`: the row value stored for a filled scan target. */
  function DerefValue(f: Filled): Value
  {
    match f
    case FilledPlain(v) => v
    case FilledNullable(None) => VNil
    case FilledNullable(Some(v)) => v
  }

  /**
   * A dereferenced value is nil exactly when a Nullable column held NULL, and
   * otherwise has the Go type of the scan target.
   */
  lemma DerefValueKind(t: ScanTarget, f: Filled)
    requires Fits(t, f)
    ensures DerefValue(f) == VNil <==> (t.NullablePtr? && f.p.None?)
    ensures DerefValue(f) != VNil ==> KindOf(DerefValue(f)) == Some(t.kind)
  {
  }

  // ----- an independent statement of the prefix order, as a table -----

  /** The plain-column cases of `createScanTarget`, in the order they are tested. */
  const PlainTable: seq<(string, Kind)> := [
    ("String", KString), ("FixedString", KString),
    ("Int64", KInt64), ("Int32", KInt32), ("Int16", KInt16), ("Int8", KInt8),
    ("UInt64", KUInt64), ("UInt32", KUInt32), ("UInt16", KUInt16), ("UInt8", KUInt8),
    ("Float64", KFloat64), ("Float32", KFloat32),
    ("DateTime", KTime), ("Date", KTime)
  ]

  /** The cases of `createNullableScanTarget`, in the order they are tested. */
  const NullableTable: seq<(string, Kind)> := [
    ("String", KString), ("FixedString", KString),
    ("Int64", KInt64), ("Int32", KInt32),
    ("UInt64", KUInt64), ("UInt32", KUInt32),
    ("Float64", KFloat64), ("Float32", KFloat32)
  ]

  /** The kind of the first entry, from index `i` on, whose prefix `s` has; `dflt` when none matches. */
  function FirstPrefixMatch(table: seq<(string, Kind)>, i: nat, s: string, dflt: Kind): (k: Kind)
    requires i <= |table|
    ensures k == dflt || exists j :: i <= j < |table| && table[j].1 == k && HasPrefix(s, table[j].0)
    decreases |table| - i
  {
    if i == |table| then dflt
    else if HasPrefix(s, table[i].0) then table[i].1
    else FirstPrefixMatch(table, i + 1, s, dflt)
  }

  /** No entry of `table` from `i` up to `j` is a prefix of `s`. */
  predicate NoneMatch(table: seq<(string, Kind)>, i: nat, j: nat, s: string)
    requires i <= j <= |table|
    decreases j - i
  {
    i == j || (!HasPrefix(s, table[i].0) && NoneMatch(table, i + 1, j, s))
  }

  /** Entries that do not match can be skipped: the search from `i` ends where the search from `j` does. */
  lemma {:induction false} SkipNonMatching(table: seq<(string, Kind)>, i: nat, j: nat, s: string, dflt: Kind)
    requires i <= j <= |table| && NoneMatch(table, i, j, s)
    ensures FirstPrefixMatch(table, i, s, dflt) == FirstPrefixMatch(table, j, s, dflt)
    decreases j - i
  {
    if i < j {
      SkipNonMatching(table, i + 1, j, s, dflt);
    }
  }

  /** A type whose kind is decided by one of the first seven entries. */
  predicate MatchesHead(s: string)
  {
    HasPrefix(s, "String") || HasPrefix(s, "FixedString") || HasPrefix(s, "Int64") || HasPrefix(s, "Int32")
    || HasPrefix(s, "Int16") || HasPrefix(s, "Int8") || HasPrefix(s, "UInt64")
  }

  /** `PlainTargetIsFirstMatch` for the types matched by the first seven entries. */
  lemma PlainHeadIsFirstMatch(s: string)
    requires MatchesHead(s)
    ensures PlainKind(s) == FirstPrefixMatch(PlainTable, 0, s, KString)
  {
    if HasPrefix(s, "String") {
    } else if HasPrefix(s, "FixedString") { SkipNonMatching(PlainTable, 0, 1, s, KString);
    } else if HasPrefix(s, "Int64") { SkipNonMatching(PlainTable, 0, 2, s, KString);
    } else if HasPrefix(s, "Int32") { SkipNonMatching(PlainTable, 0, 3, s, KString);
    } else if HasPrefix(s, "Int16") { SkipNonMatching(PlainTable, 0, 4, s, KString);
    } else if HasPrefix(s, "Int8") { SkipNonMatching(PlainTable, 0, 5, s, KString);
    } else { SkipNonMatching(PlainTable, 0, 6, s, KString);
    }
  }

  /** `PlainTargetIsFirstMatch` for the other types: the search goes on from the eighth entry. */
  lemma PlainTailIsFirstMatch(s: string)
    requires !MatchesHead(s)
    ensures PlainKind(s) == FirstPrefixMatch(PlainTable, 7, s, KString)
  {
    if HasPrefix(s, "UInt32") {
    } else if HasPrefix(s, "UInt16") { SkipNonMatching(PlainTable, 7, 8, s, KString);
    } else if HasPrefix(s, "UInt8") { SkipNonMatching(PlainTable, 7, 9, s, KString);
    } else if HasPrefix(s, "Float64") { SkipNonMatching(PlainTable, 7, 10, s, KString);
    } else if HasPrefix(s, "Float32") { SkipNonMatching(PlainTable, 7, 11, s, KString);
    } else if HasPrefix(s, "DateTime") { SkipNonMatching(PlainTable, 7, 12, s, KString);
    } else if HasPrefix(s, "Date") { SkipNonMatching(PlainTable, 7, 13, s, KString);
    } else { SkipNonMatching(PlainTable, 7, 14, s, KString);
    }
  }

  /** The branch chain of `createScanTarget` is a first-match search of `PlainTable`, defaulting to string. */
  lemma PlainTargetIsFirstMatch(dbType: string)
    ensures PlainKind(dbType) == FirstPrefixMatch(PlainTable, 0, dbType, KString)
  {
    if MatchesHead(dbType) {
      PlainHeadIsFirstMatch(dbType);
    } else {
      SkipNonMatching(PlainTable, 0, 7, dbType, KString);
      PlainTailIsFirstMatch(dbType);
    }
  }

  /** The branch chain of `createNullableScanTarget` is a first-match search of `NullableTable`. */
  lemma NullableTargetIsFirstMatch(innerType: string)
    ensures CreateNullableScanTarget(innerType) == NullablePtr(FirstPrefixMatch(NullableTable, 0, innerType, KString))
  {
    var s := innerType;
    if HasPrefix(s, "String") {
    } else if HasPrefix(s, "FixedString") { SkipNonMatching(NullableTable, 0, 1, s, KString);
    } else if HasPrefix(s, "Int64") { SkipNonMatching(NullableTable, 0, 2, s, KString);
    } else if HasPrefix(s, "Int32") { SkipNonMatching(NullableTable, 0, 3, s, KString);
    } else if HasPrefix(s, "UInt64") { SkipNonMatching(NullableTable, 0, 4, s, KString);
    } else if HasPrefix(s, "UInt32") { SkipNonMatching(NullableTable, 0, 5, s, KString);
    } else if HasPrefix(s, "Float64") { SkipNonMatching(NullableTable, 0, 6, s, KString);
    } else if HasPrefix(s, "Float32") { SkipNonMatching(NullableTable, 0, 7, s, KString);
    } else { SkipNonMatching(NullableTable, 0, 8, s, KString);
    }
  }

  /** `Nullable(X)` dispatches on X with the wrapper and at most one closing parenthesis removed. */
  lemma NullableUnwraps(x: string)
    ensures CreateScanTarget(NullablePrefix + x + ")") == CreateNullableScanTarget(x)
    ensures !HasSuffix(x, ")") ==> CreateScanTarget(NullablePrefix + x) == CreateNullableScanTarget(x)
  {
    var s := NullablePrefix + x + ")";
    PrefixOfConcat(NullablePrefix, x + ")");
    assert s == NullablePrefix + (x + ")");
    assert s[|NullablePrefix|..] == x + ")";
    assert TrimSuffix(x + ")", ")") == x;
    var u := NullablePrefix + x;
    PrefixOfConcat(NullablePrefix, x);
    assert u[|NullablePrefix|..] == x;
  }

  /** The Nullable branch has no Date cases: a nullable date-time column is scanned as a nullable string. */
  lemma NullableDateIsString(x: string)
    requires HasPrefix(x, "Date")
    ensures CreateScanTarget(NullablePrefix + x + ")") == NullablePtr(KString)
  {
    NullableUnwraps(x);
    NotBoth(x, "Date", "String", 0);
    NotBoth(x, "Date", "FixedString", 0);
    NotBoth(x, "Date", "Int64", 0);
    NotBoth(x, "Date", "Int32", 0);
    NotBoth(x, "Date", "UInt64", 0);
    NotBoth(x, "Date", "UInt32", 0);
    NotBoth(x, "Date", "Float64", 0);
    NotBoth(x, "Date", "Float32", 0);
  }

  /** Nor has it the 8- and 16-bit integer cases. */
  lemma NullableSmallIntIsString(x: string)
    requires HasPrefix(x, "Int16") || HasPrefix(x, "Int8") || HasPrefix(x, "UInt16") || HasPrefix(x, "UInt8")
    ensures CreateScanTarget(NullablePrefix + x + ")") == NullablePtr(KString)
  {
    NullableUnwraps(x);
    NullableTargetIsFirstMatch(x);
    var p := if HasPrefix(x, "Int16") then "Int16" else if HasPrefix(x, "Int8") then "Int8"
      else if HasPrefix(x, "UInt16") then "UInt16" else "UInt8";
    NotBothNullable(x, p);
    assert forall j :: 0 <= j < |NullableTable| ==> NullableTable[j] in NullableTable;
    NoMatchIsDefault(NullableTable, 0, x, KString);
  }

  /** When no entry from `i` on matches, the search yields the default. */
  lemma {:induction false} NoMatchIsDefault(table: seq<(string, Kind)>, i: nat, s: string, dflt: Kind)
    requires i <= |table|
    requires forall j :: i <= j < |table| ==> !HasPrefix(s, table[j].0)
    ensures FirstPrefixMatch(table, i, s, dflt) == dflt
    decreases |table| - i
  {
    if i < |table| {
      NoMatchIsDefault(table, i + 1, s, dflt);
    }
  }

  /** `s` cannot start with two literals that differ at position `i`. */
  lemma NotBoth(s: string, p: string, q: string, i: nat)
    requires i < |p| && i < |q| && p[i] != q[i]
    ensures !(HasPrefix(s, p) && HasPrefix(s, q))
  {
  }

  lemma NotBothNullable(x: string, p: string)
    requires p in {"Int16", "Int8", "UInt16", "UInt8"} && HasPrefix(x, p)
    ensures forall e :: e in NullableTable ==> !HasPrefix(x, e.0)
  {
    forall e | e in NullableTable
      ensures !HasPrefix(x, e.0)
    {
      if p == "Int16" || p == "Int8" {
        NotBoth(x, p, e.0, if e.0[0] == 'I' then 3 else 0);
      } else {
        NotBoth(x, p, e.0, if e.0[0] == 'U' then 4 else 0);
      }
    }
  }

  // ----- Exec: the one call that changes the server -----

  /**
   * The connection. `sent` is the ordered log of statements executed through
   * it; `reply` is the server's answer to a statement: `None` when it accepts
   * it, or the driver's error text.
   */
  class Connection {
    var sent: seq<string>
    const reply: string -> Option<string>

    constructor (reply: string -> Option<string>)
      ensures sent == [] && this.reply == reply
    {
      sent := [];
      this.reply := reply;
    }

    /** `Exec`: sends one statement; a driver error comes back wrapped. */
    method Exec(query: string) returns (err: Option<string>)
      modifies this
      ensures sent == old(sent) + [query]
      ensures err == ExecError(reply, query)
    {
      sent := sent + [query];
      var r := reply(query);
      if r.Some? {
        err := Some("exec failed: " + r.value);
      } else {
        err := None;
      }
    }
  }

  /** The error `Exec` returns for `query`. */
  function ExecError(reply: string -> Option<string>, query: string): (err: Option<string>)
    ensures err.Some? <==> reply(query).Some?
  {
    match reply(query)
    case None => None
    case Some(e) => Some("exec failed: " + e)
  }
}
