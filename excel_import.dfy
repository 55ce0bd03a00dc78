/** Field extraction from the API sheet of a specification workbook: the header
    row search, the `MF` row filter, the cell clean-up, the required flag, the
    database column recovered from a remark, the method type taken from a file
    name, and the header/detail grouping. The workbook rows arrive already read
    (`sheet_to_json` with `header: 1`), one cell per column. */
module ExcelImport {
  import opened Wrappers
  import opened JsText
  import opened Seqs

  /** A raw spreadsheet cell. `Null` is an empty cell (`null`/`undefined`). */
  datatype Cell = Null | Str(s: string) | Num(n: int) | Bool(b: bool)

  type Row = seq<Cell>
  type Sheet = seq<Row>

  /** One field extracted from a workbook. */
  datatype ExcelField = ExcelField(
    apiName: string,
    dbColumn: string,
    dataType: string,
    maxLength: Option<nat>,
    required: bool,
    description: string,
    validation: Option<string>,
    example: Option<string>,
    remark: Option<string>)

  /** The part of a parsed workbook the reconciliation engine reads. */
  datatype ExcelWorkbook = ExcelWorkbook(
    operationCode: string,
    apiName: string,
    moduleName: string,
    methodType: string,
    fields: seq<ExcelField>,
    headerFields: seq<ExcelField>,
    detailFields: seq<ExcelField>)

  // ---------------------------------------------------------------------------
  // Cells

  /** JavaScript truthiness of a cell value. */
  predicate CellTruthy(c: Cell) {
    match c
    case Null => false
    case Str(s) => s != ""
    case Num(n) => n != 0
    case Bool(b) => b
  }

  /** `String(v)` of a non-empty cell. */
  function CellString(c: Cell): string
    requires !c.Null?
  {
    match c
    case Str(s) => s
    case Num(n) => IntToString(n)
    case Bool(b) => if b then "true" else "false"
  }

  /** `cleanCellValue`: an empty cell becomes `''`, anything else its string
      form with the surrounding whitespace removed. */
  function CleanCellValue(c: Cell): (r: string)
    ensures Trimmed(r)
    ensures c.Null? ==> r == ""
  {
    if c.Null? then "" else Trim(CellString(c))
  }

  /** The words that mark a field as required, compared after lower-casing and
      trimming. */
  const RequiredTokens: set<string> := {"y", "yes", "是", "必填", "true", "1"}

  /** `parseRequired`: a falsy cell is not required; otherwise the cell is
      required exactly when its trimmed, lower-cased text is a required token. */
  function ParseRequired(value: Cell): (r: bool)
    ensures !CellTruthy(value) ==> !r
    ensures CellTruthy(value) ==> (r <==> Lower(Trim(CellString(value))) in RequiredTokens)
  {
    if !CellTruthy(value) then false
    else
      var strValue := Trim(Lower(CellString(value)));
      LowerTrimCommute(CellString(value));
      strValue in RequiredTokens
  }

  /** A numeric cell is required exactly when it holds 1. */
  lemma ParseRequiredNumber(n: int)
    ensures ParseRequired(Num(n)) <==> n == 1
  {
    if n != 0 {
      ParseRequiredNumberText(n);
      NumberTextToken(n);
    }
  }

  lemma ParseRequiredNumberText(n: int)
    requires n != 0
    ensures ParseRequired(Num(n)) <==> IntToString(n) in RequiredTokens
  {
    NumberTextIsClean(n);
  }

  lemma NumberTextToken(n: int)
    ensures IntToString(n) in RequiredTokens <==> n == 1
  {
    var t := IntToString(n);
    NumberText(n);
    DigitTextToken(t);
    IntToStringIsOne(n);
  }

  lemma DigitTextToken(t: string)
    requires |t| >= 1
    requires forall i :: 0 <= i < |t| ==> t[i] == '-' || '0' <= t[i] <= '9'
    ensures t in RequiredTokens <==> t == "1"
  {
    assert t[0] != 'y' && t[0] != 't' && t[0] != '是' && t[0] != '必';
  }

  lemma NumberTextIsClean(n: int)
    ensures Lower(Trim(IntToString(n))) == IntToString(n)
  {
    var t := IntToString(n);
    NumberText(n);
    DigitTextIsClean(t);
  }

  lemma DigitTextIsClean(t: string)
    requires Trimmed(t)
    requires forall i :: 0 <= i < |t| ==> t[i] == '-' || '0' <= t[i] <= '9'
    ensures Lower(Trim(t)) == t
  {
    TrimTrimmed(t);
    LowerNoCapitals(t);
  }

  /** `String(n)` holds only digits and a leading minus, and ends in a digit. */
  lemma NumberText(n: int)
    ensures |IntToString(n)| >= 1 && Trimmed(IntToString(n))
    ensures forall i :: 0 <= i < |IntToString(n)| ==> IntToString(n)[i] == '-' || '0' <= IntToString(n)[i] <= '9'
  {
    if n < 0 {
      assert IntToString(n) == "-" + NatToString(-n);
    }
  }

  /** A boolean cell is required exactly when it is `true`. */
  lemma ParseRequiredBoolean(b: bool)
    ensures ParseRequired(Bool(b)) == b
  {
    if b {
      TrueTextIsClean();
    }
  }

  lemma TrueTextIsClean()
    ensures Lower(Trim("true")) == "true"
  {
    TrimTrimmed("true");
    LowerNoCapitals("true");
  }

  // ---------------------------------------------------------------------------
  // The database column embedded in a remark:  /欄位代號[:：]\s*([A-Z]+\.[A-Z0-9]+)/

  const DbColumnLabel: string := "欄位代號"

  predicate IsLabelColon(c: char) {
    c == ':' || c == '：'
  }

  predicate IsUpper(c: char) {
    'A' <= c <= 'Z'
  }

  predicate IsUpperOrDigit(c: char) {
    IsUpper(c) || ('0' <= c <= '9')
  }

  predicate AllUpper(s: string) {
    forall i :: 0 <= i < |s| ==> IsUpper(s[i])
  }

  predicate AllUpperOrDigit(s: string) {
    forall i :: 0 <= i < |s| ==> IsUpperOrDigit(s[i])
  }

  /** `TABLE.COLUMN` in capitals: `[A-Z]+\.[A-Z0-9]+`. */
  predicate IsDbColumn(c: string) {
    '.' in c &&
    var k := IndexOf(c, '.');
    0 < k < |c| - 1 && AllUpper(c[..k]) && AllUpperOrDigit(c[k + 1..])
  }

  /** The longest prefix of capitals (`[A-Z]*`, greedy). */
  function UpperRun(s: string): (r: string)
    ensures |r| <= |s|
  {
    if s != [] && IsUpper(s[0]) then [s[0]] + UpperRun(s[1..]) else ""
  }

  /** The run is a prefix of capitals that cannot be extended. */
  lemma {:induction false} UpperRunShape(s: string)
    ensures var r := UpperRun(s);
            && r == s[..|r|] && AllUpper(r)
            && (|r| == |s| || !IsUpper(s[|r|]))
    decreases |s|
  {
    if s != [] && IsUpper(s[0]) {
      UpperRunShape(s[1..]);
      var r := UpperRun(s);
      assert r == [s[0]] + UpperRun(s[1..]);
      assert s[..|r|] == [s[0]] + s[1..][..|r| - 1];
    }
  }

  /** The longest prefix of capitals and digits (`[A-Z0-9]*`, greedy). */
  function UpperOrDigitRun(s: string): (r: string)
    ensures |r| <= |s|
  {
    if s != [] && IsUpperOrDigit(s[0]) then [s[0]] + UpperOrDigitRun(s[1..]) else ""
  }

  /** The run is a prefix of capitals and digits that cannot be extended. */
  lemma {:induction false} UpperOrDigitRunShape(s: string)
    ensures var r := UpperOrDigitRun(s);
            && r == s[..|r|] && AllUpperOrDigit(r)
            && (|r| == |s| || !IsUpperOrDigit(s[|r|]))
    decreases |s|
  {
    if s != [] && IsUpperOrDigit(s[0]) {
      UpperOrDigitRunShape(s[1..]);
      var r := UpperOrDigitRun(s);
      assert r == [s[0]] + UpperOrDigitRun(s[1..]);
      assert s[..|r|] == [s[0]] + s[1..][..|r| - 1];
    }
  }

  /** A run of capitals, a dot and a run of capitals and digits is a column. */
  lemma DbColumnJoin(table: string, column: string)
    requires table != "" && AllUpper(table)
    requires column != "" && AllUpperOrDigit(column)
    ensures IsDbColumn(table + "." + column)
  {
    var c := table + "." + column;
    assert '.' !in table;
    IndexOfAfterClean(table, '.', column);
    assert c == table + ['.'] + column;
    assert c[|table|] == '.';
    assert c[..|table|] == table;
    assert c[|table| + 1..] == column;
  }

  /** `\s*([A-Z]+\.[A-Z0-9]+)` at the start of `u`: the captured group. The
      greedy runs leave no room for backtracking: the character after `\s*`
      must be a capital, and the one after `[A-Z]+` must be the dot. */
  function ColumnAt(u: string): Option<string> {
    var v := TrimStart(u);
    var a := UpperRun(v);
    if a != "" && |a| < |v| && v[|a|] == '.' then
      var b := UpperOrDigitRun(v[|a| + 1..]);
      if b != "" then Some(a + "." + b) else None
    else None
  }

  /** What the column part captures is a well-formed `TABLE.COLUMN`. */
  lemma ColumnAtShape(u: string)
    ensures ColumnAt(u).Some? ==> IsDbColumn(ColumnAt(u).value)
  {
    var v := TrimStart(u);
    var a := UpperRun(v);
    if a != "" && |a| < |v| && v[|a|] == '.' {
      var b := UpperOrDigitRun(v[|a| + 1..]);
      if b != "" {
        UpperRunShape(v);
        UpperOrDigitRunShape(v[|a| + 1..]);
        DbColumnJoin(a, b);
      }
    }
  }

  /** The whole pattern at the start of `t`: the label, a colon, then the
      column. */
  function MatchHere(t: string): Option<string> {
    var n := |DbColumnLabel|;
    if |t| > n && t[..n] == DbColumnLabel && IsLabelColon(t[n]) then ColumnAt(t[n + 1..])
    else None
  }

  /** The captured group when the pattern matches at position `p` of `s`. */
  function MatchAt(s: string, p: nat): Option<string>
    requires p <= |s|
  {
    MatchHere(s[p..])
  }

  /** The first position from `p` to `n` that satisfies `ok`. */
  function FirstFrom(n: nat, p: nat, ok: nat -> bool): (r: Option<nat>)
    requires p <= n
    ensures r.Some? ==> p <= r.value <= n && ok(r.value)
    decreases n - p
  {
    if ok(p) then Some(p)
    else if p == n then None
    else FirstFrom(n, p + 1, ok)
  }

  /** The search finds the first position, and finds one whenever there is one. */
  lemma {:induction false} FirstFromLeftmost(n: nat, p: nat, ok: nat -> bool)
    requires p <= n
    ensures FirstFrom(n, p, ok).Some? ==> forall q :: p <= q < FirstFrom(n, p, ok).value ==> !ok(q)
    ensures FirstFrom(n, p, ok).None? ==> forall q :: p <= q <= n ==> !ok(q)
    decreases n - p
  {
    if !ok(p) && p < n {
      FirstFromLeftmost(n, p + 1, ok);
    }
  }

  /** Whether the pattern matches at a position of `s`. */
  function MatchesIn(s: string): nat -> bool {
    (q: nat) => q <= |s| && MatchAt(s, q).Some?
  }

  /** The leftmost position at or after `p` where the pattern matches. */
  function FirstMatchFrom(s: string, p: nat): (r: Option<nat>)
    requires p <= |s|
    ensures r.Some? ==> p <= r.value <= |s| && MatchAt(s, r.value).Some?
  {
    FirstFrom(|s|, p, MatchesIn(s))
  }

  /** The search finds the leftmost match, and finds one whenever there is one. */
  lemma FirstMatchFromLeftmost(s: string, p: nat)
    requires p <= |s|
    ensures FirstMatchFrom(s, p).Some? ==> forall q :: p <= q < FirstMatchFrom(s, p).value ==> MatchAt(s, q).None?
    ensures FirstMatchFrom(s, p).None? ==> forall q :: p <= q <= |s| ==> MatchAt(s, q).None?
  {
    var r := FirstMatchFrom(s, p);
    FirstFromLeftmost(|s|, p, MatchesIn(s));
    var last: int := if r.Some? then r.value - 1 else |s|;
    forall q | p <= q <= last
      ensures MatchAt(s, q).None?
    {
      assert !MatchesIn(s)(q);
    }
  }

  /** The database column of a remark: the group of the leftmost match of the
      pattern, or `''` when the remark is empty or nothing matches. */
  function ExtractDbColumn(remark: string): string {
    if remark == "" then ""
    else
      match FirstMatchFrom(remark, 0)
      case Some(p) => MatchAt(remark, p).value
      case None => ""
  }

  /** The column of a remark is empty or a well-formed `TABLE.COLUMN`. */
  lemma ExtractDbColumnShape(remark: string)
    ensures ExtractDbColumn(remark) == "" || IsDbColumn(ExtractDbColumn(remark))
  {
    if remark != "" {
      match FirstMatchFrom(remark, 0)
      case Some(p) =>
        var t := remark[p..];
        ColumnAtShape(t[|DbColumnLabel| + 1..]);
      case None =>
    }
  }

  /** A column found in a remark is the group of the leftmost match; no column
      means no match anywhere. */
  lemma ExtractDbColumnLeftmost(remark: string)
    ensures var r := ExtractDbColumn(remark);
            r != "" ==> exists p :: 0 <= p <= |remark| && MatchAt(remark, p) == Some(r)
                                  && forall q :: 0 <= q < p ==> MatchAt(remark, q).None?
    ensures ExtractDbColumn(remark) == "" ==> forall p :: 0 <= p <= |remark| ==> MatchAt(remark, p).None?
  {
    if remark != "" {
      FirstMatchFromLeftmost(remark, 0);
    }
  }

  lemma {:induction false} UpperRunStops(a: string, x: string)
    requires AllUpper(a)
    requires x == [] || !IsUpper(x[0])
    ensures UpperRun(a + x) == a
    decreases |a|
  {
    if a != [] {
      assert (a + x)[1..] == a[1..] + x;
      UpperRunStops(a[1..], x);
    } else {
      assert a + x == x;
    }
  }

  lemma {:induction false} UpperOrDigitRunStops(b: string, x: string)
    requires AllUpperOrDigit(b)
    requires x == [] || !IsUpperOrDigit(x[0])
    ensures UpperOrDigitRun(b + x) == b
    decreases |b|
  {
    if b != [] {
      assert (b + x)[1..] == b[1..] + x;
      UpperOrDigitRunStops(b[1..], x);
    } else {
      assert b + x == x;
    }
  }

  /** The column part matches a well-formed `TABLE.COLUMN` after optional
      whitespace and captures exactly the maximal column. */
  lemma ColumnAtWellFormed(ws: string, table: string, column: string, post: string)
    requires AllSpace(ws)
    requires table != "" && AllUpper(table)
    requires column != "" && AllUpperOrDigit(column)
    requires post == [] || !IsUpperOrDigit(post[0])
    ensures ColumnAt(ws + (table + ['.'] + column + post)) == Some(table + "." + column)
  {
    var rest := table + ['.'] + column + post;
    SplitAtDot(table, column + post);
    assert rest == table + ['.'] + (column + post);
    TrimStartPadded(ws, rest);
    UpperRunStops(table, ['.'] + (column + post));
    UpperOrDigitRunStops(column, post);
  }

  lemma SplitAtDot(table: string, tail: string)
    requires table != []
    ensures var rest := table + ['.'] + tail;
            rest[0] == table[0] && rest[|table|] == '.' && rest[|table| + 1..] == tail
            && rest == table + (['.'] + tail)
  {
  }

  lemma MatchHereLabel(colon: char, u: string)
    requires IsLabelColon(colon)
    ensures MatchHere(DbColumnLabel + [colon] + u) == ColumnAt(u)
  {
    var t := DbColumnLabel + [colon] + u;
    var n := |DbColumnLabel|;
    assert t[..n] == DbColumnLabel;
    assert t[n] == colon;
    assert t[n + 1..] == u;
  }

  /** The pattern matches wherever the label, a colon, optional whitespace and
      a well-formed `TABLE.COLUMN` follow each other, and captures exactly the
      maximal column. */
  lemma MatchAtLabel(pre: string, colon: char, ws: string, table: string, column: string, post: string)
    requires IsLabelColon(colon) && AllSpace(ws)
    requires table != "" && AllUpper(table)
    requires column != "" && AllUpperOrDigit(column)
    requires post == [] || !IsUpperOrDigit(post[0])
    ensures MatchAt(pre + DbColumnLabel + [colon] + ws + table + "." + column + post, |pre|)
            == Some(table + "." + column)
  {
    var u := ws + (table + ['.'] + column + post);
    var s := pre + DbColumnLabel + [colon] + ws + table + "." + column + post;
    assert s == pre + (DbColumnLabel + [colon] + u);
    assert s[|pre|..] == DbColumnLabel + [colon] + u;
    MatchHereLabel(colon, u);
    ColumnAtWellFormed(ws, table, column, post);
  }

  /** A remark that starts with a well-formed label yields its column. */
  lemma ExtractDbColumnLeading(colon: char, ws: string, table: string, column: string, post: string)
    requires IsLabelColon(colon) && AllSpace(ws)
    requires table != "" && AllUpper(table)
    requires column != "" && AllUpperOrDigit(column)
    requires post == [] || !IsUpperOrDigit(post[0])
    ensures ExtractDbColumn(DbColumnLabel + [colon] + ws + table + "." + column + post) == table + "." + column
  {
    var u := ws + (table + ['.'] + column + post);
    var remark := DbColumnLabel + [colon] + ws + table + "." + column + post;
    LabelPrefix(colon, ws, table, column, post);
    MatchHereLabel(colon, u);
    ColumnAtWellFormed(ws, table, column, post);
    ExtractDbColumnAtStart(remark);
  }

  lemma LabelPrefix(colon: char, ws: string, table: string, column: string, post: string)
    ensures DbColumnLabel + [colon] + ws + table + "." + column + post
         == DbColumnLabel + [colon] + (ws + (table + ['.'] + column + post))
  {
  }

  /** A match at the very start is the leftmost one. */
  lemma ExtractDbColumnAtStart(remark: string)
    requires MatchHere(remark).Some?
    ensures ExtractDbColumn(remark) == MatchHere(remark).value
  {
    assert remark[0..] == remark;
    assert MatchAt(remark, 0) == MatchHere(remark);
  }

  /** A remark that does not contain the label matches nowhere. */
  lemma ExtractDbColumnNoLabel(remark: string)
    requires !Contains(remark, DbColumnLabel)
    ensures ExtractDbColumn(remark) == ""
  {
    forall p | 0 <= p <= |remark| ensures MatchAt(remark, p).None? {
      if MatchHere(remark[p..]).Some? {
        assert OccursAt(remark, DbColumnLabel, p);
      }
    }
  }

  // ---------------------------------------------------------------------------
  // Rows

  /** The cell texts that mark the header row. */
  const HeaderKeywords: seq<string> := ["欄位名稱", "欄位", "參數名稱", "名稱", "資料型態", "必要"]

  /** Group marker rows, skipped. */
  const GroupMarkers: seq<string> := ["M", "P", "datakey", "H", "HF"]

  const ApiNameColumn: nat := 4
  const DataTypeColumn: nat := 5
  const RequiredColumn: nat := 6
  const DescriptionColumn: nat := 11
  const ExampleColumn: nat := 14
  const RemarkColumn: nat := 15

  predicate IsHeaderCell(c: Cell) {
    c.Str? && exists k :: 0 <= k < |HeaderKeywords| && Contains(c.s, HeaderKeywords[k])
  }

  /** Some string cell of the row contains a header keyword. */
  predicate IsHeaderRow(row: Row) {
    exists i :: 0 <= i < |row| && IsHeaderCell(row[i])
  }

  /** The first header row, searching from row `i`. */
  function HeaderFrom(sheet: Sheet, i: nat): (r: Option<nat>)
    requires i <= |sheet|
    ensures r.Some? ==> i <= r.value < |sheet| && IsHeaderRow(sheet[r.value])
    ensures r.Some? ==> forall j :: i <= j < r.value ==> !IsHeaderRow(sheet[j])
    ensures r.None? ==> forall j :: i <= j < |sheet| ==> !IsHeaderRow(sheet[j])
    decreases |sheet| - i
  {
    if i == |sheet| then None
    else if IsHeaderRow(sheet[i]) then Some(i)
    else HeaderFrom(sheet, i + 1)
  }

  /** The cleaned cell at a column, `''` past the end of the row. */
  function CleanAt(row: Row, column: nat): string {
    if column < |row| then CleanCellValue(row[column]) else ""
  }

  /** The trimmed text of column 1, `''` when that cell is falsy or missing. */
  function RowType(row: Row): string {
    if |row| > 1 && CellTruthy(row[1]) then Trim(CellString(row[1])) else ""
  }

  /** A data row: non-empty, marked `MF`, with a non-empty API name. */
  predicate IsFieldRow(row: Row) {
    |row| > 0 && RowType(row) == "MF" && CleanAt(row, ApiNameColumn) != ""
  }

  /** The field a data row describes. */
  function RowToField(row: Row): ExcelField {
    var remark := CleanAt(row, RemarkColumn);
    ExcelField(
      CleanAt(row, ApiNameColumn),
      ExtractDbColumn(remark),
      CleanAt(row, DataTypeColumn),
      None,
      if RequiredColumn < |row| then ParseRequired(row[RequiredColumn]) else false,
      CleanAt(row, DescriptionColumn),
      None,
      if ExampleColumn < |row| then Some(CleanCellValue(row[ExampleColumn])) else None,
      Some(remark))
  }

  /** The texts of a field are trimmed, its column comes from its remark, it
      has no maximum length and no validation rule, and columns missing from a
      short row take their defaults. */
  lemma RowToFieldDefaults(row: Row)
    ensures var f := RowToField(row);
      && Trimmed(f.apiName) && Trimmed(f.dataType) && Trimmed(f.description)
      && f.maxLength.None? && f.validation.None? && f.remark.Some?
      && f.dbColumn == ExtractDbColumn(f.remark.value)
      && (f.dbColumn == "" || IsDbColumn(f.dbColumn))
      && (|row| <= DataTypeColumn ==> f.dataType == "")
      && (|row| <= RequiredColumn ==> !f.required)
      && (|row| <= DescriptionColumn ==> f.description == "")
      && (|row| <= ExampleColumn <==> f.example.None?)
      && (|row| <= RemarkColumn ==> f.remark == Some("") && f.dbColumn == "")
  {
    ExtractDbColumnShape(CleanAt(row, RemarkColumn));
  }

  /** The fields of the data rows, in row order. */
  function RowsToFields(rows: seq<Row>): seq<ExcelField> {
    FlatMap(rows, RowFields)
  }

  /** The field of one row: one for a data row, none otherwise. */
  function RowFields(row: Row): seq<ExcelField> {
    if IsFieldRow(row) then [RowToField(row)] else []
  }

  /** The fields of a sheet: those of the data rows after the first header row,
      none when there is no header row. */
  function SheetFields(sheet: Sheet): seq<ExcelField> {
    match HeaderFrom(sheet, 0)
    case None => []
    case Some(h) => RowsToFields(sheet[h + 1..])
  }

  /** `parseFieldsFromSheet`. */
  method ParseFieldsFromSheet(sheetData: Sheet) returns (fields: seq<ExcelField>)
    ensures fields == SheetFields(sheetData)
  {
    fields := [];
    if |sheetData| == 0 {
      return;
    }

    var startRow := -1;
    var i := 0;
    while i < |sheetData|
      invariant 0 <= i <= |sheetData|
      invariant HeaderFrom(sheetData, 0) == HeaderFrom(sheetData, i)
    {
      if IsHeaderRow(sheetData[i]) {
        startRow := i + 1;
        break;
      }
      i := i + 1;
    }

    if startRow == -1 {
      return;
    }
    assert HeaderFrom(sheetData, 0) == Some(startRow - 1);

    fields := CollectFields(sheetData, startRow);
  }

  /** The row loop of `parseFieldsFromSheet`, from `startRow` to the end. */
  method CollectFields(sheetData: Sheet, startRow: nat) returns (fields: seq<ExcelField>)
    requires startRow <= |sheetData|
    ensures fields == RowsToFields(sheetData[startRow..])
  {
    var rows := sheetData[startRow..];
    fields := [];
    for j := 0 to |rows|
      invariant fields == RowsToFields(rows[..j])
    {
      fields := CollectRow(rows, j, fields);
    }
    assert rows[..|rows|] == rows;
  }

  /** One turn of the row loop of `CollectFields`: row `k` adds its field,
      if it has one, to those of the rows before it. */
  method CollectRow(rows: seq<Row>, k: nat, fields: seq<ExcelField>)
    returns (next: seq<ExcelField>)
    requires k < |rows|
    requires fields == RowsToFields(rows[..k])
    ensures next == RowsToFields(rows[..k + 1])
  {
    var field := FieldFromRow(rows[k]);
    next := fields;
    if field.Some? {
      next := next + [field.value];
    }
    CollectStep(rows, k, fields, next, field);
  }

  lemma CollectStep(rows: seq<Row>, k: nat, before: seq<ExcelField>,
                    after: seq<ExcelField>, field: Option<ExcelField>)
    requires k < |rows|
    requires before == RowsToFields(rows[..k])
    requires RowFields(rows[k]) == if field.Some? then [field.value] else []
    requires after == if field.Some? then before + [field.value] else before
    ensures after == RowsToFields(rows[..k + 1])
  {
    RowsToFieldsSnoc(rows, 0, k);
    assert rows[0..k] == rows[..k] && rows[0..k + 1] == rows[..k + 1];
  }


  /** The body of the row loop of `parseFieldsFromSheet`: `None` where the
      loop moves on to the next row. */
  method FieldFromRow(row: Row) returns (field: Option<ExcelField>)
    ensures RowFields(row) == if field.Some? then [field.value] else []
  {
    SkippedRow(row);
    if |row| == 0 {
      return None;
    }
    var rowType := RowType(row);
    if rowType == "" || rowType in GroupMarkers {
      return None;
    }
    if rowType != "MF" {
      return None;
    }
    var apiName := CleanAt(row, ApiNameColumn);
    if apiName == "" || Trim(apiName) == "" {
      return None;
    }
    return Some(RowToField(row));
  }

  /** The rows the loop passes over are exactly those without a field. */
  lemma SkippedRow(row: Row)
    ensures RowFields(row) ==
      if |row| == 0 || RowType(row) == "" || RowType(row) in GroupMarkers || RowType(row) != "MF"
         || CleanAt(row, ApiNameColumn) == "" || Trim(CleanAt(row, ApiNameColumn)) == ""
      then [] else [RowToField(row)]
  {
    assert "MF" !in GroupMarkers;
    TrimTrimmed(CleanAt(row, ApiNameColumn));
  }

  lemma RowsToFieldsSnoc(rows: seq<Row>, lo: nat, k: nat)
    requires lo <= k < |rows|
    ensures RowsToFields(rows[lo..k + 1]) == RowsToFields(rows[lo..k]) + RowFields(rows[k])
  {
    assert rows[lo..k + 1] == rows[lo..k] + [rows[k]];
    FlatMapSnoc(rows[lo..k], rows[k], RowFields);
  }

  /** Fields keep the order of their rows. */
  lemma RowsToFieldsAppend(a: seq<Row>, b: seq<Row>)
    ensures RowsToFields(a + b) == RowsToFields(a) + RowsToFields(b)
  {
    FlatMapAppend(a, b, RowFields);
  }

  /** Every extracted field comes from a data row and has a non-empty, trimmed
      API name, no maximum length and no validation rule. */
  lemma RowsToFieldsWellFormed(rows: seq<Row>)
    ensures |RowsToFields(rows)| <= |rows|
    ensures forall f :: f in RowsToFields(rows) ==>
      f.apiName != "" && Trimmed(f.apiName) && f.maxLength.None? && f.validation.None?
      && (f.dbColumn == "" || IsDbColumn(f.dbColumn))
    ensures forall f :: f in RowsToFields(rows) ==> exists i :: 0 <= i < |rows| && IsFieldRow(rows[i]) && f == RowToField(rows[i])
  {
    FlatMapLength(rows, RowFields);
    forall f | f in RowsToFields(rows)
      ensures f.apiName != "" && Trimmed(f.apiName) && f.maxLength.None? && f.validation.None?
      ensures f.dbColumn == "" || IsDbColumn(f.dbColumn)
      ensures exists i :: 0 <= i < |rows| && IsFieldRow(rows[i]) && f == RowToField(rows[i])
    {
      FlatMapMember(rows, RowFields, f);
      var i :| 0 <= i < |rows| && f in RowFields(rows[i]);
      RowToFieldDefaults(rows[i]);
    }
  }

  /** The fields of a sheet are well formed, and a sheet without a header row
      (the empty sheet included) has none. */
  lemma SheetFieldsWellFormed(sheet: Sheet)
    ensures forall f :: f in SheetFields(sheet) ==>
      f.apiName != "" && Trimmed(f.apiName) && f.maxLength.None? && f.validation.None?
      && (f.dbColumn == "" || IsDbColumn(f.dbColumn))
    ensures forall f :: f in SheetFields(sheet) ==>
      HeaderFrom(sheet, 0).Some?
      && exists i :: HeaderFrom(sheet, 0).value < i < |sheet| && IsFieldRow(sheet[i]) && f == RowToField(sheet[i])
    ensures (forall j :: 0 <= j < |sheet| ==> !IsHeaderRow(sheet[j])) ==> SheetFields(sheet) == []
  {
    match HeaderFrom(sheet, 0)
    case None =>
    case Some(h) =>
      RowsToFieldsWellFormed(sheet[h + 1..]);
      forall f | f in SheetFields(sheet)
        ensures exists i :: h < i < |sheet| && IsFieldRow(sheet[i]) && f == RowToField(sheet[i])
      {
        SheetFieldOrigin(sheet, h, f);
      }
  }

  /** A field of the rows after the header comes from one of those rows. */
  lemma SheetFieldOrigin(sheet: Sheet, h: nat, f: ExcelField)
    requires h < |sheet| && f in RowsToFields(sheet[h + 1..])
    ensures exists i :: h < i < |sheet| && IsFieldRow(sheet[i]) && f == RowToField(sheet[i])
  {
    var rows := sheet[h + 1..];
    RowsToFieldsWellFormed(rows);
    var k :| 0 <= k < |rows| && IsFieldRow(rows[k]) && f == RowToField(rows[k]);
    assert rows[k] == sheet[h + 1 + k];
  }

  // ---------------------------------------------------------------------------
  // Method type from the file name

  /** `extractMethodType`: the last dot-separated segment of the file name,
      except that `…query.get` and `…read.get` give `query` and `read`, and
      `…query.get_Parameter` gives `query_parameter`. */
  function ExtractMethodType(fileName: string): (r: string)
    ensures '.' !in r
  {
    var parts := Split(fileName, '.');
    var lastPart := parts[|parts| - 1];
    SplitPieces(fileName, '.', |parts| - 1);
    var secondLastPart: Option<string> := if |parts| >= 2 then Some(parts[|parts| - 2]) else None;
    if lastPart == "get" && (secondLastPart == Some("query") || secondLastPart == Some("read")) then
      secondLastPart.value
    else if lastPart == "get_Parameter" && secondLastPart == Some("query") then
      "query_parameter"
    else
      lastPart
  }

  lemma SplitTail(p: string, x: string, y: string)
    requires '.' !in x && '.' !in y
    ensures var parts := Split(p + ['.'] + (x + ['.'] + y), '.');
            |parts| >= 2 && parts[|parts| - 2] == x && parts[|parts| - 1] == y
  {
    SplitConcat(x, '.', y);
    SplitNoSep(x, '.');
    SplitNoSep(y, '.');
    SplitConcat(p, '.', x + ['.'] + y);
  }

  /** The method type of a name ending in two segments `x.y`. */
  lemma MethodTypeOfTail(p: string, x: string, y: string)
    requires '.' !in x && '.' !in y
    ensures var m := ExtractMethodType(p + "." + x + "." + y);
            && (y == "get" && (x == "query" || x == "read") ==> m == x)
            && (y == "get_Parameter" && x == "query" ==> m == "query_parameter")
            && (!(y == "get" && (x == "query" || x == "read")) && !(y == "get_Parameter" && x == "query") ==> m == y)
  {
    SplitTail(p, x, y);
    assert p + "." + x + "." + y == p + ['.'] + (x + ['.'] + y);
  }

  /** The same for a name with exactly one dot, such as `query.get`. */
  lemma MethodTypeOfPair(x: string, y: string)
    requires '.' !in x && '.' !in y
    ensures var m := ExtractMethodType(x + "." + y);
            && (y == "get" && (x == "query" || x == "read") ==> m == x)
            && (y == "get_Parameter" && x == "query" ==> m == "query_parameter")
            && (!(y == "get" && (x == "query" || x == "read")) && !(y == "get_Parameter" && x == "query") ==> m == y)
  {
    SplitPair(x, y);
    assert x + "." + y == x + ['.'] + y;
  }

  lemma SplitPair(x: string, y: string)
    requires '.' !in x && '.' !in y
    ensures Split(x + ['.'] + y, '.') == [x, y]
  {
    SplitConcat(x, '.', y);
    SplitNoSep(x, '.');
    SplitNoSep(y, '.');
  }

  /** The three special tails: `query.get`, `read.get` and `query.get_Parameter`. */
  lemma MethodTypeSpecialTails(p: string)
    ensures ExtractMethodType(p + "." + "query" + "." + "get") == "query"
    ensures ExtractMethodType(p + "." + "read" + "." + "get") == "read"
    ensures ExtractMethodType(p + "." + "query" + "." + "get_Parameter") == "query_parameter"
  {
    MethodTypeOfTail(p, "query", "get");
    MethodTypeOfTail(p, "read", "get");
    MethodTypeOfTail(p, "query", "get_Parameter");
  }

  /** Any other name gives its last segment. */
  lemma MethodTypeLastSegment(p: string, last: string)
    requires '.' !in last
    requires last != "get" && last != "get_Parameter"
    ensures ExtractMethodType(p + "." + last) == last
  {
    SplitConcat(p, '.', last);
    SplitNoSep(last, '.');
    assert p + "." + last == p + ['.'] + last;
  }

  /** A name without a dot is its own method type. */
  lemma MethodTypeNoDot(name: string)
    requires '.' !in name
    ensures ExtractMethodType(name) == name
  {
    SplitNoSep(name, '.');
  }

  // ---------------------------------------------------------------------------
  // Header / detail grouping

  /** A detail (單身) field: its API name mentions `detail` or `body`, or its
      remark mentions 單身. */
  predicate IsDetail(f: ExcelField) {
    Contains(f.apiName, "detail") || Contains(f.apiName, "body")
    || (f.remark.Some? && Contains(f.remark.value, "單身"))
  }

  function HeaderFieldsOf(fields: seq<ExcelField>): seq<ExcelField>
    decreases |fields|
  {
    if fields == [] then []
    else
      var f := fields[|fields| - 1];
      HeaderFieldsOf(fields[..|fields| - 1]) + (if IsDetail(f) then [] else [f])
  }

  function DetailFieldsOf(fields: seq<ExcelField>): seq<ExcelField>
    decreases |fields|
  {
    if fields == [] then []
    else
      var f := fields[|fields| - 1];
      DetailFieldsOf(fields[..|fields| - 1]) + (if IsDetail(f) then [f] else [])
  }

  /** `groupFields`. */
  method GroupFields(fields: seq<ExcelField>) returns (headerFields: seq<ExcelField>, detailFields: seq<ExcelField>)
    ensures headerFields == HeaderFieldsOf(fields)
    ensures detailFields == DetailFieldsOf(fields)
  {
    headerFields := [];
    detailFields := [];
    for i := 0 to |fields|
      invariant headerFields == HeaderFieldsOf(fields[..i])
      invariant detailFields == DetailFieldsOf(fields[..i])
    {
      assert fields[..i + 1][..i] == fields[..i];
      var field := fields[i];
      if Contains(field.apiName, "detail")
        || Contains(field.apiName, "body")
        || (field.remark.Some? && Contains(field.remark.value, "單身"))
      {
        detailFields := detailFields + [field];
      } else {
        headerFields := headerFields + [field];
      }
    }
    assert fields[..|fields|] == fields;
  }

  /** The grouping is a stable partition: every field lands in exactly one
      group, the detail group holds exactly the detail fields, and each group
      keeps the input order. */
  lemma {:induction false} GroupFieldsPartition(fields: seq<ExcelField>)
    ensures |HeaderFieldsOf(fields)| + |DetailFieldsOf(fields)| == |fields|
    ensures multiset(HeaderFieldsOf(fields)) + multiset(DetailFieldsOf(fields)) == multiset(fields)
    ensures forall f :: f in DetailFieldsOf(fields) <==> f in fields && IsDetail(f)
    ensures forall f :: f in HeaderFieldsOf(fields) <==> f in fields && !IsDetail(f)
    decreases |fields|
  {
    if fields != [] {
      var p := fields[..|fields| - 1];
      var f := fields[|fields| - 1];
      assert fields == p + [f];
      GroupFieldsPartition(p);
    }
  }

  /** Grouping a concatenation groups each part. */
  lemma {:induction false} GroupFieldsAppend(a: seq<ExcelField>, b: seq<ExcelField>)
    ensures HeaderFieldsOf(a + b) == HeaderFieldsOf(a) + HeaderFieldsOf(b)
    ensures DetailFieldsOf(a + b) == DetailFieldsOf(a) + DetailFieldsOf(b)
    decreases |b|
  {
    if b == [] {
      assert a + b == a;
    } else {
      var p := b[..|b| - 1];
      assert (a + b)[..|a + b| - 1] == a + p;
      GroupFieldsAppend(a, p);
    }
  }
}
