/** The field merge: aligns the fields of an operation's existing field-data
    document with the fields of its Excel workbooks by lower-cased API name,
    resolves each attribute by a fixed policy and tallies new, updated and
    conflicting fields. The field-data document arrives already read. */
module Merge {
  import opened Wrappers
  import opened Seqs
  import opened JsText
  import opened ExcelImport

  /** A field record of the field-data document, under its JSON property
      names; any property may be missing (`None`). */
  datatype DbField = DbField(
    api_name: Option<string>,
    apiName: Option<string>,
    db_column: Option<string>,
    dbColumn: Option<string>,
    data_type: Option<string>,
    dataType: Option<string>,
    max_length: Option<nat>,
    maxLength: Option<nat>,
    description: Option<string>)

  /** Where a merged field came from: `database`, `excel` or `merged`. */
  datatype FieldSource = FromDatabase | FromExcel | Merged

  /** One disagreement between the two sources on one attribute. */
  datatype Conflict = Conflict(field: string, dbValue: string, excelValue: string)

  /** A merged field; `None` stands for a property left `undefined`. */
  datatype MergeField = MergeField(
    apiName: Option<string>,
    dbColumn: Option<string>,
    dataType: Option<string>,
    maxLength: Option<nat>,
    required: bool,
    description: Option<string>,
    validation: Option<string>,
    example: Option<string>,
    remark: Option<string>,
    source: FieldSource,
    conflicts: Option<seq<Conflict>>)

  /** The outcome of a merge, without its rendered report. */
  datatype MergeResult = MergeResult(
    operationCode: string,
    totalFields: nat,
    newFields: nat,
    updatedFields: nat,
    conflicts: nat,
    fields: seq<MergeField>)

  // ---------------------------------------------------------------------------
  // Keys

  /** `field.api_name || field.apiName` of a database field. */
  function DbName(d: DbField): Option<string> {
    OrStr(d.api_name, d.apiName)
  }

  /** The map key of a database field: its lower-cased name, none when the
      name is empty or missing. */
  function DbKey(d: DbField): Option<string> {
    if Truthy(DbName(d)) then Some(Lower(DbName(d).value)) else None
  }

  /** The map key of an Excel field: its lower-cased API name, none when
      that is empty. */
  function ExcelKey(e: ExcelField): Option<string> {
    if e.apiName != "" then Some(Lower(e.apiName)) else None
  }

  /** The contents of a `Map` filled by `set(key(r), r)` for every record with
      a key: a later record overwrites an earlier one with the same key. */
  function IndexBy<R>(rs: seq<R>, key: R -> Option<string>): map<string, R>
    decreases |rs|
  {
    if rs == [] then map[]
    else
      var m := IndexBy(rs[..|rs| - 1], key);
      var r := rs[|rs| - 1];
      if key(r).Some? then m[key(r).value := r] else m
  }

  /** The key order of the same `Map`: each key where it was first set. */
  function OrderBy<R>(rs: seq<R>, key: R -> Option<string>): (ks: seq<string>)
    ensures Distinct(ks)
    ensures forall k :: k in ks <==> k in IndexBy(rs, key)
    decreases |rs|
  {
    if rs == [] then []
    else
      var o := OrderBy(rs[..|rs| - 1], key);
      var r := rs[|rs| - 1];
      if key(r).Some? && key(r).value !in o then o + [key(r).value] else o
  }

  /** A key is in the map exactly when some record has it. */
  lemma {:induction false} IndexByKeys<R>(rs: seq<R>, key: R -> Option<string>, k: string)
    ensures k in IndexBy(rs, key) <==> exists i :: 0 <= i < |rs| && key(rs[i]) == Some(k)
    decreases |rs|
  {
    if rs != [] {
      var p := rs[..|rs| - 1];
      IndexByKeys(p, key, k);
      if k in IndexBy(p, key) {
        var i :| 0 <= i < |p| && key(p[i]) == Some(k);
        assert rs[i] == p[i];
      }
      if exists i :: 0 <= i < |rs| && key(rs[i]) == Some(k) {
        var i :| 0 <= i < |rs| && key(rs[i]) == Some(k);
        if i < |p| {
          assert p[i] == rs[i];
        }
      }
    }
  }

  /** The map holds, under each key, the last record with that key. */
  lemma {:induction false} IndexByLastWins<R>(rs: seq<R>, key: R -> Option<string>, i: nat)
    requires i < |rs| && key(rs[i]).Some?
    requires forall j :: i < j < |rs| ==> key(rs[j]) != key(rs[i])
    ensures key(rs[i]).value in IndexBy(rs, key)
    ensures IndexBy(rs, key)[key(rs[i]).value] == rs[i]
    decreases |rs|
  {
    if i < |rs| - 1 {
      var p := rs[..|rs| - 1];
      assert p[i] == rs[i];
      forall j | i < j < |p| ensures key(p[j]) != key(p[i]) {
        assert p[j] == rs[j];
      }
      IndexByLastWins(p, key, i);
    }
  }

  /** Every entry of the map sits under its own record's key. */
  lemma {:induction false} IndexByValuesKeyed<R>(rs: seq<R>, key: R -> Option<string>, k: string)
    requires k in IndexBy(rs, key)
    ensures key(IndexBy(rs, key)[k]) == Some(k)
    decreases |rs|
  {
    var r := rs[|rs| - 1];
    if !(key(r).Some? && key(r).value == k) {
      IndexByValuesKeyed(rs[..|rs| - 1], key, k);
    }
  }

  /** A field without a name is in neither map, whatever the other fields. */
  lemma NamelessDropped(dbFields: seq<DbField>, excelFields: seq<ExcelField>, d: DbField, e: ExcelField)
    ensures !Truthy(DbName(d)) ==> d !in IndexBy(dbFields, DbKey).Values
    ensures e.apiName == "" ==> e !in IndexBy(excelFields, ExcelKey).Values
  {
    if d in IndexBy(dbFields, DbKey).Values {
      var k :| k in IndexBy(dbFields, DbKey) && IndexBy(dbFields, DbKey)[k] == d;
      IndexByValuesKeyed(dbFields, DbKey, k);
    }
    if e in IndexBy(excelFields, ExcelKey).Values {
      var k :| k in IndexBy(excelFields, ExcelKey) && IndexBy(excelFields, ExcelKey)[k] == e;
      IndexByValuesKeyed(excelFields, ExcelKey, k);
    }
  }

  /** Keys are lower-cased but never trimmed: a database field and an Excel
      field meet under one key exactly when their names agree after
      lower-casing, the key keeps every whitespace character of the name in
      place, and names of different lengths (`"ab "` and `"ab"`) never meet. */
  lemma UntrimmedKeys(d: DbField, e: ExcelField)
    requires Truthy(DbName(d)) && e.apiName != ""
    ensures DbKey(d) == ExcelKey(e) <==> Lower(DbName(d).value) == Lower(e.apiName)
    ensures |ExcelKey(e).value| == |e.apiName|
    ensures forall i :: 0 <= i < |e.apiName| && IsSpace(e.apiName[i]) ==> ExcelKey(e).value[i] == e.apiName[i]
    ensures |DbName(d).value| != |e.apiName| ==> DbKey(d) != ExcelKey(e)
  {
  }

  // ---------------------------------------------------------------------------
  // One field

  /** Both sides name a table column and the names differ. */
  predicate DisagreeOnColumn(d: DbField, e: ExcelField) {
    Truthy(d.db_column) && e.dbColumn != "" && d.db_column.value != e.dbColumn
  }

  /** Both sides name a data type and the names differ. */
  predicate DisagreeOnType(d: DbField, e: ExcelField) {
    Truthy(d.data_type) && e.dataType != "" && d.data_type.value != e.dataType
  }

  /** A field found only in the workbooks: every attribute copied. */
  function ExcelOnly(e: ExcelField): (m: MergeField)
    ensures m.source == FromExcel && m.conflicts.None?
    ensures m.apiName == Some(e.apiName) && m.dbColumn == Some(e.dbColumn)
    ensures m.dataType == Some(e.dataType) && m.maxLength == e.maxLength
    ensures m.required == e.required && m.description == Some(e.description)
    ensures m.validation == e.validation && m.example == e.example && m.remark == e.remark
  {
    MergeField(Some(e.apiName), Some(e.dbColumn), Some(e.dataType), e.maxLength, e.required,
      Some(e.description), e.validation, e.example, e.remark, FromExcel, None)
  }

  /** A field found only in the field-data document: snake-case properties
      first, not required, description defaulting to `''`, and no validation,
      example or remark. */
  function DatabaseOnly(d: DbField): (m: MergeField)
    ensures m.source == FromDatabase && m.conflicts.None?
    ensures m.apiName == OrStr(d.api_name, d.apiName)
    ensures m.dbColumn == OrStr(d.db_column, d.dbColumn)
    ensures m.dataType == OrStr(d.data_type, d.dataType)
    ensures m.maxLength == OrNat(d.max_length, d.maxLength)
    ensures !m.required
    ensures m.description == (if Truthy(d.description) then d.description else Some(""))
    ensures m.validation.None? && m.example.None? && m.remark.None?
  {
    MergeField(
      OrStr(d.api_name, d.apiName),
      OrStr(d.db_column, d.dbColumn),
      OrStr(d.data_type, d.dataType),
      OrNat(d.max_length, d.maxLength),
      false,
      OrStr(d.description, Some("")),
      None, None, None, FromDatabase, None)
  }

  /** `mergeField`: a field found on both sides. */
  function MergeOneField(d: DbField, e: ExcelField): (m: MergeField)
    ensures m.source == Merged
    // Excel wins for the name, column, required flag, description, validation, example and remark
    ensures e.apiName != "" ==> m.apiName == Some(e.apiName)
    ensures e.apiName == "" ==> m.apiName == d.api_name
    ensures e.dbColumn != "" ==> m.dbColumn == Some(e.dbColumn)
    ensures e.dbColumn == "" ==> m.dbColumn == d.db_column
    ensures m.required == e.required
    ensures e.description != "" ==> m.description == Some(e.description)
    ensures e.description == "" ==> m.description == d.description
    ensures m.validation == e.validation && m.example == e.example && m.remark == e.remark
    // the database wins for the data type and the length
    ensures Truthy(d.data_type) ==> m.dataType == d.data_type
    ensures !Truthy(d.data_type) ==> m.dataType == Some(e.dataType)
    ensures TruthyNat(d.max_length) ==> m.maxLength == d.max_length
    ensures !TruthyNat(d.max_length) ==> m.maxLength == e.maxLength
    // conflicts: only the column and the data type, in that order, absent when none
    ensures m.conflicts.None? <==> !DisagreeOnColumn(d, e) && !DisagreeOnType(d, e)
    ensures m.conflicts.Some? ==> 1 <= |m.conflicts.value| <= 2
    ensures m.conflicts.Some? ==> forall c :: c in m.conflicts.value ==>
                                    c.field in {"dbColumn", "dataType"} && c.dbValue != c.excelValue
    ensures DisagreeOnColumn(d, e) ==> m.conflicts.value[0] == Conflict("dbColumn", d.db_column.value, e.dbColumn)
    ensures DisagreeOnType(d, e) ==> m.conflicts.value[|m.conflicts.value| - 1]
                                     == Conflict("dataType", d.data_type.value, e.dataType)
    ensures (exists c :: c in Conflicts(m) && c.field == "dbColumn") <==> DisagreeOnColumn(d, e)
    ensures (exists c :: c in Conflicts(m) && c.field == "dataType") <==> DisagreeOnType(d, e)
  {
    var columnConflicts :=
      if d.db_column != Some(e.dbColumn) && Truthy(d.db_column) && e.dbColumn != ""
      then [Conflict("dbColumn", d.db_column.value, e.dbColumn)] else [];
    var typeConflicts :=
      if d.data_type != Some(e.dataType) && Truthy(d.data_type) && e.dataType != ""
      then [Conflict("dataType", d.data_type.value, e.dataType)] else [];
    var conflicts := columnConflicts + typeConflicts;
    MergeField(
      OrStr(Some(e.apiName), d.api_name),
      OrStr(Some(e.dbColumn), d.db_column),
      OrStr(d.data_type, Some(e.dataType)),
      OrNat(d.max_length, e.maxLength),
      e.required,
      OrStr(Some(e.description), d.description),
      e.validation,
      e.example,
      e.remark,
      Merged,
      if |conflicts| > 0 then Some(conflicts) else None)
  }

  /** The conflicts of a field, the empty list when they are absent. */
  function Conflicts(m: MergeField): seq<Conflict> {
    if m.conflicts.Some? then m.conflicts.value else []
  }

  /** Where the two sides disagree, the recorded conflict carries both values
      and the merged field keeps the Excel column but the database data type. */
  lemma ConflictResolution(d: DbField, e: ExcelField)
    ensures DisagreeOnColumn(d, e) ==>
      Conflict("dbColumn", d.db_column.value, e.dbColumn) in Conflicts(MergeOneField(d, e))
      && MergeOneField(d, e).dbColumn == Some(e.dbColumn)
    ensures DisagreeOnType(d, e) ==>
      Conflict("dataType", d.data_type.value, e.dataType) in Conflicts(MergeOneField(d, e))
      && MergeOneField(d, e).dataType == d.data_type
  {
  }

  /** Column names are compared as they are: a difference in letter case
      alone is a conflict. */
  lemma CaseSensitiveColumn(d: DbField, e: ExcelField)
    requires Truthy(d.db_column) && e.dbColumn != ""
    requires d.db_column.value != e.dbColumn && Lower(d.db_column.value) == Lower(e.dbColumn)
    ensures MergeOneField(d, e).conflicts.Some?
    ensures Conflict("dbColumn", d.db_column.value, e.dbColumn) in Conflicts(MergeOneField(d, e))
  {
  }

  // ---------------------------------------------------------------------------
  // All fields

  /** `existingData?.fields || []`: `None` when there is no document or it has
      no field list. */
  function DbFieldsOf(existing: Option<seq<DbField>>): seq<DbField> {
    if existing.Some? then existing.value else []
  }

  /** All Excel fields, workbook after workbook. */
  function AllExcelFields(workbooks: seq<ExcelWorkbook>): seq<ExcelField>
    decreases |workbooks|
  {
    if workbooks == [] then []
    else AllExcelFields(workbooks[..|workbooks| - 1]) + workbooks[|workbooks| - 1].fields
  }

  /** The merged field of one key of the union, none for a key in neither map. */
  function FieldFor(k: string, dbMap: map<string, DbField>, excelMap: map<string, ExcelField>): seq<MergeField> {
    if k !in dbMap && k in excelMap then [ExcelOnly(excelMap[k])]
    else if k in dbMap && k !in excelMap then [DatabaseOnly(dbMap[k])]
    else if k in dbMap && k in excelMap then [MergeOneField(dbMap[k], excelMap[k])]
    else []
  }

  function MergeAll(keys: seq<string>, dbMap: map<string, DbField>, excelMap: map<string, ExcelField>): seq<MergeField>
    decreases |keys|
  {
    if keys == [] then []
    else MergeAll(keys[..|keys| - 1], dbMap, excelMap) + FieldFor(keys[|keys| - 1], dbMap, excelMap)
  }

  /** Keys only in the workbooks. */
  function NewKeys(dbMap: map<string, DbField>, excelMap: map<string, ExcelField>): set<string> {
    excelMap.Keys - dbMap.Keys
  }

  /** Keys on both sides. */
  function SharedKeys(dbMap: map<string, DbField>, excelMap: map<string, ExcelField>): set<string> {
    excelMap.Keys * dbMap.Keys
  }

  /** Keys on both sides whose merged field has conflicts. */
  function ConflictKeys(dbMap: map<string, DbField>, excelMap: map<string, ExcelField>): set<string> {
    set k | k in dbMap && k in excelMap && MergeOneField(dbMap[k], excelMap[k]).conflicts.Some?
  }

  /** The union of the two key sets in `Set` order: database keys first. */
  function MergeKeys(dbFields: seq<DbField>, excelFields: seq<ExcelField>): seq<string> {
    Dedupe(OrderBy(dbFields, DbKey) + OrderBy(excelFields, ExcelKey))
  }

  /** What `mergeFields` returns for an operation, its field-data document and
      its workbooks. */
  function MergeResultOf(operationCode: string, existing: Option<seq<DbField>>, workbooks: seq<ExcelWorkbook>): MergeResult {
    var dbFields := DbFieldsOf(existing);
    var excelFields := AllExcelFields(workbooks);
    var dbMap := IndexBy(dbFields, DbKey);
    var excelMap := IndexBy(excelFields, ExcelKey);
    var keys := MergeKeys(dbFields, excelFields);
    var fields := MergeAll(keys, dbMap, excelMap);
    MergeResult(operationCode, |fields|,
      CountIn(keys, NewKeys(dbMap, excelMap)),
      CountIn(keys, SharedKeys(dbMap, excelMap)),
      CountIn(keys, ConflictKeys(dbMap, excelMap)),
      fields)
  }

  /** `mergeFields`, given the fields of the existing document (`None` when
      there is none) instead of reading it. */
  method MergeFields(operationCode: string, existing: Option<seq<DbField>>, excelWorkbooks: seq<ExcelWorkbook>)
    returns (result: MergeResult)
    ensures result == MergeResultOf(operationCode, existing, excelWorkbooks)
  {
    var dbFields := if existing.Some? then existing.value else [];
    var allExcelFields := ConcatFields(excelWorkbooks);
    var dbFieldMap, dbFieldKeys := IndexDbFields(dbFields);
    var excelFieldMap, excelFieldKeys := IndexExcelFields(allExcelFields);
    var allFieldNames := Dedupe(dbFieldKeys + excelFieldKeys);
    var mergedFields, newFields, updatedFields, conflicts := MergeKeyed(allFieldNames, dbFieldMap, excelFieldMap);
    result := MergeResult(operationCode, |mergedFields|, newFields, updatedFields, conflicts, mergedFields);
  }

  /** The first loop of `mergeFields`: the fields of all workbooks in order. */
  method ConcatFields(excelWorkbooks: seq<ExcelWorkbook>) returns (allExcelFields: seq<ExcelField>)
    ensures allExcelFields == AllExcelFields(excelWorkbooks)
  {
    allExcelFields := [];
    for w := 0 to |excelWorkbooks|
      invariant allExcelFields == AllExcelFields(excelWorkbooks[..w])
    {
      assert excelWorkbooks[..w + 1][..w] == excelWorkbooks[..w];
      allExcelFields := allExcelFields + excelWorkbooks[w].fields;
    }
    assert excelWorkbooks[..|excelWorkbooks|] == excelWorkbooks;
  }

  /** The `Map` of database fields by lower-cased name, with its key order. */
  method IndexDbFields(dbFields: seq<DbField>) returns (dbFieldMap: map<string, DbField>, dbFieldKeys: seq<string>)
    ensures dbFieldMap == IndexBy(dbFields, DbKey)
    ensures dbFieldKeys == OrderBy(dbFields, DbKey)
  {
    dbFieldMap := map[];
    dbFieldKeys := [];
    for i := 0 to |dbFields|
      invariant dbFieldMap == IndexBy(dbFields[..i], DbKey)
      invariant dbFieldKeys == OrderBy(dbFields[..i], DbKey)
    {
      IndexStep(dbFields, DbKey, i);
      var field := dbFields[i];
      var apiName := OrStr(field.api_name, field.apiName);
      if Truthy(apiName) {
        var key := Lower(apiName.value);
        if key !in dbFieldMap {
          dbFieldKeys := dbFieldKeys + [key];
        }
        dbFieldMap := dbFieldMap[key := field];
      }
    }
    assert dbFields[..|dbFields|] == dbFields;
  }

  /** The `Map` of Excel fields by lower-cased name, with its key order. */
  method IndexExcelFields(allExcelFields: seq<ExcelField>)
    returns (excelFieldMap: map<string, ExcelField>, excelFieldKeys: seq<string>)
    ensures excelFieldMap == IndexBy(allExcelFields, ExcelKey)
    ensures excelFieldKeys == OrderBy(allExcelFields, ExcelKey)
  {
    excelFieldMap := map[];
    excelFieldKeys := [];
    for i := 0 to |allExcelFields|
      invariant excelFieldMap == IndexBy(allExcelFields[..i], ExcelKey)
      invariant excelFieldKeys == OrderBy(allExcelFields[..i], ExcelKey)
    {
      IndexStep(allExcelFields, ExcelKey, i);
      var field := allExcelFields[i];
      if field.apiName != "" {
        var key := Lower(field.apiName);
        if key !in excelFieldMap {
          excelFieldKeys := excelFieldKeys + [key];
        }
        excelFieldMap := excelFieldMap[key := field];
      }
    }
    assert allExcelFields[..|allExcelFields|] == allExcelFields;
  }

  /** The walk over the key union of `mergeFields`, with its three counters. */
  method MergeKeyed(allFieldNames: seq<string>, dbFieldMap: map<string, DbField>, excelFieldMap: map<string, ExcelField>)
    returns (mergedFields: seq<MergeField>, newFields: nat, updatedFields: nat, conflicts: nat)
    ensures mergedFields == MergeAll(allFieldNames, dbFieldMap, excelFieldMap)
    ensures newFields == CountIn(allFieldNames, NewKeys(dbFieldMap, excelFieldMap))
    ensures updatedFields == CountIn(allFieldNames, SharedKeys(dbFieldMap, excelFieldMap))
    ensures conflicts == CountIn(allFieldNames, ConflictKeys(dbFieldMap, excelFieldMap))
  {
    mergedFields := [];
    conflicts := 0;
    newFields := 0;
    updatedFields := 0;
    for i := 0 to |allFieldNames|
      invariant mergedFields == MergeAll(allFieldNames[..i], dbFieldMap, excelFieldMap)
      invariant newFields == CountIn(allFieldNames[..i], NewKeys(dbFieldMap, excelFieldMap))
      invariant updatedFields == CountIn(allFieldNames[..i], SharedKeys(dbFieldMap, excelFieldMap))
      invariant conflicts == CountIn(allFieldNames[..i], ConflictKeys(dbFieldMap, excelFieldMap))
    {
      MergeStep(allFieldNames, i, dbFieldMap, excelFieldMap);
      var fieldName := allFieldNames[i];
      if fieldName !in dbFieldMap && fieldName in excelFieldMap {
        mergedFields := mergedFields + [ExcelOnly(excelFieldMap[fieldName])];
        newFields := newFields + 1;
      } else if fieldName in dbFieldMap && fieldName !in excelFieldMap {
        mergedFields := mergedFields + [DatabaseOnly(dbFieldMap[fieldName])];
      } else if fieldName in dbFieldMap && fieldName in excelFieldMap {
        var merged := MergeOneField(dbFieldMap[fieldName], excelFieldMap[fieldName]);
        mergedFields := mergedFields + [merged];
        if merged.conflicts.Some? && |merged.conflicts.value| > 0 {
          conflicts := conflicts + 1;
        }
        updatedFields := updatedFields + 1;
      }
    }
    assert allFieldNames[..|allFieldNames|] == allFieldNames;
  }

  /** One step of filling a `Map`. */
  lemma IndexStep<R>(rs: seq<R>, key: R -> Option<string>, i: nat)
    requires i < |rs|
    ensures IndexBy(rs[..i + 1], key)
         == if key(rs[i]).Some? then IndexBy(rs[..i], key)[key(rs[i]).value := rs[i]] else IndexBy(rs[..i], key)
    ensures OrderBy(rs[..i + 1], key)
         == if key(rs[i]).Some? && key(rs[i]).value !in IndexBy(rs[..i], key)
            then OrderBy(rs[..i], key) + [key(rs[i]).value] else OrderBy(rs[..i], key)
  {
    assert rs[..i + 1][..i] == rs[..i];
  }

  /** One step of the walk over the key union. */
  lemma MergeStep(keys: seq<string>, i: nat, dbMap: map<string, DbField>, excelMap: map<string, ExcelField>)
    requires i < |keys|
    ensures MergeAll(keys[..i + 1], dbMap, excelMap) == MergeAll(keys[..i], dbMap, excelMap) + FieldFor(keys[i], dbMap, excelMap)
    ensures CountIn(keys[..i + 1], NewKeys(dbMap, excelMap))
         == CountIn(keys[..i], NewKeys(dbMap, excelMap)) + (if keys[i] in NewKeys(dbMap, excelMap) then 1 else 0)
    ensures CountIn(keys[..i + 1], SharedKeys(dbMap, excelMap))
         == CountIn(keys[..i], SharedKeys(dbMap, excelMap)) + (if keys[i] in SharedKeys(dbMap, excelMap) then 1 else 0)
    ensures CountIn(keys[..i + 1], ConflictKeys(dbMap, excelMap))
         == CountIn(keys[..i], ConflictKeys(dbMap, excelMap)) + (if keys[i] in ConflictKeys(dbMap, excelMap) then 1 else 0)
  {
    assert keys[..i + 1][..i] == keys[..i];
  }

  // ---------------------------------------------------------------------------
  // Properties of the merge

  /** The key union is duplicate-free and holds exactly the keys of the two maps. */
  lemma MergeKeysUnion(dbFields: seq<DbField>, excelFields: seq<ExcelField>)
    ensures Distinct(MergeKeys(dbFields, excelFields))
    ensures forall k :: k in MergeKeys(dbFields, excelFields) <==>
      k in IndexBy(dbFields, DbKey) || k in IndexBy(excelFields, ExcelKey)
  {
  }

  lemma {:induction false} MergeAllSnoc(keys: seq<string>, k: string, dbMap: map<string, DbField>, excelMap: map<string, ExcelField>)
    ensures MergeAll(keys + [k], dbMap, excelMap) == MergeAll(keys, dbMap, excelMap) + FieldFor(k, dbMap, excelMap)
  {
    assert (keys + [k])[..|keys|] == keys;
  }

  /** Every key present in one of the maps yields exactly one merged field, at
      its own position, tagged by the side(s) it came from. */
  lemma {:induction false} MergeAllAligned(keys: seq<string>, dbMap: map<string, DbField>, excelMap: map<string, ExcelField>)
    requires forall k :: k in keys ==> k in dbMap || k in excelMap
    ensures |MergeAll(keys, dbMap, excelMap)| == |keys|
    ensures forall i :: 0 <= i < |keys| ==> [MergeAll(keys, dbMap, excelMap)[i]] == FieldFor(keys[i], dbMap, excelMap)
    decreases |keys|
  {
    if keys != [] {
      var p := keys[..|keys| - 1];
      assert forall k :: k in p ==> k in keys;
      MergeAllAligned(p, dbMap, excelMap);
      var last := keys[|keys| - 1];
      assert |FieldFor(last, dbMap, excelMap)| == 1;
      forall i | 0 <= i < |keys|
        ensures [MergeAll(keys, dbMap, excelMap)[i]] == FieldFor(keys[i], dbMap, excelMap)
      {
        if i < |p| {
          assert keys[i] == p[i];
        }
      }
    }
  }

  /** The source tag of a merged field says which maps hold its key. */
  lemma FieldForSource(k: string, dbMap: map<string, DbField>, excelMap: map<string, ExcelField>)
    requires k in dbMap || k in excelMap
    ensures |FieldFor(k, dbMap, excelMap)| == 1
    ensures FieldFor(k, dbMap, excelMap)[0].source == FromExcel <==> k !in dbMap
    ensures FieldFor(k, dbMap, excelMap)[0].source == FromDatabase <==> k !in excelMap
    ensures FieldFor(k, dbMap, excelMap)[0].source == Merged <==> k in dbMap && k in excelMap
    ensures FieldFor(k, dbMap, excelMap)[0].conflicts.Some? <==> k in ConflictKeys(dbMap, excelMap)
  {
  }

  /** The number of fields that carry conflicts. */
  function NumConflicted(fields: seq<MergeField>): (n: nat)
    ensures n <= |fields|
    decreases |fields|
  {
    if fields == [] then 0
    else NumConflicted(fields[..|fields| - 1]) + (if fields[|fields| - 1].conflicts.Some? then 1 else 0)
  }

  lemma {:induction false} NumConflictedAppend(a: seq<MergeField>, b: seq<MergeField>)
    ensures NumConflicted(a + b) == NumConflicted(a) + NumConflicted(b)
    decreases |b|
  {
    if b == [] {
      assert a + b == a;
    } else {
      var p := b[..|b| - 1];
      assert (a + b)[..|a + b| - 1] == a + p;
      NumConflictedAppend(a, p);
    }
  }

  /** Counting conflicting keys counts merged fields with conflicts, not
      conflict entries. */
  lemma {:induction false} ConflictCountIsFieldCount(keys: seq<string>, dbMap: map<string, DbField>, excelMap: map<string, ExcelField>)
    requires forall k :: k in keys ==> k in dbMap || k in excelMap
    ensures CountIn(keys, ConflictKeys(dbMap, excelMap)) == NumConflicted(MergeAll(keys, dbMap, excelMap))
    decreases |keys|
  {
    if keys != [] {
      var p := keys[..|keys| - 1];
      var k := keys[|keys| - 1];
      assert forall x :: x in p ==> x in keys;
      ConflictCountIsFieldCount(p, dbMap, excelMap);
      FieldForSource(k, dbMap, excelMap);
      NumConflictedAppend(MergeAll(p, dbMap, excelMap), FieldFor(k, dbMap, excelMap));
      assert NumConflicted(FieldFor(k, dbMap, excelMap)) == (if k in ConflictKeys(dbMap, excelMap) then 1 else 0) by {
        var f := FieldFor(k, dbMap, excelMap);
        assert f[..0] == [];
      }
    }
  }

  /** The conflict lists of merged fields are never empty and only name the
      column or the data type. */
  predicate WellFormedConflicts(fields: seq<MergeField>) {
    forall i :: 0 <= i < |fields| ==> fields[i].conflicts.Some? ==>
      fields[i].conflicts.value != []
      && forall c :: c in fields[i].conflicts.value ==> c.field == "dbColumn" || c.field == "dataType"
  }

  lemma {:induction false} MergeAllWellFormed(keys: seq<string>, dbMap: map<string, DbField>, excelMap: map<string, ExcelField>)
    ensures WellFormedConflicts(MergeAll(keys, dbMap, excelMap))
    decreases |keys|
  {
    if keys != [] {
      MergeAllWellFormed(keys[..|keys| - 1], dbMap, excelMap);
    }
  }

  /** The counts of a merge: `totalFields` is the size of the key union,
      `newFields` the number of Excel-only keys, `updatedFields` the number of
      shared keys, the rest are database-only, and `conflicts` is the number
      of merged fields with conflicts. */
  lemma MergeCounts(operationCode: string, existing: Option<seq<DbField>>, workbooks: seq<ExcelWorkbook>)
    ensures var r := MergeResultOf(operationCode, existing, workbooks);
      var dbMap := IndexBy(DbFieldsOf(existing), DbKey);
      var excelMap := IndexBy(AllExcelFields(workbooks), ExcelKey);
      && r.totalFields == |r.fields| == |dbMap.Keys + excelMap.Keys|
      && r.newFields == |excelMap.Keys - dbMap.Keys|
      && r.updatedFields == |excelMap.Keys * dbMap.Keys|
      && r.totalFields == r.newFields + r.updatedFields + |dbMap.Keys - excelMap.Keys|
      && r.conflicts == NumConflicted(r.fields) <= r.updatedFields
  {
    var dbFields := DbFieldsOf(existing);
    var excelFields := AllExcelFields(workbooks);
    var dbMap := IndexBy(dbFields, DbKey);
    var excelMap := IndexBy(excelFields, ExcelKey);
    var keys := MergeKeys(dbFields, excelFields);
    MergeKeysUnion(dbFields, excelFields);
    MergeAllAligned(keys, dbMap, excelMap);
    ConflictCountIsFieldCount(keys, dbMap, excelMap);
    CountsOverUnion(keys, dbMap.Keys, excelMap.Keys, ConflictKeys(dbMap, excelMap));
  }

  /** Counting a duplicate-free enumeration of a union by parts. */
  lemma CountsOverUnion(keys: seq<string>, d: set<string>, e: set<string>, c: set<string>)
    requires Distinct(keys)
    requires forall k :: k in keys <==> k in d || k in e
    requires c <= e * d
    ensures |keys| == |d + e|
    ensures CountIn(keys, e - d) == |e - d|
    ensures CountIn(keys, e * d) == |e * d|
    ensures CountIn(keys, c) == |c| <= |e * d|
    ensures |d + e| == |e - d| + |e * d| + |d - e|
  {
    assert ToSet(keys) == d + e;
    DistinctCard(keys);
    CountInDistinct(keys, e - d);
    assert ToSet(keys) * (e - d) == e - d;
    CountInDistinct(keys, e * d);
    assert ToSet(keys) * (e * d) == e * d;
    CountInDistinct(keys, c);
    assert ToSet(keys) * c == c;
    SubsetCard(c, e * d);
    UnionParts(d, e);
  }

  lemma SubsetCard(a: set<string>, b: set<string>)
    requires a <= b
    ensures |a| <= |b|
  {
    assert b == a + (b - a);
  }

  lemma UnionParts(d: set<string>, e: set<string>)
    ensures |d + e| == |e - d| + |e * d| + |d - e|
  {
    assert d + e == (e - d) + (e * d) + (d - e);
    assert (e - d) !! (e * d);
    assert ((e - d) + (e * d)) !! (d - e);
  }
}
