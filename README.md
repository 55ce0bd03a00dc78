# Reconciliation engine of the API document generator

This project models in Dafny the reconciliation engine of the Digiwin OAP
API-document generator, and proves properties of that model. The engine:

- reads API field definitions out of Excel sheets (`excel-import.service.ts`);
- aligns them with the fields of an operation's existing `field-data.json`
  document, and resolves each attribute with a fixed policy
  (`merge.service.ts`);
- classifies the resulting conflicts, rates the risk of a merge, recommends
  an action, and summarises a batch of operations
  (`batch-merge-analyzer.service.ts`).

Modules:

| file | module | contents |
|---|---|---|
| `wrappers.dfy` | `Wrappers` | `Option` |
| `seqs.dfy` | `Seqs` | first-occurrence de-duplication (the iteration order of a JavaScript `Set`, and of the keys of a `Map` or plain object), occurrence counting, counters, a left-to-right flat map |
| `js_text.dfy` | `JsText` | JavaScript truthiness and `||` on optional values, `String.prototype.trim`, `toLowerCase`, `includes`, `split`/`join`, `String(n)` for integers in plain decimal notation |
| `excel_import.dfy` | `ExcelImport` | cells, `cleanCellValue`, `parseRequired`, the db-column pattern `欄位代號[:：]\s*([A-Z]+\.[A-Z0-9]+)`, `parseFieldsFromSheet`, `extractMethodType`, `groupFields` |
| `merge.dfy` | `Merge` | `mergeField`, `mergeFields` (the existing document is passed in rather than read) |
| `batch_merge_analyzer.dfy` | `BatchMergeAnalyzer` | `analyzeConflictTypes`, `assessMergeRisk`, `getRecommendation`, `analyzeOperation`, `analyzeBatch`, `generateSummary` |

How the source's entities are modelled:

- The source's loops are methods with loops. They fill two `Map`s and walk
  their key union, tally conflict kinds into `typeCountMap`, count summary
  keys, search for the header row, collect the field rows, and group the
  fields. Each method is proved equal to a function on its inputs, and the
  properties are lemmas about those functions.
- A JavaScript `Map` and a plain object filled by insertion are each a Dafny
  `map` plus the sequence of its keys in insertion order. `Object.entries`
  and `Set` iteration follow that order.
- A raw cell is `Null | Str | Num | Bool`. A database field is a record of
  optional strings and naturals, keyed by the property names the code reads
  (`api_name`/`apiName`, `db_column`/`dbColumn`, …).
- Every `a || b` fallback uses JavaScript truthiness: `''`, `0` and
  `undefined` are falsy.
- `analyzeOperation` receives what its reads produced as a `Probe`: either
  the error raised, or the workbooks, whether the document exists, and the
  document's fields.

## Where the code and its documented design differ

The model follows the code:

- `mergeField` only records conflicts on `dbColumn` and `dataType`
  (`merge.service.ts:182-198`). No `description` or `required` conflict is
  ever produced, although the analyzer's kind table provides for them.
- Merge keys are `apiName.toLowerCase()` with no trimming
  (`merge.service.ts:86,92`). `"ab "` and `"ab"` are different keys.
- `assessMergeRisk` returns `low` only when there are no conflict types at
  all (`batch-merge-analyzer.service.ts:247-249`). So the
  "description-only → auto-merge" branch of `getRecommendation` (lines
  285-289) can never be taken (`DescriptionBranchUnreachable`).
- Every conflict the merge produces is of a high-severity kind. So, through
  `analyzeOperation`, the risk is never `medium`: it is `low` without
  conflicts and `high` with any (`AnalysisVerdicts`).

## Model

| member | source | states |
|---|---|---|
| Seqs.Dedupe | src/services/merge.service.ts:103-106 | the key union in `Set` order is duplicate-free and holds exactly the elements of its input |
| Seqs.DedupeFirstOccurrence | src/services/merge.service.ts:103-106 | the de-duplicated list keeps the order of first occurrences: an element listed earlier first occurs earlier in the input |
| Seqs.CountAllTallies | src/services/batch-merge-analyzer.service.ts:310 | counting `(m[k] \|\| 0) + 1` over a list gives a counter whose keys are exactly the list's elements, each mapped to its number of occurrences |
| JsText.Trim | src/services/excel-import.service.ts:270 | the result of `trim` neither starts nor ends with whitespace and is no longer than its input |
| JsText.TrimInner | src/services/excel-import.service.ts:270 | `trim` keeps a contiguous slice of its input, and everything it drops on either side is whitespace |
| JsText.TrimPadded | src/services/excel-import.service.ts:270 | trimming a trimmed string padded with whitespace on both sides gives back that string |
| JsText.TrimTrimmed | src/services/excel-import.service.ts:233 | trimming an already trimmed string changes nothing, so `apiName.trim() === ''` tests the same as `!apiName` |
| JsText.LowerTrimCommute | src/services/excel-import.service.ts:287 | `toLowerCase().trim()` equals `trim().toLowerCase()` |
| JsText.Contains | src/services/excel-import.service.ts:171-174 | `includes` is true exactly when the needle occurs at some position |
| JsText.SplitPieces | src/services/excel-import.service.ts:332 | no piece of `split('.')` contains a dot |
| JsText.JoinSplit | src/services/excel-import.service.ts:332 | joining the pieces of `split` with the separator gives back the string |
| JsText.SplitConcat | src/services/excel-import.service.ts:332 | splitting `a + sep + b` is splitting `a` followed by splitting `b` |
| JsText.IntToStringIsOne | src/services/excel-import.service.ts:287-293 | `String(n)` is `"1"` exactly when `n` is 1 |
| ExcelImport.CleanCellValue | src/services/excel-import.service.ts:268-271 | an empty cell gives `''`; any result has no surrounding whitespace |
| ExcelImport.ParseRequired | src/services/excel-import.service.ts:285-294 | false for a falsy cell; otherwise true exactly when the trimmed lower-cased text is one of `y`, `yes`, `是`, `必填`, `true`, `1` |
| ExcelImport.ParseRequiredNumber | src/services/excel-import.service.ts:285-294 | a numeric cell is required exactly when it holds 1 |
| ExcelImport.ParseRequiredBoolean | src/services/excel-import.service.ts:285-294 | a boolean cell is required exactly when it is `true` |
| ExcelImport.UpperRunShape | src/services/excel-import.service.ts:240 | `[A-Z]*` matched greedily: a prefix of capitals that cannot be extended |
| ExcelImport.UpperOrDigitRunShape | src/services/excel-import.service.ts:240 | `[A-Z0-9]*` matched greedily: a prefix of capitals and digits that cannot be extended |
| ExcelImport.ColumnAtShape | src/services/excel-import.service.ts:240 | whatever the group `([A-Z]+\.[A-Z0-9]+)` captures is capitals, a dot, then capitals and digits, with both runs non-empty |
| ExcelImport.ColumnAtWellFormed | src/services/excel-import.service.ts:240 | after optional whitespace, a well-formed `TABLE.COLUMN` that is not followed by a capital or digit is captured whole |
| ExcelImport.FirstMatchFromLeftmost | src/services/excel-import.service.ts:240 | the search returns the leftmost position where the pattern matches, and returns none only when it matches nowhere |
| ExcelImport.MatchAtLabel | src/services/excel-import.service.ts:240 | the pattern matches wherever `欄位代號`, a `:` or `：`, optional whitespace and a well-formed column occur, and captures that column |
| ExcelImport.ExtractDbColumnShape | src/services/excel-import.service.ts:236-244 | the db column of a remark is `''` or a well-formed `TABLE.COLUMN` |
| ExcelImport.ExtractDbColumnLeftmost | src/services/excel-import.service.ts:236-244 | a non-empty db column is the group of the leftmost match; `''` means the pattern matches nowhere in the remark |
| ExcelImport.ExtractDbColumnLeading | src/services/excel-import.service.ts:236-244 | a remark that starts with `欄位代號:` and a well-formed column yields that column |
| ExcelImport.ExtractDbColumnAtStart | src/services/excel-import.service.ts:240-243 | a match at the very start of the remark is the one taken |
| ExcelImport.ExtractDbColumnNoLabel | src/services/excel-import.service.ts:238-244 | a remark that does not contain the label `欄位代號` anywhere gives `''` |
| ExcelImport.HeaderFrom | src/services/excel-import.service.ts:168-180 | the header row found is the first row with a string cell that contains a header keyword; none when no row qualifies |
| ExcelImport.RowToFieldDefaults | src/services/excel-import.service.ts:232-257 | a field's texts are trimmed, its db column comes from its remark and is `''` or well-formed, `maxLength` and `validation` are undefined, and a short row gives `''` for data type and description, `false` for required, `undefined` for example and `''` for remark |
| ExcelImport.ParseFieldsFromSheet | src/services/excel-import.service.ts:157-262 | the fields are those of the data rows after the first header row, in row order; none for an empty sheet or a sheet without a header row |
| ExcelImport.CollectFields | src/services/excel-import.service.ts:213-260 | the row loop yields, in order, the field of every data row from `startRow` to the end |
| ExcelImport.CollectRow | src/services/excel-import.service.ts:214-259 | one turn of the row loop adds the row's field, if it has one, after the fields of the earlier rows |
| ExcelImport.FieldFromRow | src/services/excel-import.service.ts:215-259 | a row gives a field exactly when it is a data row, and that field is the row's field |
| ExcelImport.SkippedRow | src/services/excel-import.service.ts:216-233 | a row is skipped exactly when it is empty, unmarked, a group marker, not `MF`, or has no API name |
| ExcelImport.RowsToFieldsAppend | src/services/excel-import.service.ts:213-260 | the fields of consecutive row ranges concatenate in order |
| ExcelImport.RowsToFieldsWellFormed | src/services/excel-import.service.ts:231-259 | there are no more fields than rows; every field comes from a data row, has a non-empty trimmed API name, a db column that is `''` or well-formed, and no `maxLength` or `validation` |
| ExcelImport.SheetFieldsWellFormed | src/services/excel-import.service.ts:160-185 | every field of a sheet has a non-empty trimmed API name, a db column that is `''` or well-formed, and no `maxLength` or `validation`; every field comes from a data row after the first header row; a sheet without a header row gives none |
| ExcelImport.ExtractMethodType | src/services/excel-import.service.ts:327-348 | the method type never contains a dot |
| ExcelImport.MethodTypeOfTail | src/services/excel-import.service.ts:332-347 | for a name `p.x.y` with at least two dots: `query.get` and `read.get` give `x`, `query.get_Parameter` gives `query_parameter`, and in every other case (including `create.get` and `read.get_Parameter`) the last segment is returned as is |
| ExcelImport.MethodTypeOfPair | src/services/excel-import.service.ts:332-347 | for a name `x.y` with exactly one dot: `query.get` gives `query`, `read.get` gives `read`, `query.get_Parameter` gives `query_parameter`, and every other pair gives `y` (`create.get` gives `get`) |
| ExcelImport.MethodTypeSpecialTails | src/services/excel-import.service.ts:328-344 | `….query.get` gives `query`, `….read.get` gives `read`, and `….query.get_Parameter` gives `query_parameter` |
| ExcelImport.MethodTypeLastSegment | src/services/excel-import.service.ts:346-347 | a name whose last segment is neither `get` nor `get_Parameter` gives that segment |
| ExcelImport.MethodTypeNoDot | src/services/excel-import.service.ts:332-347 | a name without a dot is its own method type |
| ExcelImport.GroupFields | src/services/excel-import.service.ts:397-420 | the two groups are the detail fields and the other fields, each in input order |
| ExcelImport.GroupFieldsPartition | src/services/excel-import.service.ts:408-417 | grouping is a stable partition: the two groups together are a permutation of the input, and a field is detail exactly when its API name contains `detail` or `body` or its remark contains `單身` |
| ExcelImport.GroupFieldsAppend | src/services/excel-import.service.ts:408-417 | grouping a concatenation groups each part and concatenates the groups |
| Merge.OrderBy | src/services/merge.service.ts:83-94 | the key order of a `Map` is duplicate-free and holds exactly the map's keys |
| Merge.IndexByKeys | src/services/merge.service.ts:83-94 | a key is in the map exactly when some field has that key |
| Merge.IndexByLastWins | src/services/merge.service.ts:83-94 | the map holds, under each key, the last field with that key |
| Merge.IndexByValuesKeyed | src/services/merge.service.ts:83-94 | every entry of a `Map` filled by `set(key, field)` holds a field whose own key is that entry's key |
| Merge.NamelessDropped | src/services/merge.service.ts:84-93 | a database field with an empty or missing name, or an Excel field with an empty API name, is in neither map, whatever the other fields |
| Merge.UntrimmedKeys | src/services/merge.service.ts:86-92 | a database field and an Excel field share a key exactly when their names agree after lower-casing; the key keeps the name's whitespace in place, so names of different lengths such as `"ab "` and `"ab"` never share a key (under the ASCII lower-casing described at `Lower` in "## Left out") |
| Merge.ExcelOnly | src/services/merge.service.ts:112-126 | an Excel-only field has source `excel`, no conflicts, and every attribute copied from the Excel field |
| Merge.DatabaseOnly | src/services/merge.service.ts:127-137 | a database-only field has source `database`, no conflicts, snake-case properties before camel-case ones, `required` false, description defaulting to `''`, and no validation, example or remark |
| Merge.MergeOneField | src/services/merge.service.ts:178-214 | Excel wins for name, column and description when its value is non-empty, and always for required, validation, example and remark; the database wins for data type and length when truthy; a conflict is recorded on the column and then on the data type exactly when both values are non-empty and differ; `conflicts` is absent when there are none |
| Merge.ConflictResolution | src/services/merge.service.ts:182-204 | a disagreement is recorded with both values, and the merged field keeps the Excel column but the database data type |
| Merge.CaseSensitiveColumn | src/services/merge.service.ts:182-189 | for every pair of non-empty column names that differ but agree after lower-casing, the merge records a `dbColumn` conflict with both names |
| Merge.MergeFields | src/services/merge.service.ts:64-173 | `mergeFields` returns the merge of the document's fields and the workbooks' fields |
| Merge.ConcatFields | src/services/merge.service.ts:73-76 | the Excel fields are those of all workbooks, workbook after workbook |
| Merge.IndexDbFields | src/services/merge.service.ts:79-88 | the database `Map` and its key order as filled by `set` |
| Merge.IndexExcelFields | src/services/merge.service.ts:80-94 | the Excel `Map` and its key order as filled by `set` |
| Merge.MergeKeyed | src/services/merge.service.ts:97-152 | the walk over the key union yields one merged field per key and counts new, updated and conflicting keys |
| Merge.MergeKeysUnion | src/services/merge.service.ts:103-106 | the key union is duplicate-free and holds exactly the keys of the two maps |
| Merge.MergeAllAligned | src/services/merge.service.ts:108-152 | every key of the union yields exactly one merged field, at its own position |
| Merge.FieldForSource | src/services/merge.service.ts:108-151 | the source tag says which maps hold the key, and a field has conflicts exactly when its key is a conflicting key |
| Merge.ConflictCountIsFieldCount | src/services/merge.service.ts:143-148 | the conflict counter counts merged fields with conflicts, not conflict entries |
| Merge.MergeCounts | src/services/merge.service.ts:157-169 | `totalFields` is the size of the key union, `newFields` the number of Excel-only keys, `updatedFields` the number of shared keys, `totalFields = newFields + updatedFields + #database-only`, and `conflicts` the number of fields with conflicts, at most `updatedFields` |
| Merge.MergeAllWellFormed | src/services/merge.service.ts:182-212 | every merged conflict list is non-empty and names only `dbColumn` or `dataType` |
| BatchMergeAnalyzer.KindTable | src/services/batch-merge-analyzer.service.ts:47-53 | `dataType`, `required` and `description` keep their names, `dbColumn` is `mapping`, anything else is `other`; high severity exactly for `dataType` and `dbColumn`, low exactly for `description` |
| BatchMergeAnalyzer.ConflictEntriesAt | src/services/batch-merge-analyzer.service.ts:197-225 | each conflict contributes its kind and the text `<apiName>: <dbValue> → <excelValue>` |
| BatchMergeAnalyzer.ExamplesAreFirstThree | src/services/batch-merge-analyzer.service.ts:220-225 | the examples of a kind are its first three texts, or all of them when there are fewer |
| BatchMergeAnalyzer.TallyAfterCounts | src/services/batch-merge-analyzer.service.ts:192-228 | after the fold, `typeCountMap` holds each kind that occurs, in order of first occurrence, with its number of conflicts and its examples |
| BatchMergeAnalyzer.ToConflictTypesOfTally | src/services/batch-merge-analyzer.service.ts:231-236 | the entries of the tally, in key order, are the conflict types of those kinds |
| BatchMergeAnalyzer.AnalyzeConflictTypes | src/services/batch-merge-analyzer.service.ts:191-237 | `analyzeConflictTypes` returns one conflict type per kind that occurs, in order of first occurrence |
| BatchMergeAnalyzer.TypeOfShape | src/services/batch-merge-analyzer.service.ts:214-225 | a kind that occurs is counted at least once, and keeps as examples its first `min(count, 3)` texts |
| BatchMergeAnalyzer.ConflictTypesKinds | src/services/batch-merge-analyzer.service.ts:214-236 | no kind appears twice, and a kind appears exactly when some conflict has it |
| BatchMergeAnalyzer.ConflictTypeCounts | src/services/batch-merge-analyzer.service.ts:195-236 | each type counts the conflicts of its kind, carries the kind's severity and keeps at most three examples, the first ones |
| BatchMergeAnalyzer.ConflictTypesTotal | src/services/batch-merge-analyzer.service.ts:195-219 | the counts add up to the number of conflict entries |
| BatchMergeAnalyzer.AssessMergeRisk | src/services/batch-merge-analyzer.service.ts:242-270 | low exactly without conflict types; high exactly with conflict types and either a high-severity one or more than ten conflicts; medium otherwise |
| BatchMergeAnalyzer.GetRecommendation | src/services/batch-merge-analyzer.service.ts:275-293 | never skip; auto-merge exactly at low risk with no conflict types or only a description one |
| BatchMergeAnalyzer.DescriptionBranchUnreachable | src/services/batch-merge-analyzer.service.ts:280-289 | with the risk `assessMergeRisk` gives, auto-merge means no conflict types at all |
| BatchMergeAnalyzer.NoTypesNoConflicts | src/services/batch-merge-analyzer.service.ts:195-236 | there are no conflict types exactly when no field has conflicts |
| BatchMergeAnalyzer.HighSeverityTypes | src/services/batch-merge-analyzer.service.ts:234-252 | some conflict type is high severity exactly when some conflict is of a high-severity kind |
| BatchMergeAnalyzer.RiskOfConflicts | src/services/batch-merge-analyzer.service.ts:247-260 | the risk is low exactly without conflicts, and high exactly when one conflict is of a high-severity kind or there are more than ten |
| BatchMergeAnalyzer.HighKindMakesRiskHigh | src/services/batch-merge-analyzer.service.ts:252-255 | adding a field with a `dataType` or `dbColumn` conflict always makes the risk high |
| BatchMergeAnalyzer.Skipped | src/services/batch-merge-analyzer.service.ts:75-90 | a skipped operation is recommended `skip` at high risk, cannot be auto-merged, and has no fields, no conflicts and the given reason |
| BatchMergeAnalyzer.AnalyzeOperation | src/services/batch-merge-analyzer.service.ts:63-135 | `analyzeOperation` returns the analysis of the operation's sources |
| BatchMergeAnalyzer.SkipCases | src/services/batch-merge-analyzer.service.ts:75-134 | an error skips with reason `分析錯誤: <message>`; a missing workbook skips with the missing-Excel reason, checked first; a missing document skips with the missing-document reason; otherwise the operation is not skipped; every skip is high risk with no fields, conflicts or types |
| BatchMergeAnalyzer.WellFormedEntries | src/services/batch-merge-analyzer.service.ts:201-211 | with such lists every conflict is of a high-severity kind, and there are conflicts exactly when some field has them |
| BatchMergeAnalyzer.AnalysisVerdicts | src/services/batch-merge-analyzer.service.ts:93-116 | the risk is never medium; an analysed operation is recommended auto-merge exactly when `canAutoMerge`, and is low risk exactly when it has no conflicts |
| BatchMergeAnalyzer.ModuleOfPrefix | src/services/batch-merge-analyzer.service.ts:309 | the module is the longest leading run of capitals, or `OTHER` when the code does not start with a capital; never empty |
| BatchMergeAnalyzer.GenerateSummary | src/services/batch-merge-analyzer.service.ts:298-320 | `byModule` has exactly the modules that occur, in order of first occurrence, each with its count; `byRisk` and `byRecommendation` keep their three keys and count each value |
| BatchMergeAnalyzer.SummaryStep | src/services/batch-merge-analyzer.service.ts:307-317 | one turn of the summary loop counts one more result under each counter |
| BatchMergeAnalyzer.ModuleTotal | src/services/batch-merge-analyzer.service.ts:307-310 | the module counts add up to the number of results |
| BatchMergeAnalyzer.RiskTotal | src/services/batch-merge-analyzer.service.ts:300-313 | the risk counts add up to the number of results |
| BatchMergeAnalyzer.RecommendationTotal | src/services/batch-merge-analyzer.service.ts:301-316 | the recommendation counts add up to the number of results |
| BatchMergeAnalyzer.AnalysesAt | src/services/batch-merge-analyzer.service.ts:147-151 | the analysis at each position is that of the operation at the same position |
| BatchMergeAnalyzer.AnalyzeBatch | src/services/batch-merge-analyzer.service.ts:140-173 | every operation is analysed in input order; `totalOperations = analyzed = #operations`; the three recommendation counts add up to `analyzed`; the summary counts the results |

## Left out

- File-system and XLSX I/O is not modelled: `readExistingFieldData` and
  `saveMergeResult`; `scanExcelFiles`, `readExcelFile` and
  `readOperationExcels`; `checkDatabaseDocExists` and
  `generateAnalysisReport`. The model receives their results (field lists,
  sheet rows, presence flags) as inputs.
- `mergeFields` reads the existing document itself; the model is given the
  document's field list, or `None` when there is none, and `analyzeOperation`
  gets it through its `Probe` input.
- `commonSheetsCache`/`getCommonSheets`, `extractServiceInfo` and
  `parseLength` are left out: cache state and thin lookups outside the
  reconciliation engine.
- The `findColumnIndex` closure of `parseFieldsFromSheet` is never called,
  and the model leaves it out. `headerRow` is only read by it.
- `groupFields` takes a `sheetData` parameter it never reads; the model
  drops it. `assessMergeRisk`'s unused `mergeResult` parameter is dropped
  too.
- Rendering is left out: `generateMergeReport` and the `report` field,
  `conflictDetails`, `formatAnalysisReport`, the generators, `analyzedAt`
  timestamps, progress percentages and console logging.
- `async`/`await` is modelled as ordinary sequential code.
- The outer `try`/`catch` of `analyzeBatch` is left out: `analyzeOperation`
  catches every error itself, so that handler never runs.
- A `null` row in a sheet is not modelled. A row is a list of cells, and an
  empty cell is `Null`.
- Cells holding non-integer numbers are left out: JavaScript's `String` of a
  floating-point number is not modelled.
- `IntToString`: does not model JavaScript's exponent notation. `String(n)`
  prints magnitudes of 10^21 and more as `1e+21` and the like, and a
  JavaScript number holds integers exactly only up to 2^53, while `Num`
  takes any integer. Workbook cells with such numbers are outside the model.
- `Lower`: does not model the full Unicode `toLowerCase`. It maps only the
  ASCII letters A-Z, which covers the API names and tokens the engine
  compares.
- Strings are sequences of code points. JavaScript's UTF-16 code units make
  no difference to the operations modelled.
- Database field values are modelled as optional strings and naturals. Other
  JSON types in `field-data.json` are not modelled.
- The `|| 'medium'` fallback of the severity lookup is not modelled: every
  kind has an entry in the severity table, so it never applies.
- The row loop of `parseFieldsFromSheet` is written as the methods
  `CollectFields`, `CollectRow` and `FieldFromRow`, and the four loops of
  `mergeFields` as `ConcatFields`, `IndexDbFields`, `IndexExcelFields` and
  `MergeKeyed`. The behaviour is the same; each method is proved against its
  specification function.
- `mergeField` builds its conflict list with `push`; the model is a
  function that concatenates the two optional conflicts in the same order.
